/**
 * The workspace (script/internal/workspace.py): the name-keyed registry of
 * targets in registration order, condition filtering, and the one-pass
 * reordering of get_sorted_targets.
 */
module Workspaces {
  import opened Wrappers
  import opened SeqUtil
  import opened Scoping
  import opened TargetTypes
  import opened ToolchainCommon
  import opened BuildDefs
  import opened Platform
  import opened WorkspaceLayout
  import opened Targets
  import opened TargetSort

  /** The target names, in registration order. */
  function NamesOf(ts: seq<Target>): (r: seq<string>)
    ensures |r| == |ts| && forall i | 0 <= i < |ts| :: r[i] == ts[i].name
  {
    seq(|ts|, i requires 0 <= i < |ts| => ts[i].name)
  }

  /** The dict's key invariant: no two registered targets share a name. */
  predicate DistinctNames(ts: seq<Target>) {
    forall i, j | 0 <= i < j < |ts| :: ts[i].name != ts[j].name
  }

  /** Distinct names make distinct targets. */
  lemma DistinctNamesNoDup(ts: seq<Target>)
    requires DistinctNames(ts)
    ensures NoDup(ts)
  {
  }

  /** `self._targets[name]` over the registration list. */
  function FindByName(ts: seq<Target>, name: string): (r: Option<Target>)
    ensures r.Some? <==> name in NamesOf(ts)
    ensures r.Some? ==> r.value in ts && r.value.name == name
    decreases |ts|
  {
    if |ts| == 0 then None
    else if ts[0].name == name then Some(ts[0])
    else
      var r := FindByName(ts[1..], name);
      assert name in NamesOf(ts) <==> ts[0].name == name || name in NamesOf(ts[1..]) by {
        if name in NamesOf(ts) {
          var i :| 0 <= i < |ts| && NamesOf(ts)[i] == name;
          if i > 0 {
            assert NamesOf(ts[1..])[i - 1] == name;
          }
        }
        if name in NamesOf(ts[1..]) {
          var i :| 0 <= i < |ts| - 1 && NamesOf(ts[1..])[i] == name;
          assert NamesOf(ts)[i + 1] == name;
        }
      }
      r
  }

  /** A target registered under a new name is found under it, and every earlier name still finds its target. */
  lemma {:induction false} FindAfterAdd(ts: seq<Target>, t: Target, name: string)
    requires t.name !in NamesOf(ts)
    ensures FindByName(ts + [t], name) == if name == t.name then Some(t) else FindByName(ts, name)
    decreases |ts|
  {
    if |ts| > 0 {
      assert (ts + [t])[1..] == ts[1..] + [t];
      assert t.name !in NamesOf(ts[1..]) by {
        forall i | 0 <= i < |ts| - 1
          ensures NamesOf(ts[1..])[i] != t.name
        {
          assert NamesOf(ts[1..])[i] == NamesOf(ts)[i + 1];
        }
      }
      FindAfterAdd(ts[1..], t, name);
    }
  }

  /** `all or target.is_condition_met()` for every target. */
  function Eligibility(ts: seq<Target>, all: bool): (r: seq<bool>)
    reads ts
    ensures |r| == |ts| && forall i | 0 <= i < |ts| :: r[i] == (all || ts[i].condition)
    decreases |ts|
  {
    if |ts| == 0 then [] else [all || ts[0].condition] + Eligibility(ts[1..], all)
  }

  /** `filter(lambda target: all or target.is_condition_met(), ts)`. */
  function Eligible(ts: seq<Target>, all: bool): seq<Target>
    reads ts
  {
    SelectBy(ts, Eligibility(ts, all))
  }

  /**
   * get_targets: exactly the targets whose condition holds (all of them
   * with all=True), in registration order.
   */
  lemma EligibleSpec(ts: seq<Target>, all: bool, t: Target)
    ensures IsSubsequence(Eligible(ts, all), ts)
    ensures t in Eligible(ts, all) <==> t in ts && (all || t.condition)
  {
    var keep := Eligibility(ts, all);
    SelectBySpec(ts, keep, t);
    if t in ts && (all || t.condition) {
      var i :| 0 <= i < |ts| && ts[i] == t;
      assert keep[i] && ts[i] == t;
    }
  }

  /** With all=True nothing is dropped. */
  lemma {:induction false} EligibleAll(ts: seq<Target>)
    ensures Eligible(ts, true) == ts
    decreases |ts|
  {
    if |ts| > 0 {
      EligibleAll(ts[1..]);
      assert Eligibility(ts, true)[1..] == Eligibility(ts[1..], true);
    }
  }

  function AsTarget(l: LinkLib): Option<Target> {
    if l.Lib? then Some(l.target) else None
  }

  /** `tuple(t for t in target.get_link_libraries(PUBLIC) if isinstance(t, Target))`. */
  function LibraryTargets(t: Target): seq<Target>
    reads t`linkLibs
  {
    FilterMap(GetAll(t.linkLibs, Public), AsTarget)
  }

  /** A target's library targets are its Target-typed links in either scope. */
  lemma LibraryTargetsSpec(t: Target, lib: Target)
    ensures lib in LibraryTargets(t) <==> Lib(lib) in t.linkLibs.Get(Internal) || Lib(lib) in t.linkLibs.Get(External)
  {
    FilterMapMembership(GetAll(t.linkLibs, Public), AsTarget, lib);
    GetAllMembership(t.linkLibs, Public, Lib(lib));
    if lib in LibraryTargets(t) {
      var x :| x in GetAll(t.linkLibs, Public) && AsTarget(x) == Some(lib);
      assert x == Lib(lib);
    }
  }

  function LibraryLists(ts: seq<Target>): (r: seq<seq<Target>>)
    reads ts
    ensures |r| == |ts| && forall k | 0 <= k < |ts| :: r[k] == LibraryTargets(ts[k])
    decreases |ts|
  {
    if |ts| == 0 then [] else [LibraryTargets(ts[0])] + LibraryLists(ts[1..])
  }

  /** The reordering pass of get_sorted_targets applied to the registered targets. */
  function SortPass(ts: seq<Target>): Result<seq<Target>>
    reads ts
  {
    Pass(ts, ts, LibraryLists(ts))
  }

  /** The inner loop of get_sorted_targets for one target whose turn started at ti. */
  method PlaceLibraries(sorted0: seq<Target>, ti: nat, libs: seq<Target>) returns (r: Result<seq<Target>>)
    ensures r == PlaceLibs(sorted0, ti, libs)
  {
    var sorted := sorted0;
    for j := 0 to |libs|
      invariant PlaceLibs(sorted0, ti, libs) == PlaceLibs(sorted, ti, libs[j..])
    {
      var lib := libs[j];
      assert libs[j..][1..] == libs[j + 1..];
      if lib !in sorted {
        return Err("ValueError: library target is not registered in the workspace");
      }
      var li := IndexOf(sorted, lib);
      if ti >= li {
        continue;
      }
      var moved := sorted[li];
      sorted := Remove(sorted, li);
      sorted := Insert(sorted, ti, moved);
    }
    r := Ok(sorted);
  }

  class Workspace {
    const info: WorkspaceInfo
    /** The target dict's values, in insertion order. */
    var targets: seq<Target>

    /** Workspace.__init__: resolves the directories and starts with no targets. */
    constructor(cwd: string, sourceDir: string, buildDir: string, toolchain: Toolchain,
                buildType: Option<BuildType>, system: System)
      ensures info == MakeWorkspaceInfo(cwd, sourceDir, buildDir, toolchain, buildType, system)
      ensures targets == []
    {
      info := MakeWorkspaceInfo(cwd, sourceDir, buildDir, toolchain, buildType, system);
      targets := [];
    }

    predicate Valid()
      reads this`targets
    {
      DistinctNames(targets)
    }

    /** get_target: KeyError for an unknown name. */
    function GetTarget(name: string): (r: Result<Target>)
      reads this`targets
      ensures r.Ok? <==> name in NamesOf(targets)
      ensures r.Ok? ==> r.value in targets && r.value.name == name
    {
      var found := FindByName(targets, name);
      if found.None? then Err("KeyError: " + name) else Ok(found.value)
    }

    /** get_targets. */
    function GetTargets(all: bool): seq<Target>
      reads this`targets, targets
    {
      Eligible(targets, all)
    }

    /**
     * add_target: raises for a name already registered; otherwise creates a
     * fresh target, registers it last and returns it.
     */
    method AddTarget(kind: TargetType, name: string) returns (r: Result<Target>)
      requires Valid()
      modifies this`targets
      ensures Valid()
      ensures name in NamesOf(old(targets)) ==> r.Err? && targets == old(targets)
      ensures name !in NamesOf(old(targets)) ==>
                r.Ok? && fresh(r.value) && targets == old(targets) + [r.value] &&
                r.value.name == name && r.value.kind == kind && r.value.workspace == info &&
                r.value.language.None? && r.value.Snapshot() == Props(map[], Shared([]), Shared([]), Shared([]), Shared([]), Definitions.Empty, Shared([]), {}) &&
                r.value.sources == [] && r.value.runtimeLink == SharedRuntime
      ensures name !in NamesOf(old(targets)) ==> GetTarget(name) == r
      ensures forall n | n != name :: GetTarget(n) == old(GetTarget(n))
    {
      if FindByName(targets, name).Some? {
        return Err("A target with the same name already exists: " + name);
      }
      var target := new Target(info, kind, name, None);
      FindAfterAdd(targets, target, name);
      forall n | n != name
        ensures FindByName(targets + [target], n) == FindByName(targets, n)
      {
        FindAfterAdd(targets, target, n);
      }
      targets := targets + [target];
      r := Ok(target);
    }

    /**
     * get_sorted_targets: the reordering pass over all targets, then the
     * condition filter on the reordered list.
     */
    method GetSortedTargets(all: bool) returns (r: Result<seq<Target>>)
      ensures var p := SortPass(targets);
              (r.Err? <==> p.Err?) && (r.Ok? ==> r.value == Eligible(p.value, all))
    {
      EligibleAll(targets);
      var order := GetTargets(true);
      var sorted := ReorderTargets(order);
      if sorted.Err? {
        return Err(sorted.error);
      }
      r := Ok(Eligible(sorted.value, all));
    }
  }

  /** The loop of get_sorted_targets: each target's turn, in registration order. */
  method ReorderTargets(order: seq<Target>) returns (r: Result<seq<Target>>)
    ensures r == Pass(order, order, LibraryLists(order))
  {
    ghost var libLists := LibraryLists(order);
    var sorted := order;
    for k := 0 to |order|
      invariant Pass(order, order, libLists) == Pass(sorted, order[k..], libLists[k..])
    {
      PassSuffix(sorted, order, libLists, k);
      var placed := TargetTurn(sorted, order[k], LibraryTargets(order[k]));
      if placed.Err? {
        return Err(placed.error);
      }
      sorted := placed.value;
    }
    assert order[|order|..] == [] && libLists[|order|..] == [];
    r := Ok(sorted);
  }

  /** One turn of get_sorted_targets' loop: find the target, then place its libraries. */
  method TargetTurn(sorted: seq<Target>, target: Target, libs: seq<Target>) returns (r: Result<seq<Target>>)
    ensures r == Step(sorted, target, libs)
  {
    if target !in sorted {
      return Err("ValueError: target is not in list");
    }
    var targetIndex := IndexOf(sorted, target);
    r := PlaceLibraries(sorted, targetIndex, libs);
  }

  /**
   * What get_sorted_targets(all=True) returns for registered targets: a
   * rearrangement of them, without duplicates; it raises exactly when some
   * target links a target that is not registered.
   */
  lemma SortedTargetsPermutation(ts: seq<Target>)
    requires DistinctNames(ts)
    ensures SortPass(ts).Ok? ==> multiset(SortPass(ts).value) == multiset(ts) && NoDup(SortPass(ts).value)
    ensures SortPass(ts).Err? <==> exists k, lib | 0 <= k < |ts| && lib in LibraryTargets(ts[k]) :: lib !in ts
  {
    DistinctNamesNoDup(ts);
    var libs := LibraryLists(ts);
    PassPermutation(ts, ts, libs);
    if exists k, lib | 0 <= k < |ts| && lib in LibraryTargets(ts[k]) :: lib !in ts {
      var k, lib :| 0 <= k < |ts| && lib in LibraryTargets(ts[k]) && lib !in ts;
      assert lib in libs[k];
    }
  }

  /**
   * With all=False the filter runs after reordering: it only drops targets
   * whose condition fails and keeps the others in their sorted order.
   */
  lemma SortedFilterKeepsOrder(sorted: seq<Target>, t: Target)
    ensures IsSubsequence(Eligible(sorted, false), sorted)
    ensures t in Eligible(sorted, false) <==> t in sorted && t.condition
  {
    EligibleSpec(sorted, false, t);
  }
}
