/**
 * Toolchain.create_compile_tasks (script/internal/toolchain/common.py): the
 * three task collections of a build. Compile tasks are concurrent; archive
 * and link tasks are sequential. Every task runs one process, described by
 * the output path and the command line it gets.
 *
 * The process itself, the pkg-config calls and `platform.system()` are
 * inputs: `run` is what running a command does (None, or the error it
 * raises), and PkgConfig gives what `pkg-config --cflags` and
 * `pkg-config --libs` print for a list of packages.
 */
module CompileTasks {
  import opened Wrappers
  import opened Scoping
  import opened TargetTypes
  import opened BuildDefs
  import opened ToolchainCommon
  import opened Targets
  import opened ToolchainFlags
  import opened Tasks
  import ClangLike
  import GccLike

  /** A command line: the executable (None when the toolchain has none for the step) and its arguments. */
  datatype Command = Command(exe: Option<string>, args: seq<string>)

  /** The argument of _process_task: the file the command creates and the command. */
  datatype ProcessArg = ProcessArg(outputPath: string, command: Command)

  /** The output of pkg-config for a list of packages. */
  datatype PkgConfig = PkgConfig(cflags: seq<string> -> string, libs: seq<string> -> string)

  /** get_compile_exe: ClangLikeToolchain does not override it, so the Clang-like command has no executable. */
  function CompileExe(tc: Toolchain, language: Option<Language>): (r: Result<Option<string>>)
    ensures tc.variant.ClangLikeVariant? ==> r == Ok(None)
    ensures tc.variant.GccLikeVariant? ==> r == GccLike.CompileExe(tc, language)
  {
    match tc.variant
    case ClangLikeVariant => Ok(None)
    case GccLikeVariant(_) => GccLike.CompileExe(tc, language)
  }

  /** get_archive_exe of the two toolchains. */
  function ArchiveExe(tc: Toolchain, system: Platform.System): (r: Result<Option<string>>)
    ensures tc.binaries.ar.Some? ==> r == Ok(tc.binaries.ar)
  {
    match tc.variant
    case ClangLikeVariant => Ok(ClangLike.ArchiveExe(tc))
    case GccLikeVariant(_) =>
      var exe :- GccLike.ArchiveExe(tc, system);
      Ok(Some(exe))
  }

  function CompileParamsOf(tc: Toolchain, t: Target, pc: PkgConfig): Result<seq<CompileParams>>
    reads t
  {
    var pkg := pc.cflags(t.PkgconfigLibs(Internal));
    match tc.variant
    case ClangLikeVariant => ClangLike.CompileParamsSpec(tc, t, pkg)
    case GccLikeVariant(triplet) => GccLike.CompileParamsSpec(tc, triplet, t, pkg)
  }

  function LinkParamsOf(tc: Toolchain, t: Target, pc: PkgConfig): Result<LinkParams>
    reads t, LibObjects(t.linkLibs.Get(Internal))
  {
    var pkg := pc.libs(t.PkgconfigLibs(Internal));
    match tc.variant
    case ClangLikeVariant => ClangLike.LinkParamsSpec(tc, t, pkg)
    case GccLikeVariant(triplet) => GccLike.LinkParamsSpec(tc, triplet, t, pkg)
  }

  /** The compile task of one CompileParams: compile its input into its output. */
  function CompileTask(run: ProcessArg -> Option<string>, exe: Option<string>, p: CompileParams): Task<ProcessArg> {
    NewTask(Some(run), ProcessArg(p.outputPath, Command(exe, CompileArgs(p, true, true))), Some("Compile " + p.inputPath))
  }

  function CompileTasksOf(run: ProcessArg -> Option<string>, exe: Option<string>, ps: seq<CompileParams>): (r: seq<Task<ProcessArg>>)
    ensures |r| == |ps|
    ensures forall i | 0 <= i < |ps| :: r[i] == CompileTask(run, exe, ps[i])
  {
    seq(|ps|, i requires 0 <= i < |ps| => CompileTask(run, exe, ps[i]))
  }

  lemma CompileTasksSnoc(run: ProcessArg -> Option<string>, exe: Option<string>, ps: seq<CompileParams>, i: nat)
    requires i < |ps|
    ensures CompileTasksOf(run, exe, ps[..i + 1]) == CompileTasksOf(run, exe, ps[..i]) + [CompileTask(run, exe, ps[i])]
  {
    assert ps[..i + 1] == ps[..i] + [ps[i]];
  }

  /** _create_compile_tasks: none for an interface library, else one per compile step, in order. */
  function CompileTaskList(tc: Toolchain, pc: PkgConfig, run: ProcessArg -> Option<string>, t: Target): Result<seq<Task<ProcessArg>>>
    reads t
  {
    if t.kind !in {Exe, Object, SharedLibrary, StaticLibrary} then Ok([])
    else
      var exe :- CompileExe(tc, t.language);
      var params :- CompileParamsOf(tc, t, pc);
      Ok(CompileTasksOf(run, exe, params))
  }

  /** _create_archive_tasks: one task for a static library, none otherwise. */
  function ArchiveTaskList(tc: Toolchain, run: ProcessArg -> Option<string>, t: Target): Result<seq<Task<ProcessArg>>>
    reads t
  {
    if t.kind != StaticLibrary then Ok([])
    else
      var params := ClangLike.ArchiveParamsSpec(t);
      var exe :- ArchiveExe(tc, t.workspace.system);
      Ok([NewTask(Some(run), ProcessArg(params.outputPath, Command(exe, ArchiveArgs(params))), Some("Archive target " + t.name))])
  }

  /** _create_link_tasks: one task for an executable, object file or shared library, none otherwise. */
  function LinkTaskList(tc: Toolchain, pc: PkgConfig, run: ProcessArg -> Option<string>, t: Target): Result<seq<Task<ProcessArg>>>
    reads t, LibObjects(t.linkLibs.Get(Internal))
  {
    if t.kind !in {Exe, Object, SharedLibrary} then Ok([])
    else
      var params :- LinkParamsOf(tc, t, pc);
      var exe :- ClangLike.LinkExe(tc, t.language);
      Ok([NewTask(Some(run), ProcessArg(params.outputPath, Command(exe, LinkArgs(params))), Some("Link target " + t.name))])
  }

  /** The compile, archive and link task lists. */
  datatype Stages = Stages(compile: seq<Task<ProcessArg>>, archive: seq<Task<ProcessArg>>, link: seq<Task<ProcessArg>>)

  /** The targets of a list together with every target they link against. */
  function Scope(targets: seq<Target>): (scope: set<Target>)
    reads targets
    ensures Covers(scope, targets)
  {
    (set t | t in targets) + (set t, x | t in targets && x in LibObjects(t.linkLibs.Get(Internal)) :: x)
  }

  /** `scope` holds every target of the list and every target they link against. */
  predicate Covers(scope: set<Target>, targets: seq<Target>)
    reads targets
  {
    forall t | t in targets :: t in scope && LibObjects(t.linkLibs.Get(Internal)) <= scope
  }

  /** The tasks of one target whose condition holds: compile, then archive, then link, the first error winning. */
  function TargetStages(tc: Toolchain, pc: PkgConfig, run: ProcessArg -> Option<string>, t: Target): Result<Stages>
    reads t, LibObjects(t.linkLibs.Get(Internal))
  {
    var c :- CompileTaskList(tc, pc, run, t);
    var a :- ArchiveTaskList(tc, run, t);
    var l :- LinkTaskList(tc, pc, run, t);
    Ok(Stages(c, a, l))
  }

  /** The task lists of create_compile_tasks; targets whose condition is false are skipped. */
  function StagesSpec(tc: Toolchain, pc: PkgConfig, run: ProcessArg -> Option<string>, targets: seq<Target>,
                      ghost scope: set<Target>): Result<Stages>
    requires Covers(scope, targets)
    reads targets, scope
    decreases |targets|
  {
    if |targets| == 0 then Ok(Stages([], [], []))
    else
      var prefix := targets[..|targets| - 1];
      var t := targets[|targets| - 1];
      var before :- StagesSpec(tc, pc, run, prefix, scope);
      if !t.IsConditionMet() then Ok(before)
      else
        var more :- TargetStages(tc, pc, run, t);
        Ok(Stages(before.compile + more.compile, before.archive + more.archive, before.link + more.link))
  }

  /** The three collections create_compile_tasks returns. */
  datatype Collections = Collections(compile: TaskCollection<ProcessArg>, archive: TaskCollection<ProcessArg>, link: TaskCollection<ProcessArg>)
  {
    /** Only the compile collection runs its tasks concurrently. */
    predicate Fresh() {
      compile.concurrent && !archive.concurrent && !link.concurrent
    }

    /** The task lists the three collections hold. */
    function Contents(): Stages
      reads compile, archive, link
    {
      Stages(compile.tasks, archive.tasks, link.tasks)
    }
  }

  /**
   * create_compile_tasks: a concurrent compile collection and sequential
   * archive and link collections, filled target by target. The collections
   * are private to the call until it returns (and are dropped when it
   * raises), so the model gathers the tasks first and fills the
   * collections afterwards.
   */
  method CreateCompileTasks(tc: Toolchain, pc: PkgConfig, run: ProcessArg -> Option<string>, targets: seq<Target>,
                            ghost scope: set<Target>)
    returns (r: Result<Collections>)
    requires Covers(scope, targets)
    ensures r.Ok? <==> StagesSpec(tc, pc, run, targets, scope).Ok?
    ensures r.Ok? ==> r.value.Fresh() && r.value.Contents() == StagesSpec(tc, pc, run, targets, scope).value
  {
    var stages := GatherStages(tc, pc, run, targets, scope);
    if stages.Err? {
      return Err(stages.error);
    }
    var collections := NewCollections(stages.value);
    r := Ok(collections);
  }

  /** The three collections of create_compile_tasks, holding the given task lists. */
  method NewCollections(stages: Stages) returns (r: Collections)
    ensures fresh(r.compile) && fresh(r.archive) && fresh(r.link)
    ensures r.Fresh() && r.Contents() == stages
  {
    var compileTasks := new TaskCollection<ProcessArg>(true);
    var archiveTasks := new TaskCollection<ProcessArg>(false);
    var linkTasks := new TaskCollection<ProcessArg>(false);
    compileTasks.AddTask(stages.compile);
    archiveTasks.AddTask(stages.archive);
    linkTasks.AddTask(stages.link);
    r := Collections(compileTasks, archiveTasks, linkTasks);
  }

  /** The loop over the targets of create_compile_tasks. */
  method GatherStages(tc: Toolchain, pc: PkgConfig, run: ProcessArg -> Option<string>, targets: seq<Target>,
                      ghost scope: set<Target>)
    returns (r: Result<Stages>)
    requires Covers(scope, targets)
    ensures r == StagesSpec(tc, pc, run, targets, scope)
  {
    var compile: seq<Task<ProcessArg>> := [];
    var archive: seq<Task<ProcessArg>> := [];
    var link: seq<Task<ProcessArg>> := [];
    for i := 0 to |targets|
      invariant StagesSpec(tc, pc, run, targets[..i], scope) == Ok(Stages(compile, archive, link))
    {
      var t := targets[i];
      if t.IsConditionMet() {
        var more := CreateTargetStages(tc, pc, run, t);
        StagesStep(tc, pc, run, targets, scope, i);
        if more.Err? {
          StagesErrStays(tc, pc, run, targets, scope, i + 1);
          return Err(more.error);
        }
        compile, archive, link := compile + more.value.compile, archive + more.value.archive, link + more.value.link;
      } else {
        StagesStep(tc, pc, run, targets, scope, i);
      }
    }
    assert targets[..|targets|] == targets;
    r := Ok(Stages(compile, archive, link));
  }

  /** The compile, archive and link tasks of one target, in that order; the first error is raised. */
  method CreateTargetStages(tc: Toolchain, pc: PkgConfig, run: ProcessArg -> Option<string>, t: Target)
    returns (r: Result<Stages>)
    ensures r == TargetStages(tc, pc, run, t)
  {
    var c := CreateTargetCompileTasks(tc, pc, run, t);
    if c.Err? {
      return Err(c.error);
    }
    var a := CreateArchiveTasks(tc, run, t);
    if a.Err? {
      return Err(a.error);
    }
    var l := CreateLinkTasks(tc, pc, run, t);
    if l.Err? {
      return Err(l.error);
    }
    r := Ok(Stages(c.value, a.value, l.value));
  }

  /** One more target: skipped when its condition is false, otherwise its tasks are appended. */
  lemma StagesStep(tc: Toolchain, pc: PkgConfig, run: ProcessArg -> Option<string>, targets: seq<Target>,
                   scope: set<Target>, i: nat)
    requires Covers(scope, targets)
    requires i < |targets|
    ensures var t := targets[i];
            var before := StagesSpec(tc, pc, run, targets[..i], scope);
            var after := StagesSpec(tc, pc, run, targets[..i + 1], scope);
            (before.Err? ==> after == before) &&
            (before.Ok? && !t.IsConditionMet() ==> after == before) &&
            (before.Ok? && t.IsConditionMet() ==>
               var more := TargetStages(tc, pc, run, t);
               (more.Err? ==> after == Err(more.error)) &&
               (more.Ok? ==> after == Ok(Stages(before.value.compile + more.value.compile,
                                               before.value.archive + more.value.archive,
                                               before.value.link + more.value.link))))
  {
    assert targets[..i + 1][..i] == targets[..i];
  }

  /** An error raised for some target is the outcome of the whole call. */
  lemma {:induction false} StagesErrStays(tc: Toolchain, pc: PkgConfig, run: ProcessArg -> Option<string>,
                                          targets: seq<Target>, scope: set<Target>, k: nat)
    requires Covers(scope, targets)
    requires k <= |targets|
    requires StagesSpec(tc, pc, run, targets[..k], scope).Err?
    ensures StagesSpec(tc, pc, run, targets, scope) == StagesSpec(tc, pc, run, targets[..k], scope)
    decreases |targets| - k
  {
    if k < |targets| {
      var p := targets[..|targets| - 1];
      assert p[..k] == targets[..k];
      StagesErrStays(tc, pc, run, p, scope, k);
    } else {
      assert targets[..k] == targets;
    }
  }

  method GetCompileParamsOf(tc: Toolchain, t: Target, pc: PkgConfig) returns (r: Result<seq<CompileParams>>)
    ensures r == CompileParamsOf(tc, t, pc)
  {
    var pkg := pc.cflags(t.PkgconfigLibs(Internal));
    match tc.variant
    case ClangLikeVariant =>
      r := ClangLike.GetCompileParams(tc, t, pkg);
    case GccLikeVariant(triplet) =>
      r := GccLike.GetCompileParams(tc, triplet, t, pkg);
  }

  /** The loop of _create_compile_tasks. */
  method CreateTargetCompileTasks(tc: Toolchain, pc: PkgConfig, run: ProcessArg -> Option<string>, t: Target)
    returns (r: Result<seq<Task<ProcessArg>>>)
    ensures r == CompileTaskList(tc, pc, run, t)
  {
    if t.kind !in {Exe, Object, SharedLibrary, StaticLibrary} {
      return Ok([]);
    }
    var exe := CompileExe(tc, t.language);
    if exe.Err? {
      return Err(exe.error);
    }
    var params := GetCompileParamsOf(tc, t, pc);
    if params.Err? {
      return Err(params.error);
    }
    var ps := params.value;
    var tasks: seq<Task<ProcessArg>> := [];
    for i := 0 to |ps|
      invariant tasks == CompileTasksOf(run, exe.value, ps[..i])
    {
      var command := Command(exe.value, CompileArgs(ps[i], true, true));
      CompileTasksSnoc(run, exe.value, ps, i);
      tasks := tasks + [NewTask(Some(run), ProcessArg(ps[i].outputPath, command), Some("Compile " + ps[i].inputPath))];
    }
    assert ps[..|ps|] == ps;
    r := Ok(tasks);
  }

  method CreateArchiveTasks(tc: Toolchain, run: ProcessArg -> Option<string>, t: Target)
    returns (r: Result<seq<Task<ProcessArg>>>)
    ensures r == ArchiveTaskList(tc, run, t)
  {
    if t.kind != StaticLibrary {
      return Ok([]);
    }
    var params := ClangLike.GetArchiveParams(t);
    var exe := ArchiveExe(tc, t.workspace.system);
    if exe.Err? {
      return Err(exe.error);
    }
    var command := Command(exe.value, ArchiveArgs(params));
    r := Ok([NewTask(Some(run), ProcessArg(params.outputPath, command), Some("Archive target " + t.name))]);
  }

  method CreateLinkTasks(tc: Toolchain, pc: PkgConfig, run: ProcessArg -> Option<string>, t: Target)
    returns (r: Result<seq<Task<ProcessArg>>>)
    ensures r == LinkTaskList(tc, pc, run, t)
  {
    if t.kind !in {Exe, Object, SharedLibrary} {
      return Ok([]);
    }
    var pkg := pc.libs(t.PkgconfigLibs(Internal));
    var params: Result<LinkParams>;
    match tc.variant {
      case ClangLikeVariant =>
        params := ClangLike.GetLinkParams(tc, t, pkg);
      case GccLikeVariant(triplet) =>
        params := GccLike.GetLinkParams(tc, triplet, t, pkg);
    }
    if params.Err? {
      return Err(params.error);
    }
    var exe := ClangLike.LinkExe(tc, t.language);
    if exe.Err? {
      return Err(exe.error);
    }
    var command := Command(exe.value, LinkArgs(params.value));
    r := Ok([NewTask(Some(run), ProcessArg(params.value.outputPath, command), Some("Link target " + t.name))]);
  }

  /** How many of the targets have their condition met and a kind in `kinds`. */
  function CountKinds(targets: seq<Target>, kinds: set<TargetType>): nat
    reads targets
    decreases |targets|
  {
    if |targets| == 0 then 0
    else
      var t := targets[|targets| - 1];
      CountKinds(targets[..|targets| - 1], kinds) + (if t.IsConditionMet() && t.kind in kinds then 1 else 0)
  }

  /** Every task of `ts` runs `run` and has a description starting with `prefix`. */
  ghost predicate Announced(ts: seq<Task<ProcessArg>>, run: ProcessArg -> Option<string>, prefix: string) {
    forall i | 0 <= i < |ts| :: ts[i].work == Some(run) && ts[i].description.Some? && Text.StartsWith(ts[i].description.value, prefix)
  }

  /** One target's tasks: one archive task for a static library, one link task for an executable, object or shared library. */
  lemma TargetStagesFacts(tc: Toolchain, pc: PkgConfig, run: ProcessArg -> Option<string>, t: Target)
    requires TargetStages(tc, pc, run, t).Ok?
    ensures var s := TargetStages(tc, pc, run, t).value;
            |s.archive| == (if t.kind == StaticLibrary then 1 else 0) &&
            |s.link| == (if t.kind in {Exe, Object, SharedLibrary} then 1 else 0) &&
            (t.kind == Interface ==> s.compile == []) &&
            Announced(s.compile, run, "Compile ") &&
            Announced(s.archive, run, "Archive target ") &&
            Announced(s.link, run, "Link target ")
  {
    var c := CompileTaskList(tc, pc, run, t);
    var a := ArchiveTaskList(tc, run, t);
    var l := LinkTaskList(tc, pc, run, t);
    assert c.Ok? && a.Ok? && l.Ok?;
    CompileTaskListFacts(tc, pc, run, t);
    ArchiveTaskListFacts(tc, run, t);
    LinkTaskListFacts(tc, pc, run, t);
    assert TargetStages(tc, pc, run, t).value == Stages(c.value, a.value, l.value);
  }

  lemma CompileTaskListFacts(tc: Toolchain, pc: PkgConfig, run: ProcessArg -> Option<string>, t: Target)
    requires CompileTaskList(tc, pc, run, t).Ok?
    ensures t.kind == Interface ==> CompileTaskList(tc, pc, run, t).value == []
    ensures Announced(CompileTaskList(tc, pc, run, t).value, run, "Compile ")
  {
  }

  lemma ArchiveTaskListFacts(tc: Toolchain, run: ProcessArg -> Option<string>, t: Target)
    requires ArchiveTaskList(tc, run, t).Ok?
    ensures |ArchiveTaskList(tc, run, t).value| == (if t.kind == StaticLibrary then 1 else 0)
    ensures Announced(ArchiveTaskList(tc, run, t).value, run, "Archive target ")
  {
  }

  lemma LinkTaskListFacts(tc: Toolchain, pc: PkgConfig, run: ProcessArg -> Option<string>, t: Target)
    requires LinkTaskList(tc, pc, run, t).Ok?
    ensures |LinkTaskList(tc, pc, run, t).value| == (if t.kind in {Exe, Object, SharedLibrary} then 1 else 0)
    ensures Announced(LinkTaskList(tc, pc, run, t).value, run, "Link target ")
  {
  }

  /**
   * When the call succeeds there is exactly one archive task per enabled
   * static library and one link task per enabled executable, object file or
   * shared library; every task runs `run` and is described by its stage.
   */
  lemma {:induction false} StagesCounts(tc: Toolchain, pc: PkgConfig, run: ProcessArg -> Option<string>,
                                        targets: seq<Target>, scope: set<Target>)
    requires Covers(scope, targets)
    requires StagesSpec(tc, pc, run, targets, scope).Ok?
    ensures var s := StagesSpec(tc, pc, run, targets, scope).value;
            |s.archive| == CountKinds(targets, {StaticLibrary}) &&
            |s.link| == CountKinds(targets, {Exe, Object, SharedLibrary}) &&
            Announced(s.compile, run, "Compile ") &&
            Announced(s.archive, run, "Archive target ") &&
            Announced(s.link, run, "Link target ")
    decreases |targets|
  {
    if |targets| > 0 {
      var n := |targets| - 1;
      var prefix := targets[..n];
      var t := targets[n];
      assert targets[..n + 1] == targets;
      StagesStep(tc, pc, run, targets, scope, n);
      StagesCounts(tc, pc, run, prefix, scope);
      if t.IsConditionMet() && StagesSpec(tc, pc, run, prefix, scope).Ok? {
        var before := StagesSpec(tc, pc, run, prefix, scope).value;
        TargetStagesFacts(tc, pc, run, t);
        var more := TargetStages(tc, pc, run, t).value;
        AnnouncedAppend(before.compile, more.compile, run, "Compile ");
        AnnouncedAppend(before.archive, more.archive, run, "Archive target ");
        AnnouncedAppend(before.link, more.link, run, "Link target ");
      }
    }
  }

  lemma AnnouncedAppend(a: seq<Task<ProcessArg>>, b: seq<Task<ProcessArg>>, run: ProcessArg -> Option<string>, prefix: string)
    requires Announced(a, run, prefix) && Announced(b, run, prefix)
    ensures Announced(a + b, run, prefix)
  {
    forall i | 0 <= i < |a + b|
      ensures (a + b)[i].work == Some(run) && (a + b)[i].description.Some? && Text.StartsWith((a + b)[i].description.value, prefix)
    {
      if i >= |a| {
        assert (a + b)[i] == b[i - |a|];
      }
    }
  }

  /** Targets whose condition is false contribute no task at all. */
  lemma {:induction false} DisabledTargetsIgnored(tc: Toolchain, pc: PkgConfig, run: ProcessArg -> Option<string>,
                                                  targets: seq<Target>, off: seq<Target>, scope: set<Target>)
    requires Covers(scope, targets + off)
    requires forall t | t in off :: !t.IsConditionMet()
    ensures StagesSpec(tc, pc, run, targets + off, scope) == StagesSpec(tc, pc, run, targets, scope)
    decreases |off|
  {
    if |off| == 0 {
      assert targets + off == targets;
    } else {
      var p := off[..|off| - 1];
      assert (targets + off)[..|targets + off| - 1] == targets + p;
      DisabledTargetsIgnored(tc, pc, run, targets, p, scope);
    }
  }
}
