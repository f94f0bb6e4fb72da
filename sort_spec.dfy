/**
 * The reordering pass of Workspace.get_sorted_targets
 * (script/internal/workspace.py), over any element type: for each target in
 * registration order, every library found after the target's position (as
 * it was at the start of that target's turn) is removed and re-inserted at
 * that position.
 */
module TargetSort {
  import opened Wrappers
  import opened SeqUtil

  /** list.remove of the element at position i (its first occurrence, as the list has no duplicates). */
  function Remove<T>(s: seq<T>, i: nat): seq<T>
    requires i < |s|
  {
    s[..i] + s[i + 1..]
  }

  /** list.insert(i, x). */
  function Insert<T>(s: seq<T>, i: nat, x: T): seq<T>
    requires i <= |s|
  {
    s[..i] + [x] + s[i..]
  }

  /** The element at li moves to ti, which lies before it. */
  function MoveBefore<T>(s: seq<T>, ti: nat, li: nat): seq<T>
    requires ti < li < |s|
  {
    Insert(Remove(s, li), ti, s[li])
  }

  /** For one target whose turn started at position ti: move each listed library found after ti to ti. */
  function PlaceLibs<T(==)>(s: seq<T>, ti: nat, libs: seq<T>): Result<seq<T>>
    decreases |libs|
  {
    if |libs| == 0 then Ok(s)
    else if libs[0] !in s then Err("ValueError: library target is not registered in the workspace")
    else
      var li := IndexOf(s, libs[0]);
      if ti >= li then PlaceLibs(s, ti, libs[1..])
      else PlaceLibs(MoveBefore(s, ti, li), ti, libs[1..])
  }

  /** One turn of the loop: look the target up, then place its libraries. */
  function Step<T(==)>(s: seq<T>, x: T, libs: seq<T>): Result<seq<T>> {
    if x !in s then Err("ValueError: target is not in list")
    else PlaceLibs(s, IndexOf(s, x), libs)
  }

  /** The whole pass: the targets in order, libs[k] being the library targets of order[k]. */
  function Pass<T(==)>(s: seq<T>, order: seq<T>, libs: seq<seq<T>>): Result<seq<T>>
    requires |libs| == |order|
    decreases |order|
  {
    if |order| == 0 then Ok(s)
    else
      match Step(s, order[0], libs[0])
      case Err(e) => Err(e)
      case Ok(s') => Pass(s', order[1..], libs[1..])
  }

  /** The pass from the k-th target on is that target's turn followed by the pass from the next one. */
  lemma PassSuffix<T>(s: seq<T>, order: seq<T>, libs: seq<seq<T>>, k: nat)
    requires |libs| == |order| && k < |order|
    ensures Pass(s, order[k..], libs[k..]) ==
      match Step(s, order[k], libs[k])
      case Err(e) => Err(e)
      case Ok(next) => Pass(next, order[k + 1..], libs[k + 1..])
  {
    assert order[k..][1..] == order[k + 1..];
    assert libs[k..][1..] == libs[k + 1..];
  }

  /** Where the element at position q of s ends up after MoveBefore(s, ti, li). */
  function Dst(ti: nat, li: nat, q: nat): nat {
    if q < ti then q else if q == li then ti else if q < li then q + 1 else q
  }

  lemma MoveBeforeAt<T>(s: seq<T>, ti: nat, li: nat, q: nat)
    requires ti < li < |s| && q < |s|
    ensures |MoveBefore(s, ti, li)| == |s|
    ensures Dst(ti, li, q) < |s| && MoveBefore(s, ti, li)[Dst(ti, li, q)] == s[q]
  {
  }

  lemma RemoveMultiset<T>(s: seq<T>, i: nat)
    requires i < |s|
    ensures multiset(Remove(s, i)) + multiset{s[i]} == multiset(s)
  {
    assert s == s[..i] + [s[i]] + s[i + 1..];
  }

  lemma InsertMultiset<T>(s: seq<T>, i: nat, x: T)
    requires i <= |s|
    ensures multiset(Insert(s, i, x)) == multiset(s) + multiset{x}
  {
    assert s == s[..i] + s[i..];
  }

  /** Removing and re-inserting an element keeps the same elements, each as often. */
  lemma MoveBeforePermutation<T>(s: seq<T>, ti: nat, li: nat)
    requires ti < li < |s|
    ensures multiset(MoveBefore(s, ti, li)) == multiset(s)
    ensures NoDup(s) ==> NoDup(MoveBefore(s, ti, li))
  {
    RemoveMultiset(s, li);
    InsertMultiset(Remove(s, li), ti, s[li]);
    var m := MoveBefore(s, ti, li);
    if NoDup(s) {
      forall a, b | 0 <= a < b < |m|
        ensures m[a] != m[b]
      {
        var qa := if a < ti then a else if a == ti then li else if a <= li then a - 1 else a;
        var qb := if b < ti then b else if b == ti then li else if b <= li then b - 1 else b;
        MoveBeforeAt(s, ti, li, qa);
        MoveBeforeAt(s, ti, li, qb);
        assert qa != qb;
      }
    }
  }

  /** Every element's new position, for a list without duplicates. */
  lemma MoveBeforeIndex<T>(s: seq<T>, ti: nat, li: nat, y: T)
    requires ti < li < |s| && NoDup(s) && y in s
    ensures y in MoveBefore(s, ti, li)
    ensures IndexOf(MoveBefore(s, ti, li), y) == Dst(ti, li, IndexOf(s, y))
  {
    var q := IndexOf(s, y);
    MoveBeforeAt(s, ti, li, q);
    MoveBeforePermutation(s, ti, li);
    IndexOfNoDup(MoveBefore(s, ti, li), Dst(ti, li, q));
  }

  /** Placing libraries keeps the same elements, each as often; it fails exactly when a library is missing. */
  lemma PlaceLibsPermutation<T>(s: seq<T>, ti: nat, libs: seq<T>)
    ensures PlaceLibs(s, ti, libs).Ok? ==> multiset(PlaceLibs(s, ti, libs).value) == multiset(s)
    ensures PlaceLibs(s, ti, libs).Ok? && NoDup(s) ==> NoDup(PlaceLibs(s, ti, libs).value)
    ensures PlaceLibs(s, ti, libs).Err? <==> exists y | y in libs :: y !in s
  {
    PlaceLibsKeeps(s, ti, libs);
    PlaceLibsFails(s, ti, libs);
  }

  lemma {:induction false} PlaceLibsKeeps<T>(s: seq<T>, ti: nat, libs: seq<T>)
    ensures PlaceLibs(s, ti, libs).Ok? ==> multiset(PlaceLibs(s, ti, libs).value) == multiset(s)
    ensures PlaceLibs(s, ti, libs).Ok? && NoDup(s) ==> NoDup(PlaceLibs(s, ti, libs).value)
    decreases |libs|
  {
    if |libs| > 0 && libs[0] in s {
      var li := IndexOf(s, libs[0]);
      var next := if ti >= li then s else MoveBefore(s, ti, li);
      NextKeeps(s, ti, li);
      PlaceLibsKeeps(next, ti, libs[1..]);
    }
  }

  lemma {:induction false} PlaceLibsFails<T>(s: seq<T>, ti: nat, libs: seq<T>)
    ensures PlaceLibs(s, ti, libs).Err? <==> exists y | y in libs :: y !in s
    decreases |libs|
  {
    if |libs| > 0 && libs[0] in s {
      var li := IndexOf(s, libs[0]);
      var next := if ti >= li then s else MoveBefore(s, ti, li);
      NextKeeps(s, ti, li);
      assert PlaceLibs(s, ti, libs) == PlaceLibs(next, ti, libs[1..]);
      PlaceLibsFails(next, ti, libs[1..]);
      if exists y | y in libs :: y !in s {
        var y :| y in libs && y !in s;
        assert y in libs[1..] && y !in next;
      } else {
        forall y | y in libs[1..]
          ensures y in next
        {
          assert y in libs;
        }
      }
    }
  }

  /** One library's move keeps the same elements, each as often. */
  lemma NextKeeps<T>(s: seq<T>, ti: nat, li: nat)
    requires li < |s|
    ensures var next := if ti >= li then s else MoveBefore(s, ti, li);
      multiset(next) == multiset(s) && (NoDup(s) ==> NoDup(next)) && forall y :: y in next <==> y in s
  {
    var next := if ti >= li then s else MoveBefore(s, ti, li);
    if ti < li {
      MoveBeforePermutation(s, ti, li);
    }
    forall y
      ensures y in next <==> y in s
    {
      assert y in next <==> y in multiset(next);
    }
  }

  /**
   * The per-turn guarantee. When the turn of x starts with x at position ti
   * or later, and x is not among its own libraries, then afterwards every
   * library comes before x, and whatever came before x still does.
   */
  lemma {:induction false} PlaceLibsBefore<T>(s: seq<T>, ti: nat, libs: seq<T>, x: T, y: T)
    requires NoDup(s) && x in s && ti <= IndexOf(s, x) && x !in libs
    requires PlaceLibs(s, ti, libs).Ok?
    ensures var r := PlaceLibs(s, ti, libs).value;
            x in r && (y in r <==> y in s) &&
            (y in libs ==> y in r && IndexOf(r, y) < IndexOf(r, x)) &&
            (y in s && IndexOf(s, y) < IndexOf(s, x) ==> IndexOf(r, y) < IndexOf(r, x))
    decreases |libs|
  {
    PlaceLibsPermutation(s, ti, libs);
    var r := PlaceLibs(s, ti, libs).value;
    assert x in r && (y in r <==> y in s) by {
      assert x in multiset(r);
      assert y in r <==> y in multiset(r);
    }
    if |libs| > 0 {
      var lib := libs[0];
      var li := IndexOf(s, lib);
      var next := if ti >= li then s else MoveBefore(s, ti, li);
      NextKeeps(s, ti, li);
      NextOrder(s, ti, li, x, y);
      assert PlaceLibs(s, ti, libs) == PlaceLibs(next, ti, libs[1..]);
      PlaceLibsBefore(next, ti, libs[1..], x, y);
      PlaceLibsBefore(next, ti, libs[1..], x, lib);
      if y in libs && y != lib {
        assert y in libs[1..];
      }
    }
  }

  /**
   * One library's move, as seen from x: x stays at ti or later, the library
   * comes before x, and so does whatever came before x.
   */
  lemma NextOrder<T>(s: seq<T>, ti: nat, li: nat, x: T, y: T)
    requires NoDup(s) && li < |s| && x in s && ti <= IndexOf(s, x) && s[li] != x
    ensures var next := if ti >= li then s else MoveBefore(s, ti, li);
      x in next && s[li] in next && ti <= IndexOf(next, x) && IndexOf(next, s[li]) < IndexOf(next, x) &&
      (y in s && IndexOf(s, y) < IndexOf(s, x) ==> y in next && IndexOf(next, y) < IndexOf(next, x))
  {
    if ti < li {
      MovedOrder(s, ti, li, x, y);
    } else {
      IndexOfNoDup(s, li);
    }
  }

  lemma MovedOrder<T>(s: seq<T>, ti: nat, li: nat, x: T, y: T)
    requires NoDup(s) && ti < li < |s| && x in s && ti <= IndexOf(s, x) && s[li] != x
    ensures var next := MoveBefore(s, ti, li);
      x in next && s[li] in next && ti <= IndexOf(next, x) && IndexOf(next, s[li]) < IndexOf(next, x) &&
      (y in s && IndexOf(s, y) < IndexOf(s, x) ==> y in next && IndexOf(next, y) < IndexOf(next, x))
  {
    MoveBeforeIndex(s, ti, li, x);
    MoveBeforeIndex(s, ti, li, s[li]);
    IndexOfNoDup(s, li);
    if y in s {
      MoveBeforeIndex(s, ti, li, y);
    }
  }

  /**
   * Right after x's turn, for a target x that does not list itself among its
   * libraries, every library sits at a lower index than x, and the list holds
   * the same elements as before (SelfLinkUndoesTurn shows why a self entry is
   * excluded).
   */
  lemma StepPlacesLibsFirst<T>(s: seq<T>, x: T, libs: seq<T>, y: T)
    requires NoDup(s) && x in s && x !in libs && y in libs
    requires Step(s, x, libs).Ok?
    ensures var r := Step(s, x, libs).value;
            multiset(r) == multiset(s) && x in r && y in r && IndexOf(r, y) < IndexOf(r, x)
  {
    PlaceLibsPermutation(s, IndexOf(s, x), libs);
    PlaceLibsBefore(s, IndexOf(s, x), libs, x, y);
  }

  /**
   * The pass returns a rearrangement of the list; when every target is in
   * the list, it fails exactly when some target lists a library that is not.
   */
  lemma {:induction false} PassPermutation<T>(s: seq<T>, order: seq<T>, libs: seq<seq<T>>)
    requires |libs| == |order|
    requires forall x | x in order :: x in s
    ensures Pass(s, order, libs).Ok? ==> multiset(Pass(s, order, libs).value) == multiset(s)
    ensures Pass(s, order, libs).Ok? && NoDup(s) ==> NoDup(Pass(s, order, libs).value)
    ensures Pass(s, order, libs).Err? <==> exists k, y | 0 <= k < |order| && y in libs[k] :: y !in s
    decreases |order|
  {
    if |order| > 0 {
      PlaceLibsPermutation(s, IndexOf(s, order[0]), libs[0]);
      var step := Step(s, order[0], libs[0]);
      if step.Ok? {
        var next := step.value;
        assert forall y :: y in next <==> y in s by {
          forall y
            ensures y in next <==> y in s
          {
            assert y in next <==> y in multiset(next);
          }
        }
        assert forall x | x in order[1..] :: x in next;
        PassPermutation(next, order[1..], libs[1..]);
        if exists k, y | 0 <= k < |order| && y in libs[k] :: y !in s {
          var k, y :| 0 <= k < |order| && y in libs[k] && y !in s;
          assert k > 0;
          assert y in libs[1..][k - 1];
        }
        if exists k, y | 0 <= k < |order| - 1 && y in libs[1..][k] :: y !in next {
          var k, y :| 0 <= k < |order| - 1 && y in libs[1..][k] && y !in next;
          assert y in libs[k + 1];
        }
      } else {
        var y :| y in libs[0] && y !in s;
        assert 0 <= 0 < |order| && y in libs[0];
      }
    }
  }

  /**
   * The pass is not a topological sort. Declared as W, D, E, T with links
   * W to T, D to E and T to D, the result is D, T, W, E: D comes before E,
   * which it links.
   */
  lemma OnePassIsNotTopological()
    ensures Pass(['W', 'D', 'E', 'T'], ['W', 'D', 'E', 'T'], [['T'], ['E'], [], ['D']]) == Ok(['D', 'T', 'W', 'E'])
  {
    var s1 := ['T', 'W', 'D', 'E'];
    var s2 := ['T', 'W', 'E', 'D'];
    var s3 := ['D', 'T', 'W', 'E'];
    ExampleFirstTurn();
    ExampleSecondTurn();
    assert Step(s2, 'E', []) == Ok(s2) by {
      assert 'E' in s2;
    }
    ExampleLastTurn();
    PassTurn(s2, s3, ['T'], [['D']]);
    PassTurn(s2, s2, ['E', 'T'], [[], ['D']]);
    PassTurn(s1, s2, ['D', 'E', 'T'], [['E'], [], ['D']]);
    PassTurn(['W', 'D', 'E', 'T'], s1, ['W', 'D', 'E', 'T'], [['T'], ['E'], [], ['D']]);
  }

  /** The pass is the first target's turn followed by the pass over the remaining targets. */
  lemma PassTurn<T>(s: seq<T>, t: seq<T>, order: seq<T>, libs: seq<seq<T>>)
    requires |libs| == |order| > 0 && Step(s, order[0], libs[0]) == Ok(t)
    ensures Pass(s, order, libs) == Pass(t, order[1..], libs[1..])
  {
  }
  /** A target's turn with a single library found after it moves that library to the target's place. */
  lemma StepOneLibrary<T>(s: seq<T>, x: T, y: T, i: nat, j: nat)
    requires i < j < |s| && s[i] == x && s[j] == y && x !in s[..i] && y !in s[..j]
    ensures Step(s, x, [y]) == Ok(MoveBefore(s, i, j))
  {
    IndexOfAt(s, x, i);
    IndexOfAt(s, y, j);
    assert [y][1..] == [];
    assert PlaceLibs(MoveBefore(s, i, j), i, []) == Ok(MoveBefore(s, i, j));
    assert PlaceLibs(s, i, [y]) == PlaceLibs(MoveBefore(s, i, j), i, []);
  }

  /**
   * A target that lists itself among its libraries: the turn keeps the stale
   * index of the target, so the self entry moves the target back in front of
   * the library just placed before it, and the library ends up after it.
   */
  lemma SelfLinkUndoesTurn()
    ensures Step(['T', 'L'], 'T', ['L', 'T']) == Ok(['T', 'L'])
    ensures IndexOf(['T', 'L'], 'T') < IndexOf(['T', 'L'], 'L')
  {
    var s0 := ['T', 'L'];
    var s1 := ['L', 'T'];
    IndexOfAt(s0, 'T', 0);
    IndexOfAt(s0, 'L', 1);
    IndexOfAt(s1, 'T', 1);
    assert MoveBefore(s0, 0, 1) == s1;
    assert MoveBefore(s1, 0, 1) == s0;
    assert ['L', 'T'][1..] == ['T'];
    assert ['T'][1..] == [];
    assert PlaceLibs(s1, 0, ['T']) == PlaceLibs(s0, 0, []);
    assert PlaceLibs(s0, 0, ['L', 'T']) == PlaceLibs(s1, 0, ['T']);
  }

  lemma ExampleFirstTurn()
    ensures Step(['W', 'D', 'E', 'T'], 'W', ['T']) == Ok(['T', 'W', 'D', 'E'])
  {
    var s0 := ['W', 'D', 'E', 'T'];
    StepOneLibrary(s0, 'W', 'T', 0, 3);
    assert MoveBefore(s0, 0, 3) == ['T', 'W', 'D', 'E'];
  }

  lemma ExampleSecondTurn()
    ensures Step(['T', 'W', 'D', 'E'], 'D', ['E']) == Ok(['T', 'W', 'E', 'D'])
  {
    var s1 := ['T', 'W', 'D', 'E'];
    StepOneLibrary(s1, 'D', 'E', 2, 3);
    assert Remove(s1, 3) == ['T', 'W', 'D'];
    assert MoveBefore(s1, 2, 3) == ['T', 'W', 'E', 'D'];
  }

  lemma ExampleLastTurn()
    ensures Step(['T', 'W', 'E', 'D'], 'T', ['D']) == Ok(['D', 'T', 'W', 'E'])
  {
    var s2 := ['T', 'W', 'E', 'D'];
    StepOneLibrary(s2, 'T', 'D', 0, 3);
    assert MoveBefore(s2, 0, 3) == ['D', 'T', 'W', 'E'];
  }
}
