/**
 * The per-scope property lists of a build target. A target starts with the
 * same list object under both scopes, so `+=` on either scope extends the one
 * shared list; assigning a new list to a scope separates the two.
 */
module Scoping {
  import opened SeqUtil

  datatype PropertyScope = Internal | External

  /** PropertyScopes.PUBLIC: internal first, then external. */
  const Public: seq<PropertyScope> := [Internal, External]

  function Other(s: PropertyScope): PropertyScope {
    if s == Internal then External else Internal
  }

  /** A scope-to-list dictionary: one list under both keys, or two distinct lists. */
  datatype Scoped<T> = Shared(items: seq<T>) | Split(internal: seq<T>, external: seq<T>) {

    /** The list stored under scope s. */
    function Get(s: PropertyScope): seq<T> {
      match this
      case Shared(xs) => xs
      case Split(i, e) => if s == Internal then i else e
    }

    /** `d[s] += xs`: extends the list object under s, which is both scopes' list while they share it. */
    function Extend(s: PropertyScope, xs: seq<T>): (r: Scoped<T>)
      ensures r.Get(s) == Get(s) + xs
      ensures r.Get(Other(s)) == if Shared? then Get(Other(s)) + xs else Get(Other(s))
      ensures r.Shared? == Shared?
    {
      match this
      case Shared(ys) => Shared(ys + xs)
      case Split(i, e) => if s == Internal then Split(i + xs, e) else Split(i, e + xs)
    }

    /** `d[s] = xs`: binds a new list to s; the other scope keeps its list. */
    function Assign(s: PropertyScope, xs: seq<T>): (r: Scoped<T>)
      ensures r.Get(s) == xs
      ensures r.Get(Other(s)) == Get(Other(s))
      ensures r.Split?
    {
      if s == Internal then Split(xs, Get(External)) else Split(Get(Internal), xs)
    }
  }

  /** `for s in scopes: d[s] += xs`. */
  function ExtendEach<T>(x: Scoped<T>, scopes: seq<PropertyScope>, xs: seq<T>): Scoped<T>
    decreases |scopes|
  {
    if |scopes| == 0 then x
    else ExtendEach(x, scopes[..|scopes| - 1], xs).Extend(scopes[|scopes| - 1], xs)
  }

  /** `xs` repeated n times. */
  function Repeat<T>(xs: seq<T>, n: nat): seq<T>
    decreases n
  {
    if n == 0 then [] else Repeat(xs, n - 1) + xs
  }

  function Occurrences(scopes: seq<PropertyScope>, s: PropertyScope): nat
    decreases |scopes|
  {
    if |scopes| == 0 then 0
    else Occurrences(scopes[..|scopes| - 1], s) + (if scopes[|scopes| - 1] == s then 1 else 0)
  }

  /**
   * While the two scopes share one list, every extension through either scope
   * lands in that list: both scopes see it, once per listed scope, so a PUBLIC
   * add appends the items twice.
   */
  lemma {:induction false} ExtendEachShared<T>(items: seq<T>, scopes: seq<PropertyScope>, xs: seq<T>)
    ensures ExtendEach(Shared(items), scopes, xs) == Shared(items + Repeat(xs, |scopes|))
    decreases |scopes|
  {
    if |scopes| > 0 {
      ExtendEachShared(items, scopes[..|scopes| - 1], xs);
      assert items + Repeat(xs, |scopes| - 1) + xs == items + Repeat(xs, |scopes|);
    }
  }

  /** Once the scopes are separate, each scope's list grows by the items once per time it is listed. */
  lemma {:induction false} ExtendEachSplit<T>(i: seq<T>, e: seq<T>, scopes: seq<PropertyScope>, xs: seq<T>, s: PropertyScope)
    ensures ExtendEach(Split(i, e), scopes, xs).Split?
    ensures ExtendEach(Split(i, e), scopes, xs).Get(s) == Split(i, e).Get(s) + Repeat(xs, Occurrences(scopes, s))
    decreases |scopes|
  {
    if |scopes| > 0 {
      var prefix, last := scopes[..|scopes| - 1], scopes[|scopes| - 1];
      var before := ExtendEach(Split(i, e), prefix, xs);
      ExtendEachSplit(i, e, prefix, xs, s);
      var n := Occurrences(prefix, s);
      assert ExtendEach(Split(i, e), scopes, xs) == before.Extend(last, xs);
      if last == s {
        RepeatSnoc(Split(i, e).Get(s), xs, n);
      } else {
        assert last == Other(s);
        assert Other(last) == s;
      }
    }
  }

  lemma RepeatSnoc<T>(a: seq<T>, xs: seq<T>, n: nat)
    ensures a + Repeat(xs, n) + xs == a + Repeat(xs, n + 1)
  {
  }

  /** `for s in scopes: d[s] = list(dict.fromkeys(d[s] + xs))`. */
  function AppendDedupEach<T(==)>(x: Scoped<T>, scopes: seq<PropertyScope>, xs: seq<T>): Scoped<T>
    decreases |scopes|
  {
    if |scopes| == 0 then x
    else
      var y := AppendDedupEach(x, scopes[..|scopes| - 1], xs);
      var s := scopes[|scopes| - 1];
      y.Assign(s, Dedup(y.Get(s) + xs))
  }

  /**
   * Every listed scope's list becomes old ++ xs with later duplicates dropped
   * (listing a scope twice changes nothing more); unlisted scopes keep their list.
   */
  lemma {:induction false} AppendDedupEachGet<T>(x: Scoped<T>, scopes: seq<PropertyScope>, xs: seq<T>, s: PropertyScope)
    ensures AppendDedupEach(x, scopes, xs).Get(s) == if s in scopes then Dedup(x.Get(s) + xs) else x.Get(s)
    decreases |scopes|
  {
    if |scopes| > 0 {
      var prefix := scopes[..|scopes| - 1];
      var last := scopes[|scopes| - 1];
      AppendDedupEachGet(x, prefix, xs, s);
      assert scopes == prefix + [last];
      if last == s && s in prefix {
        DedupReappend(x.Get(s), xs);
      }
      if last != s {
        assert last == Other(s);
      }
    }
  }

  /** Appending values that every listed scope already holds, without duplicates, to separate lists changes nothing. */
  lemma {:induction false} AppendDedupEachPresent<T>(x: Scoped<T>, scopes: seq<PropertyScope>, xs: seq<T>)
    requires x.Split?
    requires forall s | s in scopes :: Dedup(x.Get(s)) == x.Get(s) && forall y | y in xs :: y in x.Get(s)
    ensures AppendDedupEach(x, scopes, xs) == x
    decreases |scopes|
  {
    if |scopes| > 0 {
      var s := scopes[|scopes| - 1];
      AppendDedupEachPresent(x, scopes[..|scopes| - 1], xs);
      DedupAppendPresent(x.Get(s), xs);
    }
  }

  /** `tuple(b for a in scopes for b in d[a])`: the lists of the given scopes, one after the other. */
  function GetAll<T>(x: Scoped<T>, scopes: seq<PropertyScope>): seq<T>
    decreases |scopes|
  {
    if |scopes| == 0 then [] else x.Get(scopes[0]) + GetAll(x, scopes[1..])
  }

  /** An item is listed exactly when one of the given scopes lists it. */
  lemma {:induction false} GetAllMembership<T>(x: Scoped<T>, scopes: seq<PropertyScope>, y: T)
    ensures y in GetAll(x, scopes) <==> exists s | s in scopes :: y in x.Get(s)
    decreases |scopes|
  {
    if |scopes| > 0 {
      GetAllMembership(x, scopes[1..], y);
      if exists s | s in scopes :: y in x.Get(s) {
        var s :| s in scopes && y in x.Get(s);
        if s != scopes[0] {
          assert s in scopes[1..];
        }
      }
    }
  }
}
