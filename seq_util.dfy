/**
 * Sequence helpers shared by the build model. `Dedup` is Python's
 * `list(dict.fromkeys(xs))`: duplicates are dropped and the first occurrence
 * of every value keeps its place.
 */
module SeqUtil {
  import opened Wrappers

  predicate NoDup<T(==)>(s: seq<T>) {
    forall i, j | 0 <= i < j < |s| :: s[i] != s[j]
  }

  /** Order-preserving de-duplication, defined from the end of the sequence. */
  function Dedup<T(==)>(s: seq<T>): seq<T>
    decreases |s|
  {
    if |s| == 0 then []
    else
      var r := Dedup(s[..|s| - 1]);
      if s[|s| - 1] in r then r else r + [s[|s| - 1]]
  }

  /** The dict.fromkeys loop itself: walk left to right, remember what was seen. */
  function KeepFirst<T(==)>(s: seq<T>, seen: set<T>): seq<T>
    decreases |s|
  {
    if |s| == 0 then []
    else if s[0] in seen then KeepFirst(s[1..], seen)
    else [s[0]] + KeepFirst(s[1..], seen + {s[0]})
  }

  lemma {:induction false} DedupElements<T>(s: seq<T>)
    ensures forall x :: x in Dedup(s) <==> x in s
    decreases |s|
  {
    if |s| > 0 {
      DedupElements(s[..|s| - 1]);
      assert s == s[..|s| - 1] + [s[|s| - 1]];
    }
  }

  lemma {:induction false} DedupNoDup<T>(s: seq<T>)
    ensures NoDup(Dedup(s))
    decreases |s|
  {
    if |s| > 0 {
      DedupNoDup(s[..|s| - 1]);
    }
  }

  lemma {:induction false} DedupOfNoDup<T>(s: seq<T>)
    requires NoDup(s)
    ensures Dedup(s) == s
    decreases |s|
  {
    if |s| > 0 {
      var p := s[..|s| - 1];
      assert NoDup(p);
      DedupOfNoDup(p);
      assert s[|s| - 1] !in p;
      assert p + [s[|s| - 1]] == s;
    }
  }

  /** Appending values that are all present already changes nothing. */
  lemma {:induction false} DedupAppendPresent<T>(a: seq<T>, b: seq<T>)
    requires forall x | x in b :: x in a
    ensures Dedup(a + b) == Dedup(a)
    decreases |b|
  {
    if |b| > 0 {
      var b' := b[..|b| - 1];
      assert (a + b)[..|a + b| - 1] == a + b';
      assert (a + b)[|a + b| - 1] == b[|b| - 1];
      DedupAppendPresent(a, b');
      DedupElements(a);
    } else {
      assert a + b == a;
    }
  }

  /** The first-seen order of a prefix is never disturbed by what follows. */
  lemma {:induction false} DedupPrefix<T>(a: seq<T>, b: seq<T>)
    ensures Dedup(a) <= Dedup(a + b)
    decreases |b|
  {
    if |b| > 0 {
      var b' := b[..|b| - 1];
      assert (a + b)[..|a + b| - 1] == a + b';
      DedupPrefix(a, b');
    } else {
      assert a + b == a;
    }
  }

  lemma DedupIdempotent<T>(s: seq<T>)
    ensures Dedup(Dedup(s)) == Dedup(s)
  {
    DedupNoDup(s);
    DedupOfNoDup(Dedup(s));
  }

  /** Re-appending the same values after a de-duplicating append is a no-op. */
  lemma DedupReappend<T>(a: seq<T>, b: seq<T>)
    ensures Dedup(Dedup(a + b) + b) == Dedup(a + b)
  {
    DedupElements(a + b);
    DedupAppendPresent(Dedup(a + b), b);
    DedupIdempotent(a + b);
  }

  lemma {:induction false} KeepFirstAppend<T>(s: seq<T>, x: T, seen: set<T>)
    ensures KeepFirst(s + [x], seen) ==
            if x in seen || x in s then KeepFirst(s, seen) else KeepFirst(s, seen) + [x]
    decreases |s|
  {
    if |s| == 0 {
      assert s + [x] == [x];
      assert [x][1..] == [];
    } else {
      assert (s + [x])[0] == s[0];
      assert (s + [x])[1..] == s[1..] + [x];
      if s[0] in seen {
        KeepFirstAppend(s[1..], x, seen);
      } else {
        KeepFirstAppend(s[1..], x, seen + {s[0]});
      }
    }
  }

  /** The recursive definition agrees with the left-to-right loop of dict.fromkeys. */
  lemma {:induction false} DedupIsKeepFirst<T>(s: seq<T>)
    ensures Dedup(s) == KeepFirst(s, {})
    decreases |s|
  {
    if |s| > 0 {
      var p := s[..|s| - 1];
      DedupIsKeepFirst(p);
      KeepFirstAppend(p, s[|s| - 1], {});
      DedupElements(p);
      assert p + [s[|s| - 1]] == s;
    }
  }

  /** Keeps the elements satisfying `keep`, in order (Python's filter / comprehension). */
  function Filter<T>(s: seq<T>, keep: T -> bool): (r: seq<T>)
    ensures |r| <= |s|
    ensures forall x | x in r :: x in s && keep(x)
    decreases |s|
  {
    if |s| == 0 then []
    else (if keep(s[0]) then [s[0]] else []) + Filter(s[1..], keep)
  }

  lemma {:induction false} FilterMembership<T>(s: seq<T>, keep: T -> bool, x: T)
    ensures x in Filter(s, keep) <==> x in s && keep(x)
    decreases |s|
  {
    if |s| > 0 {
      FilterMembership(s[1..], keep, x);
      assert s == [s[0]] + s[1..];
    }
  }

  lemma {:induction false} FilterAppend<T>(a: seq<T>, b: seq<T>, keep: T -> bool)
    ensures Filter(a + b, keep) == Filter(a, keep) + Filter(b, keep)
    decreases |a|
  {
    if |a| == 0 {
      assert a + b == b;
    } else {
      assert (a + b)[1..] == a[1..] + b;
      FilterAppend(a[1..], b, keep);
    }
  }

  /** The number of elements of `s` that satisfy `keep`. */
  function Count<T>(s: seq<T>, keep: T -> bool): nat
    decreases |s|
  {
    if |s| == 0 then 0 else (if keep(s[0]) then 1 else 0) + Count(s[1..], keep)
  }

  lemma {:induction false} FilterLength<T>(s: seq<T>, keep: T -> bool)
    ensures |Filter(s, keep)| == Count(s, keep)
    decreases |s|
  {
    if |s| > 0 {
      FilterLength(s[1..], keep);
    }
  }

  /** Concatenation of a sequence of sequences. */
  function Flatten<T>(ss: seq<seq<T>>): seq<T>
    decreases |ss|
  {
    if |ss| == 0 then [] else ss[0] + Flatten(ss[1..])
  }

  lemma {:induction false} FlattenAppend<T>(a: seq<seq<T>>, b: seq<seq<T>>)
    ensures Flatten(a + b) == Flatten(a) + Flatten(b)
    decreases |a|
  {
    if |a| == 0 {
      assert a + b == b;
    } else {
      assert (a + b)[1..] == a[1..] + b;
      FlattenAppend(a[1..], b);
    }
  }

  /** Position of the first occurrence of x (Python's list.index). */
  function IndexOf<T(==)>(s: seq<T>, x: T): (i: nat)
    requires x in s
    ensures i < |s| && s[i] == x && x !in s[..i]
    decreases |s|
  {
    if s[0] == x then 0
    else
      var j := IndexOf(s[1..], x);
      assert s[..j + 1] == [s[0]] + s[1..][..j];
      j + 1
  }

  /** Maps each element through f, keeping the present results in order. */
  function FilterMap<A, B>(s: seq<A>, f: A -> Option<B>): (r: seq<B>)
    ensures |r| <= |s|
    decreases |s|
  {
    if |s| == 0 then []
    else (if f(s[0]).Some? then [f(s[0]).value] else []) + FilterMap(s[1..], f)
  }

  /** An element kept by f splits the result into what comes before it, its image, and what comes after. */
  lemma FilterMapAround<A, B>(s: seq<A>, i: nat, f: A -> Option<B>)
    requires i < |s| && f(s[i]).Some?
    ensures FilterMap(s, f) == FilterMap(s[..i], f) + [f(s[i]).value] + FilterMap(s[i + 1..], f)
  {
    var rest := s[i..];
    assert s == s[..i] + rest;
    FilterMapAppend(s[..i], rest, f);
    assert rest[1..] == s[i + 1..];
  }

  lemma {:induction false} FilterMapAppend<A, B>(a: seq<A>, b: seq<A>, f: A -> Option<B>)
    ensures FilterMap(a + b, f) == FilterMap(a, f) + FilterMap(b, f)
    decreases |a|
  {
    if |a| == 0 {
      assert a + b == b;
    } else {
      assert (a + b)[0] == a[0];
      assert (a + b)[1..] == a[1..] + b;
      FilterMapAppend(a[1..], b, f);
      assert FilterMap(a + b, f) == (if f(a[0]).Some? then [f(a[0]).value] else []) + FilterMap(a[1..] + b, f);
    }
  }

  lemma {:induction false} FilterMapMembership<A, B>(s: seq<A>, f: A -> Option<B>, y: B)
    ensures y in FilterMap(s, f) <==> exists x | x in s :: f(x) == Some(y)
    decreases |s|
  {
    if |s| > 0 {
      FilterMapMembership(s[1..], f, y);
      assert s == [s[0]] + s[1..];
    }
  }

  /** The first present result of f along s, if any. */
  function FirstSome<A, B>(s: seq<A>, f: A -> Option<B>): Option<B>
    decreases |s|
  {
    if |s| == 0 then None
    else if f(s[0]).Some? then f(s[0])
    else FirstSome(s[1..], f)
  }

  /** FirstSome finds the result of the first element f maps to a value, and None only when there is none. */
  lemma {:induction false} FirstSomeSpec<A, B>(s: seq<A>, f: A -> Option<B>)
    ensures var r := FirstSome(s, f);
            (r.Some? ==> exists i | 0 <= i < |s| :: f(s[i]) == r && forall j | 0 <= j < i :: f(s[j]).None?) &&
            (r.None? ==> forall i | 0 <= i < |s| :: f(s[i]).None?)
    decreases |s|
  {
    if |s| > 0 && f(s[0]).None? {
      FirstSomeSpec(s[1..], f);
      var r := FirstSome(s, f);
      if r.Some? {
        var i :| 0 <= i < |s| - 1 && f(s[1..][i]) == r && forall j | 0 <= j < i :: f(s[1..][j]).None?;
        assert f(s[i + 1]) == r;
        forall j | 0 <= j < i + 1
          ensures f(s[j]).None?
        {
          if j > 0 {
            assert s[j] == s[1..][j - 1];
          }
        }
      } else {
        forall i | 0 <= i < |s|
          ensures f(s[i]).None?
        {
          if i > 0 {
            assert s[i] == s[1..][i - 1];
          }
        }
      }
    }
  }

  /** A list with a b-list's elements removed at some positions: a keeps b's relative order. */
  ghost predicate IsSubsequence<T>(a: seq<T>, b: seq<T>)
    decreases |b|
  {
    if |a| == 0 then true
    else if |b| == 0 then false
    else (a[0] == b[0] && IsSubsequence(a[1..], b[1..])) || IsSubsequence(a, b[1..])
  }

  /** The elements whose flag is set, in order. */
  function SelectBy<T>(xs: seq<T>, keep: seq<bool>): seq<T>
    requires |keep| == |xs|
    decreases |xs|
  {
    if |xs| == 0 then []
    else (if keep[0] then [xs[0]] else []) + SelectBy(xs[1..], keep[1..])
  }

  /** Selection keeps exactly the flagged elements and never reorders them. */
  lemma {:induction false} SelectBySpec<T>(xs: seq<T>, keep: seq<bool>, x: T)
    requires |keep| == |xs|
    ensures IsSubsequence(SelectBy(xs, keep), xs)
    ensures x in SelectBy(xs, keep) <==> exists i | 0 <= i < |xs| :: keep[i] && xs[i] == x
    decreases |xs|
  {
    if |xs| > 0 {
      SelectBySpec(xs[1..], keep[1..], x);
      var rest := SelectBy(xs[1..], keep[1..]);
      if keep[0] {
        assert ([xs[0]] + rest)[1..] == rest;
      } else {
        assert SelectBy(xs, keep) == rest;
        assert |rest| > 0 ==> IsSubsequence(rest, xs[1..]);
      }
      if exists i | 0 <= i < |xs| :: keep[i] && xs[i] == x {
        var i :| 0 <= i < |xs| && keep[i] && xs[i] == x;
        if i > 0 {
          assert keep[1..][i - 1] && xs[1..][i - 1] == x;
        }
      }
      if exists i | 0 <= i < |xs| - 1 :: keep[1..][i] && xs[1..][i] == x {
        var i :| 0 <= i < |xs| - 1 && keep[1..][i] && xs[1..][i] == x;
        assert keep[i + 1] && xs[i + 1] == x;
      }
    }
  }

  /** In a list without duplicates, the element at j is first found at j. */
  lemma IndexOfNoDup<T>(s: seq<T>, j: nat)
    requires NoDup(s) && j < |s|
    ensures IndexOf(s, s[j]) == j
  {
    var i := IndexOf(s, s[j]);
    assert s[i] == s[j];
  }

  /** An element found at j and nowhere before j is first found at j. */
  lemma IndexOfAt<T>(s: seq<T>, x: T, j: nat)
    requires j < |s| && s[j] == x && x !in s[..j]
    ensures x in s && IndexOf(s, x) == j
  {
    assert s[..j + 1][j] == x;
  }

  /** dict(pairs): every pair enters the map in turn, so a later pair overrides an earlier one with the same key. */
  function ToMap<K(==), V>(pairs: seq<(K, V)>): map<K, V>
    decreases |pairs|
  {
    if |pairs| == 0 then map[] else ToMap(pairs[..|pairs| - 1])[pairs[|pairs| - 1].0 := pairs[|pairs| - 1].1]
  }

  /** The keys of dict(pairs) are the keys of the pairs. */
  lemma {:induction false} ToMapKeys<K, V>(pairs: seq<(K, V)>)
    ensures ToMap(pairs).Keys == set i | 0 <= i < |pairs| :: pairs[i].0
    decreases |pairs|
  {
    if |pairs| > 0 {
      var front := pairs[..|pairs| - 1];
      ToMapKeys(front);
      assert forall i | 0 <= i < |front| :: front[i] == pairs[i];
    }
  }

  /** A key's value in dict(pairs) comes from the last pair with that key. */
  lemma {:induction false} ToMapLastWins<K, V>(pairs: seq<(K, V)>, i: nat)
    requires i < |pairs|
    requires forall j | i < j < |pairs| :: pairs[j].0 != pairs[i].0
    ensures pairs[i].0 in ToMap(pairs) && ToMap(pairs)[pairs[i].0] == pairs[i].1
    decreases |pairs|
  {
    if i < |pairs| - 1 {
      var front := pairs[..|pairs| - 1];
      assert front[i] == pairs[i];
      ToMapLastWins(front, i);
    }
  }

  /** One more pair after the others. */
  lemma ToMapAppend<K, V>(pairs: seq<(K, V)>, p: (K, V))
    ensures ToMap(pairs + [p]) == ToMap(pairs)[p.0 := p.1]
  {
    assert (pairs + [p])[..|pairs|] == pairs;
  }

  /** Taking the whole length of a sequence gives the sequence. */
  lemma TakeWhole<T>(s: seq<T>, n: nat)
    requires n == |s|
    ensures s[..n] == s
  {
  }

  /** Appending one element after a concatenation. */
  lemma AppendSnoc<T>(a: seq<T>, b: seq<T>, x: T)
    ensures (a + b) + [x] == a + (b + [x])
  {
  }

  /** The first part of a three-part concatenation is its prefix, the last its suffix. */
  lemma ThreeParts<T>(a: seq<T>, b: seq<T>, c: seq<T>)
    ensures var s := a + b + c; a <= s && |c| <= |s| && s[|s| - |c|..] == c
  {
    var s := a + b + c;
    assert s[..|a|] == a;
  }
}
