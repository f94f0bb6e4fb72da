/**
 * The POSIX `os.path` operations the build scripts use: isabs, join, basename,
 * dirname, splitext and relpath. `normpath` is the identity here: the build
 * model only feeds it paths that are already normal.
 */
module Paths {
  import opened Text

  predicate IsAbs(p: string) {
    |p| > 0 && p[0] == '/'
  }

  /** os.path.normpath, modelled as the identity on the paths of this model. */
  function NormPath(p: string): string {
    p
  }

  /** os.path.join(a, b): an absolute b replaces a; otherwise one '/' separates them. */
  function Join(a: string, b: string): (r: string)
    ensures IsAbs(b) ==> r == b
    ensures !IsAbs(b) && |a| > 0 && a[|a| - 1] != '/' ==> r == a + "/" + b
  {
    if IsAbs(b) then b
    else if |a| == 0 || a[|a| - 1] == '/' then a + b
    else a + "/" + b
  }

  /** A relative b keeps a in front and ends the joined path. */
  lemma JoinParts(a: string, b: string)
    requires !IsAbs(b)
    ensures var r := Join(a, b); a <= r && |b| <= |r| && b == r[|r| - |b|..]
  {
  }

  /** os.path.join(a, b, c). */
  function Join3(a: string, b: string, c: string): string {
    Join(Join(a, b), c)
  }

  /** The index just after the last '/', or 0 when there is none. */
  function TailStart(p: string): (i: nat)
    ensures i <= |p|
    ensures i > 0 ==> p[i - 1] == '/'
    ensures forall j | i <= j < |p| :: p[j] != '/'
    decreases |p|
  {
    if |p| == 0 then 0
    else if p[|p| - 1] == '/' then |p|
    else TailStart(p[..|p| - 1])
  }

  /** os.path.basename: the text after the last '/'. */
  function Basename(p: string): string {
    p[TailStart(p)..]
  }

  /** The base name is a suffix of the path and holds no '/'. */
  lemma BasenameParts(p: string)
    ensures var r := Basename(p); '/' !in r && |r| <= |p| && r == p[|p| - |r|..]
  {
    var i := TailStart(p);
    assert forall c | c in p[i..] :: c != '/';
  }

  predicate AllSlashes(s: string) {
    forall c | c in s :: c == '/'
  }

  function StripTrailingSlashes(s: string): (r: string)
    ensures r <= s
    ensures |r| > 0 ==> r[|r| - 1] != '/'
    decreases |s|
  {
    if |s| > 0 && s[|s| - 1] == '/' then StripTrailingSlashes(s[..|s| - 1]) else s
  }

  /** os.path.dirname: the head before the last '/', trailing slashes removed unless it is all slashes. */
  function Dirname(p: string): (r: string)
    ensures r <= p
  {
    var head := p[..TailStart(p)];
    if |head| > 0 && !AllSlashes(head) then StripTrailingSlashes(head) else head
  }

  /** Index of the last '.' in s, if any. */
  function LastDot(s: string): (r: int)
    ensures -1 <= r < |s|
    ensures r >= 0 ==> s[r] == '.' && forall j | r < j < |s| :: s[j] != '.'
    ensures r == -1 ==> '.' !in s
    decreases |s|
  {
    if |s| == 0 then -1
    else if s[|s| - 1] == '.' then |s| - 1
    else LastDot(s[..|s| - 1])
  }

  predicate AllDots(s: string) {
    forall c | c in s :: c == '.'
  }

  /**
   * The extension part of os.path.splitext: from the last '.' of the base name,
   * unless that dot only follows leading dots (".bashrc" has no extension).
   */
  function Extension(p: string): (ext: string)
  {
    var base := Basename(p);
    var d := LastDot(base);
    if d > 0 && !AllDots(base[..d]) then base[d..] else ""
  }

  /** The extension is empty or a '.'-led suffix of the path, with no '/' in it. */
  lemma ExtensionShape(p: string)
    ensures var ext := Extension(p);
            (ext == [] || (ext[0] == '.' && |ext| <= |p| && ext == p[|p| - |ext|..])) && '/' !in ext
  {
  }

  /** The root part of os.path.splitext. */
  function StemOf(p: string): (root: string)
    ensures root + Extension(p) == p
  {
    ExtensionShape(p);
    var ext := Extension(p);
    p[..|p| - |ext|]
  }

  /** The pieces that are not empty. */
  function NonEmpty(parts: seq<string>): seq<string>
    decreases |parts|
  {
    if |parts| == 0 then []
    else (if |parts[0]| > 0 then [parts[0]] else []) + NonEmpty(parts[1..])
  }

  /** The names along a path: the pieces between slashes, empty ones left out. */
  function Components(p: string): seq<string> {
    NonEmpty(Split(p, '/'))
  }

  /** The length of the longest common prefix of two sequences of names. */
  function CommonLength(a: seq<string>, b: seq<string>): nat
    decreases |a|
  {
    if |a| == 0 || |b| == 0 || a[0] != b[0] then 0 else 1 + CommonLength(a[1..], b[1..])
  }

  /**
   * The names of the path p relative to the path base: one ".." for every
   * name of base after their common prefix, then the names of p after it.
   */
  function RelativeNames(pc: seq<string>, bc: seq<string>): seq<string>
    decreases |bc|
  {
    if |pc| > 0 && |bc| > 0 && pc[0] == bc[0] then RelativeNames(pc[1..], bc[1..])
    else seq(|bc|, k => "..") + pc
  }

  /** os.path.relpath(p, base): the relative names joined by "/", or "." when there are none. */
  function RelPath(p: string, base: string): (r: string)
    ensures |r| > 0 && !IsAbs(r)
  {
    var rel := RelativeNames(Components(p), Components(base));
    RelPathStart(p, base);
    if |rel| == 0 then "." else JoinWith("/", rel)
  }

  /** A name along a path: not empty, no slash. */
  predicate IsName(x: string) {
    |x| > 0 && '/' !in x
  }

  lemma {:induction false} NonEmptyNames(parts: seq<string>)
    requires forall x | x in parts :: '/' !in x
    ensures forall k | 0 <= k < |NonEmpty(parts)| :: IsName(NonEmpty(parts)[k])
    decreases |parts|
  {
    if |parts| > 0 {
      assert forall x | x in parts[1..] :: x in parts;
      NonEmptyNames(parts[1..]);
    }
  }

  lemma {:induction false} RelativeNamesStart(pc: seq<string>, bc: seq<string>)
    requires forall k | 0 <= k < |pc| :: IsName(pc[k])
    ensures var rel := RelativeNames(pc, bc);
            |rel| > 0 ==> rel[0] == ".." || IsName(rel[0])
    decreases |bc|
  {
    if |pc| > 0 && |bc| > 0 && pc[0] == bc[0] {
      RelativeNamesStart(pc[1..], bc[1..]);
    }
  }

  /** The relative names never start with a slash, so neither does the path they join to. */
  lemma RelPathStart(p: string, base: string)
    ensures var rel := RelativeNames(Components(p), Components(base));
            |rel| > 0 ==> |JoinWith("/", rel)| > 0 && JoinWith("/", rel)[0] != '/'
  {
    SplitPiecesFree(p, '/');
    NonEmptyNames(Split(p, '/'));
    var rel := RelativeNames(Components(p), Components(base));
    RelativeNamesStart(Components(p), Components(base));
    if |rel| > 1 {
      assert JoinWith("/", rel) == rel[0] + "/" + JoinWith("/", rel[1..]);
    }
  }

  /** A relative path whose names are separated by single slashes, with no slash at either end. */
  predicate PlainRelative(name: string) {
    var parts := Split(name, '/');
    forall k | 0 <= k < |parts| :: |parts[k]| > 0
  }

  lemma {:induction false} NonEmptyAppend(a: seq<string>, b: seq<string>)
    ensures NonEmpty(a + b) == NonEmpty(a) + NonEmpty(b)
    decreases |a|
  {
    if |a| == 0 {
      assert a + b == b;
    } else {
      assert (a + b)[1..] == a[1..] + b;
      NonEmptyAppend(a[1..], b);
    }
  }

  lemma {:induction false} NonEmptyKeeps(parts: seq<string>)
    requires forall k | 0 <= k < |parts| :: |parts[k]| > 0
    ensures NonEmpty(parts) == parts
    decreases |parts|
  {
    if |parts| > 0 {
      NonEmptyKeeps(parts[1..]);
      assert [parts[0]] + parts[1..] == parts;
    }
  }

  lemma {:induction false} RelativeNamesBelow(a: seq<string>, b: seq<string>)
    ensures RelativeNames(a + b, a) == b
    decreases |a|
  {
    if |a| == 0 {
      assert seq(0, k => "..") + b == a + b == b;
    } else {
      assert (a + b)[1..] == a[1..] + b;
      RelativeNamesBelow(a[1..], b);
    }
  }

  lemma {:induction false} RelativeNamesAbove(a: seq<string>, b: seq<string>)
    ensures RelativeNames(a, a + b) == seq(|b|, k => "..")
    decreases |a|
  {
    if |a| == 0 {
      assert a + b == b;
      assert seq(|b|, k => "..") + a == seq(|b|, k => "..");
    } else {
      assert (a + b)[1..] == a[1..] + b;
      RelativeNamesAbove(a[1..], b);
    }
  }

  /** Below a directory, a path's names are the directory's followed by the relative name's. */
  lemma ComponentsOfJoin(dir: string, name: string)
    requires |dir| > 0 && dir[|dir| - 1] != '/'
    requires !IsAbs(name)
    ensures Components(Join(dir, name)) == Components(dir) + Components(name)
  {
    assert Join(dir, name) == dir + ['/'] + name;
    SplitAround(dir, name, '/');
    NonEmptyAppend(Split(dir, '/'), Split(name, '/'));
  }

  /** Joining a plain relative name under a directory and taking the path relative to it gives the name back. */
  lemma RelPathOfJoin(dir: string, name: string)
    requires |dir| > 0 && dir[|dir| - 1] != '/'
    requires PlainRelative(name)
    ensures RelPath(Join(dir, name), dir) == name
  {
    var parts := Split(name, '/');
    assert !IsAbs(name);
    ComponentsOfJoin(dir, name);
    NonEmptyKeeps(parts);
    RelativeNamesBelow(Components(dir), parts);
    SplitJoin(name, '/');
  }

  /** A path relative to itself is ".". */
  lemma RelPathSelf(p: string)
    ensures RelPath(p, p) == "."
  {
    var pc := Components(p);
    RelativeNamesBelow(pc, []);
    assert pc + [] == pc;
  }

  /** A directory relative to one of its plain subdirectories is one ".." for each of the subdirectory's names. */
  lemma RelPathAbove(dir: string, sub: string)
    requires |dir| > 0 && dir[|dir| - 1] != '/'
    requires PlainRelative(sub)
    ensures RelPath(dir, Join(dir, sub)) == JoinWith("/", seq(|Split(sub, '/')|, k => ".."))
  {
    var parts := Split(sub, '/');
    assert !IsAbs(sub);
    ComponentsOfJoin(dir, sub);
    NonEmptyKeeps(parts);
    RelativeNamesAbove(Components(dir), parts);
  }

  /** The base name of dir joined with a plain file name is that file name. */
  lemma {:induction false} BasenameOfJoin(dir: string, name: string)
    requires '/' !in name
    ensures Basename(Join(dir, name)) == name
  {
    var p := Join(dir, name);
    assert p[|p| - |name|..] == name;
    TailStartAfterSlash(p, |p| - |name|);
  }

  lemma {:induction false} TailStartAfterSlash(p: string, k: nat)
    requires k <= |p|
    requires k == 0 || p[k - 1] == '/'
    requires forall j | k <= j < |p| :: p[j] != '/'
    ensures TailStart(p) == k
    decreases |p|
  {
    if |p| > 0 && p[|p| - 1] != '/' {
      assert k < |p|;
      TailStartAfterSlash(p[..|p| - 1], k);
    }
  }
}
