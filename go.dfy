/**
 * script/internal/go.py: the Go architecture names, the parser for the
 * output of `go version`, and the version test that decides whether Go can
 * receive quoted parameters.
 */
module Go {
  import opened Wrappers
  import opened Text
  import opened Arches

  /** to_go_architecture: a fixed four-entry map; the native pseudo-architecture is not a key. */
  function ToGoArchitecture(arch: Arch): (r: Result<string>)
    ensures r.Err? <==> arch == Native
    ensures r.Ok? ==> r.value in {"arm64", "arm", "amd64", "x86"}
  {
    match arch
    case Arm64 => Ok("arm64")
    case Arm32 => Ok("arm")
    case X64 => Ok("amd64")
    case X86 => Ok("x86")
    case Native => Err("KeyError: Arch.NATIVE")
  }

  /** The architecture a Go architecture name stands for, if it is one of the map's values. */
  function FromGoArchitecture(name: string): Option<Arch> {
    if name == "arm64" then Some(Arm64)
    else if name == "arm" then Some(Arm32)
    else if name == "amd64" then Some(X64)
    else if name == "x86" then Some(X86)
    else None
  }

  /** The map is one-to-one: each Go name comes from exactly one architecture. */
  lemma GoArchitectureRoundTrip(arch: Arch, name: string)
    ensures ToGoArchitecture(arch) == Ok(name) <==> FromGoArchitecture(name) == Some(arch)
  {
  }

  /** The text after an optional sign. */
  function Unsigned(s: string): (r: string)
    ensures |r| <= |s|
  {
    if |s| > 0 && (s[0] == '+' || s[0] == '-') then s[1..] else s
  }

  /**
   * Decimal digits in groups joined by single underscores: it starts and
   * ends with a digit, and no two underscores are adjacent.
   */
  predicate IsDigitGroups(d: string) {
    && |d| > 0 && IsDigit(d[0]) && IsDigit(d[|d| - 1])
    && (forall i | 0 <= i < |d| :: IsDigit(d[i]) || d[i] == '_')
    && (forall i | 0 <= i < |d| - 1 :: d[i] == '_' ==> d[i + 1] != '_')
  }

  /** The text with its underscores left out. */
  function WithoutUnderscores(d: string): (r: string)
    ensures |r| <= |d|
    decreases |d|
  {
    if |d| == 0 then []
    else (if d[0] == '_' then [] else [d[0]]) + WithoutUnderscores(d[1..])
  }

  /**
   * What Python's int() accepts in base 10: after white space is stripped
   * from both ends, an optional sign and digit groups.
   */
  predicate IsIntLiteral(s: string) {
    IsDigitGroups(Unsigned(Strip(s)))
  }

  /** int(s) in base 10. */
  function ParseInt(s: string): (r: Result<int>)
    ensures r.Ok? <==> IsIntLiteral(s)
    ensures r.Err? ==> r.error == "invalid literal for int() with base 10: '" + s + "'"
    ensures r.Ok? ==> (r.value < 0 ==> Strip(s)[0] == '-')
  {
    var t := Strip(s);
    if !IsIntLiteral(s) then Err("invalid literal for int() with base 10: '" + s + "'")
    else if t[0] == '-' then Ok(0 - DigitsValue(WithoutUnderscores(t[1..])))
    else Ok(DigitsValue(WithoutUnderscores(Unsigned(t))))
  }

  /** Digits without underscores are left as they are. */
  lemma {:induction false} NoUnderscoresKept(d: string)
    requires forall i | 0 <= i < |d| :: IsDigit(d[i])
    ensures WithoutUnderscores(d) == d
    decreases |d|
  {
    if |d| > 0 {
      NoUnderscoresKept(d[1..]);
      assert [d[0]] + d[1..] == d;
    }
  }

  /** Surrounding white space and underscores between digits are accepted: " 1_000 " is 1000. */
  lemma ParseIntSeparators()
    ensures ParseInt(" 1_000\n") == Ok(1000)
  {
    var s := " 1_000\n";
    assert Strip(s) == "1_000" by {
      assert StripLeft(s) == s[1..] by {
        assert IsSpace(s[0]) && !IsSpace(s[1..][0]);
      }
      assert StripRight(s[1..]) == "1_000" by {
        assert s[1..][..|s[1..]| - 1] == "1_000";
      }
    }
    assert Unsigned("1_000") == "1_000" && IsDigitGroups("1_000");
    assert WithoutUnderscores("1_000") == "1000";
    assert DigitsValue("1000") == 1000 by {
      assert "1000"[..3] == "100" && "100"[..2] == "10" && "10"[..1] == "1";
    }
  }

  /** A leading or doubled underscore is refused. */
  lemma ParseIntRejectsUnderscores()
    ensures ParseInt("_1").Err? && ParseInt("1__0").Err? && ParseInt("1_").Err?
  {
    assert Strip("_1") == "_1" by { StripKeeps("_1"); }
    assert Strip("1__0") == "1__0" by { StripKeeps("1__0"); }
    assert Strip("1_") == "1_" by { StripKeeps("1_"); }
    assert "1__0"[1] == '_' && "1__0"[2] == '_';
  }

  /** The decimal rendering of a natural number is one group of digits. */
  lemma RenderedDigits(n: nat)
    ensures IsDigitGroups(NatToString(n))
    ensures WithoutUnderscores(NatToString(n)) == NatToString(n)
    ensures !IsSpace(NatToString(n)[0]) && !IsSpace(NatToString(n)[|NatToString(n)| - 1])
  {
    var digits := NatToString(n);
    assert forall k | 0 <= k < |digits| :: IsDigit(digits[k]) by {
      forall k | 0 <= k < |digits| ensures IsDigit(digits[k]) {
        assert digits[k] in digits;
      }
    }
    NoUnderscoresKept(digits);
  }

  /** int() reads back what str() writes. */
  lemma ParseIntOfString(i: int)
    ensures ParseInt(IntToString(i)) == Ok(i)
  {
    if i < 0 {
      ParseNegative(-i);
    } else {
      ParseNatural(i);
    }
  }

  lemma ParseNatural(n: nat)
    ensures ParseInt(NatToString(n)) == Ok(n)
  {
    var digits := NatToString(n);
    DigitsOfNat(n);
    RenderedDigits(n);
    StripKeeps(digits);
    assert Unsigned(digits) == digits;
  }

  lemma ParseNegative(n: nat)
    requires n > 0
    ensures ParseInt("-" + NatToString(n)) == Ok(-(n as int))
  {
    var digits := NatToString(n);
    var text := "-" + digits;
    assert Strip(text) == text && IsIntLiteral(text) && text[1..] == digits by {
      RenderedDigits(n);
      assert text[|text| - 1] == digits[|digits| - 1];
      StripKeeps(text);
      assert text[1..] == digits;
      assert Unsigned(text) == digits;
    }
    assert WithoutUnderscores(digits) == digits && DigitsValue(digits) == n by {
      RenderedDigits(n);
      DigitsOfNat(n);
    }
  }

  /** `tuple(int(element) for element in parts)`: the first part that is not a number raises. */
  function ParseVersionNumbers(parts: seq<string>): (r: Result<seq<int>>)
    ensures r.Ok? <==> forall k | 0 <= k < |parts| :: ParseInt(parts[k]).Ok?
    ensures r.Ok? ==> |r.value| == |parts|
    ensures r.Ok? ==> forall k | 0 <= k < |parts| :: ParseInt(parts[k]) == Ok(r.value[k])
    decreases |parts|
  {
    if |parts| == 0 then Ok([])
    else
      var first :- ParseInt(parts[0]);
      var rest :- ParseVersionNumbers(parts[1..]);
      Ok([first] + rest)
  }

  /** The words of a `go version` line begin with "go" and "version" and number at least four. */
  predicate IsVersionLine(words: seq<string>) {
    |words| >= 4 && words[0] == "go" && words[1] == "version"
  }

  /** The words the parser sees: the stripped text split at every single space. */
  function Words(s: string): seq<string> {
    Split(Strip(s), ' ')
  }

  /**
   * parse_go_version_string: the third word without its "go" prefix, split at
   * the dots, each piece converted to an integer.
   */
  function ParseGoVersionString(s: string): (r: Result<seq<int>>)
    ensures !IsVersionLine(Words(s)) ==> r == Err("Invalid go version string")
    ensures r.Ok? ==> IsVersionLine(Words(s))
    ensures r.Ok? ==> |r.value| == |Split(RemovePrefix(Words(s)[2], "go"), '.')| >= 1
  {
    var words := Words(s);
    if |words| < 4 || words[0] != "go" || words[1] != "version" then
      Err("Invalid go version string")
    else
      ParseVersionNumbers(Split(RemovePrefix(words[2], "go"), '.'))
  }

  /** Joining pieces that do not contain the separator and splitting again gives back the pieces. */
  lemma {:induction false} SplitOfJoin(parts: seq<string>, sep: char)
    requires |parts| >= 1
    requires forall k | 0 <= k < |parts| :: sep !in parts[k]
    ensures Split(JoinWith([sep], parts), sep) == parts
    decreases |parts|
  {
    SplitFree(parts[0], sep);
    if |parts| > 1 {
      SplitOfJoin(parts[1..], sep);
      SplitAround(parts[0], JoinWith([sep], parts[1..]), sep);
      assert [parts[0]] + parts[1..] == parts;
    }
  }

  /** The decimal rendering of each component of a version. */
  function VersionPieces(v: seq<nat>): (r: seq<string>)
    ensures |r| == |v|
    ensures forall k | 0 <= k < |v| :: r[k] == NatToString(v[k])
  {
    seq(|v|, k requires 0 <= k < |v| => NatToString(v[k]))
  }

  /** The pieces of a rendered version convert back to its components. */
  lemma {:induction false} ParseVersionPieces(v: seq<nat>)
    ensures ParseVersionNumbers(VersionPieces(v)) == Ok(v)
    decreases |v|
  {
    if |v| > 0 {
      var pieces := VersionPieces(v);
      assert ParseInt(pieces[0]) == Ok(v[0] as int) by {
        ParseNatural(v[0]);
      }
      assert ParseVersionNumbers(pieces[1..]) == Ok(v[1..]) by {
        ParseVersionPieces(v[1..]);
        assert pieces[1..] == VersionPieces(v[1..]);
      }
      assert [v[0] as int] + v[1..] == v;
    }
  }

  /** Four words without spaces, joined by single spaces, split back into the four words. */
  lemma SplitFourWords(w0: string, w1: string, w2: string, w3: string)
    requires ' ' !in w0 && ' ' !in w1 && ' ' !in w2 && ' ' !in w3
    ensures Split(w0 + [' '] + (w1 + [' '] + (w2 + [' '] + w3)), ' ') == [w0, w1, w2, w3]
  {
    SplitFree(w2, ' ');
    SplitFree(w3, ' ');
    SplitAround(w2, w3, ' ');
    SplitFree(w1, ' ');
    SplitAround(w1, w2 + [' '] + w3, ' ');
    SplitFree(w0, ' ');
    SplitAround(w0, w1 + [' '] + (w2 + [' '] + w3), ' ');
  }

  /** The words of "go version <third> <platform>" when neither word holds a space. */
  lemma WordsOfVersionLine(third: string, platform: string)
    requires ' ' !in third && ' ' !in platform
    requires |platform| > 0 && !IsSpace(platform[|platform| - 1])
    ensures Words("go version " + third + " " + platform) == ["go", "version", third, platform]
  {
    var line := "go" + [' '] + ("version" + [' '] + (third + [' '] + platform));
    assert "go version " + third + " " + platform == line;
    assert line[0] == 'g' && line[|line| - 1] == platform[|platform| - 1];
    StripKeeps(line);
    SplitFourWords("go", "version", third, platform);
  }

  /**
   * A line as `go version` prints it — "go version go<v> <platform>", the
   * version written with dots — parses back to the version.
   */
  lemma ParseVersionLine(v: seq<nat>, platform: string)
    requires |v| >= 1
    requires |platform| > 0 && ' ' !in platform && !IsSpace(platform[|platform| - 1])
    ensures ParseGoVersionString("go version go" + JoinWith(".", VersionPieces(v)) + " " + platform) == Ok(v)
  {
    var pieces := VersionPieces(v);
    var digits := JoinWith(".", pieces);
    var third := "go" + digits;
    forall k | 0 <= k < |pieces|
      ensures '.' !in pieces[k] && ' ' !in pieces[k]
    {
      assert forall c | c in pieces[k] :: '0' <= c <= '9';
    }
    JoinFree(pieces, '.', ' ');
    WordsOfVersionLine(third, platform);
    assert "go version go" + digits + " " + platform == "go version " + third + " " + platform;
    assert RemovePrefix(third, "go") == digits;
    SplitOfJoin(pieces, '.');
    ParseVersionPieces(v);
  }

  /** Joining pieces free of a character with a different separator leaves the character out. */
  lemma {:induction false} JoinFree(parts: seq<string>, sep: char, c: char)
    requires sep != c
    requires forall k | 0 <= k < |parts| :: c !in parts[k]
    ensures c !in JoinWith([sep], parts)
    decreases |parts|
  {
    if |parts| > 1 {
      JoinFree(parts[1..], sep, c);
    }
  }

  /** Version 1.21.3 is written "1.21.3". */
  lemma ReleaseVersionText()
    ensures JoinWith(".", VersionPieces([1, 21, 3])) == "1.21.3"
  {
    assert NatToString(1) == "1" && NatToString(3) == "3";
    assert NatToString(21) == NatToString(2) + [DigitChar(1)] == "21";
    var pieces := VersionPieces([1, 21, 3]);
    assert pieces == ["1", "21", "3"];
    assert JoinWith(".", pieces[2..]) == "3";
    assert JoinWith(".", pieces[1..]) == "21" + "." + "3";
  }

  /** The output of a current Go release, "go version go1.21.3 linux/amd64". */
  lemma ParseReleaseLine()
    ensures ParseGoVersionString("go version go" + "1.21.3" + " " + "linux/amd64") == Ok([1, 21, 3])
  {
    var platform := "linux/amd64";
    assert forall c | c in platform :: c != ' ';
    ReleaseVersionText();
    ParseVersionLine([1, 21, 3], platform);
  }

  /**
   * A doubled space after "go" makes an empty second word, so the line is
   * rejected whatever follows.
   */
  lemma DoubledSpaceRejected(rest: string)
    requires |rest| > 0 && !IsSpace(rest[|rest| - 1])
    ensures ParseGoVersionString("go  " + rest) == Err("Invalid go version string")
  {
    var line := "go" + [' '] + ("" + [' '] + rest);
    assert "go  " + rest == line;
    StripKeeps(line);
    SplitAround("go", "" + [' '] + rest, ' ');
    SplitAround("", rest, ' ');
    SplitFree("go", ' ');
    assert Words(line)[1] == "";
  }

  /** Python's `>=` on tuples of integers: lexicographic, and a proper prefix is smaller. */
  predicate VersionAtLeast(a: seq<int>, b: seq<int>)
    decreases |b|
  {
    if |b| == 0 then true
    else if |a| == 0 then false
    else if a[0] != b[0] then a[0] > b[0]
    else VersionAtLeast(a[1..], b[1..])
  }

  /** The comparison is reflexive. */
  lemma {:induction false} VersionAtLeastReflexive(a: seq<int>)
    ensures VersionAtLeast(a, a)
    decreases |a|
  {
    if |a| > 0 {
      VersionAtLeastReflexive(a[1..]);
    }
  }

  /** Any two versions are ordered one way or the other. */
  lemma {:induction false} VersionAtLeastTotal(a: seq<int>, b: seq<int>)
    ensures VersionAtLeast(a, b) || VersionAtLeast(b, a)
    decreases |a|
  {
    if |a| > 0 && |b| > 0 && a[0] == b[0] {
      VersionAtLeastTotal(a[1..], b[1..]);
    }
  }

  /** Versions ordered both ways are equal. */
  lemma {:induction false} VersionAtLeastAntisymmetric(a: seq<int>, b: seq<int>)
    requires VersionAtLeast(a, b) && VersionAtLeast(b, a)
    ensures a == b
    decreases |a|
  {
    if |a| > 0 && |b| > 0 {
      VersionAtLeastAntisymmetric(a[1..], b[1..]);
      assert a == [a[0]] + a[1..];
      assert b == [b[0]] + b[1..];
    }
  }

  /** The comparison is transitive. */
  lemma {:induction false} VersionAtLeastTransitive(a: seq<int>, b: seq<int>, c: seq<int>)
    requires VersionAtLeast(a, b) && VersionAtLeast(b, c)
    ensures VersionAtLeast(a, c)
    decreases |c|
  {
    if |c| > 0 && a[0] == b[0] && b[0] == c[0] {
      VersionAtLeastTransitive(a[1..], b[1..], c[1..]);
    }
  }

  /** go_version_supports_quoted_params: the version is at least (1, 18, 0). */
  function SupportsQuotedParams(version: seq<int>): (r: bool)
    ensures r <==> ((|version| >= 1 && version[0] > 1)
                    || (|version| >= 2 && version[0] == 1 && version[1] > 18)
                    || (|version| >= 3 && version[0] == 1 && version[1] == 18 && version[2] >= 0))
  {
    VersionAtLeast(version, [1, 18, 0])
  }

  /** A two-component 1.18 compares below (1, 18, 0); 1.18.0 and later releases qualify, 1.17 does not. */
  lemma QuotedParamsExamples()
    ensures !SupportsQuotedParams([1, 18])
    ensures SupportsQuotedParams([1, 18, 0]) && SupportsQuotedParams([1, 21, 3]) && SupportsQuotedParams([2])
    ensures !SupportsQuotedParams([1, 17, 9])
  {
  }
}
