/**
 * load_cmake_cache of script/common.py: the entries of a CMakeCache.txt read
 * into a dictionary from the key (without its ":TYPE") to the value. The
 * file's lines are a parameter; reading the file is not modelled.
 */
module CmakeCache {
  import opened Wrappers
  import opened Text

  /** Comment lines ("#" and "//") and blank lines are not entries. */
  predicate IsEntryLine(line: string) {
    !StartsWith(line, "#") && !StartsWith(line, "/") && |Strip(line)| > 0
  }

  /** Python's message for item[1] on a one-piece list. */
  const IndexErrorMessage := "list index out of range"

  /** The key of an entry: the text before the ":" that starts its type, stripped. */
  function EntryKey(head: string): string {
    Strip(Split(head, ':')[0])
  }

  /** A string splits into two or more pieces exactly when it holds the separator. */
  lemma SplitMany(s: string, sep: char)
    ensures |Split(s, sep)| >= 2 <==> sep in s
  {
    if |Split(s, sep)| == 1 {
      SplitJoin(s, sep);
      SplitPiecesFree(s, sep);
      assert Split(s, sep)[0] in Split(s, sep);
    } else {
      var parts := Split(s, sep);
      SplitJoin(s, sep);
      assert s == parts[0] + [sep] + JoinWith([sep], parts[1..]);
      assert s[|parts[0]|] == sep;
    }
  }

  /**
   * One entry as written: the stripped line is split at every "=", the value
   * is the second piece, and a line without "=" raises IndexError.
   */
  function ParseEntryAsWritten(line: string): (r: Result<(string, string)>)
    ensures r.Err? <==> '=' !in Strip(line)
    ensures r.Err? ==> r.error == IndexErrorMessage
  {
    var parts := Split(Strip(line), '=');
    SplitMany(Strip(line), '=');
    if |parts| < 2 then Err(IndexErrorMessage) else Ok((EntryKey(parts[0]), Strip(parts[1])))
  }

  /** One entry as intended: the value is everything after the first "=". */
  function ParseEntry(line: string): (r: Result<(string, string)>)
    ensures r.Err? <==> '=' !in Strip(line)
    ensures r.Err? ==> r.error == IndexErrorMessage
    ensures r.Ok? ==> var s := Strip(line);
      exists i | 0 <= i < |s| :: s[i] == '=' && '=' !in s[..i] && r.value == (EntryKey(s[..i]), Strip(s[i + 1..]))
  {
    var s := Strip(line);
    var parts := SplitOnce(s, '=');
    if |parts| < 2 then Err(IndexErrorMessage)
    else
      var i := |parts[0]|;
      assert s[..i] == parts[0] && s[i] == '=' && s[i + 1..] == parts[1];
      Ok((EntryKey(parts[0]), Strip(parts[1])))
  }

  /**
   * The lines read into a dictionary: every entry line enters its key and
   * value, a later entry overrides an earlier one with the same key, and one
   * entry line that cannot be parsed makes the whole load fail.
   */
  function Load(lines: seq<string>, parse: string -> Result<(string, string)>): Result<map<string, string>>
    decreases |lines|
  {
    if |lines| == 0 then Ok(map[])
    else
      var m :- Load(lines[..|lines| - 1], parse);
      var last := lines[|lines| - 1];
      if !IsEntryLine(last) then Ok(m)
      else
        var e :- parse(last);
        Ok(m[e.0 := e.1])
  }

  /** load_cmake_cache as written. */
  function LoadCmakeCacheAsWritten(lines: seq<string>): Result<map<string, string>> {
    Load(lines, ParseEntryAsWritten)
  }

  /** load_cmake_cache with each value taken after the first "=". */
  function LoadCmakeCache(lines: seq<string>): Result<map<string, string>> {
    Load(lines, ParseEntry)
  }

  /** Loading fails exactly when some entry line does not parse. */
  lemma {:induction false} LoadFails(lines: seq<string>, parse: string -> Result<(string, string)>)
    ensures Load(lines, parse).Err? <==> exists i | 0 <= i < |lines| :: IsEntryLine(lines[i]) && parse(lines[i]).Err?
    decreases |lines|
  {
    if |lines| > 0 {
      var front := lines[..|lines| - 1];
      LoadFails(front, parse);
      assert forall i | 0 <= i < |front| :: front[i] == lines[i];
    }
  }

  /** A key's value is the one of the last entry line with that key. */
  lemma {:induction false} LoadLastWins(lines: seq<string>, parse: string -> Result<(string, string)>, i: nat, key: string, value: string)
    requires i < |lines| && IsEntryLine(lines[i]) && parse(lines[i]) == Ok((key, value))
    requires forall j | i < j < |lines| :: !IsEntryLine(lines[j]) || parse(lines[j]).Err? || parse(lines[j]).value.0 != key
    requires Load(lines, parse).Ok?
    ensures key in Load(lines, parse).value && Load(lines, parse).value[key] == value
    decreases |lines|
  {
    var front := lines[..|lines| - 1];
    if i < |lines| - 1 {
      assert front[i] == lines[i];
      LoadLastWins(front, parse, i, key, value);
    }
  }

  /** Every key comes from an entry line. */
  lemma {:induction false} LoadKeys(lines: seq<string>, parse: string -> Result<(string, string)>, key: string)
    requires Load(lines, parse).Ok? && key in Load(lines, parse).value
    ensures exists i | 0 <= i < |lines| :: IsEntryLine(lines[i]) && parse(lines[i]).Ok? && parse(lines[i]).value.0 == key
    decreases |lines|
  {
    var front := lines[..|lines| - 1];
    var last := lines[|lines| - 1];
    if !(IsEntryLine(last) && parse(last).Ok? && parse(last).value.0 == key) {
      LoadKeys(front, parse, key);
      var i :| 0 <= i < |front| && IsEntryLine(front[i]) && parse(front[i]).Ok? && parse(front[i]).value.0 == key;
      assert front[i] == lines[i];
    }
  }

  /** Text that neither starts nor ends with a space. */
  predicate Trimmed(s: string) {
    |s| > 0 && !IsSpace(s[0]) && !IsSpace(s[|s| - 1])
  }

  /** A "KEY:TYPE=VALUE" line reads back as the key and the whole value. */
  lemma EntryRoundTrip(key: string, ty: string, value: string)
    requires Trimmed(key) && ':' !in key && '=' !in key && '=' !in ty
    requires |value| == 0 || Trimmed(value)
    ensures ParseEntry(key + ":" + ty + "=" + value) == Ok((key, value))
  {
    var head := key + ":" + ty;
    var line := head + "=" + value;
    assert line[0] == key[0];
    assert line[|line| - 1] == if |value| == 0 then '=' else value[|value| - 1];
    StripKeeps(line);
    assert line == head + ['='] + value;
    assert '=' !in head;
    SplitOnceAt(head, value, '=');
    assert head == key + [':'] + ty;
    SplitAround(key, ty, ':');
    SplitFree(key, ':');
    StripKeeps(key);
    if |value| > 0 {
      StripKeeps(value);
    }
  }

  /**
   * As written, a value that itself holds "=" is cut at its first "=":
   * "CMAKE_CXX_FLAGS:STRING=-DA=1" gives "-DA".
   */
  lemma ValueWithEqualsTruncated(key: string, ty: string, before: string, after: string)
    requires Trimmed(key) && ':' !in key && '=' !in key && '=' !in ty
    requires Trimmed(before) && '=' !in before && '=' !in after
    requires |after| == 0 || !IsSpace(after[|after| - 1])
    ensures ParseEntryAsWritten(key + ":" + ty + "=" + (before + "=" + after)) == Ok((key, before))
  {
    var head := key + ":" + ty;
    var line := head + "=" + (before + "=" + after);
    assert line[0] == key[0];
    assert line[|line| - 1] == if |after| == 0 then '=' else after[|after| - 1];
    StripKeeps(line);
    assert line == head + ['='] + (before + ['='] + after);
    SplitAround(head, before + ['='] + after, '=');
    SplitAround(before, after, '=');
    assert '=' !in head;
    SplitFree(head, '=');
    SplitFree(before, '=');
    SplitFree(after, '=');
    assert head == key + [':'] + ty;
    SplitAround(key, ty, ':');
    SplitFree(key, ':');
    StripKeeps(key);
    StripKeeps(before);
  }

  /** The intended reading keeps the whole value "-DA=1". */
  lemma ValueWithEqualsKept(key: string, ty: string, before: string, after: string)
    requires Trimmed(key) && ':' !in key && '=' !in key && '=' !in ty
    requires Trimmed(before) && '=' !in before
    requires |after| == 0 || !IsSpace(after[|after| - 1])
    ensures ParseEntry(key + ":" + ty + "=" + (before + "=" + after)) == Ok((key, before + "=" + after))
  {
    var value := before + "=" + after;
    assert value[0] == before[0];
    assert value[|value| - 1] == if |after| == 0 then '=' else after[|after| - 1];
    EntryRoundTrip(key, ty, value);
  }

  /** Where every value is free of "=", the intended reading agrees with the code as written. */
  lemma {:induction false} LoadAgrees(lines: seq<string>)
    requires forall i | 0 <= i < |lines| && IsEntryLine(lines[i]) :: |Split(Strip(lines[i]), '=')| <= 2
    ensures LoadCmakeCacheAsWritten(lines) == LoadCmakeCache(lines)
    decreases |lines|
  {
    if |lines| > 0 {
      var front := lines[..|lines| - 1];
      assert forall i | 0 <= i < |front| :: front[i] == lines[i];
      LoadAgrees(front);
      var last := lines[|lines| - 1];
      if IsEntryLine(last) {
        EntryAgrees(last);
      }
    }
  }

  lemma EntryAgrees(line: string)
    requires |Split(Strip(line), '=')| <= 2
    ensures ParseEntryAsWritten(line) == ParseEntry(line)
  {
    var s := Strip(line);
    var parts := SplitOnce(s, '=');
    if |parts| == 2 {
      assert s == parts[0] + ['='] + parts[1];
      SplitAround(parts[0], parts[1], '=');
      SplitFree(parts[0], '=');
      if '=' in parts[1] {
        SplitMany(parts[1], '=');
      } else {
        SplitFree(parts[1], '=');
      }
    }
  }
}
