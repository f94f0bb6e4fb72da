/**
 * The shell helpers of script/common.py: how a variable is referenced, how a
 * string is escaped inside double quotes, and the command that exports a
 * variable by prepending to another one, for sh, PowerShell and cmd.
 */
module Shell {
  import opened Text

  datatype ShellId = Sh | Pwsh | Cmd

  /** make_shell_var_name: "${name}" for sh and PowerShell, "%name%" for cmd. */
  function MakeShellVarName(name: string, shell: ShellId): (r: string)
    ensures shell != Cmd ==> |r| == |name| + 3 && r[..2] == "${" && r[2..|r| - 1] == name && r[|r| - 1] == '}'
    ensures shell == Cmd ==> |r| == |name| + 2 && r[0] == '%' && r[1..|r| - 1] == name && r[|r| - 1] == '%'
  {
    match shell
    case Sh | Pwsh =>
      var v := "${" + name + "}";
      assert v[..2] == "${" && v[2..|v| - 1] == name;
      v
    case Cmd =>
      var v := "%" + name + "%";
      assert v[1..|v| - 1] == name;
      v
  }

  /** make_shell_env_var_name: PowerShell reads environment variables through the Env: drive. */
  function MakeShellEnvVarName(name: string, shell: ShellId): (r: string)
    ensures shell == Sh ==> r == "${" + name + "}"
    ensures shell == Pwsh ==> r == "${Env:" + name + "}"
    ensures shell == Cmd ==> r == "%" + name + "%"
  {
    var name := if shell == Pwsh then "Env:" + name else name;
    MakeShellVarName(name, shell)
  }

  /** The str.replace calls of escape_shell_string, in the order they are made. */
  function Rules(shell: ShellId): seq<(char, string)> {
    match shell
    case Sh => [('\\', "\\\\"), ('$', "\\$")]
    case Pwsh => [('"', "\"\""), ('`', "``")]
    case Cmd => [('^', "^^"), ('"', "^\""), ('%', "^%"), ('!', "^!")]
  }

  /** A chain of single-character str.replace calls. */
  function ReplaceAll(s: string, rules: seq<(char, string)>): string
    decreases |rules|
  {
    if |rules| == 0 then s else ReplaceAll(ReplaceChar(s, rules[0].0, rules[0].1), rules[1..])
  }

  /**
   * The characters escape_shell_string marks for each shell. This is not
   * every character the shell itself reads specially inside double quotes.
   */
  predicate IsSpecial(c: char, shell: ShellId) {
    match shell
    case Sh => c == '\\' || c == '$'
    case Pwsh => c == '"' || c == '`'
    case Cmd => c == '^' || c == '"' || c == '%' || c == '!'
  }

  /** The character put in front of an escaped one: a backslash, the character itself, or a caret. */
  function Mark(c: char, shell: ShellId): char {
    match shell
    case Sh => '\\'
    case Pwsh => c
    case Cmd => '^'
  }

  /** What escaping makes of one character. */
  function EscapeChar(c: char, shell: ShellId): string {
    if IsSpecial(c, shell) then [Mark(c, shell), c] else [c]
  }

  /** Escaping character by character. */
  function EscapeEach(s: string, shell: ShellId): string
    decreases |s|
  {
    if |s| == 0 then "" else EscapeChar(s[0], shell) + EscapeEach(s[1..], shell)
  }

  /**
   * escape_shell_string: the replacements in the source's order amount to
   * putting the shell's mark before every character of its escaped set. In
   * cmd the caret is escaped first, so the carets added for the other
   * characters are not doubled.
   */
  function EscapeShellString(s: string, shell: ShellId): (r: string)
    ensures r == EscapeEach(s, shell)
  {
    EscapeByRules(s, shell);
    ReplaceAll(s, Rules(shell))
  }

  lemma {:induction false} ReplaceAllAppend(a: string, b: string, rules: seq<(char, string)>)
    ensures ReplaceAll(a + b, rules) == ReplaceAll(a, rules) + ReplaceAll(b, rules)
    decreases |rules|
  {
    if |rules| > 0 {
      ReplaceCharAppend(a, b, rules[0].0, rules[0].1);
      ReplaceAllAppend(ReplaceChar(a, rules[0].0, rules[0].1), ReplaceChar(b, rules[0].0, rules[0].1), rules[1..]);
    }
  }

  lemma ReplaceCharTwo(a: char, b: char, p: char, rep: string)
    requires a != p && b != p
    ensures ReplaceChar([a, b], p, rep) == [a, b]
  {
    assert [a, b][1..] == [b];
    ReplaceCharOne(b, p, rep);
  }

  lemma ReplaceAllTwo(s: string, a: (char, string), b: (char, string))
    ensures ReplaceAll(s, [a, b]) == ReplaceChar(ReplaceChar(s, a.0, a.1), b.0, b.1)
  {
    assert [a, b][1..] == [b];
    assert [b][1..] == [];
    var x := ReplaceChar(s, a.0, a.1);
    assert ReplaceAll(s, [a, b]) == ReplaceAll(x, [b]);
    assert ReplaceAll(x, [b]) == ReplaceAll(ReplaceChar(x, b.0, b.1), []);
  }

  lemma ReplaceAllFour(s: string, a: (char, string), b: (char, string), c: (char, string), d: (char, string))
    ensures ReplaceAll(s, [a, b, c, d]) == ReplaceAll(ReplaceChar(ReplaceChar(s, a.0, a.1), b.0, b.1), [c, d])
  {
    assert [a, b, c, d][1..] == [b, c, d];
    assert [b, c, d][1..] == [c, d];
  }

  /** A caret, a double quote, a percent sign or an exclamation mark gets a caret; nothing else changes. */
  lemma EscapeOneCmd(c: char)
    ensures ReplaceAll([c], Rules(Cmd)) == EscapeChar(c, Cmd)
  {
    ReplaceAllFour([c], ('^', "^^"), ('"', "^\""), ('%', "^%"), ('!', "^!"));
    ReplaceCharOne(c, '^', "^^");
    var s1 := ReplaceChar([c], '^', "^^");
    if c == '^' {
      ReplaceCharTwo('^', '^', '"', "^\"");
    } else {
      ReplaceCharOne(c, '"', "^\"");
    }
    var s2 := ReplaceChar(s1, '"', "^\"");
    ReplaceAllTwo(s2, ('%', "^%"), ('!', "^!"));
    if c == '^' || c == '"' {
      ReplaceCharTwo('^', c, '%', "^%");
      ReplaceCharTwo('^', c, '!', "^!");
    } else {
      ReplaceCharOne(c, '%', "^%");
      if c == '%' {
        ReplaceCharTwo('^', '%', '!', "^!");
      } else {
        ReplaceCharOne(c, '!', "^!");
      }
    }
  }

  /** One character through the chain of replacements. */
  lemma EscapeOneByRules(c: char, shell: ShellId)
    ensures ReplaceAll([c], Rules(shell)) == EscapeChar(c, shell)
  {
    var rules := Rules(shell);
    if shell == Cmd {
      EscapeOneCmd(c);
    } else {
      ReplaceAllTwo([c], rules[0], rules[1]);
      ReplaceCharOne(c, rules[0].0, rules[0].1);
      var s1 := ReplaceChar([c], rules[0].0, rules[0].1);
      if c == rules[0].0 {
        ReplaceCharTwo(s1[0], s1[1], rules[1].0, rules[1].1);
      } else {
        ReplaceCharOne(c, rules[1].0, rules[1].1);
      }
    }
  }

  lemma {:induction false} EscapeByRules(s: string, shell: ShellId)
    ensures ReplaceAll(s, Rules(shell)) == EscapeEach(s, shell)
    decreases |s|
  {
    if |s| == 0 {
      ReplaceAllEmpty(Rules(shell));
    } else {
      assert s == [s[0]] + s[1..];
      ReplaceAllAppend([s[0]], s[1..], Rules(shell));
      EscapeOneByRules(s[0], shell);
      EscapeByRules(s[1..], shell);
    }
  }

  lemma {:induction false} ReplaceAllEmpty(rules: seq<(char, string)>)
    ensures ReplaceAll("", rules) == ""
    decreases |rules|
  {
    if |rules| > 0 {
      ReplaceAllEmpty(rules[1..]);
    }
  }

  /**
   * Removing the marks: a mark followed by a character of the escaped set
   * stands for that character. This inverts the escaping; it is not how a
   * shell reads the text.
   */
  function UnescapeShellString(s: string, shell: ShellId): string
    decreases |s|
  {
    if |s| == 0 then ""
    else if |s| >= 2 && IsSpecial(s[1], shell) && s[0] == Mark(s[1], shell) then [s[1]] + UnescapeShellString(s[2..], shell)
    else [s[0]] + UnescapeShellString(s[1..], shell)
  }

  /** Escaping is one-to-one: removing each mark gives back the original string. */
  lemma {:induction false} EscapeRoundTrip(s: string, shell: ShellId)
    ensures UnescapeShellString(EscapeShellString(s, shell), shell) == s
    decreases |s|
  {
    if |s| > 0 {
      EscapeRoundTrip(s[1..], shell);
      var rest := EscapeEach(s[1..], shell);
      var e := EscapeChar(s[0], shell) + rest;
      if IsSpecial(s[0], shell) {
        assert e[2..] == rest;
      } else {
        assert e[1..] == rest;
      }
      assert s == [s[0]] + s[1..];
    }
  }

  /** Text without characters of the escaped set is not changed by escaping. */
  lemma {:induction false} EscapePlainText(s: string, shell: ShellId)
    requires forall i | 0 <= i < |s| :: !IsSpecial(s[i], shell)
    ensures EscapeShellString(s, shell) == s
    decreases |s|
  {
    if |s| > 0 {
      EscapePlainText(s[1..], shell);
      assert s == [s[0]] + s[1..];
    }
  }

  /** The text of the export command before the escaped value. */
  function ExportHead(key: string, appendTo: string, shell: ShellId, pathsep: string): string {
    var existing := MakeShellEnvVarName(appendTo, shell) + pathsep;
    match shell
    case Sh => "export " + key + "=\"" + existing
    case Pwsh => "$Env:" + key + " = \"" + existing
    case Cmd => "set \"" + key + "=" + existing
  }

  /**
   * make_shell_export_var_cmd: sets `key` to the previous value of
   * `appendTo`, the path separator (os.pathsep, a parameter) and the escaped
   * value, inside double quotes. Only the value is escaped.
   */
  function MakeShellExportVarCmd(key: string, value: string, appendTo: string, shell: ShellId, pathsep: string): (r: string)
    ensures r == ExportHead(key, appendTo, shell, pathsep) + EscapeShellString(value, shell) + "\""
  {
    var value := EscapeShellString(value, shell);
    var existing := MakeShellEnvVarName(appendTo, shell) + pathsep;
    match shell
    case Sh => "export " + key + "=\"" + existing + value + "\""
    case Pwsh => "$Env:" + key + " = \"" + existing + value + "\""
    case Cmd => "set \"" + key + "=" + existing + value + "\""
  }

  /** The exported value is recovered by removing the marks from what lies between the head and the closing quote. */
  lemma ExportValueRecoverable(key: string, value: string, appendTo: string, shell: ShellId, pathsep: string)
    ensures var r := MakeShellExportVarCmd(key, value, appendTo, shell, pathsep);
      var head := ExportHead(key, appendTo, shell, pathsep);
      |head| < |r| && r[|r| - 1] == '"' && r[..|head|] == head &&
      UnescapeShellString(r[|head|..|r| - 1], shell) == value
  {
    var r := MakeShellExportVarCmd(key, value, appendTo, shell, pathsep);
    var head := ExportHead(key, appendTo, shell, pathsep);
    var escaped := EscapeShellString(value, shell);
    assert r[|head|..|r| - 1] == escaped;
    EscapeRoundTrip(value, shell);
  }
}
