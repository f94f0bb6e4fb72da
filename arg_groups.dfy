/**
 * create_arg_groups of script/common.py: the command line of the helper
 * scripts is a list of commands, each followed by its options; options before
 * the first command form the group of no command.
 */
module ArgGroups {
  import opened Wrappers
  import opened Text

  /** An option's value: True when the argument has no "=", otherwise the text after the first "=". */
  datatype ArgValue = Flag | Given(text: string)

  /** str.lstrip(c) for one character: drops every leading c. */
  function LStrip(s: string, c: char): (r: string)
    ensures |r| <= |s| && r == s[|s| - |r|..]
    ensures |r| > 0 ==> r[0] != c
    ensures forall i | 0 <= i < |s| - |r| :: s[i] == c
    decreases |s|
  {
    if |s| > 0 && s[0] == c then LStrip(s[1..], c) else s
  }

  /** The part of an option argument before its first "=". */
  function OptionHead(arg: string): string {
    SplitOnce(arg, '=')[0]
  }

  /**
   * One option argument: the leading dashes of the part before the first "="
   * are dropped and the remaining dashes become underscores; no key at all
   * means the argument is ignored.
   */
  function ParseOptionArg(arg: string): (r: Option<(string, ArgValue)>)
    ensures r.Some? ==> |r.value.0| > 0
  {
    var kv := SplitOnce(arg, '=');
    var k := ReplaceChar(LStrip(kv[0], '-'), '-', "_");
    if |k| == 0 then None
    else
      var v := if |kv| > 1 then Given(kv[1]) else Flag;
      Some((k, v))
  }

  /**
   * An option argument is ignored exactly when it is dashes up to its first
   * "="; otherwise its key holds no dash, and its value is True when there is
   * no "=" and the text after the first "=" otherwise.
   */
  lemma ParseOptionArgMeaning(arg: string)
    ensures ParseOptionArg(arg).None? <==> forall i | 0 <= i < |OptionHead(arg)| :: OptionHead(arg)[i] == '-'
    ensures ParseOptionArg(arg).Some? ==> '-' !in ParseOptionArg(arg).value.0
    ensures ParseOptionArg(arg).Some? ==> (ParseOptionArg(arg).value.1 == Flag <==> '=' !in arg)
    ensures ParseOptionArg(arg).Some? && ParseOptionArg(arg).value.1.Given? ==>
      arg == OptionHead(arg) + "=" + ParseOptionArg(arg).value.1.text && '=' !in OptionHead(arg)
  {
    var kv := SplitOnce(arg, '=');
    var head := kv[0];
    assert OptionHead(arg) == head;
    var stripped := LStrip(head, '-');
    var k := ReplaceChar(stripped, '-', "_");
    ReplaceCharLength(stripped, '-', "_");
    LStripEmpty(head, '-');
    assert ParseOptionArg(arg).None? <==> |stripped| == 0;
  }

  /** Stripping leaves nothing exactly when every character is the stripped one. */
  lemma LStripEmpty(s: string, c: char)
    ensures |LStrip(s, c)| == 0 <==> forall i | 0 <= i < |s| :: s[i] == c
  {
    var r := LStrip(s, c);
    if |r| > 0 {
      assert r[0] == s[|s| - |r|] && r[0] != c;
    }
  }

  /** "--key=value" and "--key" read back as the key with the value, or with True. */
  lemma OptionArgRoundTrip(key: string, value: string)
    requires |key| > 0 && '-' !in key && '=' !in key && key[0] != '-'
    ensures ParseOptionArg("--" + key + "=" + value) == Some((key, Given(value)))
    ensures ParseOptionArg("--" + key) == Some((key, Flag))
  {
    var arg := "--" + key + "=" + value;
    assert '=' !in "--" + key;
    assert arg == ("--" + key) + ['='] + value;
    SplitOnceAt("--" + key, value, '=');
    SplitOnceAt2("--" + key, '=');
    LStripDashes(key);
    NoDashUnchanged(key);
  }

  lemma SplitOnceAt2(a: string, sep: char)
    requires sep !in a
    ensures SplitOnce(a, sep) == [a]
  {
  }

  lemma LStripDashes(key: string)
    requires |key| > 0 && key[0] != '-'
    ensures LStrip("--" + key, '-') == key
  {
    assert ("--" + key)[1..] == "-" + key;
    assert ("-" + key)[1..] == key;
  }

  lemma {:induction false} NoDashUnchanged(s: string)
    requires '-' !in s
    ensures ReplaceChar(s, '-', "_") == s
    decreases |s|
  {
    if |s| > 0 {
      NoDashUnchanged(s[1..]);
      assert s == [s[0]] + s[1..];
    }
  }

  /** The commands so far, each command's options, and the command whose options come next. */
  datatype Groups = Groups(commands: seq<string>, groups: map<Option<string>, map<string, ArgValue>>, current: Option<string>)

  /** Nothing read yet: no commands, and an empty group for no command. */
  function Start(): Groups {
    Groups([], map[None := map[]], None)
  }

  /** An option's key and value entered in a group; an ignored option leaves it as it is. */
  function AddOption(group: map<string, ArgValue>, arg: string): map<string, ArgValue> {
    match ParseOptionArg(arg)
    case None => group
    case Some((k, v)) => group[k := v]
  }

  /**
   * One argument: a dash argument goes into the current command's group;
   * anything else is a command, appended to the commands, with a new empty
   * group that replaces any earlier group of the same name.
   */
  function Step(g: Groups, arg: string): (r: Groups)
    requires g.current in g.groups
    ensures r.current in r.groups
  {
    if StartsWith(arg, "-") then g.(groups := g.groups[g.current := AddOption(g.groups[g.current], arg)])
    else Groups(g.commands + [arg], g.groups[Some(arg) := map[]], Some(arg))
  }

  /** The arguments read from left to right. */
  function GroupsOf(args: seq<string>): (r: Groups)
    ensures r.current in r.groups
    decreases |args|
  {
    if |args| == 0 then Start() else Step(GroupsOf(args[..|args| - 1]), args[|args| - 1])
  }

  /** create_arg_groups: the commands in order and each one's options. */
  method CreateArgGroups(args: seq<string>) returns (commands: seq<string>, argGroups: map<Option<string>, map<string, ArgValue>>)
    ensures commands == GroupsOf(args).commands && argGroups == GroupsOf(args).groups
  {
    commands := [];
    argGroups := map[None := map[]];
    var cmd: Option<string> := None;
    for i := 0 to |args|
      invariant Groups(commands, argGroups, cmd) == GroupsOf(args[..i])
    {
      assert args[..i + 1][..i] == args[..i];
      var arg := args[i];
      if StartsWith(arg, "-") {
        match ParseOptionArg(arg)
        case None =>
        case Some((k, v)) =>
          argGroups := argGroups[cmd := argGroups[cmd][k := v]];
      } else {
        cmd := Some(arg);
        argGroups := argGroups[cmd := map[]];
        commands := commands + [arg];
      }
    }
    assert args[..|args|] == args;
  }

  /** The arguments that are not options. */
  function NonOptions(args: seq<string>): seq<string>
    decreases |args|
  {
    if |args| == 0 then []
    else NonOptions(args[..|args| - 1]) + (if StartsWith(args[|args| - 1], "-") then [] else [args[|args| - 1]])
  }

  /** The commands are exactly the non-dash arguments, in order, repeats included. */
  lemma {:induction false} CommandsAreNonOptions(args: seq<string>)
    ensures GroupsOf(args).commands == NonOptions(args)
    decreases |args|
  {
    if |args| > 0 {
      CommandsAreNonOptions(args[..|args| - 1]);
    }
  }

  /** There is a group for no command and one for each command, and no other. */
  lemma {:induction false} GroupPerCommand(args: seq<string>)
    ensures GroupsOf(args).groups.Keys == {None} + (set c | c in GroupsOf(args).commands :: Some(c))
    decreases |args|
  {
    if |args| > 0 {
      GroupPerCommand(args[..|args| - 1]);
    }
  }

  /** Options read into a group from left to right. */
  function Collect(group: map<string, ArgValue>, opts: seq<string>): map<string, ArgValue>
    decreases |opts|
  {
    if |opts| == 0 then group else AddOption(Collect(group, opts[..|opts| - 1]), opts[|opts| - 1])
  }

  predicate AllOptions(opts: seq<string>) {
    forall i | 0 <= i < |opts| :: StartsWith(opts[i], "-")
  }

  /** A run of options goes into the current group, and nothing else changes. */
  lemma {:induction false} OptionsJoinCurrentGroup(pre: seq<string>, opts: seq<string>)
    requires AllOptions(opts)
    ensures var g := GroupsOf(pre);
      GroupsOf(pre + opts) == g.(groups := g.groups[g.current := Collect(g.groups[g.current], opts)])
    decreases |opts|
  {
    var g := GroupsOf(pre);
    if |opts| == 0 {
      assert pre + opts == pre;
      assert g.groups[g.current := g.groups[g.current]] == g.groups;
    } else {
      var last := opts[|opts| - 1];
      var front := opts[..|opts| - 1];
      assert AllOptions(front);
      OptionsJoinCurrentGroup(pre, front);
      var h := GroupsOf(pre + front);
      var before := Collect(g.groups[g.current], front);
      assert h.commands == g.commands && h.current == g.current;
      assert h.groups == g.groups[g.current := before];
      var x := AddOption(before, last);
      LastOption(pre, opts);
      UpdateTwice(g.groups, g.current, before, x);
      CollectLast(g.groups[g.current], opts);
    }
  }

  /** The last of a run of option arguments. */
  lemma LastOption(pre: seq<string>, opts: seq<string>)
    requires |opts| > 0 && StartsWith(opts[|opts| - 1], "-")
    ensures var h := GroupsOf(pre + opts[..|opts| - 1]);
      GroupsOf(pre + opts) == h.(groups := h.groups[h.current := AddOption(h.groups[h.current], opts[|opts| - 1])])
  {
    var all := pre + opts;
    assert all[..|all| - 1] == pre + opts[..|opts| - 1];
    GroupsOfLast(all);
  }

  lemma UpdateTwice<K, V>(m: map<K, V>, k: K, a: V, b: V)
    ensures m[k := a][k := b] == m[k := b]
  {
  }

  lemma CollectLast(group: map<string, ArgValue>, opts: seq<string>)
    requires |opts| > 0
    ensures Collect(group, opts) == AddOption(Collect(group, opts[..|opts| - 1]), opts[|opts| - 1])
  {
  }

  lemma GroupsOfLast(args: seq<string>)
    requires |args| > 0
    ensures GroupsOf(args) == Step(GroupsOf(args[..|args| - 1]), args[|args| - 1])
  {
  }

  /** Options before any command form the group of no command. */
  lemma LeadingOptions(opts: seq<string>)
    requires AllOptions(opts)
    ensures GroupsOf(opts) == Groups([], map[None := Collect(map[], opts)], None)
  {
    OptionsJoinCurrentGroup([], opts);
    assert [] + opts == opts;
  }

  /**
   * A command's group holds exactly the options that follow it; naming the
   * command again starts its group afresh and lists it again.
   */
  lemma CommandThenOptions(pre: seq<string>, command: string, opts: seq<string>)
    requires !StartsWith(command, "-")
    requires AllOptions(opts)
    ensures var g := GroupsOf(pre + [command] + opts);
      && g.commands == GroupsOf(pre).commands + [command]
      && g.current == Some(command)
      && g.groups[Some(command)] == Collect(map[], opts)
  {
    var withCommand := pre + [command];
    assert withCommand[..|withCommand| - 1] == pre;
    OptionsJoinCurrentGroup(withCommand, opts);
  }
}
