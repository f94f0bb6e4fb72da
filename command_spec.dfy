/**
 * How script/common.py turns a `cmd_*` function into a command: the name
 * comes from the function name, the help text and the option descriptions
 * from the docstring, and every documented option must be a parameter of the
 * function.
 */
module CommandSpecs {
  import opened Wrappers
  import opened Text
  import opened SeqUtil

  /** `\w` on the ASCII range: letters, digits and the underscore. */
  predicate IsWordChar(c: char) {
    'a' <= c <= 'z' || 'A' <= c <= 'Z' || '0' <= c <= '9' || c == '_'
  }

  /** The character classes of the parameter pattern: `[*-]`, `\s` and `\w`. */
  datatype CharClass = Bullet | Blank | Word

  predicate InClass(c: char, k: CharClass) {
    match k
    case Bullet => c == '*' || c == '-'
    case Blank => IsSpace(c)
    case Word => IsWordChar(c)
  }

  /** What is left after a greedy run of the class at the start of s. */
  function Skip(s: string, k: CharClass): (r: string)
    ensures |r| <= |s|
    decreases |s|
  {
    if |s| > 0 && InClass(s[0], k) then Skip(s[1..], k) else s
  }

  /** What is left is a suffix, and it does not start with a character of the class. */
  lemma {:induction false} SkipSuffix(s: string, k: CharClass)
    ensures EndsWith(s, Skip(s, k))
    ensures |Skip(s, k)| > 0 ==> !InClass(Skip(s, k)[0], k)
    decreases |s|
  {
    if |s| > 0 && InClass(s[0], k) {
      SkipSuffix(s[1..], k);
    }
  }

  /** The skipped characters are all of the class. */
  lemma {:induction false} SkipRun(s: string, k: CharClass)
    ensures forall i | 0 <= i < |s| - |Skip(s, k)| :: InClass(s[i], k)
    decreases |s|
  {
    if |s| > 0 && InClass(s[0], k) {
      SkipRun(s[1..], k);
      assert forall i | 1 <= i < |s| - |Skip(s, k)| :: s[i] == s[1..][i - 1];
    }
  }

  lemma EndsWithTrans(a: string, b: string, c: string)
    requires EndsWith(a, b) && EndsWith(b, c)
    ensures EndsWith(a, c)
  {
    assert a[|a| - |c|..] == b[|b| - |c|..];
  }

  /**
   * re.match of the parameter pattern `^[*-]*\s*(\w+)\s*--\s*(.*)` on one
   * line: the name and the description. No class of the pattern contains
   * the first character of the next one, so every greedy run is taken whole
   * and the match needs no backtracking.
   */
  function MatchParameter(line: string): Option<(string, string)> {
    var atName := Skip(Skip(line, Bullet), Blank);
    var afterName := Skip(atName, Word);
    var name := atName[..|atName| - |afterName|];
    var atDashes := Skip(afterName, Blank);
    if |name| == 0 || !StartsWith(atDashes, "--") then None
    else Some((name, Skip(atDashes[2..], Blank)))
  }

  /** A matched name is a non-empty run of word characters. */
  lemma MatchedName(line: string)
    requires MatchParameter(line).Some?
    ensures var name := MatchParameter(line).value.0;
      |name| > 0 && forall i | 0 <= i < |name| :: IsWordChar(name[i])
  {
    var atName := Skip(Skip(line, Bullet), Blank);
    var name := MatchParameter(line).value.0;
    SkipRun(atName, Word);
    assert forall i | 0 <= i < |name| :: name[i] == atName[i];
  }

  /** A matched description is the end of the line, from its first non-space character after "--". */
  lemma MatchedText(line: string)
    requires MatchParameter(line).Some?
    ensures var text := MatchParameter(line).value.1;
      EndsWith(line, text) && (|text| == 0 || !IsSpace(text[0]))
  {
    var s1 := Skip(line, Bullet);
    var atName := Skip(s1, Blank);
    var afterName := Skip(atName, Word);
    var atDashes := Skip(afterName, Blank);
    var rest := atDashes[2..];
    var text := Skip(rest, Blank);
    SkipSuffix(line, Bullet);
    SkipSuffix(s1, Blank);
    SkipSuffix(atName, Word);
    SkipSuffix(afterName, Blank);
    SkipSuffix(rest, Blank);
    EndsWithTrans(line, s1, atName);
    EndsWithTrans(line, atName, afterName);
    EndsWithTrans(line, afterName, atDashes);
    assert EndsWith(atDashes, rest);
    EndsWithTrans(line, atDashes, rest);
    EndsWithTrans(line, rest, text);
  }

  /** A run over all of `part` leaves `rest`. */
  lemma {:induction false} SkipPart(part: string, rest: string, k: CharClass)
    requires forall m | 0 <= m < |part| :: InClass(part[m], k)
    requires |rest| == 0 || !InClass(rest[0], k)
    ensures Skip(part + rest, k) == rest
    decreases |part|
  {
    if |part| > 0 {
      assert (part + rest)[1..] == part[1..] + rest;
      SkipPart(part[1..], rest, k);
    } else {
      assert part + rest == rest;
    }
  }

  /** A documented parameter line reads back as its name and its description. */
  lemma ParameterLineRoundTrip(bullets: string, spaces: string, name: string, text: string)
    requires forall i | 0 <= i < |bullets| :: InClass(bullets[i], Bullet)
    requires forall i | 0 <= i < |spaces| :: IsSpace(spaces[i])
    requires |name| > 0 && forall i | 0 <= i < |name| :: IsWordChar(name[i])
    requires |text| == 0 || !IsSpace(text[0])
    ensures MatchParameter(bullets + spaces + name + " -- " + text) == Some((name, text))
  {
    var tail3 := " -- " + text;
    var tail2 := name + tail3;
    var tail1 := spaces + tail2;
    assert bullets + spaces + name + " -- " + text == bullets + tail1;
    assert tail1[0] == if |spaces| > 0 then spaces[0] else name[0];
    SkipPart(bullets, tail1, Bullet);
    SkipPart(spaces, tail2, Blank);
    SkipPart(name, tail3, Word);
    assert tail2[..|tail2| - |tail3|] == name;
    SkipPart(" ", "-- " + text, Blank);
    assert tail3 == " " + ("-- " + text);
    assert ("-- " + text)[2..] == " " + text;
    SkipPart(" ", text, Blank);
  }

  /** A line whose first character after the bullets and spaces is not a word character documents nothing. */
  lemma NoNameNoParameter(line: string)
    requires var atName := Skip(Skip(line, Bullet), Blank); |atName| == 0 || !IsWordChar(atName[0])
    ensures MatchParameter(line).None?
  {
  }

  /** parse_command_docstring's result: the brief and the documented parameters. */
  datatype CommandDocstring = CommandDocstring(brief: string, parameters: map<string, string>)

  /** The stripped lines of the stripped docstring. */
  function DocLines(doc: string): (r: seq<string>)
    ensures |r| == |SplitLines(Strip(doc))|
  {
    var lines := SplitLines(Strip(doc));
    seq(|lines|, i requires 0 <= i < |lines| => Strip(lines[i]))
  }

  /** The parameters documented by the lines, in the order the dictionary receives them. */
  function Parameters(lines: seq<string>): map<string, string> {
    ToMap(FilterMap(lines, MatchParameter))
  }

  /** Python's message for lines[0] on an empty tuple. */
  const IndexErrorMessage := "tuple index out of range"

  /**
   * parse_command_docstring: the first line is the brief; every line that
   * matches the parameter pattern, the brief included, enters the parameters,
   * and a later line overrides an earlier one for the same name. A blank
   * docstring has no lines, so taking the first one raises IndexError; any
   * other docstring has a brief that is not empty.
   */
  function DocstringOf(doc: string): (r: Result<CommandDocstring>)
    ensures r.Err? <==> Strip(doc) == ""
    ensures r.Err? ==> r.error == IndexErrorMessage
    ensures r.Ok? ==> |r.value.brief| > 0
  {
    var lines := DocLines(doc);
    if |lines| == 0 then Err(IndexErrorMessage)
    else
      FirstLineNotBlank(Strip(doc));
      Ok(CommandDocstring(lines[0], Parameters(lines)))
  }

  /** Stripped text that is not empty has a first line that is not blank. */
  lemma FirstLineNotBlank(s: string)
    requires |s| > 0 && !IsSpace(s[0])
    ensures |SplitLines(s)| > 0 && |Strip(SplitLines(s)[0])| > 0
  {
    var n := LineEnd(s, 0);
    assert n > 0;
    assert SplitLines(s)[0] == s[..n];
    StripNonEmpty(s[..n]);
  }

  /** The docstring parser's loop over the lines. */
  method ParseCommandDocstring(doc: string) returns (r: Result<CommandDocstring>)
    ensures r == DocstringOf(doc)
  {
    var lines := DocLines(doc);
    if |lines| == 0 {
      return Err(IndexErrorMessage);
    }
    var brief := lines[0];
    var parameters: map<string, string> := map[];
    for i := 0 to |lines|
      invariant parameters == Parameters(lines[..i])
    {
      ParametersSnoc(lines, i);
      match MatchParameter(lines[i])
      case Some((k, v)) =>
        parameters := parameters[k := v];
      case None =>
    }
    TakeWhole(lines, |lines|);
    return Ok(CommandDocstring(brief, parameters));
  }

  /** One more line: a matching line enters its name and description, any other line changes nothing. */
  lemma ParametersSnoc(lines: seq<string>, i: nat)
    requires i < |lines|
    ensures Parameters(lines[..i + 1]) ==
      match MatchParameter(lines[i])
      case Some((k, v)) => Parameters(lines[..i])[k := v]
      case None => Parameters(lines[..i])
  {
    FilterMapAppend(lines[..i], [lines[i]], MatchParameter);
    assert lines[..i + 1] == lines[..i] + [lines[i]];
    assert [lines[i]][1..] == [];
    match MatchParameter(lines[i])
    case Some((k, v)) =>
      ToMapAppend(FilterMap(lines[..i], MatchParameter), (k, v));
    case None =>
      assert FilterMap(lines[..i + 1], MatchParameter) == FilterMap(lines[..i], MatchParameter);
  }

  /** The documented names are exactly the names on the lines that match the pattern. */
  lemma ParameterNames(lines: seq<string>, k: string)
    ensures k in Parameters(lines) <==> exists v :: (k, v) in FilterMap(lines, MatchParameter)
  {
    var pairs := FilterMap(lines, MatchParameter);
    ToMapKeys(pairs);
    if k in Parameters(lines) {
      var i :| 0 <= i < |pairs| && pairs[i].0 == k;
      assert (k, pairs[i].1) in pairs;
    }
  }

  /** A name documented twice keeps the description of its last line. */
  lemma LastDescriptionWins(lines: seq<string>, i: nat, name: string, text: string)
    requires i < |lines| && MatchParameter(lines[i]) == Some((name, text))
    requires forall j | i < j < |lines| :: MatchParameter(lines[j]).None? || MatchParameter(lines[j]).value.0 != name
    ensures name in Parameters(lines) && Parameters(lines)[name] == text
  {
    var front := FilterMap(lines[..i], MatchParameter);
    var back := FilterMap(lines[i + 1..], MatchParameter);
    FilterMapAround(lines, i, MatchParameter);
    var pairs := front + [(name, text)] + back;
    NoLaterName(lines[i + 1..], name);
    forall j | |front| < j < |pairs|
      ensures pairs[j].0 != name
    {
      assert pairs[j] == back[j - |front| - 1];
    }
    ToMapLastWins(pairs, |front|);
  }

  /** Lines that never document `name` give no pair for it. */
  lemma NoLaterName(rest: seq<string>, name: string)
    requires forall j | 0 <= j < |rest| :: MatchParameter(rest[j]).None? || MatchParameter(rest[j]).value.0 != name
    ensures forall p | p in FilterMap(rest, MatchParameter) :: p.0 != name
  {
    forall p | p in FilterMap(rest, MatchParameter)
      ensures p.0 != name
    {
      FilterMapMembership(rest, MatchParameter, p);
    }
  }

  /** The command name of a `cmd_` function: the rest of the name with "_" read as ":". */
  function CommandName(funcName: string): (r: Option<string>)
    ensures r.Some? <==> StartsWith(funcName, "cmd_")
    ensures r.Some? ==> '_' !in r.value && |r.value| == |funcName| - 4
  {
    if StartsWith(funcName, "cmd_") then
      var rest := funcName[4..];
      ReplaceCharLength(rest, '_', ":");
      Some(ReplaceChar(rest, '_', ":"))
    else None
  }

  /** A function name is recovered from its command name, since names hold no ":". */
  lemma CommandNameRoundTrip(rest: string)
    requires ':' !in rest
    ensures CommandName("cmd_" + rest) == Some(ReplaceChar(rest, '_', ":"))
    ensures ReplaceChar(CommandName("cmd_" + rest).value, ':', "_") == rest
  {
    assert ("cmd_" + rest)[4..] == rest;
    ReplaceBack(rest);
  }

  lemma {:induction false} ReplaceBack(s: string)
    requires ':' !in s
    ensures ReplaceChar(ReplaceChar(s, '_', ":"), ':', "_") == s
    decreases |s|
  {
    if |s| > 0 {
      var head := if s[0] == '_' then ":" else [s[0]];
      var tail := ReplaceChar(s[1..], '_', ":");
      assert ReplaceChar(s, '_', ":") == head + tail;
      ReplaceCharOne(s[0], '_', ":");
      ReplaceCharOne(head[0], ':', "_");
      assert head == [head[0]];
      ReplaceCharAppend(head, tail, ':', "_");
      ReplaceBack(s[1..]);
      assert s == [s[0]] + s[1..];
    }
  }

  /** The spec of one command: its name, its help text and its documented options. */
  datatype CommandSpec = CommandSpec(name: string, help: string, options: map<string, string>)

  /** Why a function cannot become a command; Python raises in each case. */
  datatype SpecError =
    | NoCommandPrefix                                   // re.match gives None; .group raises AttributeError
    | NoDocstring                                       // __doc__ is None; .strip raises AttributeError
    | EmptyDocstring                                    // lines[0] raises IndexError
    | MissingBrief(funcName: string)
    | MismatchedParams(funcName: string, params: set<string>)

  datatype SpecOutcome = Spec(spec: CommandSpec) | Failure(error: SpecError)

  /**
   * create_command_spec as written: the name first, then the docstring, then
   * the brief check, then the documented parameters against the function's
   * annotated parameters. The docstring parser raises on a blank docstring,
   * so the brief check can never fire.
   */
  function CreateCommandSpecAsWritten(funcName: string, doc: Option<string>, annotations: set<string>): (r: SpecOutcome)
    ensures r.Spec? ==> CommandName(funcName) == Some(r.spec.name)
  {
    match CommandName(funcName)
    case None => Failure(NoCommandPrefix)
    case Some(name) =>
      if doc.None? then Failure(NoDocstring)
      else
        match DocstringOf(doc.value)
        case Err(_) => Failure(EmptyDocstring)
        case Ok(d) =>
          if d.brief == "" then Failure(MissingBrief(funcName))
          else if d.parameters.Keys - annotations != {} then Failure(MismatchedParams(funcName, d.parameters.Keys - annotations))
          else Spec(CommandSpec(name, d.brief, d.parameters))
  }

  /** As written, a function without a brief never gets the missing-brief error. */
  lemma MissingBriefUnreachable(funcName: string, doc: Option<string>, annotations: set<string>)
    ensures !CreateCommandSpecAsWritten(funcName, doc, annotations).Failure?
         || !CreateCommandSpecAsWritten(funcName, doc, annotations).error.MissingBrief?
  {
  }

  /** A command function with an empty docstring raises IndexError instead. */
  lemma EmptyDocstringAsWritten(annotations: set<string>)
    ensures CreateCommandSpecAsWritten("cmd_build", Some(""), annotations) == Failure(EmptyDocstring)
  {
    assert StartsWith("cmd_build", "cmd_");
  }

  /**
   * create_command_spec as intended: a function whose docstring is missing
   * or blank is reported as having no brief description.
   */
  function CreateCommandSpec(funcName: string, doc: Option<string>, annotations: set<string>): (r: SpecOutcome)
    ensures r == Failure(NoCommandPrefix) <==> !StartsWith(funcName, "cmd_")
    ensures r == Failure(MissingBrief(funcName)) <==> StartsWith(funcName, "cmd_") && (doc.None? || Strip(doc.value) == "")
    ensures r.Failure? ==> r.error.NoCommandPrefix? || r.error.MissingBrief? || r.error.MismatchedParams?
    ensures r.Spec? ==> CommandName(funcName) == Some(r.spec.name) && |r.spec.help| > 0 && r.spec.options.Keys <= annotations
    ensures r.Spec? ==> DocstringOf(doc.value) == Ok(CommandDocstring(r.spec.help, r.spec.options))
    ensures r.Failure? && r.error.MismatchedParams? ==>
      r.error.params != {} && DocstringOf(doc.value).Ok? && r.error.params == DocstringOf(doc.value).value.parameters.Keys - annotations
  {
    match CommandName(funcName)
    case None => Failure(NoCommandPrefix)
    case Some(name) =>
      if doc.None? then Failure(MissingBrief(funcName))
      else
        match DocstringOf(doc.value)
        case Err(_) => Failure(MissingBrief(funcName))
        case Ok(d) =>
          var extra := d.parameters.Keys - annotations;
          if extra != {} then Failure(MismatchedParams(funcName, extra))
          else
            assert forall k | k in d.parameters :: k !in extra;
            Spec(CommandSpec(name, d.brief, d.parameters))
  }

  /** Where the intended version succeeds, it agrees with the code as written. */
  lemma CreateCommandSpecAgrees(funcName: string, doc: Option<string>, annotations: set<string>)
    requires CreateCommandSpec(funcName, doc, annotations).Spec?
    ensures CreateCommandSpecAsWritten(funcName, doc, annotations) == CreateCommandSpec(funcName, doc, annotations)
  {
  }
}
