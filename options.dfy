/**
 * script/internal/options.py: an option value remembers whether the user gave
 * it explicitly; the build options are a record of such values; and
 * format_option_value renders a value for display.
 */
module Options {
  import opened Wrappers
  import opened Arches
  import Utility
  import Text

  /**
   * Option: the stored value (None when Python holds None) and whether it was
   * given explicitly. Python shares Option objects by reference; here each one
   * is a value held in a field of Options.
   */
  datatype Opt<T> = Opt(value: Option<T>, explicit: bool) {

    predicate IsExplicit() {
      explicit
    }

    /** get_value(default): the stored value, or the default exactly when nothing is stored. */
    function GetValue(default: T): T {
      if value.None? then default else value.value
    }

    /** set_value: replaces the stored value and keeps the explicit flag. */
    function SetValue(v: Option<T>): (r: Opt<T>) {
      Opt(v, explicit)
    }
  }

  /** get_value after set_value reads back what was set, and the explicit flag is untouched. */
  lemma GetAfterSet<T>(o: Opt<T>, v: Option<T>, default: T)
    ensures o.SetValue(v).GetValue(default) == (if v.Some? then v.value else default)
    ensures o.SetValue(v).IsExplicit() == o.IsExplicit()
    ensures v.Some? ==> o.SetValue(v).GetValue(default) == v.value
  {
  }

  /** Python truthiness of a boolean option's get_value(): only a stored True counts. */
  predicate Truthy(o: Opt<bool>) {
    o.value == Some(true)
  }

  /**
   * The lint mode: strict, lax or false, plus the bare True that
   * pre_process_options stores into check_lint (it is not a LintMode).
   */
  datatype LintSetting = LintStrict | LintLax | LintFalse | LintTrue

  /**
   * The options that pre_process_options reads or writes. clean, build_dir,
   * build_type, toolchain_prefix, show_options, reformat, toolchain,
   * load_toolchain and mswebview2_version are never touched there and are
   * not part of this record.
   */
  datatype Settings = Settings(
    check: Opt<bool>, checkLint: Opt<LintSetting>, checkStyle: Opt<bool>,
    build: Opt<bool>, buildLibrary: Opt<bool>, buildExamples: Opt<bool>, buildTests: Opt<bool>,
    test: Opt<bool>, targetArch: Opt<Arch>,
    ar: Opt<string>, cc: Opt<string>, cxx: Opt<string>, ld: Opt<string>,
    goBuild: Opt<bool>, goBuildExamples: Opt<bool>, goTest: Opt<bool>, fetchDeps: Opt<bool>)

  /** The Options object, one field per option; pre_process_options updates it in place. */
  class Options {
    var check: Opt<bool>
    var checkLint: Opt<LintSetting>
    var checkStyle: Opt<bool>
    var build: Opt<bool>
    var buildLibrary: Opt<bool>
    var buildExamples: Opt<bool>
    var buildTests: Opt<bool>
    var test: Opt<bool>
    var targetArch: Opt<Arch>
    var ar: Opt<string>
    var cc: Opt<string>
    var cxx: Opt<string>
    var ld: Opt<string>
    var goBuild: Opt<bool>
    var goBuildExamples: Opt<bool>
    var goTest: Opt<bool>
    var fetchDeps: Opt<bool>

    constructor (s: Settings)
      ensures Snapshot() == s
    {
      check, checkLint, checkStyle := s.check, s.checkLint, s.checkStyle;
      build, buildLibrary, buildExamples, buildTests := s.build, s.buildLibrary, s.buildExamples, s.buildTests;
      test, targetArch := s.test, s.targetArch;
      ar, cc, cxx, ld := s.ar, s.cc, s.cxx, s.ld;
      goBuild, goBuildExamples, goTest, fetchDeps := s.goBuild, s.goBuildExamples, s.goTest, s.fetchDeps;
    }

    /** The current values of all fields. */
    function Snapshot(): Settings
      reads this
    {
      Settings(check, checkLint, checkStyle, build, buildLibrary, buildExamples, buildTests,
               test, targetArch, ar, cc, cxx, ld, goBuild, goBuildExamples, goTest, fetchDeps)
    }
  }

  /** A displayable option value: None, a bool, or anything else already rendered by str(). */
  datatype Value = NoneValue | BoolValue(b: bool) | TextValue(text: string)

  /** format_option_value: "" for None, "true"/"false" for a bool, str(value) otherwise. */
  function FormatOptionValue(v: Value): (r: string)
    ensures v.NoneValue? <==> r == "" && !v.TextValue?
    ensures v.TextValue? ==> r == v.text
  {
    match v
    case NoneValue => ""
    case BoolValue(b) => if b then "true" else "false"
    case TextValue(text) => text
  }

  /** A formatted bool reads back as the same bool through bool_to_str. */
  lemma FormattedBoolRoundTrip(b: bool)
    ensures Utility.BoolToStr(FormatOptionValue(BoolValue(b))) == Ok(b)
  {
    assert Text.Lower("true") == "true";
    assert Text.Lower("false") == "false";
  }
}
