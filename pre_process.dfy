/**
 * pre_process_options of script/build.py: before any task runs, option
 * implications are applied in a fixed order, the compiler pair is checked,
 * a native target architecture is resolved and the binaries default to the
 * environment. The environment is a map and the host machine name a
 * parameter. The steps are stated over the outcome of get_host_arch, so that
 * they can be read both with the code as written and with its correction.
 */
module PreProcess {
  import opened Wrappers
  import opened Arches
  import opened Options
  import Utility

  const CompilerPairError := "Either both of cc/cxx options or neither must be specified"

  /** Sets a non-explicit boolean option to True; an explicit one is left as given. */
  function Enable(o: Opt<bool>): (r: Opt<bool>)
    ensures Raised(o, r) && (r.explicit || Truthy(r))
  {
    if o.IsExplicit() then o else o.SetValue(Some(true))
  }

  /** Enable when the condition holds. */
  function EnableIf(condition: bool, o: Opt<bool>): (r: Opt<bool>)
    ensures Raised(o, r)
    ensures condition ==> r.explicit || Truthy(r)
    ensures Truthy(o) ==> Truthy(r)
  {
    if condition then Enable(o) else o
  }

  /** `b` equals `a`, or `a` was not explicit and `b` holds True: a step may only switch an option on. */
  predicate Raised(a: Opt<bool>, b: Opt<bool>) {
    b == a || (!a.explicit && b == Opt(Some(true), false))
  }

  /** os.environ.get(name, None). */
  function Lookup(env: map<string, string>, name: string): (r: Option<string>)
    ensures r.Some? <==> name in env
    ensures r.Some? ==> r.value == env[name]
  {
    if name in env then Some(env[name]) else None
  }

  /** A non-explicit binary option takes the environment's value, or None. */
  function FromEnvironment(o: Opt<string>, env: map<string, string>, name: string): Opt<string> {
    if o.IsExplicit() then o else o.SetValue(Lookup(env, name))
  }

  /** "Enable all checks": check switches on check_lint and check_style. */
  function EnableChecks(s: Settings): (r: Settings)
    ensures r.(checkLint := s.checkLint, checkStyle := s.checkStyle) == s
  {
    if Truthy(s.check) then
      s.(checkLint := if s.checkLint.IsExplicit() then s.checkLint else s.checkLint.SetValue(Some(LintTrue)),
         checkStyle := Enable(s.checkStyle))
    else s
  }

  /** Exactly one of cc and cxx has a value. */
  predicate CompilerMismatch(s: Settings) {
    s.cc.value.None? != s.cxx.value.None?
  }

  /**
   * A native target architecture becomes the host's; when get_host_arch
   * raised (`host` is its outcome), its exception propagates.
   */
  function ResolveArch(s: Settings, host: Result<Arch>): (r: Result<Settings>)
    ensures r.Err? <==> s.targetArch.value == Some(Native) && host.Err?
    ensures r.Err? ==> r.error == host.error
    ensures r.Ok? && s.targetArch.value == Some(Native) ==> r.value.targetArch.value == Some(host.value)
    ensures r.Ok? ==> r.value.(targetArch := s.targetArch) == s
  {
    if s.targetArch.value == Some(Native) then
      var arch :- host;
      Ok(s.(targetArch := s.targetArch.SetValue(Some(arch))))
    else Ok(s)
  }

  /** The Go rules, in order: go_build_examples and go_test imply go_build, which implies fetch_deps. */
  function GoRules(s: Settings): (r: Settings)
    ensures r.(goBuild := s.goBuild, fetchDeps := s.fetchDeps) == s
  {
    var s1 := s.(goBuild := EnableIf(Truthy(s.goBuildExamples), s.goBuild));
    var s2 := s1.(goBuild := EnableIf(Truthy(s1.goTest), s1.goBuild));
    s2.(fetchDeps := EnableIf(Truthy(s2.goBuild), s2.fetchDeps))
  }

  /** "Enable building everything": build implies library, examples and tests. */
  function BuildEverything(s: Settings): (r: Settings)
    ensures r.(buildLibrary := s.buildLibrary, buildExamples := s.buildExamples, buildTests := s.buildTests) == s
  {
    var b := Truthy(s.build);
    s.(buildLibrary := EnableIf(b, s.buildLibrary),
       buildExamples := EnableIf(b, s.buildExamples),
       buildTests := EnableIf(b, s.buildTests))
  }

  /**
   * The prerequisite rules, in order: test implies tests; examples and tests
   * imply library; library implies fetch_deps.
   */
  function Prerequisites(s: Settings): (r: Settings)
    ensures r.(buildLibrary := s.buildLibrary, buildTests := s.buildTests, fetchDeps := s.fetchDeps) == s
  {
    var s1 := s.(buildTests := EnableIf(Truthy(s.test), s.buildTests));
    var s2 := s1.(buildLibrary := EnableIf(Truthy(s1.buildExamples), s1.buildLibrary));
    var s3 := s2.(buildLibrary := EnableIf(Truthy(s2.buildTests), s2.buildLibrary));
    s3.(fetchDeps := EnableIf(Truthy(s3.buildLibrary), s3.fetchDeps))
  }

  /** AR, CC, CXX and LD from the environment for the binaries not given explicitly. */
  function EnvironmentDefaults(s: Settings, env: map<string, string>): (r: Settings)
    ensures r.(ar := s.ar, cc := s.cc, cxx := s.cxx, ld := s.ld) == s
  {
    s.(ar := FromEnvironment(s.ar, env, "AR"),
       cc := FromEnvironment(s.cc, env, "CC"),
       cxx := FromEnvironment(s.cxx, env, "CXX"),
       ld := FromEnvironment(s.ld, env, "LD"))
  }

  /** The options after pre-processing and the message of the exception raised, if any. */
  datatype Outcome = Outcome(settings: Settings, error: Option<string>)

  /**
   * The whole of pre_process_options. An exception leaves the options as far
   * as they were updated when it was raised.
   */
  function PreProcessSpec(s: Settings, env: map<string, string>, host: Result<Arch>): Outcome {
    var s1 := EnableChecks(s);
    if CompilerMismatch(s1) then Outcome(s1, Some(CompilerPairError))
    else
      match ResolveArch(s1, host)
      case Err(e) => Outcome(s1, Some(e))
      case Ok(s2) => Outcome(EnvironmentDefaults(Prerequisites(BuildEverything(GoRules(s2))), env), None)
  }

  /**
   * pre_process_options, updating the Options object in place; the host
   * architecture comes from get_host_arch as written.
   */
  method PreProcessOptions(options: Options, env: map<string, string>, machine: string) returns (error: Option<string>)
    modifies options
    ensures options.Snapshot() == PreProcessSpec(old(options.Snapshot()), env, Utility.HostArchAsWritten(machine)).settings
    ensures error == PreProcessSpec(old(options.Snapshot()), env, Utility.HostArchAsWritten(machine)).error
  {
    ApplyChecks(options);
    if options.cc.value.None? != options.cxx.value.None? {
      return Some(CompilerPairError);
    }
    if options.targetArch.value == Some(Native) {
      var host := Utility.HostArchAsWritten(machine);
      if host.Err? {
        return Some(host.error);
      }
      options.targetArch := options.targetArch.SetValue(Some(host.value));
    }
    ApplyGoRules(options);
    ApplyBuildEverything(options);
    ApplyPrerequisites(options);
    ApplyEnvironment(options, env);
    error := None;
  }

  method ApplyChecks(options: Options)
    modifies options
    ensures options.Snapshot() == EnableChecks(old(options.Snapshot()))
  {
    if Truthy(options.check) {
      if !options.checkLint.IsExplicit() {
        options.checkLint := options.checkLint.SetValue(Some(LintTrue));
      }
      if !options.checkStyle.IsExplicit() {
        options.checkStyle := options.checkStyle.SetValue(Some(true));
      }
    }
  }

  method ApplyGoRules(options: Options)
    modifies options
    ensures options.Snapshot() == GoRules(old(options.Snapshot()))
  {
    if Truthy(options.goBuildExamples) && !options.goBuild.IsExplicit() {
      options.goBuild := options.goBuild.SetValue(Some(true));
    }
    if Truthy(options.goTest) && !options.goBuild.IsExplicit() {
      options.goBuild := options.goBuild.SetValue(Some(true));
    }
    if Truthy(options.goBuild) && !options.fetchDeps.IsExplicit() {
      options.fetchDeps := options.fetchDeps.SetValue(Some(true));
    }
  }

  method ApplyBuildEverything(options: Options)
    modifies options
    ensures options.Snapshot() == BuildEverything(old(options.Snapshot()))
  {
    if Truthy(options.build) {
      if !options.buildLibrary.IsExplicit() {
        options.buildLibrary := options.buildLibrary.SetValue(Some(true));
      }
      if !options.buildExamples.IsExplicit() {
        options.buildExamples := options.buildExamples.SetValue(Some(true));
      }
      if !options.buildTests.IsExplicit() {
        options.buildTests := options.buildTests.SetValue(Some(true));
      }
    }
  }

  method ApplyPrerequisites(options: Options)
    modifies options
    ensures options.Snapshot() == Prerequisites(old(options.Snapshot()))
  {
    if Truthy(options.test) && !options.buildTests.IsExplicit() {
      options.buildTests := options.buildTests.SetValue(Some(true));
    }
    if Truthy(options.buildExamples) && !options.buildLibrary.IsExplicit() {
      options.buildLibrary := options.buildLibrary.SetValue(Some(true));
    }
    if Truthy(options.buildTests) && !options.buildLibrary.IsExplicit() {
      options.buildLibrary := options.buildLibrary.SetValue(Some(true));
    }
    if Truthy(options.buildLibrary) && !options.fetchDeps.IsExplicit() {
      options.fetchDeps := options.fetchDeps.SetValue(Some(true));
    }
  }

  method ApplyEnvironment(options: Options, env: map<string, string>)
    modifies options
    ensures options.Snapshot() == EnvironmentDefaults(old(options.Snapshot()), env)
  {
    if !options.ar.IsExplicit() {
      options.ar := options.ar.SetValue(Lookup(env, "AR"));
    }
    if !options.cc.IsExplicit() {
      options.cc := options.cc.SetValue(Lookup(env, "CC"));
    }
    if !options.cxx.IsExplicit() {
      options.cxx := options.cxx.SetValue(Lookup(env, "CXX"));
    }
    if !options.ld.IsExplicit() {
      options.ld := options.ld.SetValue(Lookup(env, "LD"));
    }
  }

  /** Every option implied by another one holds, unless it was given explicitly. */
  predicate Closed(s: Settings) {
    && (Truthy(s.check) ==> (s.checkLint.explicit || s.checkLint.value == Some(LintTrue)))
    && (Truthy(s.check) ==> (s.checkStyle.explicit || Truthy(s.checkStyle)))
    && (Truthy(s.goBuildExamples) ==> (s.goBuild.explicit || Truthy(s.goBuild)))
    && (Truthy(s.goTest) ==> (s.goBuild.explicit || Truthy(s.goBuild)))
    && (Truthy(s.goBuild) ==> (s.fetchDeps.explicit || Truthy(s.fetchDeps)))
    && (Truthy(s.build) ==> (s.buildLibrary.explicit || Truthy(s.buildLibrary)))
    && (Truthy(s.build) ==> (s.buildExamples.explicit || Truthy(s.buildExamples)))
    && (Truthy(s.build) ==> (s.buildTests.explicit || Truthy(s.buildTests)))
    && (Truthy(s.test) ==> (s.buildTests.explicit || Truthy(s.buildTests)))
    && (Truthy(s.buildExamples) ==> (s.buildLibrary.explicit || Truthy(s.buildLibrary)))
    && (Truthy(s.buildTests) ==> (s.buildLibrary.explicit || Truthy(s.buildLibrary)))
    && (Truthy(s.buildLibrary) ==> (s.fetchDeps.explicit || Truthy(s.fetchDeps)))
  }

  /**
   * Pre-processing fails exactly when one of cc/cxx is set without the other
   * (before the environment is consulted), or when a native target meets an
   * unsupported host; the compiler check comes first.
   */
  lemma PreProcessErrors(s: Settings, env: map<string, string>, host: Result<Arch>)
    ensures var r := PreProcessSpec(s, env, host);
      && (r.error.Some? <==> CompilerMismatch(s) || (s.targetArch.value == Some(Native) && host.Err?))
      && (CompilerMismatch(s) ==> r.error == Some(CompilerPairError))
      && (!CompilerMismatch(s) && r.error.Some? ==> r.error == Some(host.error))
  {
  }

  /** On success every implication holds in the result, except where the implied option was explicit. */
  lemma PreProcessCloses(s: Settings, env: map<string, string>, host: Result<Arch>)
    ensures var r := PreProcessSpec(s, env, host);
      r.error.None? ==> Closed(r.settings)
  {
  }

  /**
   * Pre-processing never clears a boolean option and never touches an
   * explicit one: each is kept or, when not explicit, switched to True.
   */
  lemma PreProcessOnlyEnables(s: Settings, env: map<string, string>, host: Result<Arch>)
    ensures var t := PreProcessSpec(s, env, host).settings;
      && Raised(s.checkStyle, t.checkStyle)
      && Raised(s.build, t.build) && Raised(s.buildLibrary, t.buildLibrary)
      && Raised(s.buildExamples, t.buildExamples) && Raised(s.buildTests, t.buildTests)
      && Raised(s.goBuild, t.goBuild) && Raised(s.fetchDeps, t.fetchDeps)
      && t.check == s.check && t.test == s.test && t.goTest == s.goTest && t.goBuildExamples == s.goBuildExamples
  {
  }

  /** The explicit flags of the non-boolean options never change. */
  lemma PreProcessKeepsFlags(s: Settings, env: map<string, string>, host: Result<Arch>)
    ensures var t := PreProcessSpec(s, env, host).settings;
      && t.checkLint.explicit == s.checkLint.explicit && t.targetArch.explicit == s.targetArch.explicit
      && t.ar.explicit == s.ar.explicit && t.cc.explicit == s.cc.explicit
      && t.cxx.explicit == s.cxx.explicit && t.ld.explicit == s.ld.explicit
  {
  }

  /** An explicit lint setting or binary keeps its value. */
  lemma PreProcessKeepsExplicit(s: Settings, env: map<string, string>, host: Result<Arch>)
    ensures var t := PreProcessSpec(s, env, host).settings;
      && (s.checkLint.explicit ==> t.checkLint == s.checkLint)
      && (s.ar.explicit ==> t.ar == s.ar) && (s.cc.explicit ==> t.cc == s.cc)
      && (s.cxx.explicit ==> t.cxx == s.cxx) && (s.ld.explicit ==> t.ld == s.ld)
  {
  }

  /** A native target is replaced by the host architecture, explicit or not; any other target stays. */
  lemma PreProcessTargetArch(s: Settings, env: map<string, string>, host: Result<Arch>)
    ensures var r := PreProcessSpec(s, env, host);
      && (r.error.None? && s.targetArch.value == Some(Native) ==>
            host.Ok? && r.settings.targetArch == Opt(Some(host.value), s.targetArch.explicit))
      && (s.targetArch.value != Some(Native) ==> r.settings.targetArch == s.targetArch)
  {
  }

  /** On success every binary that was not given explicitly holds the environment's value, or None. */
  lemma PreProcessEnvironment(s: Settings, env: map<string, string>, host: Result<Arch>)
    ensures var r := PreProcessSpec(s, env, host);
      r.error.None? ==>
        && (!s.ar.explicit ==> r.settings.ar.value == Lookup(env, "AR"))
        && (!s.cc.explicit ==> r.settings.cc.value == Lookup(env, "CC"))
        && (!s.cxx.explicit ==> r.settings.cxx.value == Lookup(env, "CXX"))
        && (!s.ld.explicit ==> r.settings.ld.value == Lookup(env, "LD"))
  {
  }

  /** Asking only to run the tests also builds the tests and the library and fetches the dependencies. */
  lemma TestCascades(s: Settings, env: map<string, string>, host: Result<Arch>)
    requires Truthy(s.test)
    requires !s.buildTests.explicit && !s.buildLibrary.explicit && !s.fetchDeps.explicit
    requires !CompilerMismatch(s) && s.targetArch.value != Some(Native)
    ensures var r := PreProcessSpec(s, env, host);
      r.error.None? && Truthy(r.settings.buildTests) && Truthy(r.settings.buildLibrary) && Truthy(r.settings.fetchDeps)
  {
    PreProcessCloses(s, env, host);
    PreProcessOnlyEnables(s, env, host);
  }

  /**
   * The cc/cxx check looks at the options before the environment defaults
   * are applied, so CC set in the environment without CXX passes the check
   * and leaves only cc set.
   */
  lemma CompilerCheckPrecedesEnvironment(s: Settings, env: map<string, string>, host: Result<Arch>)
    requires s.cc == Opt(None, false) && s.cxx == Opt(None, false)
    requires "CC" in env && "CXX" !in env
    requires s.targetArch.value != Some(Native)
    ensures var r := PreProcessSpec(s, env, host);
      r.error.None? && CompilerMismatch(r.settings)
  {
  }

  /**
   * With get_host_arch as written, a native target on a 32-bit x86 host
   * stops pre-processing with the unsupported-host error.
   */
  lemma X86HostStopsAsWritten(s: Settings, env: map<string, string>)
    requires !CompilerMismatch(s) && s.targetArch.value == Some(Native)
    ensures PreProcessSpec(s, env, Utility.HostArchAsWritten("x86")).error == Some("Unsupported host machine architecture.")
  {
    Utility.X86HostRejectedAsWritten();
  }

  /** With the corrected get_host_arch, the same settings resolve the target to x86. */
  lemma X86HostResolvesCorrected(s: Settings, env: map<string, string>)
    requires !CompilerMismatch(s) && s.targetArch.value == Some(Native)
    ensures var r := PreProcessSpec(s, env, Utility.HostArch("x86"));
      r.error.None? && r.settings.targetArch.value == Some(X86)
  {
    Utility.HostArchExtendsAsWritten("x86");
  }
}
