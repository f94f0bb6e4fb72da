/**
 * Toolchain detection (script/internal/toolchain/toolchain.py): binary
 * overrides, the ordered list of name hints, and the compiler family read
 * from an executable's name or from its predefined macros. Executable lookup
 * and the preprocessor run are parameters: `find` maps a program name to its
 * resolved path, `preprocess` maps an argument vector to the text the
 * program prints.
 */
module ToolchainDetect {
  import opened Wrappers
  import opened Platform
  import opened Arches
  import opened Text
  import Paths
  import opened ToolchainCommon

  /** The toolchain class detect_toolchain instantiates for a detected id. */
  datatype ToolchainClass = ClangLikeClass | MsvcClass

  /** The archiver, C compiler, C++ compiler and linker, in that order. */
  datatype Chain = Chain(ar: string, cc: string, cxx: string, ld: string)

  /** A detected toolchain: its id, the class built for it, the architecture and the four binaries. */
  datatype Detected = Detected(id: ToolchainId, kind: ToolchainClass, arch: Arch, binaries: Chain)

  /** toolchain_types: GCC and CLANG both construct ClangLikeToolchain, MSVC constructs MsvcToolchain. */
  function ClassOf(id: ToolchainId): (c: ToolchainClass)
    ensures c == MsvcClass <==> id == Msvc
    ensures c == ClangLikeClass <==> id in {Clang, Gcc}
  {
    match id
    case Clang => ClangLikeClass
    case Gcc => ClangLikeClass
    case Msvc => MsvcClass
  }

  // ----- detect_compiler_from_exe -----

  /** The lower-cased file name, cut before the first ".exe" on Windows. */
  function ExeName(exePath: string, system: System): (name: string)
    ensures system != Windows ==> name == Lower(Paths.Basename(exePath))
    ensures system == Windows ==> name <= Lower(Paths.Basename(exePath)) && !Contains(name, ".exe")
  {
    var name := Lower(Paths.Basename(exePath));
    if system == Windows then
      var r := BeforeFirst(name, ".exe");
      BeforeFirstIsFree(name, ".exe");
      r
    else name
  }

  /** The text before the first occurrence of a pattern does not contain it. */
  lemma BeforeFirstIsFree(s: string, pat: string)
    requires |pat| > 0
    ensures !Contains(BeforeFirst(s, pat), pat)
  {
    var r := BeforeFirst(s, pat);
    var i := FindFrom(s, pat, 0);
    if exists k: nat | k <= |r| :: OccursAt(r, pat, k) {
      var k: nat :| k <= |r| && OccursAt(r, pat, k);
      assert r == s[..i];
      assert r[k..k + |pat|] == s[k..k + |pat|];
      assert OccursAt(s, pat, k);
      assert false;
    }
  }

  /** The preprocessor invocation that dumps the predefined macros: `exe -E -dM -x c <null device>`. */
  function PreprocessArgs(exePath: string, system: System): (args: seq<string>)
    ensures |args| == 6 && args[0] == exePath && args[1..5] == ["-E", "-dM", "-x", "c"]
    ensures args[5] == (if system == Windows then "nul" else "/dev/null")
  {
    [exePath, "-E", "-dM", "-x", "c", if system == Windows then "nul" else "/dev/null"]
  }

  /**
   * detect_compiler_from_exe: "cl" by name is MSVC; otherwise a `__clang__`
   * macro means Clang, checked before `__GNUC__` (which Clang defines too).
   */
  function CompilerFromExe(exePath: string, system: System, preprocess: seq<string> -> string): (r: Option<ToolchainId>)
    ensures r == Some(Msvc) <==> ExeName(exePath, system) == "cl"
    ensures ExeName(exePath, system) != "cl" ==>
              var out := preprocess(PreprocessArgs(exePath, system));
              (r == Some(Clang) <==> Contains(out, "__clang__ ")) &&
              (r == Some(Gcc) <==> !Contains(out, "__clang__ ") && Contains(out, "__GNUC__ ")) &&
              (r.None? <==> !Contains(out, "__clang__ ") && !Contains(out, "__GNUC__ "))
  {
    if ExeName(exePath, system) == "cl" then Some(Msvc)
    else
      var out := preprocess(PreprocessArgs(exePath, system));
      if Contains(out, "__clang__ ") then Some(Clang)
      else if Contains(out, "__GNUC__ ") then Some(Gcc)
      else None
  }

  // ----- detect_toolchain -----

  /** The name hints in the order they are tried: MSVC first on Windows, then GCC, then Clang. */
  function Hints(system: System): (hs: seq<Chain>)
    ensures system == Windows ==> hs == [Chain("lib", "cl", "cl", "link"), Chain("ar", "gcc", "g++", "ld"), Chain("ar", "clang", "clang++", "ld")]
    ensures system != Windows ==> hs == [Chain("ar", "gcc", "g++", "ld"), Chain("ar", "clang", "clang++", "ld")]
  {
    (if system == Windows then [Chain("lib", "cl", "cl", "link")] else [])
      + [Chain("ar", "gcc", "g++", "ld"), Chain("ar", "clang", "clang++", "ld")]
  }

  /** Every name of a chain with the toolchain prefix prepended. */
  function Prefixed(prefix: string, c: Chain): Chain {
    Chain(prefix + c.ar, prefix + c.cc, prefix + c.cxx, prefix + c.ld)
  }

  /** Looks up every binary of a chain; None unless all four resolve. */
  function Resolve(c: Chain, find: string -> Option<string>): (r: Option<Chain>)
    ensures r.Some? <==> find(c.ar).Some? && find(c.cc).Some? && find(c.cxx).Some? && find(c.ld).Some?
    ensures r.Some? ==> r.value == Chain(find(c.ar).value, find(c.cc).value, find(c.cxx).value, find(c.ld).value)
  {
    match (find(c.ar), find(c.cc), find(c.cxx), find(c.ld))
    case (Some(ar), Some(cc), Some(cxx), Some(ld)) => Some(Chain(ar, cc, cxx, ld))
    case _ => None
  }

  /**
   * A resolved chain whose C compiler is identified, as a detected toolchain.
   * `identify` is detect_compiler_from_exe on the host system (CompilerFromExe).
   */
  function Identify(arch: Arch, bins: Chain, identify: string -> Option<ToolchainId>): (r: Option<Detected>)
    ensures r.Some? <==> identify(bins.cc).Some?
    ensures r.Some? ==> r.value == Detected(identify(bins.cc).value, ClassOf(identify(bins.cc).value), arch, bins)
  {
    match identify(bins.cc)
    case Some(id) => Some(Detected(id, ClassOf(id), arch, bins))
    case None => None
  }

  /** The first hint (from index i on) that resolves completely and whose C compiler is identified. */
  function FromHints(hints: seq<Chain>, i: nat, prefix: string, arch: Arch,
                     find: string -> Option<string>, identify: string -> Option<ToolchainId>): (r: Option<Detected>)
    requires i <= |hints|
    decreases |hints| - i
  {
    if i == |hints| then None
    else
      var bins := Resolve(Prefixed(prefix, hints[i]), find);
      var d := if bins.Some? then Identify(arch, bins.value, identify) else None;
      if d.Some? then d else FromHints(hints, i + 1, prefix, arch, find, identify)
  }

  /** The message raised for a binary that cannot be found. */
  function NotFound(what: string, name: string): string {
    what + " not found: " + name
  }

  /** The override of one binary, prefixed and looked up; an unresolvable one raises with its prefixed name. */
  function LookupOverride(what: string, prefix: string, ov: Option<string>, find: string -> Option<string>): (r: Result<Option<string>>)
    ensures ov.None? ==> r == Ok(None)
    ensures ov.Some? && find(prefix + ov.value).None? ==> r == Err(NotFound(what, prefix + ov.value))
    ensures ov.Some? && find(prefix + ov.value).Some? ==> r == Ok(find(prefix + ov.value))
  {
    if ov.None? then Ok(None)
    else
      var found := find(prefix + ov.value);
      if found.None? then Err(NotFound(what, prefix + ov.value)) else Ok(found)
  }

  /** Each of the cc, cxx and ld overrides is absent exactly when the ar override is. */
  predicate OverridesConsistent(ar: Option<string>, cc: Option<string>, cxx: Option<string>, ld: Option<string>) {
    cc.None? == ar.None? && cxx.None? == ar.None? && ld.None? == ar.None?
  }

  /**
   * The four override lookups, in the order archiver, C compiler, C++
   * compiler, linker; the first one that cannot be found raises. Without
   * overrides nothing is looked up.
   */
  function OverrideChain(prefix: string, ar: Option<string>, cc: Option<string>, cxx: Option<string>, ld: Option<string>,
                         find: string -> Option<string>): (r: Result<Option<Chain>>)
    requires OverridesConsistent(ar, cc, cxx, ld)
    ensures ar.None? ==> r == Ok(None)
    ensures ar.Some? && find(prefix + ar.value).None? ==> r == Err(NotFound("Archiver", prefix + ar.value))
    ensures ar.Some? && find(prefix + ar.value).Some? && find(prefix + cc.value).None? ==>
              r == Err(NotFound("C compiler", prefix + cc.value))
    ensures ar.Some? && find(prefix + ar.value).Some? && find(prefix + cc.value).Some? && find(prefix + cxx.value).None? ==>
              r == Err(NotFound("C++ compiler", prefix + cxx.value))
    ensures (ar.Some? && find(prefix + ar.value).Some? && find(prefix + cc.value).Some? && find(prefix + cxx.value).Some? &&
             find(prefix + ld.value).None?) ==> r == Err(NotFound("Linker", prefix + ld.value))
    ensures ar.Some? && r.Ok? ==>
              r.value.Some? && r.value == Resolve(Prefixed(prefix, Chain(ar.value, cc.value, cxx.value, ld.value)), find)
  {
    var a :- LookupOverride("Archiver", prefix, ar, find);
    var c :- LookupOverride("C compiler", prefix, cc, find);
    var x :- LookupOverride("C++ compiler", prefix, cxx, find);
    var l :- LookupOverride("Linker", prefix, ld, find);
    if a.Some? then Ok(Some(Chain(a.value, c.value, x.value, l.value))) else Ok(None)
  }

  /** detect_toolchain as a value: the override check, the override lookups, then the hints. */
  function DetectSpec(arch: Arch, toolchainPrefix: Option<string>,
                      arOverride: Option<string>, ccOverride: Option<string>,
                      cxxOverride: Option<string>, ldOverride: Option<string>,
                      system: System, find: string -> Option<string>, identify: string -> Option<ToolchainId>): Result<Detected>
  {
    if !OverridesConsistent(arOverride, ccOverride, cxxOverride, ldOverride) then
      Err("Either all toolchain binary overrides or none must be specified")
    else
      var prefix := toolchainPrefix.GetOr("");
      var overrides :- OverrideChain(prefix, arOverride, ccOverride, cxxOverride, ldOverride, find);
      Choose(overrides, prefix, arch, system, find, identify)
  }

  /** The resolved overrides when their C compiler is identified, else the first hint that works. */
  function Choose(overrides: Option<Chain>, prefix: string, arch: Arch, system: System,
                  find: string -> Option<string>, identify: string -> Option<ToolchainId>): Result<Detected>
  {
    var fromOverrides := if overrides.Some? then Identify(arch, overrides.value, identify) else None;
    if fromOverrides.Some? then Ok(fromOverrides.value)
    else
      var fromHints := FromHints(Hints(system), 0, prefix, arch, find, identify);
      if fromHints.Some? then Ok(fromHints.value) else Err("Toolchain not found")
  }

  /** detect_compiler_from_exe on the given host, as the function the detection applies to a C compiler path. */
  function HostIdentify(system: System, preprocess: seq<string> -> string): string -> Option<ToolchainId> {
    exePath => CompilerFromExe(exePath, system, preprocess)
  }

  /** detect_toolchain: the overrides are checked and resolved in order, then the hints are tried in order. */
  method DetectToolchain(arch: Arch, toolchainPrefix: Option<string>,
                         arOverride: Option<string>, ccOverride: Option<string>,
                         cxxOverride: Option<string>, ldOverride: Option<string>,
                         system: System, find: string -> Option<string>, preprocess: seq<string> -> string)
    returns (r: Result<Detected>)
    ensures r == DetectSpec(arch, toolchainPrefix, arOverride, ccOverride, cxxOverride, ldOverride,
                            system, find, HostIdentify(system, preprocess))
  {
    var identify := HostIdentify(system, preprocess);
    if !OverridesConsistent(arOverride, ccOverride, cxxOverride, ldOverride) {
      return Err("Either all toolchain binary overrides or none must be specified");
    }
    var prefix := if toolchainPrefix.None? then "" else toolchainPrefix.value;
    var overrides := OverrideChain(prefix, arOverride, ccOverride, cxxOverride, ldOverride, find);
    if overrides.Err? {
      return Err(overrides.error);
    }
    assert prefix == toolchainPrefix.GetOr("");
    r := ChooseToolchain(overrides.value, prefix, arch, system, find, identify);
  }

  /** The end of detect_toolchain: the overrides if identified, otherwise the hints in order. */
  method ChooseToolchain(overrides: Option<Chain>, prefix: string, arch: Arch, system: System,
                         find: string -> Option<string>, identify: string -> Option<ToolchainId>) returns (r: Result<Detected>)
    ensures r == Choose(overrides, prefix, arch, system, find, identify)
  {
    if overrides.Some? {
      var d := Identify(arch, overrides.value, identify);
      if d.Some? {
        return Ok(d.value);
      }
    }
    var found := SearchHints(Hints(system), prefix, arch, find, identify);
    if found.Some? {
      return Ok(found.value);
    }
    return Err("Toolchain not found");
  }

  /** The loop over the hints of detect_toolchain, returning at the first hint that works. */
  method SearchHints(hints: seq<Chain>, prefix: string, arch: Arch, find: string -> Option<string>,
                     identify: string -> Option<ToolchainId>) returns (r: Option<Detected>)
    ensures r == FromHints(hints, 0, prefix, arch, find, identify)
  {
    for i := 0 to |hints|
      invariant FromHints(hints, 0, prefix, arch, find, identify) == FromHints(hints, i, prefix, arch, find, identify)
    {
      var bins := Resolve(Prefixed(prefix, hints[i]), find);
      if bins.Some? {
        var d := Identify(arch, bins.value, identify);
        if d.Some? {
          return d;
        }
      }
    }
    return None;
  }

  // ----- properties -----

  /** A hint resolves completely and its C compiler is identified. */
  predicate HintWorks(hint: Chain, prefix: string, arch: Arch,
                      find: string -> Option<string>, identify: string -> Option<ToolchainId>) {
    var bins := Resolve(Prefixed(prefix, hint), find);
    bins.Some? && Identify(arch, bins.value, identify).Some?
  }

  /** A hint that works, as the toolchain detected from it. */
  function FromHint(hint: Chain, prefix: string, arch: Arch, find: string -> Option<string>,
                    identify: string -> Option<ToolchainId>): (d: Detected)
    requires HintWorks(hint, prefix, arch, find, identify)
    ensures d.binaries == Resolve(Prefixed(prefix, hint), find).value
    ensures d.id == identify(d.binaries.cc).value && d.arch == arch
  {
    Identify(arch, Resolve(Prefixed(prefix, hint), find).value, identify).value
  }

  /**
   * The hint order: on Windows the MSVC names ("lib", "cl", "cl", "link")
   * come first; then the GCC names, then the Clang names. Elsewhere the
   * MSVC names are never tried.
   */
  lemma HintOrder(system: System, p: string, arch: Arch, find: string -> Option<string>, identify: string -> Option<ToolchainId>)
    ensures var r := FromHints(Hints(system), 0, p, arch, find, identify);
            var cl := Chain("lib", "cl", "cl", "link");
            var gcc := Chain("ar", "gcc", "g++", "ld");
            var clang := Chain("ar", "clang", "clang++", "ld");
            r == if system == Windows && HintWorks(cl, p, arch, find, identify) then Some(FromHint(cl, p, arch, find, identify))
                 else if HintWorks(gcc, p, arch, find, identify) then Some(FromHint(gcc, p, arch, find, identify))
                 else if HintWorks(clang, p, arch, find, identify) then Some(FromHint(clang, p, arch, find, identify))
                 else None
  {
    var hs := Hints(system);
    if system == Windows {
      FromHintsStep(hs, 0, p, arch, find, identify);
      LastTwoHints(hs, 1, p, arch, find, identify);
    } else {
      LastTwoHints(hs, 0, p, arch, find, identify);
    }
  }

  /** The hint at i is taken when it works; otherwise the search goes on with the next one. */
  lemma FromHintsStep(hints: seq<Chain>, i: nat, prefix: string, arch: Arch,
                      find: string -> Option<string>, identify: string -> Option<ToolchainId>)
    requires i < |hints|
    ensures FromHints(hints, i, prefix, arch, find, identify) ==
      if HintWorks(hints[i], prefix, arch, find, identify) then Some(FromHint(hints[i], prefix, arch, find, identify))
      else FromHints(hints, i + 1, prefix, arch, find, identify)
  {
  }

  lemma LastTwoHints(hints: seq<Chain>, k: nat, p: string, arch: Arch,
                     find: string -> Option<string>, identify: string -> Option<ToolchainId>)
    requires |hints| == k + 2
    ensures FromHints(hints, k, p, arch, find, identify) ==
      if HintWorks(hints[k], p, arch, find, identify) then Some(FromHint(hints[k], p, arch, find, identify))
      else if HintWorks(hints[k + 1], p, arch, find, identify) then Some(FromHint(hints[k + 1], p, arch, find, identify))
      else None
  {
    FromHintsStep(hints, k, p, arch, find, identify);
    FromHintsStep(hints, k + 1, p, arch, find, identify);
  }

  /** Without overrides the hints decide: the first one that works, or "Toolchain not found". */
  lemma DetectWithoutOverrides(arch: Arch, toolchainPrefix: Option<string>, system: System,
                               find: string -> Option<string>, identify: string -> Option<ToolchainId>)
    ensures var r := DetectSpec(arch, toolchainPrefix, None, None, None, None, system, find, identify);
            var h := FromHints(Hints(system), 0, toolchainPrefix.GetOr(""), arch, find, identify);
            (h.Some? ==> r == Ok(h.value)) && (h.None? ==> r == Err("Toolchain not found")) &&
            (r.Ok? ==> (r.value.kind == ClangLikeClass <==> r.value.id != Msvc))
  {
    var h := FromHints(Hints(system), 0, toolchainPrefix.GetOr(""), arch, find, identify);
    FromHintsKind(Hints(system), 0, toolchainPrefix.GetOr(""), arch, find, identify);
  }

  /** Every toolchain found through the hints has the class of its id. */
  lemma {:induction false} FromHintsKind(hints: seq<Chain>, i: nat, prefix: string, arch: Arch,
                                         find: string -> Option<string>, identify: string -> Option<ToolchainId>)
    requires i <= |hints|
    ensures var r := FromHints(hints, i, prefix, arch, find, identify);
            r.Some? ==> r.value.kind == ClassOf(r.value.id) && r.value.arch == arch
    decreases |hints| - i
  {
    if i < |hints| {
      FromHintsKind(hints, i + 1, prefix, arch, find, identify);
    }
  }

  /**
   * Complete overrides whose C compiler is identified win over every hint;
   * an override that cannot be found is reported with its prefixed name.
   */
  lemma OverridesFirst(arch: Arch, toolchainPrefix: Option<string>, ar: string, cc: string, cxx: string, ld: string,
                       system: System, find: string -> Option<string>, identify: string -> Option<ToolchainId>)
    ensures var r := DetectSpec(arch, toolchainPrefix, Some(ar), Some(cc), Some(cxx), Some(ld), system, find, identify);
            var p := toolchainPrefix.GetOr("");
            (HintWorks(Chain(ar, cc, cxx, ld), p, arch, find, identify) ==>
               r.Ok? && r.value.binaries == Resolve(Prefixed(p, Chain(ar, cc, cxx, ld)), find).value) &&
            (find(p + ar).None? ==> r == Err(NotFound("Archiver", p + ar))) &&
            (find(p + ar).Some? && find(p + cc).None? ==> r == Err(NotFound("C compiler", p + cc))) &&
            (find(p + ar).Some? && find(p + cc).Some? && find(p + cxx).None? ==> r == Err(NotFound("C++ compiler", p + cxx))) &&
            (find(p + ar).Some? && find(p + cc).Some? && find(p + cxx).Some? && find(p + ld).None? ==> r == Err(NotFound("Linker", p + ld)))
  {
    var p := toolchainPrefix.GetOr("");
    var overrides := OverrideChain(p, Some(ar), Some(cc), Some(cxx), Some(ld), find);
    if HintWorks(Chain(ar, cc, cxx, ld), p, arch, find, identify) {
      assert overrides == Ok(Resolve(Prefixed(p, Chain(ar, cc, cxx, ld)), find));
    }
  }
}
