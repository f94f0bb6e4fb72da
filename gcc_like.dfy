/**
 * GccLikeToolchain (script/internal/toolchain/gcc_like.py): the
 * architecture/machine tables, the target triplet, the executables, and the
 * compile and link parameters, which differ from the Clang-like ones in their
 * warning, optimization, platform, PIC, threading, runtime and rpath flags.
 * The archive parameters are built by the same code as the Clang-like
 * toolchain's (ClangLike.GetArchiveParams).
 *
 * Members this revision of Target lacks are inputs of the model: the warning
 * parameters, the GUI flag and the runtime link method are plain fields of
 * the target.
 */
module GccLike {
  import opened Wrappers
  import opened Paths
  import opened Platform
  import opened Arches
  import opened BuildDefs
  import opened Scoping
  import opened TargetTypes
  import opened ToolchainCommon
  import opened Targets
  import opened ToolchainFlags
  import ClangLike

  const MacosTargetVersion := "10.9"

  /** ARCH_TO_GCC_MACHINE_MAP: the machine names a GCC for the architecture reports; NATIVE is not a key. */
  function MachinesOfArch(arch: Arch): (r: Result<seq<string>>)
    ensures r.Err? <==> arch == Native
    ensures r.Ok? ==> |r.value| >= 1
  {
    match arch
    case Arm32 => Ok(["armv7"])
    case Arm64 => Ok(["aarch64"])
    case X64 => Ok(["x86_64"])
    case X86 => Ok(["i686", "x86_64"])
    case Native => Err("KeyError: " + arch.MemberName())
  }

  /** GCC_MACHINE_TO_ARCH_MAP: the architectures a machine name can build for. */
  function ArchesOfMachine(machine: string): (r: Result<seq<Arch>>)
    ensures r.Ok? <==> machine in {"armv7", "aarch64", "x86_64", "i686"}
    ensures r.Ok? ==> Native !in r.value
  {
    if machine == "armv7" then Ok([Arm32])
    else if machine == "aarch64" then Ok([Arm64])
    else if machine == "x86_64" then Ok([X64, X86])
    else if machine == "i686" then Ok([X86])
    else Err("KeyError: " + machine)
  }

  /** The two tables are inverse relations: an architecture lists a machine exactly when the machine lists it. */
  lemma MachineTablesAgree(arch: Arch, machine: string)
    ensures (MachinesOfArch(arch).Ok? && machine in MachinesOfArch(arch).value) <==>
            (ArchesOfMachine(machine).Ok? && arch in ArchesOfMachine(machine).value)
  {
  }

  /** The architecture part of a triplet for the host system, or the KeyError of its table. */
  function TripletArch(system: System, arch: Arch): Result<string> {
    match arch
    case Arm64 => Ok("arm64")
    case X64 => Ok("x86_64")
    case X86 => if system == Windows then Ok("i686") else Ok("i386")
    case _ => Err("KeyError: " + arch.MemberName())
  }

  /**
   * get_target_triplet: an explicit triplet wins; otherwise the host system
   * and the architecture pick "<arch>-linux", "<arch>-apple-macos10.9" (x86 is
   * refused there) or "<arch>-w64-windows-gnu"; any other system is refused.
   */
  function TargetTriplet(triplet: Option<string>, system: System, arch: Arch): (r: Result<string>)
    ensures triplet.Some? ==> r == Ok(triplet.value)
    ensures triplet.None? ==>
              (r.Ok? <==> (system == Linux && arch in {Arm64, X64, X86}) ||
                          (system == Darwin && arch in {Arm64, X64}) ||
                          (system == Windows && arch in {Arm64, X64, X86}))
    ensures triplet.None? && r.Ok? && system == Linux ==> Text.EndsWith(r.value, "-linux")
    ensures triplet.None? && r.Ok? && system == Darwin ==> Text.EndsWith(r.value, "-apple-macos10.9")
    ensures triplet.None? && r.Ok? && system == Windows ==> Text.EndsWith(r.value, "-w64-windows-gnu")
    ensures triplet.None? && (system.OtherSystem? || (system == Darwin && arch == X86)) ==>
              r == Err("Unsupported target system/architecture: " + system.Name() + "/" + arch.Value())
  {
    if triplet.Some? then Ok(triplet.value)
    else
      var unsupported := Err("Unsupported target system/architecture: " + system.Name() + "/" + arch.Value());
      match system
      case Linux =>
        var a :- TripletArch(system, arch);
        Ok(a + "-linux")
      case Darwin =>
        if arch == X86 then unsupported
        else
          var a :- TripletArch(system, arch);
          Ok(a + "-apple-macos" + MacosTargetVersion)
      case Windows =>
        var a :- TripletArch(system, arch);
        Ok(a + "-w64-windows-gnu")
      case OtherSystem(_) => unsupported
  }

  /** get_compile_exe: cxx for C++, cc for C; no language or another language raises. */
  function CompileExe(tc: Toolchain, language: Option<Language>): (r: Result<Option<string>>)
    ensures r.Ok? <==> language in {Some(C), Some(CXX)}
    ensures language == Some(C) ==> r == Ok(tc.binaries.cc)
    ensures language == Some(CXX) ==> r == Ok(tc.binaries.cxx)
    ensures language.None? ==> r == Err("No language specified")
  {
    if language.None? then Err("No language specified")
    else if language == Some(CXX) then Ok(tc.binaries.cxx)
    else if language == Some(C) then Ok(tc.binaries.cc)
    else Err("Invalid language")
  }

  /**
   * get_archive_exe: the configured archiver, or else "ar" (".exe" on
   * Windows) next to the C compiler; without a C compiler the fallback fails
   * (dirname of None).
   */
  function ArchiveExe(tc: Toolchain, system: System): (r: Result<string>)
    ensures tc.binaries.ar.Some? ==> r == Ok(tc.binaries.ar.value)
    ensures tc.binaries.ar.None? ==> (r.Ok? <==> tc.binaries.cc.Some?)
  {
    if tc.binaries.ar.Some? then Ok(tc.binaries.ar.value)
    else if tc.binaries.cc.None? then Err("TypeError: expected str, bytes or os.PathLike object, not NoneType")
    else Ok(Join(Dirname(tc.binaries.cc.value), "ar" + (if system == Windows then ".exe" else "")))
  }

  /** Without an explicit archiver, "ar" (or "ar.exe" on Windows) is looked up beside the C compiler. */
  lemma ArchiveExeBesideCompiler(tc: Toolchain, system: System)
    requires tc.binaries.ar.None? && tc.binaries.cc.Some?
    ensures var r := ArchiveExe(tc, system);
      r.Ok? && Basename(r.value) == (if system == Windows then "ar.exe" else "ar") &&
      Dirname(tc.binaries.cc.value) <= r.value
  {
    var name := "ar" + (if system == Windows then ".exe" else "");
    assert '/' !in name;
    BasenameOfJoin(Dirname(tc.binaries.cc.value), name);
    JoinParts(Dirname(tc.binaries.cc.value), name);
  }

  /** The optimization flags: "-Og -g" for Debug, "-O2" for Release, nothing without a build type. */
  function OptimizationFlags(b: Option<BuildType>): seq<string> {
    match b
    case Some(Debug) => ["-Og", "-g"]
    case Some(Release) => ["-O2"]
    case None => []
  }

  /** The target-platform flags: "-target <triplet>" for Clang, otherwise -m64/-m32 for X64/X86. */
  function PlatformFlags(tc: Toolchain, triplet: Option<string>, system: System): (r: Result<seq<string>>)
    ensures tc.id == Clang ==> (r.Ok? <==> TargetTriplet(triplet, system, tc.arch).Ok?)
    ensures tc.id == Clang && r.Ok? ==> r.value == ["-target", TargetTriplet(triplet, system, tc.arch).value]
    ensures tc.id != Clang ==> r.Ok? && r.value == (if tc.arch == X64 then ["-m64"] else if tc.arch == X86 then ["-m32"] else [])
  {
    if tc.id == Clang then
      var trip :- TargetTriplet(triplet, system, tc.arch);
      Ok(["-target", trip])
    else if tc.arch == X64 then Ok(["-m64"])
    else if tc.arch == X86 then Ok(["-m32"])
    else Ok([])
  }

  function ThreadFlags(t: Target): seq<string>
    reads t
  {
    if Internal in t.usesThreads then ["-pthread"] else []
  }

  /** The cflags after the platform flags: PIC, definitions, includes, pkg-config, threads. */
  function CompileTail(t: Target, pkgCflags: string): seq<string>
    reads t
  {
    var system := t.workspace.system;
    (if system != Windows && t.kind == SharedLibrary then ["-fPIC"] else []) +
    DefinitionFlags(t.DefinitionsOf(Internal)) +
    PrefixEach("-I", t.IncludeDirs(Internal)) +
    (if UsesPkgConfig(t, system) then PkgConfigFlags(pkgCflags) else []) +
    ThreadFlags(t)
  }

  /** The cflags of every source: warnings, optimization, standard, platform, then the tail. */
  function CompileFlags(tc: Toolchain, triplet: Option<string>, t: Target, pkgCflags: string): Result<seq<string>>
    reads t
  {
    var std :- StandardFlags(t.language, t.LanguageStandardOf(None));
    var platform :- PlatformFlags(tc, triplet, t.workspace.system);
    Ok(t.warningParams + OptimizationFlags(t.BuildTypeOf()) + std + platform + CompileTail(t, pkgCflags))
  }

  function CompileParamsSpec(tc: Toolchain, triplet: Option<string>, t: Target, pkgCflags: string): Result<seq<CompileParams>>
    reads t
  {
    var flags :- CompileFlags(tc, triplet, t, pkgCflags);
    Ok(ClangLike.CompileSteps(flags, t.ObjDir(), t.workspace.sourceDir, t.sources))
  }

  /** get_compile_params; pkgCflags is what `pkg-config --cflags` prints for the internal packages. */
  method GetCompileParams(tc: Toolchain, triplet: Option<string>, t: Target, pkgCflags: string)
    returns (r: Result<seq<CompileParams>>)
    ensures r == CompileParamsSpec(tc, triplet, t, pkgCflags)
  {
    var flags := GetCompileFlags(tc, triplet, t, pkgCflags);
    if flags.Err? {
      return Err(flags.error);
    }
    var result := ClangLike.CollectCompileSteps(flags.value, t.ObjDir(), t.workspace.sourceDir, t.sources);
    r := Ok(result);
  }

  /** The flag-building half of get_compile_params. */
  method GetCompileFlags(tc: Toolchain, triplet: Option<string>, t: Target, pkgCflags: string)
    returns (r: Result<seq<string>>)
    ensures r == CompileFlags(tc, triplet, t, pkgCflags)
  {
    var system := t.workspace.system;
    // Warnings
    var cflags := t.warningParams;
    // Optimization
    cflags := cflags + OptimizationFlags(t.BuildTypeOf());
    // Language standard
    var std := StandardFlags(t.language, t.LanguageStandardOf(None));
    if std.Err? {
      return Err(std.error);
    }
    cflags := cflags + std.value;
    // Target platform
    var platform := PlatformFlags(tc, triplet, system);
    if platform.Err? {
      return Err(platform.error);
    }
    cflags := cflags + platform.value;
    // PIC on Unix-like systems, definitions, includes, pkg-config, threads
    var pic: seq<string> := if system != Windows && t.kind == SharedLibrary then ["-fPIC"] else [];
    var definitions := DefinitionFlags(t.DefinitionsOf(Internal));
    var includes := PrefixEach("-I", t.IncludeDirs(Internal));
    var pkg: seq<string> := if UsesPkgConfig(t, system) then PkgConfigFlags(pkgCflags) else [];
    var threads: seq<string> := if Internal in t.usesThreads then ["-pthread"] else [];
    var tail := pic + definitions + includes + pkg + threads;
    assert tail == CompileTail(t, pkgCflags);
    cflags := cflags + tail;
    r := Ok(cflags);
  }

  /** When the GCC-like compile parameters can be built. */
  predicate CompileFlagsDefined(tc: Toolchain, triplet: Option<string>, t: Target)
    reads t
  {
    t.language.Some? &&
    (t.language.value in t.standards ==> t.language.value in {C, CXX}) &&
    (tc.id == Clang ==> TargetTriplet(triplet, t.workspace.system, tc.arch).Ok?)
  }

  /**
   * The compile parameters raise exactly without a language, for a standard
   * on a language other than C and C++, or for a Clang without a triplet for
   * the host. Otherwise every source gets the same flags, which begin with the
   * warning parameters and the optimization flags, carry -fPIC for a shared
   * library off Windows, and end with -pthread for a threaded target.
   */
  lemma CompileParamsFacts(tc: Toolchain, triplet: Option<string>, t: Target, pkgCflags: string)
    ensures var r := CompileParamsSpec(tc, triplet, t, pkgCflags);
            (r.Ok? <==> CompileFlagsDefined(tc, triplet, t)) &&
            (r.Ok? ==>
              var flags := CompileFlags(tc, triplet, t, pkgCflags).value;
              var w := t.warningParams;
              var opt := OptimizationFlags(t.BuildTypeOf());
              |r.value| == |t.sources| &&
              (forall i | 0 <= i < |t.sources| ::
                 r.value[i].cflags == flags && r.value[i].inputPath == t.sources[i]) &&
              flags[..|w|] == w &&
              flags[|w|..|w| + |opt|] == opt &&
              (t.BuildTypeOf() == Some(Debug) ==> opt == ["-Og", "-g"]) &&
              (t.workspace.system != Windows && t.kind == SharedLibrary ==> "-fPIC" in flags) &&
              (Internal in t.usesThreads ==> flags[|flags| - 1] == "-pthread") &&
              (tc.id == Clang ==> "-target" in flags))
  {
    var r := CompileParamsSpec(tc, triplet, t, pkgCflags);
    var f := CompileFlags(tc, triplet, t, pkgCflags);
    if f.Ok? {
      var flags := f.value;
      var w := t.warningParams;
      var opt := OptimizationFlags(t.BuildTypeOf());
      var std := StandardFlags(t.language, t.LanguageStandardOf(None)).value;
      var platform := PlatformFlags(tc, triplet, t.workspace.system).value;
      var pic: seq<string> := if t.workspace.system != Windows && t.kind == SharedLibrary then ["-fPIC"] else [];
      var head := w + opt + std + platform + pic;
      assert flags[..|head|] == head;
      assert flags[..|w|] == w;
      assert flags[|w|..|w| + |opt|] == opt;
      assert pic != [] ==> flags[|head| - 1] == "-fPIC";
      assert tc.id == Clang ==> flags[|w| + |opt| + |std|] == "-target";
    }
  }

  /**
   * One library of the link loop: a name gives -l<name>; an object-file
   * target adds its output; a library target is passed by its full path on
   * Windows and as -L<lib dir> -l<link name> elsewhere. A C target linking a
   * C++ static library also gets -lc++ (Darwin) or -lstdc++.
   */
  function LibContribution(system: System, language: Option<Language>, lib: LinkedLib): ClangLike.Contribution {
    match lib
    case ByName(n) => ClangLike.Contribution(["-l" + n], [])
    case ObjectFile(p) => ClangLike.Contribution([], [p])
    case Library(isStatic, libLanguage, libDir, linkName, path) =>
      var runtime := if isStatic && language == Some(C) && libLanguage == Some(CXX)
                     then [if system == Darwin then "-lc++" else "-lstdc++"] else [];
      if system == Windows then ClangLike.Contribution(runtime, [path])
      else ClangLike.Contribution(["-L" + libDir, "-l" + linkName] + runtime, [])
    case NotLinkable => ClangLike.Contribution([], [])
  }

  function LibContributions(system: System, language: Option<Language>, libs: seq<LinkedLib>): ClangLike.Contribution
    decreases |libs|
  {
    if |libs| == 0 then ClangLike.Contribution([], [])
    else
      var before := LibContributions(system, language, libs[..|libs| - 1]);
      var last := LibContribution(system, language, libs[|libs| - 1]);
      ClangLike.Contribution(before.flags + last.flags, before.inputs + last.inputs)
  }

  /** The link-library loop of get_link_params. */
  method CollectLibContributions(system: System, language: Option<Language>, views: seq<LinkedLib>)
    returns (flags: seq<string>, inputs: seq<string>)
    ensures flags == LibContributions(system, language, views).flags
    ensures inputs == LibContributions(system, language, views).inputs
  {
    flags, inputs := [], [];
    for i := 0 to |views|
      invariant flags == LibContributions(system, language, views[..i]).flags
      invariant inputs == LibContributions(system, language, views[..i]).inputs
    {
      assert views[..i + 1][..i] == views[..i];
      match views[i]
      case ByName(n) =>
        flags := flags + ["-l" + n];
      case ObjectFile(p) =>
        inputs := inputs + [p];
      case Library(isStatic, libLanguage, libDir, linkName, path) =>
        if system == Windows {
          inputs := inputs + [path];
        } else {
          flags := flags + ["-L" + libDir, "-l" + linkName];
        }
        if isStatic && language == Some(C) && libLanguage == Some(CXX) {
          flags := flags + [if system == Darwin then "-lc++" else "-lstdc++"];
        }
      case NotLinkable =>
    }
    assert views[..|views|] == views;
  }

  /** A Windows library target reaches the link by path and a C target's C++ archive brings its runtime. */
  lemma LibContributionCases(system: System, language: Option<Language>, lib: LinkedLib)
    ensures lib.Library? && system == Windows ==>
              LibContribution(system, language, lib).inputs == [lib.path] &&
              forall f | f in LibContribution(system, language, lib).flags :: f in {"-lc++", "-lstdc++"}
    ensures lib.Library? && system != Windows ==>
              LibContribution(system, language, lib).flags[..2] == ["-L" + lib.libDir, "-l" + lib.linkName] &&
              LibContribution(system, language, lib).inputs == []
    ensures lib.Library? && lib.isStatic && language == Some(C) && lib.language == Some(CXX) ==>
              var flags := LibContribution(system, language, lib).flags;
              |flags| > 0 && flags[|flags| - 1] == (if system == Darwin then "-lc++" else "-lstdc++")
    ensures lib.Library? && !(lib.isStatic && language == Some(C) && lib.language == Some(CXX)) ==>
              LibContribution(system, language, lib).flags == (if system == Windows then [] else ["-L" + lib.libDir, "-l" + lib.linkName])
  {
  }

  /** The product-kind flags: -dynamiclib/-shared for a shared library, -mwindows/-mconsole for a Windows executable. */
  function KindFlags(t: Target): seq<string>
    reads t
  {
    var system := t.workspace.system;
    if t.kind == SharedLibrary then [if system == Darwin then "-dynamiclib" else "-shared"]
    else if t.kind == Exe && system == Windows then [if t.usingGui then "-mwindows" else "-mconsole"]
    else []
  }

  /** The rpath flags: $ORIGIN on Linux, the install name or the bundle paths on Darwin. */
  function RpathFlags(t: Target): seq<string>
    reads t
  {
    var system := t.workspace.system;
    if system == Linux && LinksLibraries(t) then ["-Wl,-rpath=$ORIGIN", "-Wl,-rpath=$ORIGIN/../lib"]
    else if system == Darwin && t.kind == SharedLibrary then ["-install_name", "@rpath/" + t.OutputFileName(None)]
    else if system == Darwin && t.kind == Exe then
      ["-rpath", "@executable_path/../Frameworks", "-rpath", "@executable_path", "-rpath", "@executable_path/../lib"]
    else []
  }

  /** Everything between the kind flags and the rpath flags. */
  function MiddleFlags(t: Target, pkgLibs: string): ClangLike.Contribution
    reads t, LibObjects(t.linkLibs.Get(Internal))
  {
    var system := t.workspace.system;
    var links := LinksLibraries(t);
    var runtime := if links && t.runtimeLink == StaticRuntime then ["-static"] else [];
    var frameworks := if system == Darwin && links then FrameworkFlags(t.MacosFrameworks(Internal)) else [];
    var libs := if links then LibContributions(system, t.language, LinkedLibs(t.linkLibs.Get(Internal))) else ClangLike.Contribution([], []);
    var dirs := if links then PrefixEach("-L", t.LibraryDirs(Internal)) else [];
    var pkg := if links && UsesPkgConfig(t, system) then PkgConfigFlags(pkgLibs) else [];
    ClangLike.Contribution(runtime + frameworks + ThreadFlags(t) + dirs + libs.flags + pkg, libs.inputs)
  }

  /** The ldflags, inputs and output of the link step. */
  function LinkParamsSpec(tc: Toolchain, triplet: Option<string>, t: Target, pkgLibs: string): Result<LinkParams>
    reads t, LibObjects(t.linkLibs.Get(Internal))
  {
    var platform :- PlatformFlags(tc, triplet, t.workspace.system);
    var objects := ObjectPaths(t.ObjDir(), t.workspace.sourceDir, t.sources);
    var middle := MiddleFlags(t, pkgLibs);
    var outputDir := if t.kind == Exe then t.BinDir() else t.LibDir();
    Ok(LinkParams(t.warningParams + platform + KindFlags(t) + middle.flags + RpathFlags(t),
                  objects + middle.inputs,
                  Join(outputDir, t.OutputFileName(None))))
  }

  /** get_link_params; pkgLibs is what `pkg-config --libs` prints for the internal packages. */
  method GetLinkParams(tc: Toolchain, triplet: Option<string>, t: Target, pkgLibs: string) returns (r: Result<LinkParams>)
    ensures r == LinkParamsSpec(tc, triplet, t, pkgLibs)
  {
    var system := t.workspace.system;
    // Warnings
    var ldflags := t.warningParams;
    // Target platform
    var platform := PlatformFlags(tc, triplet, system);
    if platform.Err? {
      return Err(platform.error);
    }
    ldflags := ldflags + platform.value;
    // Object files
    var inputPaths := CollectObjectPaths(t.ObjDir(), t.workspace.sourceDir, t.sources);
    // GUI, console or library
    ldflags := ldflags + KindFlags(t);
    var middle := GetMiddleFlags(t, pkgLibs);
    ldflags := ldflags + middle.flags;
    inputPaths := inputPaths + middle.inputs;
    var outputDir := if t.kind == Exe then t.BinDir() else t.LibDir();
    var outputPath := Join(outputDir, t.OutputFileName(None));
    ldflags := ldflags + RpathFlags(t);
    r := Ok(LinkParams(ldflags, inputPaths, outputPath));
  }

  /** Runtime, frameworks, threads, library dirs, libraries and pkg-config, in that order. */
  method GetMiddleFlags(t: Target, pkgLibs: string) returns (c: ClangLike.Contribution)
    ensures c == MiddleFlags(t, pkgLibs)
  {
    var system := t.workspace.system;
    var links := LinksLibraries(t);
    var runtime: seq<string> := if links && t.runtimeLink == StaticRuntime then ["-static"] else [];
    var frameworks: seq<string> := [];
    if system == Darwin && links {
      frameworks := AppendFrameworkFlags(frameworks, t.MacosFrameworks(Internal));
      assert frameworks == FrameworkFlags(t.MacosFrameworks(Internal));
    }
    var threads: seq<string> := if Internal in t.usesThreads then ["-pthread"] else [];
    var dirs: seq<string> := [];
    var libFlags: seq<string> := [];
    var inputs: seq<string> := [];
    var pkg: seq<string> := [];
    var views := LinkedLibs(t.linkLibs.Get(Internal));
    if links {
      dirs := PrefixEach("-L", t.LibraryDirs(Internal));
      libFlags, inputs := CollectLibContributions(system, t.language, views);
      if UsesPkgConfig(t, system) {
        pkg := PkgConfigFlags(pkgLibs);
      }
    }
    c := ClangLike.Contribution(runtime + frameworks + threads + dirs + libFlags + pkg, inputs);
    assert views == LinkedLibs(t.linkLibs.Get(Internal));
  }

  /**
   * The link parameters raise only for a Clang without a triplet for the
   * host. The inputs begin with one object per source; the flags begin with
   * the warning parameters; a shared library gets -dynamiclib on Darwin and
   * -shared elsewhere; a Linux executable or shared library ends with the two
   * $ORIGIN rpaths, a Darwin shared library with its install name and a
   * Darwin executable with three -rpath pairs.
   */
  lemma LinkParamsFacts(tc: Toolchain, triplet: Option<string>, t: Target, pkgLibs: string)
    ensures var r := LinkParamsSpec(tc, triplet, t, pkgLibs);
            (r.Ok? <==> (tc.id == Clang ==> TargetTriplet(triplet, t.workspace.system, tc.arch).Ok?)) &&
            (r.Ok? ==>
              var ld := r.value.ldflags;
              var objects := ObjectPaths(t.ObjDir(), t.workspace.sourceDir, t.sources);
              var system := t.workspace.system;
              r.value.inputPaths[..|objects|] == objects &&
              ld[..|t.warningParams|] == t.warningParams &&
              (t.kind == SharedLibrary ==> (if system == Darwin then "-dynamiclib" else "-shared") in ld) &&
              (system == Linux && LinksLibraries(t) ==> ld[|ld| - 2..] == ["-Wl,-rpath=$ORIGIN", "-Wl,-rpath=$ORIGIN/../lib"]) &&
              (system == Darwin && t.kind == SharedLibrary ==> ld[|ld| - 2..] == ["-install_name", "@rpath/" + t.OutputFileName(None)]) &&
              (system == Darwin && t.kind == Exe ==>
                 ld[|ld| - 6..] == ["-rpath", "@executable_path/../Frameworks", "-rpath", "@executable_path", "-rpath", "@executable_path/../lib"]))
  {
    var r := LinkParamsSpec(tc, triplet, t, pkgLibs);
    if r.Ok? {
      var platform := PlatformFlags(tc, triplet, t.workspace.system).value;
      var middle := MiddleFlags(t, pkgLibs);
      var ld := r.value.ldflags;
      var head := t.warningParams + platform + KindFlags(t);
      var tail := RpathFlags(t);
      assert ld == head + middle.flags + tail;
      assert ld[..|t.warningParams|] == t.warningParams;
      assert ld[|ld| - |tail|..] == tail;
      assert t.kind == SharedLibrary ==> ld[|head| - 1] == KindFlags(t)[0];
    }
  }
}
