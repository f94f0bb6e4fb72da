/**
 * ClangLikeToolchain (script/internal/toolchain/clang_like.py): the compile,
 * link and archive parameters of a target, each built step by step by a
 * method and specified by a function, and the executables it runs.
 */
module ClangLike {
  import opened Wrappers
  import opened SeqUtil
  import opened Paths
  import opened Platform
  import opened Arches
  import opened BuildDefs
  import opened Scoping
  import opened TargetTypes
  import opened ToolchainCommon
  import opened Targets
  import opened ToolchainFlags

  /** `"-O" + {DEBUG: "0", RELEASE: "2"}[build_type]`: a KeyError without a build type. */
  function OptimizationFlag(b: Option<BuildType>): Result<string> {
    match b
    case None => Err("KeyError: None")
    case Some(Debug) => Ok("-O0")
    case Some(Release) => Ok("-O2")
  }

  /** `{X64: "-m64", X86: "-m32"}[arch]` unless the architecture is NATIVE: a KeyError for the ARM ones. */
  function ArchFlags(arch: Arch): Result<seq<string>> {
    match arch
    case Native => Ok([])
    case X64 => Ok(["-m64"])
    case X86 => Ok(["-m32"])
    case _ => Err("KeyError: " + arch.MemberName())
  }

  /** The cflags after the optimization, standard and architecture flags. */
  function CompileTail(t: Target, pkgCflags: string): seq<string>
    reads t
  {
    var system := t.workspace.system;
    (if t.kind == SharedLibrary then ["-fPIC"] else []) +
    DefinitionFlags(t.DefinitionsOf(Internal)) +
    PrefixEach("-I", t.IncludeDirs(Internal)) +
    (if system == Darwin && LinksLibraries(t) then FrameworkFlags(t.MacosFrameworks(Internal)) else []) +
    (if UsesPkgConfig(t, system) then PkgConfigFlags(pkgCflags) else [])
  }

  /** The cflags every source of the target is compiled with; the first failing step raises. */
  function CompileFlags(tc: Toolchain, t: Target, pkgCflags: string): Result<seq<string>>
    reads t
  {
    var opt := OptimizationFlag(t.BuildTypeOf());
    var std := StandardFlags(t.language, t.LanguageStandardOf(None));
    var arch := ArchFlags(tc.arch);
    if opt.Err? then Err(opt.error)
    else if std.Err? then Err(std.error)
    else if arch.Err? then Err(arch.error)
    else Ok([opt.value] + std.value + arch.value + CompileTail(t, pkgCflags))
  }

  /** One compile step per source: the shared cflags, the source, and its object file. */
  function CompileSteps(cflags: seq<string>, objDir: string, sourceDir: string, sources: seq<string>): (r: seq<CompileParams>)
    ensures |r| == |sources|
    ensures forall i | 0 <= i < |sources| :: r[i] == CompileParams(cflags, sources[i], ObjectPath(objDir, sourceDir, sources[i]))
  {
    seq(|sources|, i requires 0 <= i < |sources| => CompileParams(cflags, sources[i], ObjectPath(objDir, sourceDir, sources[i])))
  }

  function CompileParamsSpec(tc: Toolchain, t: Target, pkgCflags: string): Result<seq<CompileParams>>
    reads t
  {
    var flags :- CompileFlags(tc, t, pkgCflags);
    Ok(CompileSteps(flags, t.ObjDir(), t.workspace.sourceDir, t.sources))
  }

  /**
   * get_compile_params. The pkg-config call is an input: pkgCflags is what
   * `pkg-config --cflags` prints for the target's internal packages.
   */
  method GetCompileParams(tc: Toolchain, t: Target, pkgCflags: string) returns (r: Result<seq<CompileParams>>)
    ensures r == CompileParamsSpec(tc, t, pkgCflags)
  {
    var flags := GetCompileFlags(tc, t, pkgCflags);
    if flags.Err? {
      return Err(flags.error);
    }
    var steps := CollectCompileSteps(flags.value, t.ObjDir(), t.workspace.sourceDir, t.sources);
    r := Ok(steps);
  }

  /** The loop of get_compile_params: one entry per source, in order. */
  method CollectCompileSteps(cflags: seq<string>, objDir: string, sourceDir: string, sources: seq<string>)
    returns (result: seq<CompileParams>)
    ensures result == CompileSteps(cflags, objDir, sourceDir, sources)
  {
    result := [];
    for i := 0 to |sources|
      invariant result == CompileSteps(cflags, objDir, sourceDir, sources[..i])
    {
      var source := sources[i];
      var outputPath := ObjectPath(objDir, sourceDir, source);
      CompileStepsSnoc(cflags, objDir, sourceDir, sources, i);
      result := result + [CompileParams(cflags, source, outputPath)];
    }
    assert sources[..|sources|] == sources;
  }

  lemma CompileStepsSnoc(cflags: seq<string>, objDir: string, sourceDir: string, sources: seq<string>, i: nat)
    requires i < |sources|
    ensures CompileSteps(cflags, objDir, sourceDir, sources[..i + 1])
            == CompileSteps(cflags, objDir, sourceDir, sources[..i]) + [CompileParams(cflags, sources[i], ObjectPath(objDir, sourceDir, sources[i]))]
  {
    assert sources[..i + 1] == sources[..i] + [sources[i]];
  }

  /** The flag-building half of get_compile_params. */
  method GetCompileFlags(tc: Toolchain, t: Target, pkgCflags: string) returns (r: Result<seq<string>>)
    ensures r == CompileFlags(tc, t, pkgCflags)
  {
    // Optimization
    var opt := OptimizationFlag(t.BuildTypeOf());
    if opt.Err? {
      return Err(opt.error);
    }
    var cflags := [opt.value];
    // Language standard
    var std := StandardFlags(t.language, t.LanguageStandardOf(None));
    if std.Err? {
      return Err(std.error);
    }
    cflags := cflags + std.value;
    // Architecture
    var arch := ArchFlags(tc.arch);
    if arch.Err? {
      return Err(arch.error);
    }
    cflags := cflags + arch.value;
    var tail := GetCompileTail(t, pkgCflags);
    r := Ok(cflags + tail);
  }

  /** PIC, definitions, include dirs, frameworks and pkg-config flags, in that order. */
  method GetCompileTail(t: Target, pkgCflags: string) returns (cflags: seq<string>)
    ensures cflags == CompileTail(t, pkgCflags)
  {
    var system := t.workspace.system;
    // Shared libraries need PIC
    var pic: seq<string> := if t.kind == SharedLibrary then ["-fPIC"] else [];
    var definitions := DefinitionFlags(t.DefinitionsOf(Internal));
    var includes := PrefixEach("-I", t.IncludeDirs(Internal));
    var frameworks: seq<string> := [];
    if system == Darwin && LinksLibraries(t) {
      frameworks := AppendFrameworkFlags(frameworks, t.MacosFrameworks(Internal));
    }
    var pkg: seq<string> := if UsesPkgConfig(t, system) then PkgConfigFlags(pkgCflags) else [];
    cflags := pic + definitions + includes + frameworks + pkg;
  }

  /** When the compile parameters can be built at all. */
  predicate CompileFlagsDefined(tc: Toolchain, t: Target)
    reads t
  {
    t.BuildTypeOf().Some? && t.language.Some? &&
    (t.language.value in t.standards ==> t.language.value in {C, CXX}) &&
    tc.arch in {Native, X64, X86}
  }

  /**
   * The compile parameters: they raise exactly without a build type, without
   * a language, for a standard on a language other than C and C++, or for an
   * ARM architecture. Otherwise there is one entry per source, in order,
   * all with the same cflags, each compiling its source into
   * obj_dir/relpath(source)+".o"; the first flag is -O0 (Debug) or -O2
   * (Release); -fPIC is there for shared libraries and -m64/-m32 for
   * X64/X86.
   */
  lemma CompileParamsFacts(tc: Toolchain, t: Target, pkgCflags: string)
    ensures var r := CompileParamsSpec(tc, t, pkgCflags);
            (r.Ok? <==> CompileFlagsDefined(tc, t)) &&
            (r.Ok? ==>
              var flags := CompileFlags(tc, t, pkgCflags).value;
              |r.value| == |t.sources| &&
              (forall i | 0 <= i < |t.sources| ::
                 r.value[i].cflags == flags && r.value[i].inputPath == t.sources[i] &&
                 r.value[i].outputPath == ObjectPath(t.ObjDir(), t.workspace.sourceDir, t.sources[i])) &&
              flags[0] == (if t.BuildTypeOf() == Some(Debug) then "-O0" else "-O2") &&
              (t.kind == SharedLibrary ==> "-fPIC" in flags) &&
              (tc.arch == X64 ==> "-m64" in flags) &&
              (tc.arch == X86 ==> "-m32" in flags))
  {
    CompileFlagsOk(tc, t, pkgCflags);
    if CompileFlags(tc, t, pkgCflags).Ok? {
      CompileFlagsShape(tc, t, pkgCflags);
    }
  }

  lemma CompileFlagsOk(tc: Toolchain, t: Target, pkgCflags: string)
    ensures CompileFlags(tc, t, pkgCflags).Ok? <==> CompileFlagsDefined(tc, t)
  {
    var standard := t.LanguageStandardOf(None);
    assert standard.Err? <==> t.language.None?;
    assert standard.Ok? ==> (standard.value.Some? <==> t.language.value in t.standards);
    assert StandardFlags(t.language, standard).Ok? <==>
      t.language.Some? && (t.language.value in t.standards ==> t.language.value in {C, CXX});
  }

  lemma CompileFlagsShape(tc: Toolchain, t: Target, pkgCflags: string)
    requires CompileFlags(tc, t, pkgCflags).Ok?
    ensures var flags := CompileFlags(tc, t, pkgCflags).value;
      flags[0] == (if t.BuildTypeOf() == Some(Debug) then "-O0" else "-O2") &&
      (t.kind == SharedLibrary ==> "-fPIC" in flags) &&
      (tc.arch == X64 ==> "-m64" in flags) &&
      (tc.arch == X86 ==> "-m32" in flags)
  {
    var flags := CompileFlags(tc, t, pkgCflags).value;
    var opt := OptimizationFlag(t.BuildTypeOf()).value;
    var std := StandardFlags(t.language, t.LanguageStandardOf(None)).value;
    var arch := ArchFlags(tc.arch).value;
    var pic: seq<string> := if t.kind == SharedLibrary then ["-fPIC"] else [];
    var head := [opt] + std + arch + pic;
    assert flags[..|head|] == head;
    assert flags[0] == opt;
    assert t.kind == SharedLibrary ==> flags[|head| - 1] == "-fPIC";
    assert tc.arch in {X64, X86} ==> flags[1 + |std|] == arch[0];
  }

  /** What one link library contributes to the link step: flags and extra inputs. */
  datatype Contribution = Contribution(flags: seq<string>, inputs: seq<string>)

  /**
   * One library of a target in the given language: a name gives -l<name>; an
   * object-file target adds its output; a library target gives -L<its lib
   * dir> -l<its link name>. Only a static library (the tuple it is tested
   * against holds a bool and STATIC_LIBRARY) adds -lstdc++, for a C target
   * and a C++ library.
   */
  function LibContribution(language: Option<Language>, lib: LinkedLib): Contribution {
    match lib
    case ByName(n) => Contribution(["-l" + n], [])
    case ObjectFile(p) => Contribution([], [p])
    case Library(isStatic, libLanguage, libDir, linkName, _) =>
      Contribution(["-L" + libDir, "-l" + linkName] +
                   (if isStatic && language == Some(C) && libLanguage == Some(CXX) then ["-lstdc++"] else []), [])
    case NotLinkable => Contribution([], [])
  }

  /** The library loop over the libraries, in order. */
  function LibContributions(language: Option<Language>, libs: seq<LinkedLib>): Contribution
    decreases |libs|
  {
    if |libs| == 0 then Contribution([], [])
    else
      var before := LibContributions(language, libs[..|libs| - 1]);
      var last := LibContribution(language, libs[|libs| - 1]);
      Contribution(before.flags + last.flags, before.inputs + last.inputs)
  }

  /** The rpath flags of an executable or shared library. */
  function RpathFlags(t: Target): seq<string> {
    if !LinksLibraries(t) then []
    else if t.workspace.system == Darwin then ["-Wl,-rpath=@executable_path/../Frameworks", "-Wl,-rpath=@executable_path"]
    else if t.workspace.system == Linux then ["-Wl,-rpath=$ORIGIN", "-Wl,-rpath=$ORIGIN/../lib"]
    else []
  }

  /** The link flags of an executable or shared library: frameworks, library dirs, libraries, pkg-config. */
  function LibraryLinkFlags(t: Target, pkgLibs: string): Contribution
    reads t, LibObjects(t.linkLibs.Get(Internal))
  {
    var system := t.workspace.system;
    var frameworks := if system == Darwin then FrameworkFlags(t.MacosFrameworks(Internal)) else [];
    var libs := LibContributions(t.language, LinkedLibs(t.linkLibs.Get(Internal)));
    var pkg := if UsesPkgConfig(t, system) then PkgConfigFlags(pkgLibs) else [];
    Contribution(frameworks + PrefixEach("-L", t.LibraryDirs(Internal)) + libs.flags + pkg, libs.inputs)
  }

  /** -shared for a shared library, -static for a static one. */
  function KindFlags(kind: TargetType): seq<string> {
    if kind == SharedLibrary then ["-shared"] else if kind == StaticLibrary then ["-static"] else []
  }

  /** The ldflags, the inputs and the output of the link step. */
  function LinkParamsSpec(tc: Toolchain, t: Target, pkgLibs: string): Result<LinkParams>
    reads t, LibObjects(t.linkLibs.Get(Internal))
  {
    var arch := ArchFlags(tc.arch);
    if arch.Err? then Err(arch.error)
    else
      var objects := ObjectPaths(t.ObjDir(), t.workspace.sourceDir, t.sources);
      var libs := if LinksLibraries(t) then LibraryLinkFlags(t, pkgLibs) else Contribution([], []);
      var outputDir := if t.kind == Exe then t.BinDir() else t.LibDir();
      Ok(LinkParams(arch.value + KindFlags(t.kind) + libs.flags + RpathFlags(t),
                    objects + libs.inputs,
                    Join(outputDir, t.OutputFileName(None))))
  }

  /** The link-library loop: each library's flags and inputs, appended in order. */
  method CollectLibContributions(language: Option<Language>, views: seq<LinkedLib>)
    returns (flags: seq<string>, inputs: seq<string>)
    ensures flags == LibContributions(language, views).flags
    ensures inputs == LibContributions(language, views).inputs
  {
    flags, inputs := [], [];
    for i := 0 to |views|
      invariant flags == LibContributions(language, views[..i]).flags
      invariant inputs == LibContributions(language, views[..i]).inputs
    {
      assert views[..i + 1][..i] == views[..i];
      match views[i]
      case ByName(n) =>
        flags := flags + ["-l" + n];
      case ObjectFile(path) =>
        inputs := inputs + [path];
      case Library(isStatic, libLanguage, libDir, linkName, _) =>
        flags := flags + ["-L" + libDir];
        flags := flags + ["-l" + linkName];
        if isStatic && language == Some(C) && libLanguage == Some(CXX) {
          flags := flags + ["-lstdc++"];
        }
      case NotLinkable =>
    }
    assert views[..|views|] == views;
  }

  /** The part of the link step that only executables and shared libraries take. */
  method GetLibraryLinkFlags(t: Target, pkgLibs: string) returns (c: Contribution)
    ensures c == LibraryLinkFlags(t, pkgLibs)
  {
    var system := t.workspace.system;
    // Frameworks
    var frameworks: seq<string> := [];
    if system == Darwin {
      frameworks := AppendFrameworkFlags(frameworks, t.MacosFrameworks(Internal));
      assert frameworks == FrameworkFlags(t.MacosFrameworks(Internal));
    }
    // Link library directories
    var dirs := PrefixEach("-L", t.LibraryDirs(Internal));
    // Link libraries
    var views := LinkedLibs(t.linkLibs.Get(Internal));
    var libFlags, inputs := CollectLibContributions(t.language, views);
    // pkgconfig flags
    var pkg: seq<string> := [];
    if UsesPkgConfig(t, system) {
      pkg := PkgConfigFlags(pkgLibs);
    }
    c := Contribution(frameworks + dirs + libFlags + pkg, inputs);
    assert views == LinkedLibs(t.linkLibs.Get(Internal));
  }


  /** get_link_params; pkgLibs is what `pkg-config --libs` prints for the target's internal packages. */
  method GetLinkParams(tc: Toolchain, t: Target, pkgLibs: string) returns (r: Result<LinkParams>)
    ensures r == LinkParamsSpec(tc, t, pkgLibs)
  {
    // Architecture
    var arch := ArchFlags(tc.arch);
    if arch.Err? {
      return Err(arch.error);
    }
    // Object files
    var inputPaths := CollectObjectPaths(t.ObjDir(), t.workspace.sourceDir, t.sources);
    // -shared / -static
    var ldflags := arch.value + KindFlags(t.kind);
    if LinksLibraries(t) {
      var libs := GetLibraryLinkFlags(t, pkgLibs);
      ldflags := ldflags + libs.flags;
      inputPaths := inputPaths + libs.inputs;
    }
    var outputDir := if t.kind == Exe then t.BinDir() else t.LibDir();
    var outputPath := Join(outputDir, t.OutputFileName(None));
    // rpath
    ldflags := ldflags + RpathFlags(t);
    ghost var objects := ObjectPaths(t.ObjDir(), t.workspace.sourceDir, t.sources);
    assert A: inputPaths == objects + (if LinksLibraries(t) then LibraryLinkFlags(t, pkgLibs) else Contribution([], [])).inputs;
    assert B: ldflags == arch.value + KindFlags(t.kind) + (if LinksLibraries(t) then LibraryLinkFlags(t, pkgLibs) else Contribution([], [])).flags + RpathFlags(t);
    r := Ok(LinkParams(ldflags, inputPaths, outputPath));
  }

  /**
   * The link parameters raise exactly for an ARM architecture. The inputs
   * start with the object files; only executables and shared libraries
   * resolve link libraries, so for the other kinds the objects are all the
   * inputs. The flags start with the architecture flag and -shared or
   * -static, and end with the rpath pair of the host system; executables go
   * to the bin directory and everything else to the lib directory.
   */
  lemma LinkParamsFacts(tc: Toolchain, t: Target, pkgLibs: string)
    ensures var r := LinkParamsSpec(tc, t, pkgLibs);
            var objects := ObjectPaths(t.ObjDir(), t.workspace.sourceDir, t.sources);
            (r.Ok? <==> tc.arch in {Native, X64, X86}) &&
            (r.Ok? ==>
              var head := ArchFlags(tc.arch).value + KindFlags(t.kind);
              objects <= r.value.inputPaths &&
              (!LinksLibraries(t) ==> r.value.inputPaths == objects && r.value.ldflags == head) &&
              head <= r.value.ldflags &&
              |RpathFlags(t)| <= |r.value.ldflags| &&
              r.value.ldflags[|r.value.ldflags| - |RpathFlags(t)|..] == RpathFlags(t) &&
              r.value.outputPath == Join(if t.kind == Exe then t.BinDir() else t.LibDir(), t.OutputFileName(None)))
  {
    if LinkParamsSpec(tc, t, pkgLibs).Ok? {
      LinkParamsShape(tc, t, pkgLibs);
    }
  }

  lemma LinkParamsShape(tc: Toolchain, t: Target, pkgLibs: string)
    requires LinkParamsSpec(tc, t, pkgLibs).Ok?
    ensures var r := LinkParamsSpec(tc, t, pkgLibs).value;
            var objects := ObjectPaths(t.ObjDir(), t.workspace.sourceDir, t.sources);
            var head := ArchFlags(tc.arch).value + KindFlags(t.kind);
            objects <= r.inputPaths &&
            (!LinksLibraries(t) ==> r.inputPaths == objects && r.ldflags == head) &&
            head <= r.ldflags &&
            |RpathFlags(t)| <= |r.ldflags| &&
            r.ldflags[|r.ldflags| - |RpathFlags(t)|..] == RpathFlags(t)
  {
    var r := LinkParamsSpec(tc, t, pkgLibs);
    var objects := ObjectPaths(t.ObjDir(), t.workspace.sourceDir, t.sources);
    var head := ArchFlags(tc.arch).value + KindFlags(t.kind);
    var libs := if LinksLibraries(t) then LibraryLinkFlags(t, pkgLibs) else Contribution([], []);
    var ld := r.value.ldflags;
    assert ld == head + libs.flags + RpathFlags(t);
    ThreeParts(head, libs.flags, RpathFlags(t));
    assert objects <= r.value.inputPaths by {
      ThreeParts(objects, libs.inputs, []);
      assert objects + libs.inputs + [] == r.value.inputPaths;
    }
  }

  /**
   * The library cases: a name is linked with -l; an object file is passed as
   * an input and never pulls in -lstdc++; a shared library is found
   * through -L/-l; a static C++ library linked into a C target adds
   * -lstdc++ after its -L/-l; executables and interface libraries add nothing.
   */
  lemma LibContributionCases(t: Target, lib: LinkLib)
    ensures var c := LibContribution(t.language, LinkedLibOf(lib));
            (lib.Named? ==> c == Contribution(["-l" + lib.name], [])) &&
            (lib.Lib? && lib.target.kind == Object ==> c == Contribution([], [lib.target.OutputFilePath().value])) &&
            (lib.Lib? && lib.target.kind == SharedLibrary ==>
               c == Contribution(["-L" + lib.target.LibDir(), "-l" + lib.target.LinkOutputName()], [])) &&
            (lib.Lib? && lib.target.kind == StaticLibrary ==>
               c == Contribution(["-L" + lib.target.LibDir(), "-l" + lib.target.LinkOutputName()] +
                                 (if t.language == Some(C) && lib.target.language == Some(CXX) then ["-lstdc++"] else []), [])) &&
            (lib.Lib? && lib.target.kind in {Exe, Interface} ==> c == Contribution([], []))
  {
  }

  /** The library loop keeps the libraries' order: each library's contribution follows the previous ones'. */
  lemma {:induction false} LibContributionsAppend(language: Option<Language>, a: seq<LinkedLib>, b: seq<LinkedLib>)
    ensures LibContributions(language, a + b).flags == LibContributions(language, a).flags + LibContributions(language, b).flags
    ensures LibContributions(language, a + b).inputs == LibContributions(language, a).inputs + LibContributions(language, b).inputs
    decreases |b|
  {
    if |b| == 0 {
      assert a + b == a;
    } else {
      var n := |b| - 1;
      assert (a + b)[..|a + b| - 1] == a + b[..n];
      LibContributionsAppend(language, a, b[..n]);
    }
  }

  /** A library that is a plain name adds exactly -l<name> to the flags and nothing to the inputs. */
  lemma NamedLibrariesOnly(language: Option<Language>, names: seq<string>)
    ensures var views := seq(|names|, i requires 0 <= i < |names| => ByName(names[i]));
            LibContributions(language, views) == Contribution(PrefixEach("-l", names), [])
    decreases |names|
  {
    var views := seq(|names|, i requires 0 <= i < |names| => ByName(names[i]));
    if |names| > 0 {
      var n := |names| - 1;
      NamedLibrariesOnly(language, names[..n]);
      assert views[..n] == seq(n, i requires 0 <= i < n => ByName(names[..n][i]));
      assert PrefixEach("-l", names) == PrefixEach("-l", names[..n]) + ["-l" + names[n]];
    }
  }

  /** The archive: the target's object files into lib_dir/<file name with ".a">. */
  function ArchiveParamsSpec(t: Target): ArchiveParams
    reads t
  {
    ArchiveParams(ObjectPaths(t.ObjDir(), t.workspace.sourceDir, t.sources), Join(t.LibDir(), t.OutputFileName(Some(".a"))))
  }

  method GetArchiveParams(t: Target) returns (r: ArchiveParams)
    ensures r == ArchiveParamsSpec(t)
  {
    var inputPaths := CollectObjectPaths(t.ObjDir(), t.workspace.sourceDir, t.sources);
    var outputPath := Join(t.LibDir(), t.OutputFileName(Some(".a")));
    r := ArchiveParams(inputPaths, outputPath);
  }

  /** The archive lists one object per source, in order, and is named with the ".a" extension. */
  lemma ArchiveParamsFacts(t: Target)
    ensures var p := ArchiveParamsSpec(t);
            |p.inputPaths| == |t.sources| &&
            (forall i | 0 <= i < |t.sources| :: p.inputPaths[i] == ObjectPath(t.ObjDir(), t.workspace.sourceDir, t.sources[i])) &&
            p.outputPath == Join(t.LibDir(), t.OutputFileName(Some(".a"))) &&
            t.OutputFileName(Some(".a")) == (if t.outputNamePrefix.None? then t.workspace.toolchain.FileNamePrefix(t.kind) else t.outputNamePrefix.value) + t.OutputName() + ".a"
  {
  }

  /** get_archive_exe: the configured archiver. */
  function ArchiveExe(tc: Toolchain): Option<string> {
    tc.binaries.ar
  }

  /** get_link_exe: cc for C, cxx for C++, NotImplementedError otherwise. */
  function LinkExe(tc: Toolchain, language: Option<Language>): (r: Result<Option<string>>)
    ensures r.Ok? <==> language in {Some(C), Some(CXX)}
    ensures language == Some(C) ==> r == Ok(tc.binaries.cc)
    ensures language == Some(CXX) ==> r == Ok(tc.binaries.cxx)
  {
    if language == Some(C) then Ok(tc.binaries.cc)
    else if language == Some(CXX) then Ok(tc.binaries.cxx)
    else Err("NotImplementedError")
  }
}
