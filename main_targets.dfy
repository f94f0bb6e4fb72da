/**
 * The target graph of the webview library (script/targets/main.py): the
 * header-only library, the shared and static libraries built from
 * webview.cc, one program per example source and the library's test
 * program, and the warning flags the header library hands to all of them.
 */
module MainTargets {
  import opened Wrappers
  import opened SeqUtil
  import opened Text
  import opened Paths
  import opened Platform
  import opened Scoping
  import opened Definitions
  import opened BuildDefs
  import opened TargetTypes
  import opened ToolchainCommon
  import opened WorkspaceLayout
  import opened Targets
  import opened Workspaces

  // ----- get_warning_params -----

  const MsvcWarnings: seq<string> := ["/W4", "/wd4100", "/wd4146"]
  const CommonWarnings: seq<string> := ["-Wall", "-Wextra", "-pedantic"]
  /** Warnings WebView2's headers trigger with compilers other than MSVC, turned off on Windows. */
  const WebView2Warnings: seq<string> := ["-Wno-unknown-pragmas", "-Wno-unused-parameter", "-Wno-cast-function-type"]

  /** The warning flags of a toolchain on a host system. */
  function WarningParams(id: ToolchainId, system: System): seq<string> {
    if id == Msvc then MsvcWarnings
    else CommonWarnings + (if system == Windows then WebView2Warnings else [])
  }

  /** get_warning_params: the flags collected with `+=`. */
  method GetWarningParams(id: ToolchainId, system: System) returns (params: seq<string>)
    ensures params == WarningParams(id, system)
  {
    params := [];
    if id == Msvc {
      params := params + MsvcWarnings;
    } else {
      params := params + CommonWarnings;
      if system == Windows {
        params := params + WebView2Warnings;
      }
    }
  }

  /**
   * MSVC gets three flags in its "/" syntax and every other toolchain flags in
   * the "-" syntax; elsewhere the common flags come first, and Windows adds
   * exactly three flags, all of which turn a warning off.
   */
  lemma WarningParamsSyntax(id: ToolchainId, system: System)
    ensures var w := WarningParams(id, system);
      forall f | f in w :: |f| > 1 && f[0] == (if id == Msvc then '/' else '-')
    ensures id == Msvc ==> |WarningParams(id, system)| == 3
    ensures id != Msvc ==> var w := WarningParams(id, system);
      w[..3] == CommonWarnings && (|w| > 3 <==> system == Windows) &&
      forall i | 3 <= i < |w| :: StartsWith(w[i], "-Wno-")
  {
    var w := WarningParams(id, system);
    if id != Msvc && system == Windows {
      assert w[3..] == WebView2Warnings;
      forall i | 3 <= i < |w|
        ensures StartsWith(w[i], "-Wno-")
      {
        assert w[i] == WebView2Warnings[i - 3];
      }
    }
  }

  // ----- standards and names -----

  /** The C standard: C11 with MSVC, C99 with the others. */
  function CStandard(id: ToolchainId): (s: LanguageStandard)
    ensures s.language == C
  {
    if id == Msvc then C11 else C99
  }

  /** The C++ standard: C++17 on Windows, which WebView2 needs, C++11 elsewhere. */
  function CxxStandard(system: System): (s: LanguageStandard)
    ensures s.language == CXX
  {
    if system == Windows then CXX17 else CXX11
  }

  /** The macro that selects the platform backend of webview.h. */
  function BackendMacro(system: System): Option<string> {
    match system
    case Darwin => Some("WEBVIEW_COCOA")
    case Linux => Some("WEBVIEW_GTK")
    case Windows => Some("WEBVIEW_EDGE")
    case OtherSystem(_) => None
  }

  /** The Windows system libraries the header library links for compilers other than MSVC. */
  const Win32Libraries: seq<LinkLib> :=
    [Named("advapi32"), Named("ole32"), Named("shell32"), Named("shlwapi"), Named("user32"), Named("version")]

  /** An example program's target name: "example_" and the file name with every "." made "_". */
  function ExampleName(source: string): string {
    "example_" + ReplaceChar(Basename(source), '.', "_")
  }

  /** The name keeps the file name's length after its prefix, and holds no "." and no "/" there. */
  lemma ExampleNameShape(source: string)
    ensures var r := ExampleName(source);
      |r| == 8 + |Basename(source)| && r[..8] == "example_" && '.' !in r[8..] && '/' !in r[8..]
  {
    var base := Basename(source);
    ReplaceCharLength(base, '.', "_");
    ReplaceCharFree(base, '/', '.', "_");
    var r := ExampleName(source);
    assert r[8..] == ReplaceChar(base, '.', "_");
  }

  /** A character missing from the text and from the replacement is missing from the result. */
  lemma {:induction false} ReplaceCharFree(s: string, c: char, p: char, rep: string)
    requires c !in s && c !in rep
    ensures c !in ReplaceChar(s, p, rep)
    decreases |s|
  {
    if |s| > 0 {
      ReplaceCharFree(s[1..], c, p, rep);
    }
  }

  /** The examples directory of a source tree. */
  function ExamplesDir(info: WorkspaceInfo): string {
    Join(info.sourceDir, "examples")
  }

  /** find_c_like_source_files over the examples directory: C and C++ sources, no headers. */
  function ExampleSources(info: WorkspaceInfo, walk: seq<WalkDir>): seq<(FileType, string)> {
    FindSourcesSpec(walk, CLikeFileTypes(false), ExamplesDir(info))
  }

  function ExampleNames(sources: seq<(FileType, string)>): (r: seq<string>)
    ensures |r| == |sources| && forall i | 0 <= i < |sources| :: r[i] == ExampleName(sources[i].1)
  {
    seq(|sources|, i requires 0 <= i < |sources| => ExampleName(sources[i].1))
  }

  /** The names register adds, in the order it adds them. */
  function RegisteredNames(sources: seq<(FileType, string)>): seq<string> {
    ["library_header", "library_shared", "library_static"] + ExampleNames(sources) + ["library_test"]
  }

  // ----- what each target holds -----

  /** Some entry of the list is a target with the given name. */
  predicate LinksTargetNamed(libs: seq<LinkLib>, name: string) {
    exists i | 0 <= i < |libs| :: libs[i].Lib? && libs[i].target.name == name
  }

  /**
   * The header-only library: the source directory as its include directory,
   * the toolchain's standards, the warning flags, and the backend's macro and
   * system libraries. On Windows linking mswebview2 may raise the standards
   * and bring further entries; elsewhere the lists hold exactly what is given.
   */
  ghost predicate IsHeaderLibrary(h: Target, info: WorkspaceInfo)
    reads h
  {
    var id := info.toolchain.id;
    var macro := BackendMacro(info.system);
    && h.name == "library_header" && h.kind == Interface
    && info.sourceDir in h.includeDirs.Get(External)
    && StandardOr0(h.standards, C) >= CStandard(id).standard
    && StandardOr0(h.standards, CXX) >= CxxStandard(info.system).standard
    && h.warningParams == WarningParams(id, info.system)
    && (macro.Some? ==> macro.value in h.definitions.values)
    && (info.system != Windows ==>
          && h.standards == map[C := CStandard(id).standard, CXX := CxxStandard(info.system).standard]
          && h.definitions.values == (if macro.Some? then map[macro.value := None] else map[])
          && h.linkLibs == Shared([]) && h.usesThreads == {})
    && (info.system == Darwin ==> h.frameworks.Get(External) == ["WebKit"])
    && (info.system == Linux ==> h.pkgconfigLibs.Get(External) == ["gtk+-3.0", "webkit2gtk-4.0"])
    && (info.system == Windows ==>
          && LinksTargetNamed(h.linkLibs.Get(External), "mswebview2")
          && (forall lib | lib in Win32Libraries :: lib in h.linkLibs.Get(External))
          && External in h.usesThreads)
  }

  /**
   * A library built from webview.cc: gated by the build_library option, with
   * its own output name, the header library linked in both scopes, the
   * header's external include directories in both scopes, the building macro
   * and its own public macro.
   */
  ghost predicate IsLibrary(t: Target, info: WorkspaceInfo, header: Target, name: string, kind: TargetType,
                            outputName: string, macro: string, condition: bool)
    reads t, header
  {
    && t.name == name && t.kind == kind
    && t.condition == condition
    && t.outputName == Some(outputName)
    && Lib(header) in t.linkLibs.Get(Internal) && Lib(header) in t.linkLibs.Get(External)
    && (forall s, x | x in header.includeDirs.Get(External) :: x in t.includeDirs.Get(s))
    && "WEBVIEW_BUILDING" in t.definitions.values && macro in t.definitions.values
    && t.sources == [NormalizedPath(info.sourceDir, "webview.cc")]
  }

  /**
   * An example program: gated by build_examples; a C++ example links the
   * header library, a C example the static library, and with MSVC a C
   * example also silences the warnings about strcat and sprintf.
   */
  ghost predicate IsExample(t: Target, info: WorkspaceInfo, header: Target, staticLib: Target,
                            fileType: FileType, source: string, condition: bool)
    reads t
  {
    && t.name == ExampleName(source) && t.kind == Exe
    && t.condition == condition
    && (fileType == CxxSource ==> Lib(header) in t.linkLibs.Get(Internal))
    && (fileType == CSource ==> Lib(staticLib) in t.linkLibs.Get(Internal))
    && (fileType !in {CSource, CxxSource} ==> t.linkLibs == Shared([]))
    && t.sources == [NormalizedPath(info.sourceDir, Join(ExamplesDir(info), source))]
    && (info.toolchain.id == Msvc && fileType == CSource ==> "_CRT_SECURE_NO_WARNINGS" in t.definitions.values)
  }

  /** The test program: gated by build_tests, linking the header library, built from webview_test.cc. */
  ghost predicate IsTestProgram(t: Target, info: WorkspaceInfo, header: Target, condition: bool)
    reads t
  {
    && t.name == "library_test" && t.kind == Exe
    && t.condition == condition
    && Lib(header) in t.linkLibs.Get(Internal)
    && t.sources == [NormalizedPath(info.sourceDir, "webview_test.cc")]
  }

  // ----- what linking does here -----

  /** Merging nothing but named libraries changes nothing. */
  lemma {:induction false} MergeNothing(p: Props, views: seq<DepView>)
    requires forall i | 0 <= i < |views| :: views[i] == NotTarget
    ensures MergeAll(p, views) == p
    decreases |views|
  {
    if |views| > 0 {
      MergeNothing(p, views[..|views| - 1]);
    }
  }

  /** Linking named libraries only extends the link libraries of the listed scopes. */
  lemma LinkNamed(p: Props, scopes: seq<PropertyScope>, libs: seq<LinkLib>, views: seq<DepView>, s: PropertyScope)
    requires |libs| > 0
    requires forall i | 0 <= i < |views| :: views[i] == NotTarget
    ensures var q := LinkSpec(p, scopes, libs, views);
      && q == p.(linkLibs := q.linkLibs)
      && (forall x | x in p.linkLibs.Get(s) || (s in scopes && x in libs) :: x in q.linkLibs.Get(s))
  {
    MergeNothing(p.(linkLibs := AppendDedupEach(p.linkLibs, scopes, libs)), views);
    AppendDedupEachGet(p.linkLibs, scopes, libs, s);
    DedupElements(p.linkLibs.Get(s) + libs);
  }

  /** add_link_libraries with one other target amounts to one merge after the append. */
  lemma LinkOneTarget(p: Props, scopes: seq<PropertyScope>, t: Target, d: Props)
    ensures LinkSpec(p, scopes, [Lib(t)], [OtherTarget(d)]) == MergeDep(p.(linkLibs := AppendDedupEach(p.linkLibs, scopes, [Lib(t)])), d)
  {
    var p1 := p.(linkLibs := AppendDedupEach(p.linkLibs, scopes, [Lib(t)]));
    assert MergeAll(p1, [OtherTarget(d)]) == MergeOne(MergeAll(p1, []), OtherTarget(d));
  }

  /** Linking one other target lists it in the requested scopes and keeps every earlier entry. */
  lemma LinkTargetListed(p: Props, scopes: seq<PropertyScope>, t: Target, d: Props, s: PropertyScope)
    ensures var q := LinkSpec(p, scopes, [Lib(t)], [OtherTarget(d)]);
      && (s in scopes ==> Lib(t) in q.linkLibs.Get(s))
      && (forall x | x in p.linkLibs.Get(s) :: x in q.linkLibs.Get(s))
  {
    var listed := AppendDedupEach(p.linkLibs, scopes, [Lib(t)]);
    AppendedListed(p.linkLibs, scopes, [Lib(t)], s);
    LinkOneTarget(p, scopes, t, d);
    MergedLinkLibs(p.(linkLibs := listed), d, s);
  }

  /** The append step of add_link_libraries keeps every entry and lists the new ones in the requested scopes. */
  lemma AppendedListed<T>(x: Scoped<T>, scopes: seq<PropertyScope>, libs: seq<T>, s: PropertyScope)
    ensures forall y | y in x.Get(s) :: y in AppendDedupEach(x, scopes, libs).Get(s)
    ensures s in scopes ==> forall y | y in libs :: y in AppendDedupEach(x, scopes, libs).Get(s)
  {
    AppendDedupEachGet(x, scopes, libs, s);
    var all := x.Get(s) + libs;
    DedupElements(all);
  }

  /** A merge keeps every link library of the dependent. */
  lemma MergedLinkLibs(p: Props, d: Props, s: PropertyScope)
    ensures forall x | x in p.linkLibs.Get(s) :: x in MergeDep(p, d).linkLibs.Get(s)
  {
    var q := p.linkLibs.Get(s) + d.linkLibs.Get(External);
    assert MergeDep(p, d).linkLibs == MergeList(p.linkLibs, d.linkLibs.Get(External));
    assert MergeDep(p, d).linkLibs.Get(s) == Dedup(q);
    DedupElements(q);
  }

  /**
   * Linking one other target keeps every include directory and gains the
   * target's external ones, keeps every macro, and takes the larger of the
   * two standards.
   */
  lemma LinkTargetMerged(p: Props, scopes: seq<PropertyScope>, t: Target, d: Props, s: PropertyScope, l: Language)
    ensures var q := LinkSpec(p, scopes, [Lib(t)], [OtherTarget(d)]);
      && (forall x | x in p.includeDirs.Get(s) || x in d.includeDirs.Get(External) :: x in q.includeDirs.Get(s))
      && p.definitions.values.Keys <= q.definitions.values.Keys
      && StandardOr0(q.standards, l) == Max(StandardOr0(p.standards, l), StandardOr0(d.standards, l))
  {
    var p1 := p.(linkLibs := AppendDedupEach(p.linkLibs, scopes, [Lib(t)]));
    LinkOneTarget(p, scopes, t, d);
    MergeDepFacts(p1, d, s, l);
    SetDefsValues(p.definitions, d.definitions.Items());
  }

  // ----- names as register takes them -----

  lemma NamesOfSnoc(ts: seq<Target>, t: Target)
    ensures NamesOf(ts + [t]) == NamesOf(ts) + [t.name]
  {
    assert NamesOf(ts + [t])[..|ts|] == NamesOf(ts);
  }

  /** A name taken before step m makes the whole list of names clash. */
  lemma ClashAt(a: seq<string>, all: seq<string>, m: nat)
    requires m < |all| && all[m] in a + all[..m]
    ensures !NoDup(a + all)
  {
    var before := a + all[..m];
    var j :| 0 <= j < |before| && before[j] == all[m];
    assert (a + all)[j] == before[j];
    assert (a + all)[|a| + m] == all[m];
  }

  /** A fresh name keeps the names taken so far distinct. */
  lemma FreshAt(a: seq<string>, all: seq<string>, m: nat)
    requires m < |all| && NoDup(a + all[..m]) && all[m] !in a + all[..m]
    ensures NoDup(a + all[..m + 1])
  {
    assert a + all[..m + 1] == (a + all[..m]) + [all[m]];
  }

  /** One step of register's naming: the target list grows by the next name, or the name clashes. */
  lemma NameStep(ws: seq<Target>, a: seq<string>, all: seq<string>, m: nat, t: Target)
    requires m < |all| && NamesOf(ws) == a + all[..m] && NoDup(a + all[..m])
    requires t.name == all[m] && all[m] !in NamesOf(ws)
    ensures NamesOf(ws + [t]) == a + all[..m + 1] && NoDup(a + all[..m + 1])
  {
    NamesOfSnoc(ws, t);
    assert all[..m + 1] == all[..m] + [all[m]];
    FreshAt(a, all, m);
  }

  // ----- register, target by target -----

  /** A target as add_target returns it: no properties, no sources, the shared runtime. */
  ghost predicate Unconfigured(t: Target)
    reads t
  {
    && t.Snapshot() == Props(map[], Shared([]), Shared([]), Shared([]), Shared([]), Definitions.Empty, Shared([]), {})
    && t.sources == [] && t.runtimeLink == SharedRuntime
  }

  /**
   * The header-only library; raises for a taken name and, on Windows, when
   * mswebview2 is not registered. Here mswebview2 is looked up before the
   * header's properties are set, where register sets the include directory,
   * standards and warnings first; the outcome is the same, since the header
   * is registered by then either way and nothing is promised about it after
   * a failure.
   */
  method RegisterHeader(ws: Workspace) returns (r: Result<Target>)
    requires ws.Valid()
    modifies ws`targets
    ensures ws.Valid()
    ensures r.Ok? <==> "library_header" !in NamesOf(old(ws.targets)) &&
                       (ws.info.system == Windows ==> "mswebview2" in NamesOf(old(ws.targets)))
    ensures r.Ok? ==> fresh(r.value) && ws.targets == old(ws.targets) + [r.value] && IsHeaderLibrary(r.value, ws.info)
  {
    var added := ws.AddTarget(Interface, "library_header");
    if added.Err? {
      return Err(added.error);
    }
    var header := added.value;
    var webview2: Option<Target> := None;
    if ws.info.system == Windows {
      var found := ws.GetTarget("mswebview2");
      if found.Err? {
        return Err(found.error);
      }
      webview2 := Some(found.value);
    }
    ConfigureHeader(header, ws.info, webview2);
    r := Ok(header);
  }

  /** The header library's properties. */
  method ConfigureHeader(header: Target, info: WorkspaceInfo, webview2: Option<Target>)
    requires header.kind == Interface && header.name == "library_header" && Unconfigured(header)
    requires webview2.Some? <==> info.system == Windows
    requires webview2.Some? ==> webview2.value.name == "mswebview2"
    modifies header
    ensures IsHeaderLibrary(header, info)
  {
    header.AddIncludeDirs([info.sourceDir], None);
    assert header.includeDirs == Shared([info.sourceDir]);
    header.SetLanguageStandard(CStandard(info.toolchain.id));
    header.SetLanguageStandard(CxxStandard(info.system));
    var warnings := GetWarningParams(info.toolchain.id, info.system);
    header.SetWarningParams(warnings);
    ConfigureBackend(header, info, webview2);
  }

  /** The part of the header library that depends on the host system. */
  method ConfigureBackend(header: Target, info: WorkspaceInfo, webview2: Option<Target>)
    requires header.kind == Interface && header.name == "library_header"
    requires header.includeDirs == Shared([info.sourceDir])
    requires header.standards == map[C := CStandard(info.toolchain.id).standard, CXX := CxxStandard(info.system).standard]
    requires header.definitions == Definitions.Empty && header.linkLibs == Shared([]) && header.usesThreads == {}
    requires header.frameworks == Shared([]) && header.pkgconfigLibs == Shared([])
    requires header.warningParams == WarningParams(info.toolchain.id, info.system)
    requires webview2.Some? <==> info.system == Windows
    requires webview2.Some? ==> webview2.value.name == "mswebview2"
    modifies header`standards, header`pkgconfigLibs, header`includeDirs, header`libDirs, header`linkLibs,
             header`definitions, header`frameworks, header`usesThreads
    ensures IsHeaderLibrary(header, info)
  {
    match info.system {
      case Darwin => ConfigureCocoa(header, info);
      case Linux => ConfigureGtk(header, info);
      case Windows => ConfigureEdge(header, info, webview2.value);
      case OtherSystem(_) =>
    }
  }

  /** macOS: the Cocoa backend and the WebKit framework. */
  method ConfigureCocoa(header: Target, info: WorkspaceInfo)
    requires header.kind == Interface && header.name == "library_header"
    requires header.includeDirs == Shared([info.sourceDir])
    requires header.standards == map[C := CStandard(info.toolchain.id).standard, CXX := CxxStandard(info.system).standard]
    requires header.definitions == Definitions.Empty && header.linkLibs == Shared([]) && header.usesThreads == {}
    requires header.frameworks == Shared([]) && header.pkgconfigLibs == Shared([])
    requires header.warningParams == WarningParams(info.toolchain.id, info.system)
    requires info.system == Darwin
    modifies header`standards, header`pkgconfigLibs, header`includeDirs, header`libDirs, header`linkLibs,
             header`definitions, header`frameworks, header`usesThreads
    ensures IsHeaderLibrary(header, info)
  {
    header.AddDefinition("WEBVIEW_COCOA", None, None);
    header.AddMacosFrameworks(["WebKit"], None);
    assert header.frameworks == Shared(["WebKit"]);
  }

  /** Linux: the GTK backend and the GTK and WebKitGTK packages. */
  method ConfigureGtk(header: Target, info: WorkspaceInfo)
    requires header.kind == Interface && header.name == "library_header"
    requires header.includeDirs == Shared([info.sourceDir])
    requires header.standards == map[C := CStandard(info.toolchain.id).standard, CXX := CxxStandard(info.system).standard]
    requires header.definitions == Definitions.Empty && header.linkLibs == Shared([]) && header.usesThreads == {}
    requires header.frameworks == Shared([]) && header.pkgconfigLibs == Shared([])
    requires header.warningParams == WarningParams(info.toolchain.id, info.system)
    requires info.system == Linux
    modifies header`standards, header`pkgconfigLibs, header`includeDirs, header`libDirs, header`linkLibs,
             header`definitions, header`frameworks, header`usesThreads
    ensures IsHeaderLibrary(header, info)
  {
    header.AddDefinition("WEBVIEW_GTK", None, None);
    header.AddPkgconfigLibs(["gtk+-3.0", "webkit2gtk-4.0"], None);
    assert header.pkgconfigLibs == Shared(["gtk+-3.0", "webkit2gtk-4.0"]);
  }

  /** Windows: the Edge backend, mswebview2, the system libraries and threads. */
  method ConfigureEdge(header: Target, info: WorkspaceInfo, webview2: Target)
    requires header.kind == Interface && header.name == "library_header"
    requires header.includeDirs == Shared([info.sourceDir])
    requires header.standards == map[C := CStandard(info.toolchain.id).standard, CXX := CxxStandard(info.system).standard]
    requires header.definitions == Definitions.Empty && header.linkLibs == Shared([]) && header.usesThreads == {}
    requires header.frameworks == Shared([]) && header.pkgconfigLibs == Shared([])
    requires header.warningParams == WarningParams(info.toolchain.id, info.system)
    requires info.system == Windows && webview2.name == "mswebview2"
    modifies header`standards, header`pkgconfigLibs, header`includeDirs, header`libDirs, header`linkLibs,
             header`definitions, header`frameworks, header`usesThreads
    ensures IsHeaderLibrary(header, info)
  {
    header.AddDefinition("WEBVIEW_EDGE", None, None);
    LinkWebView2(header, webview2, info);
  }

  /** The Windows part of the header library: mswebview2, the system libraries and threads. */
  method LinkWebView2(header: Target, webview2: Target, info: WorkspaceInfo)
    requires header.kind == Interface && webview2.name == "mswebview2" && header.name == "library_header"
    requires info.sourceDir in header.includeDirs.Get(External)
    requires "WEBVIEW_EDGE" in header.definitions.values
    modifies header`standards, header`pkgconfigLibs, header`includeDirs, header`libDirs, header`linkLibs,
             header`definitions, header`frameworks, header`usesThreads
    ensures info.sourceDir in header.includeDirs.Get(External)
    ensures "WEBVIEW_EDGE" in header.definitions.values
    ensures forall l :: StandardOr0(header.standards, l) >= StandardOr0(old(header.standards), l)
    ensures Lib(webview2) in header.linkLibs.Get(External)
    ensures LinksTargetNamed(header.linkLibs.Get(External), "mswebview2")
    ensures forall lib | lib in Win32Libraries :: lib in header.linkLibs.Get(External)
    ensures External in header.usesThreads
  {
    LinkExternal(header, webview2);
    LinkNamedExternal(header, Win32Libraries);
    header.SetUsesThreads(None);
    var libs := header.linkLibs.Get(External);
    var i :| 0 <= i < |libs| && libs[i] == Lib(webview2);
  }

  /** add_link_libraries(lib) on an interface target, whose default scope is the external one. */
  method LinkExternal(t: Target, lib: Target)
    requires t != lib && t.kind == Interface
    modifies t`standards, t`pkgconfigLibs, t`includeDirs, t`libDirs, t`linkLibs,
             t`definitions, t`frameworks, t`usesThreads
    ensures Lib(lib) in t.linkLibs.Get(External)
    ensures forall x | x in old(t.includeDirs.Get(External)) :: x in t.includeDirs.Get(External)
    ensures old(t.definitions.values).Keys <= t.definitions.values.Keys
    ensures forall l :: StandardOr0(t.standards, l) >= StandardOr0(old(t.standards), l)
  {
    ghost var p0 := t.Snapshot();
    assert t.ViewsOf([Lib(lib)]) == [OtherTarget(lib.Snapshot())];
    t.AddLinkLibraries([Lib(lib)], None);
    forall l
      ensures StandardOr0(t.standards, l) >= StandardOr0(p0.standards, l)
    {
      LinkTargetMerged(p0, [External], lib, lib.Snapshot(), External, l);
    }
    LinkTargetMerged(p0, [External], lib, lib.Snapshot(), External, C);
    LinkTargetListed(p0, [External], lib, lib.Snapshot(), External);
  }

  /** add_link_libraries with library names only, on an interface target. */
  method LinkNamedExternal(t: Target, libs: seq<LinkLib>)
    requires t.kind == Interface && |libs| > 0
    requires forall i | 0 <= i < |libs| :: libs[i].Named?
    modifies t`standards, t`pkgconfigLibs, t`includeDirs, t`libDirs, t`linkLibs,
             t`definitions, t`frameworks, t`usesThreads
    ensures t.Snapshot() == old(t.Snapshot()).(linkLibs := t.linkLibs)
    ensures forall x | x in old(t.linkLibs.Get(External)) || x in libs :: x in t.linkLibs.Get(External)
  {
    ghost var p0 := t.Snapshot();
    ghost var views := t.ViewsOf(libs);
    t.AddLinkLibraries(libs, None);
    LinkNamed(p0, [External], libs, views, External);
  }

  /** library_shared or library_static: built from webview.cc and linking the header library publicly. */
  method RegisterLibrary(ws: Workspace, header: Target, kind: TargetType, name: string, outputName: string,
                         macro: string, condition: bool) returns (r: Result<Target>)
    requires ws.Valid()
    modifies ws`targets
    ensures ws.Valid()
    ensures r.Ok? <==> name !in NamesOf(old(ws.targets))
    ensures r.Ok? ==> fresh(r.value) && ws.targets == old(ws.targets) + [r.value] &&
                      IsLibrary(r.value, ws.info, header, name, kind, outputName, macro, condition) &&
                      r.value.runtimeLink == SharedRuntime
  {
    var added := ws.AddTarget(kind, name);
    if added.Err? {
      return Err(added.error);
    }
    ConfigureLibrary(added.value, ws.info, header, outputName, macro, condition);
    r := added;
  }

  /** A library's properties. */
  method ConfigureLibrary(library: Target, info: WorkspaceInfo, header: Target, outputName: string,
                          macro: string, condition: bool)
    requires library != header && Unconfigured(library) && library.workspace == info
    modifies library
    ensures IsLibrary(library, info, header, library.name, library.kind, outputName, macro, condition)
    ensures library.runtimeLink == SharedRuntime
  {
    library.SetCondition(condition);
    library.SetOutputName(outputName);
    LinkPublic(library, header);
    library.AddDefinition("WEBVIEW_BUILDING", None, None);
    library.AddDefinition(macro, None, Some(Public));
    AddSource(library, "webview.cc");
    assert library.condition == condition && library.outputName == Some(outputName);
    assert Lib(header) in library.linkLibs.Get(Internal) && Lib(header) in library.linkLibs.Get(External);
    assert forall s, x | x in header.includeDirs.Get(External) :: x in library.includeDirs.Get(s);
    assert "WEBVIEW_BUILDING" in library.definitions.values && macro in library.definitions.values;
  }

  /** One example program for a source found below the examples directory. */
  method RegisterExample(ws: Workspace, header: Target, staticLib: Target, fileType: FileType, source: string,
                         condition: bool) returns (r: Result<Target>)
    requires ws.Valid()
    modifies ws`targets
    ensures ws.Valid()
    ensures r.Ok? <==> ExampleName(source) !in NamesOf(old(ws.targets))
    ensures r.Ok? ==> fresh(r.value) && ws.targets == old(ws.targets) + [r.value] &&
                      IsExample(r.value, ws.info, header, staticLib, fileType, source, condition)
  {
    var added := ws.AddTarget(Exe, ExampleName(source));
    if added.Err? {
      return Err(added.error);
    }
    ConfigureExample(added.value, ws.info, header, staticLib, fileType, source, condition);
    r := added;
  }

  /** add_link_libraries(lib, scope=PUBLIC). */
  method LinkPublic(t: Target, lib: Target)
    requires t != lib
    modifies t`standards, t`pkgconfigLibs, t`includeDirs, t`libDirs, t`linkLibs,
             t`definitions, t`frameworks, t`usesThreads
    ensures Lib(lib) in t.linkLibs.Get(Internal) && Lib(lib) in t.linkLibs.Get(External)
    ensures forall s, x | x in lib.includeDirs.Get(External) :: x in t.includeDirs.Get(s)
  {
    ghost var p0 := t.Snapshot();
    assert t.ViewsOf([Lib(lib)]) == [OtherTarget(lib.Snapshot())];
    t.AddLinkLibraries([Lib(lib)], Some(Public));
    forall s, x | x in lib.includeDirs.Get(External)
      ensures x in t.includeDirs.Get(s)
    {
      LinkTargetMerged(p0, Public, lib, lib.Snapshot(), s, C);
    }
    LinkTargetListed(p0, Public, lib, lib.Snapshot(), Internal);
    LinkTargetListed(p0, Public, lib, lib.Snapshot(), External);
  }

  /** An example's properties. */
  method ConfigureExample(example: Target, info: WorkspaceInfo, header: Target, staticLib: Target,
                          fileType: FileType, source: string, condition: bool)
    requires example != header && example != staticLib && Unconfigured(example)
    requires example.kind == Exe && example.name == ExampleName(source) && example.workspace == info
    modifies example
    ensures IsExample(example, info, header, staticLib, fileType, source, condition)
  {
    example.SetCondition(condition);
    if fileType == CxxSource {
      LinkOne(example, header);
    } else if fileType == CSource {
      LinkOne(example, staticLib);
    }
    AddSource(example, Join(ExamplesDir(info), source));
    if info.toolchain.id == Msvc && fileType == CSource {
      example.AddDefinition("_CRT_SECURE_NO_WARNINGS", None, None);
    }
  }

  /** add_link_libraries(lib) with the default scope of a program, which is internal. */
  method LinkOne(t: Target, lib: Target)
    requires t.kind == Exe && t != lib
    modifies t`standards, t`pkgconfigLibs, t`includeDirs, t`libDirs, t`linkLibs,
             t`definitions, t`frameworks, t`usesThreads
    ensures Lib(lib) in t.linkLibs.Get(Internal)
  {
    ghost var p0 := t.Snapshot();
    assert t.ViewsOf([Lib(lib)]) == [OtherTarget(lib.Snapshot())];
    t.AddLinkLibraries([Lib(lib)], None);
    LinkTargetListed(p0, [Internal], lib, old(lib.Snapshot()), Internal);
  }

  /** add_sources with one file on a target that has none yet. */
  method AddSource(t: Target, source: string)
    requires t.sources == []
    modifies t`language, t`sources
    ensures t.sources == [NormalizedPath(t.workspace.sourceDir, source)]
  {
    t.AddSources([source]);
  }

  /** The library's test program. */
  method RegisterTest(ws: Workspace, header: Target, condition: bool) returns (r: Result<Target>)
    requires ws.Valid()
    modifies ws`targets
    ensures ws.Valid()
    ensures r.Ok? <==> "library_test" !in NamesOf(old(ws.targets))
    ensures r.Ok? ==> fresh(r.value) && ws.targets == old(ws.targets) + [r.value] &&
                      IsTestProgram(r.value, ws.info, header, condition)
  {
    var added := ws.AddTarget(Exe, "library_test");
    if added.Err? {
      return Err(added.error);
    }
    var test := added.value;
    test.SetCondition(condition);
    LinkOne(test, header);
    AddSource(test, "webview_test.cc");
    r := added;
  }

  // ----- register -----

  /** The targets register adds. */
  datatype Registered = Registered(header: Target, shared: Target, staticLib: Target, examples: seq<Target>, test: Target)

  /** The registered targets, in registration order. */
  function TargetsOf(g: Registered): seq<Target> {
    [g.header, g.shared, g.staticLib] + g.examples + [g.test]
  }

  /**
   * The header library, the shared library "webview" (with the static C
   * runtime on Windows) and the static library "webview_s", the last two
   * gated by build_library.
   */
  ghost predicate AreLibraries(header: Target, shared: Target, staticLib: Target, info: WorkspaceInfo, buildLibrary: bool)
    reads header, shared, staticLib
  {
    && IsHeaderLibrary(header, info)
    && IsLibrary(shared, info, header, "library_shared", SharedLibrary, "webview", "WEBVIEW_SHARED", buildLibrary)
    && shared.runtimeLink == (if info.system == Windows then StaticRuntime else SharedRuntime)
    && IsLibrary(staticLib, info, header, "library_static", StaticLibrary, "webview_s", "WEBVIEW_STATIC", buildLibrary)
  }

  /**
   * What each registered target holds: the header library, the shared library
   * "webview" (with the static C runtime on Windows), the static library
   * "webview_s", one program per example source in the order found, and the
   * test program; libraries, examples and the test are each gated by their
   * own option.
   */
  ghost predicate IsTargetGraph(g: Registered, info: WorkspaceInfo, sources: seq<(FileType, string)>,
                                buildLibrary: bool, buildExamples: bool, buildTests: bool)
    reads g.header, g.shared, g.staticLib, g.test, set t | t in g.examples
  {
    && AreLibraries(g.header, g.shared, g.staticLib, info, buildLibrary)
    && AreExamples(g.examples, info, g.header, g.staticLib, sources, buildExamples)
    && IsTestProgram(g.test, info, g.header, buildTests)
  }

  lemma DistinctNamesOf(ts: seq<Target>)
    requires DistinctNames(ts)
    ensures NoDup(NamesOf(ts))
  {
  }

  /**
   * register: adds the targets one by one and raises at the first name that
   * is taken, or on Windows when mswebview2 is not registered; the options'
   * values are parameters, read when register runs.
   */
  method Register(ws: Workspace, walk: seq<WalkDir>, buildLibrary: bool, buildExamples: bool, buildTests: bool)
    returns (r: Result<Registered>)
    requires ws.Valid()
    modifies ws`targets
    ensures ws.Valid()
    ensures r.Ok? <==> NoDup(NamesOf(old(ws.targets)) + RegisteredNames(ExampleSources(ws.info, walk))) &&
                       (ws.info.system == Windows ==> "mswebview2" in NamesOf(old(ws.targets)))
    ensures r.Ok? ==> ws.targets == old(ws.targets) + TargetsOf(r.value) &&
                      IsTargetGraph(r.value, ws.info, ExampleSources(ws.info, walk), buildLibrary, buildExamples, buildTests)
  {
    ghost var a := NamesOf(ws.targets);
    ghost var all := RegisteredNames(ExampleSources(ws.info, walk));
    RegisteredNamesAt(ExampleSources(ws.info, walk));
    var libs := RegisterLibraries(ws, buildLibrary, a, all);
    if libs.Err? {
      return Err(libs.error);
    }
    var (header, shared, staticLib) := libs.value;
    r := RegisterAfterLibraries(ws, walk, header, shared, staticLib, buildLibrary, buildExamples, buildTests, a, all);
    if r.Ok? {
      TargetsAppended(old(ws.targets), r.value);
    }
  }

  /** The examples and the test program, once the three libraries are in place. */
  method RegisterAfterLibraries(ws: Workspace, walk: seq<WalkDir>, header: Target, shared: Target, staticLib: Target,
                                buildLibrary: bool, buildExamples: bool, buildTests: bool,
                                ghost a: seq<string>, ghost all: seq<string>)
    returns (r: Result<Registered>)
    requires all == RegisteredNames(ExampleSources(ws.info, walk)) && |all| > 3
    requires ws.Valid() && NamesOf(ws.targets) == a + all[..3]
    requires AreLibraries(header, shared, staticLib, ws.info, buildLibrary)
    modifies ws`targets
    ensures ws.Valid()
    ensures r.Err? ==> !NoDup(a + all)
    ensures r.Ok? ==> && NoDup(a + all)
                      && r.value.header == header && r.value.shared == shared && r.value.staticLib == staticLib
                      && ws.targets == old(ws.targets) + r.value.examples + [r.value.test]
                      && IsTargetGraph(r.value, ws.info, ExampleSources(ws.info, walk), buildLibrary, buildExamples, buildTests)
  {
    ghost var sources := ExampleSources(ws.info, walk);
    RegisteredNamesAt(sources);
    var found := FindCLikeSourceFiles(walk, ExamplesDir(ws.info), false);
    assert found == sources;
    var programs := RegisterPrograms(ws, found, header, staticLib, buildExamples, buildTests, a, all);
    if programs.Err? {
      return Err(programs.error);
    }
    var (examples, test) := programs.value;
    assert AreLibraries(header, shared, staticLib, ws.info, buildLibrary);
    r := Ok(Registered(header, shared, staticLib, examples, test));
  }


  lemma TargetsAppended(ts: seq<Target>, g: Registered)
    ensures ts + TargetsOf(g) == ts + [g.header, g.shared, g.staticLib] + g.examples + [g.test]
  {
  }

  /** The example programs in the order found, then the test program, after the three libraries. */
  method RegisterPrograms(ws: Workspace, found: seq<(FileType, string)>, header: Target, staticLib: Target,
                          buildExamples: bool, buildTests: bool, ghost a: seq<string>, ghost all: seq<string>)
    returns (r: Result<(seq<Target>, Target)>)
    requires |all| == |found| + 4 && all[3 + |found|] == "library_test"
    requires ws.Valid() && NamesOf(ws.targets) == a + all[..3]
    requires forall i {:trigger found[i]} | 0 <= i < |found| :: NamedAt(all, 3 + i, found[i].1)
    modifies ws`targets
    ensures ws.Valid()
    ensures r.Err? ==> !NoDup(a + all)
    ensures r.Ok? ==> var (examples, test) := r.value;
      && NoDup(a + all) && ws.targets == old(ws.targets) + examples + [test]
      && AreExamples(examples, ws.info, header, staticLib, found, buildExamples)
      && IsTestProgram(test, ws.info, header, buildTests)
  {
    var examples := RegisterExamples(ws, header, staticLib, found, buildExamples, a, all, 3);
    if examples.Err? {
      return Err(examples.error);
    }
    var t := RegisterLastTest(ws, header, buildTests, a, all, 3 + |found|);
    if t.Err? {
      return Err(t.error);
    }
    r := Ok((examples.value, t.value));
  }

  /** The test program takes the last name. */
  method RegisterLastTest(ws: Workspace, header: Target, buildTests: bool, ghost a: seq<string>, ghost all: seq<string>,
                          ghost k: nat)
    returns (r: Result<Target>)
    requires ws.Valid() && k + 1 == |all| && all[k] == "library_test" && NamesOf(ws.targets) == a + all[..k]
    modifies ws`targets
    ensures ws.Valid()
    ensures r.Err? ==> !NoDup(a + all)
    ensures r.Ok? ==> NoDup(a + all) && ws.targets == old(ws.targets) + [r.value] &&
                      IsTestProgram(r.value, ws.info, header, buildTests)
  {
    ghost var before := ws.targets;
    ValidNoDup(before);
    r := RegisterTest(ws, header, buildTests);
    if r.Err? {
      ClashAt(a, all, k);
      return;
    }
    NameStep(before, a, all, k, r.value);
    TakeWhole(all, k + 1);
  }

  /** Where register's names come from: the three libraries, one name per example source, the test. */
  lemma RegisteredNamesAt(sources: seq<(FileType, string)>)
    ensures var all := RegisteredNames(sources);
      && |all| == |sources| + 4 && all[..3] == ["library_header", "library_shared", "library_static"]
      && all[3 + |sources|] == "library_test"
      && forall i {:trigger sources[i]} | 0 <= i < |sources| :: NamedAt(all, 3 + i, sources[i].1)
  {
    var all := RegisteredNames(sources);
    forall i | 0 <= i < |sources|
      ensures NamedAt(all, 3 + i, sources[i].1)
    {
      assert all[3 + i] == ExampleNames(sources)[i];
    }
  }


  /** The three library targets, with their names bookkept against the whole list of names. */
  method RegisterLibraries(ws: Workspace, buildLibrary: bool, ghost a: seq<string>, ghost all: seq<string>)
    returns (r: Result<(Target, Target, Target)>)
    requires ws.Valid() && a == NamesOf(ws.targets)
    requires |all| > 3 && all[..3] == ["library_header", "library_shared", "library_static"]
    modifies ws`targets
    ensures ws.Valid()
    ensures r.Err? ==> !NoDup(a + all) || (ws.info.system == Windows && "mswebview2" !in a)
    ensures r.Ok? ==> (ws.info.system == Windows ==> "mswebview2" in a)
    ensures r.Ok? ==> var (header, shared, staticLib) := r.value;
      && ws.targets == old(ws.targets) + [header, shared, staticLib]
      && NamesOf(ws.targets) == a + all[..3] && NoDup(a + all[..3])
      && AreLibraries(header, shared, staticLib, ws.info, buildLibrary)
  {
    DistinctNamesOf(ws.targets);
    assert all[..0] == [] && a + [] == a;
    assert all[0] == "library_header" && all[1] == "library_shared" && all[2] == "library_static";
    var h := RegisterHeader(ws);
    if h.Err? {
      if "library_header" in a {
        ClashAt(a, all, 0);
      }
      return Err(h.error);
    }
    var header := h.value;
    NameStep(old(ws.targets), a, all, 0, header);
    var built := RegisterBuiltLibraries(ws, header, buildLibrary, a, all);
    if built.Err? {
      return Err(built.error);
    }
    r := Ok((header, built.value.0, built.value.1));
  }

  /** The shared and the static library, after the header library. */
  method RegisterBuiltLibraries(ws: Workspace, header: Target, buildLibrary: bool, ghost a: seq<string>, ghost all: seq<string>)
    returns (r: Result<(Target, Target)>)
    requires |all| > 3 && all[1] == "library_shared" && all[2] == "library_static"
    requires ws.Valid() && NamesOf(ws.targets) == a + all[..1] && NoDup(a + all[..1])
    requires IsHeaderLibrary(header, ws.info)
    modifies ws`targets
    ensures ws.Valid()
    ensures r.Err? ==> !NoDup(a + all)
    ensures r.Ok? ==> var (shared, staticLib) := r.value;
      && ws.targets == old(ws.targets) + [shared, staticLib]
      && NamesOf(ws.targets) == a + all[..3] && NoDup(a + all[..3])
      && AreLibraries(header, shared, staticLib, ws.info, buildLibrary)
  {
    var s := RegisterLibrary(ws, header, SharedLibrary, "library_shared", "webview", "WEBVIEW_SHARED", buildLibrary);
    if s.Err? {
      ClashAt(a, all, 1);
      return Err(s.error);
    }
    var shared := s.value;
    NameStep(old(ws.targets), a, all, 1, shared);
    if ws.info.system == Windows {
      shared.SetRuntimeLink(StaticRuntime);
    }

    ghost var before := ws.targets;
    var st := RegisterLibrary(ws, header, StaticLibrary, "library_static", "webview_s", "WEBVIEW_STATIC", buildLibrary);
    if st.Err? {
      ClashAt(a, all, 2);
      return Err(st.error);
    }
    NameStep(before, a, all, 2, st.value);
    r := Ok((shared, st.value));
  }


  /** One example program per source, in order. */
  ghost predicate AreExamples(examples: seq<Target>, info: WorkspaceInfo, header: Target, staticLib: Target,
                              sources: seq<(FileType, string)>, condition: bool)
    reads set t | t in examples
    decreases |sources|
  {
    |examples| == |sources| &&
    (|sources| > 0 ==>
       var n := |sources| - 1;
       AreExamples(examples[..n], info, header, staticLib, sources[..n], condition) &&
       IsExample(examples[n], info, header, staticLib, sources[n].0, sources[n].1, condition))
  }

  /** Each example holds the facts of its own source. */
  lemma {:induction false} ExampleAt(examples: seq<Target>, info: WorkspaceInfo, header: Target, staticLib: Target,
                                     sources: seq<(FileType, string)>, condition: bool, j: nat)
    requires AreExamples(examples, info, header, staticLib, sources, condition) && j < |sources|
    ensures IsExample(examples[j], info, header, staticLib, sources[j].0, sources[j].1, condition)
    decreases |sources|
  {
    var n := |sources| - 1;
    if j < n {
      ExampleAt(examples[..n], info, header, staticLib, sources[..n], condition, j);
    }
  }

  lemma ExamplesSnoc(examples: seq<Target>, e: Target, info: WorkspaceInfo, header: Target, staticLib: Target,
                     sources: seq<(FileType, string)>, condition: bool)
    requires |sources| > 0
    requires AreExamples(examples, info, header, staticLib, sources[..|sources| - 1], condition)
    requires IsExample(e, info, header, staticLib, sources[|sources| - 1].0, sources[|sources| - 1].1, condition)
    ensures AreExamples(examples + [e], info, header, staticLib, sources, condition)
  {
    var n := |sources| - 1;
    var longer := examples + [e];
    assert longer[..n] == examples && longer[n] == e;
    assert AreExamples(longer[..n], info, header, staticLib, sources[..n], condition);
    assert IsExample(longer[n], info, header, staticLib, sources[n].0, sources[n].1, condition);
  }

  /** Targets with distinct names have a duplicate-free name list. */
  lemma ValidNoDup(ts: seq<Target>)
    requires DistinctNames(ts)
    ensures NoDup(NamesOf(ts))
  {
  }

  /** The k-th name register adds is the one of this example source. */
  predicate NamedAt(all: seq<string>, k: nat, source: string) {
    k < |all| && all[k] == ExampleName(source)
  }

  /** The next example program, or the clash that stops the loop. */
  method RegisterNextExample(ws: Workspace, header: Target, staticLib: Target, found: seq<(FileType, string)>, i: nat,
                             buildExamples: bool, ghost a: seq<string>, ghost all: seq<string>, ghost m: nat,
                             ghost base: seq<Target>, ghost examples: seq<Target>)
    returns (r: Result<Target>)
    requires ws.Valid() && ws.targets == base + examples
    requires i < |found| && NamedAt(all, m + i, found[i].1)
    requires NamesOf(ws.targets) == a + all[..m + i]
    requires AreExamples(examples, ws.info, header, staticLib, found[..i], buildExamples)
    modifies ws`targets
    ensures ws.Valid()
    ensures r.Err? ==> !NoDup(a + all)
    ensures r.Ok? ==> && ws.targets == base + (examples + [r.value])
                      && NamesOf(ws.targets) == a + all[..m + i + 1]
                      && AreExamples(examples + [r.value], ws.info, header, staticLib, found[..i + 1], buildExamples)
  {
    ghost var before := ws.targets;
    ValidNoDup(before);
    r := RegisterExample(ws, header, staticLib, found[i].0, found[i].1, buildExamples);
    if r.Err? {
      ClashAt(a, all, m + i);
      return;
    }
    NextExampleFacts(before, r.value, ws.info, header, staticLib, found, i, buildExamples, a, all, m, base, examples);
  }

  /** What one more example adds to the targets, their names and the examples registered so far. */
  lemma NextExampleFacts(before: seq<Target>, e: Target, info: WorkspaceInfo, header: Target, staticLib: Target,
                         found: seq<(FileType, string)>, i: nat, buildExamples: bool,
                         a: seq<string>, all: seq<string>, m: nat, base: seq<Target>, examples: seq<Target>)
    requires before == base + examples && NoDup(NamesOf(before))
    requires i < |found| && NamedAt(all, m + i, found[i].1)
    requires NamesOf(before) == a + all[..m + i]
    requires AreExamples(examples, info, header, staticLib, found[..i], buildExamples)
    requires ExampleName(found[i].1) !in NamesOf(before)
    requires IsExample(e, info, header, staticLib, found[i].0, found[i].1, buildExamples)
    ensures before + [e] == base + (examples + [e])
    ensures NamesOf(before + [e]) == a + all[..m + i + 1]
    ensures AreExamples(examples + [e], info, header, staticLib, found[..i + 1], buildExamples)
  {
    NameStep(before, a, all, m + i, e);
    AppendSnoc(base, examples, e);
    assert found[..i + 1][..i] == found[..i] && found[..i + 1][i] == found[i];
    ExamplesSnoc(examples, e, info, header, staticLib, found[..i + 1], buildExamples);
  }

  /** One example program per source, in the order found, stopping at the first name that is taken. */
  method RegisterExamples(ws: Workspace, header: Target, staticLib: Target, found: seq<(FileType, string)>,
                          buildExamples: bool, ghost a: seq<string>, ghost all: seq<string>, ghost m: nat)
    returns (r: Result<seq<Target>>)
    requires ws.Valid()
    requires m + |found| <= |all| && forall i {:trigger found[i]} | 0 <= i < |found| :: NamedAt(all, m + i, found[i].1)
    requires NamesOf(ws.targets) == a + all[..m]
    modifies ws`targets
    ensures ws.Valid()
    ensures r.Err? ==> !NoDup(a + all)
    ensures r.Ok? ==> && ws.targets == old(ws.targets) + r.value
                      && NamesOf(ws.targets) == a + all[..m + |found|]
                      && AreExamples(r.value, ws.info, header, staticLib, found, buildExamples)
  {
    var examples: seq<Target> := [];
    for i := 0 to |found|
      invariant ws.Valid()
      invariant ws.targets == old(ws.targets) + examples
      invariant NamesOf(ws.targets) == a + all[..m + i]
      invariant AreExamples(examples, ws.info, header, staticLib, found[..i], buildExamples)
    {
      var e := RegisterNextExample(ws, header, staticLib, found, i, buildExamples, a, all, m, old(ws.targets), examples);
      if e.Err? {
        return Err(e.error);
      }
      examples := examples + [e.value];
    }
    TakeWhole(found, |found|);
    r := Ok(examples);
  }


}
