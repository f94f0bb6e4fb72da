/**
 * A build target (script/internal/target.py): its per-scope property lists,
 * definitions, language standards and flags, the dependency merge of
 * add_link_libraries, and its output naming and directories.
 */
module Targets {
  import opened Wrappers
  import opened Paths
  import opened SeqUtil
  import opened Platform
  import opened BuildDefs
  import opened Scoping
  import opened Definitions
  import opened TargetTypes
  import opened ToolchainCommon
  import opened WorkspaceLayout

  /** A link library: a library name, or a target (compared by identity, as Target has no __eq__). */
  datatype LinkLib = Named(name: string) | Lib(target: Target)

  /** What add_link_libraries reads from a dependency and updates in the dependent. */
  datatype Props = Props(
    standards: map<Language, int>,
    pkgconfigLibs: Scoped<string>,
    includeDirs: Scoped<string>,
    libDirs: Scoped<string>,
    linkLibs: Scoped<LinkLib>,
    definitions: Defs,
    frameworks: Scoped<string>,
    usesThreads: set<PropertyScope>)

  /** A standard as the merge compares it: None counts as 0. */
  function StandardOr0(m: map<Language, int>, l: Language): int {
    if l in m then m[l] else 0
  }

  function Max(a: int, b: int): int {
    if a >= b then a else b
  }

  /** One language of the standards loop: a larger dependency standard replaces ours. */
  function MergeStandard(ours: map<Language, int>, theirs: map<Language, int>, l: Language): map<Language, int> {
    if StandardOr0(theirs, l) > StandardOr0(ours, l) then ours[l := StandardOr0(theirs, l)] else ours
  }

  /** The standards loop over the given languages, in order. */
  function MergeStandards(ours: map<Language, int>, theirs: map<Language, int>, langs: seq<Language>): map<Language, int>
    decreases |langs|
  {
    if |langs| == 0 then ours
    else MergeStandard(MergeStandards(ours, theirs, langs[..|langs| - 1]), theirs, langs[|langs| - 1])
  }

  /**
   * After the loop each visited language has the larger of the two standards
   * (None as 0), and is set exactly when ours was set or theirs was larger;
   * other languages are untouched.
   */
  lemma {:induction false} MergeStandardsMax(ours: map<Language, int>, theirs: map<Language, int>, langs: seq<Language>, l: Language)
    ensures var r := MergeStandards(ours, theirs, langs);
            StandardOr0(r, l) == (if l in langs then Max(StandardOr0(ours, l), StandardOr0(theirs, l)) else StandardOr0(ours, l)) &&
            (l in r <==> l in ours || (l in langs && StandardOr0(theirs, l) > StandardOr0(ours, l)))
    decreases |langs|
  {
    if |langs| > 0 {
      var prefix := langs[..|langs| - 1];
      MergeStandardsMax(ours, theirs, prefix, l);
      assert langs == prefix + [langs[|langs| - 1]];
    }
  }

  /** A target merged with itself keeps its standards. */
  lemma {:induction false} MergeStandardsSelf(s: map<Language, int>, langs: seq<Language>)
    ensures MergeStandards(s, s, langs) == s
    decreases |langs|
  {
    if |langs| > 0 {
      MergeStandardsSelf(s, langs[..|langs| - 1]);
    }
  }

  /** Two de-duplicating appends of the dependency's external list, internal scope first. */
  function MergeList<T(==)>(x: Scoped<T>, e: seq<T>): (r: Scoped<T>)
    ensures r.Split?
    ensures forall s :: r.Get(s) == Dedup(x.Get(s) + e)
  {
    var y := x.Assign(Internal, Dedup(x.Get(Internal) + e));
    assert y.Get(External) == x.Get(External);
    y.Assign(External, Dedup(y.Get(External) + e))
  }

  /** The dependency's threads flag, when set, turns on both of ours. */
  function MergeThreads(ours: set<PropertyScope>, theirs: set<PropertyScope>): set<PropertyScope> {
    if External in theirs then ours + {Internal, External} else ours
  }

  /** The body of add_link_libraries' loop for one Target-typed library whose state is d. */
  function MergeDep(p: Props, d: Props): Props {
    Props(
      MergeStandards(p.standards, d.standards, AllLanguages),
      MergeList(p.pkgconfigLibs, d.pkgconfigLibs.Get(External)),
      MergeList(p.includeDirs, d.includeDirs.Get(External)),
      MergeList(p.libDirs, d.libDirs.Get(External)),
      MergeList(p.linkLibs, d.linkLibs.Get(External)),
      SetDefs(p.definitions, d.definitions.Items()),
      MergeList(p.frameworks, d.frameworks.Get(External)),
      MergeThreads(p.usesThreads, d.usesThreads))
  }

  /**
   * What merging a dependency promises: the larger standard per language; in
   * both scopes, every list holds the old entries first, then the
   * dependency's external ones, each once; the dependency's definitions are
   * set; the threads flag spreads from the dependency's external scope and
   * is never cleared.
   */
  lemma MergeDepFacts(p: Props, d: Props, s: PropertyScope, l: Language)
    ensures var r := MergeDep(p, d);
            StandardOr0(r.standards, l) == Max(StandardOr0(p.standards, l), StandardOr0(d.standards, l)) &&
            Dedup(p.includeDirs.Get(s)) <= r.includeDirs.Get(s) && NoDup(r.includeDirs.Get(s)) &&
            (forall x :: x in r.includeDirs.Get(s) <==> x in p.includeDirs.Get(s) || x in d.includeDirs.Get(External)) &&
            (forall x :: x in r.libDirs.Get(s) <==> x in p.libDirs.Get(s) || x in d.libDirs.Get(External)) &&
            (forall x :: x in r.linkLibs.Get(s) <==> x in p.linkLibs.Get(s) || x in d.linkLibs.Get(External)) &&
            (forall x :: x in r.pkgconfigLibs.Get(s) <==> x in p.pkgconfigLibs.Get(s) || x in d.pkgconfigLibs.Get(External)) &&
            (forall x :: x in r.frameworks.Get(s) <==> x in p.frameworks.Get(s) || x in d.frameworks.Get(External)) &&
            r.definitions == SetDefs(p.definitions, d.definitions.Items()) &&
            p.usesThreads <= r.usesThreads &&
            (External in d.usesThreads ==> Internal in r.usesThreads && External in r.usesThreads)
  {
    AllLanguagesComplete(l);
    MergeStandardsMax(p.standards, d.standards, AllLanguages, l);
    DedupPrefix(p.includeDirs.Get(s), d.includeDirs.Get(External));
    DedupNoDup(p.includeDirs.Get(s) + d.includeDirs.Get(External));
    DedupElements(p.includeDirs.Get(s) + d.includeDirs.Get(External));
    DedupElements(p.libDirs.Get(s) + d.libDirs.Get(External));
    DedupElements(p.linkLibs.Get(s) + d.linkLibs.Get(External));
    DedupElements(p.pkgconfigLibs.Get(s) + d.pkgconfigLibs.Get(External));
    DedupElements(p.frameworks.Get(s) + d.frameworks.Get(External));
  }

  /** What the loop sees of one library: a name, the target itself, or another target's state. */
  datatype DepView = NotTarget | SelfTarget | OtherTarget(props: Props)

  function MergeOne(p: Props, v: DepView): Props {
    match v
    case NotTarget => p
    case SelfTarget => MergeDep(p, p)
    case OtherTarget(d) => MergeDep(p, d)
  }

  /** The loop over the libraries, in order. */
  function MergeAll(p: Props, views: seq<DepView>): Props
    decreases |views|
  {
    if |views| == 0 then p else MergeOne(MergeAll(p, views[..|views| - 1]), views[|views| - 1])
  }

  /** add_link_libraries as a whole: nothing for no libraries; otherwise the libraries, then the merges. */
  function LinkSpec(p: Props, scopes: seq<PropertyScope>, libs: seq<LinkLib>, views: seq<DepView>): Props {
    if |libs| == 0 then p
    else MergeAll(p.(linkLibs := AppendDedupEach(p.linkLibs, scopes, libs)), views)
  }

  /** The scope list a property method works on: the default scope when none is given. */
  function NormScope(defaultScope: PropertyScope, scope: Option<seq<PropertyScope>>): seq<PropertyScope> {
    if scope.None? then [defaultScope] else scope.value
  }

  /** os.path.normpath on every path (the identity on this model's paths). */
  function NormPaths(paths: seq<string>): (r: seq<string>)
    ensures |r| == |paths|
  {
    seq(|paths|, i requires 0 <= i < |paths| => NormPath(paths[i]))
  }

  /** `for s in scopes: d[s] += xs`, as a loop. */
  method ExtendScopes<T>(x: Scoped<T>, scopes: seq<PropertyScope>, xs: seq<T>) returns (r: Scoped<T>)
    ensures r == ExtendEach(x, scopes, xs)
  {
    r := x;
    for i := 0 to |scopes|
      invariant r == ExtendEach(x, scopes[..i], xs)
    {
      assert scopes[..i + 1][..i] == scopes[..i];
      r := r.Extend(scopes[i], xs);
    }
    assert scopes[..|scopes|] == scopes;
  }

  /** The language _detect_language_from_sources assigns to one file extension. */
  function ExtensionLanguage(ext: string): Option<Language> {
    if ext == ".c" then Some(C)
    else if ext == ".cc" || ext == ".cpp" || ext == ".cxx" then Some(CXX)
    else None
  }

  function SourceLanguage(source: string): Option<Language> {
    ExtensionLanguage(Extension(source))
  }

  /** The language of the first source whose extension is in the table, if any. */
  function DetectLanguage(sources: seq<string>): Option<Language> {
    FirstSome(sources, SourceLanguage)
  }

  /**
   * The detected language is that of the first source with a C or C++
   * extension, and there is none exactly when no source has one.
   */
  lemma DetectLanguageFirst(sources: seq<string>)
    ensures var r := DetectLanguage(sources);
            (r.Some? ==> exists i | 0 <= i < |sources| :: SourceLanguage(sources[i]) == r &&
                           forall j | 0 <= j < i :: SourceLanguage(sources[j]).None?) &&
            (r.None? ==> forall i | 0 <= i < |sources| :: SourceLanguage(sources[i]).None?)
  {
    FirstSomeSpec(sources, SourceLanguage);
  }

  /** _normalize_file_paths for one path: made absolute below the source directory. */
  function NormalizedPath(sourceDir: string, p: string): (r: string)
    ensures IsAbs(sourceDir) ==> IsAbs(r)
  {
    var q := NormPath(p);
    if IsAbs(q) then q else Join(sourceDir, q)
  }

  class Target {
    const kind: TargetType
    const name: string
    const workspace: WorkspaceInfo
    var language: Option<Language>
    var standards: map<Language, int>
    var includeDirs: Scoped<string>
    var libDirs: Scoped<string>
    var linkLibs: Scoped<LinkLib>
    var sources: seq<string>
    var definitions: Defs
    var frameworks: Scoped<string>
    var pkgconfigLibs: Scoped<string>
    var outputName: Option<string>
    var linkOutputName: Option<string>
    var enabled: bool
    var runtimeLink: RuntimeLinkMethod
    var buildType: Option<BuildType>
    var outputNamePrefix: Option<string>
    /** The value of the condition callable (register's conditions read options that do not change). */
    var condition: bool
    var binDir: Option<string>
    var libDir: Option<string>
    var objDir: Option<string>
    var usesThreads: set<PropertyScope>
    /** Warning flags and the GUI flag, which a later revision of the target class holds. */
    var warningParams: seq<string>
    var usingGui: bool

    /** Target.__init__: empty shared lists, no standards, no overrides, enabled, shared runtime. */
    constructor(workspace: WorkspaceInfo, kind: TargetType, name: string, language: Option<Language>)
      ensures this.workspace == workspace && this.kind == kind && this.name == name
      ensures this.language == language && standards == map[] && sources == []
      ensures includeDirs == Shared([]) && libDirs == Shared([]) && linkLibs == Shared([])
      ensures frameworks == Shared([]) && pkgconfigLibs == Shared([])
      ensures definitions == Definitions.Empty && usesThreads == {}
      ensures outputName.None? && linkOutputName.None? && outputNamePrefix.None? && buildType.None?
      ensures binDir.None? && libDir.None? && objDir.None?
      ensures enabled && condition && runtimeLink == SharedRuntime
      ensures warningParams == [] && !usingGui
    {
      this.workspace := workspace;
      this.kind := kind;
      this.name := name;
      this.language := language;
      standards := map[];
      includeDirs := Shared([]);
      libDirs := Shared([]);
      linkLibs := Shared([]);
      sources := [];
      definitions := Definitions.Empty;
      frameworks := Shared([]);
      pkgconfigLibs := Shared([]);
      outputName := None;
      linkOutputName := None;
      enabled := true;
      runtimeLink := SharedRuntime;
      buildType := None;
      outputNamePrefix := None;
      condition := true;
      binDir := None;
      libDir := None;
      objDir := None;
      usesThreads := {};
      warningParams := [];
      usingGui := false;
    }

    /** The default property scope: EXTERNAL for interface libraries, INTERNAL otherwise. */
    function DefaultScope(): (s: PropertyScope)
      ensures s == External <==> kind == Interface
    {
      if kind == Interface then External else Internal
    }

    /** _normalize_property_scope_list. */
    function NormalizeScope(scope: Option<seq<PropertyScope>>): (r: seq<PropertyScope>)
      ensures scope.None? ==> r == [DefaultScope()]
      ensures scope.Some? ==> r == scope.value
    {
      NormScope(DefaultScope(), scope)
    }

    /** The state add_link_libraries works on. */
    function Snapshot(): Props
      reads this`standards, this`pkgconfigLibs, this`includeDirs, this`libDirs, this`linkLibs,
            this`definitions, this`frameworks, this`usesThreads
    {
      Props(standards, pkgconfigLibs, includeDirs, libDirs, linkLibs, definitions, frameworks, usesThreads)
    }

    /** How this target's add_link_libraries sees one library. */
    function ViewOf(lib: LinkLib): DepView
      reads if lib.Lib? then {lib.target} else {}
    {
      match lib
      case Named(_) => NotTarget
      case Lib(t) => if t == this then SelfTarget else OtherTarget(t.Snapshot())
    }

    function ViewsOf(libs: seq<LinkLib>): (r: seq<DepView>)
      reads set i | 0 <= i < |libs| && libs[i].Lib? :: libs[i].target
      ensures |r| == |libs|
      ensures forall i | 0 <= i < |libs| :: r[i] == ViewOf(libs[i])
      decreases |libs|
    {
      if |libs| == 0 then [] else ViewsOf(libs[..|libs| - 1]) + [ViewOf(libs[|libs| - 1])]
    }

    // ----- language and standards -----

    method SetLanguage(language: Language, standard: Option<LanguageStandard>)
      modifies this`language, this`standards
      ensures this.language == Some(language)
      ensures standards == if standard.Some? then old(standards)[standard.value.language := standard.value.standard] else old(standards)
    {
      this.language := Some(language);
      if standard.Some? {
        SetLanguageStandard(standard.value);
      }
    }

    /** get_language_standard: for the given language, or the target's own; raises when there is neither. */
    function LanguageStandardOf(lang: Option<Language>): (r: Result<Option<int>>)
      reads this`language, this`standards
      ensures r.Err? <==> lang.None? && language.None?
      ensures r.Ok? ==> var l := if lang.Some? then lang.value else language.value;
                        r.value == (if l in standards then Some(standards[l]) else None)
    {
      var l := if lang.Some? then lang else language;
      if l.None? then Err("No language set")
      else Ok(if l.value in standards then Some(standards[l.value]) else None)
    }

    method SetLanguageStandard(standard: LanguageStandard)
      modifies this`standards
      ensures standards == old(standards)[standard.language := standard.standard]
    {
      standards := standards[standard.language := standard.standard];
    }

    // ----- scoped lists -----

    function IncludeDirs(scope: PropertyScope): seq<string>
      reads this`includeDirs
    {
      includeDirs.Get(scope)
    }

    method AddIncludeDirs(dirs: seq<string>, scope: Option<seq<PropertyScope>>)
      modifies this`includeDirs
      ensures includeDirs == ExtendEach(old(includeDirs), NormalizeScope(scope), NormPaths(dirs))
    {
      includeDirs := ExtendScopes(includeDirs, NormalizeScope(scope), NormPaths(dirs));
    }

    function LibraryDirs(scope: PropertyScope): seq<string>
      reads this`libDirs
    {
      libDirs.Get(scope)
    }

    method AddLibraryDirs(dirs: seq<string>, scope: Option<seq<PropertyScope>>)
      modifies this`libDirs
      ensures libDirs == ExtendEach(old(libDirs), NormalizeScope(scope), NormPaths(dirs))
    {
      libDirs := ExtendScopes(libDirs, NormalizeScope(scope), NormPaths(dirs));
    }

    /** get_link_libraries: the lists of the given scopes, one after the other. */
    function LinkLibraries(scope: Option<seq<PropertyScope>>): (r: seq<LinkLib>)
      reads this`linkLibs
      ensures r == GetAll(linkLibs, NormalizeScope(scope))
    {
      GetAll(linkLibs, NormalizeScope(scope))
    }

    function MacosFrameworks(scope: PropertyScope): seq<string>
      reads this`frameworks
    {
      frameworks.Get(scope)
    }

    method AddMacosFrameworks(names: seq<string>, scope: Option<seq<PropertyScope>>)
      modifies this`frameworks
      ensures frameworks == ExtendEach(old(frameworks), NormalizeScope(scope), names)
    {
      frameworks := ExtendScopes(frameworks, NormalizeScope(scope), names);
    }

    function PkgconfigLibs(scope: PropertyScope): seq<string>
      reads this`pkgconfigLibs
    {
      pkgconfigLibs.Get(scope)
    }

    method AddPkgconfigLibs(libs: seq<string>, scope: Option<seq<PropertyScope>>)
      modifies this`pkgconfigLibs
      ensures pkgconfigLibs == ExtendEach(old(pkgconfigLibs), NormalizeScope(scope), libs)
    {
      pkgconfigLibs := ExtendScopes(pkgconfigLibs, NormalizeScope(scope), libs);
    }

    // ----- definitions -----

    /** get_definitions: a copy of the one dict both scopes share. */
    function DefinitionsOf(scope: PropertyScope): seq<(string, Option<string>)>
      reads this`definitions
    {
      definitions.Items()
    }

    /** add_definition: sets the key once per listed scope, always in the same shared dict. */
    method AddDefinition(key: string, value: Option<string>, scope: Option<seq<PropertyScope>>)
      modifies this`definitions
      ensures definitions == if |NormalizeScope(scope)| == 0 then old(definitions) else SetDef(old(definitions), key, value)
    {
      var scopes := NormalizeScope(scope);
      for i := 0 to |scopes|
        invariant definitions == if i == 0 then old(definitions) else SetDef(old(definitions), key, value)
      {
        if i > 0 {
          SetDefTwice(old(definitions), key, value);
        }
        definitions := SetDef(definitions, key, value);
      }
    }

    // ----- sources -----

    function Sources(): seq<string>
      reads this`sources
    {
      sources
    }

    /** add_sources: normalizes the paths, detects the language when none is set, and appends. */
    method AddSources(newSources: seq<string>)
      modifies this`language, this`sources
      ensures sources == old(sources) + seq(|newSources|, i requires 0 <= i < |newSources| => NormalizedPath(workspace.sourceDir, newSources[i]))
      ensures language == if old(language).None? then DetectLanguage(sources[|old(sources)|..]) else old(language)
    {
      var normalized := NormalizeFilePaths(newSources);
      if language.None? {
        language := DetectLanguageFromSources(normalized);
      }
      sources := sources + normalized;
      assert sources[|old(sources)|..] == normalized;
    }

    /** _normalize_file_paths. */
    method NormalizeFilePaths(paths: seq<string>) returns (normalized: seq<string>)
      ensures normalized == seq(|paths|, i requires 0 <= i < |paths| => NormalizedPath(workspace.sourceDir, paths[i]))
    {
      normalized := [];
      for i := 0 to |paths|
        invariant normalized == seq(i, j requires 0 <= j < i => NormalizedPath(workspace.sourceDir, paths[j]))
      {
        var p := NormPath(paths[i]);
        normalized := normalized + [if IsAbs(p) then p else Join(workspace.sourceDir, p)];
      }
    }

    /** _detect_language_from_sources: the first source with a known extension decides. */
    method DetectLanguageFromSources(srcs: seq<string>) returns (found: Option<Language>)
      ensures found == DetectLanguage(srcs)
    {
      for i := 0 to |srcs|
        invariant DetectLanguage(srcs) == DetectLanguage(srcs[i..])
      {
        var ext := Extension(srcs[i]);
        var lang := ExtensionLanguage(ext);
        if lang.Some? {
          return lang;
        }
        assert srcs[i..][1..] == srcs[i + 1..];
      }
      found := None;
    }

    // ----- output naming and directories -----

    function OutputName(): (r: string)
      reads this`outputName
      ensures outputName.None? ==> r == name
    {
      if outputName.None? then name else outputName.value
    }

    method SetOutputName(n: string)
      modifies this`outputName
      ensures outputName == Some(n)
    {
      outputName := Some(n);
    }

    /** get_link_output_name: falls back to the output name, which falls back to the target name. */
    function LinkOutputName(): (r: string)
      reads this`linkOutputName, this`outputName
      ensures linkOutputName.None? ==> r == OutputName()
      ensures linkOutputName.None? && outputName.None? ==> r == name
    {
      if linkOutputName.None? then OutputName() else linkOutputName.value
    }

    method SetLinkOutputName(n: string)
      modifies this`linkOutputName
      ensures linkOutputName == Some(n)
    {
      linkOutputName := Some(n);
    }

    function BinDir(): (r: string)
      reads this`binDir
      ensures binDir.None? ==> r == workspace.BinDir()
    {
      if binDir.None? then workspace.BinDir() else binDir.value
    }

    method SetBinDir(dir: string)
      modifies this`binDir
      ensures binDir == Some(dir)
    {
      binDir := Some(dir);
    }

    function LibDir(): (r: string)
      reads this`libDir
      ensures libDir.None? ==> r == workspace.LibDir()
    {
      if libDir.None? then workspace.LibDir() else libDir.value
    }

    method SetLibDir(dir: string)
      modifies this`libDir
      ensures libDir == Some(dir)
    {
      libDir := Some(dir);
    }

    function ObjDir(): (r: string)
      reads this`objDir
      ensures objDir.None? ==> r == workspace.ObjDir(name)
    {
      if objDir.None? then workspace.ObjDir(name) else objDir.value
    }

    method SetObjDir(dir: string)
      modifies this`objDir
      ensures objDir == Some(dir)
    {
      objDir := Some(dir);
    }

    method SetEnabled(e: bool)
      modifies this`enabled
      ensures enabled == e
    {
      enabled := e;
    }

    method SetOutputNamePrefix(prefix: string)
      modifies this`outputNamePrefix
      ensures outputNamePrefix == Some(prefix)
    {
      outputNamePrefix := Some(prefix);
    }

    /** get_output_file_name: prefix + output name + extension, the toolchain filling in what is not given. */
    function OutputFileName(extension: Option<string>): (r: string)
      reads this`outputNamePrefix, this`outputName
      ensures var prefix := if outputNamePrefix.None? then workspace.toolchain.FileNamePrefix(kind) else outputNamePrefix.value;
              var ext := if extension.None? then workspace.toolchain.FileNameExtension(kind, workspace.system) else extension.value;
              r == prefix + OutputName() + ext
    {
      var prefix := if outputNamePrefix.None? then workspace.toolchain.FileNamePrefix(kind) else outputNamePrefix.value;
      var ext := if extension.None? then workspace.toolchain.FileNameExtension(kind, workspace.system) else extension.value;
      prefix + OutputName() + ext
    }

    /** get_output_dir: none for interface libraries, bin for executables, obj for object files, lib for libraries. */
    function OutputDir(): (r: Option<string>)
      reads this`binDir, this`libDir, this`objDir
      ensures r.None? <==> kind == Interface
      ensures kind == Exe ==> r == Some(BinDir())
      ensures kind == Object ==> r == Some(ObjDir())
      ensures kind in {SharedLibrary, StaticLibrary} ==> r == Some(LibDir())
    {
      match kind
      case Interface => None
      case Exe => Some(BinDir())
      case Object => Some(ObjDir())
      case SharedLibrary => Some(LibDir())
      case StaticLibrary => Some(LibDir())
    }

    /** get_output_file_path: os.path.join(None, ...) raises for an interface library. */
    function OutputFilePath(): (r: Result<string>)
      reads this`binDir, this`libDir, this`objDir, this`outputNamePrefix, this`outputName
      ensures r.Err? <==> kind == Interface
      ensures r.Ok? ==> r.value == Join(OutputDir().value, OutputFileName(None))
    {
      var dir := OutputDir();
      if dir.None? then Err("TypeError: expected str, bytes or os.PathLike object, not NoneType")
      else Ok(Join(dir.value, OutputFileName(None)))
    }

    method SetRuntimeLink(m: RuntimeLinkMethod)
      modifies this`runtimeLink
      ensures runtimeLink == m
    {
      runtimeLink := m;
    }

    /** get_build_type: the target's own, or the workspace's. */
    function BuildTypeOf(): (r: Option<BuildType>)
      reads this`buildType
      ensures buildType.None? ==> r == workspace.buildType
      ensures buildType.Some? ==> r == buildType
    {
      if buildType.None? then workspace.buildType else buildType
    }

    method SetBuildType(t: BuildType)
      modifies this`buildType
      ensures buildType == Some(t)
    {
      buildType := Some(t);
    }

    method SetCondition(c: bool)
      modifies this`condition
      ensures condition == c
    {
      condition := c;
    }

    function IsConditionMet(): bool
      reads this`condition
    {
      condition
    }

    function IsUsingThreads(scope: PropertyScope): bool
      reads this`usesThreads
    {
      scope in usesThreads
    }

    /** set_uses_threads: turns the flag on for each listed scope. */
    method SetUsesThreads(scope: Option<seq<PropertyScope>>)
      modifies this`usesThreads
      ensures forall s :: s in usesThreads <==> s in old(usesThreads) || s in NormalizeScope(scope)
    {
      var scopes := NormalizeScope(scope);
      for i := 0 to |scopes|
        invariant forall s :: s in usesThreads <==> s in old(usesThreads) || s in scopes[..i]
      {
        usesThreads := usesThreads + {scopes[i]};
      }
    }

    method SetWarningParams(params: seq<string>)
      modifies this`warningParams
      ensures warningParams == params
    {
      warningParams := params;
    }

    // ----- add_link_libraries -----

    /**
     * add_link_libraries: appends the libraries to each requested scope with
     * later duplicates dropped, then merges every Target-typed library's
     * external properties into both scopes.
     */
    method AddLinkLibraries(libs: seq<LinkLib>, scope: Option<seq<PropertyScope>>)
      modifies this`standards, this`pkgconfigLibs, this`includeDirs, this`libDirs, this`linkLibs,
               this`definitions, this`frameworks, this`usesThreads
      ensures Snapshot() == LinkSpec(old(Snapshot()), NormalizeScope(scope), libs, old(ViewsOf(libs)))
    {
      if |libs| == 0 {
        return;
      }
      ghost var views := ViewsOf(libs);
      AppendLinkLibs(NormalizeScope(scope), libs);
      MergeEach(libs, views);
    }

    /** The first loop of add_link_libraries: the libraries appended to each scope, later duplicates dropped. */
    method AppendLinkLibs(scopes: seq<PropertyScope>, libs: seq<LinkLib>)
      modifies this`linkLibs
      ensures linkLibs == AppendDedupEach(old(linkLibs), scopes, libs)
      ensures Snapshot() == old(Snapshot()).(linkLibs := linkLibs)
    {
      for i := 0 to |scopes|
        invariant linkLibs == AppendDedupEach(old(linkLibs), scopes[..i], libs)
        invariant Snapshot() == old(Snapshot()).(linkLibs := linkLibs)
      {
        assert scopes[..i + 1][..i] == scopes[..i];
        linkLibs := linkLibs.Assign(scopes[i], Dedup(linkLibs.Get(scopes[i]) + libs));
      }
      TakeWhole(scopes, |scopes|);
    }

    /** The second loop of add_link_libraries: each Target-typed library merged in turn. */
    method MergeEach(libs: seq<LinkLib>, ghost views: seq<DepView>)
      requires |views| == |libs| && forall k | 0 <= k < |libs| :: views[k] == ViewOf(libs[k])
      modifies this`standards, this`pkgconfigLibs, this`includeDirs, this`libDirs, this`linkLibs,
               this`definitions, this`frameworks, this`usesThreads
      ensures Snapshot() == MergeAll(old(Snapshot()), views)
    {
      for k := 0 to |libs|
        invariant Snapshot() == MergeAll(old(Snapshot()), views[..k])
      {
        assert views[..k + 1][..k] == views[..k];
        if libs[k].Lib? {
          var lib := libs[k].target;
          assert lib != this ==> views[k] == OtherTarget(lib.Snapshot());
          MergeFrom(lib);
        }
      }
      TakeWhole(views, |libs|);
    }

    /** The loop body of add_link_libraries for one Target-typed library. */
    method MergeFrom(lib: Target)
      modifies this`standards, this`pkgconfigLibs, this`includeDirs, this`libDirs, this`linkLibs,
               this`definitions, this`frameworks, this`usesThreads
      ensures Snapshot() == MergeDep(old(Snapshot()), old(lib.Snapshot()))
    {
      MergeStandardsFrom(lib);
      MergeListsFrom(lib);
      MergeDefinitionsFrom(lib);
      // Use threads if the library does.
      if External in lib.usesThreads {
        usesThreads := usesThreads + {Internal};
        usesThreads := usesThreads + {External};
      }
    }

    /** Takes the most recent language standard of the two, language by language. */
    method MergeStandardsFrom(lib: Target)
      modifies this`standards
      ensures standards == MergeStandards(old(standards), old(lib.standards), AllLanguages)
    {
      ghost var ours0, theirs0 := standards, lib.standards;
      for i := 0 to |AllLanguages|
        invariant standards == MergeStandards(ours0, theirs0, AllLanguages[..i])
        invariant lib.standards == theirs0
      {
        var language := AllLanguages[i];
        var ours := if language in standards then standards[language] else 0;
        var theirs := if language in lib.standards then lib.standards[language] else 0;
        assert AllLanguages[..i + 1][..i] == AllLanguages[..i];
        if theirs > ours {
          SetLanguageStandard(LanguageStandard(language, theirs));
        }
        if lib == this {
          MergeStandardsSelf(ours0, AllLanguages[..i + 1]);
        }
      }
      assert AllLanguages[..|AllLanguages|] == AllLanguages;
    }

    /** The five de-duplicating list merges: internal scope first, then external, from the library's external lists. */
    method MergeListsFrom(lib: Target)
      modifies this`pkgconfigLibs, this`includeDirs, this`libDirs, this`linkLibs, this`frameworks
      ensures pkgconfigLibs == MergeList(old(pkgconfigLibs), old(lib.pkgconfigLibs.Get(External)))
      ensures includeDirs == MergeList(old(includeDirs), old(lib.includeDirs.Get(External)))
      ensures libDirs == MergeList(old(libDirs), old(lib.libDirs.Get(External)))
      ensures linkLibs == MergeList(old(linkLibs), old(lib.linkLibs.Get(External)))
      ensures frameworks == MergeList(old(frameworks), old(lib.frameworks.Get(External)))
    {
      pkgconfigLibs := pkgconfigLibs.Assign(Internal, Dedup(pkgconfigLibs.Get(Internal) + lib.pkgconfigLibs.Get(External)));
      pkgconfigLibs := pkgconfigLibs.Assign(External, Dedup(pkgconfigLibs.Get(External) + lib.pkgconfigLibs.Get(External)));
      includeDirs := includeDirs.Assign(Internal, Dedup(includeDirs.Get(Internal) + lib.includeDirs.Get(External)));
      includeDirs := includeDirs.Assign(External, Dedup(includeDirs.Get(External) + lib.includeDirs.Get(External)));
      libDirs := libDirs.Assign(Internal, Dedup(libDirs.Get(Internal) + lib.libDirs.Get(External)));
      libDirs := libDirs.Assign(External, Dedup(libDirs.Get(External) + lib.libDirs.Get(External)));
      linkLibs := linkLibs.Assign(Internal, Dedup(linkLibs.Get(Internal) + lib.linkLibs.Get(External)));
      linkLibs := linkLibs.Assign(External, Dedup(linkLibs.Get(External) + lib.linkLibs.Get(External)));
      frameworks := frameworks.Assign(Internal, Dedup(frameworks.Get(Internal) + lib.frameworks.Get(External)));
      frameworks := frameworks.Assign(External, Dedup(frameworks.Get(External) + lib.frameworks.Get(External)));
    }

    /** Sets every definition of the library in the one dict both scopes share, once per scope. */
    method MergeDefinitionsFrom(lib: Target)
      modifies this`definitions
      ensures definitions == SetDefs(old(definitions), old(lib.definitions).Items())
    {
      var theirs := lib.definitions.Items();
      for i := 0 to |theirs|
        invariant definitions == SetDefs(old(definitions), theirs[..i])
      {
        assert theirs[..i + 1][..i] == theirs[..i];
        SetDefTwice(definitions, theirs[i].0, theirs[i].1);
        AddDefinition(theirs[i].0, theirs[i].1, Some([Internal]));
        AddDefinition(theirs[i].0, theirs[i].1, Some([External]));
      }
      assert theirs[..|theirs|] == theirs;
    }
  }

  /** With no libraries, add_link_libraries changes nothing. */
  lemma LinkNothing(p: Props, scopes: seq<PropertyScope>)
    ensures LinkSpec(p, scopes, [], []) == p
  {
  }

  /** After the first step, every requested scope lists old ++ libs without later duplicates; other scopes are kept. */
  lemma LinkLibsStep(p: Props, scopes: seq<PropertyScope>, libs: seq<LinkLib>, s: PropertyScope)
    requires |libs| > 0
    ensures var l := AppendDedupEach(p.linkLibs, scopes, libs).Get(s);
            l == (if s in scopes then Dedup(p.linkLibs.Get(s) + libs) else p.linkLibs.Get(s))
  {
    AppendDedupEachGet(p.linkLibs, scopes, libs, s);
  }

  /** Merging the same dependency state a second time changes nothing. */
  lemma MergeDepIdempotent(p: Props, d: Props)
    ensures MergeDep(MergeDep(p, d), d) == MergeDep(p, d)
  {
    MergeStandardsIdempotent(p.standards, d.standards, AllLanguages);
    MergeListIdempotent(p.pkgconfigLibs, d.pkgconfigLibs.Get(External));
    MergeListIdempotent(p.includeDirs, d.includeDirs.Get(External));
    MergeListIdempotent(p.libDirs, d.libDirs.Get(External));
    MergeListIdempotent(p.linkLibs, d.linkLibs.Get(External));
    MergeListIdempotent(p.frameworks, d.frameworks.Get(External));
    SetDefsIdempotent(p.definitions, d.definitions.Items());
  }

  lemma MergeListIdempotent<T>(x: Scoped<T>, e: seq<T>)
    ensures MergeList(MergeList(x, e), e) == MergeList(x, e)
  {
    DedupReappend(x.Get(Internal), e);
    DedupReappend(x.Get(External), e);
  }

  lemma MergeStandardsIdempotent(ours: map<Language, int>, theirs: map<Language, int>, langs: seq<Language>)
    ensures MergeStandards(MergeStandards(ours, theirs, langs), theirs, langs) == MergeStandards(ours, theirs, langs)
  {
    var once := MergeStandards(ours, theirs, langs);
    var twice := MergeStandards(once, theirs, langs);
    forall l
      ensures (l in twice <==> l in once) && (l in twice ==> twice[l] == once[l])
    {
      MergeStandardsMax(ours, theirs, langs, l);
      MergeStandardsMax(once, theirs, langs, l);
    }
  }

  /**
   * Linking the same unchanged target a second time leaves every list,
   * definition, standard and flag as the first link left it.
   */
  lemma LinkTwiceIdempotent(p: Props, scopes: seq<PropertyScope>, t: Target, d: Props)
    ensures var once := LinkSpec(p, scopes, [Lib(t)], [OtherTarget(d)]);
            LinkSpec(once, scopes, [Lib(t)], [OtherTarget(d)]) == once
  {
    var libs := [Lib(t)];
    var views := [OtherTarget(d)];
    var q := p.(linkLibs := AppendDedupEach(p.linkLibs, scopes, libs));
    var once := MergeDep(q, d);
    assert MergeAll(q, views) == MergeOne(MergeAll(q, views[..0]), views[0]);
    assert LinkSpec(p, scopes, libs, views) == once;
    // Re-adding the library to the requested scopes changes nothing: it is there already.
    var e := d.linkLibs.Get(External);
    forall s | s in scopes
      ensures Dedup(once.linkLibs.Get(s)) == once.linkLibs.Get(s) && Lib(t) in once.linkLibs.Get(s)
    {
      AppendDedupEachGet(p.linkLibs, scopes, libs, s);
      DedupElements(p.linkLibs.Get(s) + libs);
      DedupElements(q.linkLibs.Get(s) + e);
      DedupIdempotent(q.linkLibs.Get(s) + e);
    }
    AppendDedupEachPresent(once.linkLibs, scopes, libs);
    var q2 := once.(linkLibs := AppendDedupEach(once.linkLibs, scopes, libs));
    assert q2 == once;
    assert MergeAll(once, views) == MergeOne(MergeAll(once, views[..0]), views[0]);
    MergeDepIdempotent(q, d);
  }

  /** On a fresh target an add through either scope shows in both, until add_link_libraries separates them. */
  lemma SharedUntilAssigned<T>(items: seq<T>, scopes: seq<PropertyScope>, xs: seq<T>)
    ensures var r := ExtendEach(Shared(items), scopes, xs);
            r.Shared? && r.Get(Internal) == r.Get(External)
  {
    ExtendEachShared(items, scopes, xs);
  }
}
