/**
 * The flag groups both concrete toolchains
 * (script/internal/toolchain/clang_like.py and gcc_like.py) build from a
 * target in the same way: definitions, include and library directories,
 * frameworks, the language standard, object file paths, pkg-config output,
 * and the three argument-list formats.
 */
module ToolchainFlags {
  import opened Wrappers
  import opened Text
  import opened Paths
  import opened BuildDefs
  import opened Definitions
  import opened Scoping
  import opened ToolchainCommon
  import opened Targets

  /** "-D" + key for a definition without value, "-Dkey=value" otherwise. */
  function DefinitionFlag(item: (string, Option<string>)): string {
    if item.1.None? then "-D" + item.0 else "-D" + item.0 + "=" + item.1.value
  }

  function DefinitionFlags(items: seq<(string, Option<string>)>): (r: seq<string>)
    ensures |r| == |items| && forall i | 0 <= i < |items| :: r[i] == DefinitionFlag(items[i])
  {
    seq(|items|, i requires 0 <= i < |items| => DefinitionFlag(items[i]))
  }

  /** `tuple(prefix + s for s in xs)`: the include (-I) and library directory (-L) flags. */
  function PrefixEach(prefix: string, xs: seq<string>): (r: seq<string>)
    ensures |r| == |xs| && forall i | 0 <= i < |xs| :: r[i] == prefix + xs[i]
  {
    seq(|xs|, i requires 0 <= i < |xs| => prefix + xs[i])
  }

  /** `for framework in frameworks: flags += ("-framework", framework)`. */
  function FrameworkFlags(frameworks: seq<string>): (r: seq<string>)
    ensures |r| == 2 * |frameworks|
    ensures forall i | 0 <= i < |frameworks| :: r[2 * i] == "-framework" && r[2 * i + 1] == frameworks[i]
    decreases |frameworks|
  {
    if |frameworks| == 0 then []
    else
      var n := |frameworks| - 1;
      var r := FrameworkFlags(frameworks[..n]) + ["-framework", frameworks[n]];
      assert forall i | 0 <= i < n :: frameworks[..n][i] == frameworks[i];
      r
  }

  /** The loop that appends the framework flags. */
  method AppendFrameworkFlags(flags0: seq<string>, frameworks: seq<string>) returns (flags: seq<string>)
    ensures flags == flags0 + FrameworkFlags(frameworks)
  {
    flags := flags0;
    for i := 0 to |frameworks|
      invariant flags == flags0 + FrameworkFlags(frameworks[..i])
    {
      assert frameworks[..i + 1][..i] == frameworks[..i];
      flags := flags + ["-framework", frameworks[i]];
    }
    assert frameworks[..|frameworks|] == frameworks;
  }

  /** The object file of a source: obj_dir / relpath(source, source_dir) + ".o". */
  function ObjectPath(objDir: string, sourceDir: string, source: string): string {
    Join(objDir, RelPath(source, sourceDir) + ".o")
  }

  function ObjectPaths(objDir: string, sourceDir: string, sources: seq<string>): (r: seq<string>)
    ensures |r| == |sources| && forall i | 0 <= i < |sources| :: r[i] == ObjectPath(objDir, sourceDir, sources[i])
  {
    seq(|sources|, i requires 0 <= i < |sources| => ObjectPath(objDir, sourceDir, sources[i]))
  }

  /** The object-files loop shared by the link and archive parameters. */
  method CollectObjectPaths(objDir: string, sourceDir: string, sources: seq<string>) returns (paths: seq<string>)
    ensures paths == ObjectPaths(objDir, sourceDir, sources)
  {
    paths := [];
    for i := 0 to |sources|
      invariant paths == ObjectPaths(objDir, sourceDir, sources[..i])
    {
      ObjectPathsSnoc(objDir, sourceDir, sources, i);
      paths := paths + [ObjectPath(objDir, sourceDir, sources[i])];
    }
    assert sources[..|sources|] == sources;
  }

  lemma ObjectPathsSnoc(objDir: string, sourceDir: string, sources: seq<string>, i: nat)
    requires i < |sources|
    ensures ObjectPaths(objDir, sourceDir, sources[..i + 1])
            == ObjectPaths(objDir, sourceDir, sources[..i]) + [ObjectPath(objDir, sourceDir, sources[i])]
  {
    assert sources[..i + 1] == sources[..i] + [sources[i]];
  }

  /** A source below an ordinary source directory gets its object file at the same relative place below obj_dir. */
  lemma ObjectPathBelow(objDir: string, sourceDir: string, rel: string)
    requires |sourceDir| > 0 && sourceDir[|sourceDir| - 1] != '/' && PlainRelative(rel)
    requires |objDir| > 0 && objDir[|objDir| - 1] != '/'
    ensures ObjectPath(objDir, sourceDir, Join(sourceDir, rel)) == objDir + "/" + rel + ".o"
  {
    RelPathOfJoin(sourceDir, rel);
  }

  /** The two digits of a yyyymm standard that name it: floor(standard / 100) % 100. */
  function StandardYear(standard: int): nat {
    (standard / 100) % 100
  }

  /**
   * The "-std=" flag: raises without a language; nothing when the target has
   * no standard for it; "c" or "c++" plus the year digits, and a TypeError
   * (None + str) for any other language.
   */
  function StandardFlags(language: Option<Language>, standard: Result<Option<int>>): (r: Result<seq<string>>)
    ensures standard.Err? ==> r.Err?
    ensures standard == Ok(None) ==> r == Ok([])
    ensures standard.Ok? && standard.value.Some? ==>
              (r.Ok? <==> language in {Some(C), Some(CXX)}) &&
              (r.Ok? ==> r.value == ["-std=" + (if language == Some(C) then "c" else "c++") + NatToString(StandardYear(standard.value.value))])
  {
    if standard.Err? then Err(standard.error)
    else if standard.value.None? then Ok([])
    else if language == Some(C) || language == Some(CXX) then
      Ok(["-std=" + (if language == Some(C) then "c" else "c++") + NatToString(StandardYear(standard.value.value))])
    else Err("TypeError: unsupported operand type(s) for +=: 'NoneType' and 'str'")
  }

  /** The usual standards give the usual flags. */
  lemma StandardFlagExamples()
    ensures StandardFlags(Some(C), Ok(Some(C99.standard))) == Ok(["-std=c99"])
    ensures StandardFlags(Some(C), Ok(Some(C11.standard))) == Ok(["-std=c11"])
    ensures StandardFlags(Some(CXX), Ok(Some(CXX11.standard))) == Ok(["-std=c++11"])
    ensures StandardFlags(Some(CXX), Ok(Some(CXX17.standard))) == Ok(["-std=c++17"])
  {
    assert StandardYear(C99.standard) == 99;
    assert NatToString(99) == [DigitChar(9), DigitChar(9)] == "99";
    assert StandardYear(C11.standard) == 11;
    assert NatToString(11) == [DigitChar(1), DigitChar(1)] == "11";
    assert StandardYear(CXX17.standard) == 17;
    assert NatToString(17) == [DigitChar(1), DigitChar(7)] == "17";
    assert "-std=" + "c" + "99" == "-std=c99" && "-std=" + "c" + "11" == "-std=c11";
    assert "-std=" + "c++" + "11" == "-std=c++11" && "-std=" + "c++" + "17" == "-std=c++17";
  }

  /** `output.strip().split(" ")` of one pkg-config call. */
  function PkgConfigFlags(output: string): (r: seq<string>)
    ensures |r| >= 1
  {
    Text.Split(Strip(output), ' ')
  }

  /** _format_archive_params: "rcs", the archive, then the objects. */
  function ArchiveArgs(p: ArchiveParams): (r: seq<string>)
    ensures |r| == 2 + |p.inputPaths| && r[..2] == ["rcs", p.outputPath] && r[2..] == p.inputPaths
  {
    ["rcs", p.outputPath] + p.inputPaths
  }

  /** _format_compile_params: the flags, then "-c -o output" when asked, then the input when asked. */
  function CompileArgs(p: CompileParams, addInput: bool, addOutput: bool): (r: seq<string>)
    ensures p.cflags <= r
    ensures |r| == |p.cflags| + (if addOutput then 3 else 0) + (if addInput then 1 else 0)
    ensures addOutput ==> r[|p.cflags|..|p.cflags| + 3] == ["-c", "-o", p.outputPath]
    ensures addInput ==> r[|r| - 1] == p.inputPath
  {
    p.cflags + (if addOutput then ["-c", "-o", p.outputPath] else []) + (if addInput then [p.inputPath] else [])
  }

  /** _format_link_params: "-o output", then the inputs, then the flags. */
  function LinkArgs(p: LinkParams): (r: seq<string>)
    ensures |r| == 2 + |p.inputPaths| + |p.ldflags|
    ensures r[..2] == ["-o", p.outputPath] && r[2..2 + |p.inputPaths|] == p.inputPaths && r[2 + |p.inputPaths|..] == p.ldflags
  {
    ["-o", p.outputPath] + p.inputPaths + p.ldflags
  }

  /** The kinds that are linked against libraries: executables and shared libraries. */
  predicate LinksLibraries(t: Target) {
    t.kind in {TargetTypes.Exe, TargetTypes.SharedLibrary}
  }

  /** pkg-config is consulted on Linux when the target lists packages in its internal scope. */
  predicate UsesPkgConfig(t: Target, system: Platform.System)
    reads t`pkgconfigLibs
  {
    system == Platform.Linux && |t.PkgconfigLibs(Internal)| > 0
  }

  /**
   * What the link loop looks at in one link library: a plain name, an object
   * file target (its output file), a shared or static library target (its
   * lib dir, link name, output file and language), or another kind of
   * target, which the loop passes over.
   */
  datatype LinkedLib =
    | ByName(name: string)
    | ObjectFile(path: string)
    | Library(isStatic: bool, language: Option<Language>, libDir: string, linkName: string, path: string)
    | NotLinkable

  /** The targets among a list of link libraries. */
  function LibObjects(libs: seq<LinkLib>): set<Target> {
    set i | 0 <= i < |libs| && libs[i].Lib? :: libs[i].target
  }

  function LinkedLibOf(lib: LinkLib): (r: LinkedLib)
    reads if lib.Lib? then {lib.target} else {}
    ensures lib.Named? <==> r.ByName?
    ensures lib.Lib? ==> (r.ObjectFile? <==> lib.target.kind == TargetTypes.Object)
    ensures lib.Lib? ==> (r.Library? <==> lib.target.kind in {TargetTypes.SharedLibrary, TargetTypes.StaticLibrary})
  {
    match lib
    case Named(n) => ByName(n)
    case Lib(l) =>
      if l.kind == TargetTypes.Object then ObjectFile(l.OutputFilePath().value)
      else if l.kind == TargetTypes.SharedLibrary || l.kind == TargetTypes.StaticLibrary then
        Library(l.kind == TargetTypes.StaticLibrary, l.language, l.LibDir(), l.LinkOutputName(), l.OutputFilePath().value)
      else NotLinkable
  }

  function LinkedLibs(libs: seq<LinkLib>): (r: seq<LinkedLib>)
    reads LibObjects(libs)
    ensures |r| == |libs|
  {
    seq(|libs|, i requires 0 <= i < |libs| reads LibObjects(libs) => LinkedLibOf(libs[i]))
  }
}
