/**
 * The build vocabulary of script/internal/build.py: languages
 * and their standards, build types, file types with their extension and
 * language tables, and the source-file search over a directory walk.
 */
module BuildDefs {
  import opened Wrappers
  import opened Text
  import opened Paths
  import opened SeqUtil

  datatype Language = C | CLike | CXX | Go

  /** The members of Language in declaration order, as `for language in Language` visits them. */
  const AllLanguages: seq<Language> := [C, CLike, CXX, Go]

  lemma AllLanguagesComplete(l: Language)
    ensures l in AllLanguages
  {
  }

  /** A language together with a yyyymm standard number. */
  datatype LanguageStandard = LanguageStandard(language: Language, standard: int)

  const C99 := LanguageStandard(C, 199901)
  const C11 := LanguageStandard(C, 201112)
  const C17 := LanguageStandard(C, 201710)
  const CXX11 := LanguageStandard(CXX, 201103)
  const CXX14 := LanguageStandard(CXX, 201402)
  const CXX17 := LanguageStandard(CXX, 201703)
  const CXX20 := LanguageStandard(CXX, 202002)

  datatype RuntimeLinkMethod = StaticRuntime | SharedRuntime

  datatype BuildType = Debug | Release

  datatype FileType = Unknown | CLikeHeader | CSource | CxxHeader | CxxSource | GoSource

  /** file_ext_to_file_type_mapping. */
  const ExtensionTypes: map<string, FileType> :=
    map[".h" := CLikeHeader, ".hpp" := CxxHeader, ".hxx" := CxxHeader, ".c" := CSource,
        ".cc" := CxxSource, ".cpp" := CxxSource, ".cxx" := CxxSource, ".go" := GoSource]

  /** file_ext_to_file_type_mapping.get(ext). */
  function FileTypeOfExtension(ext: string): (r: Option<FileType>)
    ensures r != Some(Unknown)
  {
    if ext in ExtensionTypes then Some(ExtensionTypes[ext]) else None
  }

  /** Exactly the eight listed extensions have a file type. */
  lemma ExtensionTable(ext: string)
    ensures FileTypeOfExtension(ext).Some? <==> ext in [".h", ".hpp", ".hxx", ".c", ".cc", ".cpp", ".cxx", ".go"]
  {
  }

  /** get_language_from_file_type: a lookup in file_type_to_language_mapping, which has no entry for UNKNOWN. */
  function LanguageOfFileType(ft: FileType): (r: Result<Language>)
    ensures r.Err? <==> ft == Unknown
    ensures ft in {CSource} ==> r == Ok(C)
    ensures ft in {CxxHeader, CxxSource} ==> r == Ok(CXX)
  {
    match ft
    case Unknown => Err("KeyError: FileType.UNKNOWN")
    case CLikeHeader => Ok(CLike)
    case CSource => Ok(C)
    case CxxHeader => Ok(CXX)
    case CxxSource => Ok(CXX)
    case GoSource => Ok(Go)
  }

  /** Every file type the extension table produces has a language. */
  lemma ExtensionTypesHaveLanguage(ext: string)
    requires FileTypeOfExtension(ext).Some?
    ensures LanguageOfFileType(FileTypeOfExtension(ext).value).Ok?
  {
  }

  /** One directory of an os.walk: its path and the names of the files in it, in walk order. */
  datatype WalkDir = WalkDir(root: string, files: seq<string>)

  /** The (root, file) pairs of a walk, directory by directory, in walk order. */
  function WalkFiles(walk: seq<WalkDir>): (r: seq<(string, string)>)
    decreases |walk|
  {
    if |walk| == 0 then [] else DirFiles(walk[0]) + WalkFiles(walk[1..])
  }

  /** The (root, file) pairs of one walked directory. */
  function DirFiles(d: WalkDir): seq<(string, string)> {
    seq(|d.files|, k requires 0 <= k < |d.files| => (d.root, d.files[k]))
  }

  lemma {:induction false} WalkFilesAppend(walk: seq<WalkDir>, d: WalkDir)
    ensures WalkFiles(walk + [d]) == WalkFiles(walk) + DirFiles(d)
    decreases |walk|
  {
    if |walk| == 0 {
      assert walk + [d] == [d];
    } else {
      assert (walk + [d])[1..] == walk[1..] + [d];
      WalkFilesAppend(walk[1..], d);
    }
  }

  lemma {:induction false} WalkFilesMembership(walk: seq<WalkDir>, pair: (string, string))
    ensures pair in WalkFiles(walk) <==> exists d | d in walk :: d.root == pair.0 && pair.1 in d.files
    decreases |walk|
  {
    if |walk| > 0 {
      WalkFilesMembership(walk[1..], pair);
      assert walk == [walk[0]] + walk[1..];
      var ds := DirFiles(walk[0]);
      assert pair in ds <==> walk[0].root == pair.0 && pair.1 in walk[0].files by {
        if pair in ds {
          var k :| 0 <= k < |ds| && ds[k] == pair;
        }
        if walk[0].root == pair.0 && pair.1 in walk[0].files {
          var k :| 0 <= k < |walk[0].files| && walk[0].files[k] == pair.1;
          assert ds[k] == pair;
        }
      }
    }
  }

  /** The file type find_sources gives a file name, if it keeps it: its lower-cased extension's type, when requested. */
  function KeptType(file: string, fileTypes: seq<FileType>): (r: Option<FileType>)
    ensures r.Some? ==> r.value in fileTypes
  {
    var ft := FileTypeOfExtension(Lower(Extension(file)));
    if ft.Some? && ft.value in fileTypes then ft else None
  }

  /** The entry find_sources appends for file `rf.1` of directory `rf.0`, if any. */
  function SourceItem(fileTypes: seq<FileType>, base: string, rf: (string, string)): (r: Option<(FileType, string)>)
    ensures r.Some? <==> KeptType(rf.1, fileTypes).Some?
    ensures r.Some? ==> r.value == (KeptType(rf.1, fileTypes).value, RelPath(Join(rf.0, rf.1), base))
  {
    var ft := KeptType(rf.1, fileTypes);
    if ft.Some? then Some((ft.value, RelPath(Join(rf.0, rf.1), base))) else None
  }

  /** The entries the inner loop of find_sources appends for the first files of a directory, in order. */
  function ScanEntries(root: string, files: seq<string>, fileTypes: seq<FileType>, base: string): seq<(FileType, string)>
    decreases |files|
  {
    if |files| == 0 then []
    else
      var entry := SourceItem(fileTypes, base, (root, files[|files| - 1]));
      ScanEntries(root, files[..|files| - 1], fileTypes, base) + (if entry.Some? then [entry.value] else [])
  }

  lemma ScanAppend(root: string, files: seq<string>, fileTypes: seq<FileType>, base: string, j: nat,
                    all0: seq<(FileType, string)>, all: seq<(FileType, string)>)
    requires j < |files|
    requires all == all0 + ScanEntries(root, files[..j], fileTypes, base)
    ensures var entry := SourceItem(fileTypes, base, (root, files[j]));
            (if entry.Some? then all + [entry.value] else all) == all0 + ScanEntries(root, files[..j + 1], fileTypes, base)
  {
    assert files[..j + 1][..j] == files[..j];
  }

  /** They are the kept entries of the directory. */
  lemma {:induction false} ScanEntriesKept(root: string, files: seq<string>, fileTypes: seq<FileType>, base: string)
    ensures ScanEntries(root, files, fileTypes, base) == FilterMap(DirFiles(WalkDir(root, files)), SourceItems(fileTypes, base))
    decreases |files|
  {
    if |files| == 0 {
      assert DirFiles(WalkDir(root, files)) == [];
    } else {
      var j := |files| - 1;
      var item := SourceItems(fileTypes, base);
      var x := (root, files[j]);
      ScanEntriesKept(root, files[..j], fileTypes, base);
      FilterMapSingle(x, item);
      DirFilesSnoc(root, files, j);
      FilterMapAppend(DirFiles(WalkDir(root, files[..j])), [x], item);
      assert files[..j + 1] == files;
    }
  }

  lemma FilterMapSingle(rf: (string, string), item: ((string, string)) -> Option<(FileType, string)>)
    ensures FilterMap([rf], item) == if item(rf).Some? then [item(rf).value] else []
  {
    assert [rf][1..] == [];
  }

  lemma DirFilesSnoc(root: string, files: seq<string>, j: nat)
    requires j < |files|
    ensures DirFiles(WalkDir(root, files[..j + 1])) == DirFiles(WalkDir(root, files[..j])) + [(root, files[j])]
  {
  }

  function SourceItems(fileTypes: seq<FileType>, base: string): ((string, string)) -> Option<(FileType, string)> {
    rf => SourceItem(fileTypes, base, rf)
  }

  /** find_sources over a given walk: the kept files of the walk, in walk order. */
  function FindSourcesSpec(walk: seq<WalkDir>, fileTypes: seq<FileType>, base: string): seq<(FileType, string)> {
    FilterMap(WalkFiles(walk), SourceItems(fileTypes, base))
  }

  /**
   * find_sources: walks the directories and, for every file whose lower-cased
   * extension maps to one of the requested types, appends (type, path relative
   * to relative_to, or to source_dir when that is None).
   */
  method FindSources(walk: seq<WalkDir>, sourceDir: string, fileTypes: seq<FileType>, relativeTo: Option<string>)
    returns (all: seq<(FileType, string)>)
    ensures all == FindSourcesSpec(walk, fileTypes, if relativeTo.None? then sourceDir else relativeTo.value)
  {
    var base := if relativeTo.None? then sourceDir else relativeTo.value;
    all := [];
    var i := 0;
    while i < |walk|
      invariant 0 <= i <= |walk|
      invariant all == FilterMap(WalkFiles(walk[..i]), SourceItems(fileTypes, base))
    {
      FindSourcesStep(walk, i, fileTypes, base);
      ScanEntriesKept(walk[i].root, walk[i].files, fileTypes, base);
      all := ScanDirectory(walk[i].root, walk[i].files, fileTypes, base, all);
      i := i + 1;
    }
    assert walk[..i] == walk;
  }

  lemma FindSourcesStep(walk: seq<WalkDir>, i: nat, fileTypes: seq<FileType>, base: string)
    requires i < |walk|
    ensures FilterMap(WalkFiles(walk[..i + 1]), SourceItems(fileTypes, base))
            == FilterMap(WalkFiles(walk[..i]), SourceItems(fileTypes, base))
               + FilterMap(DirFiles(WalkDir(walk[i].root, walk[i].files)), SourceItems(fileTypes, base))
  {
    WalkFilesAppend(walk[..i], walk[i]);
    FilterMapAppend(WalkFiles(walk[..i]), DirFiles(walk[i]), SourceItems(fileTypes, base));
    assert walk[..i + 1] == walk[..i] + [walk[i]];
  }

  /** The steps find_sources takes for one file of a walked directory. */
  method ScanFile(root: string, file: string, fileTypes: seq<FileType>, base: string) returns (entry: Option<(FileType, string)>)
    ensures entry == SourceItem(fileTypes, base, (root, file))
  {
    var ext := Extension(file);
    var ft := FileTypeOfExtension(Lower(ext));
    if ft.Some? && ft.value in fileTypes {
      entry := Some((ft.value, RelPath(Join(root, file), base)));
    } else {
      entry := None;
    }
  }

  /** The inner loop of find_sources: the files of one walked directory, appended to `all`. */
  method ScanDirectory(root: string, files: seq<string>, fileTypes: seq<FileType>, base: string, all0: seq<(FileType, string)>)
    returns (all: seq<(FileType, string)>)
    ensures all == all0 + ScanEntries(root, files, fileTypes, base)
  {
    all := all0;
    var j := 0;
    assert ScanEntries(root, files[..j], fileTypes, base) == [];
    while j < |files|
      invariant 0 <= j <= |files|
      invariant all == all0 + ScanEntries(root, files[..j], fileTypes, base)
    {
      var entry := ScanFile(root, files[j], fileTypes, base);
      ScanAppend(root, files, fileTypes, base, j, all0, all);
      if entry.Some? {
        all := all + [entry.value];
      }
      j := j + 1;
    }
    assert files[..j] == files;
  }

  /**
   * A walked file is reported exactly when its extension maps to a requested
   * type, and it is reported with that type and its relative path.
   */
  lemma FindSourcesMembership(walk: seq<WalkDir>, fileTypes: seq<FileType>, base: string, entry: (FileType, string))
    ensures entry in FindSourcesSpec(walk, fileTypes, base) <==>
            exists rf | rf in WalkFiles(walk) :: SourceItem(fileTypes, base, rf) == Some(entry)
  {
    FilterMapMembership(WalkFiles(walk), SourceItems(fileTypes, base), entry);
  }

  /** Every reported entry has one of the requested types. */
  lemma FindSourcesTypes(walk: seq<WalkDir>, fileTypes: seq<FileType>, base: string, entry: (FileType, string))
    requires entry in FindSourcesSpec(walk, fileTypes, base)
    ensures entry.0 in fileTypes
  {
    FindSourcesMembership(walk, fileTypes, base, entry);
    var rf :| rf in WalkFiles(walk) && SourceItem(fileTypes, base, rf) == Some(entry);
  }

  /** The file types find_c_like_source_files asks for. */
  function CLikeFileTypes(includeHeaders: bool): (r: seq<FileType>)
    ensures CSource in r && CxxSource in r
    ensures CLikeHeader in r <==> includeHeaders
    ensures CxxHeader in r <==> includeHeaders
    ensures Unknown !in r && GoSource !in r
  {
    [CSource, CxxSource] + (if includeHeaders then [CLikeHeader, CxxHeader] else [])
  }

  /** find_c_like_source_files: C and C++ sources below source_dir, and headers when asked for. */
  method FindCLikeSourceFiles(walk: seq<WalkDir>, sourceDir: string, includeHeaders: bool)
    returns (r: seq<(FileType, string)>)
    ensures r == FindSourcesSpec(walk, CLikeFileTypes(includeHeaders), sourceDir)
    ensures forall item | item in r ::
              item.0 in {CSource, CxxSource} || (includeHeaders && item.0 in {CLikeHeader, CxxHeader})
  {
    r := FindSources(walk, sourceDir, CLikeFileTypes(includeHeaders), None);
    forall item | item in r
      ensures item.0 in {CSource, CxxSource} || (includeHeaders && item.0 in {CLikeHeader, CxxHeader})
    {
      FindSourcesTypes(walk, CLikeFileTypes(includeHeaders), sourceDir, item);
    }
  }
}
