/** The kinds of build target (script/internal/target.py). */
module TargetTypes {

  datatype TargetType = Exe | Interface | Object | SharedLibrary | StaticLibrary
}

/**
 * The toolchain description shared by every toolchain
 * (script/internal/toolchain/common.py): its id, architecture and binaries,
 * the parameter records the params methods fill in, and the output file
 * name prefix and extension tables.
 */
module ToolchainCommon {
  import opened Wrappers
  import opened Platform
  import opened Arches
  import opened TargetTypes

  datatype ToolchainId = Clang | Gcc | Msvc

  /** ToolchainBinaries: the archiver and the two compiler drivers, each possibly absent. */
  datatype Binaries = Binaries(ar: Option<string>, cc: Option<string>, cxx: Option<string>)

  /**
   * The concrete toolchain class: ClangLikeToolchain, or GccLikeToolchain with
   * its optional target triplet.
   */
  datatype Variant = ClangLikeVariant | GccLikeVariant(triplet: Option<string>)

  datatype Toolchain = Toolchain(id: ToolchainId, arch: Arch, binaries: Binaries, variant: Variant) {

    /** get_file_name_prefix: both concrete toolchains name libraries "lib<name>". */
    function FileNamePrefix(kind: TargetType): (r: string)
      ensures r == "lib" <==> kind in {SharedLibrary, StaticLibrary}
      ensures r == "" <==> kind !in {SharedLibrary, StaticLibrary}
    {
      if kind == SharedLibrary || kind == StaticLibrary then "lib" else ""
    }

    /** get_file_name_extension of both concrete toolchains: object files and archives first, then the common table. */
    function FileNameExtension(kind: TargetType, system: System): (r: string)
      ensures kind == Object ==> r == ".o"
      ensures kind == StaticLibrary ==> r == ".a"
      ensures kind !in {Object, StaticLibrary} ==> r == BaseFileNameExtension(kind, system)
    {
      if kind == Object then ".o"
      else if kind == StaticLibrary then ".a"
      else BaseFileNameExtension(kind, system)
    }
  }

  /** Toolchain.get_file_name_extension: executables and shared libraries by host system. */
  function BaseFileNameExtension(kind: TargetType, system: System): (r: string)
    ensures kind == Exe ==> (r == ".exe" <==> system == Windows) && (r == "" <==> system != Windows)
    ensures kind == SharedLibrary && system == Linux ==> r == ".so"
    ensures kind == SharedLibrary && system == Darwin ==> r == ".dylib"
    ensures kind == SharedLibrary && system == Windows ==> r == ".dll"
    ensures kind == SharedLibrary && system.OtherSystem? ==> r == ""
    ensures kind !in {Exe, SharedLibrary} ==> r == ""
  {
    if kind == Exe then (if system == Windows then ".exe" else "")
    else if kind == SharedLibrary then
      (match system
       case Linux => ".so"
       case Darwin => ".dylib"
       case Windows => ".dll"
       case OtherSystem(_) => "")
    else ""
  }

  /** CompileParams: the flags, the source and the object file of one compile step. */
  datatype CompileParams = CompileParams(cflags: seq<string>, inputPath: string, outputPath: string)

  /** LinkParams: flags, inputs (object files and full library paths) and the output. */
  datatype LinkParams = LinkParams(ldflags: seq<string>, inputPaths: seq<string>, outputPath: string)

  /** ArchiveParams: the object files and the archive to create. */
  datatype ArchiveParams = ArchiveParams(inputPaths: seq<string>, outputPath: string)

  /**
   * A freshly constructed LinkParams: its flag and input lists are empty
   * (its output path is not set yet and is the given placeholder here).
   */
  function NewLinkParams(unset: string): (r: LinkParams)
    ensures r.ldflags == [] && r.inputPaths == []
  {
    LinkParams([], [], unset)
  }

  /** A freshly constructed CompileParams has no flags. */
  function NewCompileParams(unset: string): (r: CompileParams)
    ensures r.cflags == []
  {
    CompileParams([], unset, unset)
  }

  /** A freshly constructed ArchiveParams has no inputs. */
  function NewArchiveParams(unset: string): (r: ArchiveParams)
    ensures r.inputPaths == []
  {
    ArchiveParams([], unset)
  }
}
