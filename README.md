# webview build scripts and library logic, modelled in Dafny

This project models two parts of the webview repository.

**The Python build scripts** under `script/`. A build is described as a
*workspace* of *targets* (executables, shared and static libraries,
header-only libraries and interfaces). Each target carries *scoped*
properties. A property is private to the target, public (it also applies
to the target's dependants) or interface-only (it applies only to them).
The properties are include directories, definitions, link libraries,
standards, warnings, pkg-config packages and sources.

The model covers:
- targets and scoping;
- merging a target's properties with those of its dependencies;
- the workspace's dependency sort;
- GCC- and Clang-like toolchain detection and their compile and link flags;
- compile tasks and task batches;
- the registration of the library, examples and tests in `script/targets/main.py`;
- the command-line layer: command specifications from docstrings, option arguments and groups, shells, the CMake cache reader;
- Go version parsing and the Go names of architectures;
- the option pre-processing of `pre_process_options` in `script/build.py`: option implications, the check that cc and cxx come together, the native target architecture and the defaults taken from the environment.

**The platform-independent logic of `webview.h`:**
- `MAJOR.MINOR.PATCH` versions and their comparison;
- the create-options builder, validation and the compatibility step;
- the C API's error codes and the mapping of exceptions to them;
- the small JSON helpers `json_parse_c`, `json_unescape` and `json_parse`;
- the webview's binding registry and the scripts that `bind` and `unbind` hand to the browser engine;
- dispatch of a JavaScript message to its binding;
- the C functions' argument checks.

The browser engine is represented by the list of calls made into it. A
script is represented by what it does, not by its JavaScript text.

Integers are unbounded except where C's `unsigned int` matters (versions).
Strings from Python are `seq<char>`; strings in `webview.h` are byte
sequences.

Operations that update state in place become methods, with their whole new
state in `ensures`:
- the target, workspace and builder classes;
- `json_unescape`'s output buffer;
- the webview.

Where the source loops, the method is proved equal to a specification
function. The properties of that function are proved as lemmas.

## Model

| member | source | states |
|---|---|---|
| ArgGroups.LStrip | script/common.py:154 | str.lstrip for one character: the result is a suffix of the input, only that character is dropped, and the result does not start with it |
| ArgGroups.ParseOptionArg | script/common.py:152-157 | an option argument that is kept has a non-empty key |
| ArgGroups.ParseOptionArgMeaning | script/common.py:152-157 | an option is ignored exactly when its part before the first "=" is all dashes; a kept key holds no dash; its value is True exactly when there is no "=", and otherwise the text after the first "=" |
| ArgGroups.LStripEmpty | script/common.py:154-155 | stripping leaves nothing exactly when every character is the stripped one |
| ArgGroups.OptionArgRoundTrip | script/common.py:152-157 | "--key=value" reads back as (key, value) and "--key" as (key, True) |
| ArgGroups.Step | script/common.py:151-161 | after each argument the current command has a group |
| ArgGroups.GroupsOf | script/common.py:146-162 | after any arguments the current command has a group |
| ArgGroups.CreateArgGroups | script/common.py:146-162 | the loop returns the commands and groups of the left-to-right reading |
| ArgGroups.CommandsAreNonOptions | script/common.py:158-161 | the commands are exactly the arguments not starting with "-", in order, repeats included |
| ArgGroups.GroupPerCommand | script/common.py:149-160 | there is a group for no command and one per command, and no other |
| ArgGroups.OptionsJoinCurrentGroup | script/common.py:152-157 | a run of options goes into the current command's group and changes nothing else |
| ArgGroups.LeadingOptions | script/common.py:147-157 | options before the first command form the group of no command |
| ArgGroups.CommandThenOptions | script/common.py:158-161 | a command's group holds exactly the options that follow it; naming it again lists it again and restarts its group |
| CommandSpecs.SkipSuffix | script/common.py:63 | a greedy run of a character class of the parameter pattern leaves a suffix that does not start with a character of the class |
| CommandSpecs.SkipRun | script/common.py:63 | every character a greedy run passes over belongs to its class |
| CommandSpecs.MatchedName | script/common.py:63-67 | a matched parameter name is a non-empty run of word characters |
| CommandSpecs.MatchedText | script/common.py:63-67 | a matched description is the end of the line and does not start with white space |
| CommandSpecs.ParameterLineRoundTrip | script/common.py:63-67 | a line of bullets, spaces, a name, " -- " and a description reads back as that name and description |
| CommandSpecs.NoNameNoParameter | script/common.py:63-67 | a line with no word character after its bullets and spaces documents no parameter |
| CommandSpecs.DocLines | script/common.py:60 | there is one stripped line per line of the stripped docstring |
| CommandSpecs.DocstringOf | script/common.py:58-69 | parsing fails, with Python's IndexError message, exactly when the docstring is blank; otherwise the brief is not empty |
| CommandSpecs.FirstLineNotBlank | script/common.py:60-61 | stripped text that is not empty has a first line that is not blank |
| CommandSpecs.ParseCommandDocstring | script/common.py:58-69 | the loop over the lines returns the parse of the docstring |
| CommandSpecs.ParametersSnoc | script/common.py:64-68 | one more line adds its name and description when it matches the pattern, and changes nothing otherwise |
| CommandSpecs.ParameterNames | script/common.py:64-68 | the documented names are exactly the names on the matching lines |
| CommandSpecs.LastDescriptionWins | script/common.py:64-68 | a name documented twice keeps the description of its last line |
| CommandSpecs.CommandName | script/common.py:73 | a name exists exactly for a function named cmd_…; it holds no "_" and is four characters shorter |
| CommandSpecs.CommandNameRoundTrip | script/common.py:73 | the command name of cmd_rest is rest with "_" read as ":", and rest is recovered from it |
| CommandSpecs.CreateCommandSpecAsWritten | script/common.py:71-87 | a spec carries the command name of the function |
| CommandSpecs.MissingBriefUnreachable | script/common.py:74-76 | as written, the missing-brief error is never raised |
| CommandSpecs.EmptyDocstringAsWritten | script/common.py:58-76 | as written, an empty docstring raises IndexError instead of the missing-brief error |
| CommandSpecs.CreateCommandSpec | script/common.py:71-87 | a missing cmd_ prefix and a missing or blank docstring are reported; documented parameters that are not annotated parameters of the function are reported, exactly those; otherwise the spec has the command name, a non-empty help text, the documented options, all of them parameters |
| CommandSpecs.CreateCommandSpecAgrees | script/common.py:71-87 | where the intended version succeeds, the code as written gives the same spec |
| CmakeCache.SplitMany | script/common.py:231-232 | a line splits into two or more pieces exactly when it holds the separator |
| CmakeCache.ParseEntryAsWritten | script/common.py:231-232 | an entry fails, with Python's IndexError message, exactly when its stripped line holds no "=" |
| CmakeCache.ParseEntry | script/common.py:231-232 | an entry fails exactly when its stripped line holds no "="; otherwise the key is the stripped text before the ":" of the part before the first "=", and the value is the stripped text after that "=" |
| CmakeCache.LoadFails | script/common.py:227-234 | loading fails exactly when some entry line (not a comment, not blank) does not parse |
| CmakeCache.LoadLastWins | script/common.py:232-233 | a key's value is the one of the last entry line with that key |
| CmakeCache.LoadKeys | script/common.py:230-233 | every key comes from an entry line |
| CmakeCache.EntryRoundTrip | script/common.py:231-232 | a "KEY:TYPE=VALUE" line reads back as the key and the whole value |
| CmakeCache.ValueWithEqualsTruncated | script/common.py:231-232 | as written, a value that holds "=" is cut at its first "=" |
| CmakeCache.ValueWithEqualsKept | script/common.py:231-232 | read at the first "=", a value that holds "=" is kept whole |
| CmakeCache.LoadAgrees | script/common.py:227-234 | where no entry line holds a second "=", both readings load the same dictionary |
| CmakeCache.EntryAgrees | script/common.py:231-232 | where a line holds at most one "=", both readings of it agree |
| Shell.MakeShellVarName | script/common.py:247-253 | sh and PowerShell reference a variable as "${name}", cmd as "%name%" |
| Shell.MakeShellEnvVarName | script/common.py:255-257 | PowerShell prefixes the name with "Env:", the other shells use it as it is |
| Shell.EscapeShellString | script/common.py:259-266 | the chain of replacements puts the shell's mark (a backslash, the character itself, or a caret) before every character of that shell's escaped set and changes nothing else |
| Shell.EscapeOneCmd | script/common.py:264-265 | in cmd a caret, a double quote, a percent sign or an exclamation mark gets one caret, because the caret is replaced first |
| Shell.EscapeOneByRules | script/common.py:259-266 | one character through the chain of replacements gains the shell's mark exactly when it is in that shell's escaped set |
| Shell.EscapeByRules | script/common.py:259-266 | the chain of replacements on a whole string equals escaping character by character |
| Shell.EscapeRoundTrip | script/common.py:259-266 | removing each mark (`UnescapeShellString`) from the escaped text gives back the original string, so the escaping is one-to-one |
| Shell.EscapePlainText | script/common.py:259-266 | text without characters of the escaped set is not changed |
| Shell.MakeShellExportVarCmd | script/common.py:268-278 | the command is the shell's export head, the escaped value and a closing quote |
| Shell.ExportValueRecoverable | script/common.py:268-278 | the exported value is recovered by removing the marks from what lies between the head and the closing quote |
| Utility.TrueFalseExclusive | script/internal/utility.py:67-72 | no string is both a true string and a false string |
| Utility.BoolToStr | script/internal/utility.py:15-20 | True exactly for a true string, False exactly for a false string, and otherwise the exception with its message |
| Utility.BoolToStrIgnoresCase | script/internal/utility.py:15-20 | a string and its lower-cased form convert alike |
| Utility.HostArchAsWritten | script/internal/utility.py:54-64 | as written, only "amd64" and "x86_64" (any case) are accepted, as X64 |
| Utility.X86HostRejectedAsWritten | script/internal/utility.py:58-59 | as written, "x86" and "i386" hosts raise |
| Utility.HostArch | script/internal/utility.py:54-64 | X64 exactly for "amd64"/"x86_64", X86 exactly for "i386"/"x86", in any letter case; every other machine raises |
| Utility.HostArchExtendsAsWritten | script/internal/utility.py:54-64 | where the code as written accepts a machine the intended reading agrees, and it also accepts 32-bit x86 |
| Utility.ExecuteProgramResult.GetOutputBytes | script/internal/utility.py:81-87 | the output is stdout's bytes followed by stderr's, an absent stream counting as empty |
| Go.ToGoArchitecture | script/internal/go.py:5-13 | a KeyError exactly for the native architecture; otherwise one of the four Go names |
| Go.GoArchitectureRoundTrip | script/internal/go.py:5-13 | the map is one-to-one: a Go name comes from exactly one architecture |
| Go.ParseInt | script/internal/go.py:20 | int() succeeds exactly when, after ASCII white space is stripped from both ends, an optional sign is followed by groups of decimal digits joined by single underscores; otherwise it gives Python's ValueError message; a negative result comes only from a leading minus |
| Go.ParseIntSeparators | script/internal/go.py:20 | surrounding white space and an underscore between digits are accepted: " 1_000\n" is 1000 |
| Go.ParseIntRejectsUnderscores | script/internal/go.py:20 | a leading, doubled or trailing underscore raises |
| Go.ParseNatural | script/internal/go.py:20 | the decimal rendering of a natural number reads back as that number |
| Go.ParseNegative | script/internal/go.py:20 | a minus sign before the rendering of a positive number reads back as its negation |
| Go.ParseIntOfString | script/internal/go.py:20 | int() reads back what str() writes |
| Go.ParseVersionNumbers | script/internal/go.py:20 | every piece is converted, and the first piece that is not a number raises |
| Go.ParseGoVersionString | script/internal/go.py:15-21 | a line whose words are not "go", "version" and at least two more raises; otherwise the result has one number per dot-separated piece of the third word |
| Go.SplitOfJoin | script/internal/go.py:19 | joining pieces without the separator and splitting again gives back the pieces |
| Go.VersionPieces | script/internal/go.py:19-20 | one decimal rendering per version component |
| Go.ParseVersionPieces | script/internal/go.py:20 | the rendered pieces convert back to the version |
| Go.WordsOfVersionLine | script/internal/go.py:16 | "go version X P" splits into its four words |
| Go.ParseVersionLine | script/internal/go.py:15-21 | a line as go version prints it parses back to the version |
| Go.ParseReleaseLine | script/internal/go.py:15-21 | "go version go1.21.3 linux/amd64" gives (1, 21, 3) |
| Go.DoubledSpaceRejected | script/internal/go.py:16-18 | a doubled space after "go" is rejected, because split(" ") yields an empty word |
| Go.VersionAtLeastReflexive | script/internal/go.py:24 | Python's tuple comparison is reflexive |
| Go.VersionAtLeastTotal | script/internal/go.py:24 | any two versions are ordered one way or the other |
| Go.VersionAtLeastAntisymmetric | script/internal/go.py:24 | versions ordered both ways are equal |
| Go.VersionAtLeastTransitive | script/internal/go.py:24 | the comparison is transitive |
| Go.SupportsQuotedParams | script/internal/go.py:23-24 | true exactly when the version is at least (1, 18, 0), a proper prefix counting as smaller |
| Go.QuotedParamsExamples | script/internal/go.py:23-24 | (1, 18) does not qualify; 1.18.0, 1.21.3 and 2 do; 1.17.9 does not |
| Options.GetAfterSet | script/internal/options.py:28-35 | get_value after set_value reads back what was set, or the default for None, and the explicit flag is unchanged |
| Options.FormatOptionValue | script/internal/options.py:69-74 | "" exactly for None, str() for anything that is not a bool |
| Options.FormattedBoolRoundTrip | script/internal/options.py:69-74 | a formatted bool reads back as the same bool through bool_to_str |
| PreProcess.Enable | script/build.py:36-39 | a non-explicit option is switched on, an explicit one is kept |
| PreProcess.EnableIf | script/build.py:51-85 | an option can only be switched on, and is on (or explicit) when the condition holds |
| PreProcess.Lookup | script/build.py:89 | os.environ.get: the value exactly when the name is set |
| PreProcess.EnableChecks | script/build.py:34-39 | only check_lint and check_style change |
| PreProcess.ResolveArch | script/build.py:46-48 | given the outcome of get_host_arch: fails, with its error, exactly when the target is native and get_host_arch raises; a native target becomes the host's architecture; only target_arch changes |
| PreProcess.GoRules | script/build.py:50-60 | only go_build and fetch_deps change |
| PreProcess.BuildEverything | script/build.py:62-69 | only the library, examples and tests options change |
| PreProcess.Prerequisites | script/build.py:71-85 | only build_tests, build_library and fetch_deps change |
| PreProcess.EnvironmentDefaults | script/build.py:87-101 | only ar, cc, cxx and ld change |
| PreProcess.PreProcessOptions | script/build.py:33-103 | the Options object is updated in place to the result of the steps in order, with get_host_arch as written, and the error is the one they raise |
| PreProcess.ApplyChecks | script/build.py:34-39 | the object holds the options with the checks enabled |
| PreProcess.ApplyGoRules | script/build.py:50-60 | the object holds the options after the Go rules |
| PreProcess.ApplyBuildEverything | script/build.py:62-69 | the object holds the options after "build everything" |
| PreProcess.ApplyPrerequisites | script/build.py:71-85 | the object holds the options after the prerequisite rules |
| PreProcess.ApplyEnvironment | script/build.py:87-101 | the object holds the options with the binaries defaulted from the environment |
| PreProcess.PreProcessErrors | script/build.py:41-48 | pre-processing fails exactly when one of cc/cxx is set without the other, or a native target meets a get_host_arch that raises; the compiler check comes first, and each error has its message (get_host_arch's own for the second) |
| PreProcess.PreProcessCloses | script/build.py:33-103 | on success every implication holds, except where the implied option was explicit |
| PreProcess.PreProcessOnlyEnables | script/build.py:33-103 | no boolean option is cleared and no explicit one is touched |
| PreProcess.PreProcessKeepsFlags | script/build.py:33-103 | the explicit flags of the other options never change |
| PreProcess.PreProcessKeepsExplicit | script/build.py:33-103 | an explicit lint setting or binary keeps its value |
| PreProcess.PreProcessTargetArch | script/build.py:46-48 | a native target becomes the architecture get_host_arch returns, explicit or not; any other target stays |
| PreProcess.X86HostStopsAsWritten | script/build.py:46-48 | with get_host_arch as written, a native target on an "x86" host stops pre-processing with "Unsupported host machine architecture." |
| PreProcess.X86HostResolvesCorrected | script/build.py:46-48 | with the intended get_host_arch, the same target resolves to X86 and pre-processing goes on |
| PreProcess.PreProcessEnvironment | script/build.py:87-101 | on success every binary not given explicitly holds the environment's value, or None |
| PreProcess.TestCascades | script/build.py:71-85 | asking only for tests also builds the tests and the library and fetches the dependencies |
| PreProcess.CompilerCheckPrecedesEnvironment | script/build.py:41-97 | CC set in the environment without CXX passes the check and leaves only cc set |
| BuildDefs.AllLanguagesComplete | script/internal/build.py:15-19 | iterating over Language visits every member |
| BuildDefs.FileTypeOfExtension | script/internal/build.py:64-73 | no extension maps to UNKNOWN |
| BuildDefs.ExtensionTable | script/internal/build.py:64-73 | exactly the eight listed extensions have a file type |
| BuildDefs.LanguageOfFileType | script/internal/build.py:76-86 | a KeyError exactly for UNKNOWN; C sources are C, C++ headers and sources are C++ |
| BuildDefs.ExtensionTypesHaveLanguage | script/internal/build.py:64-86 | every file type the extension table gives has a language |
| BuildDefs.WalkFilesMembership | script/internal/build.py:91-92 | a (root, file) pair is walked exactly when the file is listed in that directory of the walk |
| BuildDefs.KeptType | script/internal/build.py:93-95 | a kept file's type is one of the requested types |
| BuildDefs.SourceItem | script/internal/build.py:93-98 | a file gives an entry exactly when it is kept, with its type and its path relative to the base |
| BuildDefs.ScanFile | script/internal/build.py:93-98 | the steps for one file (extension, lower case, type lookup, relative path) give its SourceItem |
| BuildDefs.ScanEntriesKept | script/internal/build.py:92-98 | the entries appended for a directory's files are its kept files, in order |
| BuildDefs.FindSources | script/internal/build.py:89-99 | the two loops return the kept files of the walk in walk order, relative to relative_to or, when it is None, to source_dir |
| BuildDefs.ScanDirectory | script/internal/build.py:92-98 | the inner loop appends the entries of one directory's files, in order |
| BuildDefs.FindSourcesMembership | script/internal/build.py:89-99 | an entry is reported exactly when some walked file maps to it |
| BuildDefs.FindSourcesTypes | script/internal/build.py:94-95 | every reported entry has a requested type |
| BuildDefs.CLikeFileTypes | script/internal/build.py:103-105 | C and C++ sources are always asked for, the two header types exactly when headers are included, and no other type |
| BuildDefs.FindCLikeSourceFiles | script/internal/build.py:102-106 | the search with those types below source_dir, so only C/C++ sources, and headers when asked for, are found |
| WorkspaceLayout.MakeWorkspaceInfo | script/internal/workspace.py:20-38 | the toolchain, build type and host system are kept as given |
| WorkspaceLayout.WorkspaceDirs | script/internal/workspace.py:26-30 | an absolute source or build directory stays as given; a relative source directory goes below the current directory and a relative build directory below the source directory, so that relpath gives a plain build directory back |
| WorkspaceLayout.Layout | script/internal/workspace.py:49-63 | bin is root/arch/bin, lib is root/arch/lib and obj is root/arch/obj/name |
| WorkspaceLayout.ObjDirsDistinct | script/internal/workspace.py:62-63 | distinct target names get distinct object directories, each named after its target |
| ToolchainCommon.FileNamePrefix | script/internal/toolchain/clang_like.py:234-237 | "lib" exactly for shared and static libraries, "" otherwise, in both toolchain variants |
| ToolchainCommon.FileNameExtension | script/internal/toolchain/clang_like.py:239-244 | ".o" for objects, ".a" for static libraries, otherwise the common table, in both toolchain variants |
| ToolchainCommon.BaseFileNameExtension | script/internal/toolchain/common.py:178-185 | ".exe" exactly for executables on Windows; ".so", ".dylib" or ".dll" for shared libraries on Linux, macOS or Windows; "" otherwise |
| ToolchainCommon.NewLinkParams | script/internal/toolchain/common.py:35-43 | a new LinkParams has no flags and no inputs |
| ToolchainCommon.NewCompileParams | script/internal/toolchain/common.py:25-32 | a new CompileParams has no flags |
| ToolchainCommon.NewArchiveParams | script/internal/toolchain/common.py:46-52 | a new ArchiveParams has no inputs |
| Scoping.Extend | script/internal/target.py:112-115 | `d[s] += xs` grows the list object bound to s in place, so while both scopes share one list the other scope sees the items too |
| Scoping.Assign | script/internal/target.py:138-140 | `d[s] = list(...)` binds a fresh list to s: that scope gets exactly the new items, the other keeps what it had, and the scopes no longer share |
| Scoping.ExtendEachShared | script/internal/target.py:81-82 | with the one list `_initialize_scoped` gives both scopes, an add through each listed scope appends the items once per listed scope to the list both see |
| Scoping.ExtendEachSplit | script/internal/target.py:112-115 | once the scopes hold separate lists, each grows by the items once per time it is listed |
| Scoping.AppendDedupEachGet | script/internal/target.py:138-140 | every listed scope ends with its old list followed by the new items, later duplicates dropped; unlisted scopes keep theirs |
| Scoping.AppendDedupEachPresent | script/internal/target.py:138-140 | appending items every listed scope already holds, to lists without duplicates, changes nothing |
| Scoping.GetAllMembership | script/internal/target.py:125-127 | an item is in the concatenation of the scopes' lists exactly when one of those scopes lists it |
| Definitions.Items | script/internal/target.py:181-183 | a dict's items follow insertion order and pair each key with its value |
| Definitions.SetDef | script/internal/target.py:209-212 | assignment updates the value; an existing key keeps its place, a new key goes last |
| Definitions.SetDefTwice | script/internal/target.py:209-212 | setting the same key to the same value again changes nothing |
| Definitions.ItemsMap | script/internal/target.py:181-183 | the dict built from items has exactly the keys the items name |
| Definitions.SetDefsValues | script/internal/target.py:181-183 | applying items overrides the dict's values with the last value each item key receives |
| Definitions.SetDefsOrderPresent | script/internal/target.py:181-183 | applying items whose keys are all present keeps the insertion order |
| Definitions.SetDefsIdempotent | script/internal/target.py:181-183 | applying the same items twice is the same as applying them once |
| Definitions.SetDefsOwnItems | script/internal/target.py:181-183 | a dict applied to itself is unchanged |
| Targets.MergeStandardsMax | script/internal/target.py:145-154 | after the standards loop each language has the larger of the two standards (a missing one counted as 0), and is set exactly when ours was set or theirs was larger |
| Targets.MergeStandardsSelf | script/internal/target.py:145-154 | a target merged with its own standards keeps them |
| Targets.MergeList | script/internal/target.py:157-189 | one list merge leaves both scopes separate, each holding its old list then the dependency's external list, later duplicates dropped |
| Targets.MergeDepFacts | script/internal/target.py:142-194 | merging a dependency: larger standard per language; each scope keeps its de-duplicated old entries as a prefix, has no duplicates, and holds exactly its old entries plus the dependency's external ones, for all five lists; definitions are applied; the threads flag spreads from the dependency's external scope and is never cleared |
| Targets.NormPaths | script/internal/target.py:112-115 | normalizing keeps one path per given path |
| Targets.ExtendScopes | script/internal/target.py:112-115 | the loop over the scopes yields the same list state as extending each listed scope in turn |
| Targets.DetectLanguageFirst | script/internal/target.py:338-350 | the detected language is that of the first source with a C or C++ extension, and there is none exactly when no source has one |
| Targets.NormalizedPath | script/internal/target.py:352-358 | a path joined below an absolute source directory is absolute |
| Targets.Target.constructor | script/internal/target.py:51-75 | a new target starts with one list shared by both scopes per property, no standards, no overrides, enabled, shared runtime |
| Targets.Target.DefaultScope | script/internal/target.py:69 | the default scope is EXTERNAL exactly for interface libraries |
| Targets.Target.NormalizeScope | script/internal/target.py:308-313 | no scope means the default scope; a given list is used as it is |
| Targets.Target.SetLanguage | script/internal/target.py:93-96 | the language is set and, when a standard is given, that language's standard too |
| Targets.Target.LanguageStandardOf | script/internal/target.py:98-103 | raises exactly when neither the given nor the target's language exists; otherwise that language's standard, if any |
| Targets.Target.SetLanguageStandard | script/internal/target.py:105-107 | only the named language's standard changes |
| Targets.Target.AddIncludeDirs | script/internal/target.py:112-115 | the normalized directories are appended once per listed scope, through the list each scope is bound to |
| Targets.Target.AddLibraryDirs | script/internal/target.py:120-123 | as AddIncludeDirs, for library directories |
| Targets.Target.LinkLibraries | script/internal/target.py:125-127 | the link libraries of the normalized scopes, one scope after the other |
| Targets.Target.AddMacosFrameworks | script/internal/target.py:220-223 | the frameworks are appended once per listed scope, without normalization |
| Targets.Target.AddPkgconfigLibs | script/internal/target.py:228-231 | the packages are appended once per listed scope |
| Targets.Target.AddDefinition | script/internal/target.py:209-212 | the key is set in the one dict both scopes share; an empty scope list changes nothing |
| Targets.Target.AddSources | script/internal/target.py:199-204 | the sources grow by the normalized paths; a target without a language takes the one detected from the new sources |
| Targets.Target.NormalizeFilePaths | script/internal/target.py:352-358 | each path is normalized and joined below the source directory when relative, order kept |
| Targets.Target.DetectLanguageFromSources | script/internal/target.py:338-350 | the loop returns the language of the first source with a known extension (see DetectLanguageFirst) |
| Targets.Target.OutputName | script/internal/target.py:233-234 | without an override the output name is the target's name |
| Targets.Target.SetOutputName | script/internal/target.py:236-237 | the output name override is set |
| Targets.Target.LinkOutputName | script/internal/target.py:239-240 | the link output name falls back to the output name, and through it to the target name |
| Targets.Target.SetLinkOutputName | script/internal/target.py:242-243 | the link output name override is set |
| Targets.Target.BinDir | script/internal/target.py:245-246 | without an override, the workspace's bin directory |
| Targets.Target.SetBinDir | script/internal/target.py:248-249 | the bin directory override is set |
| Targets.Target.LibDir | script/internal/target.py:251-252 | without an override, the workspace's lib directory |
| Targets.Target.SetLibDir | script/internal/target.py:254-255 | the lib directory override is set |
| Targets.Target.ObjDir | script/internal/target.py:257-258 | without an override, the workspace's object directory for this target |
| Targets.Target.SetObjDir | script/internal/target.py:260-261 | the object directory override is set |
| Targets.Target.SetEnabled | script/internal/target.py:266-267 | the enabled flag is set |
| Targets.Target.SetOutputNamePrefix | script/internal/target.py:318-319 | the prefix override is set |
| Targets.Target.OutputFileName | script/internal/target.py:269-278 | prefix, output name and extension in that order, the toolchain supplying the prefix and extension not given |
| Targets.Target.OutputDir | script/internal/target.py:280-290 | no directory exactly for interface libraries; bin for executables, obj for object files, lib for shared and static libraries |
| Targets.Target.OutputFilePath | script/internal/target.py:292-294 | fails exactly for interface libraries; otherwise the output directory joined with the output file name |
| Targets.Target.SetRuntimeLink | script/internal/target.py:299-300 | the runtime link method is set |
| Targets.Target.BuildTypeOf | script/internal/target.py:302-303 | the target's own build type, or the workspace's when none is set |
| Targets.Target.SetBuildType | script/internal/target.py:305-306 | the build type override is set |
| Targets.Target.SetCondition | script/internal/target.py:324-325 | the condition is replaced |
| Targets.Target.SetUsesThreads | script/internal/target.py:333-336 | the flag is on afterwards exactly for the scopes that had it or are listed |
| Targets.Target.SetWarningParams | script/targets/main.py:50 | the warning parameters are replaced by the given list |
| Targets.Target.AddLinkLibraries | script/internal/target.py:129-194 | the new state is the specification LinkSpec of the old one: append to each scope without duplicates, then merge every Target-typed library; LinkNothing, LinkLibsStep, MergeDepFacts and LinkTwiceIdempotent state what that means |
| Targets.Target.AppendLinkLibs | script/internal/target.py:138-140 | the first loop: each listed scope's link libraries become old ++ libs without later duplicates; nothing else changes |
| Targets.Target.MergeEach | script/internal/target.py:142-194 | the second loop merges each Target-typed library in order |
| Targets.Target.MergeFrom | script/internal/target.py:143-194 | one loop iteration: the state becomes MergeDep of the old state and the library's |
| Targets.Target.MergeStandardsFrom | script/internal/target.py:145-154 | the standards loop over all languages takes the larger standard (see MergeStandardsMax) |
| Targets.Target.MergeListsFrom | script/internal/target.py:157-189 | the five list merges, internal scope then external, from the library's external lists |
| Targets.Target.MergeDefinitionsFrom | script/internal/target.py:181-183 | every external definition of the library is set in the shared dict |
| Targets.LinkNothing | script/internal/target.py:130-131 | with no libraries nothing changes |
| Targets.LinkLibsStep | script/internal/target.py:138-140 | after the first loop every requested scope lists old ++ libs without later duplicates; other scopes are kept |
| Targets.MergeDepIdempotent | script/internal/target.py:142-194 | merging the same dependency state twice is the same as merging it once |
| Targets.MergeListIdempotent | script/internal/target.py:157-189 | one list merge applied twice is the same as once |
| Targets.MergeStandardsIdempotent | script/internal/target.py:145-154 | the standards merge applied twice is the same as once |
| Targets.LinkTwiceIdempotent | script/internal/target.py:129-194 | linking the same unchanged target a second time leaves every list, definition, standard and flag as the first link left it |
| Targets.SharedUntilAssigned | script/internal/target.py:81-82 | on a fresh target, adds through either scope show in both, because both are bound to one list until add_link_libraries rebinds them |
| ClangLike.CompileSteps | script/internal/toolchain/clang_like.py:104-117 | one compile step per source, in order, each with the shared flags, the source as input and its object file below the object directory |
| ClangLike.GetCompileParams | script/internal/toolchain/clang_like.py:53-117 | the result is the specification CompileParamsSpec; CompileParamsFacts states what it means |
| ClangLike.CollectCompileSteps | script/internal/toolchain/clang_like.py:104-117 | the per-source loop builds exactly CompileSteps |
| ClangLike.GetCompileFlags | script/internal/toolchain/clang_like.py:62-103 | the flag list is the specification CompileFlags |
| ClangLike.GetCompileTail | script/internal/toolchain/clang_like.py:86-103 | PIC, definitions, include directories, frameworks and pkg-config flags, in that order |
| ClangLike.CompileParamsFacts | script/internal/toolchain/clang_like.py:53-117 | raises exactly without a build type, for a target without a language, for a standard on a language other than C and C++, or for an ARM architecture; otherwise one entry per source with the same flags, its object path, -O0 or -O2 first, -fPIC for shared libraries, -m64/-m32 for x64/x86 |
| ClangLike.CompileFlagsOk | script/internal/toolchain/clang_like.py:62-78 | the flags are defined exactly under the conditions above |
| ClangLike.CompileFlagsShape | script/internal/toolchain/clang_like.py:62-88 | optimization flag first; -fPIC for shared libraries; -m64/-m32 by architecture |
| ClangLike.CollectLibContributions | script/internal/toolchain/clang_like.py:166-180 | the library loop appends each library's flags and inputs in order |
| ClangLike.GetLibraryLinkFlags | script/internal/toolchain/clang_like.py:161-185 | the flags only executables and shared libraries take: directories, libraries, pkg-config |
| ClangLike.GetLinkParams | script/internal/toolchain/clang_like.py:119-210 | the result is the specification LinkParamsSpec; LinkParamsFacts states what it means |
| ClangLike.LinkParamsFacts | script/internal/toolchain/clang_like.py:119-210 | raises exactly for ARM; inputs start with the objects; kinds that do not link libraries get exactly the objects and the arch/kind flags; the rpath flags come last; the output is in bin for executables, lib otherwise |
| ClangLike.LibContributionCases | script/internal/toolchain/clang_like.py:166-180 | a name gives -l; an object file is an input and, because the kind test compares against a boolean, never pulls in -lstdc++; shared and static libraries give -L/-l, a C++ static library in a C target adds -lstdc++ |
| ClangLike.LibContributionsAppend | script/internal/toolchain/clang_like.py:166-180 | the loop keeps the libraries' order: each contribution follows the previous ones |
| ClangLike.NamedLibrariesOnly | script/internal/toolchain/clang_like.py:167-168 | plain names add exactly -l<name> each and no inputs |
| ClangLike.GetArchiveParams | script/internal/toolchain/clang_like.py:32-51 | the result is the specification ArchiveParamsSpec |
| ClangLike.ArchiveParamsFacts | script/internal/toolchain/clang_like.py:32-51 | one object per source, in order, archived in the lib directory under prefix + output name + ".a" |
| ClangLike.LinkExe | script/internal/toolchain/clang_like.py:24-30 | cc for C, cxx for C++, failure for anything else |
| GccLike.MachinesOfArch | script/internal/toolchain/gcc_like.py:13-16 | fails exactly for NATIVE; every other architecture has at least one machine name |
| GccLike.ArchesOfMachine | script/internal/toolchain/gcc_like.py:19-22 | defined exactly for the four machine names; never NATIVE |
| GccLike.MachineTablesAgree | script/internal/toolchain/gcc_like.py:13-22 | the two tables are inverse relations |
| GccLike.TargetTriplet | script/internal/toolchain/gcc_like.py:319-338 | an explicit triplet wins; otherwise defined exactly for the supported system/architecture pairs, with the suffix of the system, and the named exception for other systems and x86 on macOS |
| GccLike.CompileExe | script/internal/toolchain/gcc_like.py:47-56 | cxx for C++, cc for C, "No language specified" without a language, failure otherwise |
| GccLike.ArchiveExe | script/internal/toolchain/gcc_like.py:58-66 | the configured archiver if any; otherwise defined exactly when a C compiler is known |
| GccLike.ArchiveExeBesideCompiler | script/internal/toolchain/gcc_like.py:61-63 | the fallback is "ar" (or "ar.exe" on Windows) in the C compiler's directory |
| GccLike.PlatformFlags | script/internal/toolchain/gcc_like.py:124-130 | Clang gets "-target <triplet>" and fails with the triplet; others get -m64/-m32 for x64/x86 and nothing else |
| GccLike.GetCompileParams | script/internal/toolchain/gcc_like.py:97-164 | the result is the specification CompileParamsSpec; CompileParamsFacts states what it means |
| GccLike.GetCompileFlags | script/internal/toolchain/gcc_like.py:106-149 | the flag list is the specification CompileFlags |
| GccLike.CompileParamsFacts | script/internal/toolchain/gcc_like.py:97-164 | raises exactly without a language for a standard or for a Clang without a triplet; otherwise one entry per source with the same flags, starting with the warning parameters then the optimization flags (-Og -g for debug), -fPIC for non-Windows shared libraries, -pthread last with threads, -target for Clang |
| GccLike.CollectLibContributions | script/internal/toolchain/gcc_like.py:229-249 | the library loop appends each library's flags and inputs in order |
| GccLike.LibContributionCases | script/internal/toolchain/gcc_like.py:232-247 | on Windows a library target is an input path; elsewhere -L/-l; a C target's static C++ library adds -lc++ on Darwin, -lstdc++ elsewhere |
| GccLike.GetLinkParams | script/internal/toolchain/gcc_like.py:166-283 | the result is the specification LinkParamsSpec; LinkParamsFacts states what it means |
| GccLike.GetMiddleFlags | script/internal/toolchain/gcc_like.py:209-254 | runtime, frameworks, threads, library directories, libraries and pkg-config, in that order |
| GccLike.LinkParamsFacts | script/internal/toolchain/gcc_like.py:166-283 | raises only for a Clang without a triplet; inputs begin with one object per source; flags begin with the warning parameters; -dynamiclib/-shared for shared libraries; the Linux and Darwin rpath flags come last |
| Arches.Value | script/internal/common.py:4-9 | every architecture's value is a non-empty name without a slash, usable as a directory name |
| ToolchainFlags.DefinitionFlags | script/internal/toolchain/gcc_like.py:137-138 | one -D flag per definition item, in the dict's order |
| ToolchainFlags.PrefixEach | script/internal/toolchain/gcc_like.py:140-141 | one prefixed flag per directory, in order |
| ToolchainFlags.FrameworkFlags | script/internal/toolchain/gcc_like.py:217-218 | a "-framework" flag before each framework name, in order |
| ToolchainFlags.AppendFrameworkFlags | script/internal/toolchain/clang_like.py:99-100 | the loop appends exactly FrameworkFlags to the flags |
| ToolchainFlags.ObjectPaths | script/internal/toolchain/gcc_like.py:183-189 | one object path per source, in order |
| ToolchainFlags.CollectObjectPaths | script/internal/toolchain/gcc_like.py:183-189 | the object-files loop builds exactly ObjectPaths |
| ToolchainFlags.ObjectPathBelow | script/internal/toolchain/gcc_like.py:186-188 | a source at a plain relative path below the source directory gets its object file at the same relative place below the object directory, with ".o" appended |
| Paths.RelPath | script/internal/toolchain/gcc_like.py:186-188 | os.path.relpath never gives an empty or absolute path, so the joined object path's text starts with obj_dir + "/"; it may hold ".." names for a source outside source_dir, and only a plain relative source stays below obj_dir (ToolchainFlags.ObjectPathBelow) |
| Paths.RelPathOfJoin | script/internal/build.py:96-97 | a plain relative name joined below a directory comes back from relpath against that directory |
| Paths.RelPathSelf | script/internal/build.py:96-97 | a path relative to itself is "." |
| Paths.RelPathAbove | script/internal/build.py:96-97 | a directory relative to a plain subdirectory of it is one ".." per name of the subdirectory |
| ToolchainFlags.StandardFlags | script/internal/toolchain/gcc_like.py:116-122 | raises without a language to look up; nothing without a standard; "-std=c" or "-std=c++" and the two year digits, and a failure for any other language |
| ToolchainFlags.StandardFlagExamples | script/internal/toolchain/gcc_like.py:120-122 | C99, C11, C++11 and C++17 give -std=c99, -std=c11, -std=c++11 and -std=c++17 |
| ToolchainFlags.PkgConfigFlags | script/internal/toolchain/gcc_like.py:102-104 | splitting the output always gives at least one piece |
| ToolchainFlags.ArchiveArgs | script/internal/toolchain/gcc_like.py:285-289 | "rcs", the archive, then the objects |
| ToolchainFlags.CompileArgs | script/internal/toolchain/gcc_like.py:291-298 | the flags, then "-c -o output" when asked, then the input when asked |
| ToolchainFlags.LinkArgs | script/internal/toolchain/gcc_like.py:300-305 | "-o output", then the inputs, then the flags |
| ToolchainFlags.LinkedLibOf | script/internal/toolchain/gcc_like.py:229-249 | a name stays a name; a target is an object file exactly for OBJECT and a library exactly for shared and static libraries |
| ToolchainFlags.LinkedLibs | script/internal/toolchain/gcc_like.py:229 | one view per link library |
| ToolchainDetect.ClassOf | script/internal/toolchain/toolchain.py:70-74 | MSVC maps to the MSVC class; GCC and Clang both to the Clang-like class |
| ToolchainDetect.ExeName | script/internal/toolchain/toolchain.py:116-119 | the lower-cased base name; on Windows a prefix of it with no ".exe" left |
| ToolchainDetect.BeforeFirstIsFree | script/internal/toolchain/toolchain.py:119 | the text before the first ".exe" does not contain ".exe" |
| ToolchainDetect.PreprocessArgs | script/internal/toolchain/toolchain.py:132-133 | exe -E -dM -x c and the null device of the system |
| ToolchainDetect.CompilerFromExe | script/internal/toolchain/toolchain.py:115-142 | "cl" is MSVC; otherwise Clang exactly when `__clang__ ` is printed, GCC exactly when only `__GNUC__ ` is, none otherwise |
| ToolchainDetect.Hints | script/internal/toolchain/toolchain.py:86-90 | the MSVC names first on Windows only, then GCC, then Clang |
| ToolchainDetect.Resolve | script/internal/toolchain/toolchain.py:93-95 | a chain resolves exactly when all four binaries are found, to the found paths |
| ToolchainDetect.Identify | script/internal/toolchain/toolchain.py:76-82 | a resolved chain is a toolchain exactly when its C compiler is identified, with that id's class |
| ToolchainDetect.LookupOverride | script/internal/toolchain/toolchain.py:46-50 | no override looks nothing up; an override not found raises with its prefixed name |
| ToolchainDetect.OverrideChain | script/internal/toolchain/toolchain.py:46-68 | the archiver, C compiler, C++ compiler and linker overrides are looked up in that order and the first missing one raises; all found give the resolved chain |
| ToolchainDetect.DetectToolchain | script/internal/toolchain/toolchain.py:29-104 | the result is the specification DetectSpec; DetectWithoutOverrides, OverridesFirst and HintOrder state what it means |
| ToolchainDetect.ChooseToolchain | script/internal/toolchain/toolchain.py:76-104 | identified overrides first, then the hints, else "Toolchain not found" |
| ToolchainDetect.SearchHints | script/internal/toolchain/toolchain.py:92-102 | the loop returns the first hint that works |
| ToolchainDetect.FromHint | script/internal/toolchain/toolchain.py:96-102 | a working hint gives its resolved binaries, the identified id and the requested architecture |
| ToolchainDetect.HintOrder | script/internal/toolchain/toolchain.py:86-102 | on Windows the MSVC names win when they work, then GCC, then Clang; elsewhere MSVC names are never tried |
| ToolchainDetect.FromHintsStep | script/internal/toolchain/toolchain.py:92-102 | a working hint is taken, otherwise the next one is tried |
| ToolchainDetect.DetectWithoutOverrides | script/internal/toolchain/toolchain.py:84-104 | without overrides the first working hint decides, or "Toolchain not found"; the class is Clang-like exactly for non-MSVC ids |
| ToolchainDetect.FromHintsKind | script/internal/toolchain/toolchain.py:70-74 | every toolchain found through the hints has the class of its id and the requested architecture |
| ToolchainDetect.OverridesFirst | script/internal/toolchain/toolchain.py:35-82 | complete, identified overrides win over every hint; a missing override is reported with its prefixed name in the order archiver, C, C++, linker |
| CompileTasks.CompileExe | script/internal/toolchain/gcc_like.py:47-56 | the Clang-like toolchain, which does not define get_compile_exe, gives no executable; the GCC-like one picks by language |
| CompileTasks.ArchiveExe | script/internal/toolchain/gcc_like.py:58-66 | a configured archiver is used as it is |
| CompileTasks.CompileTasksOf | script/internal/toolchain/common.py:109-113 | one compile task per parameter set, in order |
| CompileTasks.Scope | script/internal/toolchain/common.py:84-100 | the targets reachable through link libraries cover the listed ones |
| CompileTasks.CreateCompileTasks | script/internal/toolchain/common.py:84-100 | succeeds exactly when the specification StagesSpec does, returning three fresh collections holding its task lists; StagesCounts and DisabledTargetsIgnored state what that means |
| CompileTasks.NewCollections | script/internal/toolchain/common.py:85-87 | three fresh collections holding the given lists, the compile one concurrent |
| CompileTasks.GatherStages | script/internal/toolchain/common.py:89-94 | the loop over the targets computes StagesSpec |
| CompileTasks.CreateTargetStages | script/internal/toolchain/common.py:92-94 | compile, archive and link tasks of one target, the first error raised |
| CompileTasks.StagesStep | script/internal/toolchain/common.py:89-94 | one more target is skipped when its condition is false, otherwise its tasks are appended to the three lists; an error stays |
| CompileTasks.StagesErrStays | script/internal/toolchain/common.py:89-94 | an error raised for some target is the outcome of the whole call |
| CompileTasks.GetCompileParamsOf | script/internal/toolchain/common.py:108 | the parameters of the toolchain's get_compile_params |
| CompileTasks.CreateTargetCompileTasks | script/internal/toolchain/common.py:102-114 | the loop builds exactly the specification CompileTaskList |
| CompileTasks.CreateArchiveTasks | script/internal/toolchain/common.py:116-125 | the result is ArchiveTaskList |
| CompileTasks.CreateLinkTasks | script/internal/toolchain/common.py:127-136 | the result is LinkTaskList |
| CompileTasks.TargetStagesFacts | script/internal/toolchain/common.py:102-136 | one archive task exactly for a static library, one link task exactly for an executable, object or shared library, no compile task for an interface library; each task is announced with its prefix |
| CompileTasks.CompileTaskListFacts | script/internal/toolchain/common.py:102-114 | interface libraries get no compile task; every task says "Compile " |
| CompileTasks.ArchiveTaskListFacts | script/internal/toolchain/common.py:116-125 | one task exactly for a static library, announced as "Archive target " |
| CompileTasks.LinkTaskListFacts | script/internal/toolchain/common.py:127-136 | one task exactly for an executable, object file or shared library, announced as "Link target " |
| CompileTasks.StagesCounts | script/internal/toolchain/common.py:84-136 | on success, one archive task per enabled static library and one link task per enabled executable, object or shared library; every task runs the process helper and is announced with its stage's prefix |
| CompileTasks.AnnouncedAppend | script/internal/toolchain/common.py:92-94 | appending announced tasks keeps them announced |
| CompileTasks.DisabledTargetsIgnored | script/internal/toolchain/common.py:90-91 | targets whose condition is false contribute no task at all |
| Tasks.Task.Execute | script/internal/task.py:23-25 | without work nothing can fail |
| Tasks.NewTask | script/internal/task.py:16-21 | the default condition accepts every argument; the work, argument and description are kept |
| Tasks.Eligible | script/internal/task.py:51-52 | never longer than the tasks; all of them when `all`; otherwise only tasks whose condition holds |
| Tasks.EligibleAppend | script/internal/task.py:51-52 | filtering distributes over concatenation, so the order is kept |
| Tasks.EligibleCount | script/internal/task.py:54-55 | the filtered list has one entry per task whose condition holds |
| Tasks.TaskCollection.constructor | script/internal/task.py:41-43 | a new collection has the given mode and no tasks |
| Tasks.TaskCollection.AddTask | script/internal/task.py:48-49 | the tasks are appended in the order given |
| Tasks.TaskCollection.GetTasks | script/internal/task.py:51-52 | with `all`, every task in insertion order |
| Tasks.TaskCollection.GetCount | script/internal/task.py:54-55 | the number of tasks with `all`, otherwise the number whose condition holds |
| Tasks.AddThenList | script/internal/task.py:48-52 | after an add, the listed tasks are the old listed ones followed by the new eligible ones |
| Tasks.RunBatch | script/internal/task.py:67-81 | submitted tasks are numbered consecutively after the start with the total count; without an error all are submitted; a concurrent collection submits all |
| Tasks.FirstFailure | script/internal/task.py:77-81 | the index of the first failing task, with every earlier task succeeding; none when no task fails |
| Tasks.RunBatchFailure | script/internal/task.py:67-81 | the error is that of the first failing task; a sequential collection stops right after it, a concurrent one has submitted every task |
| Tasks.RunBatchDescriptions | script/internal/task.py:74 | the tasks are announced with their own descriptions, in order |
| Tasks.RunAll | script/internal/task.py:64-81 | statuses are numbered 1, 2, ... with the total count, and every eligible task is announced when nothing fails |
| Tasks.RunAllSucceeds | script/internal/task.py:64-81 | a run succeeds exactly when no task of any collection fails |
| Tasks.RunAllStopsAtFailure | script/internal/task.py:67-81 | once a collection fails, no task of a later collection is announced or run |
| Tasks.TaskRunner.constructor | script/internal/task.py:61-62 | a new runner has no collections |
| Tasks.TaskRunner.CreateTaskCollection | script/internal/task.py:86-89 | a fresh empty collection with the given mode is appended and returned |
| Tasks.TaskRunner.AddTaskCollection | script/internal/task.py:91-92 | the collections are appended in order |
| Tasks.TaskRunner.Batches | script/internal/task.py:67-72 | each collection seen as its mode and its condition-filtered tasks |
| Tasks.TaskRunner.GetTaskCount | script/internal/task.py:83-84 | the sum of the collections' eligible counts |
| Tasks.TaskRunner.Execute | script/internal/task.py:64-81 | the statuses and error are those of RunAll over the batches with the total count; RunAllSucceeds and RunAllStopsAtFailure state what that means |
| Tasks.RunBatches | script/internal/task.py:67-81 | the loop over the collections computes RunAll |
| Tasks.RunCollection | script/internal/task.py:72-81 | one collection's loop computes RunBatch |
| Tasks.SumCounts | script/internal/task.py:84 | the summed counts equal the total of the batches |
| Tasks.RunBatchStops | script/internal/task.py:77-78 | a sequential collection that has failed produces nothing more |
| Tasks.RunAllStep | script/internal/task.py:67 | after a successful prefix, the next collection's statuses follow, numbered on |
| Tasks.RunAllFailedPrefix | script/internal/task.py:67-81 | after a failed prefix, later collections change nothing |
| TargetSort.PassSuffix | script/internal/workspace.py:85-95 | the pass from the k-th target on is that target's turn followed by the pass from the next one |
| TargetSort.MoveBeforeAt | script/internal/workspace.py:93-95 | after the remove and insert, each element sits at its computed new position and the length is kept |
| TargetSort.RemoveMultiset | script/internal/workspace.py:94 | list.remove takes out exactly the one element |
| TargetSort.InsertMultiset | script/internal/workspace.py:95 | list.insert adds exactly the one element |
| TargetSort.MoveBeforePermutation | script/internal/workspace.py:93-95 | moving a library before the target keeps the same elements, each as often, and keeps a list free of duplicates |
| TargetSort.MoveBeforeIndex | script/internal/workspace.py:93-95 | every element's new index, for a list without duplicates |
| TargetSort.PlaceLibsPermutation | script/internal/workspace.py:89-95 | one target's turn keeps the same elements and no duplicates; it fails exactly when a library is not in the list (`index` raises) |
| TargetSort.PlaceLibsKeeps | script/internal/workspace.py:89-95 | one turn keeps the same elements, each as often |
| TargetSort.PlaceLibsFails | script/internal/workspace.py:90 | a turn fails exactly when one of its libraries is not in the list |
| TargetSort.NextKeeps | script/internal/workspace.py:91-95 | a library already before the target is left alone; either way the elements are kept |
| TargetSort.PlaceLibsBefore | script/internal/workspace.py:86-95 | for a target that does not list itself among its libraries, after its turn every one of its libraries comes before it, and whatever came before it still does (SelfLinkUndoesTurn shows the self-listing case) |
| TargetSort.NextOrder | script/internal/workspace.py:90-95 | one library's move keeps the target at its turn index or later, puts the library before it and keeps earlier elements earlier |
| TargetSort.MovedOrder | script/internal/workspace.py:93-95 | the same for a library that is actually moved |
| TargetSort.StepPlacesLibsFirst | script/internal/workspace.py:85-95 | for a target that does not list itself among its libraries, right after its turn every library is at a lower index than the target, with the same elements as before |
| TargetSort.SelfLinkUndoesTurn | script/internal/workspace.py:86-95 | a target T that lists itself after its library L ends its turn with L after it: the stale turn index moves T back in front of L |
| TargetSort.PassPermutation | script/internal/workspace.py:82-95 | the pass returns a rearrangement without new duplicates; it fails exactly when some target links a library not in the list |
| TargetSort.OnePassIsNotTopological | script/internal/workspace.py:82-95 | the single pass is not a dependency order: with W, D, E, T linking W to T, D to E and T to D, the result D, T, W, E puts D before the E it links |
| TargetSort.PassTurn | script/internal/workspace.py:85 | the pass is the first target's turn followed by the pass over the rest |
| TargetSort.StepOneLibrary | script/internal/workspace.py:86-95 | a turn with one library found after the target moves that library to the target's index |
| TargetSort.ExampleFirstTurn | script/internal/workspace.py:86-95 | W's turn moves T in front of it |
| TargetSort.ExampleSecondTurn | script/internal/workspace.py:86-95 | D's turn moves E in front of it |
| TargetSort.ExampleLastTurn | script/internal/workspace.py:86-95 | T's turn moves D in front of it |
| Workspaces.NamesOf | script/internal/workspace.py:15 | the target names, one per target, in registration order |
| Workspaces.DistinctNamesNoDup | script/internal/workspace.py:71-76 | targets registered under distinct names are distinct |
| Workspaces.FindByName | script/internal/workspace.py:65-66 | a name is found exactly when registered, and finds the target of that name |
| Workspaces.FindAfterAdd | script/internal/workspace.py:71-77 | a target registered under a new name is found under it, and every earlier name still finds its target |
| Workspaces.Eligibility | script/internal/workspace.py:69 | `all or is_condition_met()` for each target |
| Workspaces.EligibleSpec | script/internal/workspace.py:68-69 | get_targets keeps exactly the targets whose condition holds (all with all=True), in registration order |
| Workspaces.EligibleAll | script/internal/workspace.py:68-69 | with all=True nothing is dropped |
| Workspaces.LibraryTargetsSpec | script/internal/workspace.py:87-88 | a target's library targets are its Target-typed link libraries in either scope |
| Workspaces.LibraryLists | script/internal/workspace.py:87-88 | one list of library targets per target |
| Workspaces.PlaceLibraries | script/internal/workspace.py:89-95 | the inner loop computes PlaceLibs (see PlaceLibsBefore) |
| Workspaces.Workspace.constructor | script/internal/workspace.py:20-38 | the directories are resolved as MakeWorkspaceInfo says and there are no targets |
| Workspaces.Workspace.GetTarget | script/internal/workspace.py:65-66 | KeyError exactly for an unknown name; otherwise the target of that name |
| Workspaces.Workspace.AddTarget | script/internal/workspace.py:71-77 | a name already registered raises and changes nothing; otherwise a fresh, empty target is registered last and found under its name; other names are unaffected |
| Workspaces.Workspace.GetSortedTargets | script/internal/workspace.py:82-96 | fails exactly when the reordering pass fails; otherwise the condition filter of the reordered list |
| Workspaces.ReorderTargets | script/internal/workspace.py:85-95 | the outer loop computes the pass over all targets in registration order |
| Workspaces.TargetTurn | script/internal/workspace.py:86-95 | one turn computes Step |
| Workspaces.SortedTargetsPermutation | script/internal/workspace.py:82-95 | for registered targets the result is a rearrangement without duplicates; it raises exactly when some target links an unregistered target |
| Workspaces.SortedFilterKeepsOrder | script/internal/workspace.py:96 | the filter after sorting only drops targets whose condition fails and keeps the others in sorted order |
| MainTargets.GetWarningParams | script/targets/main.py:12-28 | the collected flags are WarningParams (see WarningParamsSyntax) |
| MainTargets.WarningParamsSyntax | script/targets/main.py:12-28 | MSVC gets three "/" flags; others get -Wall -Wextra -pedantic first, and three more flags, each "-Wno-", exactly on Windows |
| MainTargets.CStandard | script/targets/main.py:41 | the C standard is a C standard |
| MainTargets.CxxStandard | script/targets/main.py:42 | the C++ standard is a C++ standard |
| MainTargets.ExampleNameShape | script/targets/main.py:95-97 | "example_" followed by the file name with every "." replaced, so no "." and no "/" after the prefix |
| MainTargets.ReplaceCharFree | script/targets/main.py:97 | a character missing from the text and from the replacement is missing from the result |
| MainTargets.ExampleNames | script/targets/main.py:93-97 | one example name per source found, in order |
| MainTargets.MergeNothing | script/internal/target.py:142-143 | library names only merge nothing |
| MainTargets.LinkNamed | script/targets/main.py:61-62 | linking library names only extends the link libraries of the listed scopes |
| MainTargets.LinkOneTarget | script/internal/target.py:129-194 | linking one other target is the append followed by one merge |
| MainTargets.LinkTargetListed | script/targets/main.py:59 | linking a target lists it in the requested scopes and keeps every earlier entry |
| MainTargets.AppendedListed | script/internal/target.py:138-140 | the append keeps every entry and lists the new ones in the requested scopes |
| MainTargets.MergedLinkLibs | script/internal/target.py:171-174 | a merge keeps every link library of the dependent |
| MainTargets.LinkTargetMerged | script/targets/main.py:70-71 | linking a target keeps every include directory and gains its external ones, keeps every macro, and takes the larger standard |
| MainTargets.RegisterHeader | script/targets/main.py:44-63 | succeeds exactly when "library_header" is free and, on Windows, mswebview2 is registered; then a fresh header library with its include directory, standards, warnings and per-system backend is registered last |
| MainTargets.ConfigureHeader | script/targets/main.py:47-63 | a fresh header target gets every property of the header library |
| MainTargets.ConfigureBackend | script/targets/main.py:51-63 | the system-dependent part completes the header library |
| MainTargets.ConfigureCocoa | script/targets/main.py:51-53 | on macOS: WEBVIEW_COCOA and the WebKit framework |
| MainTargets.ConfigureGtk | script/targets/main.py:54-56 | on Linux: WEBVIEW_GTK and the GTK and WebKitGTK packages |
| MainTargets.ConfigureEdge | script/targets/main.py:57-63 | on Windows: WEBVIEW_EDGE, mswebview2, the system libraries and threads |
| MainTargets.LinkWebView2 | script/targets/main.py:59-63 | the header links mswebview2 and the six system libraries externally and uses threads; include directory, macro and standards are kept or raised |
| MainTargets.LinkExternal | script/targets/main.py:59 | on an interface target the default scope is external: the target is listed there, include directories and macros are kept, standards only rise |
| MainTargets.LinkNamedExternal | script/targets/main.py:61-62 | names only change the link libraries, which keep every old entry and gain the names |
| MainTargets.RegisterLibrary | script/targets/main.py:65-89 | succeeds exactly when the name is free; the library is fresh, registered last, built from webview.cc, links the header publicly and defines its macros |
| MainTargets.ConfigureLibrary | script/targets/main.py:68-89 | a fresh library target gets the condition, output name, header link, macros and source |
| MainTargets.RegisterExample | script/targets/main.py:93-108 | succeeds exactly when the example's name is free; the example is fresh, registered last, links the header (C++) or the static library (C) and builds its source |
| MainTargets.LinkPublic | script/targets/main.py:70-71 | with scope PUBLIC the library is listed in both scopes and its external include directories reach both |
| MainTargets.ConfigureExample | script/targets/main.py:98-108 | a fresh example target gets its condition, link, source and, for C with MSVC, _CRT_SECURE_NO_WARNINGS |
| MainTargets.LinkOne | script/targets/main.py:101 | a program's default scope is internal: the library is listed there |
| MainTargets.AddSource | script/targets/main.py:105 | a target without sources gets exactly the one normalized source |
| MainTargets.RegisterTest | script/targets/main.py:110-116 | succeeds exactly when "library_test" is free; the test program is fresh, registered last, links the header and builds webview_test.cc |
| MainTargets.Register | script/targets/main.py:31-116 | succeeds exactly when the registered names and all names it adds are distinct and, on Windows, mswebview2 is registered; then the header, shared, static, example and test targets are appended in that order with the properties register gives them |
| MainTargets.RegisterAfterLibraries | script/targets/main.py:91-116 | after the libraries, the examples then the test program are appended; a failure means some name clashed |
| MainTargets.RegisterPrograms | script/targets/main.py:91-116 | the example programs in the order found, then the test program |
| MainTargets.RegisterLastTest | script/targets/main.py:110-116 | the test program takes the last name, or the name clashed |
| MainTargets.RegisteredNamesAt | script/targets/main.py:45-112 | the names register adds: the three libraries, one per example source, then library_test |
| MainTargets.RegisterLibraries | script/targets/main.py:44-89 | the three libraries are appended in order, or a name clashed, or mswebview2 is missing on Windows |
| MainTargets.RegisterBuiltLibraries | script/targets/main.py:65-89 | the shared then the static library are appended, or a name clashed |
| MainTargets.RegisterNextExample | script/targets/main.py:93-108 | one more example is appended with the facts of its source, or its name clashed |
| MainTargets.RegisterExamples | script/targets/main.py:93-108 | one example per source, in the order found, stopping at the first name that is taken |
| WebviewOptions.UnsignedDiffAsInt | webview.h:391-400 | the unsigned difference of two fields read as a 32-bit int: within the int range and equal to the true difference modulo 2^32 |
| WebviewOptions.CompareVersions | webview.h:388-400 | zero exactly for equal versions, negative exactly when the first is older, positive exactly when it is newer |
| WebviewOptions.UnsignedDiffZero | webview.h:391-400 | the wrapped difference is zero exactly when the fields are equal |
| WebviewOptions.CompareVersionsAsWrittenZero | webview.h:391-400 | as written, the result is zero exactly for equal versions, whatever the fields |
| WebviewOptions.CompareVersionsAgree | webview.h:388-400 | while every field is below 2^31 the code as written gives the intended comparison |
| WebviewOptions.HugeVersionComparesOlder | webview.h:391-400 | as written, 2147483648.0.0 compares below 0.10.0 although it is newer |
| WebviewOptions.LibraryVersionIsAtLeast | webview.h:404-408 | with the intended comparison: true exactly when the library's version is not older than the given one |
| WebviewOptions.LibraryVersionAgrees | webview.h:404-408 | for versions whose fields stay below 2^31 the check as written agrees with the intended one |
| WebviewOptions.HugeLibraryVersionAsWritten | webview.h:404-408 | as written, the library counts as at least version 2147483649.0.0; the intended check says it is not |
| WebviewOptions.ErrorValuesDistinct | webview.h:145-168 | the error codes have distinct values |
| WebviewOptions.CreateOptionsBuilder.constructor | webview.h:351-353 | a new builder holds zeroed options with the minimum supported version |
| WebviewOptions.CreateOptionsBuilder.MinimumRequiredVersion | webview.h:355-359 | only the version changes |
| WebviewOptions.CreateOptionsBuilder.Debug | webview.h:361-364 | only the debug flag changes |
| WebviewOptions.CreateOptionsBuilder.Window | webview.h:366-369 | only the window changes |
| WebviewOptions.CreateOptionsBuilder.Visibility | webview.h:371-374 | only the visibility changes |
| WebviewOptions.CreateOptionsBuilder.Build | webview.h:376 | the options as built so far |
| WebviewOptions.MigrateCreateOptions | webview.h:635-638 | the minimum supported version, the given debug flag and window, not visible |
| WebviewOptions.ValidateCreateOptions | webview.h:640-652 | with the intended comparison: too old exactly for a version older than 0.10.0, too recent exactly for one newer than the library, no other error |
| WebviewOptions.ValidateAgrees | webview.h:640-652 | for versions whose fields stay below 2^31 validation as written agrees with the intended one |
| WebviewOptions.OnlyLibraryVersionAcceptedAsWritten | webview.h:640-652 | as written, with the library at 0.10.0, validation passes exactly for version 0.10.0 |
| WebviewOptions.HugeVersionTooOldAsWritten | webview.h:640-652 | as written, version 2147483648.0.0 is rejected as too old; the intended reading rejects it as too recent |
| WebviewOptions.OnlyLibraryVersionAccepted | webview.h:640-652 | with the minimum and the library version both 0.10.0, exactly 0.10.0 passes |
| WebviewOptions.ApplyCompatibility | webview.h:654-666 | with the intended comparison: a zero version stands for the minimum; it throws exactly when validation fails, with its code; otherwise version, debug and window are kept and the window is visible when asked or when the version is below 0.11.0 |
| WebviewOptions.ApplyCompatibilityAgrees | webview.h:654-666 | for versions whose fields stay below 2^31 the compatibility step as written agrees with the intended one |
| WebviewOptions.HugeVersionThrowsAsWritten | webview.h:654-666 | as written, version 2147483648.0.0 throws VERSION_TOO_OLD; the intended reading throws VERSION_TOO_RECENT |
| WebviewOptions.CompatibleVersions | webview.h:654-666 | version zero and 0.10.0 are accepted as 0.10.0 and made visible |
| WebviewOptions.MigratedOptionsAccepted | webview.h:635-666 | options migrated from the two-argument constructor always pass, visible |
| WebviewOptions.TryCatch | webview.h:668-678 | success gives OK, a webview_exception its code, anything else INTERNAL |
| Json.Lex | webview.h:441-511 | a literal's end re-reads the delimiter between values; between values exactly the bytes that cannot start or separate a value are rejected |
| Json.Step | webview.h:432-544 | one iteration keeps the scanner well formed and moves forward one byte, or stays put once when a literal ends; a value found lies in the text |
| Json.Run | webview.h:432-546 | the value found by the loop lies within the text |
| Json.ScanValue | webview.h:410-431 | the value found under the key or at the index lies within the text |
| Json.EndOfInputFails | webview.h:546 | at the end of the text the result is -1, keeping the value pointer the scan may have set |
| Json.RejectedBetweenValues | webview.h:442-459 | between values a byte that cannot start or separate a value makes the scan fail |
| Json.LiteralEndedByControlFails | webview.h:461-473 | a literal ended by a tab, line feed or carriage return fails, because the delimiter falls through into the string check |
| Json.EmptyTextFails | webview.h:429-432 | empty text gives -1 and no value |
| Json.JsonParseC | webview.h:410-547 | the loop's result, value and size are those of ScanValue |
| Json.ScanByte | webview.h:440-544 | the loop body computes Step |
| Json.UnescapeFrom | webview.h:559-602 | the loop never writes more than n - 2 bytes |
| Json.Unescape | webview.h:554-558 | a value that does not start with a quote fails with nothing written |
| Json.UnescapeCountBound | webview.h:554-607 | the count is at most n - 2, and -1 without the opening quote |
| Json.UnescapePlain | webview.h:559-602 | without backslashes the bytes between the quotes are copied, and the call succeeds exactly when the last byte is a quote |
| Json.UnknownEscapeFails | webview.h:589-590 | an escape that is not decoded, \u among them, makes the call fail |
| Json.JsonEscape | webview.h:549-552 | the text between two double quotes, unchanged |
| Json.EscapeRoundTrip | webview.h:549-607 | unescaping what json_escape made gives the text back, for text without backslashes |
| Json.JsonUnescape | webview.h:554-607 | the count is that of Unescape with or without a buffer; a buffer receives the decoded bytes and a NUL after them on success |
| Json.DecodeAt | webview.h:560-592 | a backslash and its letter are decoded together; any other byte stands for itself |
| Json.Memory | webview.h:554-607 | json_unescape reads the rest of the text and its terminating NUL |
| Json.ParsedPlainString | webview.h:619-630 | a found string value of plain bytes parses to the bytes between its quotes |
| Json.JsonParse | webview.h:609-633 | the result is the specification ParsedValue: the raw value when it is not a string, the unescaped bytes when the count is positive, the empty string otherwise |
| Json.SkipStringBody | webview.h:471-491 | inside a string plain bytes are passed over without any other change |
| Json.NegativeIndexFindsNothing | webview.h:517-525 | without a key a negative index never reaches 0, so nothing is found |
| Json.NegativeIndexGivesEmpty | test/src/detail/json.cc:22-24 | an empty key with a negative index gives the empty string, whatever the text |
| Json.EmptyTextGivesEmpty | test/src/detail/json.cc:26-27 | empty text gives the empty string |
| Json.SeparatorSkipped | webview.h:443-445 | between values whitespace, ',' and ':' are passed over |
| Json.OuterOpened | webview.h:449-450 | the outermost '{' or '[' enters depth 1 |
| Json.OuterClosed | webview.h:451-452 | the outermost '}' or ']' leaves depth 1 without reporting anything |
| Json.StringOpened | webview.h:446-448 | a string that starts puts the scanner inside it |
| Json.StringValueFound | webview.h:517-530 | at depth 1 with the index at 0 a string is the value found, quotes included |
| Json.StringKeyRead | webview.h:521-538 | at depth 1 with index 1 and a key sought, a string is read as a key: the index becomes 0 when it matches, 2 otherwise |
| Json.StringSkipped | webview.h:523-525 | at depth 1 with no key sought and nothing found, a string counts the index down |
| Json.InnerStringSkipped | webview.h:471-491 | below depth 1 a plain string changes nothing but the position |
| Json.SkipLiteralBody | webview.h:461-491 | inside a literal its bytes are passed over |
| Json.InnerLiteralSkipped | webview.h:453-467 | below depth 1 a literal changes nothing but the position, its delimiter then read again |
| Json.StructValueStarts | webview.h:517-520 | at depth 1 with the index at 0 an object or array starts the value found and enters depth 2 |
| Json.StructValueEnds | webview.h:513-530 | the bracket that brings the scan back to depth 1 completes the value found, brackets included |
| Json.ParseObjectMember | test/src/detail/json.cc:8 | {"foo":"bar"} has "bar" under "foo" |
| Json.ParseArrayElement | test/src/detail/json.cc:13 | index 2 of ["foo", "bar", "baz"] is "baz" |
| Json.ParseNestedObject | test/src/detail/json.cc:11 | {"foo": {"bar": 1}} has the object {"bar": 1}, verbatim, under "foo" |
| Json.ParseIndexOutOfRange | test/src/detail/json.cc:23 | index 1234 of ["foo"] gives the empty string |
| Webview.DispatchAfterBind | webview.h:1913-1974 | after bind, a message naming the bound name reaches the new binding with the message's id and params |
| Webview.DispatchAfterUnbind | webview.h:1940-1974 | after unbind, a message naming that name is ignored |
| Webview.DispatchOtherNames | webview.h:1913-1974 | binding or unbinding a name leaves messages for every other name as they were |
| Webview.Webview.constructor | webview.h:1873-1875 | the webview holds the options after the compatibility step as written, with no bindings and no engine calls |
| Webview.Webview.Navigate | webview.h:1884-1890 | the engine navigates to the URL, or to about:blank for an empty one; nothing else changes |
| Webview.Webview.Bind | webview.h:1913-1938 | a name already bound throws DUPLICATE and changes nothing; otherwise the binding is stored and the defining script is passed to init, then eval |
| Webview.Webview.Unbind | webview.h:1940-1949 | a name not bound throws NOT_FOUND and changes nothing; otherwise the deleting script is passed to init, then eval, and the binding is removed |
| Webview.Webview.OnMessage | webview.h:1964-1974 | the callback called, with the parsed id and params, is that of the binding named by the parsed method; nothing is called exactly when that name is not bound |
| Webview.Webview.AddScript | webview.h:2077-2091 | init registers and eval runs the user's script; nothing else changes |
| Webview.Webview.SetWindowTitle | webview.h:2047-2053 | the engine receives the title; nothing else changes |
| Webview.CastToWebview | webview.h:1981-1987 | completes exactly for a non-null handle; a null one throws INVALID_ARGUMENT |
| Webview.CreateWithOptions | webview.h:2002-2009 | a null out-pointer or options give INVALID_ARGUMENT and no webview; a throwing compatibility step gives its code and no webview; a browser engine that fails to start gives the code try_catch makes of its exception and no webview; otherwise success and a fresh webview with the adjusted options |
| Webview.Create | webview.h:1992-2000 | returns a webview exactly when the browser engine starts, and null otherwise; the webview holds the minimum supported version, the debug flag, the window, and is visible |
| Webview.WebviewNavigate | webview.h:2061-2067 | a null URL or handle gives INVALID_ARGUMENT and changes nothing; otherwise success and one navigation |
| Webview.WebviewSetTitle | webview.h:2047-2053 | a null title or handle gives INVALID_ARGUMENT and changes nothing; otherwise success and the title set |
| Webview.WebviewScript | webview.h:2077-2091 | a null script or handle gives INVALID_ARGUMENT and changes nothing; otherwise success and the script handed to init or eval |
| Webview.WebviewBind | webview.h:2093-2109 | a null name, callback or handle gives INVALID_ARGUMENT; DUPLICATE exactly for a bound name; otherwise success, the binding added and its defining script passed to init then eval; a rejected call leaves the engine calls unchanged |
| Webview.WebviewUnbind | webview.h:2111-2117 | a null name or handle gives INVALID_ARGUMENT; NOT_FOUND exactly for an unbound name; otherwise success, the binding removed and its deleting script passed to init then eval; a rejected call leaves the engine calls unchanged |

## Left out

- Console output is not modelled: `print_table`, `print_help`, error printing and the help text's layout produce only text.
- `parse_args` over `sys.argv` and `create_program_spec`'s inspection of live Python functions are not modelled. A command function is given by its name, its docstring and the names of its annotated parameters.
- Shell.EscapeShellString: the model states what the replacements of `script/common.py:259-266` do, not how a shell reads the result, and `UnescapeShellString` only removes the model's own marks. The escaped sets do not cover every character a shell reads specially inside the double quotes of `script/common.py:268-278`. In sh, `"` and `` ` `` stay special, so a value `a"b` closes the quote early and `` `cmd` `` runs a command. In PowerShell, `$` still starts an expansion. In cmd, whether a caret inside `set "…"` acts as an escape follows cmd's quoting rules, which the model does not describe. `Shell.EscapeRoundTrip` and `Shell.ExportValueRecoverable` therefore speak of removing the marks, not of the shell's reading.
- `detect_current_shell` is not modelled: it inspects parent processes. The shell is a parameter.
- The invalid-shell exception branch of the shell helpers is not modelled: the `Shell` type has only the supported shells.
- Running processes is not modelled; each result becomes a parameter:
  - the compiler probes;
  - pkg-config;
  - the `find_*` helpers' searches of `PATH`;
  - downloads;
  - the Go toolchain.
- File-system access is not modelled; each result becomes a parameter:
  - source directory walks;
  - reading the CMake cache file;
  - writing the preprocessed header.
- `os.path.normpath` and `os.path.abspath` are modelled as joining only; paths are compared as text.
- Paths.RelPath: `os.path.relpath` is modelled on the names between slashes (a ".." for each name of the base after the common prefix, then the rest of the path, "." when nothing is left). It does not first make both paths absolute against the current directory or normalise "." and ".." names, so it differs from Python when exactly one of the two paths is relative or a path holds such names.
- `str.lower` and `str.strip` are modelled on ASCII only. Unicode case folding and Unicode white space are not modelled.
- CommandSpecs.IsWordChar: the `\w` class of the parameter pattern at `script/common.py:63` is modelled as `[A-Za-z0-9_]`. Python's `str` patterns also match any Unicode letter or digit there, so a docstring line with a non-ASCII parameter name is read as a parameter by the source and not by the model.
- `str.splitlines` breaks at every ASCII line boundary (`\n`, `\r`, `\r\n`, `\v`, `\f` and the separators `\x1c` to `\x1e`). The boundaries beyond ASCII (`\x85`, `\u2028`, `\u2029`) are not modelled.
- Go.ParseInt: Unicode decimal digits and Unicode white space, which Python's `int()` also accepts, are not modelled. The error message quotes the text between single quotes, where Python's `repr` may choose double quotes or escape characters.
- The order of Python `dict` and `set` values is kept only where the scripts use it. Elsewhere maps and sets are unordered.
- `Workspace.add_test` and `get_tests` (`script/internal/workspace.py:98-117`) are not modelled, and neither is the test entry created at `script/targets/main.py:117-120`. They only record a program to run later, and running tests is outside the model.
- The MSVC and MinGW toolchains are not modelled, and neither is `activate_toolchain` (environment set-up through `vcvarsall`). Only GCC- and Clang-like toolchains are.
- Targets.Target.SetWarningParams and the runtime link method per scope come from a later revision of `script/internal/target.py`. `script/targets/main.py:50` and `script/internal/toolchain/gcc_like.py:107`, `172`, `207` and `211` use them, but the revision of `script/internal/target.py` this model follows lacks them; the model follows their callers.
- A target's `set_condition` callable is modelled as the boolean it returns.
- ToolchainDetect.DetectToolchain: the model follows the intended construction of `ToolchainBinaries` without `ld`, the constructor `script/internal/toolchain/common.py:61` defines, so a successful detection yields a `Detected` toolchain. As written, `script/internal/toolchain/toolchain.py:82` and `:102` pass `ld=ld` to that constructor, which raises TypeError on every successful detection; The same revision skew shows in two imports the model does not follow: `toolchain.py:6` imports `ToolchainEnvironmentId`, where `common.py:20` defines `EnvironmentId`, and `script/internal/toolchain/gcc_like.py:1` imports `RuntimeLinkType`, which no file under `script/` defines. The linker appears only in detection's check that every tool is present.
- ToolchainDetect.ChooseToolchain: follows the same intended `ToolchainBinaries` construction without `ld`; as written, it raises TypeError at `script/internal/toolchain/toolchain.py:82` when the overrides resolve and are identified, and at `:102` when a hint works, where the model returns a `Detected` toolchain.
- ToolchainDetect.FromHint: follows the same intended `ToolchainBinaries` construction without `ld`; as written, `script/internal/toolchain/toolchain.py:102` raises TypeError for every working hint.
- The tuple value of `Language.CXX` is not modelled; languages are an enumeration.
- Concurrent collections are not run on a thread pool: `TaskRunner.execute` is modelled by its outcome when tasks run in submission order. The error reported is the earliest-submitted failure, as the source awaits results in that order.
- A task's random id (`uuid.uuid4().hex` at `script/internal/task.py:17`) and `get_id` (`task.py:27-28`) are not modelled: randomness is outside the model and nothing in the modelled scripts reads the id.
- Task phases, task status and cancellation are not modelled: `task.py` does not define them.
- The rest of `script/` is not modelled, because each part is a wrapper around external tools, the terminal or the file system:
  - `script/internal/toolchain/msvc.py` and `mingw.py`;
  - `script/internal/dev.py`, `cli.py` and `lifecycle.py`;
  - `script/tasks/`, `script/targets/deps/` and `script/targets/common.py`.
- Creating directories and running a task's command (`_process_task`) is not modelled: a task's work is the command it would run.
- `widen_string` and `narrow_string` in `webview.h` are not modelled: they convert through the Windows API.
- The browser backends (GTK/WebKitGTK, Cocoa/WebKit, Win32/WebView2) are not modelled: the engine's work is outside the library's logic.
- Threads and the event loop are not modelled, and neither are `run`, `terminate`, `dispatch`, `resolve`, `webview_return` and the synchronous wrapper around a bound callback.
- Window operations are not modelled: `set_size`, `set_html`, `show` and `get_window` only forward to the window system.
- `webview_destroy` is not modelled: deallocation.
- The JavaScript text of the bind and unbind scripts is not modelled; the `Script` datatype names what each script does.
- `webview_bool_t` is read as a `bool`: every non-zero value is true.
- PreProcess.PreProcessOptions follows `get_host_arch` as written (`script/internal/utility.py:54-64`), so a native target on a 32-bit x86 host stops with its error. The steps and their lemmas take the outcome of `get_host_arch` as a parameter, so they hold for the intended reading as well.
- WebviewOptions.CompareVersions, WebviewOptions.LibraryVersionIsAtLeast, WebviewOptions.ValidateCreateOptions and WebviewOptions.ApplyCompatibility state the intended, non-wrapping comparison. The webview itself (`Webview.Webview.constructor`, `Webview.CreateWithOptions`, `Webview.Create`) follows the code as written; the `...Agrees` lemmas show the two agree while every version field stays below 2^31.
- Webview.CreateWithOptions: the browser engine's constructor is a parameter (`engine`): whether it returns or throws, and with which code. The failures it can raise (`webview.h:727-730`, `1346-1350`, `1554-1556`) are not modelled one by one.
- Json.JsonParse: `json_parse` passes its `int` index through `json_parse_c`'s `size_t` key-size parameter, which converts it back to `int`. The model passes the `int` directly. This assumes the usual two's-complement round trip: a negative index stays negative and is never found.

## Findings

| source | as written | input that shows it | evidently intended | confidence | as-written member | corrected member |
|---|---|---|---|---|---|---|
| script/internal/utility.py:58-59 | `get_host_arch` tests `arch == ("i386", "x86")`, comparing a string with a tuple, which is never equal | machine `"x86"` (or `"i386"`) raises "Unsupported host machine architecture" | `arch in ("i386", "x86")`, giving X86 | high, not executed | Utility.HostArchAsWritten, Utility.X86HostRejectedAsWritten, PreProcess.X86HostStopsAsWritten | Utility.HostArch, Utility.HostArchExtendsAsWritten, PreProcess.X86HostResolvesCorrected |
| script/common.py:231-232 | `load_cmake_cache` splits each entry on every `=` and keeps only the second piece | `CMAKE_CXX_FLAGS:STRING=-DA=1` reads as `-DA` | split at the first `=` only, keeping `-DA=1` | high, not executed | CmakeCache.ParseEntryAsWritten, CmakeCache.ValueWithEqualsTruncated | CmakeCache.ParseEntry, CmakeCache.ValueWithEqualsKept |
| script/common.py:58-76 | `parse_command_docstring` takes `lines[0]` of a blank docstring, which raises IndexError before `create_command_spec` can check for a missing brief; a missing docstring raises AttributeError | a command function whose docstring is `""` | report that the command does not specify a brief description | medium, not executed | CommandSpecs.CreateCommandSpecAsWritten, CommandSpecs.MissingBriefUnreachable, CommandSpecs.EmptyDocstringAsWritten | CommandSpecs.CreateCommandSpec |
| webview.h:391-400 | `compare_versions` returns the difference of two `unsigned int` fields converted to `int`, which wraps for differences of 2^31 or more | requested version 2147483648.0.0 against 0.10.0 compares lower, so it is reported as too old | a negative result exactly when the first version is older | medium, not executed | WebviewOptions.CompareVersionsAsWritten, WebviewOptions.HugeVersionComparesOlder, WebviewOptions.HugeVersionTooOldAsWritten, WebviewOptions.HugeVersionThrowsAsWritten, WebviewOptions.HugeLibraryVersionAsWritten | WebviewOptions.CompareVersions, WebviewOptions.CompareVersionsAgree, WebviewOptions.ValidateAgrees, WebviewOptions.ApplyCompatibilityAgrees |
