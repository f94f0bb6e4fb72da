/**
 * The version and create-option logic of webview.h: MAJOR.MINOR.PATCH
 * versions and their comparison, the create-options builder, validation of
 * the requested version against the supported range, the compatibility step
 * applied before a webview is created, and the mapping from exceptions to the
 * C API's error codes.
 */
module WebviewOptions {
  import opened Wrappers

  /** C's `unsigned int`. */
  newtype uint32 = x: int | 0 <= x < 0x1_0000_0000

  /** webview_version_t. */
  datatype Version = Version(major: uint32, minor: uint32, patch: uint32)

  /** The library's own version, WEBVIEW_VERSION_MAJOR.MINOR.PATCH. */
  const LibraryVersion := Version(0, 10, 0)

  /** min_supported_version: the oldest version a caller may ask for. */
  const MinSupportedVersion := Version(0, 10, 0)

  /** Lexicographic order on (major, minor, patch). */
  predicate VersionLess(a: Version, b: Version) {
    || a.major < b.major
    || (a.major == b.major && a.minor < b.minor)
    || (a.major == b.major && a.minor == b.minor && a.patch < b.patch)
  }

  /**
   * An unsigned subtraction converted to int: the difference is taken
   * modulo 2^32 and the 32 bits are read as two's complement.
   */
  function UnsignedDiffAsInt(a: uint32, b: uint32): (r: int)
    ensures -0x8000_0000 <= r < 0x8000_0000
    ensures (r - (a as int - b as int)) % 0x1_0000_0000 == 0
  {
    var d := (a as int - b as int) % 0x1_0000_0000;
    if d < 0x8000_0000 then d else d - 0x1_0000_0000
  }

  /** compare_versions as written: the first differing field's difference, as an int. */
  function CompareVersionsAsWritten(first: Version, second: Version): int {
    if first.major == second.major then
      if first.minor == second.minor then UnsignedDiffAsInt(first.patch, second.patch)
      else UnsignedDiffAsInt(first.minor, second.minor)
    else UnsignedDiffAsInt(first.major, second.major)
  }

  /**
   * compare_versions as its comment describes it: zero for equal versions,
   * negative when the first is older and positive when it is newer.
   */
  function CompareVersions(first: Version, second: Version): (r: int)
    ensures r == 0 <==> first == second
    ensures r < 0 <==> VersionLess(first, second)
    ensures r > 0 <==> VersionLess(second, first)
  {
    if first.major == second.major then
      if first.minor == second.minor then first.patch as int - second.patch as int
      else first.minor as int - second.minor as int
    else first.major as int - second.major as int
  }

  /** The difference wraps back to zero only when the fields are equal. */
  lemma UnsignedDiffZero(a: uint32, b: uint32)
    ensures UnsignedDiffAsInt(a, b) == 0 <==> a == b
  {
  }

  /** Fields that fit in an int. */
  predicate SmallVersion(v: Version) {
    v.major < 0x8000_0000 && v.minor < 0x8000_0000 && v.patch < 0x8000_0000
  }

  /** As written, the result is zero exactly for equal versions, whatever the fields. */
  lemma CompareVersionsAsWrittenZero(first: Version, second: Version)
    ensures CompareVersionsAsWritten(first, second) == 0 <==> first == second
  {
    UnsignedDiffZero(first.major, second.major);
    UnsignedDiffZero(first.minor, second.minor);
    UnsignedDiffZero(first.patch, second.patch);
  }

  /** While every field fits in an int, the code as written gives the intended result. */
  lemma CompareVersionsAgree(first: Version, second: Version)
    requires SmallVersion(first) && SmallVersion(second)
    ensures CompareVersionsAsWritten(first, second) == CompareVersions(first, second)
  {
  }

  /**
   * As written, version 2147483648.0.0 compares below 0.10.0, so
   * validate_create_options would report it as too old.
   */
  lemma HugeVersionComparesOlder()
    ensures VersionLess(MinSupportedVersion, Version(0x8000_0000, 0, 0))
    ensures CompareVersionsAsWritten(Version(0x8000_0000, 0, 0), MinSupportedVersion) < 0
  {
    assert UnsignedDiffAsInt(0x8000_0000, 0) == -0x8000_0000;
  }

  /** library_version_is_at_least: the library's version is the given one or newer. */
  function LibraryVersionIsAtLeast(major: uint32, minor: uint32, patch: uint32): (r: bool)
    ensures r <==> !VersionLess(LibraryVersion, Version(major, minor, patch))
  {
    CompareVersions(LibraryVersion, Version(major, minor, patch)) >= 0
  }

  /** library_version_is_at_least as written, through the wrapping comparison. */
  function LibraryVersionIsAtLeastAsWritten(major: uint32, minor: uint32, patch: uint32): bool {
    CompareVersionsAsWritten(LibraryVersion, Version(major, minor, patch)) >= 0
  }

  /** For versions whose fields fit in an int, the code as written answers as intended. */
  lemma LibraryVersionAgrees(major: uint32, minor: uint32, patch: uint32)
    requires SmallVersion(Version(major, minor, patch))
    ensures LibraryVersionIsAtLeastAsWritten(major, minor, patch) == LibraryVersionIsAtLeast(major, minor, patch)
  {
    CompareVersionsAgree(LibraryVersion, Version(major, minor, patch));
  }

  /** As written, the library claims to be at least version 2147483649.0.0. */
  lemma HugeLibraryVersionAsWritten()
    ensures LibraryVersionIsAtLeastAsWritten(0x8000_0001, 0, 0)
    ensures !LibraryVersionIsAtLeast(0x8000_0001, 0, 0)
  {
    assert UnsignedDiffAsInt(0, 0x8000_0001) == 0x7FFF_FFFF;
  }

  /** A native pointer: null or some address. */
  datatype Pointer = Null | Address(addr: nat)

  /** webview_create_options_t; webview_bool_t is read as a bool. */
  datatype CreateOptions = CreateOptions(minimumRequiredVersion: Version, debug: bool, window: Pointer, visible: bool)

  /** webview_error_t; Success is WEBVIEW_ERROR_OK. */
  datatype ErrorCode = Success | Internal | InvalidState | InvalidArgument | VersionTooRecent | VersionTooOld | Duplicate | NotFound {
    /** The enumerator's value in the C API. */
    function Value(): int {
      match this
      case Success => 0
      case Internal => 1000
      case InvalidState => 1001
      case InvalidArgument => 1002
      case VersionTooRecent => 2000
      case VersionTooOld => 2001
      case Duplicate => 2002
      case NotFound => 2003
    }
  }

  /** The error codes are distinct values. */
  lemma ErrorValuesDistinct(a: ErrorCode, b: ErrorCode)
    ensures a.Value() == b.Value() <==> a == b
  {
  }

  /** create_options_builder: every setter replaces one field of the options being built. */
  class CreateOptionsBuilder {
    var options: CreateOptions

    /** All fields zero, except the version, which is the minimum supported one. */
    constructor()
      ensures options == CreateOptions(MinSupportedVersion, false, Null, false)
    {
      options := CreateOptions(MinSupportedVersion, false, Null, false);
    }

    method MinimumRequiredVersion(version: Version)
      modifies this
      ensures options == old(options).(minimumRequiredVersion := version)
    {
      options := options.(minimumRequiredVersion := version);
    }

    method Debug(enable: bool)
      modifies this
      ensures options == old(options).(debug := enable)
    {
      options := options.(debug := enable);
    }

    method Window(w: Pointer)
      modifies this
      ensures options == old(options).(window := w)
    {
      options := options.(window := w);
    }

    method Visibility(visible: bool)
      modifies this
      ensures options == old(options).(visible := visible)
    {
      options := options.(visible := visible);
    }

    method Build() returns (r: CreateOptions)
      ensures r == options
    {
      r := options;
    }
  }

  /** migrate_webview_create_options: the options of the older two-argument constructor. */
  method MigrateCreateOptions(debug: bool, window: Pointer) returns (r: CreateOptions)
    ensures r == CreateOptions(MinSupportedVersion, debug, window, false)
  {
    var builder := new CreateOptionsBuilder();
    builder.Debug(debug);
    builder.Window(window);
    r := builder.Build();
  }

  /**
   * validate_create_options: the code of the exception thrown, if any. A
   * version older than the minimum supported one is too old; one newer than
   * the library is too recent.
   */
  function ValidateCreateOptions(options: CreateOptions): (r: Option<ErrorCode>)
    ensures r == Some(VersionTooOld) <==> VersionLess(options.minimumRequiredVersion, MinSupportedVersion)
    ensures r == Some(VersionTooRecent) <==> VersionLess(LibraryVersion, options.minimumRequiredVersion)
    ensures r.None? || r == Some(VersionTooOld) || r == Some(VersionTooRecent)
  {
    if CompareVersions(options.minimumRequiredVersion, MinSupportedVersion) < 0 then Some(VersionTooOld)
    else if CompareVersions(options.minimumRequiredVersion, LibraryVersion) > 0 then Some(VersionTooRecent)
    else None
  }

  /** validate_create_options as written, through the wrapping comparison. */
  function ValidateCreateOptionsAsWritten(options: CreateOptions): Option<ErrorCode> {
    if CompareVersionsAsWritten(options.minimumRequiredVersion, MinSupportedVersion) < 0 then Some(VersionTooOld)
    else if CompareVersionsAsWritten(options.minimumRequiredVersion, LibraryVersion) > 0 then Some(VersionTooRecent)
    else None
  }

  /** For a requested version whose fields fit in an int, validation as written is as intended. */
  lemma ValidateAgrees(options: CreateOptions)
    requires SmallVersion(options.minimumRequiredVersion)
    ensures ValidateCreateOptionsAsWritten(options) == ValidateCreateOptions(options)
  {
    CompareVersionsAgree(options.minimumRequiredVersion, MinSupportedVersion);
    CompareVersionsAgree(options.minimumRequiredVersion, LibraryVersion);
  }

  /** As written too, 0.10.0 is the only version accepted, whatever the fields. */
  lemma OnlyLibraryVersionAcceptedAsWritten(options: CreateOptions)
    ensures ValidateCreateOptionsAsWritten(options).None? <==> options.minimumRequiredVersion == Version(0, 10, 0)
  {
    CompareVersionsAsWrittenZero(options.minimumRequiredVersion, MinSupportedVersion);
  }

  /**
   * Version 2147483648.0.0 is reported as too old by the code as written,
   * and as too recent by the intended comparison.
   */
  lemma HugeVersionTooOldAsWritten(options: CreateOptions)
    requires options.minimumRequiredVersion == Version(0x8000_0000, 0, 0)
    ensures ValidateCreateOptionsAsWritten(options) == Some(VersionTooOld)
    ensures ValidateCreateOptions(options) == Some(VersionTooRecent)
  {
    HugeVersionComparesOlder();
  }

  /** With this library, where the minimum and the current version coincide, only 0.10.0 is accepted. */
  lemma OnlyLibraryVersionAccepted(options: CreateOptions)
    ensures ValidateCreateOptions(options).None? <==> options.minimumRequiredVersion == Version(0, 10, 0)
  {
  }

  /** The result of a call that may throw: the options, or the code of the exception. */
  datatype Outcome<T> = Returned(value: T) | Threw(code: ErrorCode)

  /**
   * apply_webview_create_options_compatibility: a zero version stands for
   * the minimum supported one; the options are then validated, and below
   * 0.11.0 the window is always visible.
   */
  function ApplyCompatibility(options: CreateOptions): (r: Outcome<CreateOptions>)
    ensures var v := if options.minimumRequiredVersion == Version(0, 0, 0) then MinSupportedVersion else options.minimumRequiredVersion;
      && (r.Threw? <==> ValidateCreateOptions(options.(minimumRequiredVersion := v)).Some?)
      && (r.Threw? ==> r.code == ValidateCreateOptions(options.(minimumRequiredVersion := v)).value)
      && (r.Returned? ==> r.value.minimumRequiredVersion == v && r.value.debug == options.debug && r.value.window == options.window)
      && (r.Returned? ==> r.value.visible == (options.visible || VersionLess(v, Version(0, 11, 0))))
  {
    var options := if CompareVersions(options.minimumRequiredVersion, Version(0, 0, 0)) == 0
      then options.(minimumRequiredVersion := MinSupportedVersion) else options;
    match ValidateCreateOptions(options)
    case Some(code) => Threw(code)
    case None =>
      Returned(if CompareVersions(options.minimumRequiredVersion, Version(0, 11, 0)) < 0 then options.(visible := true) else options)
  }

  /** apply_webview_create_options_compatibility as written, through the wrapping comparison. */
  function ApplyCompatibilityAsWritten(options: CreateOptions): Outcome<CreateOptions> {
    var options := if CompareVersionsAsWritten(options.minimumRequiredVersion, Version(0, 0, 0)) == 0
      then options.(minimumRequiredVersion := MinSupportedVersion) else options;
    match ValidateCreateOptionsAsWritten(options)
    case Some(code) => Threw(code)
    case None =>
      Returned(if CompareVersionsAsWritten(options.minimumRequiredVersion, Version(0, 11, 0)) < 0 then options.(visible := true) else options)
  }

  /** For a requested version whose fields fit in an int, the compatibility step as written is as intended. */
  lemma ApplyCompatibilityAgrees(options: CreateOptions)
    requires SmallVersion(options.minimumRequiredVersion)
    ensures ApplyCompatibilityAsWritten(options) == ApplyCompatibility(options)
  {
    var v := options.minimumRequiredVersion;
    CompareVersionsAgree(v, Version(0, 0, 0));
    var o := if v == Version(0, 0, 0) then options.(minimumRequiredVersion := MinSupportedVersion) else options;
    ValidateAgrees(o);
    CompareVersionsAgree(o.minimumRequiredVersion, Version(0, 11, 0));
  }

  /** As written, asking for version 2147483648.0.0 makes the compatibility step throw VERSION_TOO_OLD. */
  lemma HugeVersionThrowsAsWritten(options: CreateOptions)
    requires options.minimumRequiredVersion == Version(0x8000_0000, 0, 0)
    ensures ApplyCompatibilityAsWritten(options) == Threw(VersionTooOld)
    ensures ApplyCompatibility(options) == Threw(VersionTooRecent)
  {
    UnsignedDiffZero(0x8000_0000, 0);
    HugeVersionTooOldAsWritten(options);
  }

  /** Asking for version zero or for 0.10.0 is accepted, and the window is then made visible. */
  lemma CompatibleVersions(options: CreateOptions)
    requires options.minimumRequiredVersion in {Version(0, 0, 0), Version(0, 10, 0)}
    ensures ApplyCompatibility(options) == Returned(options.(minimumRequiredVersion := Version(0, 10, 0), visible := true))
  {
  }

  /** Options migrated from the older constructor always pass the compatibility step. */
  lemma MigratedOptionsAccepted(debug: bool, window: Pointer)
    ensures ApplyCompatibility(CreateOptions(MinSupportedVersion, debug, window, false))
      == Returned(CreateOptions(MinSupportedVersion, debug, window, true))
  {
  }

  /** What a callable did: returned, threw a webview_exception with a code, or threw anything else. */
  datatype Completion = Completed | ThrewWebviewException(code: ErrorCode) | ThrewOther

  /** try_catch: success is OK, a webview_exception gives its code, anything else INTERNAL. */
  function TryCatch(c: Completion): (r: ErrorCode)
    ensures c.Completed? ==> r == Success
    ensures c.ThrewWebviewException? ==> r == c.code
    ensures c.ThrewOther? ==> r == Internal
  {
    match c
    case Completed => Success
    case ThrewWebviewException(code) => code
    case ThrewOther => Internal
  }
}
