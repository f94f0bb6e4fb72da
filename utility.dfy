/**
 * The pure helpers of script/internal/utility.py: boolean strings, the host
 * architecture and the bytes a finished program printed. Downloading,
 * extracting, executable lookup and process execution are left out; the
 * host machine name (platform.machine()) is a parameter.
 */
module Utility {
  import opened Wrappers
  import opened Text
  import opened Arches

  /** is_false_string: "0", "false" or "no", in any letter case. */
  predicate IsFalseString(s: string) {
    Lower(s) in {"0", "false", "no"}
  }

  /** is_true_string: "1", "true" or "yes", in any letter case. */
  predicate IsTrueString(s: string) {
    Lower(s) in {"1", "true", "yes"}
  }

  /** No string is both a true string and a false string. */
  lemma TrueFalseExclusive(s: string)
    ensures !(IsTrueString(s) && IsFalseString(s))
  {
    var l := Lower(s);
    assert "1"[0] != "0"[0] && "true"[0] != "false"[0] && "yes"[0] != "no"[0];
    assert |"true"| != |"no"| && |"yes"| != |"false"|;
  }

  /** bool_to_str: the boolean a true or false string stands for; anything else raises. */
  function BoolToStr(s: string): (r: Result<bool>)
    ensures r == Ok(true) <==> IsTrueString(s)
    ensures r == Ok(false) <==> IsFalseString(s)
    ensures r.Err? <==> !IsTrueString(s) && !IsFalseString(s)
    ensures r.Err? ==> r.error == "Cannot convert string to boolean value: " + s
  {
    TrueFalseExclusive(s);
    if IsTrueString(s) then Ok(true)
    else if IsFalseString(s) then Ok(false)
    else Err("Cannot convert string to boolean value: " + s)
  }

  /** Lower-casing twice is lower-casing once. */
  lemma LowerIdempotent(s: string)
    ensures Lower(Lower(s)) == Lower(s)
  {
    assert forall i | 0 <= i < |s| :: LowerChar(LowerChar(s[i])) == LowerChar(s[i]);
  }

  /** bool_to_str ignores letter case: a string and its lower-cased form convert alike. */
  lemma BoolToStrIgnoresCase(s: string)
    ensures BoolToStr(Lower(s)).Ok? == BoolToStr(s).Ok?
    ensures BoolToStr(s).Ok? ==> BoolToStr(Lower(s)) == BoolToStr(s)
  {
    LowerIdempotent(s);
  }

  /**
   * Python's `==` between a str and a tuple: values of different types are
   * never equal.
   */
  function StrEqualsPair(s: string, pair: (string, string)): bool {
    false
  }

  /**
   * get_host_arch as written: the x86 test compares the machine name with a
   * tuple instead of testing membership, so only "amd64" and "x86_64" are
   * accepted.
   */
  function HostArchAsWritten(machine: string): (r: Result<Arch>)
    ensures r.Ok? <==> Lower(machine) in {"amd64", "x86_64"}
    ensures r.Ok? ==> r.value == X64
  {
    var arch := Lower(machine);
    if arch in {"amd64", "x86_64"} then Ok(X64)
    else if StrEqualsPair(arch, ("i386", "x86")) then Ok(X86)
    else Err("Unsupported host machine architecture.")
  }

  /** A 32-bit x86 host is rejected by the code as written. */
  lemma X86HostRejectedAsWritten()
    ensures HostArchAsWritten("x86").Err? && HostArchAsWritten("i386").Err?
  {
    assert Lower("x86") == "x86";
    assert Lower("i386") == "i386";
    assert "x86" != "amd64" && "x86" != "x86_64";
  }

  /**
   * get_host_arch as evidently intended: "amd64"/"x86_64" are X64 and
   * "i386"/"x86" are X86, in any letter case; every other machine raises.
   */
  function HostArch(machine: string): (r: Result<Arch>)
    ensures r == Ok(X64) <==> Lower(machine) in {"amd64", "x86_64"}
    ensures r == Ok(X86) <==> Lower(machine) in {"i386", "x86"}
    ensures r.Err? <==> Lower(machine) !in {"amd64", "x86_64", "i386", "x86"}
    ensures r.Ok? ==> r.value in {X64, X86}
  {
    var arch := Lower(machine);
    if arch in {"amd64", "x86_64"} then Ok(X64)
    else if arch in {"i386", "x86"} then Ok(X86)
    else Err("Unsupported host machine architecture.")
  }

  /** Where both definitions accept a machine they agree; the intended one also accepts 32-bit x86. */
  lemma HostArchExtendsAsWritten(machine: string)
    ensures HostArchAsWritten(machine).Ok? ==> HostArch(machine) == HostArchAsWritten(machine)
    ensures HostArch("x86") == Ok(X86) && HostArch("I386") == Ok(X86)
  {
    assert Lower("x86") == "x86";
    assert Lower("I386") == "i386";
  }

  newtype byte = x: int | 0 <= x < 256

  /** ExecuteProgramResult: the exit code and the captured streams, each possibly absent. */
  datatype ExecuteProgramResult = ExecuteProgramResult(exitCode: int, stdout: Option<seq<byte>>, stderr: Option<seq<byte>>) {

    /** get_output_bytes: what was printed on stdout, followed by what was printed on stderr. */
    function GetOutputBytes(): (r: seq<byte>)
      ensures |r| == |Captured(stdout)| + |Captured(stderr)|
      ensures r[..|Captured(stdout)|] == Captured(stdout)
      ensures r[|Captured(stdout)|..] == Captured(stderr)
    {
      var output: seq<byte> := [];
      var output := if stdout.Some? && |stdout.value| > 0 then output + stdout.value else output;
      if stderr.Some? && |stderr.value| > 0 then output + stderr.value else output
    }
  }

  /** A stream's bytes, an absent stream counting as empty. */
  function Captured(s: Option<seq<byte>>): seq<byte> {
    if s.Some? then s.value else []
  }
}
