/** The host operating system as `platform.system()` names it. */
module Platform {

  datatype System = Linux | Darwin | Windows | OtherSystem(name: string) {
    /** The string platform.system() returns. */
    function Name(): string {
      match this
      case Linux => "Linux"
      case Darwin => "Darwin"
      case Windows => "Windows"
      case OtherSystem(n) => n
    }
  }
}

/** The target architectures of the build scripts (script/internal/common.py). */
module Arches {

  datatype Arch = Arm64 | Arm32 | Native | X64 | X86 {
    /** The enum member's value, used as the build directory name. */
    function Value(): (v: string)
      ensures |v| > 0 && '/' !in v
    {
      match this
      case Arm64 => "arm64"
      case Arm32 => "arm32"
      case Native => "native"
      case X64 => "x64"
      case X86 => "x86"
    }

    /** The member name, as str() of the enum prints it after "Arch.". */
    function MemberName(): string {
      match this
      case Arm64 => "ARM64"
      case Arm32 => "ARM32"
      case Native => "NATIVE"
      case X64 => "X64"
      case X86 => "X86"
    }
  }
}
