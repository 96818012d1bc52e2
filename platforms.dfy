/** The platform and architecture tags of a library item, and the host the process runs on. */
module Platforms {

  /** NativeLand's platform enumeration (operating system of a binary). */
  datatype Platform = Windows | Linux | MacOS

  /** The processor architectures of System.Runtime.InteropServices.Architecture. */
  datatype Architecture = X86 | X64 | Arm | Arm64 | Wasm | S390x | LoongArch64 | Armv6 | Ppc64le | RiscV64

  /** Which loader family the library item dispatches to. */
  datatype LoaderFamily = WindowsLoader | MacOSLoader | UnixLoader | NoLoader

  /**
   * What the platform probe reports about the running process. The probe itself is an
   * external library; its answers are inputs here. More than one of the first three flags
   * may hold (a macOS host may also report Unix): the library asks in a fixed order.
   */
  datatype Host = Host(onWindows: bool, onMacOS: bool, onUnix: bool, runningFromMono: bool)
  {
    /** The loader chosen by the Windows, then macOS, then Unix test order. */
    function Loader(): (family: LoaderFamily)
      ensures family == WindowsLoader <==> onWindows
      ensures family == MacOSLoader <==> !onWindows && onMacOS
      ensures family == UnixLoader <==> !onWindows && !onMacOS && onUnix
      ensures family == NoLoader <==> !onWindows && !onMacOS && !onUnix
    {
      if onWindows then WindowsLoader
      else if onMacOS then MacOSLoader
      else if onUnix then UnixLoader
      else NoLoader
    }
  }
}
