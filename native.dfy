/**
 * The operating system's dynamic-loading entry points, seen as oracles, and the three
 * per-platform "load library" helpers of a library item.
 */
module Native {
  import opened Platforms

  /** An IntPtr returned by the loader; 0 is IntPtr.Zero, the failure value. */
  type Handle = int

  /** An IntPtr returned by a symbol lookup; 0 means "not found". */
  type Address = int

  /** One byte of a binary resource. */
  newtype Byte = b: int | 0 <= b < 256

  /** A call into libdl.so either returns or throws (the library may be absent). */
  datatype DlopenCall = Returned(handle: Handle) | Threw

  /**
   * The foreign entry points. Each is a total function of its arguments: the model does
   * not describe what the operating system does, only how the library uses the answers.
   */
  datatype NativeApi = NativeApi(
    loadLibrary: string -> Handle,              // kernel32 LoadLibrary
    getProcAddress: (Handle, string) -> Address, // kernel32 GetProcAddress
    macDlopen: (string, int) -> Handle,          // libSystem.dylib dlopen
    macDlsym: (Handle, string) -> Address,       // libSystem.dylib dlsym
    monoDlopen: (string, int) -> Handle,         // Mono __Internal dlopen
    monoDlsym: (Handle, string) -> Address,      // Mono __Internal dlsym
    linuxDlopen: (string, int) -> DlopenCall,    // libdl.so dlopen
    linuxDlsym: (Handle, string) -> Address,     // libdl.so dlsym
    linuxDlopenNew: (string, int) -> Handle)     // libdl.so.2 dlopen

  const RTLD_LAZY: bv32 := 1
  const RTLD_GLOBAL: bv32 := 8

  /** The flags every dlopen call of the library passes. */
  const DlopenFlags: int := (RTLD_LAZY | RTLD_GLOBAL) as int

  function LoadWindowsLibrary(api: NativeApi, path: string): (h: Handle)
    ensures h == api.loadLibrary(path)
  {
    api.loadLibrary(path)
  }

  function LoadMacOSLibrary(api: NativeApi, path: string): (h: Handle)
    ensures h == api.macDlopen(path, 9)
  {
    api.macDlopen(path, DlopenFlags)
  }

  /**
   * Mono's own dlopen under Mono; otherwise libdl.so's dlopen, and libdl.so.2's only when
   * that call throws. A zero handle from libdl.so is returned as it is, never retried.
   */
  function LoadLinuxLibrary(api: NativeApi, runningFromMono: bool, path: string): (h: Handle)
    ensures runningFromMono ==> h == api.monoDlopen(path, 9)
    ensures !runningFromMono && api.linuxDlopen(path, 9).Returned? ==> h == api.linuxDlopen(path, 9).handle
    ensures !runningFromMono && api.linuxDlopen(path, 9).Threw? ==> h == api.linuxDlopenNew(path, 9)
  {
    if runningFromMono then api.monoDlopen(path, DlopenFlags)
    else match api.linuxDlopen(path, DlopenFlags)
      case Returned(handle) => handle
      case Threw => api.linuxDlopenNew(path, DlopenFlags)
  }

  /** The handle the load loop stores for a file on a host with a known loader family. */
  function LoadedHandle(host: Host, api: NativeApi, path: string): (h: Handle)
    requires host.Loader() != NoLoader
    ensures host.Loader() == WindowsLoader ==> h == LoadWindowsLibrary(api, path)
    ensures host.Loader() == MacOSLoader ==> h == LoadMacOSLibrary(api, path)
    ensures host.Loader() == UnixLoader ==> h == LoadLinuxLibrary(api, host.runningFromMono, path)
  {
    if host.onWindows then LoadWindowsLibrary(api, path)
    else if host.onMacOS then LoadMacOSLibrary(api, path)
    else LoadLinuxLibrary(api, host.runningFromMono, path)
  }

  /**
   * The direct symbol lookup of the host's loader family (no decoration search). The zero
   * for a host of no family only makes the function total: the symbol query throws before
   * it would look anything up on such a host.
   */
  function DirectLookup(host: Host, api: NativeApi, h: Handle, name: string): (a: Address)
    ensures host.onWindows ==> a == api.getProcAddress(h, name)
    ensures !host.onWindows && host.onMacOS ==> a == api.macDlsym(h, name)
    ensures !host.onWindows && !host.onMacOS && host.onUnix ==>
              a == (if host.runningFromMono then api.monoDlsym(h, name) else api.linuxDlsym(h, name))
    ensures !host.onWindows && !host.onMacOS && !host.onUnix ==> a == 0
  {
    match host.Loader()
    case WindowsLoader => api.getProcAddress(h, name)
    case MacOSLoader => api.macDlsym(h, name)
    case UnixLoader =>
      if host.runningFromMono then api.monoDlsym(h, name) else api.linuxDlsym(h, name)
    case NoLoader => 0
  }
}
