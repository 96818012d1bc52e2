# NativeLand library item, modelled in Dafny

NativeLand binds a .NET program to native libraries at run time. Its test program ships the
libraries inside its assembly and writes them to disk first. This project models the core
of the binding:

- `LibraryItem` — the files of one platform and bitness. Its load pass asks the
  host which loader family it runs on (Windows, macOS, other Unix, or none) and opens every
  file with that family's call (`LoadLibrary`, `dlopen` from `libSystem.dylib`, Mono's
  internal `dlopen` or `dlopen` from `libdl.so`, retried with `libdl.so.2` only when the
  first call throws). The flags are `RTLD_LAZY | RTLD_GLOBAL` = 9. It stores every handle
  and raises one `InvalidOperationException` that lists every file whose handle came back
  zero. Its symbol query walks the files in order. A file without a handle raises
  `InvalidOperationException`. On Windows a failed direct lookup starts the stdcall
  decorated-name search (`_name@0`, `_name@4`, … `_name@124`). The first non-zero address
  wins, and a query that finds nothing returns zero. The delegate lookup turns zero into
  `MissingMethodException`.
- `LibraryFile` — a file's name, its bytes, its explicit-load flag (default true) and the
  path and handle the load pass uses.
- `ResourceAccessor` (test program) — qualifies a resource name with the assembly name
  unless it already starts with it, and returns the resource's bytes or raises
  "Resource not available.".

The symbol query keeps the source's behaviour on Windows: the decorated name replaces the
symbol name and is never restored. A second file is therefore asked for `_foo@`, and its
decorated search probes `__foo@@0` and so on (`WindowsSecondFileQueriedWithDecoratedName`,
`WindowsNameDecoratedPerMiss`).

`Symbols.Decorated` (`"_" + name + "@"`, NativeLand/LibraryItem.cs:92), `Symbols.Probe`
(the candidate `prefix + stackSize`, line 95) and `Symbols.Probed` (0 to 124 in steps of 4,
line 93) are covered by the rows for `Symbols.WindowsStep`, `Symbols.DecoratedSearch` and
the decorated-search lemmas.

The lemmas `Symbols.PrefixCancel`, `Symbols.ProbesOneStepApart`, `Symbols.DecoratedTimesShift`,
`Errors.OccursAfter` and `Decimal.DigitRoundTrip` are proof helpers (sequence and arithmetic
steps used inside the proofs below), not properties of the source, and have no row.

Layout:

| file | module | contents |
|---|---|---|
| wrappers.dfy | Wrappers | `Result` and `Outcome` (a call that returns or throws) |
| platforms.dfy | Platforms | `Platform`, `Architecture`, the host probe `Host` and its loader family |
| native.dfy | Native | handles, addresses, bytes, the native entry points as the `NativeApi` oracle, the three loaders |
| errors.dfy | Errors | the exceptions and the messages the core builds |
| decimal.dfy | Decimal | the decimal rendering of the stack size appended to a decorated name |
| symbols.dfy | Symbols | the symbol query as a pure fold (`Resolve`) and its properties |
| loading.dfy | Loading | the list of paths that failed to load (`FailedPaths`) and its properties |
| library_file.dfy | LibraryFiles | class `LibraryFile` |
| library_item.dfy | LibraryItems | class `LibraryItem`: `LoadItem`, `LoadSymbol`, `GetNativeMethodDelegate` |
| resource_accessor.dfy | ResourceAccessors | `ResourceAccessor` |

The methods of `LibraryItem` are proved against the pure definitions. `LoadSymbol` returns
exactly `Resolve` over the files' paths and handles. `LoadItem` leaves each file's handle
equal to its loader's answer and returns the failure that lists exactly `FailedPaths`.

## Model

| member | source | states |
|---|---|---|
| LibraryItems.LibraryItem.constructor | NativeLand/LibraryItem.cs:227-244 | platform, bitness and files are stored as given |
| LibraryItems.LibraryItem.LoadItem | NativeLand/LibraryItem.cs:52-73 | on a supported host every file's handle is its loader's answer for its path, and the result is success iff no handle is zero, else an InvalidOperation whose message lists exactly the failed paths in order; on an unsupported host with files it throws PlatformNotSupported("Unsupported platform.") and writes no handle; name, bytes, flag and path of every file are unchanged |
| LibraryItems.LibraryItem.LoadFile | NativeLand/LibraryItem.cs:59-66 | the host's first matching family (Windows, macOS, Unix) writes the handle; no family means unsupported and nothing written |
| LibraryItems.LibraryItem.LoadSymbol | NativeLand/LibraryItem.cs:75-130 | the result is the symbol query `Resolve` over the files' paths and handles in order, including the carried decorated name on Windows |
| LibraryItems.LibraryItem.SearchDecorated | NativeLand/LibraryItem.cs:92-104 | the loop returns the first non-zero address among `prefix + N` for N = 0, 4, …, 124 (the reference `DecoratedSearch`), and reports found iff that address is non-zero |
| LibraryItems.LibraryItem.GetNativeMethodDelegate | NativeLand/LibraryItem.cs:132-139 | a zero address becomes MissingMethod with the method name in the message, a non-zero address is returned as the success, and a failure of the query passes through; a success always carries a non-zero address |
| Native.LoadWindowsLibrary | NativeLand/LibraryItem.cs:169-175 | the handle is LoadLibrary's answer |
| Native.LoadMacOSLibrary | NativeLand/LibraryItem.cs:177-183 | the handle is libSystem's dlopen with flags 9 |
| Native.LoadLinuxLibrary | NativeLand/LibraryItem.cs:141-167 | under Mono the internal dlopen; otherwise libdl.so's dlopen, and libdl.so.2's only when that call throws (a zero answer is not retried) |
| Platforms.Host.Loader | NativeLand/LibraryItem.cs:59-66 | the hosts are tested in the order Windows, macOS, Unix: the family is Windows iff the host is Windows, macOS iff the host is macOS and not Windows, Unix iff the host is Unix and neither Windows nor macOS, and none iff it is none of the three |
| Native.LoadedHandle | NativeLand/LibraryItem.cs:59-64 | the handle stored for a path is the answer of the loader of the host's family |
| Native.DirectLookup | NativeLand/LibraryItem.cs:87-121 | the plain-name lookup is GetProcAddress on Windows, libSystem's dlsym on macOS, and Mono's or libdl.so's dlsym on Unix, in that test order; the zero for a host of no family only makes the function total, since the query throws before any lookup there |
| Symbols.WindowsStep | NativeLand/LibraryItem.cs:87-108 | a plain name that resolves is returned before any decorated name is tried; otherwise a hit is the decorated search's address; a miss happens iff both fail, and it passes `"_" + name + "@"` on; a Windows file never throws past the handle check |
| Symbols.FileStep | NativeLand/LibraryItem.cs:81-123 | a zero handle raises InvalidOperation naming the path and the current name, before the host is asked; a loaded file on a host of no family raises PlatformNotSupported("Unsupported platform."); on Windows the step is `WindowsStep`; on macOS and Unix a hit is the direct lookup's address and a miss happens iff it is zero; a miss carries the decorated name on Windows and the same name elsewhere |
| Symbols.DecoratedSearch | NativeLand/LibraryItem.cs:93-104 | a non-zero result is the answer for some candidate with a stack size from the start up to 127 |
| Symbols.Resolve | NativeLand/LibraryItem.cs:79-129 | the query only ever throws InvalidOperation or PlatformNotSupported, and it throws only when some file has no handle or the host has no family |
| Symbols.NameAfter | NativeLand/LibraryItem.cs:92 | the name carried past the files is the queried name, or a longer one and then only on Windows |
| Symbols.DecoratedSearchMissesAll | NativeLand/LibraryItem.cs:93-104 | the decorated search returns zero when every probed candidate is absent |
| Symbols.DecoratedSearchReturnsFirstHit | NativeLand/LibraryItem.cs:93-101 | the decorated search returns the address of the first probed stack size that resolves |
| Symbols.DecoratedSearchIgnoresUnprobed | NativeLand/LibraryItem.cs:93-95 | two exports that agree on the probed candidates give the same search result |
| Symbols.ResolveAppend | NativeLand/LibraryItem.cs:79-129 | querying `files + more` is querying `files`, and only if that found nothing, `more` with the name carried out of `files` |
| Symbols.ResolveStep | NativeLand/LibraryItem.cs:79-128 | one more file extends an undecided query by that file's step under the carried name, and a decided prefix decides the whole list |
| Symbols.ResolveExtendOne | NativeLand/LibraryItem.cs:79-128 | appending one file to a list that found nothing gives that file's step under the carried name |
| Symbols.ResolveSingle | NativeLand/LibraryItem.cs:79-128 | a one-file query is that file's step |
| Symbols.UnloadedRejectedWhenReached | NativeLand/LibraryItem.cs:82-83 | the first file without a handle reached by the query raises InvalidOperation naming its path and the name being queried |
| Symbols.UnloadedRejectionReached | NativeLand/LibraryItem.cs:82-83 | an InvalidOperation from the query always comes from a reached file whose handle is zero |
| Symbols.NameUnchangedOffWindows | NativeLand/LibraryItem.cs:109-121 | off Windows the queried name is never changed |
| Symbols.WindowsNameDecoratedPerMiss | NativeLand/LibraryItem.cs:92 | on Windows, after k files found nothing, the name is decorated k times |
| Symbols.ResolveFirstHitOffWindows | NativeLand/LibraryItem.cs:109-127 | on macOS and Unix the result is the address from the first file that exports the symbol |
| Symbols.AllMissOffWindows | NativeLand/LibraryItem.cs:109-129 | on macOS and Unix a query that no loaded file answers returns zero |
| Symbols.StdcallExportResolves | NativeLand/LibraryItem.cs:93-104 | a file exporting only `_foo@N` answers a query for `foo` iff N is a multiple of 4 below 128 (so `_foo@8` resolves and `_foo@132` does not) |
| Symbols.WindowsSecondFileQueriedWithDecoratedName | NativeLand/LibraryItem.cs:92 | when the first file exports nothing, a second file that exports the plain name is not found, because it is asked for the decorated name |
| Loading.FailedPaths | NativeLand/LibraryItem.cs:55-68 | the failed list is no longer than the list of paths |
| Loading.FailedPathsExtend | NativeLand/LibraryItem.cs:67-68 | one more path adds itself to the failed list iff its handle is zero |
| Loading.FailedPathsAppend | NativeLand/LibraryItem.cs:56-69 | the failed list of a concatenation is the concatenation of the failed lists |
| Loading.FailedPathsExactly | NativeLand/LibraryItem.cs:67-68 | a path is in the failed list iff it is one of the files' paths and its loader answered zero |
| Loading.NoFailedPathsIffAllLoad | NativeLand/LibraryItem.cs:71 | the load pass succeeds iff every path loads with a non-zero handle |
| Errors.Join | NativeLand/LibraryItem.cs:72 | joining no parts gives the empty string; otherwise the text starts with the first part and ends with the last |
| Errors.LoadFailureMessage | NativeLand/LibraryItem.cs:72 | the message starts with the fixed header, and the first failed path follows right after it |
| Errors.NotLoadedMessage | NativeLand/LibraryItem.cs:83 | the message has the path at position 8 and the symbol name just before the closing '.' |
| Errors.MissingMethodMessage | NativeLand/LibraryItem.cs:137 | the message has the method name right after the opening quote |
| Errors.JoinListsEveryPart | NativeLand/LibraryItem.cs:72 | joining with a separator keeps every part in the text |
| Errors.LoadFailureMessageListsAll | NativeLand/LibraryItem.cs:72 | the load failure message contains every failed path |
| Decimal.DigitChar | NativeLand/LibraryItem.cs:95 | a digit renders as a character between '0' and '9' |
| Decimal.DecimalString | NativeLand/LibraryItem.cs:95 | the stack size renders as a non-empty string of digits with no leading zero (only 0 starts with '0'), as `Int32.ToString` writes it |
| Decimal.DecimalStringExamples | NativeLand/LibraryItem.cs:95 | the stack sizes 8, 124 and 132 render as "8", "124" and "132" |
| Decimal.DecimalRoundTrip | NativeLand/LibraryItem.cs:95 | parsing a rendered stack size gives it back |
| Decimal.DecimalStringInjective | NativeLand/LibraryItem.cs:95 | distinct stack sizes give distinct candidate names |
| LibraryFiles.LibraryFile.constructor | NativeLand/LibraryFile.cs:32-36 | name and bytes are stored, explicit loading defaults to true, no path and no handle yet |
| LibraryFiles.LibraryFile.SetFileName | NativeLand/LibraryFile.cs:41 | sets the name and nothing else |
| LibraryFiles.LibraryFile.SetResource | NativeLand/LibraryFile.cs:46 | sets the bytes and nothing else |
| LibraryFiles.LibraryFile.SetCanLoadExplicitly | NativeLand/LibraryFile.cs:58 | sets the flag and nothing else |
| ResourceAccessors.NewResourceAccessor | TestProcess/ResourceAccessor.cs:37-41 | the accessor keeps the assembly and its name |
| ResourceAccessors.ResourceAccessor.GetName | TestProcess/ResourceAccessor.cs:60-61 | the result starts with the assembly name and ends with the given name; it is the name itself iff the name already starts with the assembly name, else `assembly + "." + name` |
| ResourceAccessors.ResourceAccessor.Binary | TestProcess/ResourceAccessor.cs:50-58 | the bytes stored under the qualified name, or InvalidOperation("Resource not available.") iff there is no such resource |
| ResourceAccessors.GetNameIdempotent | TestProcess/ResourceAccessor.cs:60-61 | qualifying a qualified name changes nothing |
| ResourceAccessors.BinaryAcceptsQualifiedName | TestProcess/ResourceAccessor.cs:50-61 | a short name and its qualified form find the same resource |

## Left out

- The native entry points (`LoadLibrary`, `GetProcAddress`, the `dlopen`/`dlsym` of libSystem, libdl.so, libdl.so.2 and Mono's `__Internal`) are arbitrary functions in `NativeApi`. Their answers are inputs, and loading a library twice is assumed to give the same handle.
- The host probe (`PlatformHelper.IsOnWindows`, `IsOnMacOS`, `IsOnUnix`, `IsRunningFromMono`) is the `Host` parameter, assumed constant during a call.
- Logging (`ILogger`, the logger-factory constructor's extra argument) is not modelled; it has no effect on results.
- GetNativeMethodDelegate: returns the symbol's address; building a typed delegate with `Marshal.GetDelegateForFunctionPointer` is not modelled.
- Every native entry point except libdl.so's `dlopen` is modelled as always returning. That covers `LoadLibrary`, `GetProcAddress`, the `dlopen` and `dlsym` of libSystem and Mono, libdl.so's `dlsym` and libdl.so.2's `dlopen`. In the source an exception from any of them escapes the load pass or the symbol query; that path is not modelled. In particular the libdl.so.2 fallback covers `dlopen` only: the symbol query still calls libdl.so's `dlsym`, so on a host where libdl.so's `dlopen` throws, every symbol query on a loaded file would throw too. The model lets `dlopen` throw while `dlsym` always answers, a combination the program cannot reach. `Symbols.Resolve`'s promise that the query only throws InvalidOperation or PlatformNotSupported holds under this abstraction. `dlsym_new` from libdl.so.2 is declared but never called, so it is absent.
- `IntPtr` is an unbounded integer; only zero versus non-zero matters to the core.
- `Files` is a sequence of references held by the item, not a mutable array; the source never reassigns its slots.
- LibraryFile: `Resource` is a value sequence, so aliasing of the caller's `byte[]` is not modelled. `FilePath` and `handle` are declared outside the three modelled files, and who sets `FilePath` is not visible in them. TestProcess/Program.cs:89-97 builds each `LibraryFile` from its full path alone, through a one-argument constructor that NativeLand/LibraryFile.cs:32-36 does not have; that constructor is not part of this model. The modelled two-argument constructor gives the path `""` and the handle zero.
- LibraryItems.LibraryItem.LoadFile: the host dispatch of one loop iteration of the load pass is factored out as its own method, with the same branch order.
- The library manager is not part of this model. TestProcess/Program.cs:76-86 writes the library bytes to disk itself before building the manager. That the manager decides whether to call the load pass is only an inference from the `LibraryManager.LoadLibraryExplicit` setting named at NativeLand/LibraryFile.cs:52-56. `CanLoadExplicitly` is stored but the load pass never reads it, in the source as here.
- `PathHelper`, the test program's entry point and the unit tests are not part of this model.
- ResourceAccessors.ResourceAccessor.GetName: `string.StartsWith(string)` is culture-sensitive in .NET; it is modelled as an ordinal prefix test.
- ResourceAccessors.ResourceAccessor.Binary: the copy through a `MemoryStream` is modelled as returning the stored bytes.
- NativeLand's own `UnsupportedPlatformException` and `NoBinaryForPlatformException` have no `Error` case, because no modelled operation throws them.
