/**
 * What a symbol query of a library item computes, as a function of the files' paths and
 * handles: the walk over the files in order, the Windows decorated-name search, and the
 * symbol name the walk carries from one file to the next.
 */
module Symbols {
  import opened Wrappers
  import opened Errors
  import opened Platforms
  import opened Native
  import opened Decimal

  /** The decorated-name search probes stack sizes below this bound... */
  const MaxStackSize: nat := 128
  /** ...in steps of this size, starting at zero. */
  const StackSizeStep: nat := 4

  /** What a symbol query reads of one library file. */
  datatype FileState = FileState(path: string, handle: Handle)

  /** The outcome of querying one file: a symbol, a miss (with the name for the next file), or an exception. */
  datatype Step = Hit(address: Address) | Miss(next: string) | Abort(error: Error)

  /** The 32-bit __stdcall decoration without its stack size: "_name@". */
  function Decorated(name: string): string
  {
    "_" + name + "@"
  }

  /** GetProcAddress of the candidate prefix + stack size. */
  function Probe(getProc: (Handle, string) -> Address, h: Handle, prefix: string, stackSize: nat): Address
  {
    getProc(h, prefix + DecimalString(stackSize))
  }

  /** The stack sizes the search tries, in increasing order. */
  predicate Probed(stackSize: nat)
  {
    stackSize < MaxStackSize && stackSize % StackSizeStep == 0
  }

  /** The first non-zero probe for stack sizes from `stackSize` up to the bound, or 0. */
  function DecoratedSearch(getProc: (Handle, string) -> Address, h: Handle, prefix: string, stackSize: nat): (r: Address)
    ensures r != 0 ==> exists n :: stackSize <= n < MaxStackSize && r == Probe(getProc, h, prefix, n)
    decreases MaxStackSize - stackSize
  {
    if stackSize >= MaxStackSize then 0
    else
      var candidate := Probe(getProc, h, prefix, stackSize);
      if candidate != 0 then candidate
      else DecoratedSearch(getProc, h, prefix, stackSize + StackSizeStep)
  }

  /** Two distinct probed stack sizes are at least one step apart. */
  lemma ProbesOneStepApart(a: nat, b: nat)
    requires a % StackSizeStep == 0 && b % StackSizeStep == 0 && a < b
    ensures a + StackSizeStep <= b && (a + StackSizeStep) % StackSizeStep == 0
  {
  }

  /** The search finds nothing exactly when every probed candidate is absent. */
  lemma {:induction false} DecoratedSearchMissesAll(getProc: (Handle, string) -> Address, h: Handle, prefix: string, start: nat)
    requires start % StackSizeStep == 0
    ensures DecoratedSearch(getProc, h, prefix, start) == 0
        <==> forall n :: start <= n && Probed(n) ==> Probe(getProc, h, prefix, n) == 0
    decreases MaxStackSize - start
  {
    if start < MaxStackSize {
      DecoratedSearchMissesAll(getProc, h, prefix, start + StackSizeStep);
      forall n | start < n && Probed(n)
        ensures start + StackSizeStep <= n
      {
        ProbesOneStepApart(start, n);
      }
    }
  }

  /** The search returns the candidate of the smallest probed stack size that resolves. */
  lemma {:induction false} DecoratedSearchReturnsFirstHit(getProc: (Handle, string) -> Address, h: Handle, prefix: string, start: nat, n: nat)
    requires start % StackSizeStep == 0 && start <= n && Probed(n)
    requires Probe(getProc, h, prefix, n) != 0
    requires forall m :: start <= m < n && Probed(m) ==> Probe(getProc, h, prefix, m) == 0
    ensures DecoratedSearch(getProc, h, prefix, start) == Probe(getProc, h, prefix, n)
    decreases n - start
  {
    if start < n {
      ProbesOneStepApart(start, n);
      assert Probed(start);
      DecoratedSearchReturnsFirstHit(getProc, h, prefix, start + StackSizeStep, n);
    }
  }

  /** Stack sizes of 128 and more are never probed: the answer depends on probed candidates alone. */
  lemma {:induction false} DecoratedSearchIgnoresUnprobed(p: (Handle, string) -> Address, q: (Handle, string) -> Address, h: Handle, prefix: string, start: nat)
    requires start % StackSizeStep == 0
    requires forall n :: start <= n && Probed(n) ==> Probe(p, h, prefix, n) == Probe(q, h, prefix, n)
    ensures DecoratedSearch(p, h, prefix, start) == DecoratedSearch(q, h, prefix, start)
    decreases MaxStackSize - start
  {
    if start < MaxStackSize {
      assert Probed(start);
      DecoratedSearchIgnoresUnprobed(p, q, h, prefix, start + StackSizeStep);
    }
  }

  /** One Windows file: GetProcAddress of the name, then the decorated search; a miss passes the decorated prefix on. */
  function WindowsStep(getProc: (Handle, string) -> Address, h: Handle, name: string): (s: Step)
    ensures s.Hit? ==> s.address != 0
    ensures getProc(h, name) != 0 ==> s == Hit(getProc(h, name))
    ensures s.Hit? && getProc(h, name) == 0 ==> s.address == DecoratedSearch(getProc, h, Decorated(name), 0)
    ensures s.Miss? <==> getProc(h, name) == 0 && DecoratedSearch(getProc, h, Decorated(name), 0) == 0
    ensures s.Miss? ==> s.next == Decorated(name)
    ensures !s.Abort?
  {
    var direct := getProc(h, name);
    if direct != 0 then Hit(direct)
    else
      var prefix := Decorated(name);
      var found := DecoratedSearch(getProc, h, prefix, 0);
      if found != 0 then Hit(found) else Miss(prefix)
  }

  /** One iteration of the symbol query: the handle check first, then the host's lookup. */
  function FileStep(host: Host, api: NativeApi, file: FileState, name: string): (s: Step)
    ensures s.Hit? ==> s.address != 0
    ensures s.Abort? <==> file.handle == 0 || host.Loader() == NoLoader
    ensures s.Miss? ==> s.next == (if host.Loader() == WindowsLoader then Decorated(name) else name)
    ensures file.handle == 0 ==> s == Abort(InvalidOperation(NotLoadedMessage(file.path, name)))
    ensures file.handle != 0 && host.Loader() == NoLoader ==> s == Abort(PlatformNotSupported(UnsupportedPlatformMessage))
    ensures file.handle != 0 && host.Loader() == WindowsLoader ==> s == WindowsStep(api.getProcAddress, file.handle, name)
    ensures s.Hit? && host.Loader() != WindowsLoader ==> s.address == DirectLookup(host, api, file.handle, name)
    ensures file.handle != 0 && host.Loader() != WindowsLoader && host.Loader() != NoLoader ==>
              (s.Miss? <==> DirectLookup(host, api, file.handle, name) == 0)
  {
    if file.handle == 0 then Abort(InvalidOperation(NotLoadedMessage(file.path, name)))
    else match host.Loader()
      case WindowsLoader => WindowsStep(api.getProcAddress, file.handle, name)
      case NoLoader => Abort(PlatformNotSupported(UnsupportedPlatformMessage))
      case _ =>
        var address := DirectLookup(host, api, file.handle, name);
        if address != 0 then Hit(address) else Miss(name)
  }

  function StepResult(s: Step): Result<Address, Error>
  {
    match s
    case Hit(address) => Success(address)
    case Miss(_) => Success(0)
    case Abort(e) => Failure(e)
  }

  /** The symbol query over the files in order: the first hit or exception decides; 0 when all miss. */
  function Resolve(host: Host, api: NativeApi, files: seq<FileState>, name: string): (r: Result<Address, Error>)
    ensures r.Failure? ==> r.error.InvalidOperation? || r.error.PlatformNotSupported?
    ensures r.Failure? ==> host.Loader() == NoLoader || exists k :: 0 <= k < |files| && files[k].handle == 0
    decreases |files|
  {
    if files == [] then Success(0)
    else match FileStep(host, api, files[0], name)
      case Miss(next) => Resolve(host, api, files[1..], next)
      case s => StepResult(s)
  }

  /** The symbol name the query holds after missing in every one of `files`. */
  function NameAfter(host: Host, api: NativeApi, files: seq<FileState>, name: string): (r: string)
    ensures r == name || (host.Loader() == WindowsLoader && |r| > |name|)
    decreases |files|
  {
    if files == [] then name
    else match FileStep(host, api, files[0], name)
      case Miss(next) => NameAfter(host, api, files[1..], next)
      case _ => name
  }

  /** The name after k Windows misses: "_" and "@" wrapped k times. */
  function DecoratedTimes(name: string, k: nat): string
  {
    if k == 0 then name else Decorated(DecoratedTimes(name, k - 1))
  }

  /**
   * Querying a list of files that splits in two: once the first part produced a symbol or
   * an exception the second part is never looked at; otherwise the second part is queried
   * with the name the first part left behind.
   */
  lemma {:induction false} ResolveAppend(host: Host, api: NativeApi, files: seq<FileState>, more: seq<FileState>, name: string)
    ensures Resolve(host, api, files + more, name)
         == if Resolve(host, api, files, name) == Success(0)
            then Resolve(host, api, more, NameAfter(host, api, files, name))
            else Resolve(host, api, files, name)
    ensures Resolve(host, api, files, name) == Success(0)
        ==> NameAfter(host, api, files + more, name) == NameAfter(host, api, more, NameAfter(host, api, files, name))
    decreases |files|
  {
    if files == [] {
      assert files + more == more;
    } else {
      assert (files + more)[0] == files[0];
      assert (files + more)[1..] == files[1..] + more;
      match FileStep(host, api, files[0], name)
      case Miss(next) => ResolveAppend(host, api, files[1..], more, next);
      case _ =>
    }
  }

  /** The walk over files[..i+1], given that files[..i] all missed: file i decides or passes its name on. */
  lemma ResolveStep(host: Host, api: NativeApi, files: seq<FileState>, i: nat, name: string)
    requires i < |files|
    requires Resolve(host, api, files[..i], name) == Success(0)
    ensures Resolve(host, api, files[..i + 1], name)
         == StepResult(FileStep(host, api, files[i], NameAfter(host, api, files[..i], name)))
    ensures FileStep(host, api, files[i], NameAfter(host, api, files[..i], name)).Miss? ==>
              NameAfter(host, api, files[..i + 1], name) == FileStep(host, api, files[i], NameAfter(host, api, files[..i], name)).next
    ensures Resolve(host, api, files[..i + 1], name) != Success(0) ==>
              Resolve(host, api, files, name) == Resolve(host, api, files[..i + 1], name)
  {
    var done, rest := files[..i], files[i + 1..];
    SplitAt(files, i);
    ResolveExtendOne(host, api, done, files[i], name);
    ResolveAppend(host, api, files[..i + 1], rest, name);
  }

  /** A sequence is its part before i, its element i, and its part after i. */
  lemma SplitAt<T>(s: seq<T>, i: nat)
    requires i < |s|
    ensures s[..i + 1] == s[..i] + [s[i]]
    ensures s == s[..i + 1] + s[i + 1..]
  {
  }

  /** Appending one file to a list that found nothing: that file's step decides or passes its name on. */
  lemma ResolveExtendOne(host: Host, api: NativeApi, done: seq<FileState>, file: FileState, name: string)
    requires Resolve(host, api, done, name) == Success(0)
    ensures Resolve(host, api, done + [file], name) == StepResult(FileStep(host, api, file, NameAfter(host, api, done, name)))
    ensures FileStep(host, api, file, NameAfter(host, api, done, name)).Miss? ==>
              NameAfter(host, api, done + [file], name) == FileStep(host, api, file, NameAfter(host, api, done, name)).next
  {
    ResolveAppend(host, api, done, [file], name);
    ResolveSingle(host, api, file, NameAfter(host, api, done, name));
  }

  lemma ResolveSingle(host: Host, api: NativeApi, file: FileState, name: string)
    ensures Resolve(host, api, [file], name) == StepResult(FileStep(host, api, file, name))
    ensures FileStep(host, api, file, name).Miss? ==> NameAfter(host, api, [file], name) == FileStep(host, api, file, name).next
  {
    assert [file][1..] == [];
  }

  /** A file with no handle is rejected when, and only when, the walk reaches it. */
  lemma UnloadedRejectedWhenReached(host: Host, api: NativeApi, files: seq<FileState>, name: string, k: nat)
    requires k < |files| && files[k].handle == 0
    requires Resolve(host, api, files[..k], name) == Success(0)
    ensures Resolve(host, api, files, name)
         == Failure(InvalidOperation(NotLoadedMessage(files[k].path, NameAfter(host, api, files[..k], name))))
  {
    assert files == files[..k] + files[k..];
    ResolveAppend(host, api, files[..k], files[k..], name);
  }

  /** An InvalidOperation from the query always comes from an unloaded file the walk reached. */
  lemma {:induction false} UnloadedRejectionReached(host: Host, api: NativeApi, files: seq<FileState>, name: string)
    requires Resolve(host, api, files, name).Failure?
    requires Resolve(host, api, files, name).error.InvalidOperation?
    ensures exists k :: 0 <= k < |files| && files[k].handle == 0 && Resolve(host, api, files[..k], name) == Success(0)
    decreases |files|
  {
    if files[0].handle == 0 {
      assert files[..0] == [];
    } else {
      var next := FileStep(host, api, files[0], name).next;
      UnloadedRejectionReached(host, api, files[1..], next);
      var k :| 0 <= k < |files[1..]| && files[1..][k].handle == 0 && Resolve(host, api, files[1..][..k], next) == Success(0);
      assert files[..k + 1][0] == files[0];
      assert files[..k + 1][1..] == files[1..][..k];
      assert files[k + 1].handle == 0 && Resolve(host, api, files[..k + 1], name) == Success(0);
    }
  }

  /** Off Windows the query never rewrites the symbol name. */
  lemma {:induction false} NameUnchangedOffWindows(host: Host, api: NativeApi, files: seq<FileState>, name: string)
    requires host.Loader() != WindowsLoader
    ensures NameAfter(host, api, files, name) == name
    decreases |files|
  {
    if files != [] {
      NameUnchangedOffWindows(host, api, files[1..], name);
    }
  }

  /** On Windows every file that misses wraps the carried name once more in "_" and "@". */
  lemma {:induction false} WindowsNameDecoratedPerMiss(host: Host, api: NativeApi, files: seq<FileState>, name: string)
    requires host.Loader() == WindowsLoader
    requires Resolve(host, api, files, name) == Success(0)
    ensures NameAfter(host, api, files, name) == DecoratedTimes(name, |files|)
    decreases |files|
  {
    if files != [] {
      var next := FileStep(host, api, files[0], name).next;
      WindowsNameDecoratedPerMiss(host, api, files[1..], next);
      DecoratedTimesShift(name, |files| - 1);
    }
  }

  lemma {:induction false} DecoratedTimesShift(name: string, k: nat)
    ensures DecoratedTimes(Decorated(name), k) == DecoratedTimes(name, k + 1)
    decreases k
  {
    if k > 0 {
      DecoratedTimesShift(name, k - 1);
    }
  }

  /**
   * Off Windows: when every earlier file is loaded and lacks the symbol and file k is
   * loaded and exports it, the query returns file k's address.
   */
  lemma ResolveFirstHitOffWindows(host: Host, api: NativeApi, files: seq<FileState>, name: string, k: nat)
    requires host.Loader() == MacOSLoader || host.Loader() == UnixLoader
    requires k < |files|
    requires forall j :: 0 <= j < k ==> files[j].handle != 0 && DirectLookup(host, api, files[j].handle, name) == 0
    requires files[k].handle != 0 && DirectLookup(host, api, files[k].handle, name) != 0
    ensures Resolve(host, api, files, name) == Success(DirectLookup(host, api, files[k].handle, name))
  {
    AllMissOffWindows(host, api, files[..k], name);
    NameUnchangedOffWindows(host, api, files[..k], name);
    assert files == files[..k] + files[k..];
    ResolveAppend(host, api, files[..k], files[k..], name);
  }

  /** Off Windows: loaded files that all lack the symbol give 0, not an exception. */
  lemma {:induction false} AllMissOffWindows(host: Host, api: NativeApi, files: seq<FileState>, name: string)
    requires host.Loader() == MacOSLoader || host.Loader() == UnixLoader
    requires forall j :: 0 <= j < |files| ==> files[j].handle != 0 && DirectLookup(host, api, files[j].handle, name) == 0
    ensures Resolve(host, api, files, name) == Success(0)
    decreases |files|
  {
    if files != [] {
      AllMissOffWindows(host, api, files[1..], name);
    }
  }

  lemma PrefixCancel(prefix: string, x: string, y: string)
    requires prefix + x == prefix + y
    ensures x == y
  {
    assert x == (prefix + x)[|prefix|..];
    assert y == (prefix + y)[|prefix|..];
  }

  /**
   * Windows, one loaded file whose only export is name decorated with stack size `size`:
   * querying the undecorated name finds it exactly when `size` is one of 0, 4, ..., 124.
   */
  lemma StdcallExportResolves(host: Host, api: NativeApi, path: string, h: Handle, name: string, size: nat)
    requires host.Loader() == WindowsLoader && h != 0
    requires forall s :: api.getProcAddress(h, s) != 0 <==> s == Decorated(name) + DecimalString(size)
    ensures Resolve(host, api, [FileState(path, h)], name)
         == if Probed(size) then Success(api.getProcAddress(h, Decorated(name) + DecimalString(size))) else Success(0)
  {
    var getProc := api.getProcAddress;
    var prefix := Decorated(name);
    assert getProc(h, name) == 0 by {
      assert |name| < |prefix + DecimalString(size)|;
    }
    forall m | Probed(m) && Probe(getProc, h, prefix, m) != 0
      ensures m == size
    {
      PrefixCancel(prefix, DecimalString(m), DecimalString(size));
      DecimalStringInjective(m, size);
    }
    if Probed(size) {
      DecoratedSearchReturnsFirstHit(getProc, h, prefix, 0, size);
    } else {
      DecoratedSearchMissesAll(getProc, h, prefix, 0);
    }
  }

  /**
   * Windows, two loaded files: the first exports nothing, the second exports exactly the
   * plain name. The query returns 0, because the second file is asked for "_name@" and
   * "__name@@N", never for the name itself.
   */
  lemma WindowsSecondFileQueriedWithDecoratedName(host: Host, api: NativeApi, first: FileState, second: FileState, name: string)
    requires host.Loader() == WindowsLoader && first.handle != 0 && second.handle != 0
    requires forall s :: api.getProcAddress(first.handle, s) == 0
    requires forall s :: api.getProcAddress(second.handle, s) != 0 <==> s == name
    ensures Resolve(host, api, [first, second], name) == Success(0)
  {
    var getProc := api.getProcAddress;
    DecoratedSearchMissesAll(getProc, first.handle, Decorated(name), 0);
    var prefix := Decorated(Decorated(name));
    forall n | Probed(n)
      ensures Probe(getProc, second.handle, prefix, n) == 0
    {
      assert |name| < |prefix + DecimalString(n)|;
    }
    DecoratedSearchMissesAll(getProc, second.handle, prefix, 0);
    assert getProc(second.handle, Decorated(name)) == 0 by {
      assert |name| < |Decorated(name)|;
    }
    assert FileStep(host, api, first, name) == Miss(Decorated(name));
    assert FileStep(host, api, second, Decorated(name)) == Miss(prefix);
    assert [first, second][1..] == [second];
    assert Resolve(host, api, [second], Decorated(name)) == Success(0);
  }
}
