/** A library item: the files of one platform and bitness, their load pass and symbol queries. */
module LibraryItems {
  import opened Wrappers
  import opened Errors
  import opened Platforms
  import opened Native
  import opened LibraryFiles
  import opened Loading
  import opened Symbols
  import opened Decimal

  class LibraryItem {
    /** The files, in load and search order. */
    const Files: seq<LibraryFile>
    /** The platform this item is for (the load pass itself asks the host, not this tag). */
    const Platform: Platform
    const Bitness: Architecture

    constructor (platform: Platform, bitness: Architecture, files: seq<LibraryFile>)
      ensures Platform == platform && Bitness == bitness && Files == files
    {
      Platform := platform;
      Bitness := bitness;
      Files := files;
    }

    /** The files' paths, in order. */
    function Paths(): (paths: seq<string>)
      reads Files
      ensures |paths| == |Files| && forall i :: 0 <= i < |Files| ==> paths[i] == Files[i].FilePath
    {
      seq(|Files|, i reads Files requires 0 <= i < |Files| => Files[i].FilePath)
    }

    /** What a symbol query reads of the files: each one's path and handle, in order. */
    function Snapshot(): (files: seq<FileState>)
      reads Files
      ensures |files| == |Files|
      ensures forall i :: 0 <= i < |Files| ==> files[i] == FileState(Files[i].FilePath, Files[i].handle)
    {
      seq(|Files|, i reads Files requires 0 <= i < |Files| => FileState(Files[i].FilePath, Files[i].handle))
    }

    /**
     * Loads every file in order, storing each loader answer as the file's handle, and
     * reports all the files whose handle came back zero in one exception at the end. On a
     * host of no known family the first file raises PlatformNotSupportedException before
     * any handle is written.
     */
    method LoadItem(host: Host, api: NativeApi) returns (outcome: Outcome<Error>)
      modifies set f | f in Files
      ensures forall f :: f in Files ==> f.Settings() == old(f.Settings())
      ensures host.Loader() == NoLoader ==>
                (forall f :: f in Files ==> f.handle == old(f.handle)) &&
                outcome == if |Files| == 0 then Pass else Fail(PlatformNotSupported(UnsupportedPlatformMessage))
      ensures host.Loader() != NoLoader ==>
                (forall i :: 0 <= i < |Files| ==> Files[i].handle == LoadedHandle(host, api, Files[i].FilePath)) &&
                outcome == (var failed := FailedPaths(host, api, Paths());
                            if failed == [] then Pass else Fail(InvalidOperation(LoadFailureMessage(failed))))
    {
      ghost var paths := Paths();
      var failedFiles: seq<string> := [];
      for i := 0 to |Files|
        invariant forall f :: f in Files ==> f.Settings() == old(f.Settings())
        invariant forall k :: 0 <= k < |Files| ==> Files[k].FilePath == paths[k]
        invariant host.Loader() == NoLoader ==>
                    i == 0 && failedFiles == [] && forall f :: f in Files ==> f.handle == old(f.handle)
        invariant host.Loader() != NoLoader ==>
                    (forall k :: 0 <= k < i ==> Files[k].handle == LoadedHandle(host, api, paths[k])) &&
                    failedFiles == FailedPaths(host, api, paths[..i])
      {
        var file := Files[i];
        var supported := LoadFile(host, api, file);
        if !supported {
          return Fail(PlatformNotSupported(UnsupportedPlatformMessage));
        }
        FailedPathsExtend(host, api, paths, i);
        if file.handle == 0 {
          failedFiles := failedFiles + [file.FilePath];
        }
      }
      assert paths[..|Files|] == paths == Paths();
      if |failedFiles| > 0 {
        return Fail(InvalidOperation(LoadFailureMessage(failedFiles)));
      }
      return Pass;
    }

    /**
     * The body of the load pass for one file: the loader of the host's family writes the
     * file's handle; on a host of no known family nothing is written and the caller throws.
     */
    static method LoadFile(host: Host, api: NativeApi, file: LibraryFile) returns (supported: bool)
      modifies file
      ensures supported <==> host.Loader() != NoLoader
      ensures supported ==> file.handle == LoadedHandle(host, api, file.FilePath)
      ensures !supported ==> file.handle == old(file.handle)
      ensures file.Settings() == old(file.Settings())
    {
      supported := true;
      if host.onWindows {
        file.handle := LoadWindowsLibrary(api, file.FilePath);
      } else if host.onMacOS {
        file.handle := LoadMacOSLibrary(api, file.FilePath);
      } else if host.onUnix {
        file.handle := LoadLinuxLibrary(api, host.runningFromMono, file.FilePath);
      } else {
        supported := false;
      }
    }

    /**
     * Looks the symbol up in each file in order and returns the first non-zero address, or
     * zero when no file has it; a file without a handle is rejected when the walk reaches it.
     * On Windows a failed lookup goes on to "_name@0", "_name@4", ..., "_name@124", and the
     * decorated prefix replaces the name for the remaining files.
     */
    method LoadSymbol(host: Host, api: NativeApi, symbol: string) returns (r: Result<Address, Error>)
      ensures r == Resolve(host, api, Snapshot(), symbol)
    {
      ghost var files := Snapshot();
      var symbolName := symbol;
      var result: Address := 0;
      var found := false;
      for i := 0 to |Files|
        invariant Resolve(host, api, files[..i], symbol) == Success(0)
        invariant symbolName == NameAfter(host, api, files[..i], symbol)
        invariant !found && result == 0
      {
        var file := Files[i];
        ghost var queried := symbolName;

        if file.handle == 0 {
          UnloadedRejectedWhenReached(host, api, files, symbol, i);
          return Failure(InvalidOperation(NotLoadedMessage(file.FilePath, symbolName)));
        }

        if host.onWindows {
          result := api.getProcAddress(file.handle, symbolName);
          if result == 0 {
            symbolName := "_" + symbolName + "@";
            result, found := SearchDecorated(api.getProcAddress, file.handle, symbolName);
          } else {
            found := true;
          }
        } else if host.onMacOS {
          result := api.macDlsym(file.handle, symbolName);
          found := result != 0;
        } else if host.onUnix {
          if host.runningFromMono {
            result := api.monoDlsym(file.handle, symbolName);
          } else {
            result := api.linuxDlsym(file.handle, symbolName);
          }
          found := result != 0;
        } else {
          assert Resolve(host, api, files, symbol) == Failure(PlatformNotSupported(UnsupportedPlatformMessage)) by {
            ResolveStep(host, api, files, i, symbol);
          }
          return Failure(PlatformNotSupported(UnsupportedPlatformMessage));
        }

        ghost var step := FileStep(host, api, files[i], queried);
        assert found ==> step == Hit(result);
        assert !found ==> step == Miss(symbolName) && result == 0;
        if found {
          assert Resolve(host, api, files, symbol) == Success(result) by {
            ResolveStep(host, api, files, i, symbol);
          }
          return Success(result);
        }
        assert Resolve(host, api, files[..i + 1], symbol) == Success(0)
            && symbolName == NameAfter(host, api, files[..i + 1], symbol) by {
          ResolveStep(host, api, files, i, symbol);
        }
      }
      assert files[..|Files|] == files;
      return Success(result);
    }

    /**
     * The probe loop of the Windows branch: "prefix" followed by 0, 4, ..., 124, stopping at
     * the first candidate GetProcAddress resolves; zero when none does.
     */
    static method SearchDecorated(getProc: (Handle, string) -> Address, h: Handle, prefix: string)
      returns (result: Address, found: bool)
      ensures result == DecoratedSearch(getProc, h, prefix, 0)
      ensures found <==> result != 0
    {
      found := false;
      result := 0;
      var stackSize := 0;
      ghost var probes := 0;
      while stackSize < 128
        invariant stackSize == 4 * probes <= 128
        invariant DecoratedSearch(getProc, h, prefix, 0) == DecoratedSearch(getProc, h, prefix, stackSize)
      {
        var candidate := getProc(h, prefix + DecimalString(stackSize));
        assert candidate == Probe(getProc, h, prefix, stackSize);
        if candidate != 0 {
          result := candidate;
          found := true;
          break;
        }
        stackSize := stackSize + 4;
        probes := probes + 1;
      }
    }

    /**
     * The address of a native method the caller requires: a symbol query whose zero answer
     * becomes MissingMethodException; the query's own exceptions pass through.
     */
    method GetNativeMethodDelegate(host: Host, api: NativeApi, methodName: string) returns (r: Result<Address, Error>)
      ensures Resolve(host, api, Snapshot(), methodName) == Success(0)
          ==> r == Failure(MissingMethod(MissingMethodMessage(methodName)))
      ensures Resolve(host, api, Snapshot(), methodName).Failure? ==> r == Resolve(host, api, Snapshot(), methodName)
      ensures r.Success? ==> r.value != 0 && r == Resolve(host, api, Snapshot(), methodName)
      ensures Resolve(host, api, Snapshot(), methodName).Success? && Resolve(host, api, Snapshot(), methodName).value != 0
          ==> r == Resolve(host, api, Snapshot(), methodName)
    {
      var ptr := LoadSymbol(host, api, methodName);
      if ptr.Failure? {
        return Failure(ptr.error);
      }
      if ptr.value == 0 {
        return Failure(MissingMethod(MissingMethodMessage(methodName)));
      }
      return Success(ptr.value);
    }
  }
}
