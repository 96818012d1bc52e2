/** Which paths a load pass over a library item reports as failed. */
module Loading {
  import opened Platforms
  import opened Native

  /** The paths whose load returns a zero handle, in the order of `paths`. */
  function FailedPaths(host: Host, api: NativeApi, paths: seq<string>): (failed: seq<string>)
    requires host.Loader() != NoLoader
    ensures |failed| <= |paths|
    decreases |paths|
  {
    if paths == [] then []
    else
      var last := paths[|paths| - 1];
      FailedPaths(host, api, paths[..|paths| - 1]) + (if LoadedHandle(host, api, last) == 0 then [last] else [])
  }

  /** Extending the walked prefix by one path adds that path exactly when its load returns zero. */
  lemma FailedPathsExtend(host: Host, api: NativeApi, paths: seq<string>, i: nat)
    requires host.Loader() != NoLoader && i < |paths|
    ensures FailedPaths(host, api, paths[..i + 1])
         == FailedPaths(host, api, paths[..i]) + (if LoadedHandle(host, api, paths[i]) == 0 then [paths[i]] else [])
  {
    assert paths[..i + 1][..i] == paths[..i];
  }

  /** The report of a concatenation is the concatenation of the reports: order is kept. */
  lemma {:induction false} FailedPathsAppend(host: Host, api: NativeApi, a: seq<string>, b: seq<string>)
    requires host.Loader() != NoLoader
    ensures FailedPaths(host, api, a + b) == FailedPaths(host, api, a) + FailedPaths(host, api, b)
    decreases |b|
  {
    if b == [] {
      assert a + b == a;
    } else {
      var b' := b[..|b| - 1];
      assert (a + b)[..|a + b| - 1] == a + b';
      FailedPathsAppend(host, api, a, b');
    }
  }

  /** A path is reported exactly when it is one of the paths and its load returns zero. */
  lemma {:induction false} FailedPathsExactly(host: Host, api: NativeApi, paths: seq<string>, p: string)
    requires host.Loader() != NoLoader
    ensures p in FailedPaths(host, api, paths) <==> p in paths && LoadedHandle(host, api, p) == 0
    decreases |paths|
  {
    if paths != [] {
      var init := paths[..|paths| - 1];
      FailedPathsExactly(host, api, init, p);
      assert paths == init + [paths[|paths| - 1]];
    }
  }

  /** Nothing is reported exactly when every path loads. */
  lemma NoFailedPathsIffAllLoad(host: Host, api: NativeApi, paths: seq<string>)
    requires host.Loader() != NoLoader
    ensures FailedPaths(host, api, paths) == [] <==> forall i :: 0 <= i < |paths| ==> LoadedHandle(host, api, paths[i]) != 0
  {
    if FailedPaths(host, api, paths) != [] {
      var p := FailedPaths(host, api, paths)[0];
      FailedPathsExactly(host, api, paths, p);
    } else {
      forall i | 0 <= i < |paths|
        ensures LoadedHandle(host, api, paths[i]) != 0
      {
        FailedPathsExactly(host, api, paths, paths[i]);
      }
    }
  }
}
