/** The exceptions the library throws, with the messages it builds for them. */
module Errors {

  datatype Error =
    | PlatformNotSupported(message: string)   // System.PlatformNotSupportedException
    | InvalidOperation(message: string)       // System.InvalidOperationException
    | MissingMethod(message: string)          // System.MissingMethodException

  const UnsupportedPlatformMessage: string := "Unsupported platform."
  const ResourceNotAvailableMessage: string := "Resource not available."
  const LoadFailureHeader: string := "The following libraries failed to load:\n\n  - "
  const LoadFailureSeparator: string := "\n  - "

  /** string.Join: the parts with the separator between consecutive ones. */
  function Join(separator: string, parts: seq<string>): (r: string)
    ensures |parts| == 0 ==> r == ""
    ensures |parts| > 0 ==> parts[0] <= r
    ensures |parts| > 0 ==> |parts[|parts| - 1]| <= |r| && r[|r| - |parts[|parts| - 1]|..] == parts[|parts| - 1]
    decreases |parts|
  {
    if |parts| == 0 then ""
    else if |parts| == 1 then parts[0]
    else parts[0] + separator + Join(separator, parts[1..])
  }

  /** The message of the aggregated load failure. */
  function LoadFailureMessage(failed: seq<string>): (r: string)
    ensures LoadFailureHeader <= r
    ensures |failed| > 0 ==> OccursAt(r, failed[0], |LoadFailureHeader|)
  {
    LoadFailureHeader + Join(LoadFailureSeparator, failed)
  }

  /** The message for a symbol lookup that reaches a file with no handle. */
  function NotLoadedMessage(path: string, symbolName: string): (r: string)
    ensures |r| == |path| + |symbolName| + 46
    ensures OccursAt(r, path, 8)
    ensures OccursAt(r, symbolName, |r| - |symbolName| - 1)
    ensures r[|r| - 1] == '.'
  {
    "Library " + path + " must be loaded with exported symbol " + symbolName + "."
  }

  /** The message for a mandatory native method that does not resolve. */
  function MissingMethodMessage(methodName: string): (r: string)
    ensures OccursAt(r, methodName, 19)
  {
    "The native method \"" + methodName + "\" does not exist"
  }

  /** `part` occurs in `text` starting at index `at`. */
  predicate OccursAt(text: string, part: string, at: nat)
  {
    at + |part| <= |text| && text[at..at + |part|] == part
  }

  lemma OccursAfter(prefix: string, text: string, part: string, at: nat)
    requires OccursAt(text, part, at)
    ensures OccursAt(prefix + text, part, |prefix| + at)
  {
    assert (prefix + text)[|prefix| + at..|prefix| + at + |part|] == text[at..at + |part|];
  }

  /** Every part appears in the joined text. */
  lemma {:induction false} JoinListsEveryPart(separator: string, parts: seq<string>, i: nat)
    requires i < |parts|
    ensures exists at :: OccursAt(Join(separator, parts), parts[i], at)
    decreases |parts|
  {
    if |parts| == 1 {
      assert OccursAt(Join(separator, parts), parts[i], 0);
    } else if i == 0 {
      var joined := Join(separator, parts);
      assert joined == parts[0] + (separator + Join(separator, parts[1..]));
      assert joined[0..|parts[0]|] == parts[0];
      assert OccursAt(joined, parts[i], 0);
    } else {
      JoinListsEveryPart(separator, parts[1..], i - 1);
      var at :| OccursAt(Join(separator, parts[1..]), parts[1..][i - 1], at);
      OccursAfter(parts[0] + separator, Join(separator, parts[1..]), parts[i], at);
      assert Join(separator, parts) == (parts[0] + separator) + Join(separator, parts[1..]);
    }
  }

  /** The aggregated load failure names every failed path, not just the first. */
  lemma LoadFailureMessageListsAll(failed: seq<string>, path: string)
    requires path in failed
    ensures exists at :: OccursAt(LoadFailureMessage(failed), path, at)
  {
    var i :| 0 <= i < |failed| && failed[i] == path;
    JoinListsEveryPart(LoadFailureSeparator, failed, i);
    var at :| OccursAt(Join(LoadFailureSeparator, failed), path, at);
    OccursAfter(LoadFailureHeader, Join(LoadFailureSeparator, failed), path, at);
    assert OccursAt(LoadFailureMessage(failed), path, |LoadFailureHeader| + at);
  }
}
