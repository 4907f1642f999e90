/**
 * src/errors.ts: the four error classes that tag a failure with its kind,
 * and the reporter that sends a two-line notice to the operator's own
 * conversation and never throws.
 */
module Errors {
  import opened Wrappers
  import opened Platform

  /** An Error of one of the four classes; each constructor keeps its message unchanged. */
  datatype ClassifiedError =
    | DownloadError(message: string)
    | UploadError(message: string)
    | FileDeleteError(message: string)
    | GeneralError(message: string)
  {
    /** The `name` each class's constructor assigns: the class's own name. */
    function Name(): (n: string)
      ensures |n| > 0 && forall i :: 0 <= i < |n| ==> 'A' <= n[i] <= 'z'
    {
      match this
      case DownloadError(_) => "DownloadError"
      case UploadError(_) => "UploadError"
      case FileDeleteError(_) => "FileDeleteError"
      case GeneralError(_) => "GeneralError"
    }
  }

  /** The error whose class is called `name`, carrying `message`; None for any other name. */
  function ErrorNamed(name: string, message: string): (r: Option<ClassifiedError>)
    ensures r.Some? <==> name in ["DownloadError", "UploadError", "FileDeleteError", "GeneralError"]
    ensures r.Some? ==> r.value.Name() == name && r.value.message == message
  {
    if name == "DownloadError" then Some(DownloadError(message))
    else if name == "UploadError" then Some(UploadError(message))
    else if name == "FileDeleteError" then Some(FileDeleteError(message))
    else if name == "GeneralError" then Some(GeneralError(message))
    else None
  }

  /** An error's class name and message identify it: naming the class gives back the same error. */
  lemma ErrorNamedInverse(error: ClassifiedError)
    ensures ErrorNamed(error.Name(), error.message) == Some(error)
  {
  }

  const ErrorLabel: string := "Error: "
  const MessageLabel: string := "\nMessage: "

  /** The notice `sendErrorMessage` sends: `Error: <name>\nMessage: <message>`. */
  function ReportText(error: ClassifiedError): string
  {
    ErrorLabel + error.Name() + MessageLabel + error.message
  }

  /**
   * The layout of a notice: the error label, the class name, the message label
   * and the message. The first line holds the label and the class name only,
   * so the first newline starts the message label.
   */
  lemma ReportTextLayout(error: ClassifiedError)
    ensures var text := ReportText(error);
      |text| == |ErrorLabel| + |error.Name()| + |MessageLabel| + |error.message| &&
      text[..|ErrorLabel|] == ErrorLabel && text[|text| - |error.message|..] == error.message &&
      '\n' !in text[..|ErrorLabel| + |error.Name()|] &&
      text[|ErrorLabel| + |error.Name()|..|text| - |error.message|] == MessageLabel
  {
    var text := ReportText(error);
    assert text[..|ErrorLabel| + |error.Name()|] == ErrorLabel + error.Name();
    assert text[|ErrorLabel| + |error.Name()|..|text| - |error.message|] == MessageLabel;
  }

  /** The effect of reporting `error`: one message to the operator's own conversation. */
  function Report(error: ClassifiedError): Effect
  {
    SendMessage(Me, ReportText(error))
  }

  /** The first position of `c` in `s`, if any. */
  function IndexOf(s: string, c: char): (r: Option<nat>)
    ensures r.Some? ==> r.value < |s| && s[r.value] == c && c !in s[..r.value]
    ensures r.None? ==> c !in s
    decreases |s|
  {
    if s == [] then None
    else if s[0] == c then Some(0)
    else match IndexOf(s[1..], c)
      case None => None
      case Some(i) => Some(i + 1)
  }

  /** Reads a notice back: the kind from the first line, the message after the label. */
  function ParseReport(text: string): (r: Option<ClassifiedError>)
  {
    if |text| < |ErrorLabel| || text[..|ErrorLabel|] != ErrorLabel then None
    else
      var rest := text[|ErrorLabel|..];
      match IndexOf(rest, '\n')
      case None => None
      case Some(i) =>
        var tail := rest[i..];
        if |tail| < |MessageLabel| || tail[..|MessageLabel|] != MessageLabel then None
        else ErrorNamed(rest[..i], tail[|MessageLabel|..])
  }

  /** A notice names its kind and carries its message intact, so a reader can tell every failure apart. */
  lemma ReportRoundTrip(error: ClassifiedError)
    ensures ParseReport(ReportText(error)) == Some(error)
  {
    var name := error.Name();
    var text := ReportText(error);
    assert text[..|ErrorLabel|] == ErrorLabel;
    var rest := text[|ErrorLabel|..];
    assert rest == name + MessageLabel + error.message;
    assert '\n' !in name;
    assert rest[|name|] == '\n' && rest[..|name|] == name;
    var i := IndexOf(rest, '\n');
    assert i == Some(|name|);
    assert rest[|name|..] == MessageLabel + error.message;
  }

  /**
   * The errors reported, in order, among the calls `es`: the notices sent to
   * "me" that read back as one. A notice counts once it is sent, whether or
   * not the send succeeds: delivery is decided by the world.
   */
  function Reports(es: seq<Effect>): seq<ClassifiedError>
    decreases |es|
  {
    if es == [] then []
    else
      var here :=
        if es[0].SendMessage? && es[0].peer == Me && ParseReport(es[0].text).Some?
        then [ParseReport(es[0].text).value] else [];
      here + Reports(es[1..])
  }

  lemma {:induction false} ReportsAppend(a: seq<Effect>, b: seq<Effect>)
    ensures Reports(a + b) == Reports(a) + Reports(b)
    decreases |a|
  {
    if a != [] {
      assert (a + b)[1..] == a[1..] + b;
      ReportsAppend(a[1..], b);
    } else {
      assert a + b == b;
    }
  }

  /** Reporting `error` sends one notice to "me", and it reads back as exactly `error`. */
  lemma ReportsOfReport(error: ClassifiedError)
    ensures Reports([Report(error)]) == [error]
  {
    ReportRoundTrip(error);
    assert [Report(error)][1..] == [];
  }

  /**
   * sendErrorMessage: one send of the notice to "me", whatever its outcome. A
   * failed send is logged on the local console and swallowed, so the method
   * has no error result and makes no further call.
   */
  method SendErrorMessage(w: World, h: Host, error: ClassifiedError) returns (h': Host)
    ensures h'.trace == h.trace + [Report(error)]
    ensures h'.disk == h.disk
  {
    var sent;
    sent, h' := Call(w, h, Report(error));
    match sent
    case Ok =>
    case Fail(_) =>  // console.error only
  }
}
