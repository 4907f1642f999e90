/**
 * A reference state machine for the relay, stated independently of
 * the try/catch structure of the code: a per-event state machine
 * Received -> Validated -> Downloaded -> Uploaded -> Triggered -> Cleaned,
 * with Aborted reachable on failure, and a startup that runs its steps in
 * order until the first failure. The methods of module Relay are proved to
 * make exactly the calls these definitions list.
 */
module RelayDesign {
  import opened Wrappers
  import opened Js
  import opened Platform
  import opened Errors
  import opened Events

  datatype Stage =
    | Received
    | Validated(photoId: int)
    | Downloaded(path: string)
    | Uploaded(path: string, sent: SentMessage)
    | Triggered(path: string)
    | Cleaned
    | Aborted

  predicate Terminal(s: Stage)
  {
    s.Cleaned? || s.Aborted?
  }

  /** How many transitions at most remain from a stage. */
  function Rank(s: Stage): nat
  {
    match s
    case Received => 5
    case Validated(_) => 4
    case Downloaded(_) => 3
    case Uploaded(_, _) => 2
    case Triggered(_) => 1
    case Cleaned => 0
    case Aborted => 0
  }

  /** One transition, with the calls it makes and the reports it sends. */
  function Step(cfg: Config, w: World, event: NewMessageEvent, s: Stage): (r: (Stage, seq<Effect>))
    requires !Terminal(s)
    ensures Rank(r.0) < Rank(s)
  {
    match s
    case Received =>
      // Filtering out an event is not a failure: nothing is called, nothing reported.
      var photo := PhotoToRelay(event.message.media);
      if IsValidEvent(cfg, event) && photo.Some? then (Validated(photo.value), []) else (Aborted, [])
    case Validated(id) =>
      var path := PhotoPath(id);
      var e := Download(id, path);
      (match w.answer(e)
       case Ok => (Downloaded(path), [e])
       case Fail(m) =>
         (Aborted, [e, Report(DownloadError(DownloadFailureText + m)), Report(GeneralError(HandlerFailureText + m))]))
    case Downloaded(path) =>
      var e := SendFile(cfg.myGroupId, path);
      (match w.answer(e)
       case Ok => (Uploaded(path, SentMessage(cfg.myGroupId, path)), [e])
       case Fail(m) =>
         (Aborted, [e, Report(UploadError(UploadFailureText + m)), Report(GeneralError(HandlerFailureText + m))]))
    case Uploaded(path, sent) =>
      var e := Reply(sent, SearchCommand);
      (match w.answer(e)
       case Ok => (Triggered(path), [e])
       case Fail(m) => (Aborted, [e, Report(GeneralError(HandlerFailureText + m))]))
    case Triggered(path) =>
      // Cleanup is reached whether or not the deletion succeeds.
      var e := Unlink(path);
      (match w.answer(e)
       case Ok => (Cleaned, [e])
       case Fail(m) => (Cleaned, [e, Report(FileDeleteError(DeleteFailureText + m))]))
  }

  /** Runs the machine from `s` to a terminal stage; returns that stage and every call made. */
  function Run(cfg: Config, w: World, event: NewMessageEvent, s: Stage): (r: (Stage, seq<Effect>))
    ensures Terminal(r.0)
    ensures Terminal(s) ==> r == (s, [])
    decreases Rank(s)
  {
    if Terminal(s) then (s, [])
    else
      var next := Step(cfg, w, event, s);
      var rest := Run(cfg, w, event, next.0);
      (rest.0, next.1 + rest.1)
  }

  /** The calls one handler invocation makes for `event`. */
  function RelayEffects(cfg: Config, w: World, event: NewMessageEvent): seq<Effect>
  {
    Run(cfg, w, event, Received).1
  }

  /** The stage one handler invocation ends in. */
  function RelayEnd(cfg: Config, w: World, event: NewMessageEvent): Stage
  {
    Run(cfg, w, event, Received).0
  }

  /** The handler accepts `event` and will relay the photo `id`. */
  predicate Relays(cfg: Config, event: NewMessageEvent, id: int)
  {
    IsValidEvent(cfg, event) && PhotoToRelay(event.message.media) == Some(id)
  }

  /** One transition followed by the rest of the run. */
  lemma RunThrough(cfg: Config, w: World, event: NewMessageEvent, s: Stage, next: Stage, es: seq<Effect>)
    requires !Terminal(s) && Step(cfg, w, event, s) == (next, es)
    ensures Run(cfg, w, event, s) == (Run(cfg, w, event, next).0, es + Run(cfg, w, event, next).1)
  {
  }

  /** A transition into a terminal stage ends the run. */
  lemma RunEnds(cfg: Config, w: World, event: NewMessageEvent, s: Stage, next: Stage, es: seq<Effect>)
    requires !Terminal(s) && Terminal(next) && Step(cfg, w, event, s) == (next, es)
    ensures Run(cfg, w, event, s) == (next, es)
  {
    assert es + [] == es;
  }

  // One lemma per path through the machine. Each gives the exact calls, what
  // notices are sent to "me", and what is left on local storage.

  /** An event from elsewhere, from another sender, or without a photo is dropped silently. */
  lemma RejectedEventIsSilent(cfg: Config, w: World, event: NewMessageEvent)
    requires !IsValidEvent(cfg, event) || PhotoToRelay(event.message.media).None?
    ensures RelayEffects(cfg, w, event) == [] && RelayEnd(cfg, w, event) == Aborted
  {
    assert Step(cfg, w, event, Received) == (Aborted, []);
  }

  lemma DownloadFails(cfg: Config, w: World, event: NewMessageEvent, id: int, m: string, d: Disk)
    requires Relays(cfg, event, id)
    requires w.answer(Download(id, PhotoPath(id))) == Fail(m)
    ensures RelayEffects(cfg, w, event) ==
      [Download(id, PhotoPath(id)),
       Report(DownloadError(DownloadFailureText + m)),
       Report(GeneralError(HandlerFailureText + m))]
    ensures RelayEnd(cfg, w, event) == Aborted
    ensures Reports(RelayEffects(cfg, w, event)) ==
      [DownloadError(DownloadFailureText + m), GeneralError(HandlerFailureText + m)]
    // Nothing was staged, so nothing is uploaded, replied to or deleted.
    ensures Replay(w, d, RelayEffects(cfg, w, event)) == d
  {
    var path := PhotoPath(id);
    var calls := [Download(id, path)];
    var errs := [DownloadError(DownloadFailureText + m), GeneralError(HandlerFailureText + m)];
    var es := calls + Notices(errs);
    assert es == [Download(id, path), Report(errs[0]), Report(errs[1])];
    RunEnds(cfg, w, event, Validated(id), Aborted, es);
    RunThrough(cfg, w, event, Received, Validated(id), []);
    assert [] + es == es;
    AfterCalls(w, d, calls, errs);
    ReplayCons(w, d, calls[0], []);
  }

  lemma UploadFails(cfg: Config, w: World, event: NewMessageEvent, id: int, m: string, d: Disk)
    requires Relays(cfg, event, id)
    requires w.answer(Download(id, PhotoPath(id))).Ok?
    requires w.answer(SendFile(cfg.myGroupId, PhotoPath(id))) == Fail(m)
    ensures RelayEffects(cfg, w, event) ==
      [Download(id, PhotoPath(id)),
       SendFile(cfg.myGroupId, PhotoPath(id)),
       Report(UploadError(UploadFailureText + m)),
       Report(GeneralError(HandlerFailureText + m))]
    ensures RelayEnd(cfg, w, event) == Aborted
    ensures Reports(RelayEffects(cfg, w, event)) ==
      [UploadError(UploadFailureText + m), GeneralError(HandlerFailureText + m)]
    // The staged file stays behind: nothing deletes it on this path.
    ensures Replay(w, d, RelayEffects(cfg, w, event)) == d.(files := d.files + {PhotoPath(id)})
  {
    var path := PhotoPath(id);
    var calls := [Download(id, path), SendFile(cfg.myGroupId, path)];
    var errs := [UploadError(UploadFailureText + m), GeneralError(HandlerFailureText + m)];
    var tail := [calls[1]] + Notices(errs);
    var es := calls + Notices(errs);
    assert es == [calls[0]] + tail;
    assert tail == [SendFile(cfg.myGroupId, path), Report(errs[0]), Report(errs[1])];
    RunEnds(cfg, w, event, Downloaded(path), Aborted, tail);
    RunThrough(cfg, w, event, Validated(id), Downloaded(path), [Download(id, path)]);
    RunThrough(cfg, w, event, Received, Validated(id), []);
    assert [] + es == es;
    AfterCalls(w, d, calls, errs);
    StagedReplay(w, d, calls, path);
  }

  lemma ReplyFails(cfg: Config, w: World, event: NewMessageEvent, id: int, m: string, d: Disk)
    requires Relays(cfg, event, id)
    requires w.answer(Download(id, PhotoPath(id))).Ok?
    requires w.answer(SendFile(cfg.myGroupId, PhotoPath(id))).Ok?
    requires w.answer(Reply(SentMessage(cfg.myGroupId, PhotoPath(id)), SearchCommand)) == Fail(m)
    ensures RelayEffects(cfg, w, event) ==
      [Download(id, PhotoPath(id)),
       SendFile(cfg.myGroupId, PhotoPath(id)),
       Reply(SentMessage(cfg.myGroupId, PhotoPath(id)), SearchCommand),
       Report(GeneralError(HandlerFailureText + m))]
    ensures RelayEnd(cfg, w, event) == Aborted
    ensures Reports(RelayEffects(cfg, w, event)) == [GeneralError(HandlerFailureText + m)]
    // No deletion is attempted, so the staged file stays behind.
    ensures Replay(w, d, RelayEffects(cfg, w, event)) == d.(files := d.files + {PhotoPath(id)})
  {
    var path := PhotoPath(id);
    var sent := SentMessage(cfg.myGroupId, path);
    var calls := [Download(id, path), SendFile(cfg.myGroupId, path), Reply(sent, SearchCommand)];
    var errs := [GeneralError(HandlerFailureText + m)];
    var t2 := [calls[2]] + Notices(errs);
    var t1 := [calls[1]] + t2;
    var es := calls + Notices(errs);
    assert es == [calls[0]] + t1;
    assert t2 == [Reply(sent, SearchCommand), Report(errs[0])];
    RunEnds(cfg, w, event, Uploaded(path, sent), Aborted, t2);
    RunThrough(cfg, w, event, Downloaded(path), Uploaded(path, sent), [SendFile(cfg.myGroupId, path)]);
    RunThrough(cfg, w, event, Validated(id), Downloaded(path), [Download(id, path)]);
    RunThrough(cfg, w, event, Received, Validated(id), []);
    assert [] + es == es;
    AfterCalls(w, d, calls, errs);
    StagedReplay(w, d, calls, path);
  }

  lemma DeleteFails(cfg: Config, w: World, event: NewMessageEvent, id: int, m: string, d: Disk)
    requires Relays(cfg, event, id)
    requires w.answer(Download(id, PhotoPath(id))).Ok?
    requires w.answer(SendFile(cfg.myGroupId, PhotoPath(id))).Ok?
    requires w.answer(Reply(SentMessage(cfg.myGroupId, PhotoPath(id)), SearchCommand)).Ok?
    requires w.answer(Unlink(PhotoPath(id))) == Fail(m)
    ensures RelayEffects(cfg, w, event) ==
      [Download(id, PhotoPath(id)),
       SendFile(cfg.myGroupId, PhotoPath(id)),
       Reply(SentMessage(cfg.myGroupId, PhotoPath(id)), SearchCommand),
       Unlink(PhotoPath(id)),
       Report(FileDeleteError(DeleteFailureText + m))]
    ensures RelayEnd(cfg, w, event) == Cleaned
    // Exactly one FileDeleteError, and no GeneralError: the failure is swallowed.
    ensures Reports(RelayEffects(cfg, w, event)) == [FileDeleteError(DeleteFailureText + m)]
    ensures Replay(w, d, RelayEffects(cfg, w, event)) == d.(files := d.files + {PhotoPath(id)})
  {
    var path := PhotoPath(id);
    var sent := SentMessage(cfg.myGroupId, path);
    var errs := [FileDeleteError(DeleteFailureText + m)];
    var t3 := [Unlink(path)] + Notices(errs);
    assert t3 == [Unlink(path), Report(errs[0])];
    var es := RunToCleanup(cfg, w, event, id, t3);
    var calls := es[..4];
    assert es == calls + Notices(errs);
    AfterCalls(w, d, calls, errs);
    StagedReplay(w, d, calls[..3], path);
    ReplayAppend(w, d, calls[..3], [Unlink(path)]);
    assert calls == calls[..3] + [Unlink(path)];
    ReplayCons(w, Replay(w, d, calls[..3]), Unlink(path), []);
  }

  lemma RelaySucceeds(cfg: Config, w: World, event: NewMessageEvent, id: int, d: Disk)
    requires Relays(cfg, event, id)
    requires w.answer(Download(id, PhotoPath(id))).Ok?
    requires w.answer(SendFile(cfg.myGroupId, PhotoPath(id))).Ok?
    requires w.answer(Reply(SentMessage(cfg.myGroupId, PhotoPath(id)), SearchCommand)).Ok?
    requires w.answer(Unlink(PhotoPath(id))).Ok?
    ensures RelayEffects(cfg, w, event) ==
      [Download(id, PhotoPath(id)),
       SendFile(cfg.myGroupId, PhotoPath(id)),
       Reply(SentMessage(cfg.myGroupId, PhotoPath(id)), SearchCommand),
       Unlink(PhotoPath(id))]
    ensures RelayEnd(cfg, w, event) == Cleaned
    ensures Reports(RelayEffects(cfg, w, event)) == []
    // The staged file is gone afterwards, whether or not it existed before.
    ensures Replay(w, d, RelayEffects(cfg, w, event)) == d.(files := d.files - {PhotoPath(id)})
  {
    var path := PhotoPath(id);
    var es := RunToCleanup(cfg, w, event, id, [Unlink(path)]);
    AfterCalls(w, d, es, []);
    assert es + Notices([]) == es;
    StagedReplay(w, d, es[..3], path);
    ReplayAppend(w, d, es[..3], [Unlink(path)]);
    assert es == es[..3] + [Unlink(path)];
    ReplayCons(w, Replay(w, d, es[..3]), Unlink(path), []);
    assert d.files + {path} - {path} == d.files - {path};
  }

  /** When download, upload and reply succeed, the run ends Cleaned after those three calls and the cleanup's `t3`. */
  lemma RunToCleanup(cfg: Config, w: World, event: NewMessageEvent, id: int, t3: seq<Effect>) returns (es: seq<Effect>)
    requires Relays(cfg, event, id)
    requires w.answer(Download(id, PhotoPath(id))).Ok?
    requires w.answer(SendFile(cfg.myGroupId, PhotoPath(id))).Ok?
    requires w.answer(Reply(SentMessage(cfg.myGroupId, PhotoPath(id)), SearchCommand)).Ok?
    requires Step(cfg, w, event, Triggered(PhotoPath(id))) == (Cleaned, t3)
    ensures es == [Download(id, PhotoPath(id)), SendFile(cfg.myGroupId, PhotoPath(id)), Reply(SentMessage(cfg.myGroupId, PhotoPath(id)), SearchCommand)] + t3
    ensures Run(cfg, w, event, Received) == (Cleaned, es)
  {
    var path := PhotoPath(id);
    var sent := SentMessage(cfg.myGroupId, path);
    var t2 := [Reply(sent, SearchCommand)] + t3;
    var t1 := [SendFile(cfg.myGroupId, path)] + t2;
    es := [Download(id, path)] + t1;
    RunEnds(cfg, w, event, Triggered(path), Cleaned, t3);
    RunThrough(cfg, w, event, Uploaded(path, sent), Triggered(path), [Reply(sent, SearchCommand)]);
    RunThrough(cfg, w, event, Downloaded(path), Uploaded(path, sent), [SendFile(cfg.myGroupId, path)]);
    RunThrough(cfg, w, event, Validated(id), Downloaded(path), [Download(id, path)]);
    RunThrough(cfg, w, event, Received, Validated(id), []);
    assert [] + es == es;
  }

  /** The notices reporting `errs`, one message to "me" each, in order. */
  function Notices(errs: seq<ClassifiedError>): (es: seq<Effect>)
    ensures |es| == |errs| && forall i :: 0 <= i < |errs| ==> es[i] == Report(errs[i])
  {
    seq(|errs|, i requires 0 <= i < |errs| => Report(errs[i]))
  }

  /** Notices sent after calls that send no message: the notices sent read back as exactly `errs`, and storage is untouched by them. */
  lemma AfterCalls(w: World, d: Disk, calls: seq<Effect>, errs: seq<ClassifiedError>)
    requires forall i :: 0 <= i < |calls| ==> !calls[i].SendMessage?
    ensures Reports(calls + Notices(errs)) == errs
    ensures Replay(w, d, calls + Notices(errs)) == Replay(w, d, calls)
  {
    NoReportsAmong(calls);
    ReportsAppend(calls, Notices(errs));
    ReportsOfNotices(errs);
    ReplayAppend(w, d, calls, Notices(errs));
    ReplayRemote(w, Replay(w, d, calls), Notices(errs));
  }

  lemma {:induction false} ReportsOfNotices(errs: seq<ClassifiedError>)
    ensures Reports(Notices(errs)) == errs
    decreases |errs|
  {
    if errs != [] {
      var es := Notices(errs);
      assert es[1..] == Notices(errs[1..]);
      ReportRoundTrip(errs[0]);
      ReportsOfNotices(errs[1..]);
      assert Reports(es) == [errs[0]] + Reports(es[1..]);
    } else {
      assert Notices(errs) == [];
    }
  }

  lemma ReplayCons(w: World, d: Disk, e: Effect, rest: seq<Effect>)
    ensures Replay(w, d, [e] + rest) == Replay(w, if w.answer(e).Ok? then Perform(d, e) else d, rest)
  {
    assert ([e] + rest)[1..] == rest;
  }

  /** A successful download stages its file; the upload and reply that may follow leave storage alone. */
  lemma StagedReplay(w: World, d: Disk, calls: seq<Effect>, path: string)
    requires 0 < |calls| && calls[0].Download? && calls[0].outputFile == path && w.answer(calls[0]).Ok?
    requires forall i :: 1 <= i < |calls| ==> calls[i].SendFile? || calls[i].Reply?
    ensures Replay(w, d, calls) == d.(files := d.files + {path})
  {
    assert calls == [calls[0]] + calls[1..];
    ReplayCons(w, d, calls[0], calls[1..]);
    ReplayRemote(w, Perform(d, calls[0]), calls[1..]);
  }

  /**
   * The relay ends Cleaned exactly when download, upload and the trigger reply
   * all succeed, and then the staged file has been deleted exactly once, as
   * the last call but for a possible FileDeleteError report.
   */
  lemma CleanedIffTriggered(cfg: Config, w: World, event: NewMessageEvent, id: int)
    requires Relays(cfg, event, id)
    ensures RelayEnd(cfg, w, event) == Cleaned <==>
      w.answer(Download(id, PhotoPath(id))).Ok? &&
      w.answer(SendFile(cfg.myGroupId, PhotoPath(id))).Ok? &&
      w.answer(Reply(SentMessage(cfg.myGroupId, PhotoPath(id)), SearchCommand)).Ok?
    ensures RelayEnd(cfg, w, event) == Cleaned ==>
      var es := RelayEffects(cfg, w, event);
      |es| >= 4 && es[3] == Unlink(PhotoPath(id)) && Unlink(PhotoPath(id)) !in es[..3] + es[4..]
    ensures RelayEnd(cfg, w, event) == Aborted ==> Unlink(PhotoPath(id)) !in RelayEffects(cfg, w, event)
  {
    var path := PhotoPath(id);
    var sent := SentMessage(cfg.myGroupId, path);
    var d := Disk({}, {});
    match w.answer(Download(id, path))
    case Fail(m) => DownloadFails(cfg, w, event, id, m, d);
    case Ok =>
      match w.answer(SendFile(cfg.myGroupId, path))
      case Fail(m) => UploadFails(cfg, w, event, id, m, d);
      case Ok =>
        match w.answer(Reply(sent, SearchCommand))
        case Fail(m) => ReplyFails(cfg, w, event, id, m, d);
        case Ok =>
          match w.answer(Unlink(path))
          case Fail(m) =>
            DeleteFails(cfg, w, event, id, m, d);
            var es := RelayEffects(cfg, w, event);
            assert es[..3] + es[4..] == [es[0], es[1], es[2], es[4]];
          case Ok =>
            RelaySucceeds(cfg, w, event, id, d);
            var es := RelayEffects(cfg, w, event);
            assert es[..3] + es[4..] == [es[0], es[1], es[2]];
  }

  // Startup.

  /** The startup calls in order; the directory is created only when it is absent. */
  function SetupSteps(d: Disk): seq<Effect>
  {
    [Connect] + (if d.Exists(StagingDir) then [] else [MakeDir(StagingDir)]) + [SendMessage(Me, HelloText), AddEventHandler]
  }

  /** Makes `steps` in order until one fails; returns the calls made and the failing call's message. */
  function RunUntilFailure(w: World, steps: seq<Effect>): (seq<Effect>, Option<string>)
    decreases |steps|
  {
    if steps == [] then ([], None)
    else match w.answer(steps[0])
      case Fail(m) => ([steps[0]], Some(m))
      case Ok =>
        var rest := RunUntilFailure(w, steps[1..]);
        ([steps[0]] + rest.0, rest.1)
  }

  /**
   * The calls made are a prefix of the steps, every one but the last
   * succeeded, the run is complete exactly when every step succeeds, and a
   * stopped run ends with the step that failed, carrying its message.
   */
  lemma {:induction false} RunUntilFailureStops(w: World, steps: seq<Effect>)
    ensures var r := RunUntilFailure(w, steps);
      |r.0| <= |steps| && r.0 == steps[..|r.0|] &&
      (forall i :: 0 <= i < |r.0| - 1 ==> w.answer(r.0[i]).Ok?) &&
      (r.1.None? <==> r.0 == steps && forall i :: 0 <= i < |steps| ==> w.answer(steps[i]).Ok?) &&
      (r.1.Some? ==> |r.0| > 0 && w.answer(r.0[|r.0| - 1]) == Fail(r.1.value))
    decreases |steps|
  {
    if steps != [] && w.answer(steps[0]).Ok? {
      RunUntilFailureStops(w, steps[1..]);
      var rest := RunUntilFailure(w, steps[1..]);
      assert forall i :: 1 <= i < |steps| ==> steps[i] == steps[1..][i - 1];
      assert steps[..1 + |rest.0|] == [steps[0]] + steps[1..][..|rest.0|];
    }
  }

  /** The first step decides whether the rest is attempted. */
  lemma RunUntilFailureCons(w: World, e: Effect, rest: seq<Effect>)
    ensures RunUntilFailure(w, [e] + rest) ==
      match w.answer(e)
      case Fail(m) => ([e], Some(m))
      case Ok => ([e] + RunUntilFailure(w, rest).0, RunUntilFailure(w, rest).1)
  {
    assert ([e] + rest)[1..] == rest;
  }

  /** The calls `main` makes: the setup steps up to the first failure, then one GeneralError report for it. */
  function StartupEffects(w: World, d: Disk): seq<Effect>
  {
    var run := RunUntilFailure(w, SetupSteps(d));
    match run.1
    case None => run.0
    case Some(m) => run.0 + [Report(GeneralError(MainFailureText + m))]
  }

  /** With every step succeeding, startup connects, prepares the directory, greets, registers, and reports nothing. */
  lemma StartupSucceeds(w: World, d: Disk)
    requires forall e :: e in SetupSteps(d) ==> w.answer(e).Ok?
    ensures StartupEffects(w, d) == SetupSteps(d)
    ensures StartupEffects(w, d)[0] == Connect && StartupEffects(w, d)[|StartupEffects(w, d)| - 1] == AddEventHandler
    ensures Reports(StartupEffects(w, d)) == []
    ensures Replay(w, d, StartupEffects(w, d)).Exists(StagingDir)
  {
    var steps := SetupSteps(d);
    RunUntilFailureStops(w, steps);
    assert forall i :: 0 <= i < |steps| ==> w.answer(steps[i]).Ok? by {
      forall i | 0 <= i < |steps| ensures w.answer(steps[i]).Ok? {
        assert steps[i] in steps;
      }
    }
    var tail := [SendMessage(Me, HelloText), AddEventHandler];
    assert Reports(tail) == [] by {
      assert ParseReport(HelloText) == None by {
        assert HelloText[..|ErrorLabel|] != ErrorLabel by {
          assert HelloText[0] == 'H' && ErrorLabel[0] == 'E';
        }
      }
      assert tail[1..] == [AddEventHandler] && [AddEventHandler][1..] == [];
    }
    if d.Exists(StagingDir) {
      assert steps == [Connect] + tail;
      ReportsAppend([Connect], tail);
      ReplayRemote(w, d, steps);
    } else {
      var made := [Connect, MakeDir(StagingDir)];
      assert steps == made + tail;
      ReportsAppend(made, tail);
      assert made[1..] == [MakeDir(StagingDir)] && [MakeDir(StagingDir)][1..] == [];
      assert Replay(w, d, made) == Replay(w, d, [MakeDir(StagingDir)]) == Perform(d, MakeDir(StagingDir));
      ReplayAppend(w, d, made, tail);
      ReplayRemote(w, Replay(w, d, made), tail);
    }
  }

  /**
   * A failing step stops startup: no later step is attempted, the handler is
   * not registered, and exactly one GeneralError notice is sent to "me", whose
   * message carries the failure's, as the last call.
   */
  lemma StartupFails(w: World, d: Disk, k: nat, m: string)
    requires k < |SetupSteps(d)|
    requires forall i :: 0 <= i < k ==> w.answer(SetupSteps(d)[i]).Ok?
    requires w.answer(SetupSteps(d)[k]) == Fail(m)
    ensures StartupEffects(w, d) == SetupSteps(d)[..k + 1] + [Report(GeneralError(MainFailureText + m))]
    ensures Reports(StartupEffects(w, d)) == [GeneralError(MainFailureText + m)]
  {
    var steps := SetupSteps(d);
    var run := RunUntilFailure(w, steps);
    RunUntilFailureStops(w, steps);
    // The run stops at the first failing step, which is step k.
    assert run.1.Some?;
    assert |run.0| == k + 1;
    assert Reports(run.0) == [] by {
      NoReportsInSetup(d, k + 1);
    }
    ReportsOfReport(GeneralError(MainFailureText + m));
    ReportsAppend(run.0, [Report(GeneralError(MainFailureText + m))]);
  }

  /** No setup step reads back as an error report, so reports come only from failures. */
  lemma NoReportsInSetup(d: Disk, n: nat)
    requires n <= |SetupSteps(d)|
    ensures Reports(SetupSteps(d)[..n]) == []
  {
    var steps := SetupSteps(d);
    assert ParseReport(HelloText) == None by {
      assert HelloText[..|ErrorLabel|] != ErrorLabel by {
        assert HelloText[0] == 'H' && ErrorLabel[0] == 'E';
      }
    }
    NoReportsAmong(steps[..n]);
  }

  lemma {:induction false} NoReportsAmong(es: seq<Effect>)
    requires forall i :: 0 <= i < |es| ==> !es[i].SendMessage? || ParseReport(es[i].text).None?
    ensures Reports(es) == []
    decreases |es|
  {
    if es != [] {
      NoReportsAmong(es[1..]);
    }
  }

  /**
   * What startup does to local storage: it adds the staging directory when the
   * directory was absent and both connecting and creating it succeed, and
   * changes nothing else.
   */
  lemma StartupStorage(w: World, d: Disk)
    ensures Replay(w, d, StartupEffects(w, d)) ==
      if !d.Exists(StagingDir) && w.answer(Connect).Ok? && w.answer(MakeDir(StagingDir)).Ok?
      then d.(dirs := d.dirs + {StagingDir}) else d
  {
    var steps := SetupSteps(d);
    var run := RunUntilFailure(w, steps);
    RunUntilFailureStops(w, steps);
    var es := StartupEffects(w, d);
    assert es[..|run.0|] == run.0;
    forall i | 0 <= i < |es| ensures es[i].MakeDir? ==> es[i] == MakeDir(StagingDir) && i == 1 && !d.Exists(StagingDir) {
      if i < |run.0| { assert es[i] == steps[i]; }
    }
    ReplayMakeDir(w, d, es);
    if !d.Exists(StagingDir) && w.answer(Connect).Ok? && w.answer(MakeDir(StagingDir)).Ok? {
      assert |run.0| >= 2;
      assert es[1] == steps[1] == MakeDir(StagingDir);
    }
  }

  /** Among calls that change storage only by creating the staging directory, one successful creation decides the outcome. */
  lemma {:induction false} ReplayMakeDir(w: World, d: Disk, es: seq<Effect>)
    requires forall i :: 0 <= i < |es| ==> !es[i].Download? && !es[i].Unlink? && (es[i].MakeDir? ==> es[i] == MakeDir(StagingDir))
    ensures Replay(w, d, es) ==
      if (exists i :: 0 <= i < |es| && es[i] == MakeDir(StagingDir)) && w.answer(MakeDir(StagingDir)).Ok?
      then d.(dirs := d.dirs + {StagingDir}) else d
    decreases |es|
  {
    if es != [] {
      var d1 := if w.answer(es[0]).Ok? then Perform(d, es[0]) else d;
      ReplayMakeDir(w, d1, es[1..]);
      assert forall i :: 1 <= i < |es| ==> es[i] == es[1..][i - 1];
      if es[0] == MakeDir(StagingDir) && w.answer(es[0]).Ok? {
        assert d1.dirs + {StagingDir} == d1.dirs;
      }
    }
  }

  /**
   * Preparing the staging directory is idempotent: after a startup whose
   * connection and directory creation succeed, the directory exists, and a
   * later startup does not create it again.
   */
  lemma StagingDirIdempotent(w: World, d: Disk)
    requires w.answer(Connect).Ok? && w.answer(MakeDir(StagingDir)).Ok?
    ensures Replay(w, d, StartupEffects(w, d)).Exists(StagingDir)
    ensures MakeDir(StagingDir) !in StartupEffects(w, Replay(w, d, StartupEffects(w, d)))
  {
    StartupStorage(w, d);
    var d' := Replay(w, d, StartupEffects(w, d));
    assert SetupSteps(d') == [Connect, SendMessage(Me, HelloText), AddEventHandler];
    var run' := RunUntilFailure(w, SetupSteps(d'));
    RunUntilFailureStops(w, SetupSteps(d'));
    var es' := StartupEffects(w, d');
    assert forall i :: 0 <= i < |run'.0| ==> run'.0[i] != MakeDir(StagingDir);
  }
}
