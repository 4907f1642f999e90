/**
 * The side-effecting functions of src/index.ts, step by step as the code
 * runs them: downloadMedia and uploadFile report and rethrow, deleteLocalFile
 * reports and swallows, handler wraps its body in a catch that reports a
 * GeneralError, and main runs the startup sequence under the same kind of
 * catch. Each takes the host state and returns the new one; a thrown Error
 * is a `Threw` completion.
 */
module Relay {
  import opened Wrappers
  import opened Js
  import opened Platform
  import opened Errors
  import opened Events
  import opened RelayDesign

  /**
   * downloadMedia: asks the client to write the photo to `filePath`. On
   * failure it reports a DownloadError and rethrows the original error.
   */
  method DownloadMedia(w: World, h: Host, photoId: int, filePath: string) returns (c: Completion<()>, h': Host)
    ensures var e := Download(photoId, filePath);
      match w.answer(e)
      case Ok => c == Normal(()) && h'.trace == h.trace + [e]
      case Fail(m) => c == Threw(m) && h'.trace == h.trace + [e, Report(DownloadError(DownloadFailureText + m))]
    ensures h'.disk == Replay(w, h.disk, [Download(photoId, filePath)])
  {
    var downloaded;
    downloaded, h' := Call(w, h, Download(photoId, filePath));
    match downloaded
    case Ok =>
      c := Normal(());
    case Fail(m) =>
      h' := SendErrorMessage(w, h', DownloadError(DownloadFailureText + m));
      c := Threw(m);
  }

  /**
   * uploadFile: sends the staged file to the own group and returns the sent
   * message. On failure it reports an UploadError and rethrows.
   */
  method UploadFile(cfg: Config, w: World, h: Host, filePath: string) returns (c: Completion<SentMessage>, h': Host)
    ensures var e := SendFile(cfg.myGroupId, filePath);
      match w.answer(e)
      case Ok => c == Normal(SentMessage(cfg.myGroupId, filePath)) && h'.trace == h.trace + [e]
      case Fail(m) => c == Threw(m) && h'.trace == h.trace + [e, Report(UploadError(UploadFailureText + m))]
    ensures h'.disk == h.disk
  {
    var sent;
    sent, h' := Call(w, h, SendFile(cfg.myGroupId, filePath));
    match sent
    case Ok =>
      c := Normal(SentMessage(cfg.myGroupId, filePath));
    case Fail(m) =>
      h' := SendErrorMessage(w, h', UploadError(UploadFailureText + m));
      c := Threw(m);
  }

  /**
   * deleteLocalFile: removes the staged file. A failure is reported as a
   * FileDeleteError and swallowed, so the method cannot throw.
   */
  method DeleteLocalFile(w: World, h: Host, filePath: string) returns (h': Host)
    ensures h'.trace == h.trace + [Unlink(filePath)] +
      match w.answer(Unlink(filePath))
      case Ok => []
      case Fail(m) => [Report(FileDeleteError(DeleteFailureText + m))]
    ensures h'.disk == Replay(w, h.disk, [Unlink(filePath)])
  {
    var removed;
    removed, h' := Call(w, h, Unlink(filePath));
    match removed
    case Ok =>
    case Fail(m) =>
      h' := SendErrorMessage(w, h', FileDeleteError(DeleteFailureText + m));
  }

  /**
   * The try block of handler: validate, check for a photo, then download,
   * upload, send the trigger reply and delete the staged file. Together with
   * the catch's report it makes exactly the calls of the reference run.
   */
  method HandlerBody(cfg: Config, w: World, h: Host, event: NewMessageEvent) returns (c: Completion<()>, h': Host)
    ensures c.Threw? ==> RelayEnd(cfg, w, event) == Aborted
    ensures h'.trace + (if c.Threw? then [Report(GeneralError(HandlerFailureText + c.message))] else [])
      == h.trace + RelayEffects(cfg, w, event)
    ensures h'.disk == Replay(w, h.disk, RelayEffects(cfg, w, event))
  {
    if !IsValidEvent(cfg, event) {
      RejectedEventIsSilent(cfg, w, event);
      return Normal(()), h;
    }
    var photo := PhotoToRelay(event.message.media);
    if photo.None? {
      RejectedEventIsSilent(cfg, w, event);
      return Normal(()), h;
    }
    var id := photo.value;
    var filePath := PhotoPath(id);

    c, h' := DownloadMedia(w, h, id, filePath);
    if c.Threw? {
      CaughtDownloadFailure(cfg, w, event, id, c.message, h, h');
      return;
    }
    ghost var downloaded := h';
    var file;
    file, h' := UploadFile(cfg, w, h', filePath);
    if file.Threw? {
      CaughtUploadFailure(cfg, w, event, id, file.message, h, h');
      return Threw(file.message), h';
    }
    var replied;
    replied, h' := Call(w, h', Reply(file.value, SearchCommand));
    if replied.Fail? {
      CaughtReplyFailure(cfg, w, event, id, replied.message, h, h');
      return Threw(replied.message), h';
    }
    ghost var triggered := h';
    h' := DeleteLocalFile(w, h', filePath);
    CompletedRelay(cfg, w, event, id, h, triggered, h');
    c := Normal(());
  }

  lemma CaughtDownloadFailure(cfg: Config, w: World, event: NewMessageEvent, id: int, m: string, h: Host, h': Host)
    requires Relays(cfg, event, id)
    requires w.answer(Download(id, PhotoPath(id))) == Fail(m)
    requires h'.trace == h.trace + [Download(id, PhotoPath(id)), Report(DownloadError(DownloadFailureText + m))]
    requires h'.disk == Replay(w, h.disk, [Download(id, PhotoPath(id))])
    ensures RelayEnd(cfg, w, event) == Aborted
    ensures h'.trace + [Report(GeneralError(HandlerFailureText + m))] == h.trace + RelayEffects(cfg, w, event)
    ensures h'.disk == Replay(w, h.disk, RelayEffects(cfg, w, event))
  {
    DownloadFails(cfg, w, event, id, m, h.disk);
    ReplayCons(w, h.disk, Download(id, PhotoPath(id)), []);
  }

  lemma CaughtUploadFailure(cfg: Config, w: World, event: NewMessageEvent, id: int, m: string, h: Host, h': Host)
    requires Relays(cfg, event, id)
    requires w.answer(Download(id, PhotoPath(id))).Ok?
    requires w.answer(SendFile(cfg.myGroupId, PhotoPath(id))) == Fail(m)
    requires h'.trace == h.trace + [Download(id, PhotoPath(id))] +
      [SendFile(cfg.myGroupId, PhotoPath(id)), Report(UploadError(UploadFailureText + m))]
    requires h'.disk == Replay(w, h.disk, [Download(id, PhotoPath(id))])
    ensures RelayEnd(cfg, w, event) == Aborted
    ensures h'.trace + [Report(GeneralError(HandlerFailureText + m))] == h.trace + RelayEffects(cfg, w, event)
    ensures h'.disk == Replay(w, h.disk, RelayEffects(cfg, w, event))
  {
    UploadFails(cfg, w, event, id, m, h.disk);
    StagedReplay(w, h.disk, [Download(id, PhotoPath(id))], PhotoPath(id));
  }

  lemma CaughtReplyFailure(cfg: Config, w: World, event: NewMessageEvent, id: int, m: string, h: Host, h': Host)
    requires Relays(cfg, event, id)
    requires w.answer(Download(id, PhotoPath(id))).Ok?
    requires w.answer(SendFile(cfg.myGroupId, PhotoPath(id))).Ok?
    requires w.answer(Reply(SentMessage(cfg.myGroupId, PhotoPath(id)), SearchCommand)) == Fail(m)
    requires h'.trace == h.trace + [Download(id, PhotoPath(id))] + [SendFile(cfg.myGroupId, PhotoPath(id))] +
      [Reply(SentMessage(cfg.myGroupId, PhotoPath(id)), SearchCommand)]
    requires h'.disk == Replay(w, Replay(w, h.disk, [Download(id, PhotoPath(id))]), [Reply(SentMessage(cfg.myGroupId, PhotoPath(id)), SearchCommand)])
    ensures RelayEnd(cfg, w, event) == Aborted
    ensures h'.trace + [Report(GeneralError(HandlerFailureText + m))] == h.trace + RelayEffects(cfg, w, event)
    ensures h'.disk == Replay(w, h.disk, RelayEffects(cfg, w, event))
  {
    var path := PhotoPath(id);
    ReplyFails(cfg, w, event, id, m, h.disk);
    StagedReplay(w, h.disk, [Download(id, path)], path);
    ReplayRemote(w, Replay(w, h.disk, [Download(id, path)]), [Reply(SentMessage(cfg.myGroupId, path), SearchCommand)]);
  }

  lemma CompletedRelay(cfg: Config, w: World, event: NewMessageEvent, id: int, h: Host, triggered: Host, h': Host)
    requires Relays(cfg, event, id)
    requires w.answer(Download(id, PhotoPath(id))).Ok?
    requires w.answer(SendFile(cfg.myGroupId, PhotoPath(id))).Ok?
    requires w.answer(Reply(SentMessage(cfg.myGroupId, PhotoPath(id)), SearchCommand)).Ok?
    requires triggered.trace == h.trace + [Download(id, PhotoPath(id))] + [SendFile(cfg.myGroupId, PhotoPath(id))] +
      [Reply(SentMessage(cfg.myGroupId, PhotoPath(id)), SearchCommand)]
    requires triggered.disk == Replay(w, Replay(w, h.disk, [Download(id, PhotoPath(id))]), [Reply(SentMessage(cfg.myGroupId, PhotoPath(id)), SearchCommand)])
    requires h'.trace == triggered.trace + [Unlink(PhotoPath(id))] +
      match w.answer(Unlink(PhotoPath(id)))
      case Ok => []
      case Fail(m) => [Report(FileDeleteError(DeleteFailureText + m))]
    requires h'.disk == Replay(w, triggered.disk, [Unlink(PhotoPath(id))])
    ensures h'.trace == h.trace + RelayEffects(cfg, w, event)
    ensures h'.disk == Replay(w, h.disk, RelayEffects(cfg, w, event))
  {
    var path := PhotoPath(id);
    StagedReplay(w, h.disk, [Download(id, path)], path);
    ReplayRemote(w, Replay(w, h.disk, [Download(id, path)]), [Reply(SentMessage(cfg.myGroupId, path), SearchCommand)]);
    ReplayCons(w, triggered.disk, Unlink(path), []);
    match w.answer(Unlink(path))
    case Ok =>
      RelaySucceeds(cfg, w, event, id, h.disk);
      assert h.disk.files + {path} - {path} == h.disk.files - {path};
    case Fail(m) =>
      DeleteFails(cfg, w, event, id, m, h.disk);
  }

  /**
   * handler: runs the body and reports anything it throws as a GeneralError.
   * It makes exactly the calls of the reference state machine, so
   * every lemma of RelayDesign about RelayEffects holds of its trace.
   */
  method Handler(cfg: Config, w: World, h: Host, event: NewMessageEvent) returns (h': Host)
    ensures h'.trace == h.trace + RelayEffects(cfg, w, event)
    ensures h'.disk == Replay(w, h.disk, RelayEffects(cfg, w, event))
  {
    var c;
    c, h' := HandlerBody(cfg, w, h, event);
    if c.Threw? {
      h' := SendErrorMessage(w, h', GeneralError(HandlerFailureText + c.message));
    }
  }

  /**
   * The try block of main: connect, create ./downloads if it does not exist,
   * greet "me", register the handler; the first failing call throws.
   */
  method StartupBody(w: World, h: Host) returns (c: Completion<()>, h': Host)
    ensures var run := RunUntilFailure(w, SetupSteps(h.disk));
      h'.trace == h.trace + run.0 &&
      (match run.1 case None => c == Normal(()) case Some(m) => c == Threw(m))
    ensures h'.disk == Replay(w, h.disk, RunUntilFailure(w, SetupSteps(h.disk)).0)
  {
    ghost var run := RunUntilFailure(w, SetupSteps(h.disk));
    ghost var greet := [SendMessage(Me, HelloText), AddEventHandler];
    ghost var later := (if h.disk.Exists(StagingDir) then [] else [MakeDir(StagingDir)]) + greet;
    assert SetupSteps(h.disk) == [Connect] + later;
    assert [] + RunUntilFailure(w, [Connect] + later).0 == RunUntilFailure(w, [Connect] + later).0;
    assert SetupSoFar(w, h, h, run, [], [Connect] + later);
    var o;
    o, h' := Call(w, h, Connect);
    SetupAdvance(w, h, h, h', run, [], Connect, later);
    if o.Fail? {
      return Threw(o.message), h';
    }
    ghost var made := [Connect];
    ReplayRemote(w, h.disk, [Connect]);
    if !h'.disk.Exists(StagingDir) {
      assert later == [MakeDir(StagingDir)] + greet;
      ghost var before := h';
      o, h' := Call(w, h', MakeDir(StagingDir));
      SetupAdvance(w, h, before, h', run, made, MakeDir(StagingDir), greet);
      if o.Fail? {
        return Threw(o.message), h';
      }
      made := made + [MakeDir(StagingDir)];
    } else {
      assert later == greet;
    }
    assert greet == [SendMessage(Me, HelloText)] + [AddEventHandler];
    ghost var before := h';
    o, h' := Call(w, h', SendMessage(Me, HelloText));
    SetupAdvance(w, h, before, h', run, made, SendMessage(Me, HelloText), [AddEventHandler]);
    if o.Fail? {
      return Threw(o.message), h';
    }
    made := made + [SendMessage(Me, HelloText)];
    assert [AddEventHandler] == [AddEventHandler] + [];
    before := h';
    o, h' := Call(w, h', AddEventHandler);
    SetupAdvance(w, h, before, h', run, made, AddEventHandler, []);
    if o.Fail? {
      return Threw(o.message), h';
    }
    assert (made + [AddEventHandler]) + RunUntilFailure(w, []).0 == made + [AddEventHandler];
    c := Normal(());
  }

  /**
   * Startup has made the calls `made` from `h` and reached `h'`; the run of
   * the setup steps is `made` followed by the run of the `pending` ones.
   */
  ghost predicate SetupSoFar(w: World, h: Host, h': Host, run: (seq<Effect>, Option<string>), made: seq<Effect>, pending: seq<Effect>)
  {
    h'.trace == h.trace + made && h'.disk == Replay(w, h.disk, made) &&
    run == (made + RunUntilFailure(w, pending).0, RunUntilFailure(w, pending).1)
  }

  /**
   * One awaited startup call `e`: if it fails, the run stops there with its
   * message; if it succeeds, the run goes on with `rest`.
   */
  lemma SetupAdvance(w: World, h: Host, h0: Host, h': Host, run: (seq<Effect>, Option<string>), made: seq<Effect>, e: Effect, rest: seq<Effect>)
    requires SetupSoFar(w, h, h0, run, made, [e] + rest)
    requires h'.trace == h0.trace + [e] && h'.disk == Replay(w, h0.disk, [e])
    ensures w.answer(e).Fail? ==>
      run == (made + [e], Some(w.answer(e).message)) &&
      h'.trace == h.trace + run.0 && h'.disk == Replay(w, h.disk, run.0)
    ensures w.answer(e).Ok? ==> SetupSoFar(w, h, h', run, made + [e], rest)
  {
    RunUntilFailureCons(w, e, rest);
    assert made + ([e] + RunUntilFailure(w, rest).0) == (made + [e]) + RunUntilFailure(w, rest).0;
    assert (h.trace + made) + [e] == h.trace + (made + [e]);
    ReplayAppend(w, h.disk, made, [e]);
  }

  /**
   * main: runs the startup sequence; a failure in any step is reported once
   * as a GeneralError and the remaining steps are not attempted.
   */
  method Startup(w: World, h: Host) returns (h': Host)
    ensures h'.trace == h.trace + StartupEffects(w, h.disk)
    ensures h'.disk == Replay(w, h.disk, StartupEffects(w, h.disk))
  {
    var c;
    c, h' := StartupBody(w, h);
    if c.Threw? {
      var report := Report(GeneralError(MainFailureText + c.message));
      h' := SendErrorMessage(w, h', GeneralError(MainFailureText + c.message));
      ReplayAppend(w, h.disk, RunUntilFailure(w, SetupSteps(h.disk)).0, [report]);
      ReplayRemote(w, h'.disk, [report]);
    }
  }
}
