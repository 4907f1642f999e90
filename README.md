# Photo relay bot, modelled in Dafny

A Telegram user-account client that watches one group for photos posted by a
lookup bot, relays each photo to the operator's own group and sends the reply
`/search` under it, so that a second bot there picks it up. Every failure is
classified (DownloadError, UploadError, FileDeleteError, GeneralError) and
reported as a two-line notice to the operator's Saved Messages ("me").

The model covers `src/index.ts` (the event filter, the staged path, the three
transfer helpers, the handler and the startup sequence) and `src/errors.ts`
(the error classes and the reporter).

How it is modelled:

- `Platform`: every call to the Telegram client or the filesystem is an
  `Effect`. A `Host` holds the trace of calls made so far and the local
  `Disk`. A `World` is an oracle that says whether each call succeeds or throws
  with a message. It stands for the network and the operating system. `Replay`
  gives the disk after a sequence of calls: a successful download adds the
  file, a successful unlink removes it, a successful mkdir adds the directory.
- `Js`: the JavaScript semantics the filter depends on. This covers `===`
  between numbers, `NaN` and `undefined`, `toJSNumber` on an optional id, and
  the decimal `toString` of the client library's big-integer ids.
- `Events`: the event shape, `isValidEvent`, the photo check, the staged path
  and the fixed texts.
- `Errors`: the four error classes, the notice text and `sendErrorMessage`.
  `ParseReport` reads a notice back, so the lemmas can say which errors the
  notices sent to "me" report (`Reports`). A notice counts once it is sent,
  whether or not the send succeeds.
- `RelayDesign`: an independent reference for the behaviour. It holds the
  per-event state machine Received → Validated → Downloaded → Uploaded →
  Triggered → Cleaned, with Aborted on failure. It also holds the startup
  steps, run in order until the first failure. There is one lemma per path,
  giving the exact calls, the errors reported and what is left on disk.
- `Relay`: the code's own functions, step by step, with its try/catch
  structure. Each method takes the host and returns the new host. `Handler`
  and `Startup` are proved to make exactly the calls the reference lists.

The staged file is unlinked only after the upload and the `/search` reply have
both succeeded. When either throws, the handler's catch reports and returns,
and the file stays in `./downloads`. `RelayDesign.UploadFails` and
`RelayDesign.ReplyFails` state this.

## Model

| member | source | states |
|---|---|---|
| Js.ToJsNumber | src/index.ts:57 | an absent id reads as `undefined`; a present one as the number with its value |
| Js.BigIntToString | src/index.ts:114 | an id renders as a non-empty string that starts with '-' exactly when the id is negative, followed by decimal digits only; `Js.BigIntToStringRoundTrip` shows nothing is lost |
| Js.BigIntToStringRoundTrip | src/index.ts:114 | the decimal rendering of a photo id can be read back to the same id, negative ids included |
| Events.IsValidEvent | src/index.ts:56-65 | an event is accepted exactly when its chat id is present and strictly equal to the target group id, and its sender is a PeerUser whose user id is present and strictly equal to the bot's id; a NaN setting or an absent field accepts nothing |
| Events.PhotoToRelay | src/index.ts:112-113 | a photo id is relayed exactly when the media is a MessageMediaPhoto that carries a photo, and it is that photo's id |
| Events.PhotoPath | src/index.ts:114 | the staged path starts with `./downloads/photo_`, ends with `.jpg` and has the id's rendering in between; `Events.PhotoPathRoundTrip` gives the id back |
| Events.PhotoPathRoundTrip | src/index.ts:114 | the staged path `./downloads/photo_<id>.jpg` determines the photo id it was built from |
| Events.PhotoPathInjective | src/index.ts:114 | two photos share a staged path exactly when their ids are equal |
| Errors.ClassifiedError.Name | src/errors.ts:3-29 | each error class names itself with a non-empty identifier |
| Errors.ErrorNamed | src/errors.ts:3-29 | a name gives an error exactly when it is one of the four class names, and that error has exactly this name and message |
| Errors.ErrorNamedInverse | src/errors.ts:3-29 | every error is given back by its class name and its message |
| Errors.ReportTextLayout | src/errors.ts:32 | the notice `ReportText` builds is `Error: `, the class name, `\nMessage: ` and the message, with no newline before the message label; `Errors.ReportRoundTrip` shows it reads back as its error |
| Errors.ReportRoundTrip | src/errors.ts:31-32 | the notice `Error: <name>\nMessage: <message>` reads back as exactly the error it reports, so the kind and message are never lost or confused |
| Errors.ReportsOfReport | src/errors.ts:31-34 | reporting an error sends one notice to "me", which reads back as exactly that error |
| Errors.SendErrorMessage | src/errors.ts:31-38 | exactly one send of the notice to "me"; a failed send is swallowed, nothing else is called and storage is unchanged |
| Relay.DownloadMedia | src/index.ts:67-78 | on success one download and no report; on failure the download, one DownloadError carrying the failure's message, and a rethrow of that message; the file is staged exactly when the download succeeds |
| Relay.UploadFile | src/index.ts:80-92 | on success one send of the file to the own group, returning that message; on failure one UploadError report and a rethrow; storage unchanged |
| Relay.DeleteLocalFile | src/index.ts:94-106 | one unlink; a failure adds exactly one FileDeleteError report and never throws; the file is removed exactly when the unlink succeeds |
| Relay.HandlerBody | src/index.ts:109-120 | the body throws only on a run the reference ends Aborted, and with the catch's GeneralError report added it makes exactly the reference's calls, leaving the reference's disk |
| Relay.Handler | src/index.ts:108-128 | one handler invocation makes exactly the calls of the reference state machine and leaves storage as they leave it |
| Relay.StartupBody | src/index.ts:131-146 | connect, create `./downloads` only when it does not exist, greet "me", register the handler, stopping at the first failure with its message |
| Relay.Startup | src/index.ts:130-154 | main makes exactly the reference startup calls: the steps up to the first failure, then one GeneralError report for it |
| RelayDesign.Run | src/index.ts:108-128 | every event's run ends Cleaned or Aborted |
| RelayDesign.RejectedEventIsSilent | src/index.ts:110-113 | an event from another chat or sender, or one without a photo, makes no call and sends no notice |
| RelayDesign.DownloadFails | src/index.ts:116-126 | a failed download sends a DownloadError notice and then a GeneralError notice, both carrying its message; nothing is uploaded or deleted and storage is unchanged |
| RelayDesign.UploadFails | src/index.ts:117-126 | a failed upload sends an UploadError notice and then a GeneralError notice; no reply or deletion follows and the staged file stays |
| RelayDesign.ReplyFails | src/index.ts:118-126 | a failed `/search` reply sends one GeneralError notice; no deletion follows and the staged file stays |
| RelayDesign.DeleteFails | src/index.ts:94-106 | a failed deletion after a completed relay sends one FileDeleteError notice and no GeneralError notice; the relay still ends Cleaned |
| RelayDesign.RelaySucceeds | src/index.ts:113-119 | a healthy relay downloads, uploads, replies `/search` and deletes, in that order, sends no notice, and leaves the staged file absent |
| RelayDesign.CleanedIffTriggered | src/index.ts:116-119 | a relay ends Cleaned exactly when download, upload and reply all succeed; then the staged file is deleted exactly once, and an aborted relay never deletes it |
| RelayDesign.RunUntilFailureStops | src/index.ts:131-147 | the startup calls made are a prefix of the steps, all but the last succeeded, the run is complete exactly when every step succeeds, and a stopped run ends with the failing step and its message |
| RelayDesign.StartupSucceeds | src/index.ts:131-146 | with every step succeeding, startup connects first, registers the handler last, sends no notice and leaves `./downloads` present |
| RelayDesign.StartupFails | src/index.ts:147-152 | a failing step stops startup: no later step is attempted and exactly one GeneralError notice carrying the failure's message is sent to "me" |
| RelayDesign.StartupStorage | src/index.ts:135-137 | startup adds `./downloads` exactly when it was absent and connecting and creating it both succeed, and changes nothing else on disk |
| RelayDesign.StagingDirIdempotent | src/index.ts:135-137 | once startup has created `./downloads`, a later startup does not create it again |

## Left out

- Loading `.env`, `validateEnv` and the parsing of the settings are not modelled. `Config` holds the values `Number.parseInt` produced. Each is a number or NaN, never `undefined`, because `validateEnv` rejects an unset variable before they are read.
- Building the `TelegramClient`, the string session and the connection retries are not modelled. Every client and filesystem call is decided by the `World` oracle instead.
- The SIGINT shutdown hook and all console logging are not modelled: they only disconnect, exit and print.
- Asynchrony is not modelled. Each awaited call completes before the next one starts, and concurrent handler invocations are not modelled; each invocation is proved on its own.
- Relay.DeleteLocalFile: the notice sent from `deleteLocalFile` is not awaited in the code. The model places it right after the failed unlink; its actual position relative to the following calls is not modelled.
- Js.ToJsNumber: `toJSNumber` loses precision above 2^53, which the model does not capture; ids are compared exactly.
- Thrown values that are not `Error` instances are not modelled. Every failure in the model carries a message. For such a value, `downloadMedia` and `uploadFile` rethrow it without a report. `deleteLocalFile`, the handler and `main` swallow it without a report.
- The `World` answers each distinct call the same way every time it is asked. Two identical calls within one run, which this code never makes, could not have different outcomes.
- A failed download is assumed to leave nothing at the output path, so `RelayDesign.DownloadFails` finds storage unchanged. A client that fails part-way through writing the file could leave a partial file, which nothing would remove. The model does not capture that.
- Whether a notice reaches "me" is not stated. `Reports` counts every notice sent; the `World` decides whether the send succeeds, and a failed send is swallowed.
- Whether an unlink succeeds is decided by the `World`, not by whether the file exists on the model's disk.
- `client.addEventHandler` is treated like every other call: the `World` may make it throw, and the throw goes to main's catch. The handler being invoked later for incoming events is modelled by `Relay.Handler` on its own.
