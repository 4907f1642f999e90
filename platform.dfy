/**
 * The boundary the relay talks to: the Telegram client and the local
 * filesystem. Every call the relay makes is recorded as an `Effect` in the
 * host's trace; whether the call succeeds is decided by a `World`, an oracle
 * standing for the network and the operating system. A successful call that
 * touches local storage changes the host's `Disk` accordingly.
 */
module Platform {
  import opened Js

  /** The peer "me": the operator's own Saved Messages conversation. */
  const Me: string := "me"

  /** How an external call ended: it returned, or it threw an Error with a message. */
  datatype Outcome = Ok | Fail(message: string)

  /** How a JavaScript call completed: it returned a value, or it threw an Error with a message. */
  datatype Completion<T> = Normal(value: T) | Threw(message: string)

  /** The message `sendFile` returns; replies are anchored to it. */
  datatype SentMessage = SentMessage(peer: Parsed, file: string)

  datatype Effect =
    | Connect                                      // client.connect()
    | MakeDir(dir: string)                         // fs.mkdirSync(dir)
    | SendMessage(peer: string, text: string)      // client.sendMessage(peer, {message: text})
    | Download(photoId: int, outputFile: string)   // client.downloadMedia(media, {outputFile})
    | SendFile(chat: Parsed, file: string)         // client.sendFile(chat, {file})
    | Reply(to: SentMessage, text: string)         // message.reply({message: text})
    | Unlink(path: string)                         // fs.unlinkSync(path)
    | AddEventHandler                              // client.addEventHandler(handler, new NewMessage({}))

  /** Local storage: the directories and the files that exist. */
  datatype Disk = Disk(dirs: set<string>, files: set<string>)
  {
    /** `fs.existsSync(path)`. */
    predicate Exists(path: string)
    {
      path in dirs || path in files
    }
  }

  /** The oracle: the outcome each call would have. */
  datatype World = World(answer: Effect -> Outcome)

  /** The observable state: every call made so far, in order, and local storage. */
  datatype Host = Host(trace: seq<Effect>, disk: Disk)

  /** What a call changes on local storage when it succeeds. */
  function Perform(d: Disk, e: Effect): Disk
  {
    match e
    case MakeDir(dir) => d.(dirs := d.dirs + {dir})
    case Download(_, file) => d.(files := d.files + {file})
    case Unlink(path) => d.(files := d.files - {path})
    case _ => d
  }

  /** Local storage after the calls `es` are made, one after another, in `w`. */
  function Replay(w: World, d: Disk, es: seq<Effect>): Disk
    decreases |es|
  {
    if es == [] then d
    else Replay(w, if w.answer(es[0]).Ok? then Perform(d, es[0]) else d, es[1..])
  }

  lemma {:induction false} ReplayAppend(w: World, d: Disk, a: seq<Effect>, b: seq<Effect>)
    ensures Replay(w, d, a + b) == Replay(w, Replay(w, d, a), b)
    decreases |a|
  {
    if a != [] {
      assert (a + b)[1..] == a[1..] + b;
      ReplayAppend(w, if w.answer(a[0]).Ok? then Perform(d, a[0]) else d, a[1..], b);
    } else {
      assert a + b == b;
    }
  }

  /** Calls that never touch local storage leave it as it was. */
  lemma {:induction false} ReplayRemote(w: World, d: Disk, es: seq<Effect>)
    requires forall i :: 0 <= i < |es| ==> es[i].SendMessage? || es[i].SendFile? || es[i].Reply? || es[i].Connect? || es[i].AddEventHandler?
    ensures Replay(w, d, es) == d
    decreases |es|
  {
    if es != [] {
      ReplayRemote(w, d, es[1..]);
    }
  }

  /** Makes one call: records it and applies its effect on local storage if it succeeds. */
  method Call(w: World, h: Host, e: Effect) returns (o: Outcome, h': Host)
    ensures o == w.answer(e)
    ensures h'.trace == h.trace + [e]
    ensures h'.disk == Replay(w, h.disk, [e])
  {
    o := w.answer(e);
    h' := Host(h.trace + [e], if o.Ok? then Perform(h.disk, e) else h.disk);
  }
}
