/**
 * The pure parts of src/index.ts: the shape of an inbound event, the
 * validator that accepts only messages posted in the target chat by the
 * lookup bot, the photo check, the staged file path, and the fixed texts.
 */
module Events {
  import opened Wrappers
  import opened Js

  /** `message.fromId`: who sent a message. */
  datatype Peer = PeerUser(userId: Option<int>) | PeerChat(chatId: int) | PeerChannel(channelId: int)

  /** A Photo or a PhotoEmpty: both carry the id the path is built from. */
  datatype Photo = Photo(id: int)

  /** `message.media`: only a MessageMediaPhoto matters here. */
  datatype Media = MessageMediaPhoto(photo: Option<Photo>) | OtherMedia(className: string)

  datatype Message = Message(fromId: Option<Peer>, media: Option<Media>)

  /** A NewMessage event as the handler receives it. */
  datatype NewMessageEvent = NewMessageEvent(chatId: Option<int>, message: Message)

  /** The numeric settings, as `Number.parseInt` produced them from the environment. */
  datatype Config = Config(groupIdTarget: Parsed, botUserId: Parsed, myGroupId: Parsed)

  const StagingDir: string := "./downloads"
  const PhotoPrefix: string := "./downloads/photo_"
  const PhotoSuffix: string := ".jpg"
  const SearchCommand: string := "/search"
  const HelloText: string := "Hello myself!"
  const DownloadFailureText: string := "Error downloading media: "
  const UploadFailureText: string := "Error uploading media: "
  const DeleteFailureText: string := "Error deleting local file: "
  const HandlerFailureText: string := "Error in handler: "
  const MainFailureText: string := "Error in main setup: "

  /**
   * isValidEvent: the chat id strictly equals the target group id, the sender
   * is a PeerUser, and its user id strictly equals the bot's id. An absent
   * field reads as `undefined`, which equals neither configured number, and a
   * NaN setting matches nothing.
   */
  function IsValidEvent(cfg: Config, event: NewMessageEvent): (valid: bool)
    ensures valid <==>
      event.chatId.Some? && cfg.groupIdTarget == Num(event.chatId.value) &&
      event.message.fromId.Some? && event.message.fromId.value.PeerUser? &&
      event.message.fromId.value.userId.Some? &&
      cfg.botUserId == Num(event.message.fromId.value.userId.value)
  {
    var chatId := ToJsNumber(event.chatId);
    var fromId := event.message.fromId;
    StrictEquals(chatId, cfg.groupIdTarget) &&
    fromId.Some? && fromId.value.PeerUser? &&
    StrictEquals(ToJsNumber(fromId.value.userId), cfg.botUserId)
  }

  /** `media?.className === "MessageMediaPhoto" && media.photo`: the id of the photo to relay, if any. */
  function PhotoToRelay(media: Option<Media>): (id: Option<int>)
    ensures id.Some? <==> media.Some? && media.value.MessageMediaPhoto? && media.value.photo.Some?
    ensures id.Some? ==> id.value == media.value.photo.value.id
  {
    match media
    case Some(MessageMediaPhoto(Some(photo))) => Some(photo.id)
    case _ => None
  }

  /** The staged file of a photo: `./downloads/photo_<id>.jpg`, with the id written by its `toString()`. */
  function PhotoPath(id: int): (path: string)
    ensures |path| > |PhotoPrefix| + |PhotoSuffix|
    ensures path[..|PhotoPrefix|] == PhotoPrefix && path[|path| - |PhotoSuffix|..] == PhotoSuffix
  {
    PhotoPrefix + BigIntToString(id) + PhotoSuffix
  }

  /** Which photo a staged path belongs to; None for a path no photo is staged at. */
  function PhotoIdOfPath(path: string): (id: Option<int>)
  {
    if |path| < |PhotoPrefix| + |PhotoSuffix| then None
    else if path[..|PhotoPrefix|] != PhotoPrefix || path[|path| - |PhotoSuffix|..] != PhotoSuffix then None
    else DecimalToInt(path[|PhotoPrefix|..|path| - |PhotoSuffix|])
  }

  /** The staged path determines the photo it was built for. */
  lemma PhotoPathRoundTrip(id: int)
    ensures PhotoIdOfPath(PhotoPath(id)) == Some(id)
  {
    var path := PhotoPath(id);
    assert path[|PhotoPrefix|..|path| - |PhotoSuffix|] == BigIntToString(id);
    BigIntToStringRoundTrip(id);
  }

  /** Two photos share a staged path exactly when they have the same id. */
  lemma PhotoPathInjective(a: int, b: int)
    ensures PhotoPath(a) == PhotoPath(b) <==> a == b
  {
    PhotoPathRoundTrip(a);
    PhotoPathRoundTrip(b);
  }
}
