/**
 * The webhook events the handler receives, as closed variant types, and the
 * facts about an event that do not depend on the router's state.
 */
module Events {
  import opened Text

  /** Where a message came from. Every kind other than the three named ones is `OtherSource`. */
  datatype Source =
    | UserSource(userId: string)
    | GroupSource(groupId: string, userId: string)
    | RoomSource(roomId: string, userId: string)
    | OtherSource

  /** The content of a message event. */
  datatype Message =
    | TextMessage(text: string)
    | StickerMessage(stickerId: string, packageId: string, keywords: seq<string>, text: string)
    | ImageMessage(id: string)
    | VideoMessage(id: string)
    | OtherMessage

  datatype Event =
    | MessageEvent(replyToken: string, source: Source, message: Message)
    | FollowEvent
    | PostbackEvent(data: string)
    | BeaconEvent(hwid: string)
    | OtherEvent

  /** The exact text that restarts a conversation (case-sensitive, not trimmed). */
  const ResetCommand: string := "reset"

  /**
   * The user a text message is filed under: the user id of a user, group or
   * room source, and the empty string for any other source.
   */
  function UserIdOf(source: Source): (u: string)
    ensures source.OtherSource? ==> u == ""
    ensures !source.OtherSource? ==> u == source.userId
  {
    match source
    case UserSource(id) => id
    case GroupSource(_, id) => id
    case RoomSource(_, id) => id
    case OtherSource => ""
  }

  predicate IsTextEvent(e: Event) {
    e.MessageEvent? && e.message.TextMessage?
  }

  /** Text, sticker and image messages are answered; every other event is only logged. */
  predicate EmitsReply(e: Event) {
    e.MessageEvent? && (e.message.TextMessage? || e.message.StickerMessage? || e.message.ImageMessage?)
  }

  /** A text message that is not the reset command and passes the topic gate goes to the backend. */
  predicate IsForwarded(e: Event) {
    IsTextEvent(e) && e.message.text != ResetCommand && IsMazdaRelated(e.message.text)
  }

  /** The reply tokens of the answered events of a batch, in batch order. */
  function ReplyTokens(events: seq<Event>): seq<string>
    decreases |events|
  {
    if events == [] then []
    else
      var last := events[|events| - 1];
      ReplyTokens(events[..|events| - 1]) + (if EmitsReply(last) then [last.replyToken] else [])
  }

  /** The texts of the forwarded messages of a batch, in batch order. */
  function ForwardedTexts(events: seq<Event>): seq<string>
    decreases |events|
  {
    if events == [] then []
    else
      var last := events[|events| - 1];
      ForwardedTexts(events[..|events| - 1]) + (if IsForwarded(last) then [last.message.text] else [])
  }

  /** The users that send a text message somewhere in the batch. */
  function TextUsers(events: seq<Event>): set<string>
    decreases |events|
  {
    if events == [] then {}
    else
      var last := events[|events| - 1];
      TextUsers(events[..|events| - 1]) + (if IsTextEvent(last) then {UserIdOf(last.source)} else {})
  }

  /** A batch yields at most one reply per event. */
  lemma {:induction false} ReplyTokensBound(events: seq<Event>)
    ensures |ReplyTokens(events)| <= |events|
    ensures |ForwardedTexts(events)| <= |ReplyTokens(events)|
  {
    if events != [] {
      ReplyTokensBound(events[..|events| - 1]);
    }
  }
}
