/**
 * The session router of the webhook handler: a table from user id to chat
 * session handle, the reset command, the topic gate and the replies.
 *
 * `RouterState` is the abstract state, `Step` and `Run` say what handling one
 * event and a batch of events do to it, and `SessionRouter` is the handler
 * itself, whose methods change its fields in place and are proved to follow
 * `Step` and `Run`.
 */
module Router {
  import opened Text
  import opened Sticker
  import opened Events

  const Greeting: string := "很高興初次見到你，請問有什麼想了解的嗎？"
  const Refusal: string := "不好意思，我只會回答 Mazda 車輛相關的問題"
  const ImageFailurePrefix: string := "無法辨識圖片內容，請重新輸入:"

  /** An opaque chat session of the AI backend; handles are numbered in creation order. */
  datatype Handle = Handle(id: nat)

  /** One call of the backend: the session used and the text sent. */
  datatype SendCall = SendCall(handle: Handle, text: string)

  /** One reply message, addressed by the reply token of the event it answers. */
  datatype Reply = Reply(replyToken: string, text: string)

  /** What the image-description backend made of an image message. */
  datatype Described = Described(text: string) | DescribeFailed(error: string)

  /**
   * The AI backend as the router sees it: `answer(h, text)` is the text
   * extracted from the backend's response to `text` sent on session `h`, and
   * `describe(id)` is the outcome of describing the image of message `id`.
   */
  datatype Backend = Backend(answer: (Handle, string) -> string, describe: string -> Described)

  /** Why the webhook request could not be turned into a batch of events. */
  datatype ParseError = InvalidSignature | MalformedRequest

  datatype Request = Parsed(events: seq<Event>) | ParseFailed(error: ParseError)

  /**
   * The session table, the number of sessions created so far, every reply
   * sent and every backend call made, in order.
   */
  datatype RouterState = RouterState(
    sessions: map<string, Handle>,
    nextHandle: nat,
    replies: seq<Reply>,
    sends: seq<SendCall>)

  /** Every handle in the table has been created already, so a new one differs from all of them. */
  ghost predicate HandlesIssued(s: RouterState) {
    forall u | u in s.sessions :: s.sessions[u].id < s.nextHandle
  }

  /** The handle `h` is held by no user in the table. */
  ghost predicate Unused(sessions: map<string, Handle>, h: Handle) {
    forall v | v in sessions :: sessions[v] != h
  }

  /** No two users share a handle. */
  ghost predicate Injective(sessions: map<string, Handle>) {
    forall v, w | v in sessions && w in sessions && v != w :: sessions[v] != sessions[w]
  }

  /** The entries of every user other than `u` are the same in both tables. */
  ghost predicate SameExceptFor(before: map<string, Handle>, after: map<string, Handle>, u: string) {
    forall v | v != u :: (v in before <==> v in after) && (v in before ==> before[v] == after[v])
  }

  function WithReply(s: RouterState, token: string, text: string): RouterState {
    s.(replies := s.replies + [Reply(token, text)])
  }

  /** Looks the user up and creates and stores a session when there is none. */
  function GetOrCreate(s: RouterState, u: string): (r: (RouterState, Handle))
    ensures u in r.0.sessions && r.0.sessions[u] == r.1
    ensures u in s.sessions ==> r.0 == s && r.1 == s.sessions[u]
    ensures u !in s.sessions ==>
              && r.1 == Handle(s.nextHandle)
              && r.0 == s.(sessions := s.sessions[u := r.1], nextHandle := s.nextHandle + 1)
  {
    if u in s.sessions then (s, s.sessions[u])
    else
      var h := Handle(s.nextHandle);
      (s.(sessions := s.sessions[u := h], nextHandle := s.nextHandle + 1), h)
  }

  /** A text message from user `u`: session lookup, then the reset command, then the topic gate. */
  function HandleText(s: RouterState, token: string, u: string, text: string, b: Backend): (r: RouterState)
    ensures HandlesIssued(s) ==> HandlesIssued(r)
    ensures r.nextHandle >= s.nextHandle
    // the user always has an entry afterwards, and nobody else's entry moves
    ensures u in r.sessions && r.sessions.Keys == s.sessions.Keys + {u}
    ensures SameExceptFor(s.sessions, r.sessions, u)
    // exactly one reply, to this event
    ensures |r.replies| == |s.replies| + 1 && r.replies[..|s.replies|] == s.replies
    ensures r.replies[|s.replies|].replyToken == token
    // reset: a fresh session (two creations for a new user), the greeting, no backend call
    ensures text == ResetCommand ==>
              && r.nextHandle == s.nextHandle + (if u in s.sessions then 1 else 2)
              && r.sessions[u] == Handle(r.nextHandle - 1)
              && (HandlesIssued(s) ==> Unused(s.sessions, r.sessions[u]))
              && r.replies[|s.replies|].text == Greeting
              && r.sends == s.sends
    // any other text: the table is only ever extended by this user's first session
    ensures text != ResetCommand && u in s.sessions ==>
              r.sessions == s.sessions && r.nextHandle == s.nextHandle
    ensures text != ResetCommand && u !in s.sessions ==>
              && |r.sessions| == |s.sessions| + 1
              && r.nextHandle == s.nextHandle + 1
              && (HandlesIssued(s) ==> Unused(s.sessions, r.sessions[u]))
    // the topic gate decides whether the backend is called, with the user's current session
    ensures text != ResetCommand ==>
              (IsMazdaRelated(text) <==> |r.sends| == |s.sends| + 1)
    ensures text != ResetCommand && IsMazdaRelated(text) ==>
              && r.sends == s.sends + [SendCall(r.sessions[u], text)]
              && r.replies[|s.replies|].text == b.answer(r.sessions[u], text)
    ensures text != ResetCommand && !IsMazdaRelated(text) ==>
              r.sends == s.sends && r.replies[|s.replies|].text == Refusal
  {
    var (s1, cs) := GetOrCreate(s, u);
    if text == ResetCommand then
      var h := Handle(s1.nextHandle);
      WithReply(s1.(sessions := s1.sessions[u := h], nextHandle := s1.nextHandle + 1), token, Greeting)
    else if IsMazdaRelated(text) then
      WithReply(s1.(sends := s1.sends + [SendCall(cs, text)]), token, b.answer(cs, text))
    else
      WithReply(s1, token, Refusal)
  }

  /** The reply to an image message: the description, or a fixed prefix followed by the error. */
  function ImageReply(d: Described): (r: string)
    ensures d.DescribeFailed? ==>
              |r| == |ImageFailurePrefix| + |d.error| &&
              r[..|ImageFailurePrefix|] == ImageFailurePrefix && r[|ImageFailurePrefix|..] == d.error
    ensures d.Described? ==> r == d.text
  {
    match d
    case Described(text) => text
    case DescribeFailed(error) => ImageFailurePrefix + error
  }

  /** What handling one event does to the state. */
  function Step(s: RouterState, e: Event, b: Backend): (r: RouterState)
    ensures HandlesIssued(s) ==> HandlesIssued(r)
    ensures r.nextHandle >= s.nextHandle
    ensures !EmitsReply(e) ==> r == s
    ensures EmitsReply(e) ==>
              && |r.replies| == |s.replies| + 1
              && r.replies[..|s.replies|] == s.replies
              && r.replies[|s.replies|].replyToken == e.replyToken
    ensures !IsTextEvent(e) ==>
              r.sessions == s.sessions && r.nextHandle == s.nextHandle && r.sends == s.sends
    ensures IsForwarded(e) <==> |r.sends| == |s.sends| + 1
    ensures !IsForwarded(e) ==> r.sends == s.sends
  {
    match e
    case MessageEvent(token, source, message) =>
      (match message
       case TextMessage(text) => HandleText(s, token, UserIdOf(source), text, b)
       case StickerMessage(stickerId, packageId, keywords, text) =>
         WithReply(s, token, StickerReply(stickerId, packageId, Commas(keywords), text))
       case ImageMessage(id) => WithReply(s, token, ImageReply(b.describe(id)))
       case VideoMessage(_) => s
       case OtherMessage => s)
    case FollowEvent => s
    case PostbackEvent(_) => s
    case BeaconEvent(_) => s
    case OtherEvent => s
  }

  /** Handling a text message never gives two users the same handle. */
  lemma HandleTextInjective(s: RouterState, token: string, u: string, text: string, b: Backend)
    requires HandlesIssued(s) && Injective(s.sessions)
    ensures Injective(HandleText(s, token, u, text, b).sessions)
  {
    var r := HandleText(s, token, u, text, b);
    if r.sessions != s.sessions {
      // the user's handle is fresh, and every other entry is as it was
      assert Unused(s.sessions, r.sessions[u]);
      forall v, w | v in r.sessions && w in r.sessions && v != w
        ensures r.sessions[v] != r.sessions[w]
      {
        if v != u && w != u {
          assert r.sessions[v] == s.sessions[v] && r.sessions[w] == s.sessions[w];
        }
      }
    }
  }

  /** Handling any event never gives two users the same handle. */
  lemma StepInjective(s: RouterState, e: Event, b: Backend)
    requires HandlesIssued(s) && Injective(s.sessions)
    ensures Injective(Step(s, e, b).sessions)
  {
    if IsTextEvent(e) {
      HandleTextInjective(s, e.replyToken, UserIdOf(e.source), e.message.text, b);
    }
  }

  /** What handling a batch of events, first to last, does to the state. */
  function Run(s: RouterState, events: seq<Event>, b: Backend): (r: RouterState)
    ensures r.nextHandle >= s.nextHandle
    decreases |events|
  {
    if events == [] then s
    else Step(Run(s, events[..|events| - 1], b), events[|events| - 1], b)
  }

  /** The HTTP status of a webhook delivery: 400 for a bad signature, 500 for any other parse error. */
  function StatusOf(request: Request): (code: int)
    ensures code == 200 <==> request.Parsed?
    ensures code == 400 <==> request == ParseFailed(InvalidSignature)
    ensures code == 500 <==> request == ParseFailed(MalformedRequest)
  {
    match request
    case Parsed(_) => 200
    case ParseFailed(InvalidSignature) => 400
    case ParseFailed(MalformedRequest) => 500
  }

  /** The webhook handler and its process-wide session table. */
  class SessionRouter {
    var sessions: map<string, Handle>
    var nextHandle: nat
    var replies: seq<Reply>
    var sends: seq<SendCall>

    function State(): RouterState
      reads this
    {
      RouterState(sessions, nextHandle, replies, sends)
    }

    ghost predicate Valid()
      reads this
    {
      HandlesIssued(State()) && Injective(sessions)
    }

    /** The table starts empty, before any session, reply or backend call. */
    constructor ()
      ensures Valid()
      ensures State() == RouterState(map[], 0, [], [])
    {
      sessions := map[];
      nextHandle := 0;
      replies := [];
      sends := [];
    }

    /** Opens a new backend session; each call yields a handle never seen before. */
    method StartNewChatSession() returns (h: Handle)
      modifies this
      ensures h == Handle(old(nextHandle)) && nextHandle == old(nextHandle) + 1
      ensures sessions == old(sessions) && replies == old(replies) && sends == old(sends)
    {
      h := Handle(nextHandle);
      nextHandle := nextHandle + 1;
    }

    /** Sends `text` on session `h` and returns the text of the backend's response. */
    method Send(h: Handle, text: string, b: Backend) returns (answer: string)
      modifies this
      ensures answer == b.answer(h, text)
      ensures sends == old(sends) + [SendCall(h, text)]
      ensures sessions == old(sessions) && nextHandle == old(nextHandle) && replies == old(replies)
    {
      sends := sends + [SendCall(h, text)];
      answer := b.answer(h, text);
    }

    /** Replies to the event with reply token `token`; a failed delivery is only logged. */
    method ReplyText(token: string, text: string)
      modifies this
      ensures replies == old(replies) + [Reply(token, text)]
      ensures sessions == old(sessions) && nextHandle == old(nextHandle) && sends == old(sends)
    {
      replies := replies + [Reply(token, text)];
    }

    /**
     * A text message from user `uID`: look the session up (creating it when
     * missing), then handle the reset command, then apply the topic gate.
     */
    method HandleTextMessage(token: string, uID: string, req: string, b: Backend)
      modifies this
      ensures State() == HandleText(old(State()), token, uID, req, b)
    {
      var cs: Handle;
      if uID in sessions {
        cs := sessions[uID];
      } else {
        cs := StartNewChatSession();
        sessions := sessions[uID := cs];
      }
      if req == ResetCommand {
        cs := StartNewChatSession();
        sessions := sessions[uID := cs];
        ReplyText(token, Greeting);
        return;
      }
      if IsMazdaRelated(req) {
        var ret := Send(cs, req, b);
        ReplyText(token, ret);
      } else {
        ReplyText(token, Refusal);
      }
    }

    /** Handles one event of a batch. */
    method HandleEvent(e: Event, b: Backend)
      requires Valid()
      modifies this
      ensures Valid()
      ensures State() == Step(old(State()), e, b)
    {
      StepInjective(State(), e, b);
      match e
      case MessageEvent(token, source, message) =>
        match message {
        case TextMessage(req) =>
          HandleTextMessage(token, UserIdOf(source), req, b);
        case StickerMessage(stickerId, packageId, keywords, text) =>
          var kw := KeywordString(keywords);
          ReplyText(token, StickerReply(stickerId, packageId, kw, text));
        case ImageMessage(id) =>
          ReplyText(token, ImageReply(b.describe(id)));
        case VideoMessage(_) =>
        case OtherMessage =>
        }
      case FollowEvent =>
      case PostbackEvent(_) =>
      case BeaconEvent(_) =>
      case OtherEvent =>
    }

    /**
     * Handles one webhook delivery: a request that does not parse is answered
     * with its error status and changes nothing; otherwise every event of the
     * batch is handled in order.
     */
    method CallbackHandler(request: Request, b: Backend) returns (status: int)
      requires Valid()
      modifies this
      ensures Valid()
      ensures status == StatusOf(request)
      ensures request.ParseFailed? ==> State() == old(State())
      ensures request.Parsed? ==> State() == Run(old(State()), request.events, b)
    {
      if request.ParseFailed? {
        status := if request.error == InvalidSignature then 400 else 500;
        return;
      }
      status := 200;
      var events := request.events;
      var i := 0;
      while i < |events|
        invariant 0 <= i <= |events|
        invariant Valid()
        invariant State() == Run(old(State()), events[..i], b)
      {
        assert events[..i + 1][..i] == events[..i];
        HandleEvent(events[i], b);
        i := i + 1;
      }
      assert events[..i] == events;
    }
  }
}
