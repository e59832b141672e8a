/**
 * Properties of the router over whole batches of events and over several
 * messages in a row, plus worked examples.
 */
module RouterProps {
  import opened Text
  import opened Sticker
  import opened Events
  import opened Router

  /**
   * Handling a batch never hands out a handle twice: the counter never goes
   * back, every handle in the table stays below it, and no two users share one.
   */
  lemma {:induction false} RunPreservesIssued(s: RouterState, events: seq<Event>, b: Backend)
    requires HandlesIssued(s) && Injective(s.sessions)
    ensures Run(s, events, b).nextHandle >= s.nextHandle
    ensures HandlesIssued(Run(s, events, b))
    ensures Injective(Run(s, events, b).sessions)
  {
    if events != [] {
      RunPreservesIssued(s, events[..|events| - 1], b);
      StepInjective(Run(s, events[..|events| - 1], b), events[|events| - 1], b);
    }
  }

  /**
   * Proof step of RunAppend: one unfolding of `Run` on a non-empty batch,
   * stated as a lemma so that RunAppend can apply it at two different states.
   */
  lemma RunLast(s: RouterState, events: seq<Event>, b: Backend)
    requires events != []
    ensures Run(s, events, b) == Step(Run(s, events[..|events| - 1], b), events[|events| - 1], b)
  {
  }

  /**
   * Two deliveries one after the other leave the same state as one delivery
   * of both batches: the table persists between requests.
   */
  lemma {:induction false} RunAppend(s: RouterState, first: seq<Event>, second: seq<Event>, b: Backend)
    ensures Run(s, first + second, b) == Run(Run(s, first, b), second, b)
  {
    if second == [] {
      assert first + second == first;
    } else {
      var all := first + second;
      var init := second[..|second| - 1];
      var last := second[|second| - 1];
      assert all[..|all| - 1] == first + init;
      assert all[|all| - 1] == last;
      RunLast(s, all, b);
      RunLast(Run(s, first, b), second, b);
      RunAppend(s, first, init, b);
    }
  }

  /**
   * The replies of a batch are appended in batch order, one for each text,
   * sticker and image message and none for any other event.
   */
  lemma {:induction false} RunReplies(s: RouterState, events: seq<Event>, b: Backend)
    ensures var r := Run(s, events, b);
            && |r.replies| == |s.replies| + |ReplyTokens(events)|
            && r.replies[..|s.replies|] == s.replies
            && forall j | 0 <= j < |ReplyTokens(events)| ::
                 r.replies[|s.replies| + j].replyToken == ReplyTokens(events)[j]
  {
    if events != [] {
      var init := events[..|events| - 1];
      RunReplies(s, init, b);
      var m := Run(s, init, b);
      assert m.replies[..|s.replies|] == s.replies;
      var r := Step(m, events[|events| - 1], b);
      assert r.replies[..|m.replies|] == m.replies;
      assert r.replies[..|s.replies|] == m.replies[..|s.replies|];
    }
  }

  /** A batch yields at most one reply per event. */
  lemma AtMostOneReplyPerEvent(s: RouterState, events: seq<Event>, b: Backend)
    ensures |Run(s, events, b).replies| <= |s.replies| + |events|
  {
    RunReplies(s, events, b);
    ReplyTokensBound(events);
  }

  /** The backend is called once for every forwarded message of the batch and never otherwise. */
  lemma {:induction false} RunSends(s: RouterState, events: seq<Event>, b: Backend)
    ensures var r := Run(s, events, b);
            && |r.sends| == |s.sends| + |ForwardedTexts(events)|
            && r.sends[..|s.sends|] == s.sends
            && forall j | 0 <= j < |ForwardedTexts(events)| ::
                 r.sends[|s.sends| + j].text == ForwardedTexts(events)[j]
  {
    if events != [] {
      var init := events[..|events| - 1];
      RunSends(s, init, b);
      var m := Run(s, init, b);
      var r := Step(m, events[|events| - 1], b);
      if IsForwarded(events[|events| - 1]) {
        var e := events[|events| - 1];
        assert r == HandleText(m, e.replyToken, UserIdOf(e.source), e.message.text, b);
        assert r.sends == m.sends + [SendCall(r.sessions[UserIdOf(e.source)], e.message.text)];
        assert r.sends[..|m.sends|] == m.sends;
        assert r.sends[..|s.sends|] == m.sends[..|s.sends|];
      }
    }
  }

  /**
   * A batch adds exactly the senders of its text messages to the table, and
   * the entry of every user who sent no text message is left as it was.
   */
  lemma {:induction false} RunSessions(s: RouterState, events: seq<Event>, b: Backend)
    ensures var r := Run(s, events, b);
            && r.sessions.Keys == s.sessions.Keys + TextUsers(events)
            && forall v | v in s.sessions && v !in TextUsers(events) :: r.sessions[v] == s.sessions[v]
  {
    if events != [] {
      var init := events[..|events| - 1];
      RunSessions(s, init, b);
      var e := events[|events| - 1];
      if IsTextEvent(e) {
        var m := Run(s, init, b);
        var u := UserIdOf(e.source);
        var r := HandleText(m, e.replyToken, u, e.message.text, b);
        assert SameExceptFor(m.sessions, r.sessions, u);
      }
    }
  }

  /** A batch of events that are only logged changes nothing at all. */
  lemma {:induction false} SilentBatch(s: RouterState, events: seq<Event>, b: Backend)
    requires forall i | 0 <= i < |events| :: !EmitsReply(events[i])
    ensures Run(s, events, b) == s
  {
    if events != [] {
      SilentBatch(s, events[..|events| - 1], b);
    }
  }

  /** A sticker reply is exactly the filled template, and the table is not touched. */
  lemma StickerEventReply(s: RouterState, token: string, source: Source, stickerId: string,
                          packageId: string, keywords: seq<string>, text: string, b: Backend)
    ensures var r := Step(s, MessageEvent(token, source, StickerMessage(stickerId, packageId, keywords, text)), b);
            && r.replies == s.replies + [Reply(token, StickerReply(stickerId, packageId, Commas(keywords), text))]
            && r.sessions == s.sessions && r.nextHandle == s.nextHandle && r.sends == s.sends
  {
  }

  /** An image is answered with its description, or the failure text; the table is not touched. */
  lemma ImageEventReply(s: RouterState, token: string, source: Source, id: string, b: Backend)
    ensures var r := Step(s, MessageEvent(token, source, ImageMessage(id)), b);
            && r.replies == s.replies + [Reply(token, ImageReply(b.describe(id)))]
            && r.sessions == s.sessions && r.nextHandle == s.nextHandle && r.sends == s.sends
  {
  }

  function TextEvent(token: string, source: Source, text: string): Event {
    MessageEvent(token, source, TextMessage(text))
  }

  /**
   * Sending the reset command twice in a row greets twice, calls no backend,
   * and leaves a session that is new and differs from every earlier one.
   */
  lemma ResetTwice(s: RouterState, first: string, second: string, source: Source, b: Backend)
    requires HandlesIssued(s)
    ensures var u := UserIdOf(source);
            var m := Step(s, TextEvent(first, source, ResetCommand), b);
            var r := Step(m, TextEvent(second, source, ResetCommand), b);
            && r.replies == s.replies + [Reply(first, Greeting), Reply(second, Greeting)]
            && r.sends == s.sends
            && r.sessions[u] != m.sessions[u]
            && Unused(s.sessions, r.sessions[u])
  {
    var u := UserIdOf(source);
    var m := Step(s, TextEvent(first, source, ResetCommand), b);
    var r := Step(m, TextEvent(second, source, ResetCommand), b);
    assert r.replies[..|m.replies|] == m.replies;
  }

  /**
   * After a reset, the next message that reaches the backend goes out on a
   * session that the user did not hold before the reset.
   */
  lemma ResetThenForward(s: RouterState, first: string, second: string, source: Source,
                         text: string, b: Backend)
    requires HandlesIssued(s)
    requires text != ResetCommand && IsMazdaRelated(text)
    ensures var u := UserIdOf(source);
            var m := Step(s, TextEvent(first, source, ResetCommand), b);
            var r := Step(m, TextEvent(second, source, text), b);
            && r.sends == s.sends + [SendCall(m.sessions[u], text)]
            && Unused(s.sessions, m.sessions[u])
  {
  }

  /** The empty table of a freshly started process. */
  const Start: RouterState := RouterState(map[], 0, [], [])

  /** A question about a Mazda from a new user reaches the backend on the user's new session. */
  lemma ScenarioOnTopic(b: Backend)
    ensures var text := "What is the price of a Mazda CX-5?";
            var r := Step(Start, TextEvent("t1", UserSource("U1"), text), b);
            && r.sessions == map["U1" := Handle(0)]
            && r.sends == [SendCall(Handle(0), text)]
            && r.replies == [Reply("t1", b.answer(Handle(0), text))]
  {
    var text := "What is the price of a Mazda CX-5?";
    assert OccursAt(text, "Mazda", 23);
    UsualSpellingsMatch(text);
  }

  /** An off-topic message from a new user is refused without a backend call, but the session is still created. */
  lemma OffTopicNewUser(text: string, b: Backend)
    requires text != ResetCommand && !IsMazdaRelated(text)
    ensures var r := Step(Start, TextEvent("t1", UserSource("U1"), text), b);
            && r.sessions == map["U1" := Handle(0)]
            && r.sends == []
            && r.replies == [Reply("t1", Refusal)]
  {
  }

  lemma ScenarioOffTopic(b: Backend)
    ensures var r := Step(Start, TextEvent("t1", UserSource("U1"), "What's the weather?"), b);
            && r.sessions == map["U1" := Handle(0)]
            && r.sends == []
            && r.replies == [Reply("t1", Refusal)]
  {
    NoLetterZFails("What's the weather?");
    OffTopicNewUser("What's the weather?", b);
  }

  /** A reset from a new user creates two sessions and keeps the second. */
  lemma ScenarioResetNewUser(b: Backend)
    ensures var r := Step(Start, TextEvent("t1", GroupSource("G1", "U1"), "reset"), b);
            && r.sessions == map["U1" := Handle(1)]
            && r.nextHandle == 2
            && r.replies == [Reply("t1", Greeting)]
            && r.sends == []
  {
  }

  /** Messages whose source is neither a user, a group nor a room all share the entry of "". */
  lemma ScenarioUnknownSource(b: Backend)
    ensures var m := Step(Start, TextEvent("t1", OtherSource, "hi"), b);
            var r := Step(m, TextEvent("t2", OtherSource, "hello"), b);
            && r.sessions == map["" := Handle(0)]
            && r.nextHandle == 1
  {
    NoLetterZFails("hi");
    NoLetterZFails("hello");
  }

  /** The sticker acknowledgement for sticker X of package Y with keywords a and b and no text. */
  lemma ScenarioSticker(b: Backend)
    ensures var r := Step(Start, MessageEvent("t1", UserSource("U1"), StickerMessage("X", "Y", ["a", "b"], "")), b);
            && r.replies == [Reply("t1", "收到貼圖訊息: X, pkg: Y kw: ,a,b  text: ")]
            && r.sessions == map[]
  {
    assert Commas(["a", "b"]) == ",a,b";
    assert StickerReply("X", "Y", ",a,b", "") == "收到貼圖訊息: X, pkg: Y kw: ,a,b  text: ";
  }
}
