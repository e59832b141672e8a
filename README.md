# Session router of the LINE–Gemini webhook bot

This project models the message-routing core of `callbackHandler` in `main.go` and proves properties about it. The handler receives a batch of LINE webhook events. For each text message it finds the sender's user id and looks up that user's Gemini chat session in a process-wide table, creating a session when the user has none. The exact text `reset` replaces the session and replies with a fixed greeting. Any other text goes to the backend only when its lower-cased form contains `mazda`; otherwise the handler sends a fixed refusal. Stickers get a templated acknowledgement, images get a description from a separate backend, and every other event is only logged.

The model has five modules:

- `Text` (text.dfy) covers ASCII lower-casing, substring search and the topic gate `IsMazdaRelated`.
- `Sticker` (sticker.dfy) covers the accumulating keyword loop (`KeywordString`, a method with a loop), the string it builds (`Commas`) and the reply template.
- `Events` (events.dfy) defines the event, message and source variants, how the user id is taken from the source, and facts about a batch that do not depend on state.
- `Router` (router.dfy) defines the abstract state `RouterState`: the session table, a handle counter, the replies sent and the backend calls made. `Step` and `Run` give the meaning of one event and of a batch. The class `SessionRouter` is the handler itself. Its `sessions` map field is updated in place. `HandleEvent` and `CallbackHandler` are proved to follow `Step` and `Run`.
- `RouterProps` (router_props.dfy) holds the lemmas about batches and about several messages in a row, plus worked scenarios.

External collaborators are modelled as follows:

- `startNewChatSession` hands out handles numbered from a counter, so creating a session can be observed. In the source it is a placeholder that returns nil.
- `send` followed by `printResponse` is the function `Backend.answer`. Every call is also logged in `sends`.
- Fetching the image content and then calling `GeminiImage` is the function `Backend.describe`.
- `replyText` appends a `Reply(replyToken, text)` record.
- `webhook.ParseRequest` becomes the input `Request`: either a parsed batch of events or a parse error.

## Behaviour of main.go worth knowing

- The session lookup happens before both the reset check and the topic gate (main.go:104-121). So an off-topic message from a new user still creates that user's session, and a reset from a new user creates two sessions.
- A source that is not a user, group or room gives the user id `""` (main.go:93-101). All such messages share one table entry.
- The handler has no prompt-prefix command and no apology text for a failed backend call: the backend's answer is replied as it is (main.go:121-127).
- Every keyword of a sticker gets a leading comma, the first one included, so keywords `a` and `b` give `,a,b` (main.go:137-140).

## Model

| member | source | states |
|---|---|---|
| Text.LowerChar | main.go:193 | the result is never an upper-case ASCII letter; an upper-case letter moves up by 32 code points; every other character is unchanged |
| Text.ToLower | main.go:193 | the result has the same length, and each character is the lower-cased input character at the same position |
| Text.ToLowerIdempotent | main.go:193 | lower-casing twice gives the same as lower-casing once |
| Text.ToLowerSlice | main.go:193 | lower-casing commutes with taking a slice |
| Text.MazdaRelatedCaseInsensitive | main.go:190-194 | the gate gives the same answer for a text and for its lower-cased form |
| Text.MazdaRelatedIff | main.go:193 | the gate holds if and only if some five consecutive characters of the text spell "mazda" in some mix of cases |
| Text.ContainsSpellingMatches | main.go:193 | a text containing any spelling whose lower-case form is "mazda" passes the gate |
| Text.UsualSpellingsMatch | main.go:193 | a text containing "mazda", "MAZDA" or "Mazda" passes the gate |
| Text.NoLetterZFails | main.go:193 | a text with no z in either case fails the gate |
| Text.Contains | main.go:193 | the definition of `strings.Contains` that the gate lemmas are about: a match needs the substring to be no longer than the text, and the empty substring is in every string |
| Text.IsMazdaRelated | main.go:190-194 | the definition of the topic gate that the lemmas above are about: the lower-cased text contains "mazda", so a passing text has at least five characters |
| Sticker.Commas | main.go:137-140 | the definition of the keyword string that KeywordString and the lemmas below are about: `"," + k` for every keyword in order, so a non-empty list gives a string that starts with a comma |
| Sticker.KeywordString | main.go:137-140 | the accumulating loop yields the concatenation of "," + k over the keywords in order, whose length is the sum of 1 + the length of k |
| Sticker.CommasLength | main.go:137-140 | the keyword string's length is the sum of 1 + the length of k, and the string is empty exactly when there are no keywords |
| Sticker.CommasAppend | main.go:138-140 | the keyword string of two runs of keywords is the concatenation of their keyword strings |
| Sticker.SplitCommasInverse | main.go:137-140 | keywords that contain no comma are recovered, in order, by splitting the keyword string at its commas |
| Sticker.StickerReplyFields | main.go:142 | the sticker reply is the fixed template; the sticker id, package id, keyword string and text each sit at an offset fixed by the lengths of the fields before them |
| Sticker.StickerReply | main.go:142 | the definition of the `Sprintf` template that StickerReplyFields is about: its length is the sum of the fields and labels, it starts with the fixed prefix, and it ends with the sticker text |
| Sticker.Field | main.go:137-140 | the field read back is the longest comma-free prefix of the string |
| Events.UserIdOf | main.go:93-101 | a user, group or room source gives its UserId; any other source gives "" |
| Events.ReplyTokensBound | main.go:85-187 | a batch has no more answered events than events, and no more forwarded messages than answered events |
| Events.EmitsReply | main.go:87-186 | the definition the batch lemmas are about: text, sticker and image messages are answered, and every other event is only logged |
| Events.IsForwarded | main.go:110-124 | the definition the batch lemmas are about: a text message that is not `reset` and passes the gate goes to the backend |
| Router.GetOrCreate | main.go:104-109 | the lookup-or-create that HandleText is about: afterwards the user's entry is the returned handle; a known user gets their handle with the state unchanged; a new user gets the next handle, which is stored, and the counter advances by one |
| Router.HandleText | main.go:91-133 | after a text message the sender has an entry; no other user's entry changes; exactly one reply goes to the event's token. For `reset`: a fresh handle unused by anyone (two creations for a new user), the greeting, and no backend call. For other text: the table is unchanged for a known user, or gains exactly this user's entry; the backend is called with the user's current handle if and only if the gate holds, and the reply is then its answer; otherwise the reply is the refusal |
| Router.HandleTextInjective | main.go:104-118 | handling a text message never gives two users the same handle, as long as every handle in the table has been issued |
| Router.ImageReply | main.go:161-164 | a failed description gives the fixed prefix followed by the error text; a successful one gives the description |
| Router.Step | main.go:86-186 | one event keeps every handle in the table issued and never moves the counter back. An event that is only logged (video, follow, postback, beacon, or an unknown message or event) changes nothing. An answered event appends exactly one reply, addressed to its token. A non-text event leaves the table, the counter and the backend calls alone. The backend is called exactly for forwarded text |
| Router.StepInjective | main.go:86-186 | no event ever makes two users share a handle |
| Router.Run | main.go:85-187 | the definition of the event loop that the batch lemmas are about: the events are handled first to last, and the handle counter never goes back |
| Router.StatusOf | main.go:75-82 | an invalid signature gives 400; any other parse error gives 500; a parsed request gives the default 200 |
| Router.SessionRouter.constructor | main.go:35 | the router starts with an empty table, no replies and no backend calls |
| Router.SessionRouter.StartNewChatSession | main.go:196-201 | returns a handle that was never issued before and changes nothing else |
| Router.SessionRouter.Send | main.go:123-124 | returns the backend's answer for this handle and text, and records the call |
| Router.SessionRouter.ReplyText | main.go:58-72 | appends one reply addressed to the token and changes nothing else |
| Router.SessionRouter.HandleTextMessage | main.go:91-133 | updating the map in place for a text message has exactly the effect that `HandleText` gives |
| Router.SessionRouter.HandleEvent | main.go:86-186 | updating the map in place has exactly the effect that `Step` gives, and keeps the invariant that every handle was issued and no two users share one |
| Router.SessionRouter.CallbackHandler | main.go:74-188 | a request that fails to parse gets its status and changes nothing; a parsed batch is handled event by event, giving the state `Run` gives |
| RouterProps.RunPreservesIssued | main.go:104-113 | no batch ever hands out a handle twice: the counter never goes back, every handle in the table stays below it, and no two users share a handle |
| RouterProps.RunAppend | main.go:35 | two deliveries in a row leave the same state as one delivery of both batches, because the table persists between requests |
| RouterProps.RunReplies | main.go:85-187 | a batch appends its replies after the earlier ones, one per answered event, in batch order |
| RouterProps.AtMostOneReplyPerEvent | main.go:85-187 | a batch adds at most one reply per event |
| RouterProps.RunSends | main.go:121-124 | a batch makes one backend call per forwarded message and no other call; the calls come after the earlier ones, and their texts are the forwarded texts in batch order |
| RouterProps.RunSessions | main.go:104-113 | a batch adds exactly the senders of its text messages to the table, and keeps the entry of every user who sent no text |
| RouterProps.SilentBatch | main.go:169-186 | a batch of events that are only logged changes nothing |
| RouterProps.StickerEventReply | main.go:135-145 | a sticker event appends exactly the filled template and leaves the table and the backend untouched |
| RouterProps.ImageEventReply | main.go:147-167 | an image event appends exactly one reply, the description of the image or the failure prefix followed by the error, and leaves the table, the counter and the backend calls untouched |
| RouterProps.ResetTwice | main.go:110-118 | two resets in a row both reply with the greeting, make no backend call, and leave a handle that differs from the first reset's handle and from every earlier one |
| RouterProps.ResetThenForward | main.go:110-124 | after a reset, the next forwarded message goes out on a handle that nobody held before the reset |
| RouterProps.OffTopicNewUser | main.go:104-133 | an off-topic first message still creates the sender's session, gets the refusal, and makes no backend call |
| RouterProps.ScenarioOnTopic | main.go:104-127 | "What is the price of a Mazda CX-5?" from a new user reaches the backend on the user's new session, and the backend's answer is the reply |
| RouterProps.ScenarioOffTopic | main.go:128-133 | "What's the weather?" gets the refusal, and the backend is not called |
| RouterProps.ScenarioResetNewUser | main.go:104-118 | a reset from a new group member creates two sessions and keeps the second |
| RouterProps.ScenarioUnknownSource | main.go:93-109 | text messages from unrecognised sources share the single entry for "" |
| RouterProps.ScenarioSticker | main.go:137-145 | sticker X of package Y with keywords a and b and no text is acknowledged with "收到貼圖訊息: X, pkg: Y kw: ,a,b  text: " |

## Left out

- HTTP server setup, environment variables and `ListenAndServe` (main.go:37-56): these are configuration and I/O.
- Signature checking and payload parsing by `webhook.ParseRequest` belong to a library. Only the mapping from its error to a status code is modelled.
- The network call inside `replyText`, and the logging of a failed delivery. The model treats every reply as sent.
- Fetching the image content, `io.ReadAll`, `defer`, and the `log.Fatal` on a read error (main.go:147-160). The model assumes the fetch succeeded. After a failed fetch the source dereferences a nil value, and that case is not modelled.
- The bodies of `startNewChatSession`, `send`, `printResponse` and `GeminiImage` (main.go:196-222). They are placeholders, so the model replaces them with uninterpreted functions and a handle counter.
- Text.ToLower: lower-cases ASCII letters only. Go's `strings.ToLower` also lower-cases other Unicode letters; the model leaves those unchanged.
- Router.StatusOf: the model takes the parse error `InvalidSignature` to be exactly the value `linebot.ErrInvalidSignature` that main.go:77 compares against. Whether `webhook.ParseRequest` returns that value, or a sentinel of its own (which would give 500 for a bad signature), is library behaviour outside this model.
- The conversation history of a chat session. `Backend.answer` depends only on the handle and the text, so in the model the same text on the same session always gets the same answer; a real session's answer also depends on the earlier messages sent on it.
- Whether the library delivers sources as the pointer types that the handler's type switch names. The model takes the switch as written.
- Concurrent handlers and the unsynchronised global map. The model is single-threaded.
- Logging calls.
