# Local chat relay: a Dafny model

The repository is a small WebSocket chat for a classroom. A Node.js server serves a chat page
and relays what one page sends to the other connected pages. The page connects to an address
chosen from a select box, locks the name and address while connected, and reconnects with
bounded exponential backoff. It sends `name: message` text, with an `[LLM] ` prefix for
prompts meant for an AI teacher client. Several earlier versions of the server and page
survive as backups, and a separate WebRTC signalling relay is included.

This project models the decision logic of those files:

- **The relay's decoder and encoder** (`Codec`, `ChatRelay`). This is the regular expression
  `/^([^:]+):\s*(.*)$/` with its "System" fallback, the `{username, message}` JSON re-encoding,
  the page's wire form, and the page's display decoders. The ECMAScript whitespace, `trim`,
  `includes` and `indexOf` these rely on are in `Text`.
- **The broadcast loop** that every server runs (`Relay`). The connected clients are a
  sequence of `(id, readyState)` records read by the loop. Each `send` is appended to a log.
  Whether the sender is included, and the value compared against `readyState`, are
  parameters. `ChatRelay`, `Server06`, `Server02` and `RtcServer` use it.
- **The chat pages** (`ChatClient`, `Server06`, `Server04`, `Server14`, `Server05`). Each
  page's globals and control flags form a record, and each handler is a function on it.
  `Step` is the browser delivering one event (a user action allowed by the enabled controls,
  a socket event, or a reconnection timer firing). `Run` is a sequence of events. Each page
  is also a class (`ChatClientPage.ChatPage`, `Server04Page.ChatPage`,
  `Server14Page.ChatPage`) whose methods update its fields as the script does. Each method
  is proved to change the object exactly as the handler function says. The 06 and 05
  handlers act on the main page's object, since those pages have the same globals.
- **The reconnection policy**. Up to `myMaxRetries` = 5 attempts wait `2^count * 1000` ms.
  A clean close does not retry. Open resets the count. The fields are locked and unlocked as
  the connection changes. The 14 page instead retries every 3000 ms without limit.

Where the design and the code disagree, the model follows the code:

- A failed `new WebSocket` re-enables Connect but leaves the name and address fields locked
  (nodejs/node-server.js:303-310).
- The relay does not strip the `[LLM] ` prefix. `[LLM]` only selects the console line
  (nodejs/node-server.js:485-491).
- The fields are locked when Connect is clicked, not when the socket opens.
- `myInitWebSocket` stores the trimmed name before it checks it, so a rejected Connect click
  also changes `myUserName` (nodejs/node-server.js:224-229).

The relay in backups/node-server14-BAD.js:209-247 is line for line the relay of
nodejs/node-server.js:462-500. `ChatRelay` and `Relay.OpenOthersReceiveOnce` therefore also
cover the 14 broadcast at backups/node-server14-BAD.js:241-246.

## Model

| member | source | states |
|---|---|---|
| Text.Trim | nodejs/node-server.js:215 | `String.prototype.trim`: the result has no ECMAScript whitespace at either end |
| Text.TrimIsSlice | nodejs/node-server.js:215 | the trimmed string is a slice of the input with only whitespace cut off either end |
| Text.TrimEmpty | nodejs/node-server.js:344-345 | a string trims to empty exactly when it is whitespace only |
| Text.IndexOf | nodejs/node-server.js:466 | `indexOf` of one character: -1, or an index in range that holds the character |
| Text.IndexOfFinds | nodejs/node-server.js:466 | the index found is the first occurrence (where `[^:]+` stops), and -1 means the character does not occur |
| Text.ContainsTransitive | backups/node-server06.js:388 | an occurrence inside an occurrence is an occurrence |
| Codec.MatchAtFirstColon | nodejs/node-server.js:466 | on a match, the sender group ends at the first colon, which is not at index 0, and the body group is the rest after that colon with its leading whitespace dropped |
| Codec.MatchSound | nodejs/node-server.js:466 | on a match, the string is sender group, ':', whitespace and body group; the sender group is non-empty and colon-free, and the body is one line |
| Codec.MatchComplete | nodejs/node-server.js:466 | every string `a:wb` with a non-empty colon-free `a`, whitespace `w` and one-line `b` matches, with `a` as the sender group |
| Codec.DecodeRelay | nodejs/node-server.js:465-473 | the message is the raw string exactly when the regular expression fails, and the sender is then "System"; on a match both parts are trimmed |
| Codec.DecodeAtFirstColon | nodejs/node-server.js:466-473 | a first colon at index ≥ 1 followed by a one-line remainder decodes to the trimmed text before it and the trimmed text after it |
| Codec.DecodeWithoutSender | nodejs/node-server.js:467-468 | no colon, or a colon at index 0, gives sender "System" and the raw, untrimmed string |
| Codec.DecodeMultiline | nodejs/node-server.js:466-468 | a line terminator after the first non-blank character of the remainder gives sender "System" and the raw string |
| Codec.WireRoundTrip | nodejs/node-server.js:354 | decoding `name + ": " + body` gives back `(name, body)` for a trimmed, non-empty, colon-free name and a trimmed one-line body |
| Codec.PrefixedBody | nodejs/node-server.js:347-354 | an "[LLM] " prefix keeps a trimmed one-line message trimmed and one-line |
| Codec.ColonInNameSplits | nodejs/node-server.js:354 | a colon inside the name makes the relay attribute the message to the text before that colon |
| Codec.EscapeChar | nodejs/node-server.js:482 | how `JSON.stringify` writes a character; only U+2028 and U+2029 can leave a line terminator in the literal |
| Codec.QuoteBody | nodejs/node-server.js:482 | a string without U+2028 and U+2029 is escaped to a literal with no line terminator |
| Codec.Quote | nodejs/node-server.js:482 | a JSON string literal starts and ends with a double quote |
| Codec.EnvelopeFrame | nodejs/node-server.js:476-482 | the broadcast frame's text is the JSON of `{username, message}` |
| Codec.EnvelopeParses | nodejs/node-server.js:376-379 | the page's member lookup on the parsed object gives back the two strings; the parse itself is not modelled but taken as given with the frame (see "## Left out") |
| Codec.JsonEnvelope | nodejs/node-server.js:377-379 | the JSON branch applies exactly when both members are strings; otherwise the page falls back to the regular expression |
| Codec.DisplayAgreesWithRelay | nodejs/node-server.js:382-387 | regular-expression display: where the relay finds a sender the page shows the same trimmed sender and body; otherwise it shows the raw text |
| Codec.DisplayOfEnvelope | nodejs/node-server.js:376-379 | the page shows the relay's object as its two members, trimmed |
| Codec.DisplayOfRelayed | nodejs/node-server.js:374-388 | whatever went through the relay is shown as its sender and body, or as "System" with the trimmed raw text |
| Relay.Hub.Broadcast | nodejs/node-server.js:494-499 | one pass of `clients.forEach` appends exactly the sends for the qualifying clients, in order, and leaves the client set unchanged |
| Relay.SendsAreQualified | nodejs/node-server.js:494-499 | every send carries the payload unchanged and goes to a qualifying client |
| Relay.QualifiedAreSent | nodejs/node-server.js:494-499 | every qualifying client is sent the payload |
| Relay.DeliveredExactlyOnce | nodejs/node-server.js:494-499 | with one entry per client, each client is sent the payload once if it qualifies and never otherwise |
| Relay.OpenOthersReceiveOnce | backups/node-server04.js:348-352 | skipping the sender: each client receives the text exactly once if it is open and not the sender, and never otherwise |
| Relay.SenderSentNothing | nodejs/node-server.js:495 | skipping the sender, the sender receives nothing |
| Relay.SendCount | nodejs/node-server.js:494-499 | there is one send per qualifying client |
| Relay.AllOpenReachesOthers | nodejs/node-server.js:494-499 | when every client is open, skipping the sender reaches all clients but one |
| Relay.UndefinedOpenSendsNothing | web-rtc/node-rtc-server.js:14 | an `undefined` OPEN constant matches no client, so nothing is sent |
| ChatRelay.HandleIncomingMessage | nodejs/node-server.js:462-500 | broadcasts the JSON of the decoded message to every open client but the sender, reports prompt or chat by `includes('[LLM]')`, and leaves the client set unchanged |
| ChatRelay.PromptKeepsPrefix | nodejs/node-server.js:485-491 | a prompt reaches the other pages with its "[LLM] " prefix intact, and is logged as a prompt |
| ChatRelay.ChatLoggedAsChat | nodejs/node-server.js:485-491 | a message not mentioning "[LLM]" is logged as chat |
| ChatRelay.OthersSeeSenderAndBody | nodejs/node-server.js:462-499 | the other pages show a sent message as the sender's name and the body as typed |
| Session.RetryDelayBounds | nodejs/node-server.js:313-316 | attempts 1 to 5 wait 2, 4, 8, 16 and 32 seconds, each twice the previous wait |
| ChatClient.LoadedInv | nodejs/node-server.js:413-416 | the page after `DOMContentLoaded` keeps the invariant, with Connect disabled and no address |
| ChatClient.InitInv | nodejs/node-server.js:223-311 | `myInitWebSocket` keeps the invariant |
| ChatClient.DropInv | nodejs/node-server.js:238-240 | closing a replaced socket keeps the invariant (close code 1000 only) |
| ChatClient.ReconnectInv | nodejs/node-server.js:313-333 | `myHandleReconnect` keeps the retry count at most 5 and every wait a backoff delay |
| ChatClient.CloseInv | nodejs/node-server.js:282-301 | `onclose` keeps the invariant |
| ChatClient.ResumeInv | nodejs/node-server.js:320-326 | a fired reconnection timer keeps the invariant |
| ChatClient.ActInv | nodejs/node-server.js:108-166 | every user action that the enabled controls allow keeps the invariant |
| ChatClient.SendInv | nodejs/node-server.js:343-366 | sending keeps the invariant |
| ChatClient.DeliverInv | nodejs/node-server.js:249-301 | every event of the current socket keeps the invariant |
| ChatClient.DeliverStaleInv | nodejs/node-server.js:272-301 | error and close events of a replaced socket keep the invariant |
| ChatClient.StepInv | nodejs/node-server.js:108-333 | every event the browser delivers keeps the invariant |
| ChatClient.RunInv | nodejs/node-server.js:108-333 | every sequence of events keeps the invariant |
| ChatClient.ReachableInv | nodejs/node-server.js:191 | every reachable page has retry count in [0, 5], only 2–32 s waits, the address following the select box, a locked page holding the trimmed non-empty name, and only close code 1000 |
| ChatClient.GateAfterEdit | nodejs/node-server.js:195-219 | after any edit of the name, the select box or the custom address, Connect is enabled exactly when the trimmed name and the derived address ('' / trimmed custom input / selected value) are non-empty |
| ChatClient.ConnectRejected | nodejs/node-server.js:224-229 | Connect with an empty trimmed name or no address only stores the trimmed name and adds the error line |
| ChatClient.ConnectStarts | nodejs/node-server.js:231-247 | Connect with a name and an address locks the fields, disables Connect, closes a not-yet-closed socket with 1000 and opens a new one, leaving the retry count |
| ChatClient.ConstructionFailureKeepsLocked | nodejs/node-server.js:303-310 | when `new WebSocket` throws, Connect is re-enabled and sending disabled, but the fields stay locked |
| ChatClient.OpenResets | nodejs/node-server.js:249-260 | open resets the retry count to 0 and enables sending |
| ChatClient.CloseEffects | nodejs/node-server.js:282-301 | every close disables sending and unlocks the fields; a clean close re-enables Connect without retrying; an unclean close enters the reconnection policy |
| ChatClient.ReconnectPolicy | nodejs/node-server.js:313-333 | below the limit the count goes up by one and a `2^count` s wait is scheduled; at the limit nothing is scheduled and Connect is re-enabled |
| ChatClient.ResumeWithoutIdentity | nodejs/node-server.js:321-326 | a timer firing without a name or an address jumps to the limit: no new socket, Connect re-enabled |
| ChatClient.ResumeReconnects | nodejs/node-server.js:321-322 | a timer firing with a name and an address connects again |
| ChatClient.OneFailedAttempt | nodejs/node-server.js:282-326 | an unclean close followed by its timer raises the count by one, records the wait, and leaves the page connecting again under the same name and address |
| ChatClient.SendBehaviour | nodejs/node-server.js:343-366 | an empty trimmed message changes nothing; otherwise the frame carries "[LLM] " exactly for a prompt and is sent only on an open socket, with echo and cleared input; otherwise nothing is sent, the input is kept and an error line is added |
| ChatClient.SentFrameDecodes | nodejs/node-server.js:354 | the frame a page sends decodes at the relay to the page's name and the prefixed message |
| ChatClientPage.ChatPage.constructor | nodejs/node-server.js:413-416 | the object starts as the loaded page |
| ChatClientPage.ChatPage.HandleSelectChange | nodejs/node-server.js:195-208 | the method changes the page as `HandleSelectChange` says |
| ChatClientPage.ChatPage.HandleCustomInputChange | nodejs/node-server.js:210-212 | the method changes the page as `HandleCustomInputChange` says |
| ChatClientPage.ChatPage.CheckConnectionReadiness | nodejs/node-server.js:214-219 | the method changes the page as `CheckConnectionReadiness` says |
| ChatClientPage.ChatPage.InitWebSocket | nodejs/node-server.js:223-311 | the method changes the page as `InitWebSocket` says |
| ChatClientPage.ChatPage.OnOpen | nodejs/node-server.js:249-260 | the method changes the page as `OnOpen` says |
| ChatClientPage.ChatPage.OnMessage | nodejs/node-server.js:262-270 | the method changes the page as `OnMessage` says |
| ChatClientPage.ChatPage.OnError | nodejs/node-server.js:272-280 | the method changes the page as `OnError` says |
| ChatClientPage.ChatPage.OnClose | nodejs/node-server.js:282-301 | the method changes the page as `OnClose` says |
| ChatClientPage.ChatPage.HandleReconnect | nodejs/node-server.js:313-320 | the method changes the page as `HandleReconnect` says |
| ChatClientPage.ChatPage.ResumeReconnect | nodejs/node-server.js:320-326 | the method changes the page as `ResumeReconnect` says |
| ChatClientPage.ChatPage.SendChatMessage | nodejs/node-server.js:335-337 | sends as a chat message |
| ChatClientPage.ChatPage.SendLlmPrompt | nodejs/node-server.js:339-341 | sends as a prompt |
| ChatClientPage.ChatPage.SendMessage | nodejs/node-server.js:343-366 | the method changes the page as `SendMessage` says |
| Server06.ReadinessGate | backups/node-server06.js:188-205 | each check derives the address from the select box and enables Connect exactly when the trimmed name and that address are non-empty; nothing else changes |
| Server06.ReadinessIsSelectThenGate | backups/node-server06.js:188-205 | the combined check is the main page's select handler followed by its readiness check |
| Server06.ResumeConnects | backups/node-server06.js:298-300 | a fired timer with a name and an address connects again |
| Server06.ResumeWithoutName | backups/node-server06.js:298-300 | with no name check before `myInitWebSocket`, a timer firing after the name or address was cleared only stores the trimmed name and adds the connect prompt: the retry count is unchanged and no further timer is set |
| Server06.ActInv | backups/node-server06.js:118-160 | every allowed user action keeps the main page's invariant |
| Server06.StepInv | backups/node-server06.js:188-307 | every event keeps the main page's invariant |
| Server06.RunInv | backups/node-server06.js:188-307 | every sequence of events keeps the invariant |
| Server06.ReachableInv | backups/node-server06.js:365-367 | every reachable page keeps the invariant: at most 5 retries, 2–32 s waits, the address following the select box |
| Server06.SendBehaviour | backups/node-server06.js:309-324 | the frame is `name + ': ' + msg` with no prefix; an empty trimmed message sends nothing; sending happens only when open |
| Server06.OthersSeeSenderAndBody | backups/node-server06.js:327-341 | a message relayed unchanged is shown by the other pages as the sender's name and message |
| Server06.Routing | backups/node-server06.js:376-420 | '/' or a path with 'student' serves the student page (even with 'teacher' too); otherwise a path with 'teacher' serves the instructions; otherwise 404 |
| Server06.HandleIncomingMessage | backups/node-server06.js:439-450 | the raw text goes unchanged to every open client, the sender included |
| Server06.SenderEchoed | backups/node-server06.js:444-449 | an open sender gets its own text back exactly once, unchanged |
| Server06.OpenClientsReceiveOnce | backups/node-server06.js:444-449 | every open client receives the text exactly once, and no other client does |
| Server06.CheckReadiness | backups/node-server06.js:188-205 | the method changes the page as the combined check says |
| Server06.HandleMessage | backups/node-server06.js:248-251 | the method shows the regular-expression display of the received text |
| Server06.AsWrittenAgreesOnWireForm | backups/node-server06.js:334-341 | with the expression the browser receives (`s*` in place of `\s*`), the frames 06 pages send, a name, ": " and a one-line message, are still shown as that name and message, as the intended expression shows them |
| Server06.AsWrittenShowsRaw | backups/node-server06.js:334-341 | with the expression the browser receives, "a:" followed by a line break and "b" is shown raw, where the intended expression shows sender "a" and body "b" |
| Server06.AsWrittenDropsS | backups/node-server06.js:334-341 | with the expression the browser receives, a body starting with the letter `s` right after the colon loses that letter ("a:sb: hi" shows body "b: hi"), where the intended expression keeps it |
| Server06.ResumeReconnectOn | backups/node-server06.js:298-300 | the method changes the page as `ResumeReconnect` says |
| Server06.SendMessage | backups/node-server06.js:309-324 | the method changes the page as a chat send without prefix |
| Server04.InitInv | backups/node-server04.js:172-235 | `myInitWebSocket` keeps the invariant |
| Server04.ReconnectInv | backups/node-server04.js:237-252 | `myHandleReconnect` keeps the count at most 5 and every wait a backoff delay |
| Server04.CloseInv | backups/node-server04.js:215-226 | `onclose` keeps the invariant |
| Server04.ActInv | backups/node-server04.js:82-121 | every allowed user action keeps the invariant |
| Server04.DeliverInv | backups/node-server04.js:190-226 | every socket event keeps the invariant |
| Server04.StepInv | backups/node-server04.js:147-265 | every event keeps the invariant |
| Server04.RunInv | backups/node-server04.js:147-265 | every sequence of events keeps the invariant |
| Server04.ReachableInv | backups/node-server04.js:290-292 | every reachable page keeps at most 5 retries, 2–32 s waits, the address following the select box, and close code 1000 only |
| Server04.GateAfterEdit | backups/node-server04.js:147-168 | after a select or custom-address change, Connect is disabled exactly when the derived address is empty; no name is needed |
| Server04.ConnectWithoutAddress | backups/node-server04.js:173-176 | Connect with an empty address only adds the address prompt |
| Server04.ConnectStarts | backups/node-server04.js:178-188 | Connect with an address closes a not-yet-closed socket with 1000, disables Connect and opens a new socket |
| Server04.OpenResets | backups/node-server04.js:190-200 | open resets the retry count and enables both sending and Connect |
| Server04.CloseEffects | backups/node-server04.js:215-252 | every close disables sending; a clean close re-enables Connect; an unclean close runs the bounded `2^n * 1000` backoff |
| Server04.ResumeConnectsAgain | backups/node-server04.js:244-245 | a fired timer calls `myInitWebSocket` with no further check |
| Server04.SendBehaviour | backups/node-server04.js:254-265 | the trimmed message itself is sent, only when open; an empty trimmed message changes nothing |
| Server04Page.ChatPage.constructor | backups/node-server04.js:290-292 | the object starts as the loaded page |
| Server04Page.ChatPage.HandleSelectChange | backups/node-server04.js:147-163 | the method changes the page as `HandleSelectChange` says |
| Server04Page.ChatPage.HandleCustomInputChange | backups/node-server04.js:165-168 | the method changes the page as `HandleCustomInputChange` says |
| Server04Page.ChatPage.InitWebSocket | backups/node-server04.js:172-235 | the method changes the page as `InitWebSocket` says |
| Server04Page.ChatPage.OnOpen | backups/node-server04.js:190-200 | the method changes the page as `OnOpen` says |
| Server04Page.ChatPage.OnMessage | backups/node-server04.js:202-204 | the method shows the received text as it came |
| Server04Page.ChatPage.OnError | backups/node-server04.js:206-213 | the method changes the page as `OnError` says |
| Server04Page.ChatPage.OnClose | backups/node-server04.js:215-226 | the method changes the page as `OnClose` says |
| Server04Page.ChatPage.HandleReconnect | backups/node-server04.js:237-244 | the method changes the page as `HandleReconnect` says |
| Server04Page.ChatPage.ResumeReconnect | backups/node-server04.js:244-245 | the method changes the page as `ResumeReconnect` says |
| Server04Page.ChatPage.SendMessage | backups/node-server04.js:254-265 | the method changes the page as `SendMessage` says |
| Server14.SendInv | backups/node-server14-BAD.js:117-141 | sending keeps the invariant, latching a trimmed name |
| Server14.StepInv | backups/node-server14-BAD.js:82-141 | every event keeps the invariant: at most one timer waiting, and only while the socket is closed; every wait 3000 ms; the name trimmed |
| Server14.RunInv | backups/node-server14-BAD.js:82-141 | every sequence of events keeps the invariant |
| Server14.ReachableInv | backups/node-server14-BAD.js:160 | every page reachable from the loaded page keeps the invariant |
| Server14.NameLatched | backups/node-server14-BAD.js:121 | a set name never changes; an unset one is set only by a send on an open socket, to the trimmed name field |
| Server14.NameStays | backups/node-server14-BAD.js:121 | once set, the name stays whatever happens afterwards |
| Server14.SendBehaviour | backups/node-server14-BAD.js:117-141 | a frame goes out exactly when the socket is open and both the latched name and the trimmed message are non-empty; it is the JSON of the name and the message, with "[LLM] " exactly for a prompt |
| Server14.ReceiveRules | backups/node-server14-BAD.js:92-106 | non-JSON and non-objects change nothing; a truthy `system` adds exactly its system line; otherwise (no `system`, or a falsy one) the page adds exactly the bubble of `username` and `message` when both are truthy and `username` is not the page's own name, and changes nothing in every other case |
| Server14.AlwaysRetries | backups/node-server14-BAD.js:108-113 | every close, however many came before, schedules a 3000 ms timer, and the timer connects again |
| Server14.ServerMisreadsJson | backups/node-server14-BAD.js:213-220 | the relay reads the page's JSON frame as delimited text: the sender is `{"myUserName"` and the message is the rest of the JSON |
| Server14.ShowsOthersEnvelope | backups/node-server14-BAD.js:96-100 | a relayed object from another name is shown as that sender and message |
| Server14.OthersSeeJsonKeyAsName | backups/node-server14-BAD.js:133 | so the other pages show every message under the name `{"myUserName"` |
| Server14Page.ChatPage.constructor | backups/node-server14-BAD.js:160 | the object starts as the loaded page, connecting |
| Server14Page.ChatPage.Connect | backups/node-server14-BAD.js:82-84 | the method changes the page as `Connect` says: a new socket to the page's own host |
| Server14Page.ChatPage.OnOpen | backups/node-server14-BAD.js:86-90 | the method changes the page as `OnOpen` says |
| Server14Page.ChatPage.OnMessage | backups/node-server14-BAD.js:92-106 | the method changes the page as `OnMessage` says |
| Server14Page.ChatPage.OnClose | backups/node-server14-BAD.js:108-113 | the method changes the page as `OnClose` says |
| Server14Page.ChatPage.SendMessage | backups/node-server14-BAD.js:117-141 | the method changes the page as `SendMessage` says |
| Server02.HandleIncomingMessage | backups/node-server02.js:83-92 | the received text goes to every open client but the sender; the client set is unchanged |
| Server02.RelayToOthers | backups/node-server02.js:87-91 | only the received text is sent; each open client other than the sender gets it exactly once and no other client gets it; the number of sends is the number of open clients other than the sender |
| RtcServer.RelayMessage | web-rtc/node-rtc-server.js:11-19 | the message, as received, goes to every client but the sender whose `readyState` equals the OPEN constant; the client set is unchanged |
| RtcServer.RecipientsMatchConstant | web-rtc/node-rtc-server.js:13-18 | each client other than the sender whose `readyState` equals the constant receives the message exactly once, unchanged; no other client receives it; an `undefined` constant sends nothing |
| Server05.SendBehaviour | backups/node-server05.js:2-21 | an empty trimmed message changes nothing; the frame is the name field as it is at send time, ': ' and the message; it is sent only when open, with the echo showing the message without the name and the input cleared; otherwise an error line is added and the input kept |
| Server05.SameAsMainWhileLocked | backups/node-server05.js:7-10 | while the fields are locked, the fragment sends what the main page sends |
| Server05.EditedNameIsSent | backups/node-server05.js:7-13 | a name edited after the fields unlock is what the next frame carries |
| Server05.SendMessageOn | backups/node-server05.js:2-21 | the method changes the page as the fragment's `SendMessage` says |

## Left out

- HTTP serving, the HTML and CSS templates, placeholder substitution, `myGetLocalIPAddress`,
  console output and the status line text: these are input and output with no decisions.
  The one exception is the 06 routing decision, which is modelled.
- The `ws` library: it maintains the client set, and the model takes that set as given.
  `send` is an append to a log. Per-recipient delivery failures are not modelled.
- Timers and `await`: a timer is a `pending` count plus the list of delays scheduled, and
  firing is an event. Elapsed time is not modelled.
- `JSON.parse` is abstract: a received frame carries its text and what `JSON.parse` makes of
  it. `JSON.stringify` quoting is modelled for the characters Dafny strings hold; lone
  surrogates are not represented.
- Text versus binary frames: the signalling relay forwards the received buffer, and the model
  treats every payload as a string.
- RtcServer.RelayMessage: the value of `myWebSocketServer.OPEN` is not visible in the
  repository. It is a parameter, with `None` standing for `undefined`.
- Server14.Connect: `new WebSocket` on the page's own host is taken to succeed. There is no
  `try` around it, and a throw would end the handler.
- The 04 custom-address input fires `onchange` only when the edit is committed. An edit is
  modelled as committed at once, so an uncommitted edit that a later select change picks up
  is not modelled.
- Sockets a page has replaced still deliver their error and close events to the same
  handlers. These are counted in `stale`; their other events are not modelled.
- backups/node-server06.js:346-351 and backups/node-server14-BAD.js:83,146 contain
  backquotes inside the outer template literal, so as written those files would not load.
  The logic is modelled as the text states it.
- Server06.OnMessage, Server06.HandleMessage and Codec.DisplayAgreesWithRelay use the
  display expression /^([^:]+):\s*(.*)$/ as written at backups/node-server06.js:335. The
  page's script sits inside a template literal, which turns `\s` into `s`, so a browser would
  run `s*` instead. Both readings are modelled, and the difference is recorded under
  "## Findings".
- backups/node-server14-BAD.js:178 refers to an undefined `myClientSideJS` while serving
  '/': this is a crash in HTTP code, not logic.
- The number of failed attempts over an arbitrary trace is not stated as a lemma. The
  bound is the invariant `ReachableInv`, together with `ReconnectPolicy` per call and
  `OneFailedAttempt` for one cycle.
- Codec.EscapeChar: characters below U+0020 other than the named escapes are written as
  `\u00XX`. Lone surrogates (`\udXXX`) do not exist in Dafny strings.

## Findings

| source | as written | input that shows it | evidently intended | confidence | as-written member | corrected member |
|---|---|---|---|---|---|---|
| backups/node-server06.js:335 | the display expression is written `\s*` inside the template literal holding the page script, so the browser receives `/^([^:]+):s*(.*)$/` | "a:" + line break + "b" is shown raw, though the main page reads sender "a" and body "b"; "a:sb: hi" is shown with body "b: hi" | `\s*`, which the main page writes escaped at nodejs/node-server.js:382 | high; not executed | Server06.AsWrittenShowsRaw | Codec.DisplayAgreesWithRelay |
