/** The JSON page of backups/node-server14-BAD.js. It connects as soon as it loads and retries
    every three seconds after any close, without limit. The name is latched on the first send
    that finds it set. Messages go out as JSON `{myUserName, myMessage}`. The page shows only
    JSON it receives, and never a message under its own name. The server in the same file
    decodes with the main relay's regular expression, so it reads the JSON text as delimited
    text. */
module Server14 {
  import opened Text
  import opened Codec
  import opened Session
  import ChatClient

  datatype Page = Page(
    nameInput: string,
    messageInput: string,
    // `myName`
    name: string,
    socket: SocketState,
    // reconnection timers not yet fired, and every delay scheduled
    pending: nat,
    delays: seq<int>,
    sent: seq<string>,
    log: seq<Line>)

  /** The fixed wait before `myConnect` runs again. */
  const RetryWait: int := 3000

  /** `JSON.stringify({ myUserName: myName, myMessage: myMessage })`. */
  function ClientJson(name: string, msg: string): string {
    "{\"myUserName\":" + Quote(name) + ",\"myMessage\":" + Quote(msg) + "}"
  }

  /** `myConnect`: a new socket to the page's own host (its construction is taken to succeed). */
  function Connect(p: Page): Page {
    p.(socket := Connecting)
  }

  function OnOpen(p: Page): Page {
    p.(log := p.log + [SystemLine(ConnectedToServer)])
  }

  /** `onmessage`: text that is not JSON, or JSON that is not an object, shows nothing; an object
      with a truthy `system` shows it as a system line; otherwise an object with a truthy
      `username` and `message` is shown unless the username is the page's own name. */
  function OnMessage(p: Page, f: Frame): Page {
    match f.parsed
    case Object(fs) =>
      if "system" in fs && Truthy(fs["system"]) then
        p.(log := p.log + [SystemLine(FromServer(AsText(fs["system"])))])
      else if "username" in fs && Truthy(fs["username"]) && "message" in fs && Truthy(fs["message"])
              && fs["username"] != JString(p.name) then
        p.(log := p.log + [Bubble(Named(AsText(fs["username"]), AsText(fs["message"])), false)])
      else p
    case _ => p
  }

  /** `onclose`: a system line and a fresh timer, whatever the close. */
  function OnClose(p: Page): Page {
    p.(log := p.log + [SystemLine(ClosedRetrying)], pending := p.pending + 1,
       delays := p.delays + [RetryWait])
  }

  /** `mySendMessage(isPrompt)`: nothing unless the socket is open; the name is read from its
      input only while it is still empty; a frame goes out only when both the name and the
      trimmed message are non-empty. */
  function SendMessage(p: Page, isPrompt: bool): Page {
    if !IsOpen(p.socket) then p
    else
      var q := if p.name == "" then p.(name := Trim(p.nameInput)) else p;
      var msg := Trim(q.messageInput);
      if q.name != "" && msg != "" then
        var body := Prefix(isPrompt) + msg;
        q.(sent := q.sent + [ClientJson(q.name, body)],
           log := q.log + [Bubble(Named(q.name, body), true)],
           messageInput := "")
      else q
  }

  // ---------------------------------------------------------------------------------------
  // The browser

  /** No control on this page is ever disabled. */
  datatype Action = EditName(value: string) | EditMessage(value: string) | Send(isPrompt: bool)

  datatype Event =
    | User(action: Action)
    | Current(event: ChatClient.SocketEvent)
    | TimerFired

  function Act(p: Page, a: Action): Page {
    match a
    case EditName(v) => p.(nameInput := v)
    case EditMessage(v) => p.(messageInput := v)
    case Send(isPrompt) => SendMessage(p, isPrompt)
  }

  /** There is no `onerror` handler: an error only moves the socket towards its close. */
  function Deliver(p: Page, ev: ChatClient.SocketEvent): Page {
    match ev
    case OpenEvent => OnOpen(p.(socket := Open))
    case MessageEvent(f) => OnMessage(p, f)
    case ErrorEvent => p.(socket := Failed)
    case CloseEvent(_) => OnClose(p.(socket := Closed))
  }

  function Step(p: Page, e: Event): Page {
    match e
    case User(a) => Act(p, a)
    case Current(ev) => if ChatClient.CanDeliver(p.socket, ev) then Deliver(p, ev) else p
    case TimerFired => if p.pending > 0 then Connect(p.(pending := p.pending - 1)) else p
  }

  function Run(p: Page, events: seq<Event>): Page
    decreases |events|
  {
    if events == [] then p else Run(Step(p, events[0]), events[1..])
  }

  /** The page after `window.onload = myConnect`. */
  function Loaded(): Page {
    Connect(Page("", "", "", NoSocket, 0, [], [], []))
  }

  // ---------------------------------------------------------------------------------------
  // What every reachable page satisfies

  /** At most one timer is ever waiting, and only while the socket is closed, so there is never
      more than one connection attempt under way; every wait is three seconds; the latched name
      is trimmed. */
  predicate Inv(p: Page) {
    && p.pending <= 1
    && (p.pending == 1 ==> p.socket == Closed)
    && p.socket != NoSocket
    && (forall k :: 0 <= k < |p.delays| ==> p.delays[k] == RetryWait)
    && Trimmed(p.name)
  }

  lemma SendInv(p: Page, isPrompt: bool)
    requires Inv(p)
    ensures Inv(SendMessage(p, isPrompt))
  {
  }

  lemma StepInv(p: Page, e: Event)
    requires Inv(p)
    ensures Inv(Step(p, e))
  {
    match e
    case User(a) =>
      if a.Send? {
        SendInv(p, a.isPrompt);
      }
    case Current(ev) =>
      if ChatClient.CanDeliver(p.socket, ev) && ev.CloseEvent? {
        var r := OnClose(p.(socket := Closed));
        assert r.delays == p.delays + [RetryWait];
      }
    case TimerFired =>
  }

  lemma {:induction false} RunInv(p: Page, events: seq<Event>)
    requires Inv(p)
    ensures Inv(Run(p, events))
    decreases |events|
  {
    if events != [] {
      StepInv(p, events[0]);
      RunInv(Step(p, events[0]), events[1..]);
    }
  }

  lemma ReachableInv(events: seq<Event>)
    ensures Inv(Run(Loaded(), events))
  {
    assert Trimmed("");
    RunInv(Loaded(), events);
  }

  // ---------------------------------------------------------------------------------------
  // The name latch

  /** Once set, the name never changes; while unset, only a send on an open socket sets it, to
      the trimmed name field. */
  lemma NameLatched(p: Page, e: Event)
    ensures p.name != "" ==> Step(p, e).name == p.name
    ensures Step(p, e).name != p.name ==>
      p.name == "" && IsOpen(p.socket) && e.User? && e.action.Send?
      && Step(p, e).name == Trim(p.nameInput)
  {
    match e
    case User(a) =>
    case Current(ev) =>
      if ChatClient.CanDeliver(p.socket, ev) {
        match ev
        case OpenEvent =>
        case MessageEvent(f) =>
        case ErrorEvent =>
        case CloseEvent(_) =>
      }
    case TimerFired =>
  }

  /** Whatever happens afterwards, a name once set stays. */
  lemma {:induction false} NameStays(p: Page, events: seq<Event>)
    requires p.name != ""
    ensures Run(p, events).name == p.name
    decreases |events|
  {
    if events != [] {
      NameLatched(p, events[0]);
      NameStays(Step(p, events[0]), events[1..]);
    }
  }

  // ---------------------------------------------------------------------------------------
  // Sending

  /** A frame is sent exactly when the socket is open and both the (latched) name and the
      trimmed message are non-empty; it is the JSON of that name and of the message, prefixed
      with "[LLM] " exactly for a prompt, and the page shows it under its own name. */
  lemma SendBehaviour(p: Page, isPrompt: bool)
    ensures var r := SendMessage(p, isPrompt);
      var name := if p.name == "" then Trim(p.nameInput) else p.name;
      var msg := Trim(p.messageInput);
      && (|r.sent| > |p.sent| <==> IsOpen(p.socket) && name != "" && msg != "")
      && (IsOpen(p.socket) && name != "" && msg != "" ==>
            && r.sent == p.sent + [ClientJson(name, (if isPrompt then "[LLM] " else "") + msg)]
            && r.log == p.log + [Bubble(Named(name, Prefix(isPrompt) + msg), true)]
            && r.messageInput == "")
      && (!(IsOpen(p.socket) && name != "" && msg != "") ==>
            r.sent == p.sent && r.log == p.log && r.messageInput == p.messageInput)
  {
    if IsOpen(p.socket) && Trim(if p.name == "" then Trim(p.nameInput) else p.name) != "" {
    }
  }

  // ---------------------------------------------------------------------------------------
  // Receiving

  /** What the page shows for a received frame: nothing for text that is not a JSON object; a
      system line for a truthy `system`; otherwise (no `system`, or a falsy one) a message bubble
      with the sender and text exactly when `username` and `message` are both truthy and
      `username` is not the page's own name, and nothing at all in every other case. */
  lemma ReceiveRules(p: Page, f: Frame)
    ensures !f.parsed.Object? ==> OnMessage(p, f) == p
    ensures f.parsed.Object? && "system" in f.parsed.fields && Truthy(f.parsed.fields["system"]) ==>
      OnMessage(p, f) == p.(log := p.log + [SystemLine(FromServer(AsText(f.parsed.fields["system"])))])
    ensures f.parsed.Object? && !("system" in f.parsed.fields && Truthy(f.parsed.fields["system"])) ==>
      var fs := f.parsed.fields;
      var shown := "username" in fs && Truthy(fs["username"]) && "message" in fs && Truthy(fs["message"])
                   && fs["username"] != JString(p.name);
      && (shown ==>
            OnMessage(p, f) == p.(log := p.log + [Bubble(Named(AsText(fs["username"]), AsText(fs["message"])), false)]))
      && (!shown ==> OnMessage(p, f) == p)
  {
  }

  // ---------------------------------------------------------------------------------------
  // Reconnecting

  /** Every close, clean or not and however many came before, schedules one more attempt after
      three seconds; when the timer fires the page connects again. */
  lemma AlwaysRetries(p: Page, wasClean: bool)
    requires Inv(p) && ChatClient.CanDeliver(p.socket, ChatClient.CloseEvent(wasClean))
    ensures var r := Step(p, Current(ChatClient.CloseEvent(wasClean)));
      && r.socket == Closed && r.pending == 1 && r.delays == p.delays + [RetryWait]
      && Step(r, TimerFired).socket == Connecting && Step(r, TimerFired).pending == 0
  {
  }

  // ---------------------------------------------------------------------------------------
  // The server's reading of this page's frames

  lemma SingleLineConcat(a: string, b: string)
    requires NoLineTerminator(a) && NoLineTerminator(b)
    ensures NoLineTerminator(a + b)
  {
    forall i | 0 <= i < |a + b| ensures !IsLineTerminator((a + b)[i]) {
      if i >= |a| {
        assert (a + b)[i] == b[i - |a|];
      }
    }
  }

  /** The text after the first colon of `ClientJson(name, msg)`. */
  function JsonTail(name: string, msg: string): string {
    Quote(name) + ",\"myMessage\":" + Quote(msg) + "}"
  }

  /** The text before it. */
  const JsonKey: string := "{\"myUserName\""

  lemma ClientJsonSplits(name: string, msg: string)
    ensures ClientJson(name, msg) == JsonKey + ":" + "" + JsonTail(name, msg)
  {
  }

  lemma QuotedSingleLine(s: string)
    requires forall i :: 0 <= i < |s| ==> s[i] != '\U{2028}' && s[i] != '\U{2029}'
    ensures NoLineTerminator(Quote(s))
  {
    var q := Quote(s);
    forall i | 0 <= i < |q| ensures !IsLineTerminator(q[i]) {
      if 0 < i < |q| - 1 {
        assert q[i] == QuoteBody(s)[i - 1];
      }
    }
  }

  /** The relay in the same file splits the JSON text at its first colon: the sender becomes the
      text `{"myUserName"`, and the message the rest of the JSON text, provided neither the name
      nor the message holds U+2028 or U+2029 (which `JSON.stringify` leaves unescaped). */
  lemma ServerMisreadsJson(name: string, msg: string)
    requires forall i :: 0 <= i < |name| ==> name[i] != '\U{2028}' && name[i] != '\U{2029}'
    requires forall i :: 0 <= i < |msg| ==> msg[i] != '\U{2028}' && msg[i] != '\U{2029}'
    ensures DecodeRelay(ClientJson(name, msg)) == Envelope(JsonKey, JsonTail(name, msg))
  {
    var rest := JsonTail(name, msg);
    QuotedSingleLine(name);
    QuotedSingleLine(msg);
    SingleLineConcat(Quote(name), ",\"myMessage\":");
    SingleLineConcat(Quote(name) + ",\"myMessage\":", Quote(msg));
    SingleLineConcat(Quote(name) + ",\"myMessage\":" + Quote(msg), "}");
    ClientJsonSplits(name, msg);
    MatchComplete(JsonKey, "", rest);
    assert TrimStart(rest) == rest;
    assert Trimmed(JsonKey) && Trimmed(rest);
    TrimOfTrimmed(JsonKey);
    TrimOfTrimmed(rest);
  }

  /** A page shows a relayed object from anyone else as that sender and message. */
  lemma ShowsOthersEnvelope(p: Page, e: Envelope)
    requires e.username != "" && e.message != "" && e.username != p.name
    ensures OnMessage(p, EnvelopeFrame(e)).log == p.log + [Bubble(Named(e.username, e.message), false)]
  {
    var fs := EnvelopeFrame(e).parsed.fields;
    assert fs["username"] == JString(e.username) && fs["message"] == JString(e.message);
    assert "system" !in fs;
  }

  /** So every other page of this kind shows a message from such a page under the name
      `{"myUserName"`, never under the sender's name. */
  lemma OthersSeeJsonKeyAsName(p: Page, name: string, msg: string)
    requires forall i :: 0 <= i < |name| ==> name[i] != '\U{2028}' && name[i] != '\U{2029}'
    requires forall i :: 0 <= i < |msg| ==> msg[i] != '\U{2028}' && msg[i] != '\U{2029}'
    requires p.name != JsonKey
    ensures OnMessage(p, EnvelopeFrame(DecodeRelay(ClientJson(name, msg)))).log
            == p.log + [Bubble(Named(JsonKey, JsonTail(name, msg)), false)]
  {
    ServerMisreadsJson(name, msg);
    assert |JsonTail(name, msg)| >= |Quote(name)| >= 2;
    ShowsOthersEnvelope(p, Envelope(JsonKey, JsonTail(name, msg)));
  }
}

/** The script of backups/node-server14-BAD.js as it runs. */
module Server14Page {
  import opened Text
  import opened Codec
  import opened Session
  import Server14

  class ChatPage {
    var nameInput: string
    var messageInput: string
    var name: string
    var socket: SocketState
    var pending: nat
    var delays: seq<int>
    var sent: seq<string>
    var log: seq<Line>

    function Snapshot(): Server14.Page
      reads this
    {
      Server14.Page(nameInput, messageInput, name, socket, pending, delays, sent, log)
    }

    /** The page after `window.onload`. */
    constructor ()
      ensures Snapshot() == Server14.Loaded()
    {
      nameInput, messageInput, name := "", "", "";
      socket, pending := NoSocket, 0;
      delays, sent, log := [], [], [];
      new;
      Connect();
    }

    method Connect()
      modifies this
      ensures Snapshot() == Server14.Connect(old(Snapshot()))
    {
      socket := Connecting;
    }

    method OnOpen()
      modifies this
      ensures Snapshot() == Server14.OnOpen(old(Snapshot()))
    {
      log := log + [SystemLine(ConnectedToServer)];
    }

    method OnMessage(f: Frame)
      modifies this
      ensures Snapshot() == Server14.OnMessage(old(Snapshot()), f)
    {
      if f.parsed.Object? {
        var data := f.parsed.fields;
        if "system" in data && Truthy(data["system"]) {
          log := log + [SystemLine(FromServer(AsText(data["system"])))];
        } else if "username" in data && Truthy(data["username"]) && "message" in data && Truthy(data["message"]) {
          if data["username"] != JString(name) {
            log := log + [Bubble(Named(AsText(data["username"]), AsText(data["message"])), false)];
          }
        }
      }
    }

    method OnClose()
      modifies this
      ensures Snapshot() == Server14.OnClose(old(Snapshot()))
    {
      log := log + [SystemLine(ClosedRetrying)];
      pending := pending + 1;
      delays := delays + [Server14.RetryWait];
    }

    method SendMessage(isPrompt: bool)
      modifies this
      ensures Snapshot() == Server14.SendMessage(old(Snapshot()), isPrompt)
    {
      if !IsOpen(socket) {
        return;
      }
      if name == "" {
        name := Trim(nameInput);
      }
      var message := Trim(messageInput);
      if name != "" && message != "" {
        var prefix := "";
        if isPrompt {
          prefix := LlmPrefix;
        }
        message := prefix + message;
        var json := Server14.ClientJson(name, message);
        sent := sent + [json];
        log := log + [Bubble(Named(name, message), true)];
        messageInput := "";
      }
    }
  }
}
