/** The chat page the main server serves (the client script of nodejs/node-server.js): the
    readiness gate on the Connect button, connecting and locking the identity fields, the bounded
    exponential reconnection, and sending chat messages and prompts.

    The page's globals and the flags its handlers set form a `Page`. Each handler is a function
    from page to page, `Step` is the browser delivering one event to the handler wired to it,
    and `ChatPage` is the page as the script runs it, one method per handler, each proved to
    change the page as its function says. */
module ChatClient {
  import opened Text
  import opened Codec
  import opened Session

  datatype Page = Page(
    // the values of the form controls
    nameInput: string,
    selectValue: string,
    customInput: string,
    messageInput: string,
    // `myCustomInput.style.display` is 'block'
    customShown: bool,
    // the script's globals
    serverUrl: string,
    userName: string,
    retryCount: nat,
    // `myConnectButton.disabled`
    connectDisabled: bool,
    // chat button, prompt button and message input, which the handlers always set together
    sendDisabled: bool,
    // name input, select and custom input, which the handlers always set together
    locked: bool,
    // `myWebSocket`, the sockets it no longer refers to that will still deliver a close
    // event, and the reconnection timers that have not fired yet
    socket: SocketState,
    stale: nat,
    pending: nat,
    // every reconnection delay scheduled, every close code passed to `close()`,
    // every frame sent, and the chat log
    delays: seq<int>,
    closeCodes: seq<int>,
    sent: seq<string>,
    log: seq<Line>)

  /** The address `myHandleSelectChange` derives from the select box and the custom input. */
  function SelectUrl(value: string, custom: string): string {
    if value == "custom" then Trim(custom)
    else if value != "" then value
    else ""
  }

  /** `myHandleSelectChange`. */
  function HandleSelectChange(p: Page): Page {
    if p.selectValue == "custom" then p.(customShown := true, serverUrl := Trim(p.customInput))
    else if p.selectValue != "" then p.(customShown := false, serverUrl := p.selectValue)
    else p.(customShown := false, serverUrl := "")
  }

  /** `myHandleCustomInputChange`. */
  function HandleCustomInputChange(p: Page): Page {
    p.(serverUrl := Trim(p.customInput))
  }

  /** `myCheckConnectionReadiness`. */
  function CheckConnectionReadiness(p: Page): Page {
    p.(connectDisabled := !(Trim(p.nameInput) != "" && p.serverUrl != ""))
  }

  /** `myInitWebSocket`. `constructs` says whether `new WebSocket(myServerUrl)` returns a socket
      (it throws, for instance, on a malformed address). */
  function InitWebSocket(p: Page, constructs: bool): Page {
    var p1 := p.(userName := Trim(p.nameInput));
    if p1.serverUrl == "" || p1.userName == "" then Notify(p1, ConnectPrompt)
    else CreateSocket(DropSocket(LockControls(p1)), constructs)
  }

  /** `myDisplaySystemMessage`: one more system line in the log. */
  function Notify(p: Page, n: Notice): Page {
    p.(log := p.log + [SystemLine(n)])
  }

  /** Disables the name input, the select box, the custom input and Connect. */
  function LockControls(p: Page): Page {
    p.(locked := true, connectDisabled := true)
  }

  /** `myWebSocket.close(1000, 'Reconnecting')`, for a socket that is not yet CLOSED. */
  function DropSocket(p: Page): Page {
    if NotClosed(p.socket) then p.(socket := Closing, closeCodes := p.closeCodes + [NormalClosure])
    else p
  }

  /** The `try`/`catch` around `new WebSocket`: the old socket, if it will still deliver a close
      event, goes on as a stale one; if construction throws, Connect is re-enabled and the send
      controls disabled. */
  function CreateSocket(p: Page, constructs: bool): Page {
    if constructs then
      p.(socket := Connecting, stale := if CloseDue(p.socket) then p.stale + 1 else p.stale)
    else
      p.(connectDisabled := false, sendDisabled := true)
  }

  /** `onopen`. */
  function OnOpen(p: Page): Page {
    p.(sendDisabled := false, retryCount := 0, log := p.log + [SystemLine(Welcome(p.userName))])
  }

  /** `onmessage`: `myDisplayMessage(data, 'other')`. */
  function OnMessage(p: Page, f: Frame): Page {
    p.(log := p.log + [Bubble(DisplayOther(f), false)])
  }

  /** `onerror`. */
  function OnError(p: Page): Page {
    p.(sendDisabled := true)
  }

  /** `onclose`. */
  function OnClose(p: Page, wasClean: bool): Page {
    var q := p.(sendDisabled := true, locked := false);
    if wasClean then q.(connectDisabled := false) else HandleReconnect(q)
  }

  /** `myHandleReconnect` up to its `await`: below the limit, count the attempt and set a timer
      for `2^count * 1000` ms; at the limit, give up and re-enable Connect. */
  function HandleReconnect(p: Page): Page {
    if p.retryCount < MaxRetries then
      var count := p.retryCount + 1;
      p.(retryCount := count, pending := p.pending + 1, delays := p.delays + [RetryDelay(count)])
    else
      p.(connectDisabled := false)
  }

  /** The rest of `myHandleReconnect`, when one of its timers fires: reconnect if a name and an
      address are known, otherwise jump to the limit and give up. */
  function ResumeReconnect(p: Page, constructs: bool): Page
    requires p.pending > 0
  {
    var q := p.(pending := p.pending - 1);
    if q.userName != "" && q.serverUrl != "" then InitWebSocket(q, constructs)
    else HandleReconnect(q.(retryCount := MaxRetries))
  }

  /** `mySendMessage(isPrompt)`. */
  function SendMessage(p: Page, isPrompt: bool): Page {
    var msg := Trim(p.messageInput);
    if msg == "" then p
    else
      var body := Prefix(isPrompt) + msg;
      if IsOpen(p.socket) then Transmit(p, WireForm(p.userName, body), body)
      else Notify(p, NotConnected)
  }

  /** `send(frame)` on the open socket, then the local echo of `body` and the cleared input. */
  function Transmit(p: Page, frame: string, body: string): Page {
    p.(sent := p.sent + [frame], log := p.log + [Bubble(Raw(body), true)], messageInput := "")
  }

  // ---------------------------------------------------------------------------------------
  // The browser

  /** What the user can do on the page. */
  datatype Action =
    | EditName(value: string)
    | ChooseServer(value: string)
    | EditCustom(value: string)
    | ClickConnect(constructs: bool)
    | EditMessage(value: string)
    | SendChat
    | SendPrompt

  /** What a socket can deliver. */
  datatype SocketEvent = OpenEvent | MessageEvent(frame: Frame) | ErrorEvent | CloseEvent(wasClean: bool)

  /** What the browser can deliver to the page: a user action, an event of `myWebSocket`, an
      event of a socket it has replaced (whose handlers still refer to the page's globals), or a
      reconnection timer. */
  datatype Event =
    | User(action: Action)
    | Current(event: SocketEvent)
    | Stale(event: SocketEvent)
    | TimerFired(constructs: bool)

  /** Disabled or hidden controls deliver nothing. */
  predicate ActionEnabled(p: Page, a: Action) {
    match a
    case EditName(_) => !p.locked
    case ChooseServer(_) => !p.locked
    case EditCustom(_) => !p.locked && p.customShown
    case ClickConnect(_) => !p.connectDisabled
    case EditMessage(_) => !p.sendDisabled
    case SendChat => !p.sendDisabled
    case SendPrompt => !p.sendDisabled
  }

  /** The events a socket in state `s` can still deliver. */
  predicate CanDeliver(s: SocketState, ev: SocketEvent) {
    match ev
    case OpenEvent => s == Connecting
    case MessageEvent(_) => s == Open
    case ErrorEvent => NotClosed(s)
    case CloseEvent(_) => CloseDue(s)
  }

  /** A user action, dispatched as the page's markup wires it. */
  function Act(p: Page, a: Action): Page {
    match a
    case EditName(v) => CheckConnectionReadiness(p.(nameInput := v))
    case ChooseServer(v) => CheckConnectionReadiness(HandleSelectChange(p.(selectValue := v)))
    case EditCustom(v) => CheckConnectionReadiness(HandleCustomInputChange(p.(customInput := v)))
    case ClickConnect(c) => InitWebSocket(p, c)
    case EditMessage(v) => p.(messageInput := v)
    case SendChat => SendMessage(p, false)
    case SendPrompt => SendMessage(p, true)
  }

  /** An event of `myWebSocket`: the browser updates `readyState`, then runs the handler. */
  function Deliver(p: Page, ev: SocketEvent): Page {
    match ev
    case OpenEvent => OnOpen(p.(socket := Open))
    case MessageEvent(f) => OnMessage(p, f)
    case ErrorEvent => OnError(p.(socket := Failed))
    case CloseEvent(wasClean) => OnClose(p.(socket := Closed), wasClean)
  }

  /** An event of a replaced socket: only its error and close events can still come, and they run
      the same handlers. */
  function DeliverStale(p: Page, ev: SocketEvent): Page
    requires p.stale > 0
  {
    match ev
    case CloseEvent(wasClean) => OnClose(p.(stale := p.stale - 1), wasClean)
    case _ => OnError(p)
  }

  function Step(p: Page, e: Event): Page {
    match e
    case User(a) => if ActionEnabled(p, a) then Act(p, a) else p
    case Current(ev) => if CanDeliver(p.socket, ev) then Deliver(p, ev) else p
    case Stale(ev) => if p.stale > 0 && (ev.ErrorEvent? || ev.CloseEvent?) then DeliverStale(p, ev) else p
    case TimerFired(c) => if p.pending > 0 then ResumeReconnect(p, c) else p
  }

  function Run(p: Page, events: seq<Event>): Page
    decreases |events|
  {
    if events == [] then p else Run(Step(p, events[0]), events[1..])
  }

  /** The page as served, before `DOMContentLoaded`. */
  function Initial(): Page {
    Page("", "", "", "", false, "", "", 0, true, true, false, NoSocket, 0, 0, [], [], [], [])
  }

  /** The page once `DOMContentLoaded` has run `myHandleSelectChange` and the readiness check. */
  function Loaded(): Page {
    CheckConnectionReadiness(HandleSelectChange(Initial()))
  }

  // ---------------------------------------------------------------------------------------
  // What every reachable page satisfies

  predicate Inv(p: Page) {
    && p.retryCount <= MaxRetries
    && AllBackoff(p.delays)
    && p.customShown == (p.selectValue == "custom")
    && p.serverUrl == SelectUrl(p.selectValue, p.customInput)
    && Trimmed(p.userName)
    && (p.locked ==> p.userName == Trim(p.nameInput) && p.userName != "" && p.serverUrl != "")
    && (forall k :: 0 <= k < |p.closeCodes| ==> p.closeCodes[k] == NormalClosure)
  }

  /** The loaded page satisfies the invariant, with Connect disabled and nothing shown. */
  lemma LoadedInv()
    ensures Inv(Loaded())
    ensures Loaded().connectDisabled && !Loaded().customShown && Loaded().serverUrl == ""
  {
    assert Trimmed("");
  }

  lemma InitInv(p: Page, constructs: bool)
    requires Inv(p)
    ensures Inv(InitWebSocket(p, constructs))
  {
    var p1 := p.(userName := Trim(p.nameInput));
    if p1.serverUrl != "" && p1.userName != "" {
      var p2 := p1.(locked := true, connectDisabled := true);
      assert Inv(p2);
      DropInv(p2);
    }
  }

  lemma DropInv(p: Page)
    requires Inv(p)
    ensures Inv(DropSocket(p))
  {
    var r := DropSocket(p);
    assert r.closeCodes == p.closeCodes || r.closeCodes == p.closeCodes + [NormalClosure];
  }

  lemma ReconnectInv(p: Page)
    requires Inv(p)
    ensures Inv(HandleReconnect(p))
  {
    if p.retryCount < MaxRetries {
      RetryDelayBounds(p.retryCount + 1);
    }
  }

  lemma CloseInv(p: Page, wasClean: bool)
    requires Inv(p)
    ensures Inv(OnClose(p, wasClean))
  {
    ReconnectInv(p.(sendDisabled := true, locked := false));
  }

  lemma ResumeInv(p: Page, constructs: bool)
    requires Inv(p) && p.pending > 0
    ensures Inv(ResumeReconnect(p, constructs))
  {
    var q := p.(pending := p.pending - 1);
    if q.userName != "" && q.serverUrl != "" {
      InitInv(q, constructs);
    } else {
      ReconnectInv(q.(retryCount := MaxRetries));
    }
  }

  lemma ActInv(p: Page, a: Action)
    requires Inv(p) && ActionEnabled(p, a)
    ensures Inv(Act(p, a))
  {
    match a
    case EditName(_) =>
    case ChooseServer(v) =>
      if v == "custom" {
      } else if v != "" {
      } else {
      }
    case EditCustom(_) =>
    case EditMessage(_) =>
    case ClickConnect(c) => InitInv(p, c);
    case SendChat => SendInv(p, false);
    case SendPrompt => SendInv(p, true);
  }

  lemma SendInv(p: Page, isPrompt: bool)
    requires Inv(p)
    ensures Inv(SendMessage(p, isPrompt))
  {
    if Trim(p.messageInput) == "" {
    } else if IsOpen(p.socket) {
    } else {
    }
  }

  lemma DeliverInv(p: Page, ev: SocketEvent)
    requires Inv(p)
    ensures Inv(Deliver(p, ev))
  {
    match ev
    case OpenEvent =>
    case MessageEvent(_) =>
    case ErrorEvent =>
    case CloseEvent(wasClean) => CloseInv(p.(socket := Closed), wasClean);
  }

  lemma DeliverStaleInv(p: Page, ev: SocketEvent)
    requires Inv(p) && p.stale > 0
    ensures Inv(DeliverStale(p, ev))
  {
    if ev.CloseEvent? {
      CloseInv(p.(stale := p.stale - 1), ev.wasClean);
    }
  }

  lemma StepInv(p: Page, e: Event)
    requires Inv(p)
    ensures Inv(Step(p, e))
  {
    match e
    case User(a) =>
      if ActionEnabled(p, a) {
        ActInv(p, a);
      }
    case Current(ev) => DeliverInv(p, ev);
    case Stale(ev) =>
      if p.stale > 0 {
        DeliverStaleInv(p, ev);
      }
    case TimerFired(c) =>
      if p.pending > 0 {
        ResumeInv(p, c);
      }
  }

  /** Every page the browser can reach from the loaded page keeps the invariant: the retry count
      never exceeds `myMaxRetries`, every scheduled wait is 2, 4, 8, 16 or 32 seconds, the
      address always follows the select box, and while the fields are locked the name in use is
      the trimmed, non-empty name field. */
  lemma {:induction false} RunInv(p: Page, events: seq<Event>)
    requires Inv(p)
    ensures Inv(Run(p, events))
    decreases |events|
  {
    if events != [] {
      StepInv(p, events[0]);
      RunInv(Step(p, events[0]), events[1..]);
    }
  }

  lemma ReachableInv(events: seq<Event>)
    ensures Inv(Run(Loaded(), events))
  {
    LoadedInv();
    RunInv(Loaded(), events);
  }

  // ---------------------------------------------------------------------------------------
  // The readiness gate

  /** After any edit of the name, the select box or the custom address, Connect is enabled
      exactly when the trimmed name and the address derived from the select box are non-empty. */
  lemma GateAfterEdit(p: Page, a: Action)
    requires Inv(p) && ActionEnabled(p, a)
    requires a.EditName? || a.ChooseServer? || a.EditCustom?
    ensures var r := Act(p, a);
      r.serverUrl == SelectUrl(r.selectValue, r.customInput) &&
      (!r.connectDisabled <==> Trim(r.nameInput) != "" && r.serverUrl != "")
  {
    ActInv(p, a);
  }

  /** Connecting with an empty trimmed name or no address only records the trimmed name and adds
      an error line: nothing is locked, closed or opened. */
  lemma ConnectRejected(p: Page, constructs: bool)
    requires Trim(p.nameInput) == "" || p.serverUrl == ""
    ensures InitWebSocket(p, constructs)
            == p.(userName := Trim(p.nameInput), log := p.log + [SystemLine(ConnectPrompt)])
  {
  }

  /** Connecting with a name and an address locks the fields, disables Connect, closes a socket
      that is not yet closed with code 1000, and opens a new socket. The retry count is left as
      it is. */
  lemma ConnectStarts(p: Page)
    requires Trim(p.nameInput) != "" && p.serverUrl != ""
    ensures var r := InitWebSocket(p, true);
      && r.locked && r.connectDisabled && r.socket == Connecting
      && r.userName == Trim(p.nameInput) && r.retryCount == p.retryCount
      && r.closeCodes == (if NotClosed(p.socket) then p.closeCodes + [NormalClosure] else p.closeCodes)
      && r.stale == (if CloseDue(p.socket) then p.stale + 1 else p.stale)
      && r.sendDisabled == p.sendDisabled && r.sent == p.sent && r.log == p.log
  {
  }

  /** When `new WebSocket` throws, Connect is re-enabled and the send controls disabled, but the
      name and address fields stay locked, and `myWebSocket` is still the old socket. */
  lemma ConstructionFailureKeepsLocked(p: Page)
    requires Trim(p.nameInput) != "" && p.serverUrl != ""
    ensures var r := InitWebSocket(p, false);
      && r.locked && !r.connectDisabled && r.sendDisabled
      && r.socket == (if NotClosed(p.socket) then Closing else p.socket)
  {
  }

  // ---------------------------------------------------------------------------------------
  // Opening, closing and reconnecting

  /** Open resets the retry count and enables the send controls. */
  lemma OpenResets(p: Page)
    requires p.socket == Connecting
    ensures var r := Step(p, Current(OpenEvent));
      r.retryCount == 0 && !r.sendDisabled && r.socket == Open && r.locked == p.locked
  {
  }

  /** Every close disables the send controls and unlocks the fields. A clean close re-enables
      Connect and schedules nothing; an unclean close goes into the reconnection policy. */
  lemma CloseEffects(p: Page, wasClean: bool)
    ensures var r := OnClose(p, wasClean);
      && r.sendDisabled && !r.locked
      && (wasClean ==> !r.connectDisabled && r.pending == p.pending && r.retryCount == p.retryCount)
      && (!wasClean ==> r == HandleReconnect(p.(sendDisabled := true, locked := false)))
  {
  }

  /** Below the limit a reconnection counts one more attempt and waits `2^count` seconds, a wait
      of 2 to 32 seconds, twice the previous one. At the limit nothing is scheduled, the count
      stays, and Connect is re-enabled. */
  lemma ReconnectPolicy(p: Page)
    requires p.retryCount <= MaxRetries
    ensures var r := HandleReconnect(p);
      && (p.retryCount < MaxRetries ==>
            && r.retryCount == p.retryCount + 1 && r.pending == p.pending + 1
            && r.delays == p.delays + [RetryDelay(r.retryCount)]
            && IsBackoffDelay(RetryDelay(r.retryCount))
            && (r.retryCount > 1 ==> RetryDelay(r.retryCount) == 2 * RetryDelay(p.retryCount)))
      && (p.retryCount == MaxRetries ==>
            r == p.(connectDisabled := false))
  {
    if p.retryCount < MaxRetries {
      RetryDelayBounds(p.retryCount + 1);
    }
  }

  /** When a timer fires and the name or the address has been cleared in the meantime (a failed
      Connect click sets the name to ''), the policy jumps to the limit: no new socket, Connect
      re-enabled. */
  lemma ResumeWithoutIdentity(p: Page, constructs: bool)
    requires p.pending > 0 && (p.userName == "" || p.serverUrl == "")
    ensures ResumeReconnect(p, constructs)
            == p.(pending := p.pending - 1, retryCount := MaxRetries, connectDisabled := false)
  {
  }

  /** When a timer fires with a name and an address, the page connects again. */
  lemma ResumeReconnects(p: Page, constructs: bool)
    requires p.pending > 0 && p.userName != "" && p.serverUrl != ""
    ensures ResumeReconnect(p, constructs) == InitWebSocket(p.(pending := p.pending - 1), constructs)
  {
  }

  // ---------------------------------------------------------------------------------------
  // One failed attempt as the browser delivers it

  /** A page that is connecting or connected under a name and an address it can reconnect to. */
  predicate Retrying(p: Page) {
    && (p.socket == Connecting || p.socket == Open)
    && p.pending == 0
    && p.userName == Trim(p.nameInput) && p.userName != "" && p.serverUrl != ""
  }

  /** One failed attempt: the count goes up by one, the next wait is scheduled and has fired, and
      the page is connecting again. */
  lemma OneFailedAttempt(p: Page)
    requires Retrying(p) && p.retryCount < MaxRetries
    ensures var r := Run(p, [Current(CloseEvent(false)), TimerFired(true)]);
      && Retrying(r) && r.socket == Connecting
      && r.retryCount == p.retryCount + 1
      && r.delays == p.delays + [RetryDelay(p.retryCount + 1)]
      && r.nameInput == p.nameInput && r.serverUrl == p.serverUrl
  {
    var q := Step(p, Current(CloseEvent(false)));
    assert q == HandleReconnect(p.(socket := Closed, sendDisabled := true, locked := false));
    var r := Step(q, TimerFired(true));
    assert r == InitWebSocket(q.(pending := 0), true);
    assert [Current(CloseEvent(false)), TimerFired(true)][1..] == [TimerFired(true)];
  }

  // ---------------------------------------------------------------------------------------
  // Sending

  /** A message that is empty once trimmed changes nothing. Otherwise the frame is the name, ": ",
      the "[LLM] " prefix exactly for a prompt, and the trimmed message; it is sent only on an
      open socket, which also echoes it locally and clears the input; on any other socket
      nothing is sent, the input is kept and an error line is added. */
  lemma SendBehaviour(p: Page, isPrompt: bool)
    ensures var r := SendMessage(p, isPrompt);
      var msg := Trim(p.messageInput);
      && (msg == "" ==> r == p)
      && (msg != "" && IsOpen(p.socket) ==>
            && r.sent == p.sent + [p.userName + ": " + (if isPrompt then "[LLM] " else "") + msg]
            && r.messageInput == "" && r.log == p.log + [Bubble(Raw(Prefix(isPrompt) + msg), true)])
      && (msg != "" && !IsOpen(p.socket) ==>
            r == p.(log := p.log + [SystemLine(NotConnected)]))
  {
    var msg := Trim(p.messageInput);
    if msg != "" && IsOpen(p.socket) {
      assert WireForm(p.userName, Prefix(isPrompt) + msg)
             == p.userName + ": " + (if isPrompt then "[LLM] " else "") + msg;
    }
  }

  /** What a page sends decodes, at the relay, to its name and to the prefixed message, provided
      the name has no colon and the message is a single line. */
  lemma SentFrameDecodes(p: Page, isPrompt: bool)
    requires Inv(p) && IsOpen(p.socket)
    requires p.userName != "" && ':' !in p.userName
    requires Trim(p.messageInput) != "" && NoLineTerminator(Trim(p.messageInput))
    ensures var r := SendMessage(p, isPrompt);
      |r.sent| == |p.sent| + 1 &&
      Codec.DecodeRelay(r.sent[|p.sent|]) == Envelope(p.userName, Prefix(isPrompt) + Trim(p.messageInput))
  {
    var msg := Trim(p.messageInput);
    PrefixedBody(isPrompt, msg);
    WireRoundTrip(p.userName, Prefix(isPrompt) + msg);
  }

}

/** The main page's script as it runs: the globals and control flags are fields, and each handler
    is a method proved to change them as the corresponding `ChatClient` function says. */
module ChatClientPage {
  import opened Text
  import opened Codec
  import opened Session
  import ChatClient

  class ChatPage {
    var nameInput: string
    var selectValue: string
    var customInput: string
    var messageInput: string
    var customShown: bool
    var serverUrl: string
    var userName: string
    var retryCount: nat
    var connectDisabled: bool
    var sendDisabled: bool
    var locked: bool
    var socket: SocketState
    var stale: nat
    var pending: nat
    var delays: seq<int>
    var closeCodes: seq<int>
    var sent: seq<string>
    var log: seq<Line>

    function Snapshot(): ChatClient.Page
      reads this
    {
      ChatClient.Page(nameInput, selectValue, customInput, messageInput, customShown, serverUrl, userName,
           retryCount, connectDisabled, sendDisabled, locked, socket, stale, pending, delays,
           closeCodes, sent, log)
    }

    /** The page as served, after `DOMContentLoaded`. */
    constructor ()
      ensures Snapshot() == ChatClient.Loaded()
    {
      nameInput, selectValue, customInput, messageInput := "", "", "", "";
      customShown, serverUrl, userName, retryCount := false, "", "", 0;
      connectDisabled, sendDisabled, locked := true, true, false;
      socket, stale, pending := NoSocket, 0, 0;
      delays, closeCodes, sent, log := [], [], [], [];
      new;
      HandleSelectChange();
      CheckConnectionReadiness();
    }

    method HandleSelectChange()
      modifies this
      ensures Snapshot() == ChatClient.HandleSelectChange(old(Snapshot()))
    {
      var value := selectValue;
      if value == "custom" {
        customShown := true;
        serverUrl := Trim(customInput);
      } else if value != "" {
        customShown := false;
        serverUrl := value;
      } else {
        customShown := false;
        serverUrl := "";
      }
    }

    method HandleCustomInputChange()
      modifies this
      ensures Snapshot() == ChatClient.HandleCustomInputChange(old(Snapshot()))
    {
      serverUrl := Trim(customInput);
    }

    method CheckConnectionReadiness()
      modifies this
      ensures Snapshot() == ChatClient.CheckConnectionReadiness(old(Snapshot()))
    {
      var nameEntered := Trim(nameInput) != "";
      var serverReady := serverUrl != "";
      connectDisabled := !(nameEntered && serverReady);
    }

    method InitWebSocket(constructs: bool)
      modifies this
      ensures Snapshot() == ChatClient.InitWebSocket(old(Snapshot()), constructs)
    {
      userName := Trim(nameInput);
      if serverUrl == "" || userName == "" {
        Notify(ConnectPrompt);
        return;
      }
      LockControls();
      DropSocket();
      CreateSocket(constructs);
    }

    method Notify(n: Notice)
      modifies this
      ensures Snapshot() == ChatClient.Notify(old(Snapshot()), n)
    {
      log := log + [SystemLine(n)];
    }

    method LockControls()
      modifies this
      ensures Snapshot() == ChatClient.LockControls(old(Snapshot()))
    {
      locked := true;
      connectDisabled := true;
    }

    method DropSocket()
      modifies this
      ensures Snapshot() == ChatClient.DropSocket(old(Snapshot()))
    {
      if NotClosed(socket) {
        socket := Closing;
        closeCodes := closeCodes + [NormalClosure];
      }
    }

    method CreateSocket(constructs: bool)
      modifies this
      ensures Snapshot() == ChatClient.CreateSocket(old(Snapshot()), constructs)
    {
      if constructs {
        if CloseDue(socket) {
          stale := stale + 1;
        }
        socket := Connecting;
      } else {
        connectDisabled := false;
        sendDisabled := true;
      }
    }

    method OnOpen()
      modifies this
      ensures Snapshot() == ChatClient.OnOpen(old(Snapshot()))
    {
      sendDisabled := false;
      retryCount := 0;
      log := log + [SystemLine(Welcome(userName))];
    }

    method OnMessage(f: Frame)
      modifies this
      ensures Snapshot() == ChatClient.OnMessage(old(Snapshot()), f)
    {
      log := log + [Bubble(DisplayOther(f), false)];
    }

    method OnError()
      modifies this
      ensures Snapshot() == ChatClient.OnError(old(Snapshot()))
    {
      sendDisabled := true;
    }

    method OnClose(wasClean: bool)
      modifies this
      ensures Snapshot() == ChatClient.OnClose(old(Snapshot()), wasClean)
    {
      sendDisabled := true;
      locked := false;
      if wasClean {
        connectDisabled := false;
      } else {
        HandleReconnect();
      }
    }

    method HandleReconnect()
      modifies this
      ensures Snapshot() == ChatClient.HandleReconnect(old(Snapshot()))
    {
      if retryCount < MaxRetries {
        retryCount := retryCount + 1;
        var delay := RetryDelay(retryCount);
        pending := pending + 1;
        delays := delays + [delay];
      } else {
        connectDisabled := false;
      }
    }

    method ResumeReconnect(constructs: bool)
      requires pending > 0
      modifies this
      ensures Snapshot() == ChatClient.ResumeReconnect(old(Snapshot()), constructs)
    {
      TimerDone();
      if userName != "" && serverUrl != "" {
        InitWebSocket(constructs);
      } else {
        ExhaustRetries();
        HandleReconnect();
      }
    }

    /** A reconnection timer has fired. */
    method TimerDone()
      requires pending > 0
      modifies this
      ensures Snapshot() == old(Snapshot()).(pending := old(pending) - 1)
    {
      pending := pending - 1;
    }

    /** `myRetryCount = myMaxRetries`. */
    method ExhaustRetries()
      modifies this
      ensures Snapshot() == old(Snapshot()).(retryCount := MaxRetries)
    {
      retryCount := MaxRetries;
    }

    method SendChatMessage()
      modifies this
      ensures Snapshot() == ChatClient.SendMessage(old(Snapshot()), false)
    {
      SendMessage(false);
    }

    method SendLlmPrompt()
      modifies this
      ensures Snapshot() == ChatClient.SendMessage(old(Snapshot()), true)
    {
      SendMessage(true);
    }

    method SendMessage(isPrompt: bool)
      modifies this
      ensures Snapshot() == ChatClient.SendMessage(old(Snapshot()), isPrompt)
    {
      var msg := Trim(messageInput);
      if msg == "" {
        return;
      }
      var prefix := "";
      if isPrompt {
        prefix := LlmPrefix;
      }
      var full := userName + ": " + (prefix + msg);
      if IsOpen(socket) {
        Transmit(full, prefix + msg);
      } else {
        Notify(NotConnected);
      }
    }

    method Transmit(frame: string, body: string)
      modifies this
      ensures Snapshot() == ChatClient.Transmit(old(Snapshot()), frame, body)
    {
      sent := sent + [frame];
      log := log + [Bubble(Raw(body), true)];
      messageInput := "";
    }
  }
}
