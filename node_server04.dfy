/** The page of backups/node-server04.js: there is no name field, so Connect depends on the
    address alone and nothing is ever locked; messages travel as typed, without a name. (Its
    relay is the same loop as backups/node-server02.js, modelled in `Server02`.) */
module Server04 {
  import opened Text
  import opened Codec
  import opened Session
  import ChatClient

  datatype Page = Page(
    selectValue: string,
    customInput: string,
    messageInput: string,
    customShown: bool,
    serverUrl: string,
    retryCount: nat,
    connectDisabled: bool,
    // send button and message input
    sendDisabled: bool,
    socket: SocketState,
    stale: nat,
    pending: nat,
    delays: seq<int>,
    closeCodes: seq<int>,
    sent: seq<string>,
    log: seq<Line>)

  /** `myHandleSelectChange`: the address as on the main page, and Connect gated on it. */
  function HandleSelectChange(p: Page): Page {
    if p.selectValue == "custom" then
      var url := Trim(p.customInput);
      p.(customShown := true, serverUrl := url, connectDisabled := url == "")
    else if p.selectValue != "" then
      p.(customShown := false, serverUrl := p.selectValue, connectDisabled := false)
    else
      p.(customShown := false, serverUrl := "", connectDisabled := true)
  }

  /** `myHandleCustomInputChange`. */
  function HandleCustomInputChange(p: Page): Page {
    var url := Trim(p.customInput);
    p.(serverUrl := url, connectDisabled := url == "")
  }

  /** `myInitWebSocket`: without an address only the prompt is shown; otherwise the old socket is
      closed, Connect disabled, and a new socket created. */
  function InitWebSocket(p: Page, constructs: bool): Page {
    if p.serverUrl == "" then Notify(p, AddressPrompt)
    else CreateSocket(DropSocket(p).(connectDisabled := true), constructs)
  }

  function Notify(p: Page, n: Notice): Page {
    p.(log := p.log + [SystemLine(n)])
  }

  /** `myWebSocket.close(1000, 'Reconnecting')`, for a socket that is not yet CLOSED. */
  function DropSocket(p: Page): Page {
    if NotClosed(p.socket) then p.(socket := Closing, closeCodes := p.closeCodes + [NormalClosure])
    else p
  }

  /** The `try`/`catch` around `new WebSocket`. */
  function CreateSocket(p: Page, constructs: bool): Page {
    if constructs then
      p.(socket := Connecting, stale := if CloseDue(p.socket) then p.stale + 1 else p.stale)
    else
      p.(connectDisabled := false, sendDisabled := true)
  }

  /** `onopen`: Connect is enabled again along with the send controls. */
  function OnOpen(p: Page): Page {
    p.(sendDisabled := false, connectDisabled := false, retryCount := 0,
       log := p.log + [SystemLine(WelcomeLocal)])
  }

  /** `onmessage`: the received text, shown as it came. */
  function OnMessage(p: Page, text: string): Page {
    p.(log := p.log + [Bubble(Raw(text), false)])
  }

  function OnError(p: Page): Page {
    p.(sendDisabled := true)
  }

  /** `onclose`. */
  function OnClose(p: Page, wasClean: bool): Page {
    var q := p.(sendDisabled := true);
    if wasClean then q.(connectDisabled := false) else HandleReconnect(q)
  }

  /** `myHandleReconnect` up to its `await`. */
  function HandleReconnect(p: Page): Page {
    if p.retryCount < MaxRetries then
      var count := p.retryCount + 1;
      p.(retryCount := count, pending := p.pending + 1, delays := p.delays + [RetryDelay(count)])
    else
      p.(connectDisabled := false)
  }

  /** A reconnection timer fires: `myInitWebSocket()`. */
  function ResumeReconnect(p: Page, constructs: bool): Page
    requires p.pending > 0
  {
    InitWebSocket(p.(pending := p.pending - 1), constructs)
  }

  /** `mySendMessage`: the trimmed message itself is the frame. */
  function SendMessage(p: Page): Page {
    var msg := Trim(p.messageInput);
    if msg == "" then p
    else if IsOpen(p.socket) then Transmit(p, msg)
    else Notify(p, NotConnected)
  }

  function Transmit(p: Page, msg: string): Page {
    p.(sent := p.sent + [msg], log := p.log + [Bubble(Raw(msg), true)], messageInput := "")
  }

  // ---------------------------------------------------------------------------------------
  // The browser

  datatype Action =
    | ChooseServer(value: string)
    | EditCustom(value: string)
    | ClickConnect(constructs: bool)
    | EditMessage(value: string)
    | SendChat

  datatype Event =
    | User(action: Action)
    | Current(event: ChatClient.SocketEvent)
    | Stale(event: ChatClient.SocketEvent)
    | TimerFired(constructs: bool)

  predicate ActionEnabled(p: Page, a: Action) {
    match a
    case ChooseServer(_) => true
    case EditCustom(_) => p.customShown
    case ClickConnect(_) => !p.connectDisabled
    case EditMessage(_) => !p.sendDisabled
    case SendChat => !p.sendDisabled
  }

  function Act(p: Page, a: Action): Page {
    match a
    case ChooseServer(v) => HandleSelectChange(p.(selectValue := v))
    case EditCustom(v) => HandleCustomInputChange(p.(customInput := v))
    case ClickConnect(c) => InitWebSocket(p, c)
    case EditMessage(v) => p.(messageInput := v)
    case SendChat => SendMessage(p)
  }

  function Deliver(p: Page, ev: ChatClient.SocketEvent): Page {
    match ev
    case OpenEvent => OnOpen(p.(socket := Open))
    case MessageEvent(f) => OnMessage(p, f.text)
    case ErrorEvent => OnError(p.(socket := Failed))
    case CloseEvent(wasClean) => OnClose(p.(socket := Closed), wasClean)
  }

  function DeliverStale(p: Page, ev: ChatClient.SocketEvent): Page
    requires p.stale > 0
  {
    match ev
    case CloseEvent(wasClean) => OnClose(p.(stale := p.stale - 1), wasClean)
    case _ => OnError(p)
  }

  function Step(p: Page, e: Event): Page {
    match e
    case User(a) => if ActionEnabled(p, a) then Act(p, a) else p
    case Current(ev) => if ChatClient.CanDeliver(p.socket, ev) then Deliver(p, ev) else p
    case Stale(ev) => if p.stale > 0 && (ev.ErrorEvent? || ev.CloseEvent?) then DeliverStale(p, ev) else p
    case TimerFired(c) => if p.pending > 0 then ResumeReconnect(p, c) else p
  }

  function Run(p: Page, events: seq<Event>): Page
    decreases |events|
  {
    if events == [] then p else Run(Step(p, events[0]), events[1..])
  }

  /** The page once `DOMContentLoaded` has run `myHandleSelectChange`. */
  function Loaded(): Page {
    HandleSelectChange(Page("", "", "", false, "", 0, true, true, NoSocket, 0, 0, [], [], [], []))
  }

  // ---------------------------------------------------------------------------------------
  // What every reachable page satisfies

  predicate Inv(p: Page) {
    && p.retryCount <= MaxRetries
    && AllBackoff(p.delays)
    && p.customShown == (p.selectValue == "custom")
    && p.serverUrl == ChatClient.SelectUrl(p.selectValue, p.customInput)
    && (forall k :: 0 <= k < |p.closeCodes| ==> p.closeCodes[k] == NormalClosure)
  }

  lemma InitInv(p: Page, constructs: bool)
    requires Inv(p)
    ensures Inv(InitWebSocket(p, constructs))
  {
    if p.serverUrl != "" {
      var r := DropSocket(p);
      assert r.closeCodes == p.closeCodes || r.closeCodes == p.closeCodes + [NormalClosure];
    }
  }

  lemma ReconnectInv(p: Page)
    requires Inv(p)
    ensures Inv(HandleReconnect(p))
  {
    if p.retryCount < MaxRetries {
      RetryDelayBounds(p.retryCount + 1);
    }
  }

  lemma CloseInv(p: Page, wasClean: bool)
    requires Inv(p)
    ensures Inv(OnClose(p, wasClean))
  {
    ReconnectInv(p.(sendDisabled := true));
  }

  lemma ActInv(p: Page, a: Action)
    requires Inv(p) && ActionEnabled(p, a)
    ensures Inv(Act(p, a))
  {
    match a
    case ChooseServer(v) =>
      if v == "custom" {
      } else if v != "" {
      } else {
      }
    case EditCustom(_) =>
    case ClickConnect(c) => InitInv(p, c);
    case EditMessage(_) =>
    case SendChat =>
      if Trim(p.messageInput) == "" {
      } else if IsOpen(p.socket) {
      } else {
      }
  }

  lemma DeliverInv(p: Page, ev: ChatClient.SocketEvent)
    requires Inv(p)
    ensures Inv(Deliver(p, ev))
  {
    match ev
    case OpenEvent =>
    case MessageEvent(_) =>
    case ErrorEvent =>
    case CloseEvent(wasClean) => CloseInv(p.(socket := Closed), wasClean);
  }

  lemma StepInv(p: Page, e: Event)
    requires Inv(p)
    ensures Inv(Step(p, e))
  {
    match e
    case User(a) =>
      if ActionEnabled(p, a) {
        ActInv(p, a);
      }
    case Current(ev) =>
      if ChatClient.CanDeliver(p.socket, ev) {
        DeliverInv(p, ev);
      }
    case Stale(ev) =>
      if p.stale > 0 && ev.CloseEvent? {
        CloseInv(p.(stale := p.stale - 1), ev.wasClean);
      }
    case TimerFired(c) =>
      if p.pending > 0 {
        InitInv(p.(pending := p.pending - 1), c);
      }
  }

  /** Every reachable page keeps at most five retries, waits of 2 to 32 seconds, the address
      following the select box, and only close code 1000. */
  lemma {:induction false} RunInv(p: Page, events: seq<Event>)
    requires Inv(p)
    ensures Inv(Run(p, events))
    decreases |events|
  {
    if events != [] {
      StepInv(p, events[0]);
      RunInv(Step(p, events[0]), events[1..]);
    }
  }

  lemma ReachableInv(events: seq<Event>)
    ensures Inv(Run(Loaded(), events))
  {
    RunInv(Loaded(), events);
  }

  // ---------------------------------------------------------------------------------------
  // Properties of the handlers

  /** After a choice in the select box or an edit of the custom address, the address follows the
      select box and Connect is disabled exactly when the address is empty: no name is needed. */
  lemma GateAfterEdit(p: Page, a: Action)
    requires Inv(p) && ActionEnabled(p, a)
    requires a.ChooseServer? || a.EditCustom?
    ensures var r := Act(p, a);
      r.serverUrl == ChatClient.SelectUrl(r.selectValue, r.customInput) &&
      (r.connectDisabled <==> r.serverUrl == "")
  {
    ActInv(p, a);
  }

  /** Connecting without an address only adds the address prompt. */
  lemma ConnectWithoutAddress(p: Page, constructs: bool)
    requires p.serverUrl == ""
    ensures InitWebSocket(p, constructs) == p.(log := p.log + [SystemLine(AddressPrompt)])
  {
  }

  /** Connecting with an address closes a socket that is not yet closed with code 1000, disables
      Connect and opens a new socket; the send controls and the retry count are left alone. */
  lemma ConnectStarts(p: Page)
    requires p.serverUrl != ""
    ensures var r := InitWebSocket(p, true);
      && r.connectDisabled && r.socket == Connecting
      && r.closeCodes == (if NotClosed(p.socket) then p.closeCodes + [NormalClosure] else p.closeCodes)
      && r.retryCount == p.retryCount && r.sendDisabled == p.sendDisabled && r.log == p.log
  {
  }

  /** Open resets the retry count and enables both the send controls and Connect. */
  lemma OpenResets(p: Page)
    requires p.socket == Connecting
    ensures var r := Step(p, Current(ChatClient.OpenEvent));
      r.retryCount == 0 && !r.sendDisabled && !r.connectDisabled && r.socket == Open
  {
  }

  /** Every close disables sending. A clean close re-enables Connect and schedules nothing; an
      unclean close goes into the same bounded doubling backoff as the main page. */
  lemma CloseEffects(p: Page, wasClean: bool)
    requires p.retryCount <= MaxRetries
    ensures var r := OnClose(p, wasClean);
      && r.sendDisabled
      && (wasClean ==> !r.connectDisabled && r.pending == p.pending && r.retryCount == p.retryCount)
      && (!wasClean && p.retryCount < MaxRetries ==>
            r.retryCount == p.retryCount + 1 && r.pending == p.pending + 1
            && r.delays == p.delays + [RetryDelay(r.retryCount)] && IsBackoffDelay(RetryDelay(r.retryCount)))
      && (!wasClean && p.retryCount == MaxRetries ==>
            !r.connectDisabled && r.pending == p.pending && r.retryCount == MaxRetries)
  {
    if !wasClean && p.retryCount < MaxRetries {
      RetryDelayBounds(p.retryCount + 1);
    }
  }

  /** A fired timer calls `myInitWebSocket` with no further check: with an address it connects
      again, without one it only adds the address prompt. */
  lemma ResumeConnectsAgain(p: Page, constructs: bool)
    requires p.pending > 0
    ensures p.serverUrl != "" && constructs ==> ResumeReconnect(p, constructs).socket == Connecting
    ensures p.serverUrl == "" ==>
      ResumeReconnect(p, constructs) == p.(pending := p.pending - 1, log := p.log + [SystemLine(AddressPrompt)])
  {
  }

  /** Sending: a message that is empty once trimmed changes nothing; otherwise, on an open socket
      the trimmed message itself is sent, echoed, and the input cleared; on any other socket
      only an error line is added. */
  lemma SendBehaviour(p: Page)
    ensures var r := SendMessage(p);
      var msg := Trim(p.messageInput);
      && (msg == "" ==> r == p)
      && (msg != "" && IsOpen(p.socket) ==>
            r == p.(sent := p.sent + [msg], log := p.log + [Bubble(Raw(msg), true)], messageInput := ""))
      && (msg != "" && !IsOpen(p.socket) ==>
            r == p.(log := p.log + [SystemLine(NotConnected)]))
  {
    if Trim(p.messageInput) == "" {
    } else if IsOpen(p.socket) {
    } else {
    }
  }

}

/** The script of backups/node-server04.js as it runs. */
module Server04Page {
  import opened Text
  import opened Codec
  import opened Session
  import Server04

  class ChatPage {
    var selectValue: string
    var customInput: string
    var messageInput: string
    var customShown: bool
    var serverUrl: string
    var retryCount: nat
    var connectDisabled: bool
    var sendDisabled: bool
    var socket: SocketState
    var stale: nat
    var pending: nat
    var delays: seq<int>
    var closeCodes: seq<int>
    var sent: seq<string>
    var log: seq<Line>

    function Snapshot(): Server04.Page
      reads this
    {
      Server04.Page(selectValue, customInput, messageInput, customShown, serverUrl, retryCount,
        connectDisabled, sendDisabled, socket, stale, pending, delays, closeCodes, sent, log)
    }

    /** The page as served, after `DOMContentLoaded`. */
    constructor ()
      ensures Snapshot() == Server04.Loaded()
    {
      selectValue, customInput, messageInput := "", "", "";
      customShown, serverUrl, retryCount := false, "", 0;
      connectDisabled, sendDisabled := true, true;
      socket, stale, pending := NoSocket, 0, 0;
      delays, closeCodes, sent, log := [], [], [], [];
      new;
      HandleSelectChange();
    }

    method HandleSelectChange()
      modifies this
      ensures Snapshot() == Server04.HandleSelectChange(old(Snapshot()))
    {
      var value := selectValue;
      if value == "custom" {
        customShown := true;
        serverUrl := Trim(customInput);
        connectDisabled := serverUrl == "";
      } else if value != "" {
        customShown := false;
        serverUrl := value;
        connectDisabled := false;
      } else {
        customShown := false;
        serverUrl := "";
        connectDisabled := true;
      }
    }

    method HandleCustomInputChange()
      modifies this
      ensures Snapshot() == Server04.HandleCustomInputChange(old(Snapshot()))
    {
      serverUrl := Trim(customInput);
      connectDisabled := serverUrl == "";
    }

    method InitWebSocket(constructs: bool)
      modifies this
      ensures Snapshot() == Server04.InitWebSocket(old(Snapshot()), constructs)
    {
      if serverUrl == "" {
        Notify(AddressPrompt);
        return;
      }
      DropSocket();
      DisableConnect();
      CreateSocket(constructs);
    }

    method Notify(n: Notice)
      modifies this
      ensures Snapshot() == Server04.Notify(old(Snapshot()), n)
    {
      log := log + [SystemLine(n)];
    }

    method DropSocket()
      modifies this
      ensures Snapshot() == Server04.DropSocket(old(Snapshot()))
    {
      if NotClosed(socket) {
        socket := Closing;
        closeCodes := closeCodes + [NormalClosure];
      }
    }

    method DisableConnect()
      modifies this
      ensures Snapshot() == old(Snapshot()).(connectDisabled := true)
    {
      connectDisabled := true;
    }

    method CreateSocket(constructs: bool)
      modifies this
      ensures Snapshot() == Server04.CreateSocket(old(Snapshot()), constructs)
    {
      if constructs {
        if CloseDue(socket) {
          stale := stale + 1;
        }
        socket := Connecting;
      } else {
        connectDisabled := false;
        sendDisabled := true;
      }
    }

    method OnOpen()
      modifies this
      ensures Snapshot() == Server04.OnOpen(old(Snapshot()))
    {
      sendDisabled := false;
      connectDisabled := false;
      retryCount := 0;
      Notify(WelcomeLocal);
    }

    method OnMessage(text: string)
      modifies this
      ensures Snapshot() == Server04.OnMessage(old(Snapshot()), text)
    {
      log := log + [Bubble(Raw(text), false)];
    }

    method OnError()
      modifies this
      ensures Snapshot() == Server04.OnError(old(Snapshot()))
    {
      sendDisabled := true;
    }

    method OnClose(wasClean: bool)
      modifies this
      ensures Snapshot() == Server04.OnClose(old(Snapshot()), wasClean)
    {
      sendDisabled := true;
      if wasClean {
        connectDisabled := false;
      } else {
        HandleReconnect();
      }
    }

    method HandleReconnect()
      modifies this
      ensures Snapshot() == Server04.HandleReconnect(old(Snapshot()))
    {
      if retryCount < MaxRetries {
        retryCount := retryCount + 1;
        var delay := RetryDelay(retryCount);
        pending := pending + 1;
        delays := delays + [delay];
      } else {
        connectDisabled := false;
      }
    }

    method ResumeReconnect(constructs: bool)
      requires pending > 0
      modifies this
      ensures Snapshot() == Server04.ResumeReconnect(old(Snapshot()), constructs)
    {
      pending := pending - 1;
      InitWebSocket(constructs);
    }

    method SendMessage()
      modifies this
      ensures Snapshot() == Server04.SendMessage(old(Snapshot()))
    {
      var msg := Trim(messageInput);
      if msg == "" {
        return;
      }
      if IsOpen(socket) {
        Transmit(msg);
      } else {
        Notify(NotConnected);
      }
    }

    method Transmit(msg: string)
      modifies this
      ensures Snapshot() == Server04.Transmit(old(Snapshot()), msg)
    {
      sent := sent + [msg];
      log := log + [Bubble(Raw(msg), true)];
      messageInput := "";
    }
  }
}
