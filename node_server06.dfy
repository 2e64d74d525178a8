/** The student page and server of backups/node-server06.js. The page keeps the main page's
    globals and flags, but one readiness check recomputes the address and gates Connect, a
    reconnection timer always calls `myInitWebSocket`, there is no prompt button, and received
    text is decoded with the regular expression alone. The server relays the raw text to every
    open client, the sender included, and routes HTTP requests by path. */
module Server06 {
  import opened Text
  import opened Codec
  import opened Session
  import opened Relay
  import ChatClient
  import ChatClientPage

  type Page = ChatClient.Page

  /** `myCheckConnectionReadiness`: derive the address from the select box, then gate Connect. */
  function CheckConnectionReadiness(p: Page): Page {
    var q :=
      if p.selectValue == "custom" then p.(customShown := true, serverUrl := Trim(p.customInput))
      else if p.selectValue != "" then p.(customShown := false, serverUrl := p.selectValue)
      else p.(customShown := false, serverUrl := "");
    q.(connectDisabled := !(Trim(q.nameInput) != "" && q.serverUrl != ""))
  }

  /** Each check derives the address as the main page's select handler does, and enables Connect
      exactly when the trimmed name and that address are both non-empty; nothing else changes. */
  lemma ReadinessGate(p: Page)
    ensures var r := CheckConnectionReadiness(p);
      && r.serverUrl == ChatClient.SelectUrl(p.selectValue, p.customInput)
      && r.customShown == (p.selectValue == "custom")
      && (!r.connectDisabled <==> Trim(p.nameInput) != "" && r.serverUrl != "")
      && r == p.(serverUrl := r.serverUrl, customShown := r.customShown, connectDisabled := r.connectDisabled)
  {
    if p.selectValue == "custom" {
    } else if p.selectValue != "" {
    } else {
    }
  }

  /** The combined check is the main page's select handler followed by its readiness check. */
  lemma ReadinessIsSelectThenGate(p: Page)
    ensures CheckConnectionReadiness(p)
            == ChatClient.CheckConnectionReadiness(ChatClient.HandleSelectChange(p))
  {
    if p.selectValue == "custom" {
    } else if p.selectValue != "" {
    } else {
    }
  }

  /** `onmessage`: `myDisplayMessage(myEvent.data, 'other')`, decoded by the regular expression. */
  function OnMessage(p: Page, text: string): Page {
    p.(log := p.log + [Bubble(DisplayDelimited(text), false)])
  }

  /** The rest of `myHandleReconnect` when its timer fires: `myInitWebSocket()`, whatever the name
      and address are. */
  function ResumeReconnect(p: Page, constructs: bool): Page
    requires p.pending > 0
  {
    ChatClient.InitWebSocket(p.(pending := p.pending - 1), constructs)
  }

  /** With a name and an address, a fired timer connects again. */
  lemma ResumeConnects(p: Page)
    requires p.pending > 0 && Trim(p.nameInput) != "" && p.serverUrl != ""
    ensures var r := ResumeReconnect(p, true);
      && r.socket == Connecting && r.locked && r.connectDisabled
      && r.pending == p.pending - 1 && r.retryCount == p.retryCount
      && r.userName == Trim(p.nameInput)
  {
    ChatClient.ConnectStarts(p.(pending := p.pending - 1));
  }

  /** Without the name check of the main page: a timer that fires after the name field has been
      cleared (the fields are unlocked by then) only adds the connect prompt. The retry count
      stays below the limit, no further timer is set, and Connect stays as it was. */
  lemma ResumeWithoutName(p: Page, constructs: bool)
    requires p.pending > 0 && (Trim(p.nameInput) == "" || p.serverUrl == "")
    ensures ResumeReconnect(p, constructs)
            == p.(pending := p.pending - 1, userName := Trim(p.nameInput),
                  log := p.log + [SystemLine(ConnectPrompt)])
  {
  }

  /** The user can do everything the main page allows except send a prompt: there is no prompt
      button. */
  predicate ActionEnabled(p: Page, a: ChatClient.Action) {
    !a.SendPrompt? && ChatClient.ActionEnabled(p, a)
  }

  /** A user action, dispatched as the page's markup wires it: every edit of the name, the select
      box or the custom address runs the combined check. */
  function Act(p: Page, a: ChatClient.Action): Page {
    match a
    case EditName(v) => CheckConnectionReadiness(p.(nameInput := v))
    case ChooseServer(v) => CheckConnectionReadiness(p.(selectValue := v))
    case EditCustom(v) => CheckConnectionReadiness(p.(customInput := v))
    case ClickConnect(c) => ChatClient.InitWebSocket(p, c)
    case EditMessage(v) => p.(messageInput := v)
    case SendChat => ChatClient.SendMessage(p, false)
    case SendPrompt => p
  }

  /** An event of `myWebSocket`: only `onmessage` differs from the main page. */
  function Deliver(p: Page, ev: ChatClient.SocketEvent): Page {
    match ev
    case MessageEvent(f) => OnMessage(p, f.text)
    case _ => ChatClient.Deliver(p, ev)
  }

  function Step(p: Page, e: ChatClient.Event): Page {
    match e
    case User(a) => if ActionEnabled(p, a) then Act(p, a) else p
    case Current(ev) => if ChatClient.CanDeliver(p.socket, ev) then Deliver(p, ev) else p
    case Stale(ev) =>
      if p.stale > 0 && (ev.ErrorEvent? || ev.CloseEvent?) then ChatClient.DeliverStale(p, ev) else p
    case TimerFired(c) => if p.pending > 0 then ResumeReconnect(p, c) else p
  }

  function Run(p: Page, events: seq<ChatClient.Event>): Page
    decreases |events|
  {
    if events == [] then p else Run(Step(p, events[0]), events[1..])
  }

  /** The page once `DOMContentLoaded` has run the combined check. */
  function Loaded(): Page {
    CheckConnectionReadiness(ChatClient.Initial())
  }

  lemma ActInv(p: Page, a: ChatClient.Action)
    requires ChatClient.Inv(p) && ActionEnabled(p, a)
    ensures ChatClient.Inv(Act(p, a))
  {
    match a
    case EditName(v) => ReadinessGate(p.(nameInput := v));
    case ChooseServer(v) => ReadinessGate(p.(selectValue := v));
    case EditCustom(v) => ReadinessGate(p.(customInput := v));
    case EditMessage(_) =>
    case ClickConnect(c) => ChatClient.InitInv(p, c);
    case SendChat => ChatClient.SendInv(p, false);
    case SendPrompt =>
  }

  lemma StepInv(p: Page, e: ChatClient.Event)
    requires ChatClient.Inv(p)
    ensures ChatClient.Inv(Step(p, e))
  {
    match e
    case User(a) =>
      if ActionEnabled(p, a) {
        ActInv(p, a);
      }
    case Current(ev) =>
      if ChatClient.CanDeliver(p.socket, ev) {
        DeliverInv(p, ev);
      }
    case Stale(ev) =>
      if p.stale > 0 && (ev.ErrorEvent? || ev.CloseEvent?) {
        ChatClient.DeliverStaleInv(p, ev);
      }
    case TimerFired(c) =>
      if p.pending > 0 {
        ResumeInv(p, c);
      }
  }

  lemma DeliverInv(p: Page, ev: ChatClient.SocketEvent)
    requires ChatClient.Inv(p)
    ensures ChatClient.Inv(Deliver(p, ev))
  {
    match ev
    case MessageEvent(_) =>
    case _ => ChatClient.DeliverInv(p, ev);
  }

  lemma ResumeInv(p: Page, constructs: bool)
    requires ChatClient.Inv(p) && p.pending > 0
    ensures ChatClient.Inv(ResumeReconnect(p, constructs))
  {
    ChatClient.InitInv(p.(pending := p.pending - 1), constructs);
  }

  /** Every page this script can reach keeps the main page's invariant: at most five retries,
      every wait 2 to 32 seconds, the address following the select box, and a locked page
      holding the trimmed, non-empty name. */
  lemma {:induction false} RunInv(p: Page, events: seq<ChatClient.Event>)
    requires ChatClient.Inv(p)
    ensures ChatClient.Inv(Run(p, events))
    decreases |events|
  {
    if events != [] {
      StepInv(p, events[0]);
      RunInv(Step(p, events[0]), events[1..]);
    }
  }

  lemma ReachableInv(events: seq<ChatClient.Event>)
    ensures ChatClient.Inv(Run(Loaded(), events))
  {
    ReadinessGate(ChatClient.Initial());
    assert Trimmed("");
    RunInv(Loaded(), events);
  }

  /** Sending: a message that is empty once trimmed changes nothing; otherwise, on an open socket
      the frame is the name, ": " and the trimmed message, with no prefix, the message is echoed
      and the input cleared; on any other socket only an error line is added. */
  lemma SendBehaviour(p: Page)
    ensures var r := ChatClient.SendMessage(p, false);
      var msg := Trim(p.messageInput);
      && (msg == "" ==> r == p)
      && (msg != "" && IsOpen(p.socket) ==>
            r == p.(sent := p.sent + [p.userName + ": " + msg],
                    log := p.log + [Bubble(Raw(msg), true)], messageInput := ""))
      && (msg != "" && !IsOpen(p.socket) ==>
            r == p.(log := p.log + [SystemLine(NotConnected)]))
  {
    var msg := Trim(p.messageInput);
    assert Prefix(false) + msg == msg;
  }

  /** Since the server passes text on unchanged, a page shows what another page sent as that
      page's name and message, provided the name has no colon and the message is one line. */
  lemma OthersSeeSenderAndBody(p: Page, name: string, msg: string)
    requires name != [] && Trimmed(name) && ':' !in name
    requires Trimmed(msg) && NoLineTerminator(msg)
    ensures OnMessage(p, WireForm(name, msg)).log == p.log + [Bubble(Named(name, msg), false)]
  {
    WireRoundTrip(name, msg);
    DisplayAgreesWithRelay(WireForm(name, msg));
    assert WireForm(name, msg) != msg;
  }

  // ---------------------------------------------------------------------------------------
  // The display expression as the page receives it

  /** Drops the leading run of the letter `s`: the greedy `s*` of /^([^:]+):s*(.*)$/. */
  function DropLeadingS(s: string): (r: string)
    ensures |r| <= |s|
    ensures r == [] || r[0] != 's'
    decreases |s|
  {
    if s != [] && s[0] == 's' then DropLeadingS(s[1..]) else s
  }

  /** The page's script sits inside the template literal that opens at line 31, where `\s` is an
      escape of the letter `s`: the browser runs /^([^:]+):s*(.*)$/. The first group still ends
      at the first colon; `s*` skips letters `s` only, none of them a line terminator, so the
      match needs the whole remainder after that colon to be a single line. */
  function MatchAsWritten(s: string): Option<Groups> {
    var i := IndexOf(s, ':');
    if i < 1 || !NoLineTerminator(s[i + 1..]) then None
    else Some(Groups(s[..i], DropLeadingS(s[i + 1..])))
  }

  /** `myDisplayMessage` for 'other' text with the expression the browser receives. */
  function DisplayAsWritten(text: string): Content {
    match MatchAsWritten(text)
    case Some(g) => Named(Trim(g.name), Trim(g.body))
    case None => Raw(text)
  }

  /** The frames 06's own pages send, a name, ": " and a one-line message, are shown alike by
      both expressions: the space after the colon stops `s*` at once and `trim` removes it. */
  lemma AsWrittenAgreesOnWireForm(name: string, msg: string)
    requires name != [] && Trimmed(name) && ':' !in name
    requires Trimmed(msg) && NoLineTerminator(msg)
    ensures DisplayAsWritten(WireForm(name, msg)) == Named(name, msg)
    ensures DisplayAsWritten(WireForm(name, msg)) == DisplayDelimited(WireForm(name, msg))
  {
    var s := WireForm(name, msg);
    var i := |name|;
    assert s == name + ":" + " " + msg;
    assert s[..i] == name && s[i] == ':' && s[i + 1..] == " " + msg;
    IndexOfFirst(s, ':', i);
    assert NoLineTerminator(" " + msg) by {
      forall k | 0 <= k < |" " + msg| ensures !IsLineTerminator((" " + msg)[k]) {
        if k > 0 { assert (" " + msg)[k] == msg[k - 1]; }
      }
    }
    TrimStartSkipsSpace(" ", msg);
    TrimOfTrimmed(name);
    TrimOfTrimmed(msg);
    assert Trim(" " + msg) == msg;
    OthersSeeSenderAndBody(ChatClient.Initial(), name, msg);
  }

  /** A message whose text starts on the next line after the colon is shown raw, though the
      relay and the main page read it as sender "a" and body "b". */
  lemma AsWrittenShowsRaw()
    ensures DisplayAsWritten("a:\nb") == Raw("a:\nb")
    ensures DisplayDelimited("a:\nb") == Named("a", "b")
  {
    var s := "a:\nb";
    IndexOfFirst(s, ':', 1);
    var rest := s[2..];
    assert rest == "\nb" && IsLineTerminator(rest[0]);
    assert MatchAsWritten(s).None?;
    var body := TrimStart(rest);
    assert body == "b" by {
      assert IsSpace(rest[0]) && rest[1..] == "b";
      assert !IsSpace('b');
    }
    assert NoLineTerminator(body);
    MatchAt(s, 1);
    assert s[..1] == "a";
    TrimOfTrimmed("a");
    TrimOfTrimmed("b");
  }

  /** A body that starts with the letter `s` right after the colon loses it: "a:sb: hi" is shown
      as sender "a" and body "b: hi", where the relay and the main page read "sb: hi". */
  lemma AsWrittenDropsS(name: string, b: string)
    requires name != [] && Trimmed(name) && ':' !in name
    requires b != [] && b[0] != 's' && Trimmed(b) && NoLineTerminator(b)
    ensures DisplayAsWritten(name + ":s" + b) == Named(name, b)
    ensures DisplayDelimited(name + ":s" + b) == Named(name, "s" + b)
  {
    var s := name + ":s" + b;
    var i := |name|;
    var rest := "s" + b;
    assert s == name + ":" + rest;
    assert s[..i] == name && s[i] == ':' && s[i + 1..] == rest;
    IndexOfFirst(s, ':', i);
    assert NoLineTerminator(rest) by {
      forall k | 0 <= k < |rest| ensures !IsLineTerminator(rest[k]) {
        if k > 0 { assert rest[k] == b[k - 1]; }
      }
    }
    assert rest[1..] == b;
    assert DropLeadingS(rest) == b;
    TrimOfTrimmed(name);
    TrimOfTrimmed(b);
    assert !IsSpace(rest[0]);
    assert TrimStart(rest) == rest;
    MatchAt(s, i);
    assert rest[|rest| - 1] == b[|b| - 1];
    TrimOfTrimmed(rest);
  }

  // ---------------------------------------------------------------------------------------
  // The server

  /** What the HTTP handler serves. */
  datatype Route = StudentPage | TeacherInstructions | NotFound

  function RouteOf(url: string): Route {
    if url == "/" || Contains(url, "student") then StudentPage
    else if Contains(url, "teacher-socket.html") || Contains(url, "teacher") then TeacherInstructions
    else NotFound
  }

  /** The student page is served for "/" and for any path containing "student", even one that
      also contains "teacher"; the instructions for any other path containing "teacher" (the
      test for "teacher-socket.html" adds nothing); 404 for everything else. */
  lemma Routing(url: string)
    ensures RouteOf(url) == StudentPage <==> url == "/" || Contains(url, "student")
    ensures RouteOf(url) == TeacherInstructions
            <==> url != "/" && !Contains(url, "student") && Contains(url, "teacher")
    ensures RouteOf(url) == NotFound
            <==> url != "/" && !Contains(url, "student") && !Contains(url, "teacher")
  {
    if Contains(url, "teacher-socket.html") {
      assert "teacher-socket.html"[0..7] == "teacher";
      ContainsAt("teacher-socket.html", "teacher", 0);
      ContainsTransitive(url, "teacher-socket.html", "teacher");
    }
  }

  /** `myHandleIncomingMessage`: the received text, unchanged, to every open client, the sender
      included. */
  method HandleIncomingMessage(hub: Hub, sender: nat, raw: string)
    modifies hub
    ensures hub.clients == old(hub.clients)
    ensures hub.sent == old(hub.sent) + SendsFor(hub.clients, sender, raw, true, Some(WsOpen))
  {
    hub.Broadcast(sender, raw, true, Some(WsOpen));
  }

  /** The sender, when open, is sent its own text back exactly once; every send carries the text
      unchanged. */
  lemma SenderEchoed(cs: seq<Conn>, k: nat, raw: string)
    requires DistinctIds(cs) && k < |cs| && cs[k].readyState == WsOpen
    ensures SendsTo(SendsFor(cs, cs[k].id, raw, true, Some(WsOpen)), cs[k].id) == 1
    ensures forall s | s in SendsFor(cs, cs[k].id, raw, true, Some(WsOpen)) :: s.payload == raw
  {
    DeliveredExactlyOnce(cs, k, cs[k].id, raw, true, Some(WsOpen));
    SendsAreQualified(cs, cs[k].id, raw, true, Some(WsOpen));
  }

  /** Every open client receives the text exactly once, and no other client receives it. */
  lemma OpenClientsReceiveOnce(cs: seq<Conn>, sender: nat, k: nat, raw: string)
    requires DistinctIds(cs) && k < |cs|
    ensures SendsTo(SendsFor(cs, sender, raw, true, Some(WsOpen)), cs[k].id)
            == if cs[k].readyState == WsOpen then 1 else 0
  {
    DeliveredExactlyOnce(cs, k, sender, raw, true, Some(WsOpen));
  }

  // ---------------------------------------------------------------------------------------
  // The script's handlers, on the page object

  /** `myCheckConnectionReadiness`. */
  method CheckReadiness(page: ChatClientPage.ChatPage)
    modifies page
    ensures page.Snapshot() == CheckConnectionReadiness(old(page.Snapshot()))
  {
    // the two halves of the body are, statement for statement, the main page's select handler
    // and readiness check
    page.HandleSelectChange();
    page.CheckConnectionReadiness();
    ReadinessIsSelectThenGate(old(page.Snapshot()));
  }

  /** `onmessage`. */
  method HandleMessage(page: ChatClientPage.ChatPage, text: string)
    modifies page
    ensures page.Snapshot() == OnMessage(old(page.Snapshot()), text)
  {
    page.log := page.log + [Bubble(DisplayDelimited(text), false)];
  }

  /** A reconnection timer of `myHandleReconnect` fires. */
  method ResumeReconnectOn(page: ChatClientPage.ChatPage, constructs: bool)
    requires page.pending > 0
    modifies page
    ensures page.Snapshot() == ResumeReconnect(old(page.Snapshot()), constructs)
  {
    page.TimerDone();
    page.InitWebSocket(constructs);
  }

  /** `mySendMessage`. */
  method SendMessage(page: ChatClientPage.ChatPage)
    modifies page
    ensures page.Snapshot() == ChatClient.SendMessage(old(page.Snapshot()), false)
  {
    var msg := Trim(page.messageInput);
    if msg == "" {
      return;
    }
    var full := page.userName + ": " + msg;
    if IsOpen(page.socket) {
      assert Prefix(false) + msg == msg;
      page.Transmit(full, msg);
    } else {
      page.Notify(NotConnected);
    }
  }
}
