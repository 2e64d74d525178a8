/** The main server's `myHandleIncomingMessage` (nodejs/node-server.js): decode the incoming
    string, re-encode it as `{username, message}` JSON, log it as a prompt or a chat message, and
    send the JSON to every other open client. The same handler appears in
    backups/node-server14-BAD.js. */
module ChatRelay {
  import opened Text
  import opened Codec
  import opened Relay

  /** The console line the relay writes: a body containing `[LLM]` is logged as a prompt. */
  datatype Kind = Prompt | Chat

  function Classify(content: string): Kind {
    if Contains(content, LlmTag) then Prompt else Chat
  }

  /** The text the relay sends on for an incoming string. */
  function Outgoing(raw: string): string {
    EnvelopeJson(DecodeRelay(raw))
  }

  /** Handles one message from client `sender`: broadcasts the JSON envelope to every open client
      other than the sender, and reports how the message was logged. */
  method HandleIncomingMessage(hub: Hub, sender: nat, raw: string) returns (kind: Kind)
    modifies hub
    ensures hub.clients == old(hub.clients)
    ensures hub.sent == old(hub.sent) + SendsFor(hub.clients, sender, Outgoing(raw), false, Some(WsOpen))
    ensures kind == Classify(DecodeRelay(raw).message)
  {
    var envelope := DecodeRelay(raw);
    var json := EnvelopeJson(envelope);
    kind := if Contains(envelope.message, LlmTag) then Prompt else Chat;
    hub.Broadcast(sender, json, false, Some(WsOpen));
  }

  /** A prompt sent by a page keeps its "[LLM] " prefix through the relay (nothing strips it), and
      the relay logs it as a prompt. */
  lemma PromptKeepsPrefix(name: string, msg: string)
    requires name != [] && Trimmed(name) && ':' !in name
    requires msg != [] && Trimmed(msg) && NoLineTerminator(msg)
    ensures DecodeRelay(WireForm(name, Prefix(true) + msg)) == Envelope(name, LlmPrefix + msg)
    ensures Classify(DecodeRelay(WireForm(name, Prefix(true) + msg)).message) == Prompt
  {
    PrefixedBody(true, msg);
    WireRoundTrip(name, Prefix(true) + msg);
    assert LlmTag <= LlmPrefix + msg;
  }

  /** A chat message that does not mention "[LLM]" is logged as a chat message. */
  lemma ChatLoggedAsChat(name: string, msg: string)
    requires name != [] && Trimmed(name) && ':' !in name
    requires msg != [] && Trimmed(msg) && NoLineTerminator(msg) && !Contains(msg, LlmTag)
    ensures Classify(DecodeRelay(WireForm(name, Prefix(false) + msg)).message) == Chat
  {
    assert Prefix(false) + msg == msg;
    WireRoundTrip(name, msg);
  }

  /** What every other open page shows for a message a page sent: the sender's name and the body,
      exactly as typed. */
  lemma OthersSeeSenderAndBody(name: string, body: string)
    requires name != [] && Trimmed(name) && ':' !in name
    requires Trimmed(body) && NoLineTerminator(body)
    ensures DisplayOther(EnvelopeFrame(DecodeRelay(WireForm(name, body)))) == Named(name, body)
  {
    WireRoundTrip(name, body);
    DisplayOfEnvelope(Envelope(name, body));
    TrimOfTrimmed(name);
    TrimOfTrimmed(body);
  }
}
