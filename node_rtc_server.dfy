/** The signalling relay of web-rtc/node-rtc-server.js: each message goes, as received, to every
    client other than its sender whose `readyState` equals `myWebSocketServer.OPEN`, a constant
    read from the `ws` server class. */
module RtcServer {
  import opened Codec
  import opened Relay

  /** `myRelayMessage`. `openConst` is the value of `myWebSocketServer.OPEN`; `None` stands for
      `undefined`. */
  method RelayMessage(hub: Hub, sender: nat, message: string, openConst: Option<int>)
    modifies hub
    ensures hub.clients == old(hub.clients)
    ensures hub.sent == old(hub.sent) + SendsFor(hub.clients, sender, message, false, openConst)
  {
    hub.Broadcast(sender, message, false, openConst);
  }

  /** Each client other than the sender whose `readyState` equals the constant receives the
      message exactly once, as received; no other client receives anything. If the constant is
      `undefined`, nothing is sent at all. */
  lemma RecipientsMatchConstant(cs: seq<Conn>, sender: nat, message: string, openConst: Option<int>)
    requires DistinctIds(cs)
    ensures var sends := SendsFor(cs, sender, message, false, openConst);
      && (forall s | s in sends :: s.payload == message)
      && (forall k | 0 <= k < |cs| ::
            SendsTo(sends, cs[k].id) == if cs[k].id != sender && openConst == Some(cs[k].readyState) then 1 else 0)
      && (openConst == None ==> sends == [])
  {
    SendsAreQualified(cs, sender, message, false, openConst);
    forall k | 0 <= k < |cs|
      ensures SendsTo(SendsFor(cs, sender, message, false, openConst), cs[k].id)
              == if cs[k].id != sender && openConst == Some(cs[k].readyState) then 1 else 0
    {
      DeliveredExactlyOnce(cs, k, sender, message, false, openConst);
    }
    if openConst == None {
      UndefinedOpenSendsNothing(cs, sender, message, false);
    }
  }
}
