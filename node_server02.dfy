/** The relay of backups/node-server02.js (the same loop as backups/node-server04.js): the text
    of each incoming message goes, unchanged, to every open client other than its sender. */
module Server02 {
  import opened Codec
  import opened Relay

  /** `myHandleIncomingMessage`. */
  method HandleIncomingMessage(hub: Hub, sender: nat, raw: string)
    modifies hub
    ensures hub.clients == old(hub.clients)
    ensures hub.sent == old(hub.sent) + SendsFor(hub.clients, sender, raw, false, Some(WsOpen))
  {
    hub.Broadcast(sender, raw, false, Some(WsOpen));
  }

  /** An open client other than the sender. */
  predicate OpenOther(c: Conn, sender: nat) {
    c.readyState == WsOpen && c.id != sender
  }

  /** The number of open clients other than the sender. */
  function OpenOthers(cs: seq<Conn>, sender: nat): nat
    decreases |cs|
  {
    if cs == [] then 0
    else OpenOthers(cs[..|cs| - 1], sender) + (if OpenOther(cs[|cs| - 1], sender) then 1 else 0)
  }

  lemma {:induction false} OpenOthersQualify(cs: seq<Conn>, sender: nat)
    ensures OpenOthers(cs, sender) == CountQualifying(cs, sender, false, Some(WsOpen))
    decreases |cs|
  {
    if cs != [] {
      OpenOthersQualify(cs[..|cs| - 1], sender);
    }
  }

  /** One pass sends the received text and nothing else, each open client other than the
      sender receives it exactly once, no other client receives it, and there are as many sends
      as open clients other than the sender. */
  lemma RelayToOthers(cs: seq<Conn>, sender: nat, raw: string)
    requires DistinctIds(cs)
    ensures var sends := SendsFor(cs, sender, raw, false, Some(WsOpen));
      && (forall s | s in sends :: s.payload == raw)
      && (forall k | 0 <= k < |cs| :: SendsTo(sends, cs[k].id) == if OpenOther(cs[k], sender) then 1 else 0)
      && |sends| == OpenOthers(cs, sender)
  {
    SendsAreQualified(cs, sender, raw, false, Some(WsOpen));
    forall k | 0 <= k < |cs|
      ensures SendsTo(SendsFor(cs, sender, raw, false, Some(WsOpen)), cs[k].id)
              == if OpenOther(cs[k], sender) then 1 else 0
    {
      OpenOthersReceiveOnce(cs, sender, k, raw);
    }
    SendCount(cs, sender, raw, false, Some(WsOpen));
    OpenOthersQualify(cs, sender);
  }
}
