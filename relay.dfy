/** The relay loop every server in the repository runs for an inbound message:
    `clients.forEach(c => { if (<c qualifies>) c.send(payload) })`. The `ws` library owns the
    client set; the relay only reads it. */
module Relay {
  import opened Codec

  /** A connected client as the relay sees it: its identity and its `readyState`. */
  datatype Conn = Conn(id: nat, readyState: int)

  /** One `send` call: the client it went to and the text it carried. */
  datatype Send = Send(to: nat, payload: string)

  /** `readyState` of an open socket in the `ws` library (`WebSocket.OPEN`). */
  const WsOpen: int := 1

  /** The test inside the loop: `readyState === OPEN`, and, unless the sender is included,
      `client !== sender`. `openConst` is the value the code compares with; `None` stands for a
      constant that is `undefined`, which no `readyState` equals. */
  predicate Qualifies(c: Conn, sender: nat, includeSender: bool, openConst: Option<int>) {
    openConst == Some(c.readyState) && (includeSender || c.id != sender)
  }

  /** The sends one pass of the loop makes, in client order. */
  function SendsFor(cs: seq<Conn>, sender: nat, payload: string, includeSender: bool, openConst: Option<int>): seq<Send>
    decreases |cs|
  {
    if cs == [] then []
    else
      var c := cs[|cs| - 1];
      SendsFor(cs[..|cs| - 1], sender, payload, includeSender, openConst)
        + (if Qualifies(c, sender, includeSender, openConst) then [Send(c.id, payload)] else [])
  }

  /** Every send carries the payload unchanged, and goes to a client that qualifies. */
  lemma {:induction false} SendsAreQualified(cs: seq<Conn>, sender: nat, payload: string, includeSender: bool, openConst: Option<int>)
    ensures forall s | s in SendsFor(cs, sender, payload, includeSender, openConst) ::
              s.payload == payload &&
              exists c | c in cs :: c.id == s.to && Qualifies(c, sender, includeSender, openConst)
    decreases |cs|
  {
    if cs != [] {
      var init := cs[..|cs| - 1];
      SendsAreQualified(init, sender, payload, includeSender, openConst);
      forall c | c in init ensures c in cs {
        var k :| 0 <= k < |init| && init[k] == c;
        assert cs[k] == c;
      }
    }
  }

  /** Every client that qualifies is sent the payload. */
  lemma {:induction false} QualifiedAreSent(cs: seq<Conn>, sender: nat, payload: string, includeSender: bool, openConst: Option<int>)
    ensures forall c | c in cs && Qualifies(c, sender, includeSender, openConst) ::
              Send(c.id, payload) in SendsFor(cs, sender, payload, includeSender, openConst)
    decreases |cs|
  {
    if cs != [] {
      var init := cs[..|cs| - 1];
      QualifiedAreSent(init, sender, payload, includeSender, openConst);
      forall c | c in cs && Qualifies(c, sender, includeSender, openConst)
        ensures Send(c.id, payload) in SendsFor(cs, sender, payload, includeSender, openConst)
      {
        var k :| 0 <= k < |cs| && cs[k] == c;
        if k < |cs| - 1 {
          assert init[k] == c;
        }
      }
    }
  }

  /** The number of clients in `cs` with identity `id` that qualify. */
  function QualifyingWith(cs: seq<Conn>, id: nat, sender: nat, includeSender: bool, openConst: Option<int>): nat
    decreases |cs|
  {
    if cs == [] then 0
    else
      var c := cs[|cs| - 1];
      QualifyingWith(cs[..|cs| - 1], id, sender, includeSender, openConst)
        + (if c.id == id && Qualifies(c, sender, includeSender, openConst) then 1 else 0)
  }

  /** The number of sends to `id`. */
  function SendsTo(ss: seq<Send>, id: nat): nat
    decreases |ss|
  {
    if ss == [] then 0
    else SendsTo(ss[..|ss| - 1], id) + (if ss[|ss| - 1].to == id then 1 else 0)
  }

  lemma {:induction false} SendsToAppend(a: seq<Send>, b: seq<Send>, id: nat)
    ensures SendsTo(a + b, id) == SendsTo(a, id) + SendsTo(b, id)
    decreases |b|
  {
    if b == [] {
      assert a + b == a;
    } else {
      assert (a + b)[..|a + b| - 1] == a + b[..|b| - 1];
      SendsToAppend(a, b[..|b| - 1], id);
    }
  }

  /** A client is sent the payload once for each of its entries that qualifies. */
  lemma {:induction false} SendsToCount(cs: seq<Conn>, id: nat, sender: nat, payload: string, includeSender: bool, openConst: Option<int>)
    ensures SendsTo(SendsFor(cs, sender, payload, includeSender, openConst), id)
            == QualifyingWith(cs, id, sender, includeSender, openConst)
    decreases |cs|
  {
    if cs != [] {
      var init := cs[..|cs| - 1];
      var c := cs[|cs| - 1];
      SendsToCount(init, id, sender, payload, includeSender, openConst);
      var tail := if Qualifies(c, sender, includeSender, openConst) then [Send(c.id, payload)] else [];
      SendsToAppend(SendsFor(init, sender, payload, includeSender, openConst), tail, id);
      assert tail != [] ==> tail[..0] == [];
    }
  }

  /** No two entries of the client set are the same client. */
  predicate DistinctIds(cs: seq<Conn>) {
    forall j, k :: 0 <= j < k < |cs| ==> cs[j].id != cs[k].id
  }

  lemma {:induction false} QualifyingWithAbsent(cs: seq<Conn>, id: nat, sender: nat, includeSender: bool, openConst: Option<int>)
    requires forall j :: 0 <= j < |cs| ==> cs[j].id != id
    ensures QualifyingWith(cs, id, sender, includeSender, openConst) == 0
    decreases |cs|
  {
    if cs != [] {
      QualifyingWithAbsent(cs[..|cs| - 1], id, sender, includeSender, openConst);
    }
  }

  lemma {:induction false} QualifyingWithOne(cs: seq<Conn>, k: nat, sender: nat, includeSender: bool, openConst: Option<int>)
    requires DistinctIds(cs) && k < |cs|
    ensures QualifyingWith(cs, cs[k].id, sender, includeSender, openConst)
            == if Qualifies(cs[k], sender, includeSender, openConst) then 1 else 0
    decreases |cs|
  {
    var init := cs[..|cs| - 1];
    if k == |cs| - 1 {
      QualifyingWithAbsent(init, cs[k].id, sender, includeSender, openConst);
    } else {
      assert init[k] == cs[k];
      QualifyingWithOne(init, k, sender, includeSender, openConst);
    }
  }

  /** With one entry per client, each client is sent the payload exactly once if it qualifies
      and never otherwise. */
  lemma DeliveredExactlyOnce(cs: seq<Conn>, k: nat, sender: nat, payload: string, includeSender: bool, openConst: Option<int>)
    requires DistinctIds(cs) && k < |cs|
    ensures SendsTo(SendsFor(cs, sender, payload, includeSender, openConst), cs[k].id)
            == if Qualifies(cs[k], sender, includeSender, openConst) then 1 else 0
  {
    SendsToCount(cs, cs[k].id, sender, payload, includeSender, openConst);
    QualifyingWithOne(cs, k, sender, includeSender, openConst);
  }

  /** The `ws` relays that skip the sender: each client is sent the payload exactly once when it
      is open and is not the sender, and never otherwise. */
  lemma OpenOthersReceiveOnce(cs: seq<Conn>, sender: nat, k: nat, payload: string)
    requires DistinctIds(cs) && k < |cs|
    ensures SendsTo(SendsFor(cs, sender, payload, false, Some(WsOpen)), cs[k].id)
            == if cs[k].readyState == WsOpen && cs[k].id != sender then 1 else 0
  {
    DeliveredExactlyOnce(cs, k, sender, payload, false, Some(WsOpen));
  }

  /** Without the sender included, the sender is sent nothing. */
  lemma {:induction false} SenderSentNothing(cs: seq<Conn>, sender: nat, payload: string, openConst: Option<int>)
    ensures SendsTo(SendsFor(cs, sender, payload, false, openConst), sender) == 0
    decreases |cs|
  {
    SendsToCount(cs, sender, sender, payload, false, openConst);
    NoSenderQualifies(cs, sender, openConst);
  }

  lemma {:induction false} NoSenderQualifies(cs: seq<Conn>, sender: nat, openConst: Option<int>)
    ensures QualifyingWith(cs, sender, sender, false, openConst) == 0
    decreases |cs|
  {
    if cs != [] {
      NoSenderQualifies(cs[..|cs| - 1], sender, openConst);
    }
  }

  /** The number of clients that qualify. */
  function CountQualifying(cs: seq<Conn>, sender: nat, includeSender: bool, openConst: Option<int>): nat
    decreases |cs|
  {
    if cs == [] then 0
    else CountQualifying(cs[..|cs| - 1], sender, includeSender, openConst)
           + (if Qualifies(cs[|cs| - 1], sender, includeSender, openConst) then 1 else 0)
  }

  /** One send per qualifying client, and no other. */
  lemma {:induction false} SendCount(cs: seq<Conn>, sender: nat, payload: string, includeSender: bool, openConst: Option<int>)
    ensures |SendsFor(cs, sender, payload, includeSender, openConst)| == CountQualifying(cs, sender, includeSender, openConst)
    decreases |cs|
  {
    if cs != [] {
      SendCount(cs[..|cs| - 1], sender, payload, includeSender, openConst);
    }
  }

  /** When every client is open and the sender is one of them, excluding the sender reaches
      all the others: one send fewer than there are clients. */
  lemma {:induction false} AllOpenReachesOthers(cs: seq<Conn>, sender: nat, k: nat)
    requires DistinctIds(cs) && k < |cs| && cs[k].id == sender
    requires forall j :: 0 <= j < |cs| ==> cs[j].readyState == WsOpen
    ensures CountQualifying(cs, sender, false, Some(WsOpen)) == |cs| - 1
    decreases |cs|
  {
    var init := cs[..|cs| - 1];
    if k == |cs| - 1 {
      AllOpenOthersCount(init, sender);
    } else {
      assert init[k] == cs[k];
      AllOpenReachesOthers(init, sender, k);
    }
  }

  lemma {:induction false} AllOpenOthersCount(cs: seq<Conn>, sender: nat)
    requires forall j :: 0 <= j < |cs| ==> cs[j].readyState == WsOpen && cs[j].id != sender
    ensures CountQualifying(cs, sender, false, Some(WsOpen)) == |cs|
    decreases |cs|
  {
    if cs != [] {
      AllOpenOthersCount(cs[..|cs| - 1], sender);
    }
  }

  /** An `undefined` OPEN constant matches no client: the loop sends nothing. */
  lemma {:induction false} UndefinedOpenSendsNothing(cs: seq<Conn>, sender: nat, payload: string, includeSender: bool)
    ensures SendsFor(cs, sender, payload, includeSender, None) == []
    decreases |cs|
  {
    if cs != [] {
      UndefinedOpenSendsNothing(cs[..|cs| - 1], sender, payload, includeSender);
    }
  }

  /** The server's view of its connections: the client set the `ws` library maintains, and
      every `send` made so far, in order. */
  class Hub {
    var clients: seq<Conn>
    var sent: seq<Send>

    constructor (clients0: seq<Conn>)
      ensures clients == clients0 && sent == []
    {
      clients := clients0;
      sent := [];
    }

    /** The `forEach` loop: sends `payload` to each client that qualifies, in order. The client
        set is read, never changed. */
    method Broadcast(sender: nat, payload: string, includeSender: bool, openConst: Option<int>)
      modifies this
      ensures clients == old(clients)
      ensures sent == old(sent) + SendsFor(clients, sender, payload, includeSender, openConst)
    {
      var i := 0;
      ghost var start := sent;
      while i < |clients|
        invariant clients == old(clients)
        invariant 0 <= i <= |clients|
        invariant sent == start + SendsFor(clients[..i], sender, payload, includeSender, openConst)
      {
        var c := clients[i];
        assert clients[..i + 1][..i] == clients[..i];
        if Qualifies(c, sender, includeSender, openConst) {
          sent := sent + [Send(c.id, payload)];
        }
        i := i + 1;
      }
      assert clients[..i] == clients;
    }
  }
}
