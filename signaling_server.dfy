/**
  The signaling relay: a WebSocket server that keeps a `peers` map from peer ID to connection,
  registers IDs, forwards offer/answer/candidate messages to their `to` peer and answers
  `peer-offline` when that peer is not reachable. Connections are numbered; which of them are
  open at a given moment (`readyState === OPEN`) is an input of each message event.
*/
module SignalingServer {
  import opened Common

  type ConnId = nat

  /**
    A parsed relay message. A field the JSON leaves out, or gives a falsy value, is "".
    `body` stands for the rest of the object (sdp, candidate, from), which the relay never reads.
  */
  datatype Msg = Msg(kind: string, id: string, to: string, body: string)

  /**
    A raw WebSocket message: its JSON parse failed, it parsed to `null` (on which reading
    `msg.type` throws), or it yields a message.
  */
  datatype Inbound = Unparseable | NullBody | Parsed(msg: Msg)

  datatype Outgoing = Forwarded(msg: Msg) | PeerOffline(to: string)

  /** One `send` on connection `dest`. */
  datatype Delivery = Delivery(dest: ConnId, out: Outgoing)

  /** The `peers` map and, per connection, the `myId` it last registered (absent while null). */
  datatype RelayState = RelayState(peers: map<string, ConnId>, myIds: map<ConnId, string>)

  datatype Event =
    | Message(conn: ConnId, raw: Inbound, open: set<ConnId>)
    | Close(conn: ConnId)

  const INITIAL: RelayState := RelayState(map[], map[])

  predicate IsRelayed(kind: string)
  {
    kind == "offer" || kind == "answer" || kind == "candidate"
  }

  predicate Registers(raw: Inbound)
  {
    raw.Parsed? && raw.msg.kind == "register" && raw.msg.id != ""
  }

  /** Where a relayed message goes: to the `to` peer when it is mapped and open, else back to its sender. */
  function Route(peers: map<string, ConnId>, open: set<ConnId>, sender: ConnId, msg: Msg): (d: Delivery)
    ensures d.out.Forwarded? <==> msg.to in peers && peers[msg.to] in open
    ensures d.out.Forwarded? ==> d.dest == peers[msg.to] && d.out.msg == msg
    ensures d.out.PeerOffline? ==> d.dest == sender && d.out.to == msg.to
  {
    if msg.to in peers && peers[msg.to] in open then Delivery(peers[msg.to], Forwarded(msg))
    else Delivery(sender, PeerOffline(msg.to))
  }

  /**
    The effect of one event: the new routing state and the messages sent. A `null` body is
    dropped like unparseable JSON, which is what the handler evidently intends; `RunAsWritten`
    models what the code does with it instead.
  */
  function Step(s: RelayState, e: Event): (r: (RelayState, seq<Delivery>))
    ensures e.Message? && !Registers(e.raw) ==> r.0 == s
    ensures e.Message? && Registers(e.raw) ==>
      r.0.peers == s.peers[e.raw.msg.id := e.conn] && r.0.myIds == s.myIds[e.conn := e.raw.msg.id] && r.1 == []
    ensures e.Message? && e.raw.Parsed? && IsRelayed(e.raw.msg.kind) ==>
      r.1 == [Route(s.peers, e.open, e.conn, e.raw.msg)]
    ensures e.Message? && (e.raw.Unparseable? || e.raw.NullBody? || (!Registers(e.raw) && !IsRelayed(e.raw.msg.kind))) ==>
      r.1 == []
    ensures e.Close? ==> r.1 == [] && r.0.myIds == s.myIds
    ensures e.Close? && e.conn in s.myIds ==> r.0.peers == s.peers - {s.myIds[e.conn]}
    ensures e.Close? && e.conn !in s.myIds ==> r.0 == s
  {
    match e
    case Message(c, raw, open) =>
      if !raw.Parsed? then (s, [])
      else if Registers(raw) then (RelayState(s.peers[raw.msg.id := c], s.myIds[c := raw.msg.id]), [])
      else if IsRelayed(raw.msg.kind) then (s, [Route(s.peers, open, c, raw.msg)])
      else (s, [])
    case Close(c) =>
      if c in s.myIds then (RelayState(s.peers - {s.myIds[c]}, s.myIds), []) else (s, [])
  }

  /** A whole event trace, folded from the first event to the last. */
  function Run(s: RelayState, trace: seq<Event>): (RelayState, seq<Delivery>)
  {
    if |trace| == 0 then (s, [])
    else
      var before := Run(s, trace[..|trace| - 1]);
      var last := Step(before.0, trace[|trace| - 1]);
      (last.0, before.1 + last.1)
  }

  /** The connection that most recently registered `id` in `trace`, if any. */
  function LastRegistrant(trace: seq<Event>, id: string): Option<ConnId>
  {
    if |trace| == 0 then None
    else
      var e := trace[|trace| - 1];
      if e.Message? && Registers(e.raw) && e.raw.msg.id == id then Some(e.conn)
      else LastRegistrant(trace[..|trace| - 1], id)
  }

  predicate HasClose(trace: seq<Event>)
  {
    exists i :: 0 <= i < |trace| && trace[i].Close?
  }

  /** Last writer wins: every mapped ID is non-empty and maps to the connection that registered it last. */
  lemma {:induction false} PeersAreLastRegistrants(trace: seq<Event>)
    ensures var peers := Run(INITIAL, trace).0.peers;
      forall id :: id in peers ==> id != "" && LastRegistrant(trace, id) == Some(peers[id])
  {
    if |trace| > 0 {
      var prefix := trace[..|trace| - 1];
      var e := trace[|trace| - 1];
      PeersAreLastRegistrants(prefix);
      var before := Run(INITIAL, prefix).0;
      var after := Run(INITIAL, trace).0;
      assert after == Step(before, e).0;
      forall id | id in after.peers
        ensures id != "" && LastRegistrant(trace, id) == Some(after.peers[id])
      {
        if e.Message? && Registers(e.raw) && e.raw.msg.id == id {
          assert LastRegistrant(trace, id) == Some(e.conn);
        } else {
          assert LastRegistrant(trace, id) == LastRegistrant(prefix, id);
          assert id in before.peers && after.peers[id] == before.peers[id];
        }
      }
    }
  }

  /** Without disconnects, an ID is mapped exactly when someone has registered it. */
  lemma {:induction false} RegisteredIdsStayMapped(trace: seq<Event>, id: string)
    requires !HasClose(trace)
    ensures id in Run(INITIAL, trace).0.peers <==> LastRegistrant(trace, id).Some?
  {
    if |trace| > 0 {
      var prefix := trace[..|trace| - 1];
      assert !HasClose(prefix) by {
        forall i | 0 <= i < |prefix| ensures !prefix[i].Close? { assert prefix[i] == trace[i]; }
      }
      assert !trace[|trace| - 1].Close?;
      RegisteredIdsStayMapped(prefix, id);
      PeersAreLastRegistrants(trace);
    }
  }

  /** Every message the relay sends is either a relayed message unchanged or a peer-offline reply. */
  lemma {:induction false} SendsOnlyRelayedOrOffline(s: RelayState, trace: seq<Event>)
    ensures forall d :: d in Run(s, trace).1 ==>
      (d.out.Forwarded? && IsRelayed(d.out.msg.kind)) || d.out.PeerOffline?
  {
    if |trace| > 0 {
      SendsOnlyRelayedOrOffline(s, trace[..|trace| - 1]);
    }
  }

  /**
    The close handler deletes `myId` whatever connection the ID now maps to: when a client
    re-registers on a fresh socket before the old one's close arrives, the live
    registration is lost and messages to it are answered with peer-offline.
  */
  lemma StaleCloseEvictsLiveRegistration()
    ensures var offer := Msg("offer", "", "111111", "X");
      var trace := [
        Message(1, Parsed(Msg("register", "111111", "", "")), {1}),
        Message(2, Parsed(Msg("register", "111111", "", "")), {1, 2}),
        Close(1),
        Message(3, Parsed(offer), {2, 3})];
      && LastRegistrant(trace, "111111") == Some(2)
      && Run(INITIAL, trace).1 == [Delivery(3, PeerOffline("111111"))]
  {
    var offer := Msg("offer", "", "111111", "X");
    var e0 := Message(1, Parsed(Msg("register", "111111", "", "")), {1});
    var e1 := Message(2, Parsed(Msg("register", "111111", "", "")), {1, 2});
    var e2 := Close(1);
    var e3 := Message(3, Parsed(offer), {2, 3});
    var trace := [e0, e1, e2, e3];
    assert trace[..3] == [e0, e1, e2] && [e0, e1, e2][..2] == [e0, e1] && [e0, e1][..1] == [e0];
    assert [e0][..0] == [];
    var s1 := Step(INITIAL, e0).0;
    var s2 := Step(s1, e1).0;
    var s3 := Step(s2, e2).0;
    assert s2.peers == map["111111" := 2] && s2.myIds == map[1 := "111111", 2 := "111111"];
    assert s3.peers == map[];
    assert Run(INITIAL, [e0][..0]) == (INITIAL, []);
    assert Registers(e0.raw);
    assert Step(INITIAL, e0).1 == [];
    assert Run(INITIAL, [e0]).0 == s1;
    assert Run(INITIAL, [e0]).1 == Run(INITIAL, [e0][..0]).1 + Step(INITIAL, e0).1;
    assert Run(INITIAL, [e0]).1 == [];
    assert Run(INITIAL, [e0]) == (s1, []);
    assert Run(INITIAL, [e0, e1]) == (s2, []);
    assert Run(INITIAL, [e0, e1, e2]) == (s3, []);
    assert LastRegistrant([e0, e1], "111111") == Some(2);
    assert LastRegistrant([e0, e1, e2], "111111") == Some(2);
  }

  /** The close handler as evidently intended: forget `myId` only while it still maps to this connection. */
  function StepGuarded(s: RelayState, e: Event): (r: (RelayState, seq<Delivery>))
    ensures e.Message? ==> r == Step(s, e)
    ensures e.Close? && e.conn in s.myIds && s.myIds[e.conn] in s.peers && s.peers[s.myIds[e.conn]] == e.conn ==>
      r == (RelayState(s.peers - {s.myIds[e.conn]}, s.myIds), [])
    ensures e.Close? && e.conn in s.myIds && s.myIds[e.conn] in s.peers && s.peers[s.myIds[e.conn]] != e.conn ==>
      r == (s, [])
    ensures e.Close? && !(e.conn in s.myIds && s.myIds[e.conn] in s.peers) ==> r == (s, [])
  {
    match e
    case Message(_, _, _) => Step(s, e)
    case Close(c) =>
      if c in s.myIds && s.myIds[c] in s.peers && s.peers[s.myIds[c]] == c then
        (RelayState(s.peers - {s.myIds[c]}, s.myIds), [])
      else (s, [])
  }

  function RunGuarded(s: RelayState, trace: seq<Event>): (RelayState, seq<Delivery>)
  {
    if |trace| == 0 then (s, [])
    else
      var before := RunGuarded(s, trace[..|trace| - 1]);
      var last := StepGuarded(before.0, trace[|trace| - 1]);
      (last.0, before.1 + last.1)
  }

  predicate NeverClosed(trace: seq<Event>, c: ConnId)
  {
    forall i :: 0 <= i < |trace| ==> trace[i] != Close(c)
  }

  /** With the guarded close, an ID whose last registrant is still connected stays mapped to it. */
  lemma {:induction false} GuardedCloseKeepsLiveRegistration(trace: seq<Event>, id: string, c: ConnId)
    requires LastRegistrant(trace, id) == Some(c) && NeverClosed(trace, c)
    ensures id in RunGuarded(INITIAL, trace).0.peers && RunGuarded(INITIAL, trace).0.peers[id] == c
  {
    var prefix := trace[..|trace| - 1];
    var e := trace[|trace| - 1];
    if !(e.Message? && Registers(e.raw) && e.raw.msg.id == id) {
      assert NeverClosed(prefix, c) by {
        forall i | 0 <= i < |prefix| ensures prefix[i] != Close(c) { assert prefix[i] == trace[i]; }
      }
      GuardedCloseKeepsLiveRegistration(prefix, id, c);
    }
  }

  predicate HasNullBody(trace: seq<Event>)
  {
    exists i :: 0 <= i < |trace| && trace[i].Message? && trace[i].raw.NullBody?
  }

  /**
    The relay process as written: a `null` body makes `msg.type` throw inside the `message`
    listener, nothing catches it, and the process dies (`None`) with every registration it held.
  */
  function RunAsWritten(s: RelayState, trace: seq<Event>): Option<(RelayState, seq<Delivery>)>
  {
    if |trace| == 0 then Some((s, []))
    else
      var before := RunAsWritten(s, trace[..|trace| - 1]);
      var e := trace[|trace| - 1];
      if before.None? || (e.Message? && e.raw.NullBody?) then None
      else
        var last := Step(before.value.0, e);
        Some((last.0, before.value.1 + last.1))
  }

  /** The process survives a trace exactly when no message in it is `null`, and then it behaves as `Run`. */
  lemma {:induction false} RunAsWrittenDiesOnNull(s: RelayState, trace: seq<Event>)
    ensures RunAsWritten(s, trace).None? <==> HasNullBody(trace)
    ensures !HasNullBody(trace) ==> RunAsWritten(s, trace) == Some(Run(s, trace))
  {
    if |trace| > 0 {
      var prefix := trace[..|trace| - 1];
      RunAsWrittenDiesOnNull(s, prefix);
      if HasNullBody(prefix) {
        var i :| 0 <= i < |prefix| && prefix[i].Message? && prefix[i].raw.NullBody?;
        assert trace[i] == prefix[i];
      }
      if HasNullBody(trace) {
        var i :| 0 <= i < |trace| && trace[i].Message? && trace[i].raw.NullBody?;
        if i < |prefix| {
          assert prefix[i] == trace[i];
        }
      }
    }
  }

  /**
    One `null` message from any client takes the relay down: a peer registered before it can
    no longer be reached, where dropping the message would have forwarded the offer.
  */
  lemma NullBodyKillsRelay()
    ensures var offer := Msg("offer", "", "111111", "X");
      var trace := [
        Message(1, Parsed(Msg("register", "111111", "", "")), {1}),
        Message(2, NullBody, {1, 2}),
        Message(3, Parsed(offer), {1, 3})];
      && RunAsWritten(INITIAL, trace).None?
      && Run(INITIAL, trace).1 == [Delivery(1, Forwarded(offer))]
  {
    var offer := Msg("offer", "", "111111", "X");
    var e0 := Message(1, Parsed(Msg("register", "111111", "", "")), {1});
    var e1 := Message(2, NullBody, {1, 2});
    var e2 := Message(3, Parsed(offer), {1, 3});
    var trace := [e0, e1, e2];
    assert trace[..2] == [e0, e1] && [e0, e1][..1] == [e0] && [e0][..0] == [];
    var s1 := Step(INITIAL, e0).0;
    assert s1.peers == map["111111" := 1];
    assert Run(INITIAL, [e0][..0]) == (INITIAL, []);
    assert Registers(e0.raw) && Step(INITIAL, e0).1 == [];
    assert Run(INITIAL, [e0]).1 == Run(INITIAL, [e0][..0]).1 + Step(INITIAL, e0).1;
    assert Run(INITIAL, [e0]) == (s1, []);
    assert Run(INITIAL, [e0, e1]) == (s1, []);
    assert [e0, e1][1] == e1 && e1.raw.NullBody?;
    assert RunAsWritten(INITIAL, [e0, e1][..1]).Some?;
    assert RunAsWritten(INITIAL, [e0, e1]).None?;
  }

  /** With the `null` body dropped, such a message changes no state and sends nothing. */
  lemma NullBodyChangesNothing(s: RelayState, trace: seq<Event>, c: ConnId, open: set<ConnId>)
    ensures Run(s, trace + [Message(c, NullBody, open)]) == Run(s, trace)
  {
    var e := Message(c, NullBody, open);
    assert (trace + [e])[..|trace|] == trace && (trace + [e])[|trace|] == e;
    var before := Run(s, trace);
    assert Step(before.0, e) == (before.0, []);
    assert before.1 + [] == before.1;
  }

  /**
    The relay process: the shared `peers` map, each connection's `myId`, everything sent so far,
    and whether the process has died of an exception that escaped a listener.
  */
  class Relay {
    var peers: map<string, ConnId>
    var myIds: map<ConnId, string>
    var outbox: seq<Delivery>
    var down: bool

    ghost predicate Valid()
      reads this
    {
      "" !in peers
    }

    function State(): RelayState
      reads this
    {
      RelayState(peers, myIds)
    }

    constructor ()
      ensures Valid() && State() == INITIAL && outbox == [] && !down
    {
      peers, myIds, outbox, down := map[], map[], [], false;
    }

    /** The `message` handler of connection `conn`; a `null` body throws out of it and the process dies. */
    method OnMessage(conn: ConnId, raw: Inbound, open: set<ConnId>)
      requires Valid()
      modifies this
      ensures Valid()
      ensures down == (old(down) || raw.NullBody?)
      ensures down ==> State() == old(State()) && outbox == old(outbox)
      ensures !down ==> var r := Step(old(State()), Message(conn, raw, open));
        State() == r.0 && outbox == old(outbox) + r.1
      ensures !down && raw.Unparseable? ==> State() == old(State()) && outbox == old(outbox)
      ensures !down && Registers(raw) ==>
        && peers == old(peers)[raw.msg.id := conn]
        && myIds == old(myIds)[conn := raw.msg.id]
        && outbox == old(outbox)
      ensures !down && raw.Parsed? && !Registers(raw) ==> peers == old(peers) && myIds == old(myIds)
      ensures !down && raw.Parsed? && IsRelayed(raw.msg.kind) && raw.msg.to in peers && peers[raw.msg.to] in open ==>
        outbox == old(outbox) + [Delivery(peers[raw.msg.to], Forwarded(raw.msg))]
      ensures !down && raw.Parsed? && IsRelayed(raw.msg.kind) && !(raw.msg.to in peers && peers[raw.msg.to] in open) ==>
        outbox == old(outbox) + [Delivery(conn, PeerOffline(raw.msg.to))]
      ensures !down && raw.Parsed? && !Registers(raw) && !IsRelayed(raw.msg.kind) ==> outbox == old(outbox)
    {
      if down || raw.Unparseable? {
        return;
      }
      if raw.NullBody? {
        down := true;
        return;
      }
      var msg := raw.msg;
      if msg.kind == "register" && msg.id != "" {
        myIds := myIds[conn := msg.id];
        peers := peers[msg.id := conn];
        return;
      }
      if IsRelayed(msg.kind) {
        if msg.to in peers && peers[msg.to] in open {
          outbox := outbox + [Delivery(peers[msg.to], Forwarded(msg))];
        } else {
          outbox := outbox + [Delivery(conn, PeerOffline(msg.to))];
        }
        return;
      }
    }

    /** The `close` handler of connection `conn`; a dead process handles nothing. */
    method OnClose(conn: ConnId)
      requires Valid()
      modifies this
      ensures Valid() && down == old(down) && outbox == old(outbox) && myIds == old(myIds)
      ensures down ==> State() == old(State())
      ensures !down ==> State() == Step(old(State()), Close(conn)).0
      ensures !down && conn in myIds ==> peers == old(peers) - {myIds[conn]}
      ensures !down && conn !in myIds ==> peers == old(peers)
    {
      if !down && conn in myIds {
        peers := peers - {myIds[conn]};
      }
    }
  }
}
