/**
  The client's peer-session manager: the module-level `conns` registry of sessions by remote
  peer ID, the `pendingCandidates` queues of ICE candidates that arrived too early, the
  session's `send`/`close` primitives and the legacy in-memory file chunker.
  The WebRTC library is an oracle: `setRemoteDescription` succeeds or not (`descOk`) and
  `addIceCandidate` accepts a candidate or throws (`accept`).
*/
module PeerConnection {
  import opened Common
  import opened Chunking

  /** The `candidate` field of a signaling message: JSON null, another falsy value, or a candidate init. */
  datatype CandidateValue = Null | Falsy | Ice(init: string)

  /** What the model keeps of a session: whether `pc.remoteDescription` has a type, and `conn.dc`. */
  datatype Session = Session(remoteDescription: bool, dc: DataChannel)

  /** An inbound signaling message; "" stands for an absent or falsy `from`/`sdp`, `None` for no `candidate` key. */
  datatype Signal = Signal(kind: string, from: string, sdp: string, candidate: Option<CandidateValue>)

  /** What a drain did to one peer's queue: the candidates applied and those left queued. */
  datatype DrainOutcome = DrainOutcome(applied: seq<CandidateValue>, remaining: seq<CandidateValue>)

  datatype ConnectError = NotInitialized

  /** What `send` accepts: a string, an ArrayBuffer/Uint8Array, or any other value (JSON-serialized). */
  datatype Payload<V> = Text(s: string) | Bytes(b: seq<Byte>) | Structured(v: V)

  /** What travels on the data channel. */
  datatype Wire = TextFrame(s: string) | BinaryFrame(b: seq<Byte>)

  /** What `onData` hands to its handler: a parsed value, or the raw message when parsing is not possible. */
  datatype Delivered<V> = Value(v: V) | RawText(s: string) | RawBinary(b: seq<Byte>)

  /** The legacy chunker's messages (each JSON-serialized by `send`). */
  datatype LegacyMessage =
    | LegacyMeta(name: string, size: nat)
    | LegacyChunk(offset: nat, chunk: seq<Byte>)
    | LegacyComplete(name: string)

  const LEGACY_CHUNK: nat := 64 * 1024

  const NOT_OPEN := "Dc not open"

  /** The registry never keeps an empty candidate list. */
  predicate NoEmptyQueue(pending: map<string, seq<CandidateValue>>)
  {
    forall id | id in pending :: pending[id] != []
  }

  /**
    `safeAddCandidate`: a falsy candidate is never applied and yields undefined (`None`);
    otherwise true when `addIceCandidate` succeeds and false when it throws.
  */
  function SafeAddCandidate(cand: CandidateValue, accept: CandidateValue -> bool): (r: Option<bool>)
    ensures r.None? <==> !cand.Ice?
    ensures r == Some(true) <==> cand.Ice? && accept(cand)
    ensures r == Some(false) <==> cand.Ice? && !accept(cand)
  {
    if !cand.Ice? then None else Some(accept(cand))
  }

  /**
    The drain loop's result on queue `q`: candidates are tried in FIFO order, and the first
    one that fails stays at the head of what is left.
  */
  function Drain(q: seq<CandidateValue>, accept: CandidateValue -> bool): (d: DrainOutcome)
    ensures d.applied + d.remaining == q
    ensures forall i :: 0 <= i < |d.applied| ==> accept(d.applied[i])
    ensures d.remaining == [] || !accept(d.remaining[0])
  {
    if |q| == 0 then DrainOutcome([], [])
    else if !accept(q[0]) then DrainOutcome([], q)
    else
      var rest := Drain(q[1..], accept);
      DrainOutcome([q[0]] + rest.applied, rest.remaining)
  }

  /** The three properties of `Drain` determine it: the applied part is the longest accepted prefix. */
  lemma {:induction false} DrainUnique(q: seq<CandidateValue>, accept: CandidateValue -> bool, applied: seq<CandidateValue>, remaining: seq<CandidateValue>)
    requires applied + remaining == q
    requires forall i :: 0 <= i < |applied| ==> accept(applied[i])
    requires remaining == [] || !accept(remaining[0])
    ensures Drain(q, accept) == DrainOutcome(applied, remaining)
  {
    if |applied| > 0 {
      assert q[0] == applied[0] && accept(q[0]);
      assert applied[1..] + remaining == q[1..];
      DrainUnique(q[1..], accept, applied[1..], remaining);
      assert [q[0]] + applied[1..] == applied;
    } else if |q| > 0 {
      assert remaining == q;
    }
  }

  /** Draining again right after a drain applies nothing new and leaves the queue as it is. */
  lemma DrainIdempotent(q: seq<CandidateValue>, accept: CandidateValue -> bool)
    ensures var d := Drain(q, accept);
      Drain(d.remaining, accept) == DrainOutcome([], d.remaining)
  {
    var d := Drain(q, accept);
    DrainUnique(d.remaining, accept, [], d.remaining);
  }

  /** Queueing appends at the end of one peer's list and leaves every other peer's list alone. */
  function Enqueue(pending: map<string, seq<CandidateValue>>, id: string, c: CandidateValue): (p: map<string, seq<CandidateValue>>)
    ensures p.Keys == pending.Keys + {id}
    ensures p[id] == (if id in pending then pending[id] else []) + [c]
    ensures forall other :: other in pending && other != id ==> p[other] == pending[other]
    ensures NoEmptyQueue(pending) ==> NoEmptyQueue(p)
  {
    pending[id := (if id in pending then pending[id] else []) + [c]]
  }

  /** Whether `drainPendingCandidates` gets past its guards: a non-empty queue and a session with a remote description. */
  predicate CanDrain(conns: map<string, Session>, pending: map<string, seq<CandidateValue>>, id: string)
  {
    id in pending && pending[id] != [] && id in conns && conns[id].remoteDescription
  }

  /** The queue map after a drain of `id`: the entry goes when nothing is left, else holds the rest. */
  function AfterDrain(pending: map<string, seq<CandidateValue>>, id: string, accept: CandidateValue -> bool): (p: map<string, seq<CandidateValue>>)
    requires id in pending
    ensures NoEmptyQueue(pending) ==> NoEmptyQueue(p)
    ensures forall other :: other != id ==> (other in p <==> other in pending)
    ensures forall other :: other in pending && other != id ==> p[other] == pending[other]
    ensures id in p <==> Drain(pending[id], accept).remaining != []
    ensures id in p ==> p[id] == Drain(pending[id], accept).remaining
  {
    var rest := Drain(pending[id], accept).remaining;
    if rest == [] then pending - {id} else pending[id := rest]
  }

  /** `conn.send`: refuses unless the channel is open; strings and bytes pass through, anything else is serialized. */
  function Send<V>(dc: DataChannel, d: Payload<V>, stringify: V -> string): (r: Result<Wire, string>)
    ensures r.Err? <==> !IsOpen(dc)
    ensures r.Err? ==> r.error == NOT_OPEN
    ensures r.Ok? && d.Text? ==> r.value == TextFrame(d.s)
    ensures r.Ok? && d.Bytes? ==> r.value == BinaryFrame(d.b)
    ensures r.Ok? && d.Structured? ==> r.value == TextFrame(stringify(d.v))
  {
    if !IsOpen(dc) then Err(NOT_OPEN)
    else
      match d
      case Text(s) => Ok(TextFrame(s))
      case Bytes(b) => Ok(BinaryFrame(b))
      case Structured(v) => Ok(TextFrame(stringify(v)))
  }

  /** `onData`'s wrapper: a string is parsed when it parses, otherwise the raw message goes through. */
  function OnData<V>(raw: Wire, parse: string -> Option<V>): (r: Delivered<V>)
    ensures raw.BinaryFrame? ==> r == RawBinary(raw.b)
    ensures raw.TextFrame? && parse(raw.s).Some? ==> r == Value(parse(raw.s).value)
    ensures raw.TextFrame? && parse(raw.s).None? ==> r == RawText(raw.s)
  {
    match raw
    case BinaryFrame(b) => RawBinary(b)
    case TextFrame(s) => if parse(s).Some? then Value(parse(s).value) else RawText(s)
  }

  /** A structured value sent on an open channel reaches the peer's handler as the same value. */
  lemma SendOnDataRoundTrip<V>(dc: DataChannel, v: V, stringify: V -> string, parse: string -> Option<V>)
    requires IsOpen(dc) && parse(stringify(v)) == Some(v)
    ensures Send(dc, Structured(v), stringify).Ok?
    ensures OnData(Send(dc, Structured(v), stringify).value, parse) == Value(v)
  {
  }

  function LegacyChunks(ps: seq<Piece>): (ms: seq<LegacyMessage>)
    ensures |ms| == |ps|
    ensures forall i :: 0 <= i < |ps| ==> ms[i] == LegacyChunk(ps[i].offset, ps[i].bytes)
  {
    seq(|ps|, i requires 0 <= i < |ps| => LegacyChunk(ps[i].offset, ps[i].bytes))
  }

  lemma LegacyChunksAppend(ps: seq<Piece>, p: Piece)
    ensures LegacyChunks(ps + [p]) == LegacyChunks(ps) + [LegacyChunk(p.offset, p.bytes)]
  {
  }

  /**
    The legacy `sendFile`: a meta message, 64 KiB chunks tagged with their offsets, a complete
    message. `send` is synchronous, so on a channel that is not open the very first `send`
    throws and nothing goes out.
  */
  method SendFile(dc: DataChannel, fileName: string, data: seq<Byte>) returns (r: Result<seq<LegacyMessage>, string>)
    ensures r.Err? <==> !IsOpen(dc)
    ensures r.Err? ==> r.error == NOT_OPEN
    ensures r.Ok? ==>
      r.value == [LegacyMeta(fileName, |data|)] + LegacyChunks(Split(data, LEGACY_CHUNK, 0)) + [LegacyComplete(fileName)]
  {
    if !IsOpen(dc) {
      return Err(NOT_OPEN);
    }
    var total := |data|;
    var chunks: seq<LegacyMessage> := [];
    var offset := 0;
    ghost var pieces: seq<Piece> := [];
    assert data[0..] == data;
    while offset < total
      invariant offset <= total
      invariant Split(data, LEGACY_CHUNK, 0) == pieces + Split(data[offset..], LEGACY_CHUNK, offset)
      invariant chunks == LegacyChunks(pieces)
    {
      var end := Min(offset + LEGACY_CHUNK, total);
      var chunk := data[offset..end];
      SplitStep(data, LEGACY_CHUNK, offset);
      LegacyChunksAppend(pieces, Piece(offset, chunk));
      chunks := chunks + [LegacyChunk(offset, chunk)];
      pieces := pieces + [Piece(offset, chunk)];
      offset := end;
    }
    assert Split(data[offset..], LEGACY_CHUNK, offset) == [];
    var sent := [LegacyMeta(fileName, total)] + chunks + [LegacyComplete(fileName)];
    return Ok(sent);
  }

  /** The legacy chunk offsets run from 0 without gaps, and the chunks together are the file. */
  lemma LegacyChunksCoverFile(data: seq<Byte>)
    ensures var ps := Split(data, LEGACY_CHUNK, 0);
      Contiguous(ps, 0, |data|) && WellSized(ps, LEGACY_CHUNK) && Joined(ps) == data
  {
    SplitContiguous(data, LEGACY_CHUNK, 0);
    SplitWellSized(data, LEGACY_CHUNK, 0);
    SplitJoined(data, LEGACY_CHUNK, 0);
  }

  /** The client's module-level state: `conns`, `pendingCandidates` and `myId`. */
  class Registry {
    var conns: map<string, Session>
    var pending: map<string, seq<CandidateValue>>
    var myId: Option<string>

    ghost predicate Valid()
      reads this
    {
      NoEmptyQueue(pending)
    }

    constructor ()
      ensures Valid() && conns == map[] && pending == map[] && myId == None
    {
      conns, pending, myId := map[], map[], None;
    }

    /** The signaling socket opened and registered as `id` (the `onopen` of `connectWs`). */
    method OnSignalingOpen(id: string)
      requires Valid()
      modifies this
      ensures Valid() && myId == Some(id) && conns == old(conns) && pending == old(pending)
    {
      myId := Some(id);
    }

    /** `drainPendingCandidates`, run atomically; returns the candidates handed to `addIceCandidate`, in order. */
    method DrainPendingCandidates(remoteId: string, accept: CandidateValue -> bool) returns (attempted: seq<CandidateValue>)
      requires Valid()
      modifies this
      ensures Valid() && conns == old(conns) && myId == old(myId)
      ensures !CanDrain(old(conns), old(pending), remoteId) ==> pending == old(pending) && attempted == []
      ensures CanDrain(old(conns), old(pending), remoteId) ==>
        var d := Drain(old(pending)[remoteId], accept);
        && pending == AfterDrain(old(pending), remoteId, accept)
        && attempted == d.applied + (if d.remaining == [] then [] else [d.remaining[0]])
    {
      attempted := [];
      if !(remoteId in pending && pending[remoteId] != []) {
        return;
      }
      var queued := pending[remoteId];
      if remoteId !in conns {
        return;
      }
      if !conns[remoteId].remoteDescription {
        return;
      }
      ghost var applied: seq<CandidateValue> := [];
      while |queued| > 0
        invariant applied + queued == old(pending)[remoteId]
        invariant forall i :: 0 <= i < |applied| ==> accept(applied[i])
        invariant attempted == applied
        decreases |queued|
      {
        var cand := queued[0];
        queued := queued[1..];
        attempted := attempted + [cand];
        if accept(cand) {
          applied := applied + [cand];
        } else {
          queued := [cand] + queued;
          break;
        }
      }
      DrainUnique(old(pending)[remoteId], accept, applied, queued);
      if |queued| == 0 {
        pending := pending - {remoteId};
      } else {
        pending := pending[remoteId := queued];
      }
    }

    /** The `offer` branch: a fresh responder session replaces any existing one; on success of the remote description, drain. */
    method OnOffer(remoteId: string, descOk: bool, accept: CandidateValue -> bool) returns (attempted: seq<CandidateValue>)
      requires Valid() && remoteId != ""
      modifies this
      ensures Valid() && myId == old(myId)
      ensures conns == old(conns)[remoteId := Session(descOk, NoChannel)]
      ensures !descOk ==> pending == old(pending) && attempted == []
      ensures descOk && remoteId in old(pending) ==>
        var d := Drain(old(pending)[remoteId], accept);
        && pending == AfterDrain(old(pending), remoteId, accept)
        && attempted == d.applied + (if d.remaining == [] then [] else [d.remaining[0]])
      ensures descOk && remoteId !in old(pending) ==> pending == old(pending) && attempted == []
    {
      conns := conns[remoteId := Session(false, NoChannel)];
      attempted := [];
      if descOk {
        conns := conns[remoteId := Session(true, NoChannel)];
        attempted := DrainPendingCandidates(remoteId, accept);
      }
    }

    /** The `answer` branch: for a known session, apply the remote description and drain; otherwise nothing. */
    method OnAnswer(remoteId: string, descOk: bool, accept: CandidateValue -> bool) returns (attempted: seq<CandidateValue>)
      requires Valid()
      modifies this
      ensures Valid() && myId == old(myId)
      ensures !(remoteId in old(conns) && descOk) ==> conns == old(conns) && pending == old(pending) && attempted == []
      ensures remoteId in old(conns) && descOk ==>
        && conns == old(conns)[remoteId := old(conns)[remoteId].(remoteDescription := true)]
        && (remoteId in old(pending) ==>
          var d := Drain(old(pending)[remoteId], accept);
          && pending == AfterDrain(old(pending), remoteId, accept)
          && attempted == d.applied + (if d.remaining == [] then [] else [d.remaining[0]]))
        && (remoteId !in old(pending) ==> pending == old(pending) && attempted == [])
    {
      attempted := [];
      if remoteId in conns && descOk {
        conns := conns[remoteId := conns[remoteId].(remoteDescription := true)];
        attempted := DrainPendingCandidates(remoteId, accept);
      }
    }

    /**
      The `candidate` branch: null is ignored; without a session or a remote description the
      candidate is queued; otherwise it is applied, and queued when that does not succeed.
    */
    method OnCandidate(remoteId: string, cand: CandidateValue, accept: CandidateValue -> bool) returns (applied: bool)
      requires Valid()
      modifies this
      ensures Valid() && conns == old(conns) && myId == old(myId)
      ensures cand.Null? ==> pending == old(pending) && !applied
      ensures !cand.Null? && !(remoteId in conns && conns[remoteId].remoteDescription) ==>
        pending == Enqueue(old(pending), remoteId, cand) && !applied
      ensures !cand.Null? && remoteId in conns && conns[remoteId].remoteDescription ==>
        && applied == (SafeAddCandidate(cand, accept) == Some(true))
        && pending == if applied then old(pending) else Enqueue(old(pending), remoteId, cand)
    {
      applied := false;
      if cand.Null? {
        return;
      }
      if remoteId !in conns {
        pending := Enqueue(pending, remoteId, cand);
        return;
      }
      if !conns[remoteId].remoteDescription {
        pending := Enqueue(pending, remoteId, cand);
        return;
      }
      var ok := SafeAddCandidate(cand, accept);
      applied := ok == Some(true);
      if !applied {
        pending := Enqueue(pending, remoteId, cand);
      }
    }

    /** `ws.onmessage`: routes a parsed signal to the offer, answer or candidate branch; anything else is ignored. */
    method OnSignal(msg: Signal, descOk: bool, accept: CandidateValue -> bool)
      requires Valid()
      modifies this
      ensures Valid() && myId == old(myId)
      ensures !(msg.kind in {"offer", "answer", "candidate"}) ==> conns == old(conns) && pending == old(pending)
      ensures msg.from == "" ==> conns == old(conns) && pending == old(pending)
      ensures msg.kind == "offer" && msg.from != "" && msg.sdp != "" ==> msg.from in conns
      ensures msg.kind == "candidate" ==> conns == old(conns)
    {
      if msg.kind == "offer" && msg.from != "" && msg.sdp != "" {
        var _ := OnOffer(msg.from, descOk, accept);
      } else if msg.kind == "answer" && msg.from != "" && msg.sdp != "" {
        var _ := OnAnswer(msg.from, descOk, accept);
      } else if msg.kind == "candidate" && msg.from != "" && msg.candidate.Some? {
        var _ := OnCandidate(msg.from, msg.candidate.value, accept);
      }
    }

    /** `connectToPeer` up to sending the offer: refused before initialisation, else an initiator session with its own channel. */
    method ConnectToPeer(remoteId: string) returns (r: Result<(), ConnectError>)
      requires Valid()
      modifies this
      ensures Valid() && pending == old(pending) && myId == old(myId)
      ensures r.Err? <==> !(myId.Some? && myId.value != "")
      ensures r.Err? ==> conns == old(conns)
      ensures r.Ok? ==> conns == old(conns)[remoteId := Session(false, Channel(Connecting))]
    {
      if !(myId.Some? && myId.value != "") {
        return Err(NotInitialized);
      }
      conns := conns[remoteId := Session(false, Channel(Connecting))];
      return Ok(());
    }

    /** `conn.close` (also what a `connectToPeer` timeout calls): the session leaves `conns` whatever its state. */
    method Close(remoteId: string)
      requires Valid()
      modifies this
      ensures Valid() && remoteId !in conns
      ensures conns == old(conns) - {remoteId} && pending == old(pending) && myId == old(myId)
    {
      conns := conns - {remoteId};
    }

    /** `destroyPeer`: every session is closed, the registry is cleared and `myId` forgotten. */
    method DestroyPeer()
      requires Valid()
      modifies this
      ensures Valid() && conns == map[] && myId == None && pending == old(pending)
    {
      var ids := conns.Keys;
      while ids != {}
        invariant Valid() && pending == old(pending) && myId == old(myId)
        invariant conns.Keys <= ids
        decreases ids
      {
        var id :| id in ids;
        Close(id);
        ids := ids - {id};
      }
      conns := map[];
      myId := None;
    }
  }

  /** Closing twice is the same as closing once. */
  method CloseTwice(r: Registry, remoteId: string)
    requires r.Valid()
    modifies r
    ensures r.Valid() && remoteId !in r.conns && r.conns == old(r.conns) - {remoteId}
  {
    r.Close(remoteId);
    r.Close(remoteId);
  }
}
