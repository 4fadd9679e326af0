/**
  The two ends of a file transfer put together: what a successful `sendFileStream` puts on the
  data channel, handed in order to the receiver (the channel is ordered and reliable), with
  every storage call on the receiving side succeeding, leaves the receiver with a byte-identical
  copy of the file, and the receiver's progress calls repeat the sender's.
*/
module EndToEnd {
  import opened Common
  import opened Chunking
  import S = SendFile
  import R = ReceiveFile

  /** How the receiver sees a frame: the two JSON frames arrive as text, a chunk as an `ArrayBuffer`. */
  function ToMessage(f: Frame): R.DcMessage
  {
    match f
    case FileMeta(name, size) => R.Text(Some(R.Control(R.META, name, size)))
    case Chunk(bytes) => R.Binary(Some(bytes))
    case FileComplete(name) => R.Text(Some(R.Control(R.COMPLETE, name, 0)))
  }

  /** The frames as they arrive, in the order they were sent, each handled with the answers `io`. */
  function Arrivals(frames: seq<Frame>, io: R.Io): (arrivals: seq<R.Arrival>)
    ensures |arrivals| == |frames|
    ensures forall i :: 0 <= i < |frames| ==> arrivals[i] == R.Arrival(ToMessage(frames[i]), io)
  {
    seq(|frames|, i requires 0 <= i < |frames| => R.Arrival(ToMessage(frames[i]), io))
  }

  /** The bytes of each piece, in order. */
  function Payloads(ps: seq<Piece>): (bufs: seq<seq<Byte>>)
    ensures |bufs| == |ps|
    ensures forall i :: 0 <= i < |ps| ==> bufs[i] == ps[i].bytes
  {
    seq(|ps|, i requires 0 <= i < |ps| => ps[i].bytes)
  }

  /** The receiver's progress calls that repeat the sender's `onProgress(sent, total)` calls. */
  function Echo(rs: seq<S.Report>): (es: seq<R.Event>)
    ensures |es| == |rs|
    ensures forall i :: 0 <= i < |rs| ==> es[i] == R.Progress(rs[i].sent, rs[i].total)
  {
    seq(|rs|, i requires 0 <= i < |rs| => R.Progress(rs[i].sent, rs[i].total))
  }

  /** The receiver's concatenation of the payloads is the sender's pieces laid end to end. */
  lemma {:induction false} ConcatPayloads(ps: seq<Piece>)
    ensures R.Concat(Payloads(ps)) == Joined(ps)
    decreases |ps|
  {
    if |ps| > 0 {
      ConcatPayloads(ps[1..]);
      assert Payloads(ps)[1..] == Payloads(ps[1..]);
    }
  }

  /** The receiver's running byte count after each chunk is the sender's offset after that chunk. */
  lemma {:induction false} ProgressMirrors(rest: seq<Byte>, chunk: nat, base: nat, total: nat)
    requires chunk > 0
    ensures R.ProgressCalls(base, total, Payloads(Split(rest, chunk, base))) == Echo(S.Reports(Split(rest, chunk, base), total))
    decreases |rest|
  {
    if |rest| > 0 {
      var n := Min(chunk, |rest|);
      var ps := Split(rest, chunk, base);
      var tail := Split(rest[n..], chunk, base + n);
      ProgressMirrors(rest[n..], chunk, base + n, total);
      assert ps == [Piece(base, rest[..n])] + tail;
      assert Payloads(ps)[1..] == Payloads(tail);
      assert Echo(S.Reports(ps, total)) == [R.Progress(base + n, total)] + Echo(S.Reports(tail, total));
    }
  }

  /** A successful send's frames: the meta, one chunk per piece, the complete. */
  lemma SentFrames(content: seq<Byte>, chunk: nat, hw: nat, readOk: nat -> bool, link: S.Link,
                   name: string, sent: S.SendOutcome)
    requires chunk > 0
    requires |sent.frames| == 2 + |sent.progress|
    requires sent.frames[0] == FileMeta(name, |content|) && sent.frames[|sent.frames| - 1] == FileComplete(name)
    requires S.ChunkLoopDid(content, chunk, hw, readOk, link, sent.frames[1..1 + |sent.progress|],
                            sent.progress, sent.waits, sent.gates, true)
    ensures var ps := Split(content, chunk, 0);
      && sent.frames == [FileMeta(name, |content|)] + S.ChunkFrames(ps) + [FileComplete(name)]
      && sent.progress == S.Reports(ps, |content|)
  {
    var ps := Split(content, chunk, 0);
    assert ps[..|ps|] == ps;
    assert sent.frames == [sent.frames[0]] + sent.frames[1..1 + |sent.progress|] + [sent.frames[|sent.frames| - 1]];
  }

  /**
    A file sent by `sendFileStream` and received by `attachFileReceiver`'s handler with every
    storage call succeeding: the receiver replaces any transfer it had, reports `onStart` with
    the declared size, repeats every progress report of the sender, completes once, and the
    file at the final path is byte-for-byte the sender's content.
  */
  lemma FileArrivesIntact(cfg: R.Config, rx: R.Rx, io: R.Io,
                          content: seq<Byte>, chunk: nat, hw: nat, readOk: nat -> bool, link: S.Link,
                          name: string, sent: S.SendOutcome)
    requires chunk > 0 && R.AllOk(cfg, io)
    requires |sent.frames| == 2 + |sent.progress|
    requires sent.frames[0] == FileMeta(name, |content|) && sent.frames[|sent.frames| - 1] == FileComplete(name)
    requires S.ChunkLoopDid(content, chunk, hw, readOk, link, sent.frames[1..1 + |sent.progress|],
                            sent.progress, sent.waits, sent.gates, true)
    ensures var saved := R.NameOf(R.Control(R.META, name, |content|), io);
      var path := R.FinalPath(cfg, io, saved);
      var out := R.Run(cfg, rx, Arrivals(sent.frames, io));
      && out.rx.active.None?
      && out.rx.files == rx.files[path := content]
      && out.events == [R.Started(saved, |content|)] + Echo(sent.progress) + [R.Completed(path, saved, |content|)]
  {
    var ps := Split(content, chunk, 0);
    SentFrames(content, chunk, hw, readOk, link, name, sent);
    var bufs := Payloads(ps);
    var meta := R.Arrival(R.Text(Some(R.Control(R.META, name, |content|))), io);
    var complete := R.Arrival(R.Text(Some(R.Control(R.COMPLETE, name, 0))), io);
    assert Arrivals(sent.frames, io) == [meta] + R.BinaryArrivals(bufs, io) + [complete];
    R.ReceiveWholeFile(cfg, rx, io, name, |content|, bufs);
    ConcatPayloads(ps);
    SplitJoined(content, chunk, 0);
    ProgressMirrors(content, chunk, 0, |content|);
  }
}
