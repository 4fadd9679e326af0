/**
  The streaming file sender: checks that the data channel is open, stages `content://` URIs
  into a temporary copy, sends `file-meta`, the file in chunks of `min(CHUNK, remaining)` bytes
  behind a high-water-mark gate on the channel's `bufferedAmount`, then `file-complete`,
  and removes the temporary copy whatever happens.
  The file system and the channel's buffer level are inputs.
*/
module SendFile {
  import opened Common
  import opened Chunking

  const DEFAULT_CHUNK: nat := 16 * 1024
  const DEFAULT_HIGH_WATER: nat := 64 * 1024
  const CONTENT_SCHEME := "content://"
  const NOT_READY := "DataChannel not ready"

  /** `SendOpts`: an absent field takes its default (`??`). Progress is recorded whether or not a callback is given. */
  datatype SendOpts = SendOpts(chunkSize: Option<nat>, highWaterMark: Option<nat>)

  /**
    The file system as the sender sees it: `staging` is the cache path that `cp` copies a
    `content://` URI to (`None` when the copy fails), `content` the bytes `stat`/`read` find at
    the resolved path (`None` when `stat` fails), `readOk` whether the read at an offset succeeds.
  */
  datatype SourceFs = SourceFs(staging: Option<string>, content: Option<seq<Byte>>, readOk: nat -> bool)

  /**
    The channel's `bufferedAmount` at the p-th poll before chunk k, and for every chunk a poll
    by which it has fallen to the mark (the source waits for as long as it takes).
  */
  datatype Link = Link(buffered: (nat, nat) -> nat, settle: nat -> nat)

  datatype SendError = NotReady(message: string) | CopyFailed | StatFailed | ReadFailed

  /** One `onProgress(sent, total)` call. */
  datatype Report = Report(sent: nat, total: nat)

  /**
    Everything a run of the sender did: its result, the frames sent in order, the progress
    calls, for each chunk the number of polls it waited and the buffer level that let it
    through, the temporary copy made (if any) and the paths unlinked.
  */
  datatype SendOutcome = SendOutcome(
    result: Result<(), SendError>,
    frames: seq<Frame>,
    progress: seq<Report>,
    waits: seq<nat>,
    gates: seq<nat>,
    staged: Option<string>,
    unlinked: seq<string>)

  function ChunkSize(opts: SendOpts): nat
  {
    if opts.chunkSize.Some? then opts.chunkSize.value else DEFAULT_CHUNK
  }

  function HighWater(opts: SendOpts): nat
  {
    if opts.highWaterMark.Some? then opts.highWaterMark.value else DEFAULT_HIGH_WATER
  }

  predicate IsContentUri(uri: string)
  {
    |uri| >= |CONTENT_SCHEME| && uri[..|CONTENT_SCHEME|] == CONTENT_SCHEME
  }

  /** `resolveFile`: only `content://` URIs are copied to a temporary path; every other URI is used as it is. */
  function ResolveFile(uri: string, fs: SourceFs): (r: Option<string>)
    ensures !IsContentUri(uri) ==> r == Some(uri)
    ensures IsContentUri(uri) ==> r == fs.staging
  {
    if IsContentUri(uri) then fs.staging else Some(uri)
  }

  /**
    Chunk k waited `p` polls, the first at which the buffer was at or below the mark, and `g` is
    the level read at that last poll, before the file read and the send that follow it.
  */
  ghost predicate Gated(link: Link, hw: nat, k: nat, p: nat, g: nat)
  {
    g == link.buffered(k, p) && g <= hw && forall q :: 0 <= q < p ==> link.buffered(k, q) > hw
  }

  function ChunkFrames(ps: seq<Piece>): (fs: seq<Frame>)
    ensures |fs| == |ps|
    ensures forall i :: 0 <= i < |ps| ==> fs[i] == Chunk(ps[i].bytes)
  {
    seq(|ps|, i requires 0 <= i < |ps| => Chunk(ps[i].bytes))
  }

  function Reports(ps: seq<Piece>, total: nat): (rs: seq<Report>)
    ensures |rs| == |ps|
    ensures forall i :: 0 <= i < |ps| ==> rs[i] == Report(End(ps[i]), total)
  {
    seq(|ps|, i requires 0 <= i < |ps| => Report(End(ps[i]), total))
  }

  lemma FramesAppend(ps: seq<Piece>, p: Piece, total: nat)
    ensures ChunkFrames(ps + [p]) == ChunkFrames(ps) + [Chunk(p.bytes)]
    ensures Reports(ps + [p], total) == Reports(ps, total) + [Report(End(p), total)]
  {
  }

  lemma PrefixOfSplit(all: seq<Piece>, pieces: seq<Piece>, rest: seq<Piece>)
    requires all == pieces + rest
    ensures |pieces| <= |all| && all[..|pieces|] == pieces
    ensures forall i :: 0 <= i < |rest| ==> all[|pieces| + i] == rest[i]
  {
  }

  /** Every chunk sent so far was gated: chunk i waited `waits[i]` polls, the last of which read level `gates[i]`. */
  ghost predicate AllGated(link: Link, hw: nat, waits: seq<nat>, gates: seq<nat>)
    requires |waits| == |gates|
  {
    |waits| == 0 ||
    (&& AllGated(link, hw, waits[..|waits| - 1], gates[..|gates| - 1])
     && Gated(link, hw, |waits| - 1, waits[|waits| - 1], gates[|gates| - 1]))
  }

  lemma GatedAppend(link: Link, hw: nat, waits: seq<nat>, gates: seq<nat>, p: nat, g: nat)
    requires |waits| == |gates| && AllGated(link, hw, waits, gates) && Gated(link, hw, |waits|, p, g)
    ensures AllGated(link, hw, waits + [p], gates + [g])
  {
    assert (waits + [p])[..|waits|] == waits && (gates + [g])[..|gates|] == gates;
  }

  lemma {:induction false} AllGatedEach(link: Link, hw: nat, waits: seq<nat>, gates: seq<nat>)
    requires |waits| == |gates| && AllGated(link, hw, waits, gates)
    ensures forall i :: 0 <= i < |waits| ==> Gated(link, hw, i, waits[i], gates[i])
    decreases |waits|
  {
    if |waits| > 0 {
      var n := |waits| - 1;
      AllGatedEach(link, hw, waits[..n], gates[..n]);
      forall i | 0 <= i < |waits|
        ensures Gated(link, hw, i, waits[i], gates[i])
      {
        if i < n {
          assert waits[..n][i] == waits[i] && gates[..n][i] == gates[i];
        }
      }
    }
  }

  /** One turn of the chunk loop keeps "the pieces sent, then the pieces of the rest, are the file's pieces". */
  lemma Advance(content: seq<Byte>, chunk: nat, pieces: seq<Piece>, offset: nat)
    requires chunk > 0 && offset < |content|
    requires Split(content, chunk, 0) == pieces + Split(content[offset..], chunk, offset)
    ensures var end := offset + Min(chunk, |content| - offset);
      && Split(content, chunk, 0)[|pieces|] == Piece(offset, content[offset..end])
      && Split(content, chunk, 0) == (pieces + [Piece(offset, content[offset..end])]) + Split(content[end..], chunk, end)
  {
    SplitStep(content, chunk, offset);
  }

  /** The backoff as written, run for at most `fuel` polls from poll `p`: the poll that lets chunk k through, if any. */
  function Backoff(link: Link, highWater: nat, k: nat, p: nat, fuel: nat): Option<nat>
    decreases fuel
  {
    if fuel == 0 then None
    else if link.buffered(k, p) <= highWater then Some(p)
    else Backoff(link, highWater, k, p + 1, fuel - 1)
  }

  /** Polls `p` to `p + n - 1` all above the mark and poll `p + n` at or below it: the backoff lets the chunk through at `p + n`. */
  lemma {:induction false} BackoffFinds(link: Link, highWater: nat, k: nat, p: nat, n: nat)
    requires forall q :: p <= q < p + n ==> link.buffered(k, q) > highWater
    requires link.buffered(k, p + n) <= highWater
    ensures Backoff(link, highWater, k, p, n + 1) == Some(p + n)
    decreases n
  {
    if n > 0 {
      BackoffFinds(link, highWater, k, p + 1, n - 1);
    }
  }

  /** The buffer stays above the mark at every poll: what a channel closed with data still queued reports. */
  ghost predicate NeverDrains(link: Link, highWater: nat, k: nat)
  {
    forall p :: link.buffered(k, p) > highWater
  }

  /**
    With a buffer that never drains, no number of polls lets the chunk through: the backoff never
    ends, so neither does the send, and its `finally` block never unlinks the staged copy.
  */
  lemma {:induction false} StuckBackoffNeverSends(link: Link, highWater: nat, k: nat, p: nat, fuel: nat)
    requires NeverDrains(link, highWater, k)
    ensures Backoff(link, highWater, k, p, fuel) == None
    decreases fuel
  {
    if fuel > 0 {
      StuckBackoffNeverSends(link, highWater, k, p + 1, fuel - 1);
    }
  }

  /** The backoff loop before each chunk: poll `bufferedAmount` until it is at or below the mark. */
  method WaitForRoom(link: Link, highWater: nat, k: nat) returns (polls: nat)
    requires link.buffered(k, link.settle(k)) <= highWater
    ensures Gated(link, highWater, k, polls, link.buffered(k, polls))
    ensures Backoff(link, highWater, k, 0, polls + 1) == Some(polls)
  {
    polls := 0;
    while link.buffered(k, polls) > highWater
      invariant polls <= link.settle(k)
      invariant forall q :: 0 <= q < polls ==> link.buffered(k, q) > highWater
      decreases link.settle(k) - polls
    {
      polls := polls + 1;
    }
    BackoffFinds(link, highWater, k, 0, polls);
  }

  /**
    The backoff as evidently intended: it also stops once the channel is no longer open, so that
    the send can fail and its `finally` block runs. `isOpen(k, p)` is the channel's state at the
    p-th poll before chunk k; each wait ends with room or with the channel closed by `deadline`.
  */
  method WaitForRoomOrClose(link: Link, isOpen: (nat, nat) -> bool, highWater: nat, k: nat, deadline: nat)
    returns (polls: nat, room: bool)
    requires link.buffered(k, deadline) <= highWater || !isOpen(k, deadline)
    ensures polls <= deadline
    ensures forall q :: 0 <= q < polls ==> isOpen(k, q) && link.buffered(k, q) > highWater
    ensures room <==> isOpen(k, polls)
    ensures room ==> Gated(link, highWater, k, polls, link.buffered(k, polls))
    ensures NeverDrains(link, highWater, k) ==> !room
  {
    polls := 0;
    while isOpen(k, polls) && link.buffered(k, polls) > highWater
      invariant polls <= deadline
      invariant forall q :: 0 <= q < polls ==> isOpen(k, q) && link.buffered(k, q) > highWater
      decreases deadline - polls
    {
      polls := polls + 1;
    }
    room := isOpen(k, polls);
  }

  /** What the chunk loop of a send did: `sent` chunks went out, and `ok` is false when a read failed. */
  ghost predicate ChunkLoopDid(content: seq<Byte>, chunk: nat, highWater: nat, readOk: nat -> bool, link: Link,
                               chunks: seq<Frame>, progress: seq<Report>, waits: seq<nat>, gates: seq<nat>, ok: bool)
    requires chunk > 0
  {
    var ps := Split(content, chunk, 0);
    var j := |progress|;
    && j <= |ps|
    && chunks == ChunkFrames(ps[..j])
    && progress == Reports(ps[..j], |content|)
    && (forall i :: 0 <= i < j ==> readOk(ps[i].offset))
    && (ok ==> j == |ps|)
    && (!ok ==> j < |ps| && !readOk(ps[j].offset))
    && |waits| == j && |gates| == j
    && AllGated(link, highWater, waits, gates)
  }

  /** The chunk loop's state after the pieces `pieces` went out and the next read is at `offset`. */
  ghost predicate Streamed(content: seq<Byte>, chunk: nat, highWater: nat, readOk: nat -> bool, link: Link,
                           pieces: seq<Piece>, offset: nat,
                           chunks: seq<Frame>, progress: seq<Report>, waits: seq<nat>, gates: seq<nat>)
    requires chunk > 0
  {
    && offset <= |content|
    && Split(content, chunk, 0) == pieces + Split(content[offset..], chunk, offset)
    && chunks == ChunkFrames(pieces) && progress == Reports(pieces, |content|)
    && |waits| == |pieces| && |gates| == |pieces|
    && (forall i :: 0 <= i < |pieces| ==> readOk(pieces[i].offset))
    && AllGated(link, highWater, waits, gates)
  }

  /** Sending the piece at `offset` after `polls` polls keeps `Streamed`. */
  lemma StreamedStep(content: seq<Byte>, chunk: nat, highWater: nat, readOk: nat -> bool, link: Link,
                     pieces: seq<Piece>, offset: nat,
                     chunks: seq<Frame>, progress: seq<Report>, waits: seq<nat>, gates: seq<nat>, polls: nat)
    requires chunk > 0 && offset < |content| && readOk(offset)
    requires Streamed(content, chunk, highWater, readOk, link, pieces, offset, chunks, progress, waits, gates)
    requires Gated(link, highWater, |pieces|, polls, link.buffered(|pieces|, polls))
    ensures var end := offset + Min(chunk, |content| - offset);
      var p := Piece(offset, content[offset..end]);
      Streamed(content, chunk, highWater, readOk, link, pieces + [p], end,
               chunks + [Chunk(p.bytes)], progress + [Report(end, |content|)],
               waits + [polls], gates + [link.buffered(|pieces|, polls)])
  {
    var end := offset + Min(chunk, |content| - offset);
    var p := Piece(offset, content[offset..end]);
    Advance(content, chunk, pieces, offset);
    GatedAppend(link, highWater, waits, gates, polls, link.buffered(|pieces|, polls));
    FramesAppend(pieces, p, |content|);
  }

  /** Where the chunk loop stops, `Streamed` is what `ChunkLoopDid` reports. */
  lemma StreamedStops(content: seq<Byte>, chunk: nat, highWater: nat, readOk: nat -> bool, link: Link,
                      pieces: seq<Piece>, offset: nat,
                      chunks: seq<Frame>, progress: seq<Report>, waits: seq<nat>, gates: seq<nat>, ok: bool)
    requires chunk > 0
    requires Streamed(content, chunk, highWater, readOk, link, pieces, offset, chunks, progress, waits, gates)
    requires ok ==> offset == |content|
    requires !ok ==> offset < |content| && !readOk(offset)
    ensures ChunkLoopDid(content, chunk, highWater, readOk, link, chunks, progress, waits, gates, ok)
  {
    var rest := Split(content[offset..], chunk, offset);
    PrefixOfSplit(Split(content, chunk, 0), pieces, rest);
    if !ok {
      SplitStep(content, chunk, offset);
    }
  }

  /** The `while (offset < totalSize)` loop: wait for room, read `min(CHUNK, remaining)` bytes, send them, report progress. */
  method StreamChunks(content: seq<Byte>, chunk: nat, highWater: nat, readOk: nat -> bool, link: Link)
    returns (chunks: seq<Frame>, progress: seq<Report>, waits: seq<nat>, gates: seq<nat>, ok: bool)
    requires chunk > 0
    requires forall k :: link.buffered(k, link.settle(k)) <= highWater
    ensures ChunkLoopDid(content, chunk, highWater, readOk, link, chunks, progress, waits, gates, ok)
  {
    var totalSize := |content|;
    chunks, progress, waits, gates := [], [], [], [];
    var offset := 0;
    var k := 0;
    ghost var pieces: seq<Piece> := [];
    assert content[0..] == content;
    while offset < totalSize
      invariant k == |pieces|
      invariant Streamed(content, chunk, highWater, readOk, link, pieces, offset, chunks, progress, waits, gates)
    {
      var polls := WaitForRoom(link, highWater, k);
      var lengthToRead := Min(chunk, totalSize - offset);
      if !readOk(offset) {
        StreamedStops(content, chunk, highWater, readOk, link, pieces, offset, chunks, progress, waits, gates, false);
        return chunks, progress, waits, gates, false;
      }
      var bytes := content[offset..offset + lengthToRead];
      StreamedStep(content, chunk, highWater, readOk, link, pieces, offset, chunks, progress, waits, gates, polls);
      chunks := chunks + [Chunk(bytes)];
      waits := waits + [polls];
      gates := gates + [link.buffered(k, polls)];
      pieces := pieces + [Piece(offset, bytes)];
      offset := offset + lengthToRead;
      k := k + 1;
      progress := progress + [Report(offset, totalSize)];
    }
    StreamedStops(content, chunk, highWater, readOk, link, pieces, offset, chunks, progress, waits, gates, true);
    ok := true;
  }

  /** `sendFileStream`. */
  method SendFileStream(dc: DataChannel, uri: string, fileName: string, opts: SendOpts, fs: SourceFs, link: Link)
    returns (out: SendOutcome)
    requires ChunkSize(opts) > 0
    requires forall k :: link.buffered(k, link.settle(k)) <= HighWater(opts)
    ensures !IsOpen(dc) ==> out == SendOutcome(Err(NotReady(NOT_READY)), [], [], [], [], None, [])
    ensures IsOpen(dc) && ResolveFile(uri, fs).None? ==>
      out == SendOutcome(Err(CopyFailed), [], [], [], [], None, [])
    ensures IsOpen(dc) && ResolveFile(uri, fs).Some? ==>
      var path := ResolveFile(uri, fs).value;
      && out.staged == (if path != uri then Some(path) else None)
      && out.unlinked == (if path != uri then [path] else [])
    ensures uri !in out.unlinked
    ensures IsOpen(dc) && ResolveFile(uri, fs).Some? && fs.content.None? ==>
      out.result == Err(StatFailed) && out.frames == [] && out.progress == []
    ensures IsOpen(dc) && ResolveFile(uri, fs).Some? && fs.content.Some? ==>
      var content := fs.content.value;
      var j := |out.progress|;
      && (out.result.Ok? || out.result == Err(ReadFailed))
      && |out.frames| >= 1 && out.frames[0] == FileMeta(fileName, |content|)
      && (out.result.Ok? ==> out.frames[|out.frames| - 1] == FileComplete(fileName))
      && |out.frames| == 1 + j + (if out.result.Ok? then 1 else 0)
      && ChunkLoopDid(content, ChunkSize(opts), HighWater(opts), fs.readOk, link,
                      out.frames[1..1 + j], out.progress, out.waits, out.gates, out.result.Ok?)
  {
    if !IsOpen(dc) {
      return SendOutcome(Err(NotReady(NOT_READY)), [], [], [], [], None, []);
    }
    var resolved := ResolveFile(uri, fs);
    if resolved.None? {
      return SendOutcome(Err(CopyFailed), [], [], [], [], None, []);
    }
    var safePath := resolved.value;
    var isTempFile := safePath != uri;
    var staged := if isTempFile then Some(safePath) else None;
    // the `finally` block: the temporary copy is unlinked on every path from here on
    var cleanup := if isTempFile then [safePath] else [];
    if fs.content.None? {
      return SendOutcome(Err(StatFailed), [], [], [], [], staged, cleanup);
    }
    var content := fs.content.value;
    var meta := FileMeta(fileName, |content|);
    var chunks, progress, waits, gates, ok := StreamChunks(content, ChunkSize(opts), HighWater(opts), fs.readOk, link);
    if !ok {
      assert ([meta] + chunks)[1..1 + |progress|] == chunks;
      return SendOutcome(Err(ReadFailed), [meta] + chunks, progress, waits, gates, staged, cleanup);
    }
    assert ([meta] + chunks + [FileComplete(fileName)])[1..1 + |progress|] == chunks;
    return SendOutcome(Ok(()), [meta] + chunks + [FileComplete(fileName)], progress, waits, gates, staged, cleanup);
  }

  /** The chunks of a complete send are the file: their bytes laid end to end give back the content. */
  lemma ChunksReassemble(content: seq<Byte>, chunk: nat)
    requires chunk > 0
    ensures Joined(Split(content, chunk, 0)) == content
    ensures WellSized(Split(content, chunk, 0), chunk)
  {
    SplitJoined(content, chunk, 0);
    SplitWellSized(content, chunk, 0);
  }

  /** The progress values of a complete send strictly increase and the last one is the file size. */
  lemma ProgressIncreasesToTotal(content: seq<Byte>, chunk: nat)
    requires chunk > 0
    ensures var rs := Reports(Split(content, chunk, 0), |content|);
      && (forall i, j :: 0 <= i < j < |rs| ==> rs[i].sent < rs[j].sent)
      && (|rs| > 0 ==> rs[|rs| - 1].sent == |content|)
      && (forall i :: 0 <= i < |rs| ==> rs[i].total == |content|)
  {
    var ps := Split(content, chunk, 0);
    SplitContiguous(content, chunk, 0);
    SplitWellSized(content, chunk, 0);
    EndsIncrease(ps, 0, |content|, chunk);
  }

  /** A zero-byte file yields no chunk and no progress call: only meta, then complete. */
  lemma EmptyFileSendsMetaThenComplete(chunk: nat)
    requires chunk > 0
    ensures Split([], chunk, 0) == [] && ChunkFrames([]) == [] && Reports([], 0) == []
  {
  }
}
