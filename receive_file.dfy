/**
  The file receiver attached to one data channel. Messages are handled strictly one at a
  time, in arrival order (the `writeQueue` promise chain), against a single piece of state:
  the active transfer, if any. A `file-meta` opens a temporary stream and (re)starts the
  transfer, binary messages are appended to the stream, and `file-complete` closes the stream
  and moves the file to its final place, which depends on the platform.
  The storage calls, the clock and JSON parsing are inputs to each step.
*/
module ReceiveFile {
  import opened Common

  const META := "file-meta"
  const COMPLETE := "file-complete"
  const MISSING_CHANNEL := "attachFileReceiver: DataChannel missing"

  /** A parsed JSON text message: its `type`, its `name` ("" when absent or falsy) and `Number(size)`. */
  datatype Control = Control(kind: string, name: string, size: int)

  /**
    One data-channel message. `Text(None)` is text on which reading `msg.type` throws: JSON
    that does not parse, or `null`. Any other JSON value reads `type` as undefined and is
    `Text(Some(Control("", "", 0)))`. A binary message without an `ArrayBuffer` backing is
    `Binary(None)`.
  */
  datatype DcMessage = Text(parsed: Option<Control>) | Binary(buffer: Option<seq<Byte>>)

  /** `activeTransfer`; `data` is what has been written through its stream, `streamOpen` whether that stream is still open. */
  datatype Transfer = Transfer(name: string, size: int, received: nat, tempPath: string, data: seq<Byte>, streamOpen: bool)

  datatype ReceiveError = ParseError | OpenFailed | CloseFailed | FinalizeFailed | WriteFailed

  /** The callbacks: `onStart`, `onProgress`, `onComplete`, `onError`. */
  datatype Event =
    | Started(name: string, size: int)
    | Progress(received: nat, total: int)
    | Completed(path: string, name: string, size: int)
    | Failed(error: ReceiveError)

  datatype Platform = Android | Ios

  /** `Platform.OS` and the two directories the receiver uses. */
  datatype Config = Config(platform: Platform, cacheDir: string, documentDir: string)

  /**
    What the outside world answers while one message is handled: the decimal text of
    `Date.now()`, whether opening, writing and closing the stream succeed, the media-store
    path (`None` when the copy fails), whether unlinking the temporary file succeeds
    (Android) and whether the move succeeds (iOS).
  */
  datatype Io = Io(stamp: string, openOk: bool, writeOk: bool, closeOk: bool,
                   mediaStore: Option<string>, unlinkTempOk: bool, moveOk: bool)

  /** The receiver's state: the active transfer and the finished files on disk. */
  datatype Rx = Rx(active: Option<Transfer>, files: map<string, seq<Byte>>)

  datatype Outcome = Outcome(rx: Rx, events: seq<Event>)

  /** A message together with the answers the outside world gives while it is handled. */
  datatype Arrival = Arrival(msg: DcMessage, io: Io)

  const INITIAL := Rx(None, map[])

  /** The byte count of the active transfer is the length of what was written to its stream. */
  ghost predicate Inv(rx: Rx)
  {
    rx.active.Some? ==> rx.active.value.received == |rx.active.value.data|
  }

  function DefaultName(stamp: string): string
  {
    "file_" + stamp + ".bin"
  }

  function TempPath(cfg: Config, stamp: string, name: string): string
  {
    cfg.cacheDir + "/" + stamp + "_" + name
  }

  function DocumentPath(cfg: Config, name: string): string
  {
    cfg.documentDir + "/" + name
  }

  /** A `file-meta` whose stream opened: a fresh transfer replaces whatever was active. */
  function OnMeta(cfg: Config, rx: Rx, c: Control, io: Io): Outcome
  {
    var name := if c.name != "" then c.name else DefaultName(io.stamp);
    if !io.openOk then Outcome(rx, [Failed(OpenFailed)])
    else Outcome(Rx(Some(Transfer(name, c.size, 0, TempPath(cfg, io.stamp, name), [], true)), rx.files),
                 [Started(name, c.size)])
  }

  /** Android finalize: copy to the media store, unlink the temporary file; on any failure report the temporary path. */
  function FinalizeAndroid(t: Transfer, files: map<string, seq<Byte>>, io: Io): (string, map<string, seq<Byte>>)
  {
    match io.mediaStore
    case None => (t.tempPath, files[t.tempPath := t.data])
    case Some(dest) =>
      if io.unlinkTempOk then (dest, files[dest := t.data])
      else (t.tempPath, files[dest := t.data][t.tempPath := t.data])
  }

  function OnComplete(cfg: Config, rx: Rx, io: Io): Outcome
  {
    if rx.active.None? then Outcome(rx, [])
    else if !io.closeOk then Outcome(rx, [Failed(CloseFailed)])
    else
      var t := rx.active.value.(streamOpen := false);
      match cfg.platform
      case Android =>
        var (path, files) := FinalizeAndroid(t, rx.files, io);
        Outcome(Rx(None, files), [Completed(path, t.name, t.size)])
      case Ios =>
        var path := DocumentPath(cfg, t.name);
        var cleared := rx.files - {path};
        if io.moveOk then Outcome(Rx(None, cleared[path := t.data]), [Completed(path, t.name, t.size)])
        else Outcome(Rx(Some(t), cleared), [Failed(FinalizeFailed)])
  }

  function OnBinary(rx: Rx, buffer: Option<seq<Byte>>, io: Io): Outcome
  {
    if rx.active.None? || buffer.None? then Outcome(rx, [])
    else
      var t := rx.active.value;
      if !(t.streamOpen && io.writeOk) then Outcome(rx, [Failed(WriteFailed)])
      else
        var bytes := buffer.value;
        Outcome(Rx(Some(t.(received := t.received + |bytes|, data := t.data + bytes)), rx.files),
                [Progress(t.received + |bytes|, t.size)])
  }

  /** One turn of `handleMessage`. */
  function Step(cfg: Config, rx: Rx, m: DcMessage, io: Io): (r: Outcome)
    ensures Inv(rx) ==> Inv(r.rx)
    ensures |r.events| <= 1
    ensures r.events == [] ==> r.rx == rx
    ensures r.rx.files != rx.files ==> m.Text? && m.parsed.Some? && m.parsed.value.kind == COMPLETE
    ensures r.events != [] && r.events[0].Started? ==>
      && m.Text? && m.parsed.Some? && m.parsed.value.kind == META
      && r.rx.active == Some(Transfer(r.events[0].name, m.parsed.value.size, 0, TempPath(cfg, io.stamp, r.events[0].name), [], true))
      && r.events[0].name != ""
    ensures r.events != [] && r.events[0].Progress? ==>
      && m.Binary? && m.buffer.Some? && rx.active.Some? && r.rx.active.Some?
      && r.rx.active.value.data == rx.active.value.data + m.buffer.value
      && r.events[0] == Progress(rx.active.value.received + |m.buffer.value|, rx.active.value.size)
    ensures r.events != [] && r.events[0].Completed? ==>
      && rx.active.Some? && r.rx.active.None?
      && r.events[0].name == rx.active.value.name && r.events[0].size == rx.active.value.size
      && r.events[0].path in r.rx.files && r.rx.files[r.events[0].path] == rx.active.value.data
    ensures r.events != [] && r.events[0].Failed? ==>
      && r.rx.active.Some? == rx.active.Some?
      && (r.events[0].error != FinalizeFailed ==> r.rx == rx)
  {
    match m
    case Text(None) => Outcome(rx, [Failed(ParseError)])
    case Text(Some(c)) =>
      if c.kind == META then OnMeta(cfg, rx, c, io)
      else if c.kind == COMPLETE then OnComplete(cfg, rx, io)
      else Outcome(rx, [])
    case Binary(buffer) => OnBinary(rx, buffer, io)
  }

  /** A chain of handlers: each arrival is handled after the previous one finished, callbacks collected in order. */
  function Fold(handle: (Rx, Arrival) -> Outcome, rx: Rx, arrivals: seq<Arrival>): Outcome
    decreases |arrivals|
  {
    if |arrivals| == 0 then Outcome(rx, [])
    else
      var first := handle(rx, arrivals[0]);
      var rest := Fold(handle, first.rx, arrivals[1..]);
      Outcome(rest.rx, first.events + rest.events)
  }

  /** Handling `xs` and then `ys` is handling `xs + ys`. */
  lemma {:induction false} FoldConcat(handle: (Rx, Arrival) -> Outcome, rx: Rx, xs: seq<Arrival>, ys: seq<Arrival>)
    ensures var first := Fold(handle, rx, xs);
      var second := Fold(handle, first.rx, ys);
      Fold(handle, rx, xs + ys) == Outcome(second.rx, first.events + second.events)
    decreases |xs|
  {
    if |xs| == 0 {
      assert xs + ys == ys;
    } else {
      var head := handle(rx, xs[0]);
      FoldConcat(handle, head.rx, xs[1..], ys);
      assert (xs + ys)[0] == xs[0] && (xs + ys)[1..] == xs[1..] + ys;
      var tail := Fold(handle, head.rx, xs[1..]);
      var second := Fold(handle, tail.rx, ys);
      assert head.events + (tail.events + second.events) == (head.events + tail.events) + second.events;
    }
  }

  function Handler(cfg: Config): (Rx, Arrival) -> Outcome
  {
    (rx: Rx, a: Arrival) => Step(cfg, rx, a.msg, a.io)
  }

  /** The serialized `writeQueue`: `handleMessage` folded over the arrivals in order. */
  function Run(cfg: Config, rx: Rx, arrivals: seq<Arrival>): Outcome
  {
    Fold(Handler(cfg), rx, arrivals)
  }

  /** Every state the queue reaches keeps the byte count equal to the bytes written, and each message fires at most one callback. */
  lemma {:induction false} RunKeepsInv(cfg: Config, rx: Rx, arrivals: seq<Arrival>)
    requires Inv(rx)
    ensures Inv(Run(cfg, rx, arrivals).rx)
    ensures |Run(cfg, rx, arrivals).events| <= |arrivals|
    decreases |arrivals|
  {
    if |arrivals| > 0 {
      var step := Step(cfg, rx, arrivals[0].msg, arrivals[0].io);
      RunKeepsInv(cfg, step.rx, arrivals[1..]);
    }
  }

  /** The bytes of several binary messages laid end to end. */
  function Concat(bufs: seq<seq<Byte>>): seq<Byte>
  {
    if |bufs| == 0 then [] else bufs[0] + Concat(bufs[1..])
  }

  /** The progress calls for binary messages `bufs` arriving on a transfer that already had `start` bytes. */
  function ProgressCalls(start: nat, size: int, bufs: seq<seq<Byte>>): (ps: seq<Event>)
    decreases |bufs|
    ensures |ps| == |bufs|
  {
    if |bufs| == 0 then []
    else [Progress(start + |bufs[0]|, size)] + ProgressCalls(start + |bufs[0]|, size, bufs[1..])
  }

  /** Binary messages, each handled with a successful write. */
  ghost predicate Writes(arrivals: seq<Arrival>, bufs: seq<seq<Byte>>)
  {
    && |arrivals| == |bufs|
    && forall i :: 0 <= i < |arrivals| ==> arrivals[i].msg == Binary(Some(bufs[i])) && arrivals[i].io.writeOk
  }

  /**
    Between a meta and its complete, the stream holds the concatenation of the binary payloads
    in arrival order, `received` counts exactly their bytes, and each one reports the running total.
  */
  lemma {:induction false} ReceiveChunks(cfg: Config, t: Transfer, files: map<string, seq<Byte>>,
                                         arrivals: seq<Arrival>, bufs: seq<seq<Byte>>)
    requires t.streamOpen && Writes(arrivals, bufs)
    ensures Run(cfg, Rx(Some(t), files), arrivals) ==
      Outcome(Rx(Some(t.(received := t.received + |Concat(bufs)|, data := t.data + Concat(bufs))), files),
              ProgressCalls(t.received, t.size, bufs))
    decreases |arrivals|
  {
    if |arrivals| == 0 {
      assert t.data + Concat(bufs) == t.data;
    } else {
      var b := bufs[0];
      var next := t.(received := t.received + |b|, data := t.data + b);
      assert Step(cfg, Rx(Some(t), files), arrivals[0].msg, arrivals[0].io) == Outcome(Rx(Some(next), files), [Progress(next.received, t.size)]);
      assert Writes(arrivals[1..], bufs[1..]);
      ReceiveChunks(cfg, next, files, arrivals[1..], bufs[1..]);
      assert next.data + Concat(bufs[1..]) == t.data + Concat(bufs);
    }
  }

  /**
    The calls a `file-complete` makes all succeed: the stream closes, and on Android the media
    store takes the copy and the temporary file is unlinked; on iOS the move succeeds.
  */
  predicate SavesOk(cfg: Config, io: Io)
  {
    && io.closeOk
    && (cfg.platform == Android ==> io.mediaStore.Some? && io.unlinkTempOk)
    && (cfg.platform == Ios ==> io.moveOk)
  }

  /** Every storage call of a whole transfer succeeds: the stream opens, every write succeeds and so does the save. */
  predicate AllOk(cfg: Config, io: Io)
  {
    io.openOk && io.writeOk && SavesOk(cfg, io)
  }

  /** Where a finished file ends up when its save succeeds. */
  function FinalPath(cfg: Config, io: Io, name: string): string
    requires cfg.platform == Android ==> io.mediaStore.Some?
  {
    match cfg.platform
    case Android => io.mediaStore.value
    case Ios => DocumentPath(cfg, name)
  }

  /** The name a `file-meta` gives the transfer: its own, or `file_<stamp>.bin` when it has none. */
  function NameOf(c: Control, io: Io): (name: string)
    ensures name != ""
    ensures c.name != "" ==> name == c.name
  {
    if c.name != "" then c.name else DefaultName(io.stamp)
  }

  /** A `file-meta` whose stream opens starts a fresh, empty transfer, replacing any active one without a word. */
  lemma MetaStarts(cfg: Config, rx: Rx, c: Control, io: Io)
    requires c.kind == META && io.openOk
    ensures var name := NameOf(c, io);
      Step(cfg, rx, Text(Some(c)), io) ==
      Outcome(Rx(Some(Transfer(name, c.size, 0, TempPath(cfg, io.stamp, name), [], true)), rx.files), [Started(name, c.size)])
  {
  }

  /**
    A `file-complete` on an active transfer whose save succeeds: the bytes land at the final path,
    replacing whatever was there, every other file stays as it was, the transfer is cleared and
    `onComplete` fires once.
  */
  lemma CompleteSaves(cfg: Config, t: Transfer, files: map<string, seq<Byte>>, c: Control, io: Io)
    requires c.kind == COMPLETE && SavesOk(cfg, io)
    ensures var path := FinalPath(cfg, io, t.name);
      var out := Step(cfg, Rx(Some(t), files), Text(Some(c)), io);
      && out.rx.active.None?
      && out.rx.files == files[path := t.data]
      && out.events == [Completed(path, t.name, t.size)]
  {
    if cfg.platform == Ios {
      var path := DocumentPath(cfg, t.name);
      assert (files - {path})[path := t.data] == files[path := t.data];
    }
  }

  /** A binary message with no active transfer, or with no `ArrayBuffer` behind it, is dropped: no callback, no change. */
  lemma StrayBinaryDropped(cfg: Config, rx: Rx, buffer: Option<seq<Byte>>, io: Io)
    requires rx.active.None? || buffer.None?
    ensures Step(cfg, rx, Binary(buffer), io) == Outcome(rx, [])
  {
  }

  /** A `file-complete` with no active transfer is ignored. */
  lemma StrayCompleteIgnored(cfg: Config, rx: Rx, c: Control, io: Io)
    requires c.kind == COMPLETE && rx.active.None?
    ensures Step(cfg, rx, Text(Some(c)), io) == Outcome(rx, [])
  {
  }

  /** Text whose `type` is neither `file-meta` nor `file-complete`, JSON that is not an object included, is ignored. */
  lemma OtherTextIgnored(cfg: Config, rx: Rx, c: Control, io: Io)
    requires c.kind != META && c.kind != COMPLETE
    ensures Step(cfg, rx, Text(Some(c)), io) == Outcome(rx, [])
  {
  }

  /**
    A parse failure, a stream that does not open, a close that fails on an active transfer and a
    write that fails on an active transfer each fire exactly one `onError` and change nothing.
  */
  lemma FailuresChangeNothing(cfg: Config, rx: Rx, m: DcMessage, io: Io)
    ensures m == Text(None) ==> Step(cfg, rx, m, io) == Outcome(rx, [Failed(ParseError)])
    ensures m.Text? && m.parsed.Some? && m.parsed.value.kind == META && !io.openOk ==>
      Step(cfg, rx, m, io) == Outcome(rx, [Failed(OpenFailed)])
    ensures m.Text? && m.parsed.Some? && m.parsed.value.kind == COMPLETE && rx.active.Some? && !io.closeOk ==>
      Step(cfg, rx, m, io) == Outcome(rx, [Failed(CloseFailed)])
    ensures m.Binary? && m.buffer.Some? && rx.active.Some? && !(rx.active.value.streamOpen && io.writeOk) ==>
      Step(cfg, rx, m, io) == Outcome(rx, [Failed(WriteFailed)])
  {
  }

  /**
    iOS, the stream closed but the move failing: `onError` fires, the transfer stays active with
    its stream closed, and the older file at the document path stays deleted.
  */
  lemma IosMoveFailureKeepsTransfer(cfg: Config, t: Transfer, files: map<string, seq<Byte>>, c: Control, io: Io)
    requires c.kind == COMPLETE && cfg.platform == Ios && io.closeOk && !io.moveOk
    ensures Step(cfg, Rx(Some(t), files), Text(Some(c)), io) ==
      Outcome(Rx(Some(t.(streamOpen := false)), files - {DocumentPath(cfg, t.name)}), [Failed(FinalizeFailed)])
  {
  }

  /**
    Android, the stream closed but the media-store copy or the unlink of the temporary file
    failing: the transfer still completes, at the temporary path, which holds its bytes.
  */
  lemma AndroidFallsBackToTempPath(cfg: Config, t: Transfer, files: map<string, seq<Byte>>, c: Control, io: Io)
    requires c.kind == COMPLETE && cfg.platform == Android && io.closeOk
    requires io.mediaStore.None? || !io.unlinkTempOk
    ensures var out := Step(cfg, Rx(Some(t), files), Text(Some(c)), io);
      && out.rx.active.None?
      && out.events == [Completed(t.tempPath, t.name, t.size)]
      && out.rx.files == (if io.mediaStore.Some? then files[io.mediaStore.value := t.data] else files)[t.tempPath := t.data]
  {
  }

  lemma ThreeChunks(x: seq<Byte>, y: seq<Byte>, z: seq<Byte>)
    requires |x| == 3 && |y| == 3 && |z| == 3
    ensures Concat([x, y, z]) == x + y + z
    ensures ProgressCalls(0, 9, [x, y, z]) == [Progress(3, 9), Progress(6, 9), Progress(9, 9)]
  {
    var bufs := [x, y, z];
    assert bufs[1..] == [y, z] && bufs[1..][1..] == [z] && bufs[1..][1..][1..] == [];
    assert Concat([z]) == z + [];
    assert Concat(bufs) == x + (y + (z + []));
    assert ProgressCalls(6, 9, [z]) == [Progress(9, 9)];
    assert ProgressCalls(3, 9, [y, z]) == [Progress(6, 9), Progress(9, 9)];
  }

  /** Binary messages carrying `bufs`, in order, all handled with the same answers `io`. */
  function BinaryArrivals(bufs: seq<seq<Byte>>, io: Io): (arrivals: seq<Arrival>)
    ensures io.writeOk ==> Writes(arrivals, bufs)
  {
    seq(|bufs|, i requires 0 <= i < |bufs| => Arrival(Binary(Some(bufs[i])), io))
  }

  /**
    A whole transfer, every storage call succeeding: `file-meta`, the binary payloads, then
    `file-complete`. Whatever was active before is replaced, `onStart` fires, then one
    progress call per payload, then one completion; the final file holds the payloads in order.
  */
  lemma ReceiveWholeFile(cfg: Config, rx: Rx, io: Io, name: string, size: int, bufs: seq<seq<Byte>>)
    requires AllOk(cfg, io)
    ensures var saved := NameOf(Control(META, name, size), io);
      var path := FinalPath(cfg, io, saved);
      var out := Run(cfg, rx, [Arrival(Text(Some(Control(META, name, size))), io)] + BinaryArrivals(bufs, io)
                              + [Arrival(Text(Some(Control(COMPLETE, name, 0))), io)]);
      && out.events == [Started(saved, size)] + ProgressCalls(0, size, bufs) + [Completed(path, saved, size)]
      && out.rx.active.None? && out.rx.files == rx.files[path := Concat(bufs)]
  {
    var saved := NameOf(Control(META, name, size), io);
    var meta := [Arrival(Text(Some(Control(META, name, size))), io)];
    var chunks := BinaryArrivals(bufs, io);
    var complete := [Arrival(Text(Some(Control(COMPLETE, name, 0))), io)];
    var t := Transfer(saved, size, 0, TempPath(cfg, io.stamp, saved), [], true);
    var full := t.(received := |Concat(bufs)|, data := Concat(bufs));
    var h := Handler(cfg);
    MetaStarts(cfg, rx, Control(META, name, size), io);
    var o1 := Fold(h, rx, meta);
    assert h(rx, meta[0]) == Step(cfg, rx, Text(Some(Control(META, name, size))), io);
    assert Fold(h, h(rx, meta[0]).rx, meta[1..]) == Outcome(Rx(Some(t), rx.files), []);
    assert o1 == Outcome(Rx(Some(t), rx.files), [Started(saved, size)]);
    ReceiveChunks(cfg, t, rx.files, chunks, bufs);
    var o2 := Fold(h, o1.rx, chunks);
    assert t.data + Concat(bufs) == Concat(bufs);
    assert o2 == Run(cfg, Rx(Some(t), rx.files), chunks);
    assert o2 == Outcome(Rx(Some(full), rx.files), ProgressCalls(0, size, bufs));
    CompleteSaves(cfg, full, rx.files, Control(COMPLETE, name, 0), io);
    var o3 := Fold(h, o2.rx, complete);
    FoldConcat(h, rx, meta, chunks);
    FoldConcat(h, rx, meta + chunks, complete);
  }

  /**
    A `file-meta{name:"a.bin", size:9}`, three 3-byte binary messages and a `file-complete`:
    progress reports 3, 6 and 9, and one completion with a 9-byte file.
  */
  lemma NineBytesInThreeChunks(cfg: Config, rx: Rx, io: Io, x: seq<Byte>, y: seq<Byte>, z: seq<Byte>)
    requires AllOk(cfg, io) && |x| == 3 && |y| == 3 && |z| == 3
    ensures var arrivals := [Arrival(Text(Some(Control(META, "a.bin", 9))), io),
                             Arrival(Binary(Some(x)), io), Arrival(Binary(Some(y)), io), Arrival(Binary(Some(z)), io),
                             Arrival(Text(Some(Control(COMPLETE, "a.bin", 0))), io)];
      var out := Run(cfg, rx, arrivals);
      var path := FinalPath(cfg, io, "a.bin");
      && out.events == [Started("a.bin", 9), Progress(3, 9), Progress(6, 9), Progress(9, 9), Completed(path, "a.bin", 9)]
      && out.rx.active.None? && out.rx.files == rx.files[path := x + y + z]
  {
    ReceiveWholeFile(cfg, rx, io, "a.bin", 9, [x, y, z]);
    ThreeChunks(x, y, z);
    var arrivals := [Arrival(Text(Some(Control(META, "a.bin", 9))), io)] + BinaryArrivals([x, y, z], io)
                    + [Arrival(Text(Some(Control(COMPLETE, "a.bin", 0))), io)];
    assert arrivals == [Arrival(Text(Some(Control(META, "a.bin", 9))), io),
                        Arrival(Binary(Some(x)), io), Arrival(Binary(Some(y)), io), Arrival(Binary(Some(z)), io),
                        Arrival(Text(Some(Control(COMPLETE, "a.bin", 0))), io)];
  }

  /** The receiver attached to a channel; `events` is the sequence of callbacks made so far. */
  class FileReceiver {
    const cfg: Config
    var active: Option<Transfer>
    var files: map<string, seq<Byte>>
    var events: seq<Event>

    function State(): Rx
      reads this
    {
      Rx(active, files)
    }

    ghost predicate Valid()
      reads this
    {
      Inv(State())
    }

    constructor (cfg: Config)
      ensures Valid() && this.cfg == cfg && State() == INITIAL && events == []
    {
      this.cfg := cfg;
      active, files, events := None, map[], [];
    }

    /** `handleMessage`, run to completion before the next message is taken from the queue. */
    method HandleMessage(m: DcMessage, io: Io)
      requires Valid()
      modifies this
      ensures Valid()
      ensures State() == Step(cfg, old(State()), m, io).rx
      ensures events == old(events) + Step(cfg, old(State()), m, io).events
    {
      match m
      case Text(parsed) =>
        if parsed.None? {
          events := events + [Failed(ParseError)];
          return;
        }
        var msg := parsed.value;
        if msg.kind == META {
          var name := if msg.name != "" then msg.name else DefaultName(io.stamp);
          var size := msg.size;
          var tempPath := TempPath(cfg, io.stamp, name);
          if !io.openOk {
            events := events + [Failed(OpenFailed)];
            return;
          }
          active := Some(Transfer(name, size, 0, tempPath, [], true));
          events := events + [Started(name, size)];
        } else if msg.kind == COMPLETE {
          if active.None? {
            return;
          }
          if !io.closeOk {
            events := events + [Failed(CloseFailed)];
            return;
          }
          var t := active.value.(streamOpen := false);
          active := Some(t);
          var finalPath := "";
          if cfg.platform == Android {
            if io.mediaStore.Some? {
              finalPath := io.mediaStore.value;
              files := files[finalPath := t.data];
              if !io.unlinkTempOk {
                finalPath := t.tempPath;
                files := files[t.tempPath := t.data];
              }
            } else {
              finalPath := t.tempPath;
              files := files[t.tempPath := t.data];
            }
          } else {
            finalPath := DocumentPath(cfg, t.name);
            if finalPath in files {
              files := files - {finalPath};
            }
            if !io.moveOk {
              events := events + [Failed(FinalizeFailed)];
              return;
            }
            files := files[finalPath := t.data];
          }
          events := events + [Completed(finalPath, t.name, t.size)];
          active := None;
        }
      case Binary(buffer) =>
        if active.Some? && buffer.Some? {
          var t := active.value;
          if !(t.streamOpen && io.writeOk) {
            events := events + [Failed(WriteFailed)];
            return;
          }
          var bytes := buffer.value;
          active := Some(t.(received := t.received + |bytes|, data := t.data + bytes));
          events := events + [Progress(t.received + |bytes|, t.size)];
        }
    }

    /** The `writeQueue` chain: each arrival handled after the previous one finished. */
    method Deliver(arrivals: seq<Arrival>)
      requires Valid()
      modifies this
      ensures Valid()
      ensures State() == Run(cfg, old(State()), arrivals).rx
      ensures events == old(events) + Run(cfg, old(State()), arrivals).events
    {
      var i := 0;
      while i < |arrivals|
        invariant i <= |arrivals| && Valid()
        invariant Run(cfg, State(), arrivals[i..]).rx == Run(cfg, old(State()), arrivals).rx
        invariant events + Run(cfg, State(), arrivals[i..]).events == old(events) + Run(cfg, old(State()), arrivals).events
      {
        assert arrivals[i..][1..] == arrivals[i + 1..];
        HandleMessage(arrivals[i].msg, arrivals[i].io);
        i := i + 1;
      }
    }
  }

  /** `attachFileReceiver`: refuses a connection without a data channel, whatever its state otherwise. */
  method Attach(dc: DataChannel, cfg: Config) returns (r: Result<FileReceiver, string>)
    ensures r.Err? <==> dc.NoChannel?
    ensures r.Err? ==> r.error == MISSING_CHANNEL
    ensures r.Ok? ==>
      fresh(r.value) && r.value.Valid() && r.value.cfg == cfg && r.value.State() == INITIAL && r.value.events == []
  {
    if dc.NoChannel? {
      return Err(MISSING_CHANNEL);
    }
    var receiver := new FileReceiver(cfg);
    return Ok(receiver);
  }
}
