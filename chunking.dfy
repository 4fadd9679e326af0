/** How both senders cut a file: consecutive pieces of `min(chunk, remaining)` bytes. */
module Chunking {
  import opened Common

  /** One piece of a file: its absolute start offset and its bytes. */
  datatype Piece = Piece(offset: nat, bytes: seq<Byte>)

  function End(p: Piece): nat
  {
    p.offset + |p.bytes|
  }

  function Min(a: nat, b: nat): nat
  {
    if a <= b then a else b
  }

  /** The pieces cut from `rest`, the tail of a file that starts at absolute offset `base`. */
  function Split(rest: seq<Byte>, chunk: nat, base: nat): seq<Piece>
    requires chunk > 0
    decreases |rest|
  {
    if |rest| == 0 then []
    else
      var n := Min(chunk, |rest|);
      [Piece(base, rest[..n])] + Split(rest[n..], chunk, base + n)
  }

  /** One turn of a chunking loop at `offset`: the next piece, then the pieces of what follows it. */
  lemma SplitStep(data: seq<Byte>, chunk: nat, offset: nat)
    requires chunk > 0 && offset < |data|
    ensures var end := Min(offset + chunk, |data|);
      Split(data[offset..], chunk, offset) == [Piece(offset, data[offset..end])] + Split(data[end..], chunk, end)
  {
    var end := Min(offset + chunk, |data|);
    assert data[offset..][..end - offset] == data[offset..end];
    assert data[offset..][end - offset..] == data[end..];
  }

  /** The bytes of a piece sequence laid end to end. */
  function Joined(ps: seq<Piece>): seq<Byte>
  {
    if |ps| == 0 then [] else ps[0].bytes + Joined(ps[1..])
  }

  /** The pieces start at `base`, each starts where the previous one ends, and the last ends at `stop`. */
  ghost predicate Contiguous(ps: seq<Piece>, base: nat, stop: nat)
  {
    && (|ps| == 0 ==> base == stop)
    && (|ps| > 0 ==> ps[0].offset == base && End(ps[|ps| - 1]) == stop)
    // two bound indices rather than `ps[i + 1]`, so that the trigger `ps[i], ps[j]` cannot feed itself a new term
    && (forall i, j :: 0 <= i < j < |ps| && j == i + 1 ==> ps[j].offset == End(ps[i]))
  }

  /** Every piece is non-empty and at most `chunk` long; all but the last are exactly `chunk` long. */
  ghost predicate WellSized(ps: seq<Piece>, chunk: nat)
  {
    && (forall i :: 0 <= i < |ps| ==> 0 < |ps[i].bytes| <= chunk)
    && (forall i :: 0 <= i < |ps| - 1 ==> |ps[i].bytes| == chunk)
  }

  lemma {:induction false} SplitJoined(rest: seq<Byte>, chunk: nat, base: nat)
    requires chunk > 0
    ensures Joined(Split(rest, chunk, base)) == rest
    decreases |rest|
  {
    if |rest| > 0 {
      var n := Min(chunk, |rest|);
      var ps := Split(rest, chunk, base);
      SplitJoined(rest[n..], chunk, base + n);
      assert ps[1..] == Split(rest[n..], chunk, base + n);
      assert rest == rest[..n] + rest[n..];
    }
  }

  lemma {:induction false} SplitContiguous(rest: seq<Byte>, chunk: nat, base: nat)
    requires chunk > 0
    ensures Contiguous(Split(rest, chunk, base), base, base + |rest|)
    decreases |rest|
  {
    if |rest| > 0 {
      var n := Min(chunk, |rest|);
      var tail := Split(rest[n..], chunk, base + n);
      var ps := Split(rest, chunk, base);
      SplitContiguous(rest[n..], chunk, base + n);
      assert ps == [Piece(base, rest[..n])] + tail;
      forall i, j | 0 <= i < j < |ps| && j == i + 1
        ensures ps[j].offset == End(ps[i])
      {
        if i > 0 {
          assert ps[i] == tail[i - 1] && ps[j] == tail[j - 1];
        }
      }
    }
  }

  lemma {:induction false} SplitWellSized(rest: seq<Byte>, chunk: nat, base: nat)
    requires chunk > 0
    ensures WellSized(Split(rest, chunk, base), chunk)
    decreases |rest|
  {
    if |rest| > 0 {
      var n := Min(chunk, |rest|);
      var tail := Split(rest[n..], chunk, base + n);
      SplitWellSized(rest[n..], chunk, base + n);
      var ps := Split(rest, chunk, base);
      assert ps == [Piece(base, rest[..n])] + tail;
      assert n < chunk ==> |rest[n..]| == 0;
      forall i | 0 <= i < |ps| - 1
        ensures |ps[i].bytes| == chunk
      {
        if i > 0 { assert ps[i] == tail[i - 1]; }
      }
    }
  }

  /** Each piece carries exactly the file bytes between its offset and its end. */
  lemma {:induction false} SplitSlices(rest: seq<Byte>, chunk: nat, base: nat, i: nat)
    requires chunk > 0
    requires i < |Split(rest, chunk, base)|
    ensures var p := Split(rest, chunk, base)[i];
      base <= p.offset <= End(p) <= base + |rest| && p.bytes == rest[p.offset - base..End(p) - base]
    decreases |rest|
  {
    var n := Min(chunk, |rest|);
    if i > 0 {
      SplitSlices(rest[n..], chunk, base + n, i - 1);
    }
  }

  /** The ends of contiguous non-empty pieces strictly increase, and the last is `stop`. */
  lemma EndsIncrease(ps: seq<Piece>, base: nat, stop: nat, chunk: nat)
    requires Contiguous(ps, base, stop) && WellSized(ps, chunk)
    ensures forall i, j :: 0 <= i < j < |ps| ==> End(ps[i]) < End(ps[j])
    ensures |ps| > 0 ==> End(ps[|ps| - 1]) == stop
  {
    forall i, j | 0 <= i < j < |ps|
      ensures End(ps[i]) < End(ps[j])
    {
      var k := i;
      while k < j
        invariant i <= k <= j
        invariant End(ps[i]) <= End(ps[k])
        invariant k > i ==> End(ps[i]) < End(ps[k])
      {
        assert ps[k + 1].offset == End(ps[k]);
        k := k + 1;
      }
    }
  }
}
