/** The byte-bounded replay ring of `src/stream.rs`.

    The ring is specified by functions on sequences of chunks; the class at the
    end updates its fields in place, as the source does, and is proved against
    those functions. */
module Replay {
  import opened Common

  /** One emitted body. `offset` and `dataLen` count logical bytes, the body
      counts wire bytes. */
  datatype RingChunk = RingChunk(offset: nat, dataLen: nat, last: bool, body: seq<byte>) {
    function End(): nat { offset + dataLen }
  }

  /** Wire bytes of a run of chunks. */
  function Wire(cs: seq<RingChunk>): nat {
    if cs == [] then 0 else |cs[0].body| + Wire(cs[1..])
  }

  /** Logical bytes of a run of chunks. */
  function Logical(cs: seq<RingChunk>): nat {
    if cs == [] then 0 else cs[0].dataLen + Logical(cs[1..])
  }

  /** Each chunk starts where the one before it ended. */
  ghost predicate Contiguous(cs: seq<RingChunk>) {
    forall i :: 0 < i < |cs| ==> cs[i].offset == cs[i - 1].End()
  }

  /** `cs` covers the logical range `[from, to)` without gap or overlap. */
  ghost predicate Tiles(cs: seq<RingChunk>, from: nat, to: nat) {
    && Contiguous(cs)
    && (if cs == [] then from == to else cs[0].offset == from && cs[|cs| - 1].End() == to)
  }

  /** Where the ring ends, or 0 when it holds nothing. */
  function Edge(cs: seq<RingChunk>): nat {
    if cs == [] then 0 else cs[|cs| - 1].End()
  }

  /** Drop chunks from the front until the rest fits, keeping at least one. */
  function Evict(cs: seq<RingChunk>, capacity: nat): seq<RingChunk> {
    if Wire(cs) > capacity && |cs| > 1 then Evict(cs[1..], capacity) else cs
  }

  function Push(cs: seq<RingChunk>, capacity: nat, c: RingChunk): seq<RingChunk> {
    Evict(cs + [c], capacity)
  }

  predicate Covers(cs: seq<RingChunk>, offset: nat) {
    if cs == [] then offset == 0
    else (exists i :: 0 <= i < |cs| && cs[i].offset == offset) || Edge(cs) == offset
  }

  function ReplayFrom(cs: seq<RingChunk>, offset: nat): seq<RingChunk> {
    if cs == [] then []
    else (if cs[0].offset >= offset then [cs[0]] else []) + ReplayFrom(cs[1..], offset)
  }

  /** The ring after pushing `log`, in order, since the last file boundary. */
  function RingOf(log: seq<RingChunk>, capacity: nat): seq<RingChunk> {
    if log == [] then [] else Push(RingOf(log[..|log| - 1], capacity), capacity, log[|log| - 1])
  }

  /** The i-th chunk boundary of a contiguous run: its start plus the logical
      bytes of its first i chunks. */
  function Boundary(cs: seq<RingChunk>, i: nat): nat
    requires i <= |cs|
  {
    (if cs == [] then 0 else cs[0].offset) + Logical(cs[..i])
  }

  function SaturatingSub(a: nat, b: nat): nat {
    if a < b then 0 else a - b
  }

  // ---- arithmetic of runs -------------------------------------------------

  lemma {:induction false} WireAppend(cs: seq<RingChunk>, c: RingChunk)
    ensures Wire(cs + [c]) == Wire(cs) + |c.body|
  {
    if cs == [] {
      assert cs + [c] == [c];
    } else {
      WireAppend(cs[1..], c);
      assert (cs + [c])[1..] == cs[1..] + [c];
    }
  }

  lemma {:induction false} LogicalAppend(cs: seq<RingChunk>, c: RingChunk)
    ensures Logical(cs + [c]) == Logical(cs) + c.dataLen
  {
    if cs == [] {
      assert cs + [c] == [c];
    } else {
      LogicalAppend(cs[1..], c);
      assert (cs + [c])[1..] == cs[1..] + [c];
    }
  }

  /** In a contiguous run the i-th boundary is where chunk i starts, and the
      last boundary is the trailing edge. */
  lemma {:induction false} BoundaryIsOffset(cs: seq<RingChunk>, i: nat)
    requires Contiguous(cs) && i <= |cs|
    ensures Boundary(cs, i) == if i < |cs| then cs[i].offset else Edge(cs)
  {
    if i > 0 {
      BoundaryIsOffset(cs, i - 1);
      assert cs[..i] == cs[..i - 1] + [cs[i - 1]];
      LogicalAppend(cs[..i - 1], cs[i - 1]);
    }
  }

  lemma {:induction false} OffsetsAscend(cs: seq<RingChunk>, i: nat, j: nat)
    requires Contiguous(cs) && i <= j < |cs|
    ensures cs[i].offset <= cs[j].offset && cs[i].End() <= cs[j].End()
    decreases j
  {
    if i < j {
      OffsetsAscend(cs, i, j - 1);
    }
  }

  lemma SuffixIsContiguous(cs: seq<RingChunk>, k: nat)
    requires Contiguous(cs) && k <= |cs|
    ensures Contiguous(cs[k..]) && (k < |cs| ==> Edge(cs[k..]) == Edge(cs))
  {
    forall i | 0 < i < |cs[k..]| ensures cs[k..][i].offset == cs[k..][i - 1].End() {
      assert cs[k..][i] == cs[k + i] && cs[k..][i - 1] == cs[k + i - 1];
    }
  }

  lemma ExtendedIsContiguous(cs: seq<RingChunk>, c: RingChunk)
    requires Contiguous(cs) && (cs != [] ==> c.offset == Edge(cs))
    ensures Contiguous(cs + [c]) && Edge(cs + [c]) == c.End()
  {
  }

  // ---- eviction -----------------------------------------------------------

  /** Dropping the first `k` chunks of `cs` is exactly what the budget forces: the
      rest fits or is a single chunk, and every longer suffix is over budget. */
  ghost predicate DropIsForced(cs: seq<RingChunk>, capacity: nat, k: nat)
    requires k <= |cs|
  {
    && (cs != [] ==> k < |cs|)
    && (Wire(cs[k..]) <= capacity || k + 1 == |cs|)
    && (forall j: nat :: j < k ==> OverBudget(cs, capacity, j))
  }

  ghost predicate OverBudget(cs: seq<RingChunk>, capacity: nat, j: nat)
    requires j <= |cs|
  {
    Wire(cs[j..]) > capacity
  }

  lemma {:induction false} EvictIsSuffix(cs: seq<RingChunk>, capacity: nat) returns (k: nat)
    ensures k <= |cs| && Evict(cs, capacity) == cs[k..] && DropIsForced(cs, capacity, k)
  {
    assert cs[0..] == cs;
    if Wire(cs) > capacity && |cs| > 1 {
      var k' := EvictIsSuffix(cs[1..], capacity);
      k := k' + 1;
      assert cs[1..][k'..] == cs[k..];
      forall j: nat | j < k ensures OverBudget(cs, capacity, j) {
        if j > 0 {
          assert OverBudget(cs[1..], capacity, j - 1);
          assert cs[1..][j - 1..] == cs[j..];
        }
      }
    } else {
      k := 0;
    }
  }

  /** Pushes that keep appending keep every over-budget suffix over budget. */
  lemma OverBudgetGrows(cs: seq<RingChunk>, capacity: nat, j: nat, c: RingChunk)
    requires j <= |cs| && OverBudget(cs, capacity, j)
    ensures OverBudget(cs + [c], capacity, j)
  {
    assert (cs + [c])[j..] == cs[j..] + [c];
    WireAppend(cs[j..], c);
  }

  /** The retained ring is the longest suffix of everything pushed since the file
      boundary whose wire size fits, but never less than the last body. */
  lemma {:induction false} RingIsLongestFittingSuffix(log: seq<RingChunk>, capacity: nat) returns (k: nat)
    ensures k <= |log| && RingOf(log, capacity) == log[k..] && DropIsForced(log, capacity, k)
  {
    if log == [] {
      k := 0;
    } else {
      var prev, c := log[..|log| - 1], log[|log| - 1];
      assert log == prev + [c];
      var p := RingIsLongestFittingSuffix(prev, capacity);
      assert prev[p..] + [c] == log[p..];
      var e := EvictIsSuffix(log[p..], capacity);
      k := p + e;
      assert log[p..][e..] == log[k..];
      forall j: nat | j < k ensures OverBudget(log, capacity, j) {
        if j < p {
          OverBudgetGrows(prev, capacity, j, c);
        } else {
          assert OverBudget(log[p..], capacity, j - p);
          assert log[p..][j - p..] == log[j..];
        }
      }
    }
  }

  /** Pushing keeps the ring contiguous and moves its edge to the new chunk. */
  lemma PushKeepsRun(cs: seq<RingChunk>, capacity: nat, c: RingChunk)
    requires Contiguous(cs) && (cs != [] ==> c.offset == Edge(cs))
    ensures Contiguous(Push(cs, capacity, c))
    ensures Push(cs, capacity, c) != [] && Edge(Push(cs, capacity, c)) == c.End()
    ensures forall x :: x in Push(cs, capacity, c) ==> x in cs || x == c
  {
    var k := EvictIsSuffix(cs + [c], capacity);
    ExtendedIsContiguous(cs, c);
    SuffixIsContiguous(cs + [c], k);
  }

  // ---- covers and replay --------------------------------------------------

  /** `covers` accepts exactly the retained chunk boundaries. */
  lemma CoversIffBoundary(cs: seq<RingChunk>, offset: nat)
    requires Contiguous(cs)
    ensures Covers(cs, offset) <==> exists i :: 0 <= i <= |cs| && Boundary(cs, i) == offset
  {
    forall i | 0 <= i <= |cs| ensures Boundary(cs, i) == if i < |cs| then cs[i].offset else Edge(cs) {
      BoundaryIsOffset(cs, i);
    }
    if Covers(cs, offset) {
      var i :| 0 <= i <= |cs| && (if i < |cs| then cs[i].offset else Edge(cs)) == offset;
      assert Boundary(cs, i) == offset;
    }
  }

  /** A contiguous run that starts at or after the offset is replayed whole. */
  lemma {:induction false} ReplayWhole(cs: seq<RingChunk>, offset: nat)
    requires Contiguous(cs) && (cs != [] ==> cs[0].offset >= offset)
    ensures ReplayFrom(cs, offset) == cs
  {
    if cs != [] {
      SuffixIsContiguous(cs, 1);
      ReplayWhole(cs[1..], offset);
      assert [cs[0]] + cs[1..] == cs;
    }
  }

  /** On a contiguous run, replay is the suffix from the first chunk at or after
      the offset. */
  lemma {:induction false} ReplayIsSuffix(cs: seq<RingChunk>, offset: nat) returns (k: nat)
    requires Contiguous(cs)
    ensures k <= |cs| && ReplayFrom(cs, offset) == cs[k..]
    ensures k < |cs| ==> cs[k].offset >= offset
    ensures k > 0 ==> cs[k - 1].offset < offset
  {
    if cs == [] || cs[0].offset >= offset {
      k := 0;
      ReplayWhole(cs, offset);
      assert cs[0..] == cs;
    } else {
      SuffixIsContiguous(cs, 1);
      k := ReplayIsSuffix(cs[1..], offset);
      assert cs[1..][k..] == cs[k + 1..];
      k := k + 1;
    }
  }

  /** Of a covered offset, the first chunk at or after it starts exactly there; if
      there is none, the offset is the trailing edge. */
  lemma CoveredStart(cs: seq<RingChunk>, offset: nat, k: nat)
    requires Contiguous(cs) && Covers(cs, offset) && k <= |cs|
    requires k < |cs| ==> cs[k].offset >= offset
    requires k > 0 ==> cs[k - 1].offset < offset
    ensures offset == if k < |cs| then cs[k].offset else Edge(cs)
  {
    if i :| 0 <= i < |cs| && cs[i].offset == offset {
      if i < k {
        OffsetsAscend(cs, i, k - 1);
      } else {
        OffsetsAscend(cs, k, i);
      }
    } else if k < |cs| {
      OffsetsAscend(cs, k, |cs| - 1);
    }
  }

  /** A covered offset is replayed by a suffix of the ring that tiles exactly the
      range from the offset to the trailing edge. */
  lemma ReplayTilesTail(cs: seq<RingChunk>, offset: nat) returns (k: nat)
    requires Contiguous(cs) && Covers(cs, offset)
    ensures k <= |cs| && ReplayFrom(cs, offset) == cs[k..]
    ensures Tiles(ReplayFrom(cs, offset), offset, Edge(cs))
  {
    k := ReplayIsSuffix(cs, offset);
    CoveredStart(cs, offset, k);
    SuffixIsContiguous(cs, k);
  }

  /** Any pushed boundary whose remaining wire bytes fit the capacity is covered
      however many pushes came before it. */
  lemma FittingBoundaryIsCovered(log: seq<RingChunk>, capacity: nat, i: nat)
    requires Contiguous(log) && (log != [] ==> log[0].offset == 0)
    requires i <= |log| && Wire(log[i..]) <= capacity
    ensures Covers(RingOf(log, capacity), Boundary(log, i))
  {
    var ring := RingOf(log, capacity);
    var k := RingIsLongestFittingSuffix(log, capacity);
    BoundaryIsOffset(log, i);
    assert i < k ==> OverBudget(log, capacity, i);
    if i < |log| {
      assert ring[i - k].offset == log[i].offset;
    }
  }

  // ---- the in-place ring --------------------------------------------------

  /** `ReplayRing`: chunks in a deque, their wire bytes counted beside them. */
  class ReplayRing {
    var chunks: seq<RingChunk>
    var bytesHeld: nat
    const capacityBytes: nat

    ghost predicate Valid()
      reads this
    {
      bytesHeld == Wire(chunks)
    }

    constructor (capacityBytes: nat)
      ensures Valid() && chunks == [] && this.capacityBytes == capacityBytes
    {
      chunks, bytesHeld := [], 0;
      this.capacityBytes := capacityBytes;
    }

    /** Append, then evict from the front while over budget. */
    method PushBack(offset: nat, dataLen: nat, last: bool, body: seq<byte>)
      requires Valid()
      requires chunks != [] ==> offset == Edge(chunks)
      modifies this
      ensures Valid()
      ensures chunks == Push(old(chunks), capacityBytes, RingChunk(offset, dataLen, last, body))
    {
      var c := RingChunk(offset, dataLen, last, body);
      WireAppend(chunks, c);
      chunks := chunks + [c];
      bytesHeld := bytesHeld + |body|;
      while bytesHeld > capacityBytes && |chunks| > 1
        invariant Valid()
        invariant Evict(chunks, capacityBytes) == Push(old(chunks), capacityBytes, c)
        decreases |chunks|
      {
        var front := chunks[0];
        chunks := chunks[1..];
        bytesHeld := SaturatingSub(bytesHeld, |front.body|);
      }
    }

    method Clear()
      modifies this
      ensures Valid() && chunks == []
    {
      chunks := [];
      bytesHeld := 0;
    }

    method CoversOffset(offset: nat) returns (r: bool)
      ensures r == Covers(chunks, offset)
    {
      if chunks == [] {
        return offset == 0;
      }
      for i := 0 to |chunks|
        invariant forall j :: 0 <= j < i ==> chunks[j].offset != offset
      {
        if chunks[i].offset == offset {
          return true;
        }
      }
      r := chunks[|chunks| - 1].End() == offset;
    }

    method ChunksFrom(offset: nat) returns (out: seq<RingChunk>)
      ensures out == ReplayFrom(chunks, offset)
    {
      out := [];
      var i := |chunks|;
      assert chunks[i..] == [];
      while i > 0
        invariant i <= |chunks|
        invariant out == ReplayFrom(chunks[i..], offset)
      {
        i := i - 1;
        assert chunks[i..][1..] == chunks[i + 1..];
        if chunks[i].offset >= offset {
          out := [chunks[i]] + out;
        }
      }
      assert chunks[0..] == chunks;
    }
  }
}
