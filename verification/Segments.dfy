/** The segment splitter a mounted struct dispatches through (`with_segments` in
    `src/server.rs`): a 16-slot stack buffer that spills into a list. */
module Segments {
  import opened Common
  import opened JsonPointer

  const STACK_SEGS: nat := 16

  function Trimmed(relative: Text): Text {
    if relative != [] && relative[0] == SLASH then relative[1..] else relative
  }

  /** The segments the dispatch callback is given, or `None` when the pointer is
      refused as malformed. */
  function SegmentsOf(relative: Text): Option<seq<Text>> {
    if TILDE in relative then Parse(relative)
    else if relative == [] then Some([])
    else if relative == ROOT then Some([[]])
    else Some(Split(Trimmed(relative)))
  }

  lemma {:induction false} PlainPiecesUnescape(ts: seq<Text>)
    requires forall i :: 0 <= i < |ts| ==> TILDE !in ts[i]
    ensures UnescapeAll(ts) == Some(ts)
  {
    if ts != [] {
      UnescapePlain(ts[0]);
      PlainPiecesUnescape(ts[1..]);
      assert [ts[0]] + ts[1..] == ts;
    }
  }

  lemma {:induction false} SplitAddsNothing(s: Text, c: byte)
    requires c !in s
    ensures forall i :: 0 <= i < |Split(s)| ==> c !in Split(s)[i]
  {
    if s != [] {
      SplitAddsNothing(s[1..], c);
    }
  }

  /** The splitter and `parse` give the same tokens, and refuse the same pointers,
      exactly on these inputs: the empty pointer, any pointer with a `~`, and any
      absolute pointer other than `/` itself. On `/` the splitter passes one empty
      token where `parse` has none, and a relative pointer without escapes is
      split, as if it began with a slash, where `parse` refuses it. */
  lemma SplitterAgreesWithParse(relative: Text)
    ensures SegmentsOf(relative) == Parse(relative) <==>
      relative == [] || TILDE in relative || (relative[0] == SLASH && relative != ROOT)
    ensures SegmentsOf(ROOT) == Some([[]])
    ensures relative != [] && TILDE !in relative && relative[0] != SLASH ==>
      SegmentsOf(relative) == Parse([SLASH] + relative)
  {
    if TILDE !in relative && relative != [] && relative[0] != SLASH {
      var absolute := [SLASH] + relative;
      assert absolute[1..] == relative && absolute != ROOT;
      SplitAddsNothing(relative, TILDE);
      PlainPiecesUnescape(Split(relative));
    }
    if TILDE !in relative && relative != [] && relative[0] == SLASH && relative != ROOT {
      SplitAddsNothing(relative[1..], TILDE);
      PlainPiecesUnescape(Split(relative[1..]));
    }
  }

  /** The segments seen so far: the filled slots, or the spill list once the
      buffer has overflowed. */
  ghost function Gathered(stack: seq<Text>, count: nat, overflow: Option<seq<Text>>): seq<Text>
    requires count <= |stack|
  {
    match overflow
    case None => stack[..count]
    case Some(v) => v
  }

  /** The splitting loop. The callback's argument is returned. */
  method WithSegments(relative: Text) returns (r: Option<seq<Text>>)
    ensures r == SegmentsOf(relative)
  {
    if TILDE in relative {
      return Parse(relative);
    }
    if relative == [] {
      return Some([]);
    }
    if relative == ROOT {
      return Some([[]]);
    }
    var segs := Split(Trimmed(relative));
    var stack := new Text[STACK_SEGS](_ => []);
    var count := 0;
    var overflow: Option<seq<Text>> := None;
    for i := 0 to |segs|
      invariant count <= STACK_SEGS && stack.Length == STACK_SEGS
      invariant overflow.None? ==> count == i
      invariant overflow.Some? ==> count == STACK_SEGS
      invariant Gathered(stack[..], count, overflow) == segs[..i]
    {
      assert segs[..i + 1] == segs[..i] + [segs[i]];
      if overflow.Some? {
        overflow := Some(overflow.value + [segs[i]]);
      } else if count < STACK_SEGS {
        ghost var filled := stack[..count];
        stack[count] := segs[i];
        count := count + 1;
        assert stack[..][..count] == filled + [segs[i]];
      } else {
        assert stack[..][..count] == stack[..];
        overflow := Some(stack[..] + [segs[i]]);
      }
    }
    assert segs[..|segs|] == segs;
    r := Some(if overflow.Some? then overflow.value else stack[..count]);
  }
}
