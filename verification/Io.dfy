/** Reading and writing frames (`src/io.rs`) over a stream that may deliver any
    number of octets per read. */
module Io {
  import opened Common
  import opened Headers
  import opened Messages

  /** The first frame of a stream and what follows it. */
  function ReadFrame(s: seq<byte>, maxUsize: nat): Result<(Message, seq<byte>), WireError> {
    if |s| < HEADER_SIZE then Err(UnexpectedEof)
    else
      match Decode(s[..HEADER_SIZE], maxUsize)
      case Err(e) => Err(e)
      case Ok(h) =>
        if |s| < Total(h) then Err(UnexpectedEof)
        else
          var qEnd := HEADER_SIZE + h.queryLength;
          Ok((Message(h, s[HEADER_SIZE..qEnd], s[qEnd..Total(h)]), s[Total(h)..]))
  }

  /** The first frame, taken off the stream part by part. */
  lemma PartByPart(s: seq<byte>, maxUsize: nat)
    ensures |s| < HEADER_SIZE ==> ReadFrame(s, maxUsize) == Err(UnexpectedEof)
    ensures |s| >= HEADER_SIZE ==>
      match Decode(s[..HEADER_SIZE], maxUsize)
      case Err(e) => ReadFrame(s, maxUsize) == Err(e)
      case Ok(h) =>
        ReadFrame(s, maxUsize) ==
          if |s| < Total(h) then Err(UnexpectedEof)
          else
            var tail := s[HEADER_SIZE..];
            Ok((Message(h, tail[..h.queryLength], tail[h.queryLength..][..h.bodyLength]),
                tail[h.queryLength..][h.bodyLength..]))
  {
    if |s| >= HEADER_SIZE && Decode(s[..HEADER_SIZE], maxUsize).Ok? {
      var h := Decode(s[..HEADER_SIZE], maxUsize).value;
      if Total(h) <= |s| {
        TakenParts(s, HEADER_SIZE, h.queryLength, h.bodyLength);
      }
    }
  }

  /** Read frames until one fails: the messages, the octets after the last whole
      frame, and the error that stopped it. */
  function ReadAll(s: seq<byte>, maxUsize: nat): (seq<Message>, seq<byte>, WireError)
    decreases |s|
  {
    match ReadFrame(s, maxUsize)
    case Err(e) => ([], s, e)
    case Ok((m, rest)) =>
      var (ms, left, e) := ReadAll(rest, maxUsize);
      ([m] + ms, left, e)
  }

  function Frames(ms: seq<Message>): seq<byte> {
    if ms == [] then [] else ToVec(ms[0]) + Frames(ms[1..])
  }

  /** A frame that was read is well formed, and its octets are those it was read
      from. */
  lemma FrameOfRead(s: seq<byte>, maxUsize: nat)
    requires ReadFrame(s, maxUsize).Ok?
    ensures var (m, rest) := ReadFrame(s, maxUsize).value;
      WellFormed(m, maxUsize) && ToVec(m) + rest == s
  {
    var (m, rest) := ReadFrame(s, maxUsize).value;
    DecodedTotalIsSafe(s[..HEADER_SIZE], maxUsize);
    assert s[..HEADER_SIZE][..HEADER_SIZE] == s[..HEADER_SIZE];
    Apart(s, HEADER_SIZE, HEADER_SIZE + m.header.queryLength, Total(m.header));
  }

  lemma Apart(s: seq<byte>, i: nat, j: nat, k: nat)
    requires i <= j <= k <= |s|
    ensures s[..i] + s[i..j] + s[j..k] + s[k..] == s
  {
  }

  /** Nothing is lost or invented in any stream: the frames of the messages read,
      followed by what is left, are the stream, and what is left starts with no
      whole frame. */
  lemma {:induction false} ReadAllSplitsTheStream(s: seq<byte>, maxUsize: nat)
    ensures var (ms, left, e) := ReadAll(s, maxUsize);
      && Frames(ms) + left == s && ReadFrame(left, maxUsize) == Err(e)
      && forall i :: 0 <= i < |ms| ==> WellFormed(ms[i], maxUsize)
    decreases |s|
  {
    hide ToVec, WellFormed;
    match ReadFrame(s, maxUsize)
    case Err(_) => assert [] + s == s;
    case Ok((m, rest)) =>
      FrameOfRead(s, maxUsize);
      ReadAllSplitsTheStream(rest, maxUsize);
      var (ms, left, e) := ReadAll(rest, maxUsize);
      assert ([m] + ms)[1..] == ms;
      Associate(ToVec(m), Frames(ms), left);
  }

  lemma ReadOneFrame(m: Message, rest: seq<byte>, maxUsize: nat)
    requires WellFormed(m, maxUsize)
    ensures ReadFrame(ToVec(m) + rest, maxUsize) == Ok((m, rest))
  {
    FrameParts(Encode(m.header), m.query, m.body, rest);
    assert Encode(m.header) + [] == Encode(m.header);
    DecodeOfEncode(m.header, [], maxUsize);
    assert (ToVec(m) + rest)[|ToVec(m)|..] == rest;
  }

  /** A stream that ends inside a frame is told apart from one that is malformed. */
  lemma TruncatedFrameIsEof(m: Message, k: nat, maxUsize: nat)
    requires WellFormed(m, maxUsize) && k < |ToVec(m)|
    ensures ReadFrame(ToVec(m)[..k], maxUsize) == Err(UnexpectedEof)
  {
    if k >= HEADER_SIZE {
      CutHeader(m, k);
      DecodeOfEncode(m.header, [], maxUsize);
      assert Encode(m.header) + [] == Encode(m.header);
    }
  }

  lemma BadHeaderStopsReading(h: Header, rest: seq<byte>, maxUsize: nat)
    requires BadHeader(h, maxUsize)
    ensures Decode(Encode(h), maxUsize).Err?
    ensures ReadFrame(Encode(h) + rest, maxUsize) == Err(Decode(Encode(h), maxUsize).error)
  {
    DecodeOfEncode(h, [], maxUsize);
    assert Encode(h) + [] == Encode(h);
    hide Encode, Decode;
    assert (Encode(h) + rest)[..HEADER_SIZE] == Encode(h);
  }

  lemma ReadFirst(m: Message, frames: seq<byte>, rest: seq<byte>, maxUsize: nat)
    requires WellFormed(m, maxUsize)
    ensures var (ms, left, e) := ReadAll(frames + rest, maxUsize);
      ReadAll(ToVec(m) + frames + rest, maxUsize) == ([m] + ms, left, e)
  {
    ReadOneFrame(m, frames + rest, maxUsize);
    Associate(ToVec(m), frames, rest);
  }

  /** What follows well-formed frames cannot change how they are read. */
  lemma {:induction false} FramesThenRest(ms: seq<Message>, rest: seq<byte>, maxUsize: nat)
    requires forall i :: 0 <= i < |ms| ==> WellFormed(ms[i], maxUsize)
    ensures var (after, left, e) := ReadAll(rest, maxUsize);
      ReadAll(Frames(ms) + rest, maxUsize) == (ms + after, left, e)
  {
    hide ReadFrame, ToVec;
    var after := ReadAll(rest, maxUsize).0;
    if ms == [] {
      assert Frames(ms) + rest == rest && ms + after == after;
    } else {
      FramesThenRest(ms[1..], rest, maxUsize);
      ReadFirst(ms[0], Frames(ms[1..]), rest, maxUsize);
      assert [ms[0]] + (ms[1..] + after) == ms + after;
    }
  }

  /** Frames delimit themselves: for every list of well-formed messages, reading
      their concatenated frames gives the list back and leaves nothing. */
  lemma FramesDelimitThemselves(ms: seq<Message>, maxUsize: nat)
    requires forall i :: 0 <= i < |ms| ==> WellFormed(ms[i], maxUsize)
    ensures ReadAll(Frames(ms), maxUsize) == (ms, [], UnexpectedEof)
  {
    FramesThenRest(ms, [], maxUsize);
    assert Frames(ms) + [] == Frames(ms) && ms + [] == ms;
  }

  // ---- a stream with short reads ------------------------------------------

  /** `pattern` says how many octets each read would like to deliver; a read gives
      at least one octet unless the stream has ended. */
  class Source {
    const data: seq<byte>
    var pos: nat
    var pattern: seq<nat>

    ghost predicate Valid()
      reads this
    {
      pos <= |data|
    }

    ghost function Remaining(): seq<byte>
      requires Valid()
      reads this
    {
      data[pos..]
    }

    constructor (data: seq<byte>, pattern: seq<nat>)
      ensures Valid() && Remaining() == data
    {
      this.data := data;
      this.pos := 0;
      this.pattern := pattern;
    }

    /** Deliver some octets into `buf[lo..]`. */
    method Read(buf: array<byte>, lo: nat) returns (n: nat)
      requires Valid() && lo <= buf.Length
      modifies this, buf
      ensures Valid() && n <= buf.Length - lo && n <= |old(Remaining())|
      ensures n == 0 <==> lo == buf.Length || old(Remaining()) == []
      ensures Remaining() == old(Remaining())[n..]
      ensures buf[..lo] == old(buf[..lo]) && buf[lo..lo + n] == old(Remaining())[..n]
    {
      var space := buf.Length - lo;
      var left := |data| - pos;
      var most := if space <= left then space else left;
      var want := if pattern == [] then most else pattern[0];
      pattern := if pattern == [] then [] else pattern[1..];
      n := if want > most then most else if want == 0 && most > 0 then 1 else want;
      assert data[pos..pos + n] == data[pos..][..n];
      CopyAt(buf, lo, data[pos..pos + n]);
      pos := pos + n;
      assert buf[lo..lo + n] == data[old(pos)..][..n];
    }

    /** `read_exact` into `buf[from..]`: keep reading into the shrinking rest. */
    method ReadExact(buf: array<byte>, from: nat) returns (ok: bool)
      requires Valid() && from <= buf.Length
      modifies this, buf
      ensures Valid() && ok == (buf.Length - from <= |old(Remaining())|)
      ensures buf[..from] == old(buf[..from])
      ensures ok ==> buf[from..] == old(Remaining())[..buf.Length - from]
      ensures ok ==> Remaining() == old(Remaining())[buf.Length - from..]
      ensures !ok ==> Remaining() == []
    {
      ghost var start := Remaining();
      var lo := from;
      while lo < buf.Length
        invariant Valid() && from <= lo <= buf.Length && lo - from <= |start|
        invariant buf[..from] == old(buf[..from])
        invariant buf[from..lo] == start[..lo - from] && Remaining() == start[lo - from..]
      {
        ghost var was := buf[..lo];
        var n := Read(buf, lo);
        if n == 0 {
          return false;
        }
        assert buf[..from] == was[..from] && buf[from..lo] == was[from..];
        assert buf[from..lo + n] == buf[from..lo] + buf[lo..lo + n];
        lo := lo + n;
      }
      assert buf[from..lo] == buf[from..];
      return true;
    }

    /** `read_exact` into a fresh buffer, skipped when nothing is asked for. */
    method Take(n: nat) returns (r: Option<seq<byte>>)
      requires Valid()
      modifies this
      ensures Valid()
      ensures r == if n <= |old(Remaining())| then Some(old(Remaining())[..n]) else None
      ensures r.Some? ==> Remaining() == old(Remaining())[n..]
      ensures r.None? ==> Remaining() == []
    {
      if n == 0 {
        return Some([]);
      }
      var buf := new byte[n](_ => 0);
      var ok := ReadExact(buf, 0);
      if !ok {
        return None;
      }
      r := Some(buf[..]);
    }

    /** `read_message`: whatever the pattern of short reads, the first frame. */
    method ReadMessage(maxUsize: nat) returns (r: Result<Message, WireError>)
      requires Valid()
      modifies this
      ensures Valid()
      ensures match ReadFrame(old(Remaining()), maxUsize)
        case Ok((m, rest)) => r == Ok(m) && Remaining() == rest
        case Err(e) => r == Err(e)
      ensures r.Ok? ==> |Remaining()| < |old(Remaining())|
    {
      ghost var start := Remaining();
      PartByPart(start, maxUsize);
      hide ReadFrame, Decode, RawFields;
      var head := Take(HEADER_SIZE);
      if head.None? {
        return Err(UnexpectedEof);
      }
      var decoded := DecodeHeader(head.value, maxUsize);
      if decoded.Err? {
        return Err(decoded.error);
      }
      var h := decoded.value;
      var query := Take(h.queryLength);
      if query.None? {
        return Err(UnexpectedEof);
      }
      var body := Take(h.bodyLength);
      if body.None? {
        return Err(UnexpectedEof);
      }
      r := New(h, query.value, body.value);
    }

    /** `read_message_into`: the whole frame in one buffer, grown in two steps. */
    method ReadMessageInto(maxUsize: nat) returns (r: Result<seq<byte>, WireError>)
      requires Valid()
      modifies this
      ensures Valid()
      ensures match ReadFrame(old(Remaining()), maxUsize)
        case Ok((m, rest)) => r == Ok(old(Remaining())[..Total(m.header)]) && Remaining() == rest
        case Err(e) => r == Err(e)
    {
      ghost var start := Remaining();
      var head := Take(HEADER_SIZE);
      if head.None? {
        return Err(UnexpectedEof);
      }
      var decoded := DecodeHeader(head.value, maxUsize);
      if decoded.Err? {
        return Err(decoded.error);
      }
      var total := Total(decoded.value);
      var buf := new byte[total](_ => 0);
      CopyAt(buf, 0, head.value);
      var ok := ReadExact(buf, HEADER_SIZE);
      if !ok {
        return Err(UnexpectedEof);
      }
      assert buf[..] == buf[..HEADER_SIZE] + buf[HEADER_SIZE..];
      assert start[HEADER_SIZE..][..total - HEADER_SIZE] == start[HEADER_SIZE..total];
      assert buf[..] == start[..total];
      r := Ok(buf[..]);
    }

    /** The read loop of a connection: every message up to the first failure, and
        how many octets they took. */
    method ReadMessages(maxUsize: nat) returns (ms: seq<Message>, consumed: nat, stopped: WireError)
      requires Valid()
      modifies this
      ensures Valid() && consumed <= |old(Remaining())|
      ensures (ms, old(Remaining())[consumed..], stopped) == ReadAll(old(Remaining()), maxUsize)
    {
      ghost var start := Remaining();
      ms, consumed := [], 0;
      NothingReadYet(start, maxUsize);
      hide ReadFrame, ReadAll, ReadSoFar;
      while true
        invariant Valid() && consumed <= |start| && Remaining() == start[consumed..]
        invariant ReadSoFar(start, maxUsize, ms, Remaining())
        decreases |Remaining()|
      {
        ghost var rest := Remaining();
        var before := pos;
        var r := ReadMessage(maxUsize);
        OneMoreRead(start, maxUsize, ms, rest);
        if r.Err? {
          stopped := r.error;
          return;
        }
        ms := ms + [r.value];
        consumed := consumed + (pos - before);
      }
    }
  }

  /** `ms` was read off the front of `start`, and `rest` is what follows. */
  ghost predicate ReadSoFar(start: seq<byte>, maxUsize: nat, ms: seq<Message>, rest: seq<byte>) {
    var (after, left, e) := ReadAll(rest, maxUsize);
    ReadAll(start, maxUsize) == (ms + after, left, e)
  }

  lemma NothingReadYet(start: seq<byte>, maxUsize: nat)
    ensures ReadSoFar(start, maxUsize, [], start)
  {
    hide ReadAll;
    assert [] + ReadAll(start, maxUsize).0 == ReadAll(start, maxUsize).0;
  }

  lemma OneMoreRead(start: seq<byte>, maxUsize: nat, ms: seq<Message>, rest: seq<byte>)
    requires ReadSoFar(start, maxUsize, ms, rest)
    ensures var r := ReadFrame(rest, maxUsize);
      && (r.Err? ==> ReadAll(start, maxUsize) == (ms, rest, r.error))
      && (r.Ok? ==> ReadSoFar(start, maxUsize, ms + [r.value.0], r.value.1))
  {
    var r := ReadFrame(rest, maxUsize);
    hide Decode;
    if r.Err? {
      assert ms + [] == ms;
    } else {
      Associate(ms, [r.value.0], ReadAll(r.value.1, maxUsize).0);
    }
  }

  /** The buffer `read_message_into` fills parses, borrowed, to the message
      `read_message` would have returned. */
  lemma FrameInBufferParses(s: seq<byte>, maxUsize: nat)
    requires ReadFrame(s, maxUsize).Ok?
    ensures var m := ReadFrame(s, maxUsize).value.0;
      Total(m.header) <= |s| && ViewFromSlice(s[..Total(m.header)], maxUsize) == Ok(m)
  {
    var h := ReadFrame(s, maxUsize).value.0.header;
    var frame, qEnd := s[..Total(h)], HEADER_SIZE + h.queryLength;
    assert frame[..HEADER_SIZE] == s[..HEADER_SIZE];
    assert frame[HEADER_SIZE..qEnd] == s[HEADER_SIZE..qEnd] && frame[qEnd..Total(h)] == s[qEnd..Total(h)];
  }

  // ---- writing ------------------------------------------------------------

  /** A header whose lengths are taken from the parts it is framed with. */
  predicate Frameable(query: seq<byte>, body: seq<byte>) {
    HEADER_SIZE + |query| + |body| < U64_LIMIT
  }

  function Reframed(h: Header, query: seq<byte>, body: seq<byte>): Header
    requires Frameable(query, body)
  {
    h.(queryLength := |query|, bodyLength := |body|, length := HEADER_SIZE + |query| + |body|)
  }

  class Sink {
    var out: seq<byte>

    constructor ()
      ensures out == []
    {
      out := [];
    }

    method WriteAll(bytes: seq<byte>)
      modifies this
      ensures out == old(out) + bytes
    {
      out := out + bytes;
    }

    /** `write_message`: three writes, empty parts skipped. */
    method WriteMessage(m: Message)
      modifies this
      ensures out == old(out) + ToVec(m)
    {
      var encoded := EncodeHeader(m.header);
      WriteAll(encoded[..]);
      if m.query != [] {
        WriteAll(m.query);
      }
      if m.body != [] {
        WriteAll(m.body);
      }
      Regroup(old(out), encoded[..], m.query, m.body);
    }

    /** `write_message_streaming` with a body writer that emits `body`: the lengths
        in the given header are replaced, so the frame is always consistent. */
    method WriteStreaming(header: Header, query: seq<byte>, body: seq<byte>)
      requires Frameable(query, body)
      modifies this
      ensures out == old(out) + ToVec(Message(Reframed(header, query, body), query, body))
    {
      var encoded := EncodeHeader(Reframed(header, query, body));
      WriteAll(encoded[..]);
      if query != [] {
        WriteAll(query);
      }
      WriteAll(body);
      Regroup(old(out), encoded[..], query, body);
    }
  }
}
