/** Messages of `src/message.rs`: framing, parsing, and the in-place wire path. */
module Messages {
  import opened Common
  import opened Headers

  datatype Message = Message(header: Header, query: seq<byte>, body: seq<byte>)

  /** The header's lengths are those of the parts. */
  predicate Consistent(m: Message) {
    && m.header.queryLength == |m.query|
    && m.header.bodyLength == |m.body|
    && m.header.length == Total(m.header)
  }

  /** A message every receiver with this address space accepts. */
  predicate WellFormed(m: Message, maxUsize: nat) {
    Consistent(m) && m.header.spec == REPE_SPEC && Addressable(m.header, maxUsize)
  }

  /** `Message::new`. */
  function New(h: Header, query: seq<byte>, body: seq<byte>): Result<Message, WireError> {
    if h.queryLength != |query| || h.bodyLength != |body| then
      Err(LengthMismatch(SaturatingTotal(h), HEADER_SIZE + |query| + |body|))
    else Ok(Message(h, query, body))
  }

  function SaturatingTotal(h: Header): nat {
    if Total(h) < U64_LIMIT then Total(h) else U64_LIMIT - 1
  }

  /** A message is made exactly of parts its header announces; otherwise both totals
      are reported, the announced one as far as 64 bits go. */
  lemma NewChecksLengths(h: Header, query: seq<byte>, body: seq<byte>)
    ensures New(h, query, body).Ok? <==> h.queryLength == |query| && h.bodyLength == |body|
    ensures New(h, query, body).Ok? ==> New(h, query, body).value == Message(h, query, body)
    ensures New(h, query, body).Err? ==>
      New(h, query, body).error ==
        LengthMismatch(
          (if 48 + h.queryLength + h.bodyLength <= 0xFFFF_FFFF_FFFF_FFFF then 48 + h.queryLength + h.bodyLength
           else 0xFFFF_FFFF_FFFF_FFFF),
          48 + |query| + |body|)
  {
  }

  /** The frame: header, query, body. */
  function ToVec(m: Message): (s: seq<byte>)
    ensures |s| == HEADER_SIZE + |m.query| + |m.body|
  {
    Encode(m.header) + m.query + m.body
  }

  /** `MessageView::from_slice`: the parts as slices of the input. */
  function ViewFromSlice(buf: seq<byte>, maxUsize: nat): Result<Message, WireError> {
    if |buf| < HEADER_SIZE then Err(InvalidHeaderLength(|buf|))
    else
      match Decode(buf[..HEADER_SIZE], maxUsize)
      case Err(e) => Err(e)
      case Ok(h) =>
        if |buf| < Total(h) then Err(BufferTooSmall(Total(h), |buf|))
        else
          var qEnd := HEADER_SIZE + h.queryLength;
          Ok(Message(h, buf[HEADER_SIZE..qEnd], buf[qEnd..Total(h)]))
  }

  /** `Message::from_slice`: the parts copied out and checked again. */
  function FromSlice(buf: seq<byte>, maxUsize: nat): Result<Message, WireError> {
    if |buf| < HEADER_SIZE then Err(InvalidHeaderLength(|buf|))
    else
      match Decode(buf[..HEADER_SIZE], maxUsize)
      case Err(e) => Err(e)
      case Ok(h) =>
        if |buf| < Total(h) then Err(BufferTooSmall(Total(h), |buf|))
        else
          var query := buf[HEADER_SIZE..][..h.queryLength];
          var body := buf[HEADER_SIZE..][h.queryLength..][..h.bodyLength];
          New(h, query, body)
  }

  function FromSliceExact(buf: seq<byte>, maxUsize: nat): Result<Message, WireError> {
    match FromSlice(buf, maxUsize)
    case Err(e) => Err(e)
    case Ok(m) =>
      if |buf| != HEADER_SIZE + |m.query| + |m.body| then
        Err(LengthMismatch(HEADER_SIZE + |m.query| + |m.body|, |buf|))
      else Ok(m)
  }

  /** The second check never fires: borrowing and copying parsers agree on every
      buffer, errors included. */
  lemma OwnedParseIsViewParse(buf: seq<byte>, maxUsize: nat)
    ensures FromSlice(buf, maxUsize) == ViewFromSlice(buf, maxUsize)
  {
    if |buf| >= HEADER_SIZE && Decode(buf[..HEADER_SIZE], maxUsize).Ok? {
      var h := Decode(buf[..HEADER_SIZE], maxUsize).value;
      if Total(h) <= |buf| {
        TakenParts(buf, HEADER_SIZE, h.queryLength, h.bodyLength);
      }
    }
  }

  lemma TakenParts(s: seq<byte>, i: nat, j: nat, k: nat)
    requires i + j + k <= |s|
    ensures s[i..][..j] == s[i..i + j]
    ensures s[i..][j..][..k] == s[i + j..i + j + k]
    ensures s[i..][j..][k..] == s[i + j + k..]
  {
  }

  lemma FrameParts(header: seq<byte>, query: seq<byte>, body: seq<byte>, rest: seq<byte>)
    ensures var s := header + query + body + rest;
      && s[..|header|] == header
      && s[|header|..|header| + |query|] == query
      && s[|header| + |query|..|header| + |query| + |body|] == body
  {
  }

  /** Framing then parsing gives the message back exactly when it is well formed;
      what follows the frame does not matter. */
  lemma ParseOfFrame(m: Message, rest: seq<byte>, maxUsize: nat)
    ensures FromSlice(ToVec(m) + rest, maxUsize) == Ok(m) <==> WellFormed(m, maxUsize)
  {
    OwnedParseIsViewParse(ToVec(m) + rest, maxUsize);
    FrameParts(Encode(m.header), m.query, m.body, rest);
    assert Encode(m.header) + [] == Encode(m.header);
    DecodeOfEncode(m.header, [], maxUsize);
  }

  /** The exact parser accepts a frame alone and nothing after it. */
  lemma ExactParseOfFrame(m: Message, rest: seq<byte>, maxUsize: nat)
    ensures FromSliceExact(ToVec(m) + rest, maxUsize) == Ok(m) <==> WellFormed(m, maxUsize) && rest == []
  {
    ParseOfFrame(m, rest, maxUsize);
  }

  /** A header no receiver with this address space accepts. */
  predicate BadHeader(h: Header, maxUsize: nat) {
    h.spec != REPE_SPEC || !Addressable(h, maxUsize) || h.length != Total(h)
  }

  /** A parser stops at a bad header with that header's own error, whatever follows. */
  lemma BadHeaderIsReported(h: Header, rest: seq<byte>, maxUsize: nat)
    requires BadHeader(h, maxUsize)
    ensures Decode(Encode(h), maxUsize).Err?
    ensures FromSliceExact(Encode(h) + rest, maxUsize) == Err(Decode(Encode(h), maxUsize).error)
    ensures ViewFromSlice(Encode(h) + rest, maxUsize) == Err(Decode(Encode(h), maxUsize).error)
  {
    DecodeOfEncode(h, [], maxUsize);
    assert Encode(h) + [] == Encode(h);
    hide Encode, Decode;
    OwnedParseIsViewParse(Encode(h) + rest, maxUsize);
    assert (Encode(h) + rest)[..HEADER_SIZE] == Encode(h);
  }

  /** A frame cut short, or with anything after it, is refused with the two lengths
      that disagree. */
  lemma WrongLengthIsReported(m: Message, k: nat, rest: seq<byte>, maxUsize: nat)
    requires WellFormed(m, maxUsize) && k < |ToVec(m)| && rest != []
    ensures FromSliceExact(ToVec(m)[..k], maxUsize) ==
      Err(if k < 48 then InvalidHeaderLength(k) else BufferTooSmall(48 + |m.query| + |m.body|, k))
    ensures FromSliceExact(ToVec(m) + rest, maxUsize) ==
      Err(LengthMismatch(48 + |m.query| + |m.body|, 48 + |m.query| + |m.body| + |rest|))
  {
    hide Encode, Decode;
    ParseOfFrame(m, rest, maxUsize);
    if k >= 48 {
      CutHeader(m, k);
      DecodeOfEncode(m.header, [], maxUsize);
      assert Encode(m.header) + [] == Encode(m.header);
    }
  }

  lemma CutHeader(m: Message, k: nat)
    requires HEADER_SIZE <= k <= |ToVec(m)|
    ensures ToVec(m)[..k][..HEADER_SIZE] == Encode(m.header)
  {
    assert ToVec(m)[..HEADER_SIZE] == Encode(m.header);
  }

  /** Whatever the exact parser accepts is well formed and frames back to the same
      octets. */
  lemma FrameOfParse(buf: seq<byte>, maxUsize: nat)
    requires FromSliceExact(buf, maxUsize).Ok?
    ensures var m := FromSliceExact(buf, maxUsize).value; WellFormed(m, maxUsize) && ToVec(m) == buf
  {
    hide Encode, Decode;
    OwnedParseIsViewParse(buf, maxUsize);
    var m := FromSliceExact(buf, maxUsize).value;
    DecodedTotalIsSafe(buf[..HEADER_SIZE], maxUsize);
    assert buf[..HEADER_SIZE][..HEADER_SIZE] == buf[..HEADER_SIZE];
    Reassembled(buf, HEADER_SIZE, HEADER_SIZE + |m.query|);
  }

  lemma Reassembled(buf: seq<byte>, i: nat, j: nat)
    requires i <= j <= |buf|
    ensures buf[..i] + buf[i..j] + buf[j..|buf|] == buf
  {
  }

  // ---- the in-place wire path ---------------------------------------------

  /** `slice::copy_within(0..len, dst)` for a destination at or past the source:
      the ranges may overlap, so the copy runs from the back. */
  method CopyWithin(buf: array<byte>, len: nat, dst: nat)
    requires dst + len <= buf.Length
    modifies buf
    ensures forall j :: 0 <= j < len ==> buf[dst + j] == old(buf[j])
  {
    var i := len;
    while i > 0
      invariant 0 <= i <= len
      invariant forall j :: 0 <= j < i ==> buf[j] == old(buf[j])
      invariant forall j :: i <= j < len ==> buf[dst + j] == old(buf[j])
    {
      i := i - 1;
      buf[dst + i] := buf[i];
    }
  }

  /** `into_wire_bytes`. `buf` is the body's allocation, whose length is its
      capacity, and the body is its first `bodyLen` octets. With room for the
      prefix the frame is built in that allocation; otherwise in a fresh one. */
  method IntoWireBytes(header: Header, query: seq<byte>, buf: array<byte>, bodyLen: nat)
    returns (out: array<byte>, total: nat)
    requires bodyLen <= buf.Length
    modifies buf
    ensures total <= out.Length
    ensures out[..total] == ToVec(Message(header, query, old(buf[..bodyLen])))
    ensures if buf.Length >= HEADER_SIZE + |query| + bodyLen then out == buf else fresh(out)
  {
    total := HEADER_SIZE + |query| + bodyLen;
    var encoded := EncodeHeader(header);
    if buf.Length >= total {
      FrameInPlace(encoded[..], query, buf, bodyLen);
      out := buf;
    } else {
      out := FrameFresh(encoded[..], query, buf[..bodyLen]);
    }
  }

  /** Shift the body to the back, then overwrite the front with the prefix. */
  method FrameInPlace(header: seq<byte>, query: seq<byte>, buf: array<byte>, bodyLen: nat)
    requires |header| + |query| + bodyLen <= buf.Length
    modifies buf
    ensures buf[..|header| + |query| + bodyLen] == header + query + old(buf[..bodyLen])
  {
    var prefixLen := |header| + |query|;
    if bodyLen > 0 {
      CopyWithin(buf, bodyLen, prefixLen);
    }
    CopyAt(buf, 0, header);
    CopyAt(buf, |header|, query);
    assert buf[..prefixLen] == header + query;
    assert buf[prefixLen..prefixLen + bodyLen] == old(buf[..bodyLen]);
  }

  method FrameFresh(header: seq<byte>, query: seq<byte>, body: seq<byte>) returns (out: array<byte>)
    ensures fresh(out) && out[..] == header + query + body
  {
    out := new byte[|header| + |query| + |body|](_ => 0);
    var o := Write(out, 0, header);
    o := Write(out, o, query);
    o := Write(out, o, body);
    assert out[..o] == out[..];
  }
}
