/** The owned, inline and borrowing dispatch paths of `src/server_request.rs`,
    `src/server.rs` and `src/message.rs`, and why they put the same octets on the
    wire. */
module Dispatch {
  import opened Common
  import opened Headers
  import opened Messages
  import opened Io

  /** A buffer in memory. Two of them and a header never reach 2^64 octets. */
  type Buffer = s: seq<byte> | |s| < 0x4000_0000_0000_0000 witness []

  /** A message held in memory. */
  type Packet = m: Message | |m.query| < 0x4000_0000_0000_0000 && |m.body| < 0x4000_0000_0000_0000
    witness Build(0, [], [], 0, 0, 0)

  const JSON_POINTER: u16 := 1

  /** `Expected JSON body`. */
  const EXPECTED_JSON_BODY: Buffer :=
    [0x45, 0x78, 0x70, 0x65, 0x63, 0x74, 0x65, 0x64, 0x20, 0x4A, 0x53, 0x4F, 0x4E, 0x20, 0x62, 0x6F, 0x64, 0x79]

  datatype BodyFormat = RawBinary | Beve | Json | Utf8 {
    function Code(): u16 {
      match this
      case RawBinary => 0
      case Beve => 1
      case Json => 2
      case Utf8 => 3
    }
  }

  function BodyFormatOf(code: u16): Option<BodyFormat> {
    if code == 0 then Some(RawBinary)
    else if code == 1 then Some(Beve)
    else if code == 2 then Some(Json)
    else if code == 3 then Some(Utf8)
    else None
  }

  /** A failure as the dispatch layer frames it: its code and its text. */
  datatype Failure = Failure(code: u32, text: Buffer)

  // ---- building responses -------------------------------------------------

  /** `MessageBuilder::build`. */
  function Build(id: u64, query: Buffer, body: Buffer, queryFormat: u16, bodyFormat: u16, ec: u32): (m: Message)
    ensures Consistent(m)
    ensures m.query == query && m.body == body
  {
    Message(
      Header(HEADER_SIZE + |query| + |body|, REPE_SPEC, REPE_VERSION, 0, 0, id, |query|, |body|,
             queryFormat, bodyFormat, ec),
      query, body)
  }

  /** `create_error_message`. */
  function ErrorMessage(f: Failure): Packet {
    Build(0, [], f.text, 0, Utf8.Code(), f.code)
  }

  /** `create_error_response_for`: the request's id and query are written into the
      error message and its lengths adjusted. */
  function ErrorResponse(id: u64, query: Buffer, f: Failure): Packet {
    var err := ErrorMessage(f);
    Message(err.header.(id := id, queryLength := |query|, length := HEADER_SIZE + |query| + |f.text|), query, err.body)
  }

  /** `create_error_response_unstamped_view`: only the id is taken. */
  function ErrorResponseUnstamped(id: u64, f: Failure): Packet {
    var err := ErrorMessage(f);
    err.(header := err.header.(id := id))
  }

  /** The query format a response declares: the request's if it is known. */
  function KnownQueryFormat(code: u16): u16 {
    if code == JSON_POINTER then JSON_POINTER else 0
  }

  /** A query-less success response to a request header. */
  function SuccessUnstamped(h: Header, body: Buffer, format: BodyFormat): Packet {
    Build(h.id, [], body, KnownQueryFormat(h.queryFormat), format.Code(), OK)
  }

  /** `stamp_response_query`: echo the request query into a response that has none.
      The sum wraps as a `u64` sum does. */
  function Stamp(m: Packet, requestQuery: Buffer): Packet {
    if requestQuery == [] || m.query != [] then m
    else
      var length := (HEADER_SIZE + |requestQuery| + m.header.bodyLength) % U64_LIMIT;
      Message(m.header.(queryLength := |requestQuery|, length := length), requestQuery, m.body)
  }

  /** `response_echo_query`: the query the borrowing writer frames with. */
  function EchoQuery(m: Packet, requestQuery: Buffer): Buffer {
    if m.query == [] then requestQuery else m.query
  }

  /** The message the borrowing writer frames: the echoed query, and lengths taken
      from the parts. */
  function Echo(m: Packet, requestQuery: Buffer): Packet {
    var echo := EchoQuery(m, requestQuery);
    Message(Reframed(m.header, echo, m.body), echo, m.body)
  }

  /** What the owning carriers send: stamp, then serialize. */
  function StampedFrame(m: Packet, requestQuery: Buffer): seq<byte> {
    ToVec(Stamp(m, requestQuery))
  }

  /** What the borrowing carriers send: stream with the echoed query. */
  function EchoedFrame(m: Packet, requestQuery: Buffer): seq<byte> {
    ToVec(Echo(m, requestQuery))
  }

  // ---- when the two framings agree ----------------------------------------

  /** The lengths the owned path leaves as the handler set them are right. When
      the query is stamped the stamp itself sets the other two. */
  predicate LengthsMatch(m: Packet, requestQuery: Buffer) {
    if requestQuery != [] && m.query == [] then m.header.bodyLength == |m.body| else Consistent(m)
  }

  lemma SameFrameSameHeader(m: Message, n: Message)
    requires m.query == n.query && m.body == n.body
    ensures ToVec(m) == ToVec(n) <==> m.header == n.header
  {
    if ToVec(m) == ToVec(n) {
      FrameParts(Encode(m.header), m.query, m.body, []);
      FrameParts(Encode(n.header), n.query, n.body, []);
      assert ToVec(m) + [] == ToVec(n) + [];
      EncodeInjective(m.header, n.header);
    }
  }

  lemma StampIsEchoIffLengthsMatch(m: Packet, requestQuery: Buffer)
    ensures Stamp(m, requestQuery).query == Echo(m, requestQuery).query
    ensures Stamp(m, requestQuery).body == Echo(m, requestQuery).body
    ensures Stamp(m, requestQuery).header == Echo(m, requestQuery).header <==> LengthsMatch(m, requestQuery)
  {
  }

  /** For every response and request query, stamping then serializing gives the
      octets of the borrowing writer exactly when the handler's lengths match. */
  lemma FramingsAgreeIffLengthsMatch(m: Packet, requestQuery: Buffer)
    ensures StampedFrame(m, requestQuery) == EchoedFrame(m, requestQuery) <==> LengthsMatch(m, requestQuery)
  {
    StampIsEchoIffLengthsMatch(m, requestQuery);
    SameFrameSameHeader(Stamp(m, requestQuery), Echo(m, requestQuery));
  }

  // ---- typed handlers -----------------------------------------------------

  /** The body codecs, kept abstract, and what counts as UTF-8. */
  datatype Codec<!T, !R> = Codec(
    utf8: Buffer -> bool,
    notUtf8: Buffer -> Failure,
    readJson: Buffer -> Result<T, Failure>,
    readBeve: Buffer -> Result<T, Failure>,
    writeJson: R -> Buffer,
    writeBeve: R -> Buffer)

  datatype Typed<!T, !R> = Typed(codec: Codec<T, R>, call: T -> Result<(R, BodyFormat), Failure>)

  datatype Decoded<+T> = Value(value: T) | BadFormat | Broken(failure: Failure)

  /** `decode_typed_body`. */
  function DecodeBody<T, R>(c: Codec<T, R>, body: Buffer, format: u16): Decoded<T> {
    match BodyFormatOf(format)
    case Some(Beve) => FromResult(c.readBeve(body))
    case Some(RawBinary) => BadFormat
    case None => BadFormat
    case _ => if c.utf8(body) then FromResult(c.readJson(body)) else Broken(c.notUtf8(body))
  }

  function FromResult<T>(r: Result<T, Failure>): Decoded<T> {
    match r
    case Ok(v) => Value(v)
    case Err(f) => Broken(f)
  }

  /** `finish_response`: the octets written for a result in the chosen format. */
  function EncodeResult<T, R>(c: Codec<T, R>, r: R, format: BodyFormat): Buffer {
    if format.Beve? then c.writeBeve(r) else c.writeJson(r)
  }

  /** `TypedHandler::handle` on an owned request. */
  function Handle<T, R>(h: Typed<T, R>, req: Packet): Result<Packet, Failure> {
    match DecodeBody(h.codec, req.body, req.header.bodyFormat)
    case Broken(f) => Err(f)
    case BadFormat => Ok(ErrorResponse(req.header.id, req.query, Failure(INVALID_BODY, EXPECTED_JSON_BODY)))
    case Value(t) =>
      match h.call(t)
      case Ok((r, format)) => Ok(SuccessUnstamped(req.header, EncodeResult(h.codec, r, format), format))
      case Err(f) => Ok(ErrorResponse(req.header.id, req.query, f))
  }

  /** `TypedHandler::handle_view` on a borrowed one. */
  function HandleView<T, R>(h: Typed<T, R>, view: Packet): Result<Packet, Failure> {
    match DecodeBody(h.codec, view.body, view.header.bodyFormat)
    case Broken(f) => Err(f)
    case BadFormat => Ok(ErrorResponseUnstamped(view.header.id, Failure(INVALID_BODY, EXPECTED_JSON_BODY)))
    case Value(t) =>
      match h.call(t)
      case Ok((r, format)) => Ok(SuccessUnstamped(view.header, EncodeResult(h.codec, r, format), format))
      case Err(f) => Ok(ErrorResponseUnstamped(view.header.id, f))
  }

  /** `dispatch`: the response to an owned request, nothing for a notify. */
  function DispatchOwned(outcome: Result<Packet, Failure>, req: Packet, notify: bool): Option<Packet> {
    if notify then None
    else
      match outcome
      case Ok(m) => Some(m)
      case Err(f) => Some(ErrorResponse(req.header.id, req.query, f))
  }

  /** `dispatch_view`: its borrowing twin. */
  function DispatchView(outcome: Result<Packet, Failure>, view: Packet, notify: bool): Option<Packet> {
    if notify then None
    else
      match outcome
      case Ok(m) => Some(m)
      case Err(f) => Some(ErrorResponseUnstamped(view.header.id, f))
  }

  /** The two error responses frame alike: the owned one already carries the query
      the borrowing writer echoes. */
  lemma ErrorsFrameAlike(id: u64, query: Buffer, f: Failure)
    ensures StampedFrame(ErrorResponse(id, query, f), query) == EchoedFrame(ErrorResponseUnstamped(id, f), query)
    ensures StampedFrame(ErrorResponseUnstamped(id, f), query) == EchoedFrame(ErrorResponseUnstamped(id, f), query)
  {
    assert Stamp(ErrorResponse(id, query, f), query) == Echo(ErrorResponseUnstamped(id, f), query);
    assert Stamp(ErrorResponseUnstamped(id, f), query) == Echo(ErrorResponseUnstamped(id, f), query);
  }

  lemma SuccessFramesAlike(h: Header, body: Buffer, format: BodyFormat, query: Buffer)
    ensures Stamp(SuccessUnstamped(h, body, format), query) == Echo(SuccessUnstamped(h, body, format), query)
  {
    StampIsEchoIffLengthsMatch(SuccessUnstamped(h, body, format), query);
  }

  lemma TypedMessagesAgree<T, R>(h: Typed<T, R>, req: Packet)
    ensures var owned := DispatchOwned(Handle(h, req), req, false).value;
      var viewed := DispatchView(HandleView(h, req), req, false).value;
      Stamp(owned, req.query) == Stamp(viewed, req.query) == Echo(viewed, req.query)
  {
    match DecodeBody(h.codec, req.body, req.header.bodyFormat)
    case Broken(f) =>
    case BadFormat =>
    case Value(t) =>
      match h.call(t) {
        case Err(f) =>
        case Ok((r, format)) => SuccessFramesAlike(req.header, EncodeResult(h.codec, r, format), format, req.query);
      }
  }

  /** For every typed handler and request, on success, handler error, bad format
      and decode error alike: the off-reader path (owned, stamped, serialized), the
      inline path (borrowed, stamped, serialized) and the borrowing path (streamed
      with the echoed query) emit the same octets, or all emit nothing. */
  lemma TypedPathsAgree<T, R>(h: Typed<T, R>, req: Packet, notify: bool)
    ensures var owned := DispatchOwned(Handle(h, req), req, notify);
      var viewed := DispatchView(HandleView(h, req), req, notify);
      && (owned.None? <==> notify) && (viewed.None? <==> notify)
      && (!notify ==>
            && StampedFrame(owned.value, req.query) == EchoedFrame(viewed.value, req.query)
            && StampedFrame(viewed.value, req.query) == EchoedFrame(viewed.value, req.query))
  {
    TypedMessagesAgree(h, req);
  }

  /** Any other handler answers a view by answering the message copied out of it,
      so both paths see one outcome. They then emit the same octets exactly when
      the outcome is an error or a message whose lengths match. */
  lemma CustomPathsAgreeIffLengthsMatch(outcome: Result<Packet, Failure>, req: Packet)
    ensures var owned := DispatchOwned(outcome, req, false).value;
      var viewed := DispatchView(outcome, req, false).value;
      StampedFrame(owned, req.query) == EchoedFrame(viewed, req.query) <==>
        outcome.Err? || LengthsMatch(outcome.value, req.query)
  {
    match outcome
    case Ok(m) => FramingsAgreeIffLengthsMatch(m, req.query);
    case Err(f) => ErrorsFrameAlike(req.header.id, req.query, f);
  }

  /** A borrowed frame always parses back: the response's header and body with the
      lengths of its parts, and the request's query unless the handler set its own. */
  lemma EchoedFrameParses(m: Packet, requestQuery: Buffer, maxUsize: nat)
    requires m.header.spec == REPE_SPEC
    requires HEADER_SIZE + |EchoQuery(m, requestQuery)| + |m.body| <= maxUsize
    ensures var query := if m.query == [] then requestQuery else m.query;
      var length := 48 + |query| + |m.body|;
      FromSliceExact(EchoedFrame(m, requestQuery), maxUsize) ==
        Ok(Message(m.header.(length := length, queryLength := |query|, bodyLength := |m.body|), query, m.body))
  {
    hide ToVec, FromSliceExact;
    var framed := Echo(m, requestQuery);
    ExactParseOfFrame(framed, [], maxUsize);
    assert ToVec(framed) + [] == ToVec(framed);
  }

  /** What a client is told about a typed call: the code, the body, its format and the
      query format, which a success takes from the request where it is known.
      A body is read as BEVE under format 1 and as JSON text under formats 2 and 3,
      and refused with code 4 under any other. */
  function Verdict<T, R>(h: Typed<T, R>, req: Packet): (u32, Buffer, u16, u16) {
    var format, c := req.header.bodyFormat, h.codec;
    var known := if req.header.queryFormat == 1 then 1 else 0;
    var argument :=
      if format == 1 then c.readBeve(req.body)
      else if format == 2 || format == 3 then
        (if c.utf8(req.body) then c.readJson(req.body) else Err(c.notUtf8(req.body)))
      else Err(Failure(4, EXPECTED_JSON_BODY));
    match argument
    case Err(f) => (f.code, f.text, 3, 0)
    case Ok(t) =>
      match h.call(t)
      case Err(f) => (f.code, f.text, 3, 0)
      case Ok((r, RawBinary)) => (0, c.writeJson(r), 0, known)
      case Ok((r, Beve)) => (0, c.writeBeve(r), 1, known)
      case Ok((r, Json)) => (0, c.writeJson(r), 2, known)
      case Ok((r, Utf8)) => (0, c.writeJson(r), 3, known)
  }

  /** Every answer a typed handler gives finds its way back and says what happened:
      the frame parses as a version 1 response, not a notify, with the request's own
      id and query and the verdict. */
  lemma TypedResponseCorrelates<T, R>(h: Typed<T, R>, req: Packet, maxUsize: nat)
    requires HEADER_SIZE + |req.query| + |Verdict(h, req).1| <= maxUsize
    ensures var viewed := DispatchView(HandleView(h, req), req, false).value;
      var r := FromSliceExact(EchoedFrame(viewed, req.query), maxUsize);
      && r.Ok? && r.value.header.id == req.header.id && r.value.query == req.query
      && (r.value.header.ec, r.value.body, r.value.header.bodyFormat, r.value.header.queryFormat) == Verdict(h, req)
      && r.value.header.version == 1 && r.value.header.notify == 0 && r.value.header.reserved == 0
  {
    var viewed := DispatchView(HandleView(h, req), req, false).value;
    ViewedIsUnstamped(h, req);
    EchoedFrameParses(viewed, req.query, maxUsize);
  }

  lemma ViewedIsUnstamped<T, R>(h: Typed<T, R>, req: Packet)
    ensures var m := DispatchView(HandleView(h, req), req, false).value;
      && m.query == [] && m.header.id == req.header.id && m.header.spec == REPE_SPEC
      && (m.header.ec, m.body, m.header.bodyFormat, m.header.queryFormat) == Verdict(h, req)
      && m.header.version == 1 && m.header.notify == 0 && m.header.reserved == 0
  {
  }

  /** Codecs that read back what they write. */
  ghost predicate Lawful<T(!new)>(c: Codec<T, T>) {
    forall v: T ::
      c.readJson(c.writeJson(v)) == Ok(v) && c.readBeve(c.writeBeve(v)) == Ok(v) && c.utf8(c.writeJson(v))
  }

  /** A result travels between typed peers in every format but one: what is sent as
      raw binary is refused at the other end. */
  lemma ResultDecodesUnlessRaw<T(!new)>(c: Codec<T, T>, v: T, format: BodyFormat)
    requires Lawful(c)
    ensures DecodeBody(c, EncodeResult(c, v, format), format.Code()) == Value(v) <==> !format.RawBinary?
  {
    assert c.readJson(c.writeJson(v)) == Ok(v);
  }

  /** `write_view_response`: choose the echoed query, then stream. */
  method WriteViewResponse(sink: Sink, response: Packet, query: Buffer)
    modifies sink
    ensures sink.out == old(sink.out) + EchoedFrame(response, query)
  {
    var echo := EchoQuery(response, query);
    sink.WriteStreaming(response.header, echo, response.body);
  }
}
