/** One request through the server on each of its carriers: route, run, frame. */
module Serving {
  import opened Common
  import opened Headers
  import opened Messages
  import opened Io
  import opened Dispatch
  import opened Routing

  /** What is not modelled: which octets are UTF-8, and the words of the errors. */
  datatype Wording = Wording(
    utf8: seq<byte> -> bool,
    version: u8 -> Buffer,
    notUtf8: Buffer,
    notPointer: Buffer,
    missing: seq<byte> -> Buffer,
    unreadable: WireError -> Failure)

  datatype Routed = Run(handler: Handler) | Reject(failure: Failure)

  predicate Notify(req: Packet) {
    req.header.notify == 1
  }

  /** `route`: a path names a handler, or the request is refused. */
  function Route(c: Config, w: Wording, req: Packet): Routed {
    if req.header.version != REPE_VERSION then Reject(Failure(VERSION_MISMATCH, w.version(req.header.version)))
    else if req.header.queryFormat != JSON_POINTER then Reject(Failure(INVALID_QUERY, w.notPointer))
    else if !w.utf8(req.query) then Reject(Failure(INVALID_QUERY, w.notUtf8))
    else
      match Resolve(c, req.query)
      case Some(h) => Run(h)
      case None => Reject(Failure(METHOD_NOT_FOUND, w.missing(req.query)))
  }

  function ContextFor(req: Packet, peer: Option<nat>): Context {
    Context(req.query, peer)
  }

  /** The response on the borrowing and inline paths. */
  function ViewResponse(c: Config, w: Wording, req: Packet, peer: Option<nat>): Option<Packet> {
    match Route(c, w, req)
    case Reject(f) => DispatchView(Err(f), req, Notify(req))
    case Run(h) => DispatchView(Answer(h, Borrowed(req, ContextFor(req, peer))), req, Notify(req))
  }

  /** The response on the off-reader path; refusals are still framed by the reader. */
  function OwnedResponse(c: Config, w: Wording, req: Packet, peer: Option<nat>): Option<Packet> {
    match Route(c, w, req)
    case Reject(f) => DispatchView(Err(f), req, Notify(req))
    case Run(h) => DispatchOwned(Answer(h, InContext(req, ContextFor(req, peer))), req, Notify(req))
  }

  function Stamped(response: Option<Packet>, req: Packet): Option<seq<byte>> {
    match response
    case None => None
    case Some(m) => Some(StampedFrame(m, req.query))
  }

  function Echoed(response: Option<Packet>, req: Packet): Option<seq<byte>> {
    match response
    case None => None
    case Some(m) => Some(EchoedFrame(m, req.query))
  }

  // ---- handlers that answer alike through either entry --------------------

  /** Two replies to a request put the same octets on the wire, the first owned and
      stamped, the second borrowed and echoed or stamped. */
  predicate SameOnWire(owned: Reply, viewed: Reply, req: Packet) {
    var o := DispatchOwned(owned, req, false).value;
    var v := DispatchView(viewed, req, false).value;
    Stamp(o, req.query) == Stamp(v, req.query) == Echo(v, req.query)
  }

  ghost predicate Faithful(h: Handler) {
    forall req: Packet, ctx: Context ::
      SameOnWire(Answer(h, InContext(req, ctx)), Answer(h, Borrowed(req, ctx)), req)
  }

  /** A typed handler as the router holds it. */
  function TypedLeaf<T, R>(h: Typed<T, R>, mode: Execution): Handler {
    Leaf((e: Entry) => if e.Borrowed? then HandleView(h, e.view) else Handle(h, e.req), mode)
  }

  lemma TypedLeafIsFaithful<T, R>(h: Typed<T, R>, mode: Execution)
    ensures Faithful(TypedLeaf(h, mode))
  {
    forall req: Packet, ctx: Context
      ensures var l := TypedLeaf(h, mode);
        SameOnWire(Answer(l, InContext(req, ctx)), Answer(l, Borrowed(req, ctx)), req)
    {
      TypedMessagesAgree(h, req);
    }
  }

  /** The default borrowing entry: answer the message copied out of the view. Mounted
      registries and structs, and context-aware handlers, are served so. */
  ghost predicate Copies(h: Handler) {
    forall req: Packet, ctx: Context :: Answer(h, Borrowed(req, ctx)) == Answer(h, InContext(req, ctx))
  }

  ghost predicate RepliesMatch(h: Handler) {
    forall req: Packet, ctx: Context ::
      Answer(h, InContext(req, ctx)).Ok? ==> LengthsMatch(Answer(h, InContext(req, ctx)).value, req.query)
  }

  lemma SameReplyOnWireIffMatches(reply: Reply, req: Packet)
    ensures SameOnWire(reply, reply, req) <==> reply.Err? || LengthsMatch(reply.value, req.query)
  {
    match reply
    case Ok(m) => StampIsEchoIffLengthsMatch(m, req.query);
    case Err(f) =>
  }

  /** A handler that copies is faithful exactly when its replies have lengths that
      match their parts. */
  lemma CopyingIsFaithfulIffRepliesMatch(h: Handler)
    requires Copies(h)
    ensures Faithful(h) <==> RepliesMatch(h)
  {
    forall req: Packet, ctx: Context
      ensures SameOnWire(Answer(h, InContext(req, ctx)), Answer(h, Borrowed(req, ctx)), req) <==>
        (Answer(h, InContext(req, ctx)).Ok? ==> LengthsMatch(Answer(h, InContext(req, ctx)).value, req.query))
    {
      SameReplyOnWireIffMatches(Answer(h, InContext(req, ctx)), req);
    }
  }

  /** So a mount that builds its replies with the message builder is faithful. */
  lemma BuiltRepliesAreFaithful(h: Handler)
    requires Copies(h)
    requires forall req: Packet, ctx: Context ::
      Answer(h, InContext(req, ctx)).Ok? ==> Consistent(Answer(h, InContext(req, ctx)).value)
    ensures Faithful(h)
  {
    CopyingIsFaithfulIffRepliesMatch(h);
  }

  /** The mount half declines on both paths or on neither, so composing keeps
      faithfulness. */
  lemma FallthroughIsFaithful(mount: Handler, fallback: Handler)
    requires Faithful(mount) && Faithful(fallback)
    ensures Faithful(MountFallthrough(mount, fallback))
  {
    forall req: Packet, ctx: Context
      ensures var h := MountFallthrough(mount, fallback);
        SameOnWire(Answer(h, InContext(req, ctx)), Answer(h, Borrowed(req, ctx)), req)
    {
      var o, v := InContext(req, ctx), Borrowed(req, ctx);
      assert SameOnWire(Answer(mount, o), Answer(mount, v), req);
      assert SameOnWire(Answer(fallback, o), Answer(fallback, v), req);
      DeclineAlike(Answer(mount, o), Answer(mount, v), req);
    }
  }

  lemma DeclineAlike(owned: Reply, viewed: Reply, req: Packet)
    requires SameOnWire(owned, viewed, req)
    ensures Declined(owned) <==> Declined(viewed)
  {
    var o := DispatchOwned(owned, req, false).value;
    var v := DispatchView(viewed, req, false).value;
    assert Stamp(o, req.query).header.ec == o.header.ec && Stamp(v, req.query).header.ec == v.header.ec;
  }

  ghost predicate AllFaithful(c: Config) {
    && (forall p :: p in c.routes ==> Faithful(c.routes[p]))
    && (forall i :: 0 <= i < |c.registries| ==> Faithful(c.registries[i].raw))
    && (forall i :: 0 <= i < |c.structs| ==> Faithful(c.structs[i].raw))
    && (c.fallback.Some? ==> Faithful(c.fallback.value))
  }

  lemma {:induction false} FirstMatchFaithful(mounts: seq<Mount>, path: seq<byte>)
    requires forall i :: 0 <= i < |mounts| ==> Faithful(mounts[i].raw)
    ensures FirstMatch(mounts, path).Some? ==> Faithful(FirstMatch(mounts, path).value)
  {
    if mounts != [] {
      FirstMatchFaithful(mounts[1..], path);
    }
  }

  lemma CoreFaithful(c: Config, path: seq<byte>)
    requires AllFaithful(c) && Core(c, path).Some?
    ensures Faithful(Core(c, path).value)
  {
    FirstMatchFaithful(c.registries, path);
    FirstMatchFaithful(c.structs, path);
    var h := Core(c, path).value;
    if h.MountFallthrough? && path !in c.routes && c.fallthrough && c.fallback.Some? {
      if FirstMatch(c.registries, path).Some? {
        FallthroughIsFaithful(FirstMatch(c.registries, path).value, c.fallback.value);
      } else if FirstMatch(c.structs, path).Some? {
        FallthroughIsFaithful(FirstMatch(c.structs, path).value, c.fallback.value);
      }
    }
  }

  /** Replies that are the same on the wire are framed the same on every carrier. */
  lemma FramesOfSame(owned: Reply, viewed: Reply, req: Packet, notify: bool)
    requires SameOnWire(owned, viewed, req)
    ensures var o, v := DispatchOwned(owned, req, notify), DispatchView(viewed, req, notify);
      && Stamped(o, req) == Stamped(v, req) == Echoed(v, req)
      && (Echoed(v, req).None? <==> notify)
  {
  }

  lemma AnswersAgree(h: Handler, req: Packet, ctx: Context)
    requires Faithful(h)
    ensures SameOnWire(Answer(h, InContext(req, ctx)), Answer(h, Borrowed(req, ctx)), req)
  {
  }

  /** Without middleware, a server of faithful handlers emits the same octets for
      every request on all three carriers, and nothing exactly for a notify. */
  lemma CarriersAgree(c: Config, w: Wording, req: Packet, peer: Option<nat>)
    requires AllFaithful(c) && c.middlewares == []
    ensures var viewed, owned := ViewResponse(c, w, req, peer), OwnedResponse(c, w, req, peer);
      && Stamped(owned, req) == Stamped(viewed, req) == Echoed(viewed, req)
      && (Echoed(viewed, req).None? <==> Notify(req))
  {
    hide ToVec, Answer, Stamp, Echo;
    match Route(c, w, req)
    case Reject(f) => ErrorsFrameAlike(req.header.id, req.query, f);
    case Run(h) =>
      CoreFaithful(c, req.query);
      var ctx := ContextFor(req, peer);
      AnswersAgree(h, req, ctx);
      FramesOfSame(Answer(h, InContext(req, ctx)), Answer(h, Borrowed(req, ctx)), req, Notify(req));
  }

  /** Under middleware both paths run the same chain on the same message. The
      carriers then agree exactly when the reply is an error, unwanted, or a
      message whose lengths match. */
  lemma CarriersUnderMiddleware(c: Config, w: Wording, req: Packet, peer: Option<nat>)
    requires c.middlewares != [] && Route(c, w, req).Run?
    ensures var reply := Answer(Route(c, w, req).handler, InContext(req, ContextFor(req, peer)));
      Stamped(OwnedResponse(c, w, req, peer), req) == Echoed(ViewResponse(c, w, req, peer), req) <==>
        Notify(req) || reply.Err? || LengthsMatch(reply.value, req.query)
  {
    var h, ctx := Route(c, w, req).handler, ContextFor(req, peer);
    var reply := Answer(h, InContext(req, ctx));
    assert reply == Answer(h, Borrowed(req, ctx));
    CustomPathsAgreeIffLengthsMatch(reply, req);
  }

  // ---- one frame in, one frame out ----------------------------------------

  /** What a peer with a 64-bit address space reads in a frame. */
  function Read(out: seq<byte>): Result<Message, WireError> {
    FromSliceExact(out, U64_LIMIT)
  }

  /** The frame is a version 1 error response with this id, query, code and text. */
  predicate TellsError(out: seq<byte>, id: u64, query: Buffer, code: u32, text: Buffer) {
    match Read(out)
    case Err(_) => false
    case Ok(m) =>
      && m.header.id == id && m.query == query && m.header.ec == code && m.body == text
      && m.header.version == 1 && m.header.notify == 0 && m.header.bodyFormat == 3 && m.header.queryFormat == 0
  }

  /** The frame holds the reply: an error with the request's id and query, or the
      handler's own header and body, with the request's query unless it set one. */
  predicate TellsReply(out: seq<byte>, req: Packet, reply: Reply) {
    match reply
    case Err(f) => TellsError(out, req.header.id, req.query, f.code, f.text)
    case Ok(m) =>
      var query := if m.query == [] then req.query else m.query;
      var length := 48 + |query| + |m.body|;
      m.header.spec == REPE_SPEC ==>
        Read(out) ==
          Ok(Message(m.header.(length := length, queryLength := |query|, bodyLength := |m.body|), query, m.body))
  }

  /** What answers a request that is routed: the chain of middlewares around what
      serves its path, in the context of that path and the calling peer. */
  function ReplyTo(c: Config, req: Packet, peer: Option<nat>): Reply {
    var ctx := Context(req.query, peer);
    if c.middlewares == [] then Serve(c, req.query, Borrowed(req, ctx))
    else Onion(c.middlewares, Some(ctx), r => Serve(c, req.query, InContext(r, ctx)))(req)
  }

  /** A request is answered on its merits in this order: its version, its query
      format, its query's text, its path. */
  ghost predicate Answers(c: Config, w: Wording, req: Packet, peer: Option<nat>, out: seq<byte>) {
    if req.header.version != 1 then
      TellsError(out, req.header.id, req.query, 1, w.version(req.header.version))
    else if req.header.queryFormat != 1 then
      TellsError(out, req.header.id, req.query, 3, w.notPointer)
    else if !w.utf8(req.query) then
      TellsError(out, req.header.id, req.query, 3, w.notUtf8)
    else if !Served(c, req.query) then
      TellsError(out, req.header.id, req.query, 6, w.missing(req.query))
    else TellsReply(out, req, ReplyTo(c, req, peer))
  }

  lemma ErrorFrameTells(id: u64, query: Buffer, f: Failure)
    ensures TellsError(EchoedFrame(ErrorResponseUnstamped(id, f), query), id, query, f.code, f.text)
  {
    EchoedFrameParses(ErrorResponseUnstamped(id, f), query, U64_LIMIT);
  }

  lemma UnreadableFrameTells(f: Failure)
    ensures TellsError(ToVec(ErrorMessage(f)), 0, [], f.code, f.text)
  {
    var m := ErrorMessage(f);
    ExactParseOfFrame(m, [], U64_LIMIT);
    assert ToVec(m) + [] == ToVec(m);
  }

  lemma ReplyFrameTells(reply: Reply, req: Packet)
    ensures TellsReply(EchoedFrame(DispatchView(reply, req, false).value, req.query), req, reply)
  {
    hide EchoedFrame, FromSliceExact, ErrorResponseUnstamped, TellsError;
    match reply
    case Err(f) => ErrorFrameTells(req.header.id, req.query, f);
    case Ok(m) =>
      if m.header.spec == REPE_SPEC {
        EchoedFrameParses(m, req.query, U64_LIMIT);
      }
  }

  lemma RoutedReply(c: Config, req: Packet, peer: Option<nat>)
    requires Served(c, req.query)
    ensures Resolve(c, req.query).Some?
    ensures Answer(Resolve(c, req.query).value, Borrowed(req, ContextFor(req, peer))) == ReplyTo(c, req, peer)
  {
    ResolvedAnswersAsChain(c, req.query, Borrowed(req, ContextFor(req, peer)));
  }

  /** The frame every carrier emits for a request answers it. */
  lemma EmittedFrameAnswers(c: Config, w: Wording, req: Packet, peer: Option<nat>)
    requires req.header.notify != 1
    ensures ViewResponse(c, w, req, peer).Some?
    ensures Answers(c, w, req, peer, EchoedFrame(ViewResponse(c, w, req, peer).value, req.query))
  {
    hide EchoedFrame, TellsReply, TellsError, ReplyTo, Resolve, Served, Answer;
    ResolvesIffServed(c, req.query);
    match Route(c, w, req)
    case Reject(f) => ErrorFrameTells(req.header.id, req.query, f);
    case Run(h) =>
      RoutedReply(c, req, peer);
      ReplyFrameTells(ReplyTo(c, req, peer), req);
  }

  lemma NotifyIsSilent(c: Config, w: Wording, req: Packet)
    requires req.header.notify == 1
    ensures ViewResponse(c, w, req, None).None?
  {
  }

  /** `call_into`: serve one serialized request into `sink`. A frame that does not
      parse is answered with an id-0 error; only a notify is not answered, and every
      other request is answered on its merits. */
  method CallInto(c: Config, w: Wording, request: Buffer, maxUsize: nat, sink: Sink) returns (answered: bool)
    modifies sink
    ensures match FromSliceExact(request, maxUsize)
      case Err(e) =>
        answered && TellsError(sink.out, 0, [], w.unreadable(e).code, w.unreadable(e).text)
      case Ok(req) =>
        && |req.query| + |req.body| <= |request|
        && (req.header.notify == 1 ==> !answered && sink.out == [])
        && (req.header.notify != 1 ==> answered && Answers(c, w, req, None, sink.out))
  {
    hide ViewResponse, Answers, TellsError, EchoedFrame;
    sink.out := [];
    match FromSliceExact(request, maxUsize)
    case Err(e) =>
      UnreadableFrameTells(w.unreadable(e));
      sink.WriteMessage(ErrorMessage(w.unreadable(e)));
      assert sink.out == ToVec(ErrorMessage(w.unreadable(e)));
      answered := true;
    case Ok(req) =>
      var response := ViewResponse(c, w, req, None);
      if req.header.notify == 1 {
        NotifyIsSilent(c, w, req);
      } else {
        EmittedFrameAnswers(c, w, req, None);
      }
      if response.Some? {
        WriteViewResponse(sink, response.value, req.query);
        assert sink.out == EchoedFrame(response.value, req.query);
      }
      answered := response.Some?;
  }
}
