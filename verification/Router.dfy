/** The router of `src/server.rs`: every entry keeps the handler as registered and
    a prebuilt form composed with fallback and middleware, rebuilt whenever an
    input to the composition changes. */
module Routing {
  import opened Common
  import opened JsonPointer
  import opened Messages
  import opened Dispatch

  datatype Execution = Inline | OffReader

  /** The call context: the dispatched path and the calling peer. */
  datatype Context = Context(path: Text, peer: Option<nat>)

  type Reply = Result<Packet, Failure>

  /** What a middleware does with a request. `Next::run` consumes the rest of the
      chain, so it is entered at most once: the middleware either answers, or
      forwards a request and finishes the reply. */
  datatype Step = ShortCircuit(reply: Reply) | Forward(request: Packet, finish: Reply -> Reply)

  type Middleware = (Packet, Option<Context>) -> Step

  /** A request as it enters a handler: `handle`, `handle_with_ctx`, or
      `handle_view`, whose view is a message by value. */
  datatype Entry = Plain(req: Packet) | InContext(req: Packet, ctx: Context) | Borrowed(view: Packet, ctx: Context) {
    function Request(): Packet {
      if Borrowed? then view else req
    }
  }

  datatype Handler =
    | Leaf(answer: Entry -> Reply, mode: Execution)
    | Blocking(inner: Handler)
    | Pipeline(wrapped: Handler, middlewares: seq<Middleware>)
    | MountFallthrough(mount: Handler, fallback: Handler)

  /** The mount's answer was `MethodNotFound`, framed or returned. */
  predicate Declined(r: Reply) {
    match r
    case Ok(m) => m.header.ec == METHOD_NOT_FOUND
    case Err(f) => f.code == METHOD_NOT_FOUND
  }

  function Enter(req: Packet, ctx: Option<Context>): Entry {
    match ctx
    case None => Plain(req)
    case Some(c) => InContext(req, c)
  }

  function ContextOf(e: Entry): Option<Context> {
    match e
    case Plain(_) => None
    case InContext(_, c) => Some(c)
    case Borrowed(_, c) => Some(c)
  }

  function Answer(h: Handler, e: Entry): Reply
    decreases h, 0
  {
    match h
    case Leaf(f, _) => f(e)
    case Blocking(inner) => Answer(inner, e)
    case Pipeline(wrapped, mws) => Next(mws, wrapped, ContextOf(e), e.Request())
    case MountFallthrough(mount, fallback) =>
      var outcome := Answer(mount, e);
      if Declined(outcome) then Answer(fallback, e) else outcome
  }

  /** `Next::run`. */
  function Next(mws: seq<Middleware>, h: Handler, ctx: Option<Context>, req: Packet): Reply
    decreases h, |mws| + 1
  {
    if mws == [] then Answer(h, Enter(req, ctx))
    else
      match mws[0](req, ctx)
      case ShortCircuit(r) => r
      case Forward(req', finish) => finish(Next(mws[1..], h, ctx, req'))
  }

  function Mode(h: Handler): Execution {
    match h
    case Leaf(_, m) => m
    case Blocking(_) => OffReader
    case Pipeline(wrapped, _) => Mode(wrapped)
    case MountFallthrough(mount, fallback) =>
      if Mode(mount).Inline? && Mode(fallback).Inline? then Inline else OffReader
  }

  // ---- paths and mounts ---------------------------------------------------

  predicate StartsWith(s: Text, prefix: Text) {
    |prefix| <= |s| && s[..|prefix|] == prefix
  }

  /** A mount covers its own path and everything below it. */
  predicate Matches(prefix: Text, path: Text) {
    prefix == [] || path == prefix || (StartsWith(path, prefix) && StartsWith(path[|prefix|..], ROOT))
  }

  /** The registry pointer a path maps to under a mounted prefix. */
  function PointerFor(prefix: Text, path: Text): Option<Text> {
    if prefix == [] then Some(if path == [] then ROOT else path)
    else if path == prefix then Some(ROOT)
    else if StartsWith(path, prefix) && StartsWith(path[|prefix|..], ROOT) then Some(path[|prefix|..])
    else None
  }

  /** The struct pointer a path maps to under a mounted root. */
  function RelativePointer(root: Text, path: Text): Option<Text> {
    if root == [] then Some(path)
    else if path == root then Some([])
    else if StartsWith(path, root) && StartsWith(path[|root|..], ROOT) then Some(path[|root|..])
    else None
  }

  /** `str::trim_end_matches('/')`. */
  function TrimEnd(s: Text): Text
    decreases |s|
  {
    if s != [] && s[|s| - 1] == SLASH then TrimEnd(s[..|s| - 1]) else s
  }

  function Absolute(p: Text): Text {
    if p != [] && p[0] == SLASH then p else ROOT + p
  }

  function NormalizeMount(prefix: Text): Text {
    if AddressesRoot(prefix) then []
    else TrimEnd(Absolute(prefix))
  }

  function NormalizeRoot(root: Text): Text {
    if AddressesRoot(root) then [] else Absolute(root)
  }

  lemma {:induction false} TrimEndTrims(s: Text)
    ensures TrimEnd(s) == [] || TrimEnd(s)[|TrimEnd(s)| - 1] != SLASH
    ensures TrimEnd(s) <= s && TrimEnd(s + ROOT) == TrimEnd(s)
    ensures TrimEnd(s) == s <==> s == [] || s[|s| - 1] != SLASH
    decreases |s|
  {
    assert (s + ROOT)[..|s|] == s;
    if s != [] && s[|s| - 1] == SLASH {
      TrimEndTrims(s[..|s| - 1]);
    }
  }

  lemma AbsoluteThenSlash(p: Text)
    requires p != []
    ensures Absolute(p + ROOT) == Absolute(p) + ROOT
  {
    Associate(ROOT, p, ROOT);
  }

  /** A mount means the same with and without a trailing slash, */
  lemma TrailingSlashIsNoMatter(p: Text)
    ensures NormalizeMount(p + ROOT) == NormalizeMount(p)
  {
    TrimEndTrims(Absolute(p));
    if p != [] {
      AbsoluteThenSlash(p);
      TrimEndTrims([]);
      assert [] + ROOT == ROOT;
    } else {
      assert p + ROOT == ROOT;
    }
  }

  /** with and without its leading one, */
  lemma LeadingSlashIsNoMatter(p: Text)
    requires p != [] && p[0] != SLASH
    ensures NormalizeMount(ROOT + p) == NormalizeMount(p)
  {
    var q := ROOT + p;
    assert q[0] == SLASH && |q| == |p| + 1;
    assert Absolute(q) == q == Absolute(p);
  }

  /** and a normalized prefix is empty, or absolute without a trailing slash. */
  lemma MountShape(p: Text)
    ensures var n := NormalizeMount(p); n == [] || (n[0] == SLASH && n[|n| - 1] != SLASH)
  {
    if !AddressesRoot(p) {
      var a := Absolute(p);
      TrimEndTrims(a);
      assert a[0] == SLASH;
      assert TrimEnd(a) != [] ==> TrimEnd(a)[0] == a[0];
    }
  }

  lemma ShapedIsNormal(n: Text)
    requires n == [] || (n[0] == SLASH && n[|n| - 1] != SLASH)
    ensures NormalizeMount(n) == n
  {
    TrimEndTrims(n);
  }

  lemma NormalizedMount(p: Text)
    ensures p != [] && p[0] != SLASH ==> NormalizeMount(ROOT + p) == NormalizeMount(p)
    ensures NormalizeMount(NormalizeMount(p)) == NormalizeMount(p)
    ensures var n := NormalizeMount(p); n == [] || (n[0] == SLASH && n[|n| - 1] != SLASH)
    ensures p == [] || (p[0] == SLASH && p[|p| - 1] != SLASH) ==> NormalizeMount(p) == p
  {
    hide NormalizeMount;
    if p == [] || (p[0] == SLASH && p[|p| - 1] != SLASH) {
      ShapedIsNormal(p);
    }
    if p != [] && p[0] != SLASH {
      LeadingSlashIsNoMatter(p);
    }
    MountShape(p);
    ShapedIsNormal(NormalizeMount(p));
  }

  /** A struct root is taken as it is behind its leading slash. It keeps its trailing
      slashes, so the two normalizations agree exactly on the spellings of the root and
      on prefixes that do not end in one. */
  lemma RootIsMountUnlessTrailingSlash(p: Text)
    ensures NormalizeRoot(p) == NormalizeMount(p) <==> AddressesRoot(p) || p[|p| - 1] != SLASH
    ensures NormalizeRoot([]) == NormalizeRoot(ROOT) == []
    ensures !AddressesRoot(p) ==> NormalizeRoot(p) == if p[0] == SLASH then p else ROOT + p
  {
    if !AddressesRoot(p) {
      var a := Absolute(p);
      assert a != [] && a[|a| - 1] == p[|p| - 1];
      TrimEndTrims(a);
    }
  }

  lemma {:induction false} SplitAppend(a: Text, b: Text)
    ensures Split(a + ROOT + b) == Split(a) + Split(b)
  {
    if a == [] {
      assert a + ROOT + b == ROOT + b && (ROOT + b)[1..] == b;
    } else {
      SplitAppend(a[1..], b);
      assert (a + ROOT + b)[0] == a[0] && (a + ROOT + b)[1..] == a[1..] + ROOT + b;
      GrowFirst(a[0], Split(a[1..]), Split(b));
    }
  }

  lemma GrowFirst(c: byte, x: seq<Text>, y: seq<Text>)
    requires x != []
    ensures [[c] + (x + y)[0]] + (x + y)[1..] == [[c] + x[0]] + x[1..] + y
    ensures [[]] + (x + y) == [[]] + x + y
  {
  }

  lemma {:induction false} JoinAppend(a: seq<Text>, b: seq<Text>)
    ensures Join(a + b) == Join(a) + Join(b)
  {
    if a == [] {
      assert a + b == b;
    } else {
      JoinAppend(a[1..], b);
      assert (a + b)[0] == a[0] && (a + b)[1..] == a[1..] + b;
      Associate(ROOT + a[0], Join(a[1..]), Join(b));
    }
  }

  lemma CoveredPath(prefix: Text, path: Text)
    ensures StartsWith(path, prefix) && StartsWith(path[|prefix|..], ROOT) <==>
      exists rest :: path == prefix + ROOT + rest
  {
    if StartsWith(path, prefix) && StartsWith(path[|prefix|..], ROOT) {
      assert path == prefix + ROOT + path[|prefix| + 1..];
    }
  }

  /** A mount covers a path exactly when its segments are the path's first segments:
      `/api` covers `/api` and `/api/x`, and does not cover `/apix`. The empty prefix
      covers everything. */
  lemma MountCoversBySegments(prefix: Text, path: Text)
    ensures Matches(prefix, path) <==> prefix == [] || Split(prefix) <= Split(path)
  {
    CoveredPath(prefix, path);
    if rest :| path == prefix + ROOT + rest {
      SplitAppend(prefix, rest);
    }
    if Split(prefix) <= Split(path) {
      var tail := Split(path)[|Split(prefix)|..];
      assert Split(path) == Split(prefix) + tail;
      JoinAppend(Split(prefix), tail);
      SplitJoin(prefix);
      SplitJoin(path);
      SlashedPrefix(prefix, path, tail);
    }
  }

  lemma SlashedPrefix(prefix: Text, path: Text, tail: seq<Text>)
    requires ROOT + path == ROOT + prefix + Join(tail)
    ensures path == prefix || exists rest :: path == prefix + ROOT + rest
  {
    assert path == (ROOT + path)[1..] == prefix + Join(tail);
    if tail != [] {
      assert Join(tail) == ROOT + (tail[0] + Join(tail[1..]));
      assert path == prefix + ROOT + (tail[0] + Join(tail[1..]));
    }
  }

  /** Resolution and dispatch agree on what a mount covers: a mount that resolved
      never refuses the path as lying outside it, and the pointer it hands on,
      put back behind the prefix, is the path. */
  lemma ResolvedMountTakesThePath(prefix: Text, path: Text)
    ensures PointerFor(prefix, path).Some? <==> Matches(prefix, path)
    ensures RelativePointer(prefix, path).Some? <==> Matches(prefix, path)
    ensures Matches(prefix, path) ==> prefix + RelativePointer(prefix, path).value == path
    ensures Matches(prefix, path) && path != prefix ==> PointerFor(prefix, path) == RelativePointer(prefix, path)
    ensures Matches(prefix, path) && path == prefix ==> PointerFor(prefix, path) == Some(ROOT)
  {
    if StartsWith(path, prefix) {
      assert path == prefix + path[|prefix|..];
    }
    assert [] + path == path && prefix + [] == prefix;
  }

  // ---- composing on demand ------------------------------------------------

  datatype Mount = Mount(prefix: Text, raw: Handler)

  /** What was registered, and nothing derived from it. */
  datatype Config = Config(
    routes: map<Text, Handler>,
    registries: seq<Mount>,
    structs: seq<Mount>,
    fallback: Option<Handler>,
    middlewares: seq<Middleware>,
    fallthrough: bool)

  function Wrap(h: Handler, mws: seq<Middleware>): Handler {
    if mws == [] then h else Pipeline(h, mws)
  }

  function Composed(c: Config, raw: Handler): Handler {
    if c.fallthrough && c.fallback.Some? then MountFallthrough(raw, c.fallback.value) else raw
  }

  function FirstMatch(mounts: seq<Mount>, path: Text): Option<Handler> {
    if mounts == [] then None
    else if Matches(mounts[0].prefix, path) then Some(mounts[0].raw)
    else FirstMatch(mounts[1..], path)
  }

  /** The mount found is the first registered of those that cover the path. */
  lemma {:induction false} FirstMatchIsFirst(mounts: seq<Mount>, path: Text)
    ensures FirstMatch(mounts, path).None? <==> forall i :: 0 <= i < |mounts| ==> !Matches(mounts[i].prefix, path)
    ensures FirstMatch(mounts, path).Some? ==>
      exists i :: 0 <= i < |mounts| && Matches(mounts[i].prefix, path)
        && FirstMatch(mounts, path).value == mounts[i].raw
        && forall j :: 0 <= j < i ==> !Matches(mounts[j].prefix, path)
  {
    if mounts != [] && !Matches(mounts[0].prefix, path) {
      FirstMatchIsFirst(mounts[1..], path);
      assert forall i :: 0 < i < |mounts| ==> mounts[i] == mounts[1..][i - 1];
      if FirstMatch(mounts, path).Some? {
        var i :| 0 <= i < |mounts[1..]| && Matches(mounts[1..][i].prefix, path)
          && FirstMatch(mounts, path).value == mounts[1..][i].raw
          && forall j :: 0 <= j < i ==> !Matches(mounts[1..][j].prefix, path);
        assert mounts[i + 1] == mounts[1..][i];
      }
    }
  }

  /** The handler for a path before middleware: a fixed route, the first covering
      registry, the first covering struct, the fallback. */
  function Core(c: Config, path: Text): Option<Handler> {
    if path in c.routes then Some(c.routes[path])
    else
      match FirstMatch(c.registries, path)
      case Some(raw) => Some(Composed(c, raw))
      case None =>
        match FirstMatch(c.structs, path)
        case Some(raw) => Some(Composed(c, raw))
        case None => c.fallback
  }

  function Resolve(c: Config, path: Text): Option<Handler> {
    match Core(c, path)
    case None => None
    case Some(h) => Some(Wrap(h, c.middlewares))
  }

  // ---- what a resolved handler answers ------------------------------------

  /** One middleware around a way of answering. */
  function Around(m: Middleware, ctx: Option<Context>, core: Packet -> Reply): Packet -> Reply {
    req =>
      match m(req, ctx)
      case ShortCircuit(r) => r
      case Forward(req', finish) => finish(core(req'))
  }

  /** A middleware chain built from the inside out: the last middleware goes around
      the core, the one before it around that, and so on. */
  function Onion(mws: seq<Middleware>, ctx: Option<Context>, core: Packet -> Reply): Packet -> Reply {
    if mws == [] then core
    else Onion(mws[..|mws| - 1], ctx, Around(mws[|mws| - 1], ctx, core))
  }

  /** The same chain entered from the outside. */
  function Chain(mws: seq<Middleware>, ctx: Option<Context>, core: Packet -> Reply, req: Packet): Reply
    decreases |mws|
  {
    if mws == [] then core(req)
    else
      match mws[0](req, ctx)
      case ShortCircuit(r) => r
      case Forward(req', finish) => finish(Chain(mws[1..], ctx, core, req'))
  }

  /** The error code a client would read in the response made of a reply. */
  function FramedCode(reply: Reply, req: Packet): nat {
    DispatchOwned(reply, req, false).value.header.ec
  }

  /** A mount's own answer, or the fallback's when fall-through is on and the mount's
      answer would reach the client as error code 6, method not found. */
  function MountThenFallback(c: Config, raw: Handler, e: Entry): Reply {
    var own := Answer(raw, e);
    if c.fallthrough && c.fallback.Some? && FramedCode(own, e.Request()) == 6 then Answer(c.fallback.value, e)
    else own
  }

  /** What answers a path with no middleware registered; a path nothing serves is a
      `MethodNotFound`. */
  function Serve(c: Config, path: Text, e: Entry): Reply {
    if path in c.routes then Answer(c.routes[path], e)
    else
      match FirstMatch(c.registries + c.structs, path)
      case Some(raw) => MountThenFallback(c, raw, e)
      case None => if c.fallback.Some? then Answer(c.fallback.value, e) else Err(Failure(METHOD_NOT_FOUND, []))
  }

  lemma {:induction false} FirstMatchAppend(a: seq<Mount>, b: seq<Mount>, path: Text)
    ensures FirstMatch(a + b, path) == if FirstMatch(a, path).Some? then FirstMatch(a, path) else FirstMatch(b, path)
  {
    if a == [] {
      assert a + b == b;
    } else {
      FirstMatchAppend(a[1..], b, path);
      assert (a + b)[1..] == a[1..] + b;
    }
  }

  lemma {:induction false} ChainSnoc(
    mws: seq<Middleware>, m: Middleware, ctx: Option<Context>, core: Packet -> Reply, req: Packet)
    ensures Chain(mws + [m], ctx, core, req) == Chain(mws, ctx, Around(m, ctx, core), req)
    decreases |mws|
  {
    if mws == [] {
      assert mws + [m] == [m] && [m][1..] == [];
    } else {
      assert (mws + [m])[0] == mws[0] && (mws + [m])[1..] == mws[1..] + [m];
      var step := mws[0](req, ctx);
      if step.Forward? {
        ChainSnoc(mws[1..], m, ctx, core, step.request);
      }
    }
  }

  lemma {:induction false} OnionIsChain(
    mws: seq<Middleware>, ctx: Option<Context>, core: Packet -> Reply, req: Packet)
    ensures Onion(mws, ctx, core)(req) == Chain(mws, ctx, core, req)
    decreases |mws|
  {
    if mws != [] {
      var init, last := mws[..|mws| - 1], mws[|mws| - 1];
      OnionIsChain(init, ctx, Around(last, ctx, core), req);
      ChainSnoc(init, last, ctx, core, req);
      assert init + [last] == mws;
    }
  }

  lemma {:induction false} NextIsChain(mws: seq<Middleware>, h: Handler, ctx: Option<Context>, req: Packet)
    ensures Next(mws, h, ctx, req) == Chain(mws, ctx, r => Answer(h, Enter(r, ctx)), req)
    decreases |mws|
  {
    if mws != [] {
      var step := mws[0](req, ctx);
      if step.Forward? {
        NextIsChain(mws[1..], h, ctx, step.request);
      }
    }
  }

  /** Running the continuations from the first middleware inwards answers as the
      chain built from the handler outwards. */
  lemma NextIsOnion(mws: seq<Middleware>, h: Handler, ctx: Option<Context>, req: Packet)
    ensures Next(mws, h, ctx, req) == Onion(mws, ctx, r => Answer(h, Enter(r, ctx)))(req)
  {
    NextIsChain(mws, h, ctx, req);
    OnionIsChain(mws, ctx, r => Answer(h, Enter(r, ctx)), req);
  }

  lemma {:induction false} ChainCongruent(
    mws: seq<Middleware>, ctx: Option<Context>, f: Packet -> Reply, g: Packet -> Reply, req: Packet)
    requires forall r :: f(r) == g(r)
    ensures Chain(mws, ctx, f, req) == Chain(mws, ctx, g, req)
    decreases |mws|
  {
    if mws != [] {
      var step := mws[0](req, ctx);
      if step.Forward? {
        ChainCongruent(mws[1..], ctx, f, g, step.request);
      }
    }
  }

  /** A mount declines exactly when its answer would reach the client as code 6. */
  lemma DeclinedIffFramed(reply: Reply, req: Packet)
    ensures Declined(reply) <==> FramedCode(reply, req) == 6
  {
  }

  lemma CoreServes(c: Config, path: Text, e: Entry)
    requires Core(c, path).Some?
    ensures Answer(Core(c, path).value, e) == Serve(c, path, e)
  {
    FirstMatchAppend(c.registries, c.structs, path);
    var found := FirstMatch(c.registries + c.structs, path);
    if found.Some? {
      DeclinedIffFramed(Answer(found.value, e), e.Request());
    }
  }

  /** Under a covering mount, with fall-through on and a fallback registered, the
      fallback answers if and only if the mount's own answer would reach the client
      as error code 6, whether the mount framed it or returned it; otherwise the
      mount's own answer stands. */
  lemma FallbackAnswersIffMethodNotFound(c: Config, path: Text, raw: Handler, e: Entry)
    requires c.middlewares == [] && c.fallthrough && c.fallback.Some?
    requires path !in c.routes && FirstMatch(c.registries + c.structs, path) == Some(raw)
    ensures Resolve(c, path).Some?
    ensures DispatchOwned(Answer(raw, e), e.Request(), false).value.header.ec == 6 ==>
      Answer(Resolve(c, path).value, e) == Answer(c.fallback.value, e)
    ensures DispatchOwned(Answer(raw, e), e.Request(), false).value.header.ec != 6 ==>
      Answer(Resolve(c, path).value, e) == Answer(raw, e)
  {
    FirstMatchAppend(c.registries, c.structs, path);
    CoreServes(c, path, e);
  }

  /** A handler behind middleware answers as the chain around what it serves. */
  lemma PipelineServes(c: Config, path: Text, ctx: Option<Context>, req: Packet, g: Packet -> Reply)
    requires Core(c, path).Some? && forall r :: g(r) == Serve(c, path, Enter(r, ctx))
    ensures Next(c.middlewares, Core(c, path).value, ctx, req) == Onion(c.middlewares, ctx, g)(req)
  {
    var core := Core(c, path).value;
    var f := (r: Packet) => Answer(core, Enter(r, ctx));
    forall r ensures f(r) == g(r) {
      CoreServes(c, path, Enter(r, ctx));
    }
    NextIsChain(c.middlewares, core, ctx, req);
    ChainCongruent(c.middlewares, ctx, f, g, req);
    OnionIsChain(c.middlewares, ctx, g, req);
  }

  /** A path is served exactly when a route, a mount or the fallback takes it. */
  ghost predicate Served(c: Config, path: Text) {
    path in c.routes || c.fallback.Some?
    || exists i :: 0 <= i < |c.registries + c.structs| && Matches((c.registries + c.structs)[i].prefix, path)
  }

  lemma ResolvesIffServed(c: Config, path: Text)
    ensures Resolve(c, path).Some? <==> Served(c, path)
  {
    FirstMatchAppend(c.registries, c.structs, path);
    FirstMatchIsFirst(c.registries + c.structs, path);
  }

  /** Every resolved handler answers as the middleware chain run once around the
      route, or around mount-then-fallback; with no middleware it answers as the
      bare handler, through whichever entry point it was called. The middlewares and
      the handler behind them see the context the request came with, and behind a
      middleware a borrowed request is an owned one. */
  lemma ResolvedAnswersAsChain(c: Config, path: Text, e: Entry)
    requires Served(c, path)
    ensures Resolve(c, path).Some?
    ensures var answer := Answer(Resolve(c, path).value, e);
      if c.middlewares == [] then answer == Serve(c, path, e)
      else
        match e
        case Plain(req) => answer == Onion(c.middlewares, None, r => Serve(c, path, Plain(r)))(req)
        case InContext(req, ctx) =>
          answer == Onion(c.middlewares, Some(ctx), r => Serve(c, path, InContext(r, ctx)))(req)
        case Borrowed(view, ctx) =>
          answer == Onion(c.middlewares, Some(ctx), r => Serve(c, path, InContext(r, ctx)))(view)
  {
    ResolvesIffServed(c, path);
    CoreServes(c, path, e);
    match e
    case Plain(req) => PipelineServes(c, path, None, req, r => Serve(c, path, Plain(r)));
    case InContext(req, ctx) => PipelineServes(c, path, Some(ctx), req, r => Serve(c, path, InContext(r, ctx)));
    case Borrowed(view, ctx) => PipelineServes(c, path, Some(ctx), view, r => Serve(c, path, InContext(r, ctx)));
  }

  // ---- the chain runs once ------------------------------------------------

  /** No middleware is hidden inside a handler as registered. */
  predicate Bare(h: Handler) {
    match h
    case Leaf(_, _) => true
    case Blocking(inner) => Bare(inner)
    case _ => false
  }

  /** The middlewares that run while answering, in the order they are entered. */
  function Invoked(h: Handler, e: Entry): seq<Middleware>
    decreases h, 0
  {
    match h
    case Leaf(_, _) => []
    case Blocking(inner) => Invoked(inner, e)
    case Pipeline(wrapped, mws) => NextInvoked(mws, wrapped, ContextOf(e), e.Request())
    case MountFallthrough(mount, fallback) =>
      Invoked(mount, e) + (if Declined(Answer(mount, e)) then Invoked(fallback, e) else [])
  }

  function NextInvoked(mws: seq<Middleware>, h: Handler, ctx: Option<Context>, req: Packet): seq<Middleware>
    decreases h, |mws| + 1
  {
    if mws == [] then Invoked(h, Enter(req, ctx))
    else
      match mws[0](req, ctx)
      case ShortCircuit(_) => [mws[0]]
      case Forward(req', _) => [mws[0]] + NextInvoked(mws[1..], h, ctx, req')
  }

  ghost predicate AllBare(c: Config) {
    && (forall p :: p in c.routes ==> Bare(c.routes[p]))
    && (forall i :: 0 <= i < |c.registries| ==> Bare(c.registries[i].raw))
    && (forall i :: 0 <= i < |c.structs| ==> Bare(c.structs[i].raw))
    && (c.fallback.Some? ==> Bare(c.fallback.value))
  }

  lemma {:induction false} BareInvokesNothing(h: Handler, e: Entry)
    requires Bare(h)
    ensures Invoked(h, e) == []
  {
    if h.Blocking? {
      BareInvokesNothing(h.inner, e);
    }
  }

  lemma {:induction false} FirstMatchBare(mounts: seq<Mount>, path: Text)
    requires forall i :: 0 <= i < |mounts| ==> Bare(mounts[i].raw)
    ensures FirstMatch(mounts, path).Some? ==> Bare(FirstMatch(mounts, path).value)
  {
    if mounts != [] {
      FirstMatchBare(mounts[1..], path);
    }
  }

  lemma CoreInvokesNothing(c: Config, path: Text, e: Entry)
    requires AllBare(c) && Core(c, path).Some?
    ensures Invoked(Core(c, path).value, e) == []
  {
    FirstMatchBare(c.registries, path);
    FirstMatchBare(c.structs, path);
    var h := Core(c, path).value;
    if h.MountFallthrough? {
      BareInvokesNothing(h.mount, e);
      BareInvokesNothing(h.fallback, e);
    } else {
      BareInvokesNothing(h, e);
    }
  }

  /** How far a request gets: past every middleware that forwards it, up to and
      including the first that answers. */
  function Depth(mws: seq<Middleware>, ctx: Option<Context>, req: Packet): (k: nat)
    ensures k <= |mws|
    decreases |mws|
  {
    if mws == [] then 0
    else
      match mws[0](req, ctx)
      case ShortCircuit(_) => 1
      case Forward(req', _) => 1 + Depth(mws[1..], ctx, req')
  }

  lemma {:induction false} NextInvokesAPrefix(
    mws: seq<Middleware>, c: Config, path: Text, ctx: Option<Context>, req: Packet)
    requires AllBare(c) && Core(c, path).Some?
    ensures NextInvoked(mws, Core(c, path).value, ctx, req) == mws[..Depth(mws, ctx, req)]
    decreases |mws|
  {
    if mws == [] {
      CoreInvokesNothing(c, path, Enter(req, ctx));
    } else {
      var step := mws[0](req, ctx);
      if step.Forward? {
        NextInvokesAPrefix(mws[1..], c, path, ctx, step.request);
        var k := Depth(mws[1..], ctx, step.request);
        assert [mws[0]] + mws[1..][..k] == mws[..k + 1];
      }
    }
  }

  /** A request runs the registered middlewares in order, each once, up to the first
      that answers it, and also when a mount's miss falls through to the fallback. */
  lemma PipelineRunsOnce(c: Config, path: Text, e: Entry)
    requires AllBare(c) && Resolve(c, path).Some?
    ensures Invoked(Resolve(c, path).value, e)
      == c.middlewares[..Depth(c.middlewares, ContextOf(e), e.Request())]
  {
    if c.middlewares == [] {
      CoreInvokesNothing(c, path, e);
    } else {
      NextInvokesAPrefix(c.middlewares, c, path, ContextOf(e), e.Request());
    }
  }

  // ---- where a handler runs -----------------------------------------------

  /** A handler and everything it is made of, down to what was marked blocking. */
  function Parts(h: Handler): seq<Handler> {
    match h
    case Leaf(_, _) => [h]
    case Blocking(_) => [h]
    case Pipeline(wrapped, _) => [h] + Parts(wrapped)
    case MountFallthrough(mount, fallback) => [h] + Parts(mount) + Parts(fallback)
  }

  /** Asks by itself to be kept off the reader. */
  predicate AsksOff(h: Handler) {
    h.Blocking? || (h.Leaf? && h.mode.OffReader?)
  }

  ghost predicate SomeAsks(hs: seq<Handler>) {
    exists i :: 0 <= i < |hs| && AsksOff(hs[i])
  }

  lemma SomeAsksAppend(a: seq<Handler>, b: seq<Handler>)
    ensures SomeAsks(a + b) <==> SomeAsks(a) || SomeAsks(b)
  {
    if i :| 0 <= i < |a| && AsksOff(a[i]) {
      assert (a + b)[i] == a[i];
    }
    if i :| 0 <= i < |b| && AsksOff(b[i]) {
      assert (a + b)[|a| + i] == b[i];
    }
    if i :| 0 <= i < |a + b| && AsksOff((a + b)[i]) {
      assert if i < |a| then AsksOff(a[i]) else AsksOff(b[i - |a|]);
    }
  }

  lemma OneAsks(h: Handler)
    ensures SomeAsks([h]) <==> AsksOff(h)
  {
    assert [h][0] == h;
  }

  /** A composition leaves the reader exactly when some part of it asks to. */
  lemma {:induction false} OffReaderIffAsked(h: Handler)
    ensures Mode(h).OffReader? <==> SomeAsks(Parts(h))
  {
    OneAsks(h);
    hide SomeAsks;
    match h
    case Leaf(_, _) =>
    case Blocking(_) =>
    case Pipeline(wrapped, _) =>
      OffReaderIffAsked(wrapped);
      SomeAsksAppend([h], Parts(wrapped));
    case MountFallthrough(mount, fallback) =>
      OffReaderIffAsked(mount);
      OffReaderIffAsked(fallback);
      SomeAsksAppend([h], Parts(mount));
      SomeAsksAppend([h] + Parts(mount), Parts(fallback));
  }

  /** A resolved handler runs off the reader exactly when something registered that
      it may run asks for it: the route, the first covering mount or, where a miss
      can fall through to it or nothing else serves the path, the fallback.
      Middleware never moves it. */
  lemma ResolvedMode(c: Config, path: Text)
    requires AllBare(c) && Resolve(c, path).Some?
    ensures Mode(Resolve(c, path).value).OffReader? <==>
      if path in c.routes then AsksOff(c.routes[path])
      else
        match FirstMatch(c.registries + c.structs, path)
        case Some(raw) => AsksOff(raw) || (c.fallthrough && c.fallback.Some? && AsksOff(c.fallback.value))
        case None => c.fallback.Some? && AsksOff(c.fallback.value)
  {
    FirstMatchAppend(c.registries, c.structs, path);
    FirstMatchBare(c.registries, path);
    FirstMatchBare(c.structs, path);
    var core := Core(c, path).value;
    assert Mode(Wrap(core, c.middlewares)) == Mode(core);
    if c.fallback.Some? {
      assert Mode(c.fallback.value).OffReader? <==> AsksOff(c.fallback.value);
    }
    var found := FirstMatch(c.registries + c.structs, path);
    if path !in c.routes && found.Some? {
      assert core == Composed(c, found.value);
      assert Mode(found.value).OffReader? <==> AsksOff(found.value);
    }
  }
}
