/** The router updated in place, and why its prebuilt handlers never go stale. */
module RouterTable {
  import opened Common
  import opened JsonPointer
  import opened Routing

  /** A handler as registered and as dispatched. */
  datatype RouteEntry = RouteEntry(raw: Handler, dispatched: Handler)

  datatype MountEntry = MountEntry(prefix: Text, raw: Handler, dispatched: Handler)

  function Mounts(entries: seq<MountEntry>): (ms: seq<Mount>)
    ensures |ms| == |entries|
    ensures forall i :: 0 <= i < |ms| ==> ms[i] == Mount(entries[i].prefix, entries[i].raw)
  {
    seq(|entries|, i requires 0 <= i < |entries| => Mount(entries[i].prefix, entries[i].raw))
  }

  /** Every dispatched slot holds what composing on demand would build. */
  ghost predicate RoutesFresh(inner: map<Text, RouteEntry>, mws: seq<Middleware>) {
    forall p :: p in inner ==> inner[p].dispatched == Wrap(inner[p].raw, mws)
  }

  ghost predicate MountsFresh(entries: seq<MountEntry>, c: Config) {
    forall i :: 0 <= i < |entries| ==>
      entries[i].dispatched == Wrap(Composed(c, entries[i].raw), c.middlewares)
  }

  /** The prebuilt handler of the first mount that covers a path. */
  function FirstSlot(entries: seq<MountEntry>, path: Text): Option<Handler> {
    if entries == [] then None
    else if Matches(entries[0].prefix, path) then Some(entries[0].dispatched)
    else FirstSlot(entries[1..], path)
  }

  lemma {:induction false} FreshSlot(entries: seq<MountEntry>, c: Config, path: Text)
    requires MountsFresh(entries, c)
    ensures FirstSlot(entries, path) ==
      match FirstMatch(Mounts(entries), path)
      case None => None
      case Some(raw) => Some(Wrap(Composed(c, raw), c.middlewares))
  {
    if entries != [] {
      FreshSlot(entries[1..], c, path);
      assert Mounts(entries)[1..] == Mounts(entries[1..]);
    }
  }

  class Router {
    var inner: map<Text, RouteEntry>
    var structs: seq<MountEntry>
    var registries: seq<MountEntry>
    var fallback: Option<RouteEntry>
    var middlewares: seq<Middleware>
    var fallthrough: bool

    /** What has been registered. */
    ghost function Registered(): Config
      reads this
    {
      Config(map p | p in inner :: inner[p].raw, Mounts(registries), Mounts(structs),
             if fallback.Some? then Some(fallback.value.raw) else None, middlewares, fallthrough)
    }

    ghost predicate Valid()
      reads this
    {
      && RoutesFresh(inner, middlewares)
      && (fallback.Some? ==> fallback.value.dispatched == Wrap(fallback.value.raw, middlewares))
      && MountsFresh(registries, Registered())
      && MountsFresh(structs, Registered())
    }

    constructor ()
      ensures Valid() && Registered() == Empty()
    {
      inner, structs, registries, fallback, middlewares, fallthrough := map[], [], [], None, [], false;
    }

    /** `mount_dispatched`. */
    method MountDispatched(raw: Handler) returns (h: Handler)
      ensures h == Wrap(Composed(Registered(), raw), middlewares)
    {
      var composed := if fallthrough && fallback.Some? then MountFallthrough(raw, fallback.value.raw) else raw;
      h := Wrap(composed, middlewares);
    }

    /** Rebuild one list of mounts: same prefixes and raw handlers, fresh slots. */
    method Rebuilt(entries: seq<MountEntry>) returns (out: seq<MountEntry>)
      ensures Mounts(out) == Mounts(entries) && MountsFresh(out, Registered())
    {
      out := [];
      for i := 0 to |entries|
        invariant |out| == i
        invariant forall j :: 0 <= j < i ==> out[j].prefix == entries[j].prefix && out[j].raw == entries[j].raw
        invariant MountsFresh(out, Registered())
      {
        var h := MountDispatched(entries[i].raw);
        out := out + [entries[i].(dispatched := h)];
      }
    }

    /** `rebuild_mount_dispatch`. */
    method RebuildMountDispatch()
      modifies this`registries, this`structs
      ensures Registered() == old(Registered())
      ensures MountsFresh(registries, Registered()) && MountsFresh(structs, Registered())
    {
      var rs := Rebuilt(registries);
      var ss := Rebuilt(structs);
      registries, structs := rs, ss;
    }

    method InsertRoute(path: Text, raw: Handler)
      requires Valid()
      modifies this
      ensures Valid() && Registered() == Apply(old(Registered()), Route(path, raw))
    {
      inner := inner[path := RouteEntry(raw, Wrap(raw, middlewares))];
      assert Registered().routes == old(Registered()).routes[path := raw];
    }

    method RegisterFallback(raw: Handler)
      requires Valid()
      modifies this
      ensures Valid() && Registered() == Apply(old(Registered()), Fallback(raw))
    {
      fallback := Some(RouteEntry(raw, Wrap(raw, middlewares)));
      RebuildMountDispatch();
    }

    method RegisterFallbackBlocking(raw: Handler)
      requires Valid()
      modifies this
      ensures Valid() && Registered() == Apply(old(Registered()), Fallback(Blocking(raw)))
    {
      RegisterFallback(Blocking(raw));
    }

    method SetMountFallthrough(enabled: bool)
      requires Valid()
      modifies this
      ensures Valid() && Registered() == Apply(old(Registered()), Fallthrough(enabled))
    {
      if fallthrough == enabled {
        return;
      }
      fallthrough := enabled;
      RebuildMountDispatch();
    }

    /** Rewrap every fixed route and the fallback in the current chain. */
    method RewrapRoutes()
      modifies this`inner, this`fallback
      ensures Registered() == old(Registered()) && RoutesFresh(inner, middlewares)
      ensures fallback.Some? ==> fallback.value.dispatched == Wrap(fallback.value.raw, middlewares)
    {
      inner := map p | p in inner :: RouteEntry(inner[p].raw, Wrap(inner[p].raw, middlewares));
      if fallback.Some? {
        fallback := Some(RouteEntry(fallback.value.raw, Wrap(fallback.value.raw, middlewares)));
      }
      assert Registered().routes == old(Registered()).routes;
    }

    method RegisterMiddleware(m: Middleware)
      requires Valid()
      modifies this
      ensures Valid() && Registered() == Apply(old(Registered()), Use(m))
    {
      middlewares := middlewares + [m];
      RewrapRoutes();
      RebuildMountDispatch();
    }

    method RegisterRegistry(prefix: Text, raw: Handler)
      requires Valid()
      modifies this
      ensures Valid() && Registered() == Apply(old(Registered()), MountRegistry(prefix, raw))
    {
      var dispatched := MountDispatched(raw);
      registries := registries + [MountEntry(NormalizeMount(prefix), raw, dispatched)];
      assert Mounts(registries) == old(Mounts(registries)) + [Mount(NormalizeMount(prefix), raw)];
    }

    method RegisterStruct(root: Text, raw: Handler)
      requires Valid()
      modifies this
      ensures Valid() && Registered() == Apply(old(Registered()), MountStruct(root, raw))
    {
      var dispatched := MountDispatched(raw);
      structs := structs + [MountEntry(NormalizeRoot(root), raw, dispatched)];
      assert Mounts(structs) == old(Mounts(structs)) + [Mount(NormalizeRoot(root), raw)];
    }

    /** What `get` answers, read from the prebuilt slots alone. */
    function Slot(path: Text): Option<Handler>
      reads this
    {
      if path in inner then Some(inner[path].dispatched)
      else if FirstSlot(registries, path).Some? then FirstSlot(registries, path)
      else if FirstSlot(structs, path).Some? then FirstSlot(structs, path)
      else if fallback.Some? then Some(fallback.value.dispatched)
      else None
    }

    /** The prebuilt slot is the handler that composing on demand from the current
        registrations would give. */
    lemma SlotIsComposedOnDemand(path: Text)
      requires Valid()
      ensures Slot(path) == Resolve(Registered(), path)
    {
      FreshSlot(registries, Registered(), path);
      FreshSlot(structs, Registered(), path);
    }

    method FindMount(entries: seq<MountEntry>, path: Text) returns (r: Option<Handler>)
      ensures r == FirstSlot(entries, path)
    {
      assert entries[0..] == entries;
      for i := 0 to |entries|
        invariant FirstSlot(entries, path) == FirstSlot(entries[i..], path)
      {
        assert entries[i..][1..] == entries[i + 1..];
        if Matches(entries[i].prefix, path) {
          return Some(entries[i].dispatched);
        }
      }
      return None;
    }

    /** `get`. */
    method Lookup(path: Text) returns (r: Option<Handler>)
      requires Valid()
      ensures r == Slot(path) == Resolve(Registered(), path)
    {
      SlotIsComposedOnDemand(path);
      if path in inner {
        return Some(inner[path].dispatched);
      }
      r := FindMount(registries, path);
      if r.Some? {
        return;
      }
      r := FindMount(structs, path);
      if r.Some? {
        return;
      }
      r := if fallback.Some? then Some(fallback.value.dispatched) else None;
    }

    method Register(r: Registration)
      requires Valid()
      modifies this
      ensures Valid() && Registered() == Apply(old(Registered()), r)
    {
      match r
      case Route(p, h) => InsertRoute(p, h);
      case MountRegistry(p, h) => RegisterRegistry(p, h);
      case MountStruct(p, h) => RegisterStruct(p, h);
      case Fallback(h) => RegisterFallback(h);
      case Fallthrough(b) => SetMountFallthrough(b);
      case Use(m) => RegisterMiddleware(m);
    }

    /** A router taken through a sequence of registrations from the start. */
    method RegisterAll(rs: seq<Registration>)
      requires Valid() && Registered() == Empty()
      modifies this
      ensures Valid() && Registered() == Built(rs)
    {
      for i := 0 to |rs|
        invariant Valid() && Registered() == Built(rs[..i])
      {
        Register(rs[i]);
        assert rs[..i + 1][..i] == rs[..i] && rs[..i + 1][i] == rs[i];
      }
      assert rs[..|rs|] == rs;
    }
  }

  // ---- sequences of registrations -----------------------------------------

  datatype Registration =
    | Route(path: Text, handler: Handler)
    | MountRegistry(prefix: Text, handler: Handler)
    | MountStruct(root: Text, handler: Handler)
    | Fallback(handler: Handler)
    | Fallthrough(enabled: bool)
    | Use(middleware: Middleware)

  function Empty(): Config {
    Config(map[], [], [], None, [], false)
  }

  function Apply(c: Config, r: Registration): Config {
    match r
    case Route(p, h) => c.(routes := c.routes[p := h])
    case MountRegistry(p, h) => c.(registries := c.registries + [Mount(NormalizeMount(p), h)])
    case MountStruct(p, h) => c.(structs := c.structs + [Mount(NormalizeRoot(p), h)])
    case Fallback(h) => c.(fallback := Some(h))
    case Fallthrough(b) => c.(fallthrough := b)
    case Use(m) => c.(middlewares := c.middlewares + [m])
  }

  function Built(rs: seq<Registration>): Config {
    if rs == [] then Empty() else Apply(Built(rs[..|rs| - 1]), rs[|rs| - 1])
  }

  // What a sequence says about each part, read off without building anything.

  function LastRoute(rs: seq<Registration>, path: Text): Option<Handler> {
    if rs == [] then None
    else
      var r := rs[|rs| - 1];
      if r.Route? && r.path == path then Some(r.handler) else LastRoute(rs[..|rs| - 1], path)
  }

  function LastFallback(rs: seq<Registration>): Option<Handler> {
    if rs == [] then None
    else if rs[|rs| - 1].Fallback? then Some(rs[|rs| - 1].handler)
    else LastFallback(rs[..|rs| - 1])
  }

  function LastFlag(rs: seq<Registration>): bool {
    if rs == [] then false
    else if rs[|rs| - 1].Fallthrough? then rs[|rs| - 1].enabled
    else LastFlag(rs[..|rs| - 1])
  }

  function RegistryOrder(rs: seq<Registration>): seq<Mount> {
    if rs == [] then []
    else
      var r := rs[|rs| - 1];
      RegistryOrder(rs[..|rs| - 1]) + (if r.MountRegistry? then [Mount(NormalizeMount(r.prefix), r.handler)] else [])
  }

  function StructOrder(rs: seq<Registration>): seq<Mount> {
    if rs == [] then []
    else
      var r := rs[|rs| - 1];
      StructOrder(rs[..|rs| - 1]) + (if r.MountStruct? then [Mount(NormalizeRoot(r.root), r.handler)] else [])
  }

  function MiddlewareOrder(rs: seq<Registration>): seq<Middleware> {
    if rs == [] then []
    else
      var r := rs[|rs| - 1];
      MiddlewareOrder(rs[..|rs| - 1]) + (if r.Use? then [r.middleware] else [])
  }

  /** The two sequences agree on the last handler per path, on the order of each
      kind of mount and of the middlewares, and on the last fallback and flag. */
  ghost predicate Agree(rs: seq<Registration>, qs: seq<Registration>) {
    && (forall p :: LastRoute(rs, p) == LastRoute(qs, p))
    && RegistryOrder(rs) == RegistryOrder(qs)
    && StructOrder(rs) == StructOrder(qs)
    && MiddlewareOrder(rs) == MiddlewareOrder(qs)
    && LastFallback(rs) == LastFallback(qs)
    && LastFlag(rs) == LastFlag(qs)
  }

  lemma {:induction false} BuiltReadsOff(rs: seq<Registration>, path: Text)
    ensures Get(Built(rs).routes, path) == LastRoute(rs, path)
    ensures Built(rs).registries == RegistryOrder(rs) && Built(rs).structs == StructOrder(rs)
    ensures Built(rs).middlewares == MiddlewareOrder(rs)
    ensures Built(rs).fallback == LastFallback(rs) && Built(rs).fallthrough == LastFlag(rs)
  {
    if rs != [] {
      BuiltReadsOff(rs[..|rs| - 1], path);
    }
  }

  lemma {:induction false} AgreeingBuildsResolveAlike(rs: seq<Registration>, qs: seq<Registration>, path: Text)
    requires Agree(rs, qs)
    ensures Resolve(Built(rs), path) == Resolve(Built(qs), path)
  {
    BuiltReadsOff(rs, path);
    BuiltReadsOff(qs, path);
    assert Get(Built(rs).routes, path) == Get(Built(qs).routes, path);
  }

  /** Registration order does not matter beyond what `Agree` names: two routers taken
      through agreeing sequences hold the same prebuilt handler for every path. */
  lemma OrderDoesNotMatter(a: Router, b: Router, rs: seq<Registration>, qs: seq<Registration>, path: Text)
    requires a.Valid() && a.Registered() == Built(rs)
    requires b.Valid() && b.Registered() == Built(qs)
    requires Agree(rs, qs)
    ensures a.Slot(path) == b.Slot(path)
  {
    AgreeingBuildsResolveAlike(rs, qs, path);
    a.SlotIsComposedOnDemand(path);
    b.SlotIsComposedOnDemand(path);
  }

  /** The same from the registrations themselves: build both routers in place, ask
      both, and get one answer. */
  method BuildTwoAndLookup(rs: seq<Registration>, qs: seq<Registration>, path: Text)
    returns (x: Option<Handler>, y: Option<Handler>)
    requires Agree(rs, qs)
    ensures x == y == Resolve(Built(rs), path)
  {
    var a := new Router();
    var b := new Router();
    a.RegisterAll(rs);
    b.RegisterAll(qs);
    x := a.Lookup(path);
    y := b.Lookup(path);
    AgreeingBuildsResolveAlike(rs, qs, path);
  }

  /** Registrations of different parts, or routes for different paths. */
  predicate Independent(a: Registration, b: Registration) {
    || (a.Route? && (b.Route? ==> a.path != b.path))
    || (a.MountRegistry? && !b.MountRegistry?)
    || (a.MountStruct? && !b.MountStruct?)
    || (a.Fallback? && !b.Fallback?)
    || (a.Fallthrough? && !b.Fallthrough?)
    || (a.Use? && !b.Use?)
  }

  /** In particular, middleware, fallback and the fall-through flag reach a mount or
      a route registered before them as they do one registered after. */
  lemma IndependentRegistrationsCommute(
    one: Router, two: Router, rs: seq<Registration>, a: Registration, b: Registration, path: Text)
    requires Independent(a, b)
    requires one.Valid() && one.Registered() == Built(rs + [a, b])
    requires two.Valid() && two.Registered() == Built(rs + [b, a])
    ensures one.Slot(path) == two.Slot(path)
  {
    SwapBuildsTheSame(rs, a, b);
    one.SlotIsComposedOnDemand(path);
    two.SlotIsComposedOnDemand(path);
  }

  lemma BuiltSnoc(rs: seq<Registration>, a: Registration)
    ensures Built(rs + [a]) == Apply(Built(rs), a)
  {
    assert (rs + [a])[..|rs|] == rs;
  }

  lemma BuiltTwo(rs: seq<Registration>, a: Registration, b: Registration)
    ensures Built(rs + [a, b]) == Apply(Apply(Built(rs), a), b)
  {
    hide Built, Apply;
    assert rs + [a, b] == rs + [a] + [b];
    BuiltSnoc(rs, a);
    BuiltSnoc(rs + [a], b);
  }

  lemma ApplySwap(c: Config, a: Registration, b: Registration)
    requires Independent(a, b)
    ensures Apply(Apply(c, a), b) == Apply(Apply(c, b), a)
  {
    assert Apply(Apply(c, a), b).routes == Apply(Apply(c, b), a).routes;
  }

  lemma SwapBuildsTheSame(rs: seq<Registration>, a: Registration, b: Registration)
    requires Independent(a, b)
    ensures Built(rs + [a, b]) == Built(rs + [b, a])
  {
    hide Built, Apply;
    BuiltTwo(rs, a, b);
    BuiltTwo(rs, b, a);
    ApplySwap(Built(rs), a, b);
  }
}
