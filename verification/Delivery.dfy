/** Delivery of a sequence of files by the documented producer lifecycle of
    `src/stream.rs` over a link that may drop any undelivered suffix.

    The producer waits for credit, pushes the body to the ring, sends it, records
    it, parks when the peer is gone, replays the ring when a resume is ready, and
    moves to the next file when it has emitted this one, or, while parked, when it
    hears that the receiver has completed it. The receiver appends
    whatever arrives and starts a new file after a chunk marked as the last: it
    checks no offset, removes no duplicate, and knows nothing of the files. ACKs and
    cancels are arbitrary, and a resume may arrive in every phase of the producer. */
module Delivery {
  import opened Common
  import opened Replay
  import opened Transfer

  /** The files to send, and how a receiver reads the payload out of a body. */
  datatype Job = Job(files: seq<seq<byte>>, decode: seq<byte> -> seq<byte>)

  datatype Phase =
    | Producing
    | Credited(chunkLen: nat)
    | Pushed(chunk: RingChunk)
    | Emitted(chunk: RingChunk)
    | Parked
    | Replaying(todo: seq<RingChunk>)
    | Stopped

  /** A chunk in flight, with the file it belongs to. */
  datatype Parcel = Parcel(file: nat, chunk: RingChunk)

  /** `at` is the connection the receiver is on, or was last on when it is down.
      `log` is the history of bodies pushed for the current file; no step reads more
      of it than whether its last chunk ended the file. `done` and `received` are
      the receiver's: the files it takes for complete, and the data since. */
  datatype World = World(
    ctl: Control,
    phase: Phase,
    up: bool,
    at: PeerId,
    link: seq<Parcel>,
    received: seq<byte>,
    done: seq<seq<byte>>,
    log: seq<RingChunk>)

  datatype Event =
    | GrantCredit(chunkLen: nat)
    | PushBody(body: seq<byte>)
    | SendOk
    | SendDisconnected
    | RecordEmitted
    | Disconnect(survive: nat)
    | Deliver
    | Handler(op: Op)
    | ResumeFromReceiver(newPeer: PeerId)
    | WakeResumed
    | ReplayOk(recorded: bool)
    | ReplayDisconnected(park: bool)
    | ReplayDone
    | ParkIdle
    | Advance
    | Abort

  function File(job: Job, w: World): seq<byte>
    requires w.ctl.fileIndex < |job.files|
  {
    job.files[w.ctl.fileIndex]
  }

  /** The chunk that ends the file has been pushed. */
  predicate Ended(log: seq<RingChunk>) {
    log != [] && log[|log| - 1].last
  }

  function NewChunk(job: Job, w: World, body: seq<byte>): RingChunk
    requires w.ctl.fileIndex < |job.files| && w.phase.Credited?
  {
    var edge := Edge(w.ctl.ring);
    RingChunk(edge, w.phase.chunkLen, edge + w.phase.chunkLen == |File(job, w)|, body)
  }

  /** The answer to a resume with the receiver's own file number and offset. */
  function Reply(w: World): Result<nat, Rejection> {
    ResumeReply(w.ctl, |w.done|, |w.received|)
  }

  /** The peer the producer holds is the connection the receiver is on, and it is up:
      what is sent to any other peer goes nowhere. */
  predicate Live(w: World) {
    w.up && w.ctl.peer == Some(w.at)
  }

  predicate Enabled(job: Job, w: World, e: Event)
    requires w.ctl.fileIndex < |job.files|
  {
    match e
    case GrantCredit(n) =>
      w.phase.Producing? && !Ended(w.log) && CreditLook(w.ctl, n) == Some(Granted)
      && Edge(w.ctl.ring) + n <= |File(job, w)|
    case PushBody(body) =>
      w.phase.Credited?
      && Edge(w.ctl.ring) + w.phase.chunkLen <= |File(job, w)|
      && job.decode(body) == File(job, w)[Edge(w.ctl.ring)..Edge(w.ctl.ring) + w.phase.chunkLen]
    case SendOk => w.phase.Pushed? && Live(w)
    case SendDisconnected => w.phase.Pushed? && !Live(w)
    case RecordEmitted => w.phase.Emitted?
    case Disconnect(k) => w.up && k <= |w.link|
    case Deliver => w.link != []
    case Handler(op) => op.RecordAck? || op.Cancel?
    case ResumeFromReceiver(_) => !w.up
    case WakeResumed => w.phase.Parked? && ReconnectLook(w.ctl).Some? && ReconnectLook(w.ctl).value.ResumeReady?
    case ReplayOk(_) => w.phase.Replaying? && w.phase.todo != [] && Live(w)
    case ReplayDisconnected(_) => w.phase.Replaying? && w.phase.todo != [] && !Live(w)
    case ReplayDone => w.phase == Replaying([])
    case ParkIdle => (w.phase.Producing? || w.phase.Credited?) && !Live(w)
    case Advance =>
      Ended(w.log) && w.ctl.fileIndex + 1 < |job.files|
      && (w.phase.Producing? || (w.phase.Parked? && |w.done| == w.ctl.fileIndex + 1))
    case Abort => true
  }

  /** A resume on a new connection. If it is accepted the receiver goes on there, and
      whatever was still in flight on the old one is gone. */
  function Resumed(w: World, newPeer: PeerId): World {
    var op := RequestResume(newPeer, |w.done|, |w.received|);
    if Reply(w).Err? then w else w.(ctl := Apply(w.ctl, op), up := true, at := newPeer, link := [])
  }

  function Delivered(job: Job, w: World, p: Parcel): World {
    var received := w.received + job.decode(p.chunk.body);
    if p.chunk.last then w.(done := w.done + [received], received := []) else w.(received := received)
  }

  /** The world after pushing `c`. */
  function AfterPush(w: World, c: RingChunk): World {
    w.(ctl := Apply(w.ctl, PushReplay(c)), phase := Pushed(c), log := w.log + [c])
  }

  function Send(w: World, c: RingChunk): seq<Parcel> {
    w.link + [Parcel(w.ctl.fileIndex, c)]
  }

  function After(job: Job, w: World, e: Event): World
    requires w.ctl.fileIndex < |job.files| && Enabled(job, w, e)
  {
    match e
    case GrantCredit(n) => w.(phase := Credited(n))
    case PushBody(body) => AfterPush(w, NewChunk(job, w, body))
    case SendOk => w.(link := Send(w, w.phase.chunk), phase := Emitted(w.phase.chunk))
    case SendDisconnected => w.(phase := Parked)
    case RecordEmitted => w.(ctl := Apply(w.ctl, RecordSent(w.phase.chunk.End())), phase := Producing)
    case Disconnect(k) => w.(up := false, link := w.link[..k])
    case Deliver => Delivered(job, w.(link := w.link[1..]), w.link[0])
    case Handler(op) => w.(ctl := Apply(w.ctl, op))
    case ResumeFromReceiver(p) => Resumed(w, p)
    case WakeResumed =>
      w.(ctl := Apply(w.ctl, TakeResume),
         phase := Replaying(ReplayFrom(w.ctl.ring, w.ctl.pending.value)))
    case ReplayOk(recorded) =>
      var c := w.phase.todo[0];
      w.(link := Send(w, c),
         ctl := if recorded then Apply(w.ctl, RecordSent(c.End())) else w.ctl,
         phase := Replaying(w.phase.todo[1..]))
    case ReplayDisconnected(park) =>
      w.(phase := if park then Parked else Replaying(w.phase.todo[1..]))
    case ReplayDone => w.(phase := Producing)
    case ParkIdle => w.(phase := Parked)
    case Advance => w.(ctl := Apply(w.ctl, AdvanceToFile(w.ctl.fileIndex + 1)), log := [])
    case Abort => w.(phase := Stopped)
  }

  // ---- positions in the stream of files -----------------------------------

  datatype Pos = Pos(file: nat, offset: nat)

  function StartOf(p: Parcel): Pos {
    Pos(p.file, p.chunk.offset)
  }

  /** Where the chunk after `p` belongs. */
  function EndOf(p: Parcel): Pos {
    if p.chunk.last then Pos(p.file + 1, 0) else Pos(p.file, p.chunk.End())
  }

  function ReceiverPos(w: World): Pos {
    Pos(|w.done|, |w.received|)
  }

  /** Where what is in flight ends. */
  function LinkPos(w: World): Pos {
    if w.link == [] then ReceiverPos(w) else EndOf(w.link[|w.link| - 1])
  }

  /** Where the k-th chunk of a file belongs; after the last one, what follows it. */
  function PosAt(file: nat, log: seq<RingChunk>, k: nat): Pos
    requires k <= |log|
  {
    if k < |log| then Pos(file, log[k].offset)
    else if log == [] then Pos(file, 0)
    else EndOf(Parcel(file, log[|log| - 1]))
  }

  /** Which chunk of the log the producer sends next. */
  function Cursor(w: World): nat {
    match w.phase
    case Pushed(_) => if w.log == [] then 0 else |w.log| - 1
    case Replaying(todo) => if |todo| <= |w.log| then |w.log| - |todo| else 0
    case _ => |w.log|
  }

  /** The next chunk the producer sends is the next one the receiver needs. */
  predicate Aligned(w: World) {
    PosAt(w.ctl.fileIndex, w.log, Cursor(w)) == ReceiverPos(w)
  }

  // ---- policies -----------------------------------------------------------

  datatype Spot = AtProducing | AtCredited | AtPushed | AtEmitted | AtReplay | AtStop

  /** Where a resume finds a producer that is not parked. */
  datatype Situation = Situation(at: Spot, aligned: bool)

  function SituationOf(w: World): Situation
    requires !w.phase.Parked?
  {
    var at := match w.phase {
      case Producing => AtProducing
      case Credited(_) => AtCredited
      case Pushed(_) => AtPushed
      case Emitted(_) => AtEmitted
      case Replaying(_) => AtReplay
      case Stopped => AtStop
    };
    Situation(at, Aligned(w))
  }

  /** What an application decides: besides a parked producer, in which situations a
      resume may be passed on to `request_resume`; whether the producer waits for the
      receiver's file-complete message before it advances; whether it records bodies
      it replays; whether it parks again when a replay is cut off; and whether,
      between chunks, it looks if the peer is gone and parks then. */
  datatype Policy = Policy(extra: set<Situation>, waits: bool, records: bool, parks: bool, looks: bool)

  predicate Allowed(p: Policy, w: World, e: Event) {
    match e
    case ResumeFromReceiver(_) => Reply(w).Ok? && !w.phase.Parked? ==> SituationOf(w) in p.extra
    case Advance => p.waits ==> |w.done| == w.ctl.fileIndex + 1
    case ReplayOk(recorded) => recorded == p.records
    case ReplayDisconnected(park) => park == p.parks
    case ParkIdle => p.looks
    case _ => true
  }

  /** One step under a policy. */
  predicate Step(p: Policy, job: Job, w: World, e: Event) {
    w.ctl.fileIndex < |job.files| && Enabled(job, w, e) && Allowed(p, w, e)
  }

  ghost predicate IsRun(p: Policy, job: Job, w: World, events: seq<Event>)
    decreases |events|
  {
    events == [] || (Step(p, job, w, events[0]) && IsRun(p, job, After(job, w, events[0]), events[1..]))
  }

  ghost function Final(p: Policy, job: Job, w: World, events: seq<Event>): World
    requires IsRun(p, job, w, events)
    decreases |events|
  {
    if events == [] then w else Final(p, job, After(job, w, events[0]), events[1..])
  }

  function Start(window: nat, capacity: nat, peer: PeerId): World {
    World(Apply(New(window, capacity), SetPeer(peer)), Producing, true, peer, [], [], [], [])
  }

  /** Exactly once and in order: the files the receiver takes for complete are the
      first files byte for byte, and the data since is a prefix of the next. */
  predicate Exact(job: Job, w: World) {
    && |w.done| <= |job.files| && w.done == job.files[..|w.done|]
    && w.received <= (if |w.done| < |job.files| then job.files[|w.done|] else [])
  }

  // ---- the invariant ------------------------------------------------------

  /** A parcel carries its own range of its file, and is marked as the last exactly
      when it ends the file. */
  ghost predicate Genuine(job: Job, p: Parcel) {
    && p.file < |job.files| && p.chunk.End() <= |job.files[p.file]|
    && job.decode(p.chunk.body) == job.files[p.file][p.chunk.offset..p.chunk.End()]
    && (p.chunk.last <==> p.chunk.End() == |job.files[p.file]|)
  }

  ghost predicate AllGenuine(job: Job, file: nat, log: seq<RingChunk>) {
    forall c :: c in log ==> Genuine(job, Parcel(file, c))
  }

  ghost predicate OnlyTheFinalChunkIsLast(log: seq<RingChunk>) {
    forall i :: 0 <= i < |log| - 1 ==> !log[i].last
  }

  ghost predicate RingHolds(job: Job, w: World) {
    && w.ctl.fileIndex < |job.files|
    && Contiguous(w.log) && (w.log != [] ==> w.log[0].offset == 0) && OnlyTheFinalChunkIsLast(w.log)
    && w.ctl.ring == RingOf(w.log, w.ctl.capacity)
    && Contiguous(w.ctl.ring) && Edge(w.ctl.ring) == Edge(w.log)
    && AllGenuine(job, w.ctl.fileIndex, w.log)
  }

  /** The parcels in flight follow each other, from the receiver's position on. */
  ghost predicate Chained(link: seq<Parcel>, from: Pos) {
    && (link != [] ==> StartOf(link[0]) == from)
    && forall i :: 0 < i < |link| ==> StartOf(link[i]) == EndOf(link[i - 1])
  }

  ghost predicate Pushable(job: Job, w: World, p: Parcel) {
    && Genuine(job, p) && p.file <= w.ctl.fileIndex
    && (p.file == w.ctl.fileIndex ==> p.chunk in w.log)
  }

  ghost predicate AtBoundary(log: seq<RingChunk>, offset: nat) {
    exists i :: 0 <= i <= |log| && Boundary(log, i) == offset
  }

  /** The receiver has exact data, at a chunk boundary, never more than the producer's
      file, and never a whole file that it does not take for complete. */
  ghost predicate ReceiverHolds(job: Job, w: World) {
    var f, g := w.ctl.fileIndex, |w.done|;
    && f < |job.files| && g <= f + 1 && Exact(job, w)
    && (g == f + 1 ==> w.received == [] && Ended(w.log))
    && (g <= f ==> |w.received| < |job.files[g]| || job.files[g] == [])
    && (g == f ==> AtBoundary(w.log, |w.received|))
  }

  ghost predicate LinkHolds(job: Job, w: World) {
    Chained(w.link, ReceiverPos(w)) && forall p :: p in w.link ==> Pushable(job, w, p)
  }

  /** A replay works through a suffix of what was pushed. */
  ghost predicate PhaseFits(w: World) {
    match w.phase
    case Credited(_) => !Ended(w.log)
    case Pushed(c) => w.log != [] && c == w.log[|w.log| - 1]
    case Emitted(c) => w.log != [] && c == w.log[|w.log| - 1]
    case Replaying(todo) => |todo| <= |w.log| && todo == w.log[|w.log| - |todo|..]
    case _ => true
  }

  /** While the receiver is connected, the producer holds that connection. */
  predicate Wired(w: World) {
    w.up ==> w.ctl.peer == Some(w.at)
  }

  /** On a live link the producer holds the receiver's own connection, and what it
      sends next continues what is in flight. A parked producer has a live link only
      with the receiver's own offset staged. */
  ghost predicate Continues(w: World) {
    && Wired(w)
    && (w.up ==>
          match w.phase
          case Stopped => true
          case Parked =>
            && w.link == [] && w.ctl.pending == Some(|w.received|)
            && |w.done| == w.ctl.fileIndex && Covers(w.ctl.ring, |w.received|)
          case _ => LinkPos(w) == PosAt(w.ctl.fileIndex, w.log, Cursor(w)))
  }

  ghost predicate Inv(job: Job, w: World) {
    RingHolds(job, w) && ReceiverHolds(job, w) && LinkHolds(job, w) && PhaseFits(w) && Continues(w)
  }

  // ---- every step keeps it ------------------------------------------------

  /** Appending a chunk moves no earlier boundary. */
  lemma BoundaryStable(log: seq<RingChunk>, c: RingChunk, offset: nat)
    requires AtBoundary(log, offset) && (log == [] ==> c.offset == 0)
    ensures AtBoundary(log + [c], offset)
  {
    var i :| 0 <= i <= |log| && Boundary(log, i) == offset;
    assert (log + [c])[..i] == log[..i];
    assert Boundary(log + [c], i) == offset;
  }

  lemma RingAfterPush(log: seq<RingChunk>, capacity: nat, c: RingChunk)
    ensures RingOf(log + [c], capacity) == Push(RingOf(log, capacity), capacity, c)
  {
    assert (log + [c])[..|log|] == log;
  }

  lemma PushKeepsRing(job: Job, w: World, c: RingChunk)
    requires RingHolds(job, w) && !Ended(w.log)
    requires c.offset == Edge(w.ctl.ring) && Genuine(job, Parcel(w.ctl.fileIndex, c))
    ensures RingHolds(job, AfterPush(w, c))
  {
    hide RingOf, Push, Evict;
    RingAfterPush(w.log, w.ctl.capacity, c);
    PushKeepsRun(w.ctl.ring, w.ctl.capacity, c);
    ExtendedIsContiguous(w.log, c);
    assert AllGenuine(job, w.ctl.fileIndex, w.log + [c]);
    assert OnlyTheFinalChunkIsLast(w.log + [c]);
  }

  lemma PushKeepsReceiver(job: Job, w: World, c: RingChunk)
    requires ReceiverHolds(job, w) && LinkHolds(job, w) && !Ended(w.log) && (w.log == [] ==> c.offset == 0)
    ensures ReceiverHolds(job, AfterPush(w, c)) && LinkHolds(job, AfterPush(w, c))
  {
    if |w.done| == w.ctl.fileIndex {
      BoundaryStable(w.log, c, |w.received|);
    }
  }

  /** The pushed chunk is the next one to send. */
  lemma PushKeepsPhase(job: Job, w: World, c: RingChunk)
    requires RingHolds(job, w) && Continues(w) && w.phase.Credited? && !Ended(w.log) && c.offset == Edge(w.log)
    ensures PhaseFits(AfterPush(w, c)) && Continues(AfterPush(w, c))
  {
    assert PosAt(w.ctl.fileIndex, w.log + [c], |w.log|) == PosAt(w.ctl.fileIndex, w.log, |w.log|);
  }

  lemma PushKeepsInv(job: Job, w: World, body: seq<byte>)
    requires Inv(job, w) && Enabled(job, w, PushBody(body))
    ensures Inv(job, After(job, w, PushBody(body)))
  {
    var c := NewChunk(job, w, body);
    assert Genuine(job, Parcel(w.ctl.fileIndex, c));
    PushKeepsRing(job, w, c);
    PushKeepsReceiver(job, w, c);
    PushKeepsPhase(job, w, c);
    hide RingHolds, ReceiverHolds, LinkHolds, PhaseFits, Continues, AfterPush;
  }

  /** Sending the chunk under the cursor extends what is in flight. */
  lemma SendExtendsLink(job: Job, w: World, c: RingChunk)
    requires RingHolds(job, w) && LinkHolds(job, w) && c in w.log
    requires LinkPos(w) == Pos(w.ctl.fileIndex, c.offset)
    ensures LinkHolds(job, w.(link := Send(w, c)))
    ensures LinkPos(w.(link := Send(w, c))) == EndOf(Parcel(w.ctl.fileIndex, c))
  {
  }

  lemma SendKeepsInv(job: Job, w: World)
    requires Inv(job, w) && Enabled(job, w, SendOk)
    ensures Inv(job, After(job, w, SendOk))
  {
    SendExtendsLink(job, w, w.phase.chunk);
  }

  /** After a chunk of the log comes the next one. */
  lemma PosAfter(job: Job, w: World, k: nat)
    requires RingHolds(job, w) && k < |w.log|
    ensures EndOf(Parcel(w.ctl.fileIndex, w.log[k])) == PosAt(w.ctl.fileIndex, w.log, k + 1)
  {
  }

  lemma SuffixTail(log: seq<RingChunk>, k: nat)
    requires k < |log|
    ensures log[k..][0] == log[k] && log[k..][1..] == log[k + 1..] && |log[k..]| == |log| - k
  {
  }

  /** The link and the cursor move together. */
  lemma ReplayMovesOn(job: Job, w: World, v: World)
    requires RingHolds(job, w) && PhaseFits(w) && Continues(w) && Live(w) && w.phase.Replaying? && w.phase.todo != []
    requires v == w.(link := Send(w, w.phase.todo[0]), phase := Replaying(w.phase.todo[1..]))
    ensures PhaseFits(v) && Continues(v)
  {
    var k := Cursor(w);
    SuffixTail(w.log, k);
    PosAfter(job, w, k);
    hide RingHolds, PosAt;
    assert LinkPos(v) == EndOf(Parcel(w.ctl.fileIndex, w.log[k]));
  }

  lemma ReplaySends(job: Job, w: World)
    requires Inv(job, w) && Enabled(job, w, ReplayOk(false))
    ensures Inv(job, After(job, w, ReplayOk(false)))
  {
    var w', k := After(job, w, ReplayOk(false)), Cursor(w);
    SuffixTail(w.log, k);
    SendExtendsLink(job, w, w.log[k]);
    ReplayMovesOn(job, w, w');
    hide RingHolds, ReceiverHolds, LinkHolds, PhaseFits, Continues;
    SameReceiver(job, w, w');
    SameLink(job, w.(link := Send(w, w.log[k])), w');
  }

  lemma ReplayKeepsInv(job: Job, w: World, recorded: bool)
    requires Inv(job, w) && Enabled(job, w, ReplayOk(recorded))
    ensures Inv(job, After(job, w, ReplayOk(recorded)))
  {
    ReplaySends(job, w);
    if recorded {
      var v := After(job, w, ReplayOk(false));
      CountersKeepInv(job, v, RecordSent(w.phase.todo[0].End()));
    }
  }

  lemma ReplayLossKeepsInv(job: Job, w: World, park: bool)
    requires Inv(job, w) && Enabled(job, w, ReplayDisconnected(park))
    ensures Inv(job, After(job, w, ReplayDisconnected(park)))
  {
    var w' := After(job, w, ReplayDisconnected(park));
    hide RingHolds, ReceiverHolds, LinkHolds, Covers, PosAt;
    SuffixTail(w.log, Cursor(w));
    Unmoved(job, w, w');
  }

  /** A genuine parcel that starts where the receiver is gives it what comes next. */
  lemma NextPartIsExact(job: Job, w: World, p: Parcel)
    requires Exact(job, w) && Genuine(job, p) && StartOf(p) == ReceiverPos(w)
    ensures Exact(job, Delivered(job, w, p)) && ReceiverPos(Delivered(job, w, p)) == EndOf(p)
  {
    var file, c := job.files[p.file], p.chunk;
    assert w.received == file[..c.offset];
    assert file[..c.offset] + file[c.offset..c.End()] == file[..c.End()];
    if c.last {
      assert file[..c.End()] == file;
      assert job.files[..p.file + 1] == job.files[..p.file] + [file];
    }
  }

  lemma EndIsBoundary(log: seq<RingChunk>, c: RingChunk)
    requires Contiguous(log) && (log != [] ==> log[0].offset == 0)
    ensures AtBoundary(log, 0) && (c in log ==> AtBoundary(log, c.End()))
  {
    assert Boundary(log, 0) == 0;
    if c in log {
      var j :| 0 <= j < |log| && log[j] == c;
      BoundaryIsOffset(log, j + 1);
      assert Boundary(log, j + 1) == c.End();
    }
  }

  lemma DeliverKeepsReceiver(job: Job, w: World, p: Parcel)
    requires RingHolds(job, w) && ReceiverHolds(job, w) && Pushable(job, w, p) && StartOf(p) == ReceiverPos(w)
    ensures ReceiverHolds(job, Delivered(job, w, p)) && ReceiverPos(Delivered(job, w, p)) == EndOf(p)
  {
    hide AtBoundary, Exact;
    NextPartIsExact(job, w, p);
    EndIsBoundary(w.log, p.chunk);
  }

  lemma LinkTail(link: seq<Parcel>, from: Pos)
    requires Chained(link, from) && link != []
    ensures Chained(link[1..], EndOf(link[0]))
  {
  }

  lemma DeliverKeepsLink(job: Job, w: World, v: World)
    requires LinkHolds(job, w) && w.link != [] && v.link == w.link[1..] && ReceiverPos(v) == EndOf(w.link[0])
    requires v.log == w.log && v.ctl.fileIndex == w.ctl.fileIndex
    ensures LinkHolds(job, v) && LinkPos(v) == LinkPos(w)
  {
    LinkTail(w.link, ReceiverPos(w));
    forall p | p in v.link ensures Pushable(job, v, p) {
      assert p in w.link && Pushable(job, w, p);
    }
  }

  lemma DeliverKeepsPhase(w: World, v: World)
    requires PhaseFits(w) && Continues(w) && w.link != []
    requires v.phase == w.phase && v.up == w.up && v.at == w.at
    requires v.log == w.log && v.ctl == w.ctl && LinkPos(v) == LinkPos(w)
    ensures PhaseFits(v) && Continues(v)
  {
  }

  lemma DeliverKeepsInv(job: Job, w: World)
    requires Inv(job, w) && w.link != []
    ensures Inv(job, After(job, w, Deliver))
  {
    var w' := After(job, w, Deliver);
    FirstStartsAtReceiver(job, w);
    hide RingHolds, ReceiverHolds, LinkHolds, PhaseFits, Continues, Pushable;
    var v := w.(link := w.link[1..]);
    SameReceiver(job, w, v);
    SamePushable(job, w, v);
    DeliverKeepsReceiver(job, v, w.link[0]);
    SameRing(job, w, w');
    DeliverKeepsLink(job, w, w');
    DeliverKeepsPhase(w, w');
  }

  lemma FirstStartsAtReceiver(job: Job, w: World)
    requires Inv(job, w) && w.link != []
    ensures StartOf(w.link[0]) == ReceiverPos(w) && Pushable(job, w, w.link[0])
  {
  }

  lemma SameRing(job: Job, w: World, v: World)
    requires RingHolds(job, w) && v.log == w.log
    requires v.ctl.ring == w.ctl.ring && v.ctl.fileIndex == w.ctl.fileIndex && v.ctl.capacity == w.ctl.capacity
    ensures RingHolds(job, v)
  {
  }

  /** Ring and receiver do not depend on link, phase or counters. */
  lemma SameReceiver(job: Job, w: World, v: World)
    requires RingHolds(job, w) && ReceiverHolds(job, w)
    requires v.log == w.log && v.received == w.received && v.done == w.done
    requires v.ctl.ring == w.ctl.ring && v.ctl.fileIndex == w.ctl.fileIndex && v.ctl.capacity == w.ctl.capacity
    ensures RingHolds(job, v) && ReceiverHolds(job, v)
  {
  }

  lemma DisconnectKeepsInv(job: Job, w: World, survive: nat)
    requires Inv(job, w) && Enabled(job, w, Disconnect(survive))
    ensures Inv(job, After(job, w, Disconnect(survive)))
  {
    assert forall p :: p in w.link[..survive] ==> p in w.link;
  }

  lemma AcceptedResume(c: Control, newPeer: PeerId, file: nat, offset: nat)
    requires ResumeReply(c, file, offset).Ok?
    ensures file == c.fileIndex && Covers(c.ring, offset)
    ensures var d := Apply(c, RequestResume(newPeer, file, offset));
      && d.ring == c.ring && d.fileIndex == c.fileIndex && d.capacity == c.capacity
      && d.peer == Some(newPeer) && d.pending == Some(offset)
  {
  }

  /** With nothing in flight, the cursor decides whether the producer continues. */
  lemma EmptyLinkContinues(w: World)
    requires w.link == [] && Wired(w) && !w.phase.Parked?
    requires w.phase.Stopped? || Aligned(w)
    ensures Continues(w)
  {
    hide PosAt, Cursor;
  }

  /** Unless the producer is parked or stopped, an accepted resume keeps the invariant
      when it finds the producer aligned. */
  lemma ResumeKeepsInv(job: Job, w: World, newPeer: PeerId)
    requires Inv(job, w) && !w.up
    requires Reply(w).Ok? ==> w.phase.Parked? || w.phase.Stopped? || Aligned(w)
    ensures Inv(job, Resumed(w, newPeer))
  {
    hide RingHolds, ReceiverHolds, Covers, PosAt, Apply, ResumeReply;
    if Reply(w).Ok? {
      var v := Resumed(w, newPeer);
      AcceptedResume(w.ctl, newPeer, |w.done|, |w.received|);
      SameReceiver(job, w, v);
      assert LinkHolds(job, v) && PhaseFits(v);
      if !w.phase.Parked? {
        EmptyLinkContinues(v);
      }
    }
  }

  /** What a resume replays is a suffix of what was pushed for the file. */
  lemma ReplayIsLogSuffix(job: Job, w: World, offset: nat) returns (k: nat)
    requires RingHolds(job, w)
    ensures k <= |w.log| && ReplayFrom(w.ctl.ring, offset) == w.log[k..]
    ensures k < |w.log| ==> w.log[k].offset >= offset
    ensures Covers(w.ctl.ring, offset) ==> offset == if k < |w.log| then w.log[k].offset else Edge(w.log)
  {
    var i := RingIsLongestFittingSuffix(w.log, w.ctl.capacity);
    var j := ReplayIsSuffix(w.ctl.ring, offset);
    k := i + j;
    assert w.log[i..][j..] == w.log[k..];
    if Covers(w.ctl.ring, offset) {
      CoveredStart(w.ctl.ring, offset, j);
    }
  }

  /** On a live link the replay starts where the receiver is. */
  lemma ReplayStartsAtReceiver(job: Job, w: World, k: nat)
    requires Inv(job, w) && w.up && w.phase.Parked?
    requires k <= |w.log| && ReplayFrom(w.ctl.ring, |w.received|) == w.log[k..]
    requires |w.received| == if k < |w.log| then w.log[k].offset else Edge(w.log)
    ensures PosAt(w.ctl.fileIndex, w.log, k) == ReceiverPos(w)
  {
    if k == |w.log| && w.log != [] {
      WholeFileIsReplayed(job, w, k);
    }
  }

  lemma WakeKeepsInv(job: Job, w: World)
    requires Inv(job, w) && Enabled(job, w, WakeResumed)
    ensures Inv(job, After(job, w, WakeResumed))
  {
    var w' := After(job, w, WakeResumed);
    var k := ReplayIsLogSuffix(job, w, w.ctl.pending.value);
    if w.up {
      ReplayStartsAtReceiver(job, w, k);
    }
    hide RingHolds, ReceiverHolds, LinkHolds, Covers, PosAt, ReplayFrom, Edge;
    WakeStartsReplay(w, w', k);
    hide PhaseFits, Continues;
    Unmoved(job, w, w');
  }

  lemma WakeStartsReplay(w: World, v: World, k: nat)
    requires Continues(w) && w.phase.Parked? && k <= |w.log|
    requires w.up ==> PosAt(w.ctl.fileIndex, w.log, k) == ReceiverPos(w)
    requires v == w.(ctl := Apply(w.ctl, TakeResume), phase := Replaying(w.log[k..]))
    ensures PhaseFits(v) && Continues(v)
  {
    hide PosAt, Covers;
    SuffixLength(w.log, k);
  }

  lemma SuffixLength(log: seq<RingChunk>, k: nat)
    requires k <= |log|
    ensures |log[k..]| == |log| - k
  {
  }

  /** A receiver short of completing the file is not at its end. */
  lemma WholeFileIsReplayed(job: Job, w: World, k: nat)
    requires Inv(job, w) && w.up && w.phase.Parked? && w.log != []
    requires k == |w.log| && ReplayFrom(w.ctl.ring, |w.received|) == w.log[k..] && |w.received| == Edge(w.log)
    ensures !w.log[|w.log| - 1].last
  {
    var last := w.log[|w.log| - 1];
    assert Genuine(job, Parcel(w.ctl.fileIndex, last));
    var i := RingIsLongestFittingSuffix(w.log, w.ctl.capacity);
    assert w.ctl.ring != [] && w.ctl.ring[|w.ctl.ring| - 1] == last;
    LastIsReplayed(w.ctl.ring, |w.received|);
    assert last.offset < |w.received| < |File(job, w)|;
  }

  lemma {:induction false} LastIsReplayed(cs: seq<RingChunk>, offset: nat)
    requires cs != []
    ensures ReplayFrom(cs, offset) == [] ==> cs[|cs| - 1].offset < offset
  {
    if |cs| > 1 {
      LastIsReplayed(cs[1..], offset);
    }
  }

  lemma AdvanceKeepsInv(job: Job, w: World)
    requires Inv(job, w) && Enabled(job, w, Advance)
    ensures Inv(job, After(job, w, Advance))
  {
    var w' := After(job, w, Advance);
    assert Boundary(w'.log, 0) == 0;
    assert AtBoundary(w'.log, 0);
    assert forall p :: p in w.link ==> Pushable(job, w, p);
  }

  /** Steps that only move the producer between phases. */
  predicate Quiet(e: Event) {
    e.GrantCredit? || e.SendDisconnected? || e.ReplayDone? || e.ParkIdle? || e.Abort?
  }

  /** The sections that only move the counters or cancel. */
  lemma CountersOnly(c: Control, op: Op)
    requires op.RecordSent? || op.RecordAck? || op.Cancel?
    ensures var d := Apply(c, op);
      && d.ring == c.ring && d.pending == c.pending && d.fileIndex == c.fileIndex && d.capacity == c.capacity
      && d.peer == c.peer
  {
  }

  lemma SamePhase(w: World, v: World)
    requires PhaseFits(w) && Continues(w)
    requires v.phase == w.phase && v.up == w.up && v.log == w.log && v.received == w.received && v.done == w.done
    requires v.link == w.link && v.at == w.at && v.ctl.pending == w.ctl.pending && v.ctl.peer == w.ctl.peer
    requires v.ctl.fileIndex == w.ctl.fileIndex && v.ctl.ring == w.ctl.ring
    ensures PhaseFits(v) && Continues(v)
  {
  }

  lemma CountersKeepInv(job: Job, w: World, op: Op)
    requires Inv(job, w) && (op.RecordSent? || op.RecordAck? || op.Cancel?)
    ensures Inv(job, w.(ctl := Apply(w.ctl, op)))
  {
    hide RingHolds, ReceiverHolds, LinkHolds, Continues, PhaseFits, Apply;
    var v := w.(ctl := Apply(w.ctl, op));
    CountersOnly(w.ctl, op);
    SamePhase(w, v);
    Unmoved(job, w, v);
  }

  lemma RecordKeepsInv(job: Job, w: World)
    requires Inv(job, w) && w.phase.Emitted?
    ensures Inv(job, After(job, w, RecordEmitted))
  {
    var op := RecordSent(w.phase.chunk.End());
    CountersKeepInv(job, w, op);
    var w', v := After(job, w, RecordEmitted), w.(ctl := Apply(w.ctl, op));
    hide RingHolds, ReceiverHolds, LinkHolds, Apply, PosAt;
    Unmoved(job, v, w');
  }

  lemma PhaseKeepsInv(job: Job, w: World, phase: Phase)
    requires Inv(job, w) && PhaseFits(w.(phase := phase)) && Continues(w.(phase := phase))
    ensures Inv(job, w.(phase := phase))
  {
    hide RingHolds, ReceiverHolds, LinkHolds, PhaseFits, Continues;
    Unmoved(job, w, w.(phase := phase));
  }

  /** A producer that finds its peer gone parks. */
  lemma ParkKeepsInv(job: Job, w: World)
    requires Inv(job, w) && !Live(w)
    ensures Inv(job, w.(phase := Parked))
  {
    hide RingHolds, ReceiverHolds, LinkHolds;
    PhaseKeepsInv(job, w, Parked);
  }

  lemma GrantKeepsInv(job: Job, w: World, chunkLen: nat)
    requires Inv(job, w) && w.phase.Producing? && !Ended(w.log)
    ensures Inv(job, w.(phase := Credited(chunkLen)))
  {
    hide RingHolds, ReceiverHolds, LinkHolds, PosAt;
    PhaseKeepsInv(job, w, Credited(chunkLen));
  }

  lemma ReplayDoneKeepsInv(job: Job, w: World)
    requires Inv(job, w) && w.phase == Replaying([])
    ensures Inv(job, w.(phase := Producing))
  {
    hide RingHolds, ReceiverHolds, LinkHolds, PosAt;
    PhaseKeepsInv(job, w, Producing);
  }

  lemma AbortKeepsInv(job: Job, w: World)
    requires Inv(job, w)
    ensures Inv(job, w.(phase := Stopped))
  {
    hide RingHolds, ReceiverHolds, LinkHolds, PosAt;
    PhaseKeepsInv(job, w, Stopped);
  }

  /** Nothing but the phase and the counters changed, and the new phase fits. */
  lemma Unmoved(job: Job, w: World, v: World)
    requires Inv(job, w) && PhaseFits(v) && Continues(v)
    requires v.log == w.log && v.received == w.received && v.done == w.done && v.link == w.link
    requires v.ctl.ring == w.ctl.ring && v.ctl.fileIndex == w.ctl.fileIndex && v.ctl.capacity == w.ctl.capacity
    ensures Inv(job, v)
  {
    SameReceiver(job, w, v);
    SameLink(job, w, v);
  }

  lemma SameLink(job: Job, w: World, v: World)
    requires LinkHolds(job, w)
    requires v.log == w.log && v.received == w.received && v.done == w.done && v.link == w.link
    requires v.ctl.fileIndex == w.ctl.fileIndex
    ensures LinkHolds(job, v)
  {
    SamePushable(job, w, v);
  }

  lemma SamePushable(job: Job, w: World, v: World)
    requires v.log == w.log && v.ctl.fileIndex == w.ctl.fileIndex
    ensures forall p :: Pushable(job, w, p) ==> Pushable(job, v, p)
  {
  }

  /** Resumes are accepted only where they do no harm. */
  predicate Harmless(extra: set<Situation>) {
    forall s :: s in extra ==> s.aligned || s.at == AtStop
  }

  lemma StepKeepsInv(p: Policy, job: Job, w: World, e: Event)
    requires Inv(job, w) && Step(p, job, w, e) && Harmless(p.extra)
    ensures Inv(job, After(job, w, e))
  {
    match e
    case GrantCredit(n) => GrantKeepsInv(job, w, n);
    case PushBody(body) => PushKeepsInv(job, w, body);
    case SendOk => SendKeepsInv(job, w);
    case SendDisconnected => ParkKeepsInv(job, w);
    case Deliver => DeliverKeepsInv(job, w);
    case Disconnect(k) => DisconnectKeepsInv(job, w, k);
    case ResumeFromReceiver(peer) => ResumeKeepsInv(job, w, peer);
    case WakeResumed => WakeKeepsInv(job, w);
    case ReplayOk(recorded) => ReplayKeepsInv(job, w, recorded);
    case ReplayDisconnected(park) => ReplayLossKeepsInv(job, w, park);
    case Advance => AdvanceKeepsInv(job, w);
    case RecordEmitted => RecordKeepsInv(job, w);
    case Handler(op) => CountersKeepInv(job, w, op);
    case ReplayDone => ReplayDoneKeepsInv(job, w);
    case ParkIdle => ParkKeepsInv(job, w);
    case Abort => AbortKeepsInv(job, w);
  }

  lemma StartHolds(job: Job, window: nat, capacity: nat, peer: PeerId)
    requires job.files != []
    ensures Inv(job, Start(window, capacity, peer))
  {
    assert Boundary([], 0) == 0;
    assert AtBoundary([], 0);
  }

  lemma {:induction false} RunKeepsInv(p: Policy, job: Job, w: World, events: seq<Event>)
    requires Inv(job, w) && IsRun(p, job, w, events) && Harmless(p.extra)
    ensures Inv(job, Final(p, job, w, events))
    decreases |events|
  {
    if events != [] {
      StepKeepsInv(p, job, w, events[0]);
      RunKeepsInv(p, job, After(job, w, events[0]), events[1..]);
    }
  }

  /** Exactly-once, in-order delivery: in every run, over any drops and any number of
      reconnects, as long as an accepted resume finds the producer parked, stopped or
      about to send what the receiver needs next. */
  lemma DeliveryIsExactlyOnce(p: Policy, job: Job, window: nat, capacity: nat, peer: PeerId, events: seq<Event>)
    requires Harmless(p.extra)
    requires job.files != [] && IsRun(p, job, Start(window, capacity, peer), events)
    ensures Exact(job, Final(p, job, Start(window, capacity, peer), events))
  {
    StartHolds(job, window, capacity, peer);
    RunKeepsInv(p, job, Start(window, capacity, peer), events);
  }

  /** When a file completes: with the link up and drained and the producer between
      chunks, the receiver has the producer's file exactly when its last chunk was
      emitted, and otherwise has all that was emitted of it. */
  lemma FileCompletesWithItsLastChunk(job: Job, w: World)
    requires Inv(job, w) && w.up && w.link == [] && w.phase.Producing?
    ensures |w.done| == if Ended(w.log) then w.ctl.fileIndex + 1 else w.ctl.fileIndex
    ensures !Ended(w.log) ==> |w.received| == Edge(w.log)
  {
  }

  // ---- building runs ------------------------------------------------------

  predicate Goes(p: Policy, job: Job, w: World, e: Event, v: World) {
    Step(p, job, w, e) && After(job, w, e) == v
  }

  ghost predicate Reaches(p: Policy, job: Job, w: World, events: seq<Event>, v: World) {
    IsRun(p, job, w, events) && Final(p, job, w, events) == v
  }

  lemma First(p: Policy, job: Job, w: World, e: Event, v: World, events: seq<Event>, end: World)
    requires Goes(p, job, w, e, v) && Reaches(p, job, v, events, end)
    ensures Reaches(p, job, w, [e] + events, end)
  {
    assert ([e] + events)[1..] == events;
  }

  lemma {:induction false} Both(
    p: Policy, job: Job, u: World, xs: seq<Event>, v: World, ys: seq<Event>, w: World)
    requires Reaches(p, job, u, xs, v) && Reaches(p, job, v, ys, w)
    ensures Reaches(p, job, u, xs + ys, w)
    decreases |xs|
  {
    hide After, Enabled, Allowed;
    if xs == [] {
      assert xs + ys == ys;
    } else {
      var u' := After(job, u, xs[0]);
      assert Reaches(p, job, u', xs[1..], v);
      Both(p, job, u', xs[1..], v, ys, w);
      assert Goes(p, job, u, xs[0], u');
      First(p, job, u, xs[0], u', xs[1..] + ys, w);
      assert xs + ys == [xs[0]] + (xs[1..] + ys);
    }
  }

  lemma TwoSteps(p: Policy, job: Job, u: World, e: Event, v: World, f: Event, w: World)
    requires Goes(p, job, u, e, v) && Goes(p, job, v, f, w)
    ensures Reaches(p, job, u, [e, f], w)
  {
    hide Goes;
    First(p, job, v, f, w, [], w);
    First(p, job, u, e, v, [f] + [], w);
    assert [e] + ([f] + []) == [e, f];
  }
}
