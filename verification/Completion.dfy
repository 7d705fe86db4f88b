/** Whether a transfer can always be completed, and when a receiver is left behind. */
module Completion {
  import opened Common
  import opened Replay
  import opened Transfer
  import opened Delivery
  import opened Recovery

  // ---- continuations ------------------------------------------------------

  /** ACKs are truthful: a file the receiver completed, or data of its current file
      that it has. A chunk is empty only to end an empty file. */
  predicate Sensible(job: Job, w: World, e: Event)
    requires w.ctl.fileIndex < |job.files|
  {
    match e
    case Handler(op) =>
      op.RecordAck? ==> op.ackFile < |w.done| || (op.ackFile == |w.done| && op.through <= |w.received|)
    case GrantCredit(n) => n > 0 || Edge(w.ctl.ring) == |File(job, w)|
    case _ => true
  }

  /** A sensible run from `w` to `v`. */
  ghost predicate Leads(p: Policy, job: Job, w: World, events: seq<Event>, v: World)
    decreases |events|
  {
    if events == [] then v == w
    else
      && Step(p, job, w, events[0]) && Sensible(job, w, events[0])
      && Leads(p, job, After(job, w, events[0]), events[1..], v)
  }

  /** Every slice of every file can be encoded. */
  ghost predicate Encodable(job: Job) {
    forall x: seq<byte> :: Encoded(job, x)
  }

  ghost predicate Encoded(job: Job, x: seq<byte>) {
    exists body :: job.decode(body) == x
  }

  /** The receiver lacks something, and no sensible continuation gives it anything. */
  ghost predicate LeftBehind(p: Policy, job: Job, w: World) {
    && |w.done| < |job.files|
    && forall events: seq<Event>, v: World | Leads(p, job, w, events, v) ::
         v.done == w.done && v.received == w.received
  }

  /** The bodies the receiver needs are no longer in the ring. */
  predicate OutOfWindow(w: World) {
    !w.up && |w.done| == w.ctl.fileIndex && !Covers(w.ctl.ring, |w.received|)
  }

  /** The transfer was given up. */
  predicate GivenUp(w: World) {
    w.ctl.cancelled.Some? || w.phase.Stopped? || OutOfWindow(w)
  }

  lemma LeadsFirst(p: Policy, job: Job, w: World, e: Event, events: seq<Event>, v: World)
    requires Step(p, job, w, e) && Sensible(job, w, e) && Leads(p, job, After(job, w, e), events, v)
    ensures Leads(p, job, w, [e] + events, v)
  {
    assert ([e] + events)[1..] == events;
  }

  lemma {:induction false} LeadsOn(
    p: Policy, job: Job, u: World, xs: seq<Event>, v: World, ys: seq<Event>, w: World)
    requires Leads(p, job, u, xs, v) && Leads(p, job, v, ys, w)
    ensures Leads(p, job, u, xs + ys, w)
    decreases |xs|
  {
    hide After, Enabled, Allowed, Sensible;
    if xs == [] {
      assert xs + ys == ys;
    } else {
      LeadsOn(p, job, After(job, u, xs[0]), xs[1..], v, ys, w);
      LeadsFirst(p, job, u, xs[0], xs[1..] + ys, w);
      assert xs + ys == [xs[0]] + (xs[1..] + ys);
    }
  }

  lemma {:induction false} PlainRunLeads(p: Policy, job: Job, w: World, events: seq<Event>, v: World)
    requires Reaches(p, job, w, events, v) && Plain(events)
    ensures Leads(p, job, w, events, v)
    decreases |events|
  {
    hide After, Enabled, Allowed;
    if events != [] {
      assert Plain(events[1..]);
      PlainRunLeads(p, job, After(job, w, events[0]), events[1..], v);
    }
  }

  // ---- what every run keeps -----------------------------------------------

  /** Nothing is recorded that was not pushed, and credit is asked for what is left. */
  predicate Counted(job: Job, w: World) {
    && w.ctl.fileIndex < |job.files|
    && w.ctl.acked <= w.ctl.sent <= Edge(w.ctl.ring)
    && (w.phase.Credited? ==> Edge(w.ctl.ring) + w.phase.chunkLen <= |File(job, w)|)
  }

  ghost predicate Sound(job: Job, w: World) {
    Inv(job, w) && Counted(job, w)
  }

  lemma ChunkEndsByEdge(job: Job, w: World, c: RingChunk)
    requires RingHolds(job, w) && c in w.log
    ensures c.End() <= Edge(w.ctl.ring)
  {
    var i :| 0 <= i < |w.log| && w.log[i] == c;
    OffsetsAscend(w.log, i, |w.log| - 1);
  }

  lemma RecordStaysCounted(job: Job, w: World)
    requires RingHolds(job, w) && PhaseFits(w) && Counted(job, w) && w.phase.Emitted?
    ensures Counted(job, After(job, w, RecordEmitted))
  {
    ChunkEndsByEdge(job, w, w.phase.chunk);
  }

  lemma ReplayStaysCounted(job: Job, w: World, recorded: bool)
    requires RingHolds(job, w) && PhaseFits(w) && Counted(job, w) && Enabled(job, w, ReplayOk(recorded))
    ensures Counted(job, After(job, w, ReplayOk(recorded)))
  {
    SuffixTail(w.log, Cursor(w));
    ChunkEndsByEdge(job, w, w.phase.todo[0]);
  }

  lemma PushStaysCounted(job: Job, w: World, body: seq<byte>)
    requires RingHolds(job, w) && Counted(job, w) && Enabled(job, w, PushBody(body))
    ensures Counted(job, After(job, w, PushBody(body)))
  {
    PushKeepsRun(w.ctl.ring, w.ctl.capacity, NewChunk(job, w, body));
  }

  lemma OthersStayCounted(job: Job, w: World, e: Event)
    requires Counted(job, w) && Enabled(job, w, e)
    requires !e.RecordEmitted? && !e.ReplayOk? && !e.PushBody?
    ensures Counted(job, After(job, w, e))
  {
  }

  lemma StepKeepsSound(p: Policy, job: Job, w: World, e: Event)
    requires Sound(job, w) && Step(p, job, w, e) && Harmless(p.extra)
    ensures Sound(job, After(job, w, e))
  {
    StepKeepsInv(p, job, w, e);
    hide RingHolds, ReceiverHolds, LinkHolds, PhaseFits, Continues, Counted, Harmless;
    match e
    case RecordEmitted => RecordStaysCounted(job, w);
    case ReplayOk(recorded) => ReplayStaysCounted(job, w, recorded);
    case PushBody(body) => PushStaysCounted(job, w, body);
    case _ => OthersStayCounted(job, w, e);
  }

  lemma {:induction false} LeadsKeepsSound(p: Policy, job: Job, w: World, events: seq<Event>, v: World)
    requires Sound(job, w) && Leads(p, job, w, events, v) && Harmless(p.extra)
    ensures Sound(job, v)
    decreases |events|
  {
    if events != [] {
      StepKeepsSound(p, job, w, events[0]);
      LeadsKeepsSound(p, job, After(job, w, events[0]), events[1..], v);
    }
  }

  lemma {:induction false} RunKeepsSound(p: Policy, job: Job, w: World, events: seq<Event>)
    requires Sound(job, w) && IsRun(p, job, w, events) && Harmless(p.extra)
    ensures Sound(job, Final(p, job, w, events))
    decreases |events|
  {
    if events != [] {
      StepKeepsSound(p, job, w, events[0]);
      RunKeepsSound(p, job, After(job, w, events[0]), events[1..]);
    }
  }

  lemma One(p: Policy, job: Job, w: World, e: Event) returns (v: World)
    requires Sound(job, w) && Harmless(p.extra) && Step(p, job, w, e) && Sensible(job, w, e)
    ensures v == After(job, w, e) && Sound(job, v) && Leads(p, job, w, [e], v)
  {
    StepKeepsSound(p, job, w, e);
    v := After(job, w, e);
    LeadsFirst(p, job, w, e, [], v);
    assert [e] + [] == [e];
  }

  // ---- completing the job -------------------------------------------------

  /** Between chunks on a live link with nothing in flight. */
  predicate Calm(w: World) {
    w.phase.Producing? && w.up && w.link == [] && w.ctl.cancelled.None?
  }

  /** Everything in flight arrives. */
  lemma {:induction false} Drain(p: Policy, job: Job, w: World) returns (events: seq<Event>, v: World)
    requires Sound(job, w) && Harmless(p.extra)
    ensures Leads(p, job, w, events, v) && Sound(job, v)
    ensures v.link == [] && v.phase == w.phase && v.up == w.up && v.ctl == w.ctl && v.log == w.log
    ensures |v.done| >= |w.done| && (|v.done| == |w.done| ==> |v.received| >= |w.received|)
    decreases |w.link|
  {
    if w.link == [] {
      events, v := [], w;
    } else {
      var u := One(p, job, w, Deliver);
      var rest: seq<Event>;
      rest, v := Drain(p, job, u);
      LeadsOn(p, job, w, [Deliver], u, rest, v);
      events := [Deliver] + rest;
    }
  }

  /** A boundary after a retained one is retained. */
  lemma StillCovered(job: Job, w: World, offset: nat, later: nat)
    requires RingHolds(job, w) && Covers(w.ctl.ring, offset) && AtBoundary(w.log, later) && offset <= later
    ensures Covers(w.ctl.ring, later)
  {
    var k := RingIsLongestFittingSuffix(w.log, w.ctl.capacity);
    var i :| 0 <= i <= |w.log| && Boundary(w.log, i) == later;
    BoundaryIsOffset(w.log, i);
    if k < |w.log| {
      RingStartsBy(w.ctl.ring, offset);
      if k <= i < |w.log| {
        assert w.ctl.ring[i - k].offset == later;
      } else if i < k {
        OffsetsAscend(w.log, i, k);
        assert w.ctl.ring[0] == w.log[k];
      }
    }
  }

  lemma RingStartsBy(ring: seq<RingChunk>, offset: nat)
    requires Contiguous(ring) && ring != [] && Covers(ring, offset)
    ensures ring[0].offset <= offset
  {
    if i :| 0 <= i < |ring| && ring[i].offset == offset {
      OffsetsAscend(ring, 0, i);
    } else {
      OffsetsAscend(ring, 0, |ring| - 1);
    }
  }

  /** What parking does not touch. */
  predicate SameStand(w: World, v: World) {
    && v.link == w.link && v.up == w.up && v.log == w.log && v.done == w.done && v.received == w.received
    && v.ctl.ring == w.ctl.ring && v.ctl.fileIndex == w.ctl.fileIndex && v.ctl.cancelled == w.ctl.cancelled
  }

  /** A replay on a dead link ends, one way or the other, */
  lemma {:induction false} AbandonReplay(p: Policy, job: Job, w: World) returns (events: seq<Event>, v: World)
    requires Sound(job, w) && Harmless(p.extra) && !w.up && w.phase.Replaying?
    ensures Leads(p, job, w, events, v) && Sound(job, v) && SameStand(w, v)
    ensures v.phase.Parked? || v.phase.Producing?
    decreases |w.phase.todo|
  {
    var e := if w.phase.todo == [] then ReplayDone else ReplayDisconnected(p.parks);
    v := One(p, job, w, e);
    events := [e];
    if v.phase.Replaying? {
      var rest: seq<Event>, u := [], v;
      rest, v := AbandonReplay(p, job, u);
      LeadsOn(p, job, w, [e], u, rest, v);
      events := [e] + rest;
    }
  }

  lemma ToParkedOrIdle(p: Policy, job: Job, w: World) returns (events: seq<Event>, v: World)
    requires Sound(job, w) && Harmless(p.extra) && !w.up && !w.phase.Stopped?
    ensures Leads(p, job, w, events, v) && Sound(job, v) && SameStand(w, v)
    ensures v.phase.Parked? || v.phase.Producing? || v.phase.Credited?
  {
    match w.phase
    case Pushed(_) =>
      v := One(p, job, w, SendDisconnected);
      events := [SendDisconnected];
    case Emitted(_) =>
      v := One(p, job, w, RecordEmitted);
      events := [RecordEmitted];
    case Replaying(_) =>
      events, v := AbandonReplay(p, job, w);
    case _ =>
      events, v := [], w;
  }

  /** and a producer that looks parks from wherever it is. */
  lemma ParkDown(p: Policy, job: Job, w: World) returns (events: seq<Event>, v: World)
    requires Sound(job, w) && Harmless(p.extra) && p.looks && !w.up && !w.phase.Stopped?
    ensures Leads(p, job, w, events, v) && Sound(job, v) && SameStand(w, v) && v.phase.Parked?
  {
    var u: World;
    events, u := ToParkedOrIdle(p, job, w);
    v := u;
    if !u.phase.Parked? {
      v := One(p, job, u, ParkIdle);
      LeadsOn(p, job, w, events, u, [ParkIdle], v);
      events := events + [ParkIdle];
    }
  }

  lemma ReplayThenCalm(p: Policy, job: Job, u: World, events: seq<Event>, w: World) returns (all: seq<Event>, v: World)
    requires Leads(p, job, u, events, w) && Sound(job, w) && Harmless(p.extra)
    requires w.phase == Replaying([]) && w.up && w.link == [] && w.ctl.cancelled.None?
    ensures Leads(p, job, u, all, v) && Sound(job, v) && Calm(v)
    ensures v.done == w.done && v.ctl.fileIndex == w.ctl.fileIndex
  {
    v := One(p, job, w, ReplayDone);
    LeadsOn(p, job, u, events, w, [ReplayDone], v);
    all := events + [ReplayDone];
  }

  /** A parked producer that accepts the resume ends up calm. */
  lemma ComeBack(p: Policy, job: Job, w: World) returns (events: seq<Event>, v: World)
    requires Sound(job, w) && Harmless(p.extra) && w.phase.Parked? && !w.up && Reply(w).Ok?
    ensures Leads(p, job, w, events, v) && Sound(job, v) && Calm(v)
  {
    var u: World;
    hide Counted, Inv;
    assert Inv(job, w);
    events, u := RecoveryCatchesUp(p, job, w, 0);
    PlainRunLeads(p, job, w, events, u);
    LeadsKeepsSound(p, job, w, events, u);
    events, v := ReplayThenCalm(p, job, w, events, u);
  }

  /** On a dead link: park, hear of a completed file, resume, replay. */
  lemma SettleDown(p: Policy, job: Job, w: World) returns (events: seq<Event>, v: World)
    requires Sound(job, w) && Harmless(p.extra) && p.looks && !w.up && w.link == [] && !GivenUp(w)
    requires |w.done| >= w.ctl.fileIndex && |w.done| < |job.files|
    ensures Leads(p, job, w, events, v) && Sound(job, v) && Calm(v)
  {
    var u: World;
    events, u := ParkDown(p, job, w);
    if |u.done| == u.ctl.fileIndex + 1 {
      var a := One(p, job, u, Advance);
      LeadsOn(p, job, w, events, u, [Advance], a);
      events, u := events + [Advance], a;
    }
    assert Reply(u).Ok?;
    var rest: seq<Event>;
    rest, v := ComeBack(p, job, u);
    LeadsOn(p, job, w, events, u, rest, v);
    events := events + rest;
  }

  /** A pushed chunk goes out, is recorded and arrives. */
  lemma SendOut(p: Policy, job: Job, w: World) returns (events: seq<Event>, v: World)
    requires Sound(job, w) && Harmless(p.extra) && w.phase.Pushed? && w.up && w.link == [] && w.ctl.cancelled.None?
    ensures Leads(p, job, w, events, v) && Sound(job, v) && Calm(v)
    ensures v.log == w.log && v.ctl.fileIndex == w.ctl.fileIndex
  {
    var sent := One(p, job, w, SendOk);
    var recorded := One(p, job, sent, RecordEmitted);
    v := One(p, job, recorded, Deliver);
    LeadsOn(p, job, w, [SendOk], sent, [RecordEmitted], recorded);
    LeadsOn(p, job, w, [SendOk] + [RecordEmitted], recorded, [Deliver], v);
    events := [SendOk] + [RecordEmitted] + [Deliver];
  }

  lemma PushNext(p: Policy, job: Job, w: World) returns (body: seq<byte>, v: World)
    requires Sound(job, w) && Harmless(p.extra) && Encodable(job) && w.phase.Credited?
    ensures Leads(p, job, w, [PushBody(body)], v) && Sound(job, v) && v.phase.Pushed?
    ensures v.up == w.up && v.link == w.link
    ensures v.ctl.cancelled == w.ctl.cancelled && v.ctl.fileIndex == w.ctl.fileIndex
    ensures v.log != [] && v.log[|v.log| - 1].last == (Edge(w.ctl.ring) + w.phase.chunkLen == |File(job, w)|)
  {
    var edge := Edge(w.ctl.ring);
    var slice := File(job, w)[edge..edge + w.phase.chunkLen];
    assert Encoded(job, slice);
    body :| job.decode(body) == slice;
    v := One(p, job, w, PushBody(body));
  }

  lemma PushOut(p: Policy, job: Job, w: World) returns (events: seq<Event>, v: World)
    requires Sound(job, w) && Harmless(p.extra) && Encodable(job)
    requires w.phase.Credited? && w.up && w.link == [] && w.ctl.cancelled.None?
    ensures Leads(p, job, w, events, v) && Sound(job, v) && Calm(v) && v.ctl.fileIndex == w.ctl.fileIndex
    ensures v.log != [] && v.log[|v.log| - 1].last == (Edge(w.ctl.ring) + w.phase.chunkLen == |File(job, w)|)
  {
    hide Inv, Leads, Harmless, Encodable;
    var body, u := PushNext(p, job, w);
    var rest: seq<Event>;
    rest, v := SendOut(p, job, u);
    LeadsOn(p, job, w, [PushBody(body)], u, rest, v);
    events := [PushBody(body)] + rest;
  }

  lemma ReplayUp(p: Policy, job: Job, w: World) returns (events: seq<Event>, v: World)
    requires Sound(job, w) && Harmless(p.extra)
    requires w.phase.Replaying? && w.phase.todo != [] && w.up && w.link == [] && w.ctl.cancelled.None?
    ensures Leads(p, job, w, events, v) && Sound(job, v) && Calm(v)
  {
    var u: World;
    hide Counted, Inv;
    assert Inv(job, w);
    events, u := ReplayCatchesUp(p, job, w);
    PlainRunLeads(p, job, w, events, u);
    LeadsKeepsSound(p, job, w, events, u);
    events, v := ReplayThenCalm(p, job, w, events, u);
  }

  lemma WakeUp(p: Policy, job: Job, w: World) returns (events: seq<Event>, v: World)
    requires Sound(job, w) && Harmless(p.extra) && w.phase.Parked? && w.up && w.link == [] && w.ctl.cancelled.None?
    ensures Leads(p, job, w, events, v) && Sound(job, v) && Calm(v)
  {
    var u := One(p, job, w, WakeResumed);
    if u.phase.todo == [] {
      events, v := ReplayThenCalm(p, job, w, [WakeResumed], u);
    } else {
      var rest: seq<Event>;
      rest, v := ReplayUp(p, job, u);
      LeadsOn(p, job, w, [WakeResumed], u, rest, v);
      events := [WakeResumed] + rest;
    }
  }

  /** On a live link the producer finishes what it is at. */
  lemma SettleUp(p: Policy, job: Job, w: World) returns (events: seq<Event>, v: World)
    requires Sound(job, w) && Harmless(p.extra) && Encodable(job)
    requires w.up && w.link == [] && w.ctl.cancelled.None? && !w.phase.Stopped?
    ensures Leads(p, job, w, events, v) && Sound(job, v) && Calm(v)
  {
    match w.phase
    case Producing =>
      events, v := [], w;
    case Credited(_) =>
      events, v := PushOut(p, job, w);
    case Pushed(_) =>
      events, v := SendOut(p, job, w);
    case Emitted(_) =>
      v := One(p, job, w, RecordEmitted);
      events := [RecordEmitted];
    case Parked =>
      events, v := WakeUp(p, job, w);
    case Replaying(todo) =>
      if todo == [] {
        events, v := ReplayThenCalm(p, job, w, [], w);
      } else {
        events, v := ReplayUp(p, job, w);
      }
  }

  lemma StaysInWindow(job: Job, w: World, v: World)
    requires Sound(job, w) && Sound(job, v) && !GivenUp(w)
    requires v.phase == w.phase && v.up == w.up && v.ctl == w.ctl && v.log == w.log
    requires |w.done| >= w.ctl.fileIndex
    requires |v.done| >= |w.done| && (|v.done| == |w.done| ==> |v.received| >= |w.received|)
    ensures !GivenUp(v)
  {
    if !v.up && |v.done| == v.ctl.fileIndex {
      StillCovered(job, w, |w.received|, |v.received|);
    }
  }

  /** Whatever has happened, unless the transfer was given up or is complete, the
      producer can come to rest on a live link. */
  lemma Settle(p: Policy, job: Job, w: World) returns (events: seq<Event>, v: World)
    requires Sound(job, w) && Harmless(p.extra) && Encodable(job) && p.looks && !GivenUp(w)
    requires |w.done| >= w.ctl.fileIndex
    ensures Leads(p, job, w, events, v) && Sound(job, v) && (Calm(v) || |v.done| == |job.files|)
  {
    var u: World;
    events, u := Drain(p, job, w);
    StaysInWindow(job, w, u);
    v := u;
    if |u.done| < |job.files| {
      var rest: seq<Event>;
      if u.up {
        rest, v := SettleUp(p, job, u);
      } else {
        rest, v := SettleDown(p, job, u);
      }
      LeadsOn(p, job, w, events, u, rest, v);
      events := events + rest;
    }
  }

  /** An ACK of all it has frees the whole window, and the rest of the file is sent
      as one chunk. */
  lemma FinishFile(p: Policy, job: Job, w: World) returns (events: seq<Event>, v: World)
    requires Sound(job, w) && Harmless(p.extra) && Encodable(job) && Calm(w) && !Ended(w.log)
    ensures Leads(p, job, w, events, v) && Sound(job, v) && Calm(v)
    ensures v.ctl.fileIndex == w.ctl.fileIndex && |v.done| == w.ctl.fileIndex + 1
  {
    FileCompletesWithItsLastChunk(job, w);
    var ack, n := Handler(RecordAck(w.ctl.fileIndex, |w.received|)), |File(job, w)| - Edge(w.ctl.ring);
    var acked := One(p, job, w, ack);
    var credited := One(p, job, acked, GrantCredit(n));
    LeadsOn(p, job, w, [ack], acked, [GrantCredit(n)], credited);
    var rest: seq<Event>;
    rest, v := PushOut(p, job, credited);
    LeadsOn(p, job, w, [ack] + [GrantCredit(n)], credited, rest, v);
    events := [ack] + [GrantCredit(n)] + rest;
    FileCompletesWithItsLastChunk(job, v);
  }

  lemma NextFile(p: Policy, job: Job, w: World) returns (events: seq<Event>, v: World)
    requires Sound(job, w) && Harmless(p.extra) && Calm(w) && |w.done| < |job.files|
    ensures Leads(p, job, w, events, v) && Sound(job, v) && Calm(v) && !Ended(v.log)
    ensures v.done == w.done && v.ctl.fileIndex == |w.done|
  {
    FileCompletesWithItsLastChunk(job, w);
    events, v := [], w;
    if Ended(w.log) {
      v := One(p, job, w, Advance);
      events := [Advance];
    }
  }

  lemma {:induction false} FinishJob(p: Policy, job: Job, w: World) returns (events: seq<Event>, v: World)
    requires Sound(job, w) && Harmless(p.extra) && Encodable(job) && Calm(w)
    ensures Leads(p, job, w, events, v) && v.done == job.files
    decreases |job.files| - |w.done|
  {
    if |w.done| == |job.files| {
      assert job.files[..|job.files|] == job.files;
      events, v := [], w;
    } else {
      var x, y: World;
      events, x := NextFile(p, job, w);
      var rest: seq<Event>;
      rest, y := FinishFile(p, job, x);
      LeadsOn(p, job, w, events, x, rest, y);
      events := events + rest;
      rest, v := FinishJob(p, job, y);
      LeadsOn(p, job, w, events, y, rest, v);
      events := events + rest;
    }
  }

  /** From every state a waiting, looking producer can reach without giving up, some
      sensible continuation delivers the whole job. */
  lemma JobCanComplete(p: Policy, job: Job, w: World) returns (events: seq<Event>, v: World)
    requires Sound(job, w) && Harmless(p.extra) && Encodable(job) && p.looks && !GivenUp(w)
    requires |w.done| >= w.ctl.fileIndex
    ensures Leads(p, job, w, events, v) && v.done == job.files
  {
    var u: World;
    events, u := Settle(p, job, w);
    v := u;
    if Calm(u) {
      var rest: seq<Event>;
      rest, v := FinishJob(p, job, u);
      LeadsOn(p, job, w, events, u, rest, v);
      events := events + rest;
    } else {
      assert job.files[..|job.files|] == job.files;
    }
  }
}
