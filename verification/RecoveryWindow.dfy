/** The credit window through disconnects, resumes and replays.

    The lifecycle says when to record a body that is sent for the first time. It does
    not say whether a replayed body is recorded, or what to do when a replay is cut
    off. The window bound depends on both. */
module RecoveryWindow {
  import opened Common
  import opened Replay
  import opened Transfer
  import opened Delivery

  /** The length of the most recently pushed chunk of the file. */
  function LastLen(log: seq<RingChunk>): nat {
    if log == [] then 0 else log[|log| - 1].dataLen
  }

  /** Emitted but unacknowledged bytes fit the window or are one chunk. */
  predicate WithinWindow(w: World) {
    w.ctl.acked <= w.ctl.sent && w.ctl.sent - w.ctl.acked <= Max(w.ctl.window, LastLen(w.log))
  }

  // ---- the link, whatever the receiver has made of it ---------------------

  // Early resumes may have garbled the receiver's data. The bound needs less than
  // exact data: that the receiver has counted no further than the producer has sent.

  /** `a` is at or before `b`. */
  predicate Upto(a: Pos, b: Pos) {
    a.file < b.file || (a.file == b.file && a.offset <= b.offset)
  }

  function NextToSend(w: World): Pos {
    PosAt(w.ctl.fileIndex, w.log, Cursor(w))
  }

  predicate Sending(w: World) {
    w.up && !w.phase.Parked? && !w.phase.Stopped?
  }

  /** What is in flight was sent in order, and what is sent next continues it. */
  ghost predicate LinkTracked(job: Job, w: World) {
    && (forall p :: p in w.link ==> Pushable(job, w, p))
    && (forall i :: 0 < i < |w.link| ==> StartOf(w.link[i]) == EndOf(w.link[i - 1]))
    && (Sending(w) && w.link != [] ==> EndOf(w.link[|w.link| - 1]) == NextToSend(w))
  }

  /** The receiver has counted no further than what arrives next. */
  predicate NotAhead(w: World) {
    && Wired(w)
    && (w.link != [] ==> Upto(ReceiverPos(w), StartOf(w.link[0])))
    && (Sending(w) && w.link == [] ==> Upto(ReceiverPos(w), NextToSend(w)))
    && (w.up && w.phase.Parked? ==>
          && w.link == [] && w.ctl.pending == Some(|w.received|)
          && |w.done| == w.ctl.fileIndex && Covers(w.ctl.ring, |w.received|))
  }

  ghost predicate Tracked(job: Job, w: World) {
    RingHolds(job, w) && PhaseFits(w) && LinkTracked(job, w) && NotAhead(w)
  }

  // ---- the counters -------------------------------------------------------

  /** Everything pushed and not acknowledged fits the window or is one chunk. */
  predicate Fits(w: World) {
    && Bounded(w.ctl) && w.ctl.sent <= Edge(w.ctl.ring)
    && Edge(w.ctl.ring) - w.ctl.acked <= Max(w.ctl.window, LastLen(w.log))
  }

  /** How far `sent` has come in each phase. */
  predicate Reached(w: World) {
    match w.phase
    case Producing => w.ctl.sent == Edge(w.ctl.ring)
    case Credited(n) => w.ctl.sent == Edge(w.ctl.ring) && CreditOpen(w.ctl, n)
    case Pushed(c) => w.ctl.sent == c.offset
    case Replaying(todo) => todo == [] ==> w.ctl.sent == Edge(w.ctl.ring)
    case _ => true
  }

  /** Between a send and its record, and after a stop, `sent` lags. */
  predicate Lags(w: World) {
    w.phase.Emitted? || w.phase.Stopped?
  }

  /** Neither the link nor the receiver is ahead of what was pushed, or, unless `sent`
      lags, of what was recorded. */
  ghost predicate Recorded(w: World) {
    var f, g := w.ctl.fileIndex, |w.done|;
    var limit := if Lags(w) then Edge(w.ctl.ring) else w.ctl.sent;
    && (forall p :: p in w.link && p.file == f ==> p.chunk.End() <= limit)
    && g <= f + 1
    && (g == f ==> |w.received| <= limit)
    && (g == f + 1 ==> w.received == [] && Ended(w.log) && limit == Edge(w.ctl.ring))
  }

  /** A staged resume, however old, is at a boundary that was recorded. */
  ghost predicate Staged(w: World) {
    w.ctl.pending.Some? && !w.phase.Stopped? ==>
      AtBoundary(w.log, w.ctl.pending.value) && (!Lags(w) ==> w.ctl.pending.value <= w.ctl.sent)
  }

  ghost predicate Within(w: World) {
    Fits(w) && Reached(w) && Recorded(w) && Staged(w)
  }

  ghost predicate Steady(job: Job, w: World) {
    Tracked(job, w) && Within(w)
  }

  lemma BoundaryEndsByEdge(log: seq<RingChunk>, offset: nat)
    requires Contiguous(log) && AtBoundary(log, offset)
    ensures offset <= Edge(log)
    ensures log != [] && offset > log[|log| - 1].offset ==> offset == Edge(log)
  {
    var i :| 0 <= i <= |log| && Boundary(log, i) == offset;
    BoundaryIsOffset(log, i);
    if i < |log| {
      OffsetsAscend(log, i, |log| - 1);
    }
  }

  lemma PushedEndsByEdge(log: seq<RingChunk>, c: RingChunk)
    requires Contiguous(log) && c in log
    ensures c.End() <= Edge(log)
  {
    var i :| 0 <= i < |log| && log[i] == c;
    OffsetsAscend(log, i, |log| - 1);
  }

  lemma CoveredIsBoundary(job: Job, w: World, offset: nat)
    requires RingHolds(job, w) && Covers(w.ctl.ring, offset)
    ensures AtBoundary(w.log, offset)
  {
    var k := RingIsLongestFittingSuffix(w.log, w.ctl.capacity);
    if i :| 0 <= i < |w.ctl.ring| && w.ctl.ring[i].offset == offset {
      BoundaryIsOffset(w.log, k + i);
      assert Boundary(w.log, k + i) == offset;
    } else {
      BoundaryIsOffset(w.log, |w.log|);
      assert Boundary(w.log, |w.log|) == offset;
    }
  }

  // ---- every step keeps both ----------------------------------------------

  lemma PushStaysSteady(job: Job, w: World, body: seq<byte>)
    requires Steady(job, w) && Enabled(job, w, PushBody(body))
    ensures Steady(job, After(job, w, PushBody(body)))
  {
    var c := NewChunk(job, w, body);
    assert Genuine(job, Parcel(w.ctl.fileIndex, c));
    PushKeepsRing(job, w, c);
    PushStaysTracked(job, w, c);
    PushStaysWithin(job, w, c);
  }

  lemma PushStaysTracked(job: Job, w: World, c: RingChunk)
    requires Tracked(job, w) && w.phase.Credited? && c.offset == Edge(w.log)
    ensures PhaseFits(AfterPush(w, c)) && LinkTracked(job, AfterPush(w, c)) && NotAhead(AfterPush(w, c))
  {
    hide RingOf, Push, Evict, Genuine;
    assert PosAt(w.ctl.fileIndex, w.log + [c], |w.log|) == PosAt(w.ctl.fileIndex, w.log, |w.log|);
    assert forall p :: Pushable(job, w, p) ==> Pushable(job, AfterPush(w, c), p);
  }

  lemma PushStaysWithin(job: Job, w: World, c: RingChunk)
    requires Steady(job, w) && w.phase == Credited(c.dataLen) && c.offset == Edge(w.ctl.ring)
    ensures Within(AfterPush(w, c))
  {
    PushKeepsRun(w.ctl.ring, w.ctl.capacity, c);
    if w.ctl.pending.Some? {
      BoundaryStable(w.log, c, w.ctl.pending.value);
    }
  }

  /** Appending the chunk under the cursor keeps the link in order. */
  lemma SendStaysTracked(job: Job, w: World, c: RingChunk)
    requires Tracked(job, w) && Sending(w) && Cursor(w) < |w.log| && c == w.log[Cursor(w)]
    ensures var link := Send(w, c);
      && (forall p :: p in link ==> Pushable(job, w, p))
      && (forall i :: 0 < i < |link| ==> StartOf(link[i]) == EndOf(link[i - 1]))
      && Upto(ReceiverPos(w), StartOf(link[0]))
      && link[|link| - 1] == Parcel(w.ctl.fileIndex, c)
      && EndOf(link[|link| - 1]) == PosAt(w.ctl.fileIndex, w.log, Cursor(w) + 1)
  {
    PosAfter(job, w, Cursor(w));
    assert Pushable(job, w, Parcel(w.ctl.fileIndex, c));
  }

  lemma SendStaysSteady(job: Job, w: World)
    requires Steady(job, w) && Enabled(job, w, SendOk)
    ensures Steady(job, After(job, w, SendOk))
  {
    var w', c := After(job, w, SendOk), w.phase.chunk;
    SendStaysTracked(job, w, c);
    SameRing(job, w, w');
    SamePushable(job, w, w');
    hide RingHolds, Pushable;
    assert c.End() == Edge(w.ctl.ring) by {
      EdgeIsLastEnd(job, w);
    }
  }

  lemma EdgeIsLastEnd(job: Job, w: World)
    requires RingHolds(job, w) && w.log != []
    ensures w.log[|w.log| - 1].End() == Edge(w.ctl.ring)
  {
  }

  /** Link and receiver are as they were, and the producer, if it still sends, is where
      it was. */
  lemma SameTrack(job: Job, w: World, v: World)
    requires LinkTracked(job, w) && NotAhead(w)
    requires v.link == w.link && v.log == w.log && v.received == w.received && v.done == w.done
    requires v.ctl.fileIndex == w.ctl.fileIndex && v.ctl.ring == w.ctl.ring
    requires Sending(v) ==> Sending(w) && Cursor(v) == Cursor(w)
    requires v.up && v.phase.Parked? ==> w.up && w.phase.Parked? && v.ctl.pending == w.ctl.pending
    requires v.up ==> w.up && v.at == w.at && v.ctl.peer == w.ctl.peer
    ensures LinkTracked(job, v) && NotAhead(v)
  {
    SamePushable(job, w, v);
    hide Pushable, PosAt, Covers;
  }

  /** Recording the emitted chunk catches up with all that was sent. */
  lemma RecordStaysSteady(job: Job, w: World)
    requires Steady(job, w) && w.phase.Emitted?
    ensures Steady(job, After(job, w, RecordEmitted))
  {
    var w' := After(job, w, RecordEmitted);
    SameRing(job, w, w');
    SameTrack(job, w, w');
    EdgeIsLastEnd(job, w);
    if w.ctl.pending.Some? {
      BoundaryEndsByEdge(w.log, w.ctl.pending.value);
    }
    hide RingHolds, LinkTracked, NotAhead, AtBoundary;
  }

  lemma DisconnectStaysTracked(job: Job, w: World, survive: nat)
    requires Tracked(job, w) && Enabled(job, w, Disconnect(survive))
    ensures Tracked(job, After(job, w, Disconnect(survive)))
  {
    var w' := After(job, w, Disconnect(survive));
    SameRing(job, w, w');
    SamePushable(job, w, w');
    hide RingHolds, Pushable, PosAt, Covers;
    assert forall p :: p in w.link[..survive] ==> p in w.link;
  }

  lemma DisconnectStaysWithin(job: Job, w: World, survive: nat)
    requires RingHolds(job, w) && Within(w) && Enabled(job, w, Disconnect(survive))
    ensures Within(After(job, w, Disconnect(survive)))
  {
    var w' := After(job, w, Disconnect(survive));
    hide RingHolds, AtBoundary;
    assert forall p :: p in w.link[..survive] ==> p in w.link;
  }

  lemma DisconnectStaysSteady(job: Job, w: World, survive: nat)
    requires Steady(job, w) && Enabled(job, w, Disconnect(survive))
    ensures Steady(job, After(job, w, Disconnect(survive)))
  {
    DisconnectStaysTracked(job, w, survive);
    DisconnectStaysWithin(job, w, survive);
  }

  /** What arrives is at least as far along as the receiver's count, and stays so. */
  lemma DeliveryStaysUpto(job: Job, w: World, p: Parcel)
    requires Genuine(job, p) && Upto(ReceiverPos(w), StartOf(p))
    ensures Upto(ReceiverPos(Delivered(job, w, p)), EndOf(p))
  {
  }

  lemma DeliverCounts(job: Job, w: World, p: Parcel)
    requires RingHolds(job, w) && Recorded(w) && p in w.link && Pushable(job, w, p)
    requires w.ctl.sent <= Edge(w.ctl.ring) && Upto(ReceiverPos(w), StartOf(p))
    ensures Recorded(Delivered(job, w, p))
  {
    if p.file == w.ctl.fileIndex {
      PushedEndsByEdge(w.log, p.chunk);
      assert p.chunk.last ==> Ended(w.log) && p.chunk.End() == Edge(w.ctl.ring) by {
        LastMeansEnded(job, w, p.chunk);
      }
    }
  }

  lemma LastMeansEnded(job: Job, w: World, c: RingChunk)
    requires RingHolds(job, w) && c in w.log
    ensures c.last ==> Ended(w.log) && c.End() == Edge(w.ctl.ring)
  {
    var i :| 0 <= i < |w.log| && w.log[i] == c;
    assert i < |w.log| - 1 ==> !w.log[i].last;
  }

  lemma TailTracked(job: Job, w: World, v: World)
    requires LinkTracked(job, w) && w.link != [] && v.link == w.link[1..]
    requires v.log == w.log && v.ctl == w.ctl && v.phase == w.phase && v.up == w.up && v.at == w.at
    ensures LinkTracked(job, v)
  {
    SamePushable(job, w, v);
    hide Pushable, PosAt;
    assert forall i :: 0 <= i < |v.link| ==> v.link[i] == w.link[i + 1];
    assert forall q :: q in v.link ==> q in w.link;
  }

  lemma TailNotAhead(job: Job, w: World, v: World)
    requires LinkTracked(job, w) && NotAhead(w) && w.link != [] && v.link == w.link[1..]
    requires v.log == w.log && v.ctl == w.ctl && v.phase == w.phase && v.up == w.up && v.at == w.at
    requires Upto(ReceiverPos(v), EndOf(w.link[0]))
    ensures NotAhead(v)
  {
    hide Pushable, PosAt, Covers;
    if v.link != [] {
      assert v.link[0] == w.link[1];
    }
  }

  lemma DeliverStaysTracked(job: Job, w: World)
    requires Tracked(job, w) && w.link != []
    ensures Tracked(job, After(job, w, Deliver))
  {
    var w', p := After(job, w, Deliver), w.link[0];
    assert Pushable(job, w, p);
    DeliveryStaysUpto(job, w.(link := w.link[1..]), p);
    SameRing(job, w, w');
    TailTracked(job, w, w');
    TailNotAhead(job, w, w');
    hide RingHolds, LinkTracked, NotAhead;
  }

  lemma DeliverStaysWithin(job: Job, w: World, p: Parcel)
    requires Within(w) && w.link != [] && p == w.link[0] && Recorded(Delivered(job, w, p))
    ensures Within(Delivered(job, w.(link := w.link[1..]), p))
  {
    hide AtBoundary;
    assert forall q :: q in w.link[1..] ==> q in w.link;
  }

  lemma DeliverStaysSteady(job: Job, w: World)
    requires Steady(job, w) && w.link != []
    ensures Steady(job, After(job, w, Deliver))
  {
    var p := w.link[0];
    DeliverStaysTracked(job, w);
    assert Pushable(job, w, p);
    DeliverCounts(job, w, p);
    hide Tracked, Within;
    DeliverStaysWithin(job, w, p);
  }

  lemma HandlerStaysWithin(w: World, op: Op)
    requires Within(w) && (op.RecordAck? || op.Cancel?)
    ensures Within(w.(ctl := Apply(w.ctl, op)))
  {
    hide AtBoundary;
    assert InFlight(Apply(w.ctl, op)) <= InFlight(w.ctl);
  }

  lemma HandlerStaysSteady(job: Job, w: World, op: Op)
    requires Steady(job, w) && (op.RecordAck? || op.Cancel?)
    ensures Steady(job, w.(ctl := Apply(w.ctl, op)))
  {
    var w' := w.(ctl := Apply(w.ctl, op));
    SameRing(job, w, w');
    SameTrack(job, w, w');
    HandlerStaysWithin(w, op);
    hide RingHolds, LinkTracked, NotAhead, Within;
  }

  /** Wherever it is, a producer that is not replaying has sent everything a receiver
      can count, so an early resume never finds the receiver ahead of it. */
  lemma EarlyResumeIsNotAhead(job: Job, w: World)
    requires Steady(job, w) && |w.done| == w.ctl.fileIndex
    requires w.phase.Producing? || w.phase.Credited? || w.phase.Pushed? || w.phase.Emitted?
    ensures Upto(ReceiverPos(w), NextToSend(w))
  {
    if w.log != [] {
      EdgeIsLastEnd(job, w);
    }
  }

  lemma ResumeStaysTracked(job: Job, w: World, newPeer: PeerId)
    requires Steady(job, w)
    requires w.phase.Replaying? && Reply(w).Ok? ==> Aligned(w)
    ensures Tracked(job, Resumed(w, newPeer))
  {
    var w' := Resumed(w, newPeer);
    SameRing(job, w, w');
    if Reply(w).Ok? && (w.phase.Producing? || w.phase.Credited? || w.phase.Pushed? || w.phase.Emitted?) {
      EarlyResumeIsNotAhead(job, w);
    }
    hide RingHolds, Pushable, PosAt;
  }

  lemma ResumeStaysSteady(job: Job, w: World, newPeer: PeerId)
    requires Steady(job, w)
    requires w.phase.Replaying? && Reply(w).Ok? ==> Aligned(w)
    ensures Steady(job, Resumed(w, newPeer))
  {
    ResumeStaysTracked(job, w, newPeer);
    if Reply(w).Ok? {
      CoveredIsBoundary(job, w, |w.received|);
    }
    hide Tracked, Covers;
  }

  /** A resume that finds nothing to replay finds everything recorded. */
  lemma NothingToReplay(job: Job, w: World, offset: nat)
    requires Steady(job, w) && AtBoundary(w.log, offset) && offset <= w.ctl.sent
    ensures ReplayFrom(w.ctl.ring, offset) == [] ==> w.ctl.sent == Edge(w.ctl.ring)
  {
    BoundaryEndsByEdge(w.log, offset);
    if w.log != [] {
      var i := RingIsLongestFittingSuffix(w.log, w.ctl.capacity);
      LastIsReplayed(w.ctl.ring, offset);
    }
  }

  lemma WakeIsNotAhead(job: Job, w: World, k: nat)
    requires Steady(job, w) && w.phase.Parked? && w.up && k <= |w.log|
    requires |w.received| == if k < |w.log| then w.log[k].offset else Edge(w.log)
    ensures Upto(ReceiverPos(w), PosAt(w.ctl.fileIndex, w.log, k))
  {
  }

  lemma WakeStaysTracked(job: Job, w: World)
    requires Steady(job, w) && Enabled(job, w, WakeResumed)
    ensures Tracked(job, After(job, w, WakeResumed))
  {
    var w' := After(job, w, WakeResumed);
    var k := ReplayIsLogSuffix(job, w, w.ctl.pending.value);
    SuffixLength(w.log, k);
    SameRing(job, w, w');
    SamePushable(job, w, w');
    if w.up {
      WakeIsNotAhead(job, w, k);
    }
    hide RingHolds, Pushable, PosAt, ReplayFrom, Covers, Within;
  }

  lemma WakeStaysWithin(job: Job, w: World)
    requires Steady(job, w) && Enabled(job, w, WakeResumed)
    ensures Within(After(job, w, WakeResumed))
  {
    NothingToReplay(job, w, w.ctl.pending.value);
    var w' := After(job, w, WakeResumed);
    hide Tracked, ReplayFrom, AtBoundary, Edge;
    assert Fits(w');
    assert Reached(w');
  }

  lemma WakeStaysSteady(job: Job, w: World)
    requires Steady(job, w) && Enabled(job, w, WakeResumed)
    ensures Steady(job, After(job, w, WakeResumed))
  {
    WakeStaysTracked(job, w);
    WakeStaysWithin(job, w);
    hide Tracked, Within;
  }

  /** A producer that sent the chunk under its cursor and moved on is still tracked. */
  lemma SentIsTracked(job: Job, w: World, v: World, c: RingChunk)
    requires Tracked(job, w) && Sending(w) && Cursor(w) < |w.log| && c == w.log[Cursor(w)]
    requires v.link == Send(w, c) && v.log == w.log && v.received == w.received && v.done == w.done
    requires v.ctl.fileIndex == w.ctl.fileIndex && v.ctl.peer == w.ctl.peer && v.up == w.up && v.at == w.at
    requires Sending(v) && Cursor(v) == Cursor(w) + 1
    ensures LinkTracked(job, v) && NotAhead(v)
  {
    SendStaysTracked(job, w, c);
    SamePushable(job, w, v);
    hide RingHolds, PhaseFits, Pushable, PosAt, Covers;
  }

  lemma StillReplaying(w: World, v: World)
    requires PhaseFits(w) && w.phase.Replaying? && w.phase.todo != []
    requires v.log == w.log && v.phase == Replaying(w.phase.todo[1..])
    ensures PhaseFits(v) && Cursor(w) < |w.log| && w.phase.todo[0] == w.log[Cursor(w)]
    ensures Cursor(v) == Cursor(w) + 1
  {
    SuffixTail(w.log, Cursor(w));
  }

  lemma ReplayStaysTracked(job: Job, w: World)
    requires Tracked(job, w) && Enabled(job, w, ReplayOk(true))
    ensures Tracked(job, After(job, w, ReplayOk(true)))
  {
    hide PhaseFits, LinkTracked, NotAhead, Cursor;
    var w' := After(job, w, ReplayOk(true));
    hide RingHolds;
    StillReplaying(w, w');
    SameRing(job, w, w');
    SentIsTracked(job, w, w', w.phase.todo[0]);
  }

  lemma ReplayedEndsByEdge(job: Job, w: World)
    requires RingHolds(job, w) && PhaseFits(w) && w.phase.Replaying? && w.phase.todo != []
    ensures var c := w.phase.todo[0];
      c.End() <= Edge(w.ctl.ring) && (|w.phase.todo| == 1 ==> c.End() == Edge(w.ctl.ring))
  {
    SuffixTail(w.log, Cursor(w));
    PushedEndsByEdge(w.log, w.log[Cursor(w)]);
    EdgeIsLastEnd(job, w);
  }

  lemma ReplayCounts(job: Job, w: World)
    requires Steady(job, w) && Enabled(job, w, ReplayOk(true))
    ensures Fits(After(job, w, ReplayOk(true))) && Reached(After(job, w, ReplayOk(true)))
  {
    ReplayedEndsByEdge(job, w);
    hide RingHolds, LinkTracked, NotAhead, PhaseFits, Recorded, Staged;
  }

  lemma ReplayStaysRecorded(job: Job, w: World)
    requires Steady(job, w) && Enabled(job, w, ReplayOk(true))
    ensures Recorded(After(job, w, ReplayOk(true))) && Staged(After(job, w, ReplayOk(true)))
  {
    ReplayedEndsByEdge(job, w);
    hide RingHolds, LinkTracked, NotAhead, PhaseFits, Reached, AtBoundary;
  }

  lemma ReplayStaysWithin(job: Job, w: World)
    requires Steady(job, w) && Enabled(job, w, ReplayOk(true))
    ensures Within(After(job, w, ReplayOk(true)))
  {
    ReplayCounts(job, w);
    ReplayStaysRecorded(job, w);
    hide Steady, Fits, Reached, Recorded, Staged;
  }

  lemma ReplayStaysSteady(job: Job, w: World)
    requires Steady(job, w) && Enabled(job, w, ReplayOk(true))
    ensures Steady(job, After(job, w, ReplayOk(true)))
  {
    ReplayStaysTracked(job, w);
    ReplayStaysWithin(job, w);
  }

  lemma AdvanceStaysSteady(job: Job, w: World)
    requires Steady(job, w) && Enabled(job, w, Advance)
    ensures Steady(job, After(job, w, Advance))
  {
    assert forall p :: p in w.link ==> Pushable(job, w, p);
  }

  lemma QuietStaysTracked(job: Job, w: World, e: Event)
    requires Tracked(job, w) && Enabled(job, w, e) && (Quiet(e) || e == ReplayDisconnected(true))
    ensures Tracked(job, After(job, w, e))
  {
    var w' := After(job, w, e);
    SameRing(job, w, w');
    hide RingHolds, LinkTracked, NotAhead;
    SameTrack(job, w, w');
  }

  lemma QuietStaysWithin(job: Job, w: World, e: Event)
    requires RingHolds(job, w) && Within(w) && Enabled(job, w, e) && (Quiet(e) || e == ReplayDisconnected(true))
    ensures Within(After(job, w, e))
  {
    var w' := After(job, w, e);
    hide RingHolds, AtBoundary;
  }

  lemma QuietStaysSteady(job: Job, w: World, e: Event)
    requires Steady(job, w) && Enabled(job, w, e) && (Quiet(e) || e == ReplayDisconnected(true))
    ensures Steady(job, After(job, w, e))
  {
    QuietStaysTracked(job, w, e);
    QuietStaysWithin(job, w, e);
  }

  lemma WindowIsFixed(job: Job, w: World, e: Event)
    requires w.ctl.fileIndex < |job.files| && Enabled(job, w, e)
    ensures After(job, w, e).ctl.window == w.ctl.window
  {
  }

  /** Replays are recorded, cut-off replays park, and no resume is accepted in the
      middle of a replay that is somewhere else. */
  predicate KeepsCount(p: Policy) {
    p.records && p.parks && Situation(AtReplay, false) !in p.extra
  }

  lemma StepStaysSteady(p: Policy, job: Job, w: World, e: Event)
    requires Steady(job, w) && Step(p, job, w, e) && KeepsCount(p)
    ensures Steady(job, After(job, w, e)) && After(job, w, e).ctl.window == w.ctl.window
  {
    WindowIsFixed(job, w, e);
    hide Steady;
    match e
    case PushBody(body) => PushStaysSteady(job, w, body);
    case SendOk => SendStaysSteady(job, w);
    case RecordEmitted => RecordStaysSteady(job, w);
    case Disconnect(k) => DisconnectStaysSteady(job, w, k);
    case Deliver => DeliverStaysSteady(job, w);
    case Handler(op) => HandlerStaysSteady(job, w, op);
    case ResumeFromReceiver(peer) => ResumeStaysSteady(job, w, peer);
    case WakeResumed => WakeStaysSteady(job, w);
    case ReplayOk(_) => ReplayStaysSteady(job, w);
    case Advance => AdvanceStaysSteady(job, w);
    case _ => QuietStaysSteady(job, w, e);
  }

  lemma {:induction false} RunStaysSteady(p: Policy, job: Job, w: World, events: seq<Event>)
    requires Steady(job, w) && IsRun(p, job, w, events) && KeepsCount(p)
    ensures Steady(job, Final(p, job, w, events)) && Final(p, job, w, events).ctl.window == w.ctl.window
    decreases |events|
  {
    if events != [] {
      StepStaysSteady(p, job, w, events[0]);
      RunStaysSteady(p, job, After(job, w, events[0]), events[1..]);
    }
  }

  /** In every run, through any drops, resumes and replays, of a producer that records
      what it replays and parks when a replay is cut off, and that is not resumed in the
      middle of a replay that is somewhere else, emitted but unacknowledged bytes stay
      within the larger of the window and the last chunk. The receiver's data may be
      garbled by other early resumes. */
  lemma WindowHoldsThroughRecovery(p: Policy, job: Job, window: nat, capacity: nat, peer: PeerId, events: seq<Event>)
    requires KeepsCount(p)
    requires job.files != [] && IsRun(p, job, Start(window, capacity, peer), events)
    ensures var end := Final(p, job, Start(window, capacity, peer), events);
      WithinWindow(end) && end.ctl.window == window
  {
    StartHolds(job, window, capacity, peer);
    RunStaysSteady(p, job, Start(window, capacity, peer), events);
  }
}
