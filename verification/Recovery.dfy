/** When a lost connection can be made good, and when a resume is refused for good. */
module Recovery {
  import opened Common
  import opened Replay
  import opened Transfer
  import opened Delivery

  /** As long as the bodies the receiver is missing fit the replay budget, a control
      that was not cancelled accepts its resume. */
  lemma ResumeIsAcceptedWithinBudget(job: Job, w: World, i: nat)
    requires Inv(job, w) && w.ctl.cancelled.None? && |w.done| == w.ctl.fileIndex
    requires i <= |w.log| && Boundary(w.log, i) == |w.received| && Wire(w.log[i..]) <= w.ctl.capacity
    ensures Reply(w) == Ok(|w.received|)
  {
    FittingBoundaryIsCovered(w.log, w.ctl.capacity, i);
  }

  // ---- an accepted resume catches up --------------------------------------

  /** Neither ACKs, cancels nor grants of credit. */
  predicate Plain(events: seq<Event>) {
    forall i :: 0 <= i < |events| ==> !events[i].Handler? && !events[i].GrantCredit?
  }

  /** The receiver has everything that was pushed. */
  predicate CaughtUp(w: World) {
    ReceiverPos(w) == PosAt(w.ctl.fileIndex, w.log, |w.log|)
  }

  lemma ReplayOne(p: Policy, job: Job, w: World) returns (v: World)
    requires Inv(job, w) && w.phase.Replaying? && w.phase.todo != [] && w.up && w.link == []
    ensures Reaches(p, job, w, [ReplayOk(p.records), Deliver], v) && Inv(job, v)
    ensures v.phase.Replaying? && v.up && v.link == [] && |v.phase.todo| < |w.phase.todo|
    ensures v.log == w.log && v.ctl.fileIndex == w.ctl.fileIndex && v.ctl.cancelled == w.ctl.cancelled
  {
    var sent := After(job, w, ReplayOk(p.records));
    v := After(job, sent, Deliver);
    hide RingHolds, ReceiverHolds, LinkHolds, PhaseFits, Continues;
    ReplayKeepsInv(job, w, p.records);
    DeliverKeepsInv(job, sent);
    TwoSteps(p, job, w, ReplayOk(p.records), sent, Deliver, v);
  }

  /** Replaying over a link that stays up hands the receiver the whole tail. */
  lemma {:induction false} ReplayCatchesUp(p: Policy, job: Job, w: World) returns (events: seq<Event>, end: World)
    requires Inv(job, w) && w.phase.Replaying? && w.phase.todo != [] && w.up && w.link == []
    ensures Reaches(p, job, w, events, end) && Plain(events) && Inv(job, end) && CaughtUp(end)
    ensures end.phase == Replaying([]) && end.up && end.link == [] && end.ctl.cancelled == w.ctl.cancelled
    ensures end.log == w.log && end.ctl.fileIndex == w.ctl.fileIndex
    decreases |w.phase.todo|
  {
    hide RingHolds, ReceiverHolds, LinkHolds, PhaseFits, Continues, CaughtUp;
    end := ReplayOne(p, job, w);
    events := [ReplayOk(p.records), Deliver];
    if end.phase.todo == [] {
      ReplayedIsCaughtUp(end);
    } else {
      var v, rest := end, [];
      rest, end := ReplayCatchesUp(p, job, v);
      Both(p, job, w, events, v, rest, end);
      events := events + rest;
    }
  }

  lemma ReplayedIsCaughtUp(w: World)
    requires Continues(w) && w.phase == Replaying([]) && w.up && w.link == []
    ensures CaughtUp(w)
  {
  }

  lemma Accept(p: Policy, job: Job, w: World, newPeer: PeerId) returns (v: World)
    requires Inv(job, w) && w.phase.Parked? && !w.up && Reply(w).Ok?
    ensures Goes(p, job, w, ResumeFromReceiver(newPeer), v) && Inv(job, v)
    ensures v.phase.Parked? && v.up && v.link == [] && v.ctl.pending.Some? && v.ctl.cancelled.None?
    ensures v.log == w.log && v.ctl.fileIndex == w.ctl.fileIndex
  {
    v := After(job, w, ResumeFromReceiver(newPeer));
    ResumeKeepsInv(job, w, newPeer);
  }

  lemma Wake(p: Policy, job: Job, w: World) returns (v: World)
    requires Inv(job, w) && w.phase.Parked? && w.ctl.pending.Some? && w.ctl.cancelled.None?
    ensures Goes(p, job, w, WakeResumed, v) && Inv(job, v)
    ensures v.phase.Replaying? && v.up == w.up && v.link == w.link
    ensures v.log == w.log && v.ctl.fileIndex == w.ctl.fileIndex && v.ctl.cancelled == w.ctl.cancelled
  {
    v := After(job, w, WakeResumed);
    WakeKeepsInv(job, w);
  }

  /** Recovery completes: from a parked producer that accepts the receiver's resume
      there is a run after which the receiver has everything that was pushed. */
  lemma RecoveryCatchesUp(p: Policy, job: Job, w: World, newPeer: PeerId) returns (events: seq<Event>, end: World)
    requires Inv(job, w) && w.phase.Parked? && !w.up && Reply(w).Ok?
    ensures Reaches(p, job, w, events, end) && Plain(events) && Inv(job, end) && CaughtUp(end)
    ensures end.phase == Replaying([]) && end.up && end.link == [] && end.ctl.cancelled.None?
    ensures end.log == w.log && end.ctl.fileIndex == w.ctl.fileIndex
  {
    hide RingHolds, ReceiverHolds, LinkHolds, PhaseFits, Continues, Goes, Reaches, Reply, CaughtUp;
    var resumed := Accept(p, job, w, newPeer);
    var woken := Wake(p, job, resumed);
    TwoSteps(p, job, w, ResumeFromReceiver(newPeer), resumed, WakeResumed, woken);
    events, end := [ResumeFromReceiver(newPeer), WakeResumed], woken;
    if woken.phase.todo == [] {
      ReplayedIsCaughtUp(woken);
    } else {
      var rest: seq<Event>;
      rest, end := ReplayCatchesUp(p, job, woken);
      Both(p, job, w, events, woken, rest, end);
      events := events + rest;
    }
  }

  // ---- a refused one does not ---------------------------------------------

  /** Nothing in flight, nothing staged, and the receiver's resume is refused. */
  predicate Refused(w: World) {
    && (w.phase.Parked? || w.phase.Stopped?) && !w.up && w.link == [] && w.ctl.pending.None?
    && Reply(w).Err? && |w.done| <= w.ctl.fileIndex
  }

  lemma RefusedStays(job: Job, w: World, e: Event)
    requires w.ctl.fileIndex < |job.files| && Enabled(job, w, e) && Refused(w)
    ensures Refused(After(job, w, e))
    ensures After(job, w, e).done == w.done && After(job, w, e).received == w.received
  {
  }

  /** Together with `RecoveryCatchesUp`: a parked producer with nothing staged recovers
      exactly when it accepts the receiver's resume. Refused once, it is refused in
      every continuation and the receiver gets nothing more. */
  lemma {:induction false} RefusedReceiverGetsNothing(p: Policy, job: Job, w: World, events: seq<Event>)
    requires Refused(w) && IsRun(p, job, w, events)
    ensures var end := Final(p, job, w, events);
      Refused(end) && end.done == w.done && end.received == w.received
    decreases |events|
  {
    if events != [] {
      RefusedStays(job, w, events[0]);
      RefusedReceiverGetsNothing(p, job, After(job, w, events[0]), events[1..]);
    }
  }
}
