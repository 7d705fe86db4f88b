/** The three ways a receiver is left behind without anyone giving up, and the exact
    condition under which it never is. */
module Stranding {
  import opened Common
  import opened Replay
  import opened Transfer
  import opened Delivery
  import opened Recovery
  import opened Completion

  // ---- advancing before the receiver is done ------------------------------

  /** The producer has left the receiver's file and the rest of it is lost. */
  predicate Stranded(w: World) {
    |w.done| < w.ctl.fileIndex && !w.up && w.link == []
  }

  lemma StrandedStays(job: Job, w: World, e: Event)
    requires w.ctl.fileIndex < |job.files| && Enabled(job, w, e) && Stranded(w)
    ensures Reply(w).Err? && Stranded(After(job, w, e))
    ensures After(job, w, e).done == w.done && After(job, w, e).received == w.received
  {
  }

  lemma {:induction false} StrandedLeads(p: Policy, job: Job, w: World, events: seq<Event>, v: World)
    requires Stranded(w) && Leads(p, job, w, events, v)
    ensures v.done == w.done && v.received == w.received
    decreases |events|
  {
    if events != [] {
      StrandedStays(job, w, events[0]);
      StrandedLeads(p, job, After(job, w, events[0]), events[1..], v);
    }
  }

  /** Every resume of a stranded receiver names the wrong file, so it is left behind
      under every policy. */
  lemma StrandedIsLeftBehind(p: Policy, job: Job, w: World)
    requires Stranded(w) && w.ctl.fileIndex < |job.files|
    ensures LeftBehind(p, job, w)
  {
    forall events: seq<Event>, v: World | Leads(p, job, w, events, v)
      ensures v.done == w.done && v.received == w.received
    {
      StrandedLeads(p, job, w, events, v);
    }
  }

  lemma StepKeepsPace(p: Policy, job: Job, w: World, e: Event)
    requires Step(p, job, w, e) && p.waits && |w.done| >= w.ctl.fileIndex
    ensures |After(job, w, e).done| >= After(job, w, e).ctl.fileIndex
  {
  }

  lemma {:induction false} RunKeepsPace(p: Policy, job: Job, w: World, events: seq<Event>)
    requires p.waits && |w.done| >= w.ctl.fileIndex && IsRun(p, job, w, events)
    ensures |Final(p, job, w, events).done| >= Final(p, job, w, events).ctl.fileIndex
    decreases |events|
  {
    if events != [] {
      StepKeepsPace(p, job, w, events[0]);
      RunKeepsPace(p, job, After(job, w, events[0]), events[1..]);
    }
  }

  // Two files of one octet: the producer emits the first, advances, and the link
  // drops what was in flight.

  function TwoFiles(): Job {
    Job([[1], [2]], x => x)
  }

  function Whole(): RingChunk {
    RingChunk(0, 1, true, [1])
  }

  function Scene(sent: nat, phase: Phase, link: seq<Parcel>, log: seq<RingChunk>): World {
    World(Control(1, sent, 0, 0, None, log, 1, Some(0), None), phase, true, 0, link, [], [], log)
  }

  lemma FirstFileEmitted(p: Policy)
    ensures Reaches(p, TwoFiles(), Start(1, 1, 0),
                    [GrantCredit(1), PushBody([1])] + [SendOk, RecordEmitted],
                    Scene(1, Producing, [Parcel(0, Whole())], [Whole()]))
  {
    var job, log := TwoFiles(), [Whole()];
    var pushed := Scene(0, Pushed(Whole()), [], log);
    assert [1][0..1] == [1] && [] + log == log && log[1..] == [];
    assert Push([], 1, Whole()) == log;
    assert Scene(0, Producing, [], []) == Start(1, 1, 0);
    TwoSteps(p, job, Start(1, 1, 0), GrantCredit(1), Scene(0, Credited(1), [], []), PushBody([1]), pushed);
    var parcels := [Parcel(0, Whole())];
    assert [] + parcels == parcels;
    TwoSteps(p, job, pushed, SendOk, Scene(0, Emitted(Whole()), parcels, log), RecordEmitted,
             Scene(1, Producing, parcels, log));
    Both(p, job, Start(1, 1, 0), [GrantCredit(1), PushBody([1])], pushed, [SendOk, RecordEmitted],
         Scene(1, Producing, parcels, log));
  }

  lemma EarlyAdvanceStrands(p: Policy) returns (events: seq<Event>)
    requires !p.waits
    ensures IsRun(p, TwoFiles(), Start(1, 1, 0), events)
    ensures Stranded(Final(p, TwoFiles(), Start(1, 1, 0), events))
    ensures Final(p, TwoFiles(), Start(1, 1, 0), events).ctl.fileIndex == 1
    ensures !GivenUp(Final(p, TwoFiles(), Start(1, 1, 0), events))
  {
    var job, w := TwoFiles(), Scene(1, Producing, [Parcel(0, Whole())], [Whole()]);
    var v := After(job, w, Advance);
    var end := After(job, v, Disconnect(0));
    FirstFileEmitted(p);
    TwoSteps(p, job, w, Advance, v, Disconnect(0), end);
    events := [GrantCredit(1), PushBody([1])] + [SendOk, RecordEmitted];
    Both(p, job, Start(1, 1, 0), events, w, [Advance, Disconnect(0)], end);
    events := events + [Advance, Disconnect(0)];
  }

  // ---- the last chunk is lost ---------------------------------------------

  /** The producer has emitted its file, the end of it is lost, and it has nothing
      left to send that would fail. */
  predicate TailLost(w: World) {
    w.phase.Producing? && !w.up && w.link == [] && Ended(w.log) && |w.done| == w.ctl.fileIndex
  }

  predicate Silent(w: World) {
    TailLost(w) || Stranded(w) || (w.phase.Stopped? && w.link == [])
  }

  lemma SilentStays(p: Policy, job: Job, w: World, e: Event)
    requires Silent(w) && Step(p, job, w, e) && Harmless(p.extra) && !p.looks
    ensures Silent(After(job, w, e))
    ensures After(job, w, e).done == w.done && After(job, w, e).received == w.received
  {
    if Stranded(w) {
      StrandedStays(job, w, e);
    } else if TailLost(w) && e.ResumeFromReceiver? {
      assert SituationOf(w) == Situation(AtProducing, false);
    }
  }

  lemma {:induction false} SilentLeads(p: Policy, job: Job, w: World, events: seq<Event>, v: World)
    requires Silent(w) && Leads(p, job, w, events, v) && Harmless(p.extra) && !p.looks
    ensures v.done == w.done && v.received == w.received
    decreases |events|
  {
    if events != [] {
      SilentStays(p, job, w, events[0]);
      SilentLeads(p, job, After(job, w, events[0]), events[1..], v);
    }
  }

  /** A producer that does not look never parks, so a resume that it could serve is
      never taken. */
  lemma LostTailIsLeftBehind(p: Policy, job: Job, w: World)
    requires TailLost(w) && w.ctl.fileIndex < |job.files| && Harmless(p.extra) && !p.looks
    ensures LeftBehind(p, job, w)
  {
    forall events: seq<Event>, v: World | Leads(p, job, w, events, v)
      ensures v.done == w.done && v.received == w.received
    {
      SilentLeads(p, job, w, events, v);
    }
  }

  lemma TailCanBeLost(p: Policy) returns (events: seq<Event>)
    ensures IsRun(p, TwoFiles(), Start(1, 1, 0), events)
    ensures var w := Final(p, TwoFiles(), Start(1, 1, 0), events);
      TailLost(w) && Reply(w).Ok? && !GivenUp(w) && w.ctl.fileIndex == 0
  {
    var job, w := TwoFiles(), Scene(1, Producing, [Parcel(0, Whole())], [Whole()]);
    var end := After(job, w, Disconnect(0));
    FirstFileEmitted(p);
    assert end.ctl.ring[0].offset == 0;
    First(p, job, w, Disconnect(0), end, [], end);
    events := [GrantCredit(1), PushBody([1])] + [SendOk, RecordEmitted];
    Both(p, job, Start(1, 1, 0), events, w, [Disconnect(0)] + [], end);
    events := events + ([Disconnect(0)] + []);
  }

  // ---- the window is lost -------------------------------------------------

  /** How much of the producer's file truthful ACKs can ever cover. */
  function Ackable(w: World): nat {
    Max(w.ctl.acked, |w.received|)
  }

  /** What was recorded and lost fills the window: the producer waits for credit that
      no truthful ACK can give. */
  predicate WindowLost(w: World) {
    && w.phase.Producing? && !w.up && w.link == [] && !Ended(w.log) && |w.done| == w.ctl.fileIndex
    && Ackable(w) < w.ctl.sent && w.ctl.sent - Ackable(w) >= w.ctl.window
  }

  predicate Blocked(w: World) {
    WindowLost(w) || (w.phase.Stopped? && w.link == [])
  }

  lemma NoCredit(job: Job, w: World, n: nat)
    requires Sound(job, w) && WindowLost(w)
    ensures !(Enabled(job, w, GrantCredit(n)) && Sensible(job, w, GrantCredit(n)))
  {
    assert w.log != [] && Genuine(job, Parcel(w.ctl.fileIndex, w.log[|w.log| - 1]));
  }

  lemma BlockedStays(p: Policy, job: Job, w: World, e: Event)
    requires Sound(job, w) && Blocked(w) && Step(p, job, w, e) && Sensible(job, w, e)
    requires Harmless(p.extra) && !p.looks
    ensures Blocked(After(job, w, e))
    ensures After(job, w, e).done == w.done && After(job, w, e).received == w.received
  {
    if WindowLost(w) {
      if e.GrantCredit? {
        NoCredit(job, w, e.chunkLen);
      } else if e.ResumeFromReceiver? {
        assert SituationOf(w) == Situation(AtProducing, false);
      }
    }
  }

  lemma {:induction false} BlockedLeads(p: Policy, job: Job, w: World, events: seq<Event>, v: World)
    requires Sound(job, w) && Blocked(w) && Leads(p, job, w, events, v) && Harmless(p.extra) && !p.looks
    ensures v.done == w.done && v.received == w.received
    decreases |events|
  {
    if events != [] {
      BlockedStays(p, job, w, events[0]);
      StepKeepsSound(p, job, w, events[0]);
      BlockedLeads(p, job, After(job, w, events[0]), events[1..], v);
    }
  }

  lemma LostWindowIsLeftBehind(p: Policy, job: Job, w: World)
    requires Sound(job, w) && WindowLost(w) && Harmless(p.extra) && !p.looks
    ensures LeftBehind(p, job, w)
  {
    forall events: seq<Event>, v: World | Leads(p, job, w, events, v)
      ensures v.done == w.done && v.received == w.received
    {
      BlockedLeads(p, job, w, events, v);
    }
  }

  function OneFile(): Job {
    Job([[1, 2]], x => x)
  }

  function Half(): RingChunk {
    RingChunk(0, 1, false, [1])
  }

  lemma FirstHalfEmitted(p: Policy)
    ensures Reaches(p, OneFile(), Start(1, 1, 0),
                    [GrantCredit(1), PushBody([1])] + [SendOk, RecordEmitted],
                    Scene(1, Producing, [Parcel(0, Half())], [Half()]))
  {
    var job, log, parcels := OneFile(), [Half()], [Parcel(0, Half())];
    var pushed, sent := Scene(0, Pushed(Half()), [], log), Scene(1, Producing, parcels, log);
    assert [1, 2][0..1] == [1] && [] + log == log && log[1..] == [] && [] + parcels == parcels;
    assert Push([], 1, Half()) == log;
    assert Scene(0, Producing, [], []) == Start(1, 1, 0);
    TwoSteps(p, job, Start(1, 1, 0), GrantCredit(1), Scene(0, Credited(1), [], []), PushBody([1]), pushed);
    TwoSteps(p, job, pushed, SendOk, Scene(0, Emitted(Half()), parcels, log), RecordEmitted, sent);
    Both(p, job, Start(1, 1, 0), [GrantCredit(1), PushBody([1])], pushed, [SendOk, RecordEmitted], sent);
  }

  lemma WindowCanBeLost(p: Policy) returns (events: seq<Event>)
    ensures IsRun(p, OneFile(), Start(1, 1, 0), events)
    ensures var w := Final(p, OneFile(), Start(1, 1, 0), events);
      WindowLost(w) && Reply(w).Ok? && !GivenUp(w)
  {
    var job, w := OneFile(), Scene(1, Producing, [Parcel(0, Half())], [Half()]);
    var end := After(job, w, Disconnect(0));
    FirstHalfEmitted(p);
    assert end.ctl.ring[0].offset == 0;
    First(p, job, w, Disconnect(0), end, [], end);
    events := [GrantCredit(1), PushBody([1])] + [SendOk, RecordEmitted];
    Both(p, job, Start(1, 1, 0), events, w, [Disconnect(0)] + [], end);
    events := events + ([Disconnect(0)] + []);
  }

  // ---- for every policy ---------------------------------------------------

  ghost predicate NeverLeavesBehind(p: Policy) {
    forall job: Job, window: nat, capacity: nat, peer: PeerId, events: seq<Event>
      | job.files != [] && Encodable(job) && IsRun(p, job, Start(window, capacity, peer), events) ::
      var w := Final(p, job, Start(window, capacity, peer), events);
      GivenUp(w) || !LeftBehind(p, job, w)
  }

  lemma PlainJobsAreEncodable(files: seq<seq<byte>>)
    ensures Encodable(Job(files, x => x))
  {
    var job := Job(files, x => x);
    forall x: seq<byte> ensures Encoded(job, x) {
      assert job.decode(x) == x;
    }
  }

  /** From every reachable state in which a waiting, looking producer has not given up,
      whatever drops, resumes and false ACKs led there, some sensible continuation
      delivers the whole job. */
  lemma ReachableJobCompletes(
    p: Policy, job: Job, window: nat, capacity: nat, peer: PeerId, events: seq<Event>)
    returns (rest: seq<Event>, v: World)
    requires Harmless(p.extra) && p.waits && p.looks
    requires job.files != [] && Encodable(job) && IsRun(p, job, Start(window, capacity, peer), events)
    requires !GivenUp(Final(p, job, Start(window, capacity, peer), events))
    ensures Leads(p, job, Final(p, job, Start(window, capacity, peer), events), rest, v) && v.done == job.files
  {
    StartHolds(job, window, capacity, peer);
    RunKeepsSound(p, job, Start(window, capacity, peer), events);
    RunKeepsPace(p, job, Start(window, capacity, peer), events);
    rest, v := JobCanComplete(p, job, Final(p, job, Start(window, capacity, peer), events));
  }

  /** For every policy whose resumes do no harm: no run leaves the receiver behind,
      other than by a cancel, a stop or a body the ring no longer holds, if and only if
      the producer waits for each file to be complete before it advances and, between
      chunks, looks whether the peer is gone and parks. */
  lemma NeverLeftBehindIffWaitsAndLooks(p: Policy)
    requires Harmless(p.extra)
    ensures NeverLeavesBehind(p) <==> p.waits && p.looks
  {
    if p.waits && p.looks {
      forall job: Job, window: nat, capacity: nat, peer: PeerId, events: seq<Event>
        | job.files != [] && Encodable(job) && IsRun(p, job, Start(window, capacity, peer), events)
        ensures var w := Final(p, job, Start(window, capacity, peer), events);
          GivenUp(w) || !LeftBehind(p, job, w)
      {
        if !GivenUp(Final(p, job, Start(window, capacity, peer), events)) {
          var rest, v := ReachableJobCompletes(p, job, window, capacity, peer, events);
        }
      }
    } else {
      PlainJobsAreEncodable([[1], [2]]);
      assert Encodable(TwoFiles());
      if !p.waits {
        var events := EarlyAdvanceStrands(p);
        StrandedIsLeftBehind(p, TwoFiles(), Final(p, TwoFiles(), Start(1, 1, 0), events));
      } else {
        var events := TailCanBeLost(p);
        LostTailIsLeftBehind(p, TwoFiles(), Final(p, TwoFiles(), Start(1, 1, 0), events));
      }
    }
  }
}
