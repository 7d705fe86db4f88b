/** What a resume does that arrives before the producer has parked.

    `request_resume` installs the new peer at once, whatever the producer is doing,
    and leaves the requested offset staged for the next time it parks. A producer
    that is not parked goes on from where it is. */
module EarlyResume {
  import opened Common
  import opened Replay
  import opened Transfer
  import opened Delivery

  // One file of two octets, sent in two chunks that each fill half the window.

  function TwoOctets(): Job {
    Job([[1, 2]], x => x)
  }

  function One(): RingChunk {
    RingChunk(0, 1, false, [1])
  }

  function Two(): RingChunk {
    RingChunk(1, 1, true, [2])
  }

  /** A moment of a transfer in which nothing was acknowledged or delivered yet. */
  function Scene(
    sent: nat, pending: Option<nat>, phase: Phase, up: bool, link: seq<RingChunk>, log: seq<RingChunk>): World
  {
    World(Control(2, sent, 0, 0, None, log, 2, Some(0), pending), phase, up, 0,
          seq(|link|, i requires 0 <= i < |link| => Parcel(0, link[i])), [], [], log)
  }

  /** The receiver took the second octet for the whole file. */
  ghost predicate Wrong(w: World) {
    w.done == [[2]]
  }

  ghost predicate GoesWrong(p: Policy, w: World, events: seq<Event>) {
    IsRun(p, TwoOctets(), w, events) && Wrong(Final(p, TwoOctets(), w, events))
  }

  lemma WrongIsNotExact(w: World)
    requires Wrong(w)
    ensures !Exact(TwoOctets(), w)
  {
    assert w.done[0] != TwoOctets().files[..1][0];
  }

  lemma Before(p: Policy, w: World, e: Event, v: World, events: seq<Event>)
    requires Goes(p, TwoOctets(), w, e, v) && GoesWrong(p, v, events)
    ensures GoesWrong(p, w, [e] + events)
  {
    First(p, TwoOctets(), w, e, v, events, Final(p, TwoOctets(), v, events));
  }

  /** The second chunk goes out to a receiver that lacks the first. */
  lemma SecondChunkAlone(p: Policy) returns (events: seq<Event>)
    ensures GoesWrong(p, Scene(1, Some(0), Pushed(Two()), true, [], [One(), Two()]), events)
  {
    var w := Scene(1, Some(0), Pushed(Two()), true, [], [One(), Two()]);
    var v := Scene(1, Some(0), Emitted(Two()), true, [Two()], [One(), Two()]);
    var end := v.(link := [], done := [[2]]);
    assert v.link == [Parcel(0, Two())] && v.link[1..] == [];
    assert Goes(p, TwoOctets(), w, SendOk, v);
    assert [] + [2] == [2];
    assert Goes(p, TwoOctets(), v, Deliver, end);
    TwoSteps(p, TwoOctets(), w, SendOk, v, Deliver, end);
    events := [SendOk, Deliver];
  }

  lemma PushesTwo(p: Policy, pending: Option<nat>, up: bool)
    ensures Goes(p, TwoOctets(), Scene(1, pending, Credited(1), up, [], [One()]), PushBody([2]),
                 Scene(1, pending, Pushed(Two()), up, [], [One(), Two()]))
  {
    assert [1, 2][1..2] == [2] && [One()] + [Two()] == [One(), Two()];
    RingOfBoth();
    hide Push, Evict, Covers;
  }

  /** From here the producer credits and pushes the second chunk. */
  lemma AfterAcceptedResume(p: Policy) returns (events: seq<Event>)
    ensures GoesWrong(p, Scene(1, Some(0), Credited(1), true, [], [One()]), events)
  {
    var rest := SecondChunkAlone(p);
    var w := Scene(1, Some(0), Credited(1), true, [], [One()]);
    PushesTwo(p, Some(0), true);
    Before(p, w, PushBody([2]), Scene(1, Some(0), Pushed(Two()), true, [], [One(), Two()]), rest);
    events := [PushBody([2])] + rest;
  }

  lemma RingOfBoth()
    ensures Push([], 2, One()) == [One()] && Push([One()], 2, Two()) == [One(), Two()]
    ensures Covers([One(), Two()], 0)
  {
    assert [One(), Two()][0].offset == 0;
    assert [] + [One()] == [One()] && [One()] + [Two()] == [One(), Two()];
    assert [One(), Two()][1..] == [Two()] && [Two()][1..] == [] && [One()][1..] == [];
    assert Wire([Two()]) == 1 && Wire([One()]) == 1 && Wire([One(), Two()]) == 2;
  }

  lemma ResumedWhileProducing(p: Policy) returns (events: seq<Event>)
    ensures GoesWrong(p, Scene(1, Some(0), Producing, true, [], [One()]), events)
  {
    var rest := AfterAcceptedResume(p);
    Before(p, Scene(1, Some(0), Producing, true, [], [One()]), GrantCredit(1),
           Scene(1, Some(0), Credited(1), true, [], [One()]), rest);
    events := [GrantCredit(1)] + rest;
  }

  // The first chunk was recorded and lost. Each lemma accepts the receiver's true
  // resume at offset 0 in one more place.

  function Lost(): World {
    Scene(1, None, Producing, false, [], [One()])
  }

  lemma FailsAtProducing(p: Policy) returns (events: seq<Event>)
    requires Situation(AtProducing, false) in p.extra
    ensures GoesWrong(p, Lost(), events)
  {
    var rest := ResumedWhileProducing(p);
    Before(p, Lost(), ResumeFromReceiver(0), Scene(1, Some(0), Producing, true, [], [One()]), rest);
    events := [ResumeFromReceiver(0)] + rest;
  }

  lemma FailsAtCredited(p: Policy) returns (events: seq<Event>)
    requires Situation(AtCredited, false) in p.extra
    ensures GoesWrong(p, Lost(), events)
  {
    var rest := AfterAcceptedResume(p);
    var w := Scene(1, None, Credited(1), false, [], [One()]);
    Before(p, w, ResumeFromReceiver(0), Scene(1, Some(0), Credited(1), true, [], [One()]), rest);
    Before(p, Lost(), GrantCredit(1), w, [ResumeFromReceiver(0)] + rest);
    events := [GrantCredit(1)] + ([ResumeFromReceiver(0)] + rest);
  }

  /** The second chunk is pushed while the link is still down. */
  lemma PushedWhileDown(p: Policy, rest: seq<Event>) returns (events: seq<Event>)
    requires GoesWrong(p, Scene(1, None, Pushed(Two()), false, [], [One(), Two()]), rest)
    ensures GoesWrong(p, Lost(), events)
  {
    var w := Scene(1, None, Credited(1), false, [], [One()]);
    var v := Scene(1, None, Pushed(Two()), false, [], [One(), Two()]);
    PushesTwo(p, None, false);
    Before(p, w, PushBody([2]), v, rest);
    Before(p, Lost(), GrantCredit(1), w, [PushBody([2])] + rest);
    events := [GrantCredit(1)] + ([PushBody([2])] + rest);
  }

  lemma FailsAtPushed(p: Policy) returns (events: seq<Event>)
    requires Situation(AtPushed, false) in p.extra
    ensures GoesWrong(p, Lost(), events)
  {
    var rest := SecondChunkAlone(p);
    var w := Scene(1, None, Pushed(Two()), false, [], [One(), Two()]);
    RingOfBoth();
    Before(p, w, ResumeFromReceiver(0), Scene(1, Some(0), Pushed(Two()), true, [], [One(), Two()]), rest);
    events := PushedWhileDown(p, [ResumeFromReceiver(0)] + rest);
  }

  /** The replay goes on with the second chunk. */
  lemma ReplayGoesOn(p: Policy) returns (events: seq<Event>)
    ensures GoesWrong(p, Scene(1, Some(0), Replaying([Two()]), true, [], [One(), Two()]), events)
  {
    var both := [One(), Two()];
    var back := Scene(1, Some(0), Replaying([Two()]), true, [], both);
    var sent := Scene(if p.records then 2 else 1, Some(0), Replaying([]), true, [Two()], both);
    var end := sent.(link := [], done := [[2]]);
    assert [Two()][1..] == [] && [] + [2] == [2] && sent.link == [Parcel(0, Two())];
    assert Goes(p, TwoOctets(), back, ReplayOk(p.records), sent);
    assert Goes(p, TwoOctets(), sent, Deliver, end);
    TwoSteps(p, TwoOctets(), back, ReplayOk(p.records), sent, Deliver, end);
    events := [ReplayOk(p.records), Deliver];
  }

  /** A second loss during the replay, and a second resume before it ends. */
  lemma SecondLoss(p: Policy) returns (events: seq<Event>)
    requires Situation(AtReplay, false) in p.extra
    ensures GoesWrong(p, Scene(1, None, Replaying([Two()]), true, [One()], [One(), Two()]), events)
  {
    var both := [One(), Two()];
    var rest := ReplayGoesOn(p);
    var w := Scene(1, None, Replaying([Two()]), true, [One()], both);
    var lost := Scene(1, None, Replaying([Two()]), false, [], both);
    assert w.link[..0] == [];
    RingOfBoth();
    Before(p, lost, ResumeFromReceiver(0), Scene(1, Some(0), Replaying([Two()]), true, [], both), rest);
    Before(p, w, Disconnect(0), lost, [ResumeFromReceiver(0)] + rest);
    events := [Disconnect(0)] + ([ResumeFromReceiver(0)] + rest);
  }

  lemma WokenReplay(p: Policy) returns (events: seq<Event>)
    requires Situation(AtReplay, false) in p.extra
    ensures GoesWrong(p, Scene(1, Some(0), Parked, true, [], [One(), Two()]), events)
  {
    var both := [One(), Two()];
    var rest := SecondLoss(p);
    var replaying := Scene(1, None, Replaying(both), true, [], both);
    var sent := Scene(1, None, Replaying([Two()]), true, [One()], both);
    assert both[1..] == [Two()] && [Two()][1..] == [] && sent.link == [Parcel(0, One())];
    Before(p, replaying, ReplayOk(p.records), sent, rest);
    assert ReplayFrom(both, 0) == both;
    Before(p, Scene(1, Some(0), Parked, true, [], both), WakeResumed, replaying, [ReplayOk(p.records)] + rest);
    events := [WakeResumed] + ([ReplayOk(p.records)] + rest);
  }

  lemma FailsAtReplay(p: Policy) returns (events: seq<Event>)
    requires Situation(AtReplay, false) in p.extra
    ensures GoesWrong(p, Lost(), events)
  {
    var both := [One(), Two()];
    var rest := WokenReplay(p);
    var parked := Scene(1, None, Parked, false, [], both);
    RingOfBoth();
    Before(p, parked, ResumeFromReceiver(0), Scene(1, Some(0), Parked, true, [], both), rest);
    rest := [ResumeFromReceiver(0)] + rest;
    Before(p, Scene(1, None, Pushed(Two()), false, [], both), SendDisconnected, parked, rest);
    events := PushedWhileDown(p, [SendDisconnected] + rest);
  }

  // ---- from the start -----------------------------------------------------

  lemma FirstChunkEmitted(p: Policy, rest: seq<Event>) returns (events: seq<Event>)
    requires GoesWrong(p, Scene(0, None, Emitted(One()), false, [], [One()]), rest)
    ensures GoesWrong(p, Scene(0, None, Pushed(One()), true, [], [One()]), events)
  {
    var emitted := Scene(0, None, Emitted(One()), true, [One()], [One()]);
    assert emitted.link == [Parcel(0, One())];
    Before(p, emitted, Disconnect(0), Scene(0, None, Emitted(One()), false, [], [One()]), rest);
    Before(p, Scene(0, None, Pushed(One()), true, [], [One()]), SendOk, emitted, [Disconnect(0)] + rest);
    events := [SendOk] + ([Disconnect(0)] + rest);
  }

  lemma FirstChunkSent(p: Policy, rest: seq<Event>) returns (events: seq<Event>)
    requires GoesWrong(p, Scene(0, None, Emitted(One()), false, [], [One()]), rest)
    ensures GoesWrong(p, Start(2, 2, 0), events)
  {
    var credited := Scene(0, None, Credited(1), true, [], []);
    events := FirstChunkEmitted(p, rest);
    assert Scene(0, None, Producing, true, [], []) == Start(2, 2, 0);
    assert [1, 2][0..1] == [1] && [] + [One()] == [One()];
    RingOfBoth();
    Before(p, credited, PushBody([1]), Scene(0, None, Pushed(One()), true, [], [One()]), events);
    events := [PushBody([1])] + events;
    Before(p, Start(2, 2, 0), GrantCredit(1), credited, events);
    events := [GrantCredit(1)] + events;
  }

  lemma FailsAtEmitted(p: Policy) returns (events: seq<Event>)
    requires Situation(AtEmitted, false) in p.extra
    ensures GoesWrong(p, Start(2, 2, 0), events)
  {
    var rest := ResumedWhileProducing(p);
    var back := Scene(0, Some(0), Emitted(One()), true, [], [One()]);
    Before(p, back, RecordEmitted, Scene(1, Some(0), Producing, true, [], [One()]), rest);
    rest := [RecordEmitted] + rest;
    Before(p, Scene(0, None, Emitted(One()), false, [], [One()]), ResumeFromReceiver(0), back, rest);
    events := FirstChunkSent(p, [ResumeFromReceiver(0)] + rest);
  }

  /** Wherever a resume may find the producer about to send something else, there is a
      run from the start, with every other resume accepted in `Parked`, after which the
      receiver takes the second octet for the whole file. */
  lemma MisalignedResumeFails(p: Policy, s: Situation) returns (events: seq<Event>)
    requires s in p.extra && !s.aligned && s.at != AtStop
    ensures GoesWrong(p, Start(2, 2, 0), events)
  {
    if s.at == AtEmitted {
      events := FailsAtEmitted(p);
      return;
    }
    var rest: seq<Event>;
    match s.at {
      case AtProducing => rest := FailsAtProducing(p);
      case AtCredited => rest := FailsAtCredited(p);
      case AtPushed => rest := FailsAtPushed(p);
      case _ => rest := FailsAtReplay(p);
    }
    Before(p, Scene(0, None, Emitted(One()), false, [], [One()]), RecordEmitted, Lost(), rest);
    events := FirstChunkSent(p, [RecordEmitted] + rest);
  }

  ghost predicate AlwaysExact(p: Policy) {
    forall job: Job, window: nat, capacity: nat, peer: PeerId, events: seq<Event>
      | job.files != [] && IsRun(p, job, Start(window, capacity, peer), events) ::
      Exact(job, Final(p, job, Start(window, capacity, peer), events))
  }

  /** For every policy: delivery is exactly-once in every run, of every job, if and
      only if, besides a parked or stopped producer, resumes are accepted only when the
      producer is about to send the very chunk the receiver asks for. */
  lemma ExactlyOnceIffResumesAligned(p: Policy)
    ensures AlwaysExact(p) <==> Harmless(p.extra)
  {
    if Harmless(p.extra) {
      forall job: Job, window: nat, capacity: nat, peer: PeerId, events: seq<Event>
        | job.files != [] && IsRun(p, job, Start(window, capacity, peer), events)
        ensures Exact(job, Final(p, job, Start(window, capacity, peer), events))
      {
        DeliveryIsExactlyOnce(p, job, window, capacity, peer, events);
      }
    } else {
      var s :| s in p.extra && !s.aligned && s.at != AtStop;
      var events := MisalignedResumeFails(p, s);
      WrongIsNotExact(Final(p, TwoOctets(), Start(2, 2, 0), events));
    }
  }
}
