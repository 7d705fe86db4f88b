/** Runs that overrun the credit window, one for each way of losing count, and the
    exact condition under which none does. */
module WindowOverruns {
  import opened Common
  import opened Replay
  import opened Transfer
  import opened Delivery
  import opened RecoveryWindow

  // ---- replays that are not recorded, or given up -------------------------

  // A file sent as two chunks, each of which fits the window, but not both.

  datatype Halves = Halves(a: seq<byte>, b: seq<byte>, window: nat) {
    ghost predicate Overfull() {
      a != [] && b != [] && |a| <= window && |b| <= window < |a| + |b|
    }

    function Whole(): Job {
      Job([a + b], x => x)
    }

    function First(): RingChunk {
      RingChunk(0, |a|, false, a)
    }

    function Second(): RingChunk {
      RingChunk(|a|, |b|, true, b)
    }

    /** A moment in which nothing was acknowledged or delivered yet. */
    function Scene(
      sent: nat, pending: Option<nat>, phase: Phase, up: bool, link: seq<Parcel>, log: seq<RingChunk>): World
    {
      World(Control(window, sent, 0, 0, None, log, |a| + |b|, Some(0), pending), phase, up, 0, link, [], [], log)
    }

    function Begin(): World {
      Start(window, |a| + |b|, 0)
    }
  }

  lemma Rings(h: Halves)
    ensures Push([], |h.a| + |h.b|, h.First()) == [h.First()]
    ensures Push([h.First()], |h.a| + |h.b|, h.Second()) == [h.First(), h.Second()]
    ensures ReplayFrom([h.First()], 0) == [h.First()]
    ensures ReplayFrom([h.First(), h.Second()], 0) == [h.First(), h.Second()]
    ensures Covers([h.First()], 0) && Covers([h.First(), h.Second()], 0)
  {
    var x, y := h.First(), h.Second();
    assert [] + [x] == [x] && [x] + [y] == [x, y];
    assert [x, y][1..] == [y] && [y][1..] == [] && [x][1..] == [];
    assert Wire([x]) == |h.a| && Wire([y]) == |h.b| && Wire([x, y]) == |h.a| + |h.b|;
    assert [x][0].offset == 0 && [x, y][0].offset == 0;
  }

  lemma Parts(h: Halves)
    ensures (h.a + h.b)[0..|h.a|] == h.a && (h.a + h.b)[|h.a|..|h.a| + |h.b|] == h.b
  {
  }

  /** The first chunk is pushed, */
  lemma PushFirst(p: Policy, h: Halves)
    requires h.Overfull()
    ensures Reaches(p, h.Whole(), h.Begin(), [GrantCredit(|h.a|), PushBody(h.a)],
                    h.Scene(0, None, Pushed(h.First()), true, [], [h.First()]))
  {
    Rings(h);
    Parts(h);
    assert h.Begin() == h.Scene(0, None, Producing, true, [], []) && [] + [h.First()] == [h.First()];
    TwoSteps(p, h.Whole(), h.Begin(), GrantCredit(|h.a|), h.Scene(0, None, Credited(|h.a|), true, [], []),
             PushBody(h.a), h.Scene(0, None, Pushed(h.First()), true, [], [h.First()]));
  }

  /** its send finds the peer gone, */
  lemma LoseFirst(p: Policy, h: Halves)
    ensures Reaches(p, h.Whole(), h.Scene(0, None, Pushed(h.First()), true, [], [h.First()]),
                    [Disconnect(0), SendDisconnected], h.Scene(0, None, Parked, false, [], [h.First()]))
  {
    var log := [h.First()];
    TwoSteps(p, h.Whole(), h.Scene(0, None, Pushed(h.First()), true, [], log), Disconnect(0),
             h.Scene(0, None, Pushed(h.First()), false, [], log),
             SendDisconnected, h.Scene(0, None, Parked, false, [], log));
  }

  /** and the receiver resumes from the start. */
  lemma ResumeAtZero(p: Policy, h: Halves, log: seq<RingChunk>)
    requires Covers(log, 0) && ReplayFrom(log, 0) == log
    ensures Reaches(p, h.Whole(), h.Scene(0, None, Parked, false, [], log),
                    [ResumeFromReceiver(0), WakeResumed], h.Scene(0, None, Replaying(log), true, [], log))
  {
    hide Covers, ReplayFrom, Push;
    TwoSteps(p, h.Whole(), h.Scene(0, None, Parked, false, [], log), ResumeFromReceiver(0),
             h.Scene(0, Some(0), Parked, true, [], log),
             WakeResumed, h.Scene(0, None, Replaying(log), true, [], log));
  }

  lemma FirstReplayBegins(p: Policy, h: Halves) returns (events: seq<Event>)
    requires h.Overfull()
    ensures Reaches(p, h.Whole(), h.Begin(), events,
                    h.Scene(0, None, Replaying([h.First()]), true, [], [h.First()]))
  {
    hide Reaches;
    var job, log := h.Whole(), [h.First()];
    var pushed, parked := h.Scene(0, None, Pushed(h.First()), true, [], log), h.Scene(0, None, Parked, false, [], log);
    PushFirst(p, h);
    LoseFirst(p, h);
    Rings(h);
    ResumeAtZero(p, h, log);
    events := [GrantCredit(|h.a|), PushBody(h.a)];
    Both(p, job, h.Begin(), events, pushed, [Disconnect(0), SendDisconnected], parked);
    events := events + [Disconnect(0), SendDisconnected];
    Both(p, job, h.Begin(), events, parked, [ResumeFromReceiver(0), WakeResumed],
         h.Scene(0, None, Replaying(log), true, [], log));
    events := events + [ResumeFromReceiver(0), WakeResumed];
  }

  /** With `sent` still 0 the second chunk is credited as if the first did not exist. */
  lemma PushSecond(p: Policy, h: Halves, up: bool, link: seq<Parcel>)
    requires h.Overfull()
    ensures Reaches(p, h.Whole(), h.Scene(0, None, Producing, up, link, [h.First()]),
                    [GrantCredit(|h.b|), PushBody(h.b)],
                    h.Scene(0, None, Pushed(h.Second()), up, link, [h.First(), h.Second()]))
  {
    Rings(h);
    Parts(h);
    assert [h.First()] + [h.Second()] == [h.First(), h.Second()];
    TwoSteps(p, h.Whole(), h.Scene(0, None, Producing, up, link, [h.First()]), GrantCredit(|h.b|),
             h.Scene(0, None, Credited(|h.b|), up, link, [h.First()]),
             PushBody(h.b), h.Scene(0, None, Pushed(h.Second()), up, link, [h.First(), h.Second()]));
  }

  ghost predicate Overruns(p: Policy, h: Halves, events: seq<Event>) {
    IsRun(p, h.Whole(), h.Begin(), events) && !WithinWindow(Final(p, h.Whole(), h.Begin(), events))
  }

  lemma BothInFlight(h: Halves, w: World)
    requires h.Overfull() && w.ctl.sent == |h.a| + |h.b| && w.ctl.acked == 0 && w.ctl.window == h.window
    requires w.log == [h.First(), h.Second()]
    ensures !WithinWindow(w)
  {
  }

  // Not recording: the replay of the first chunk goes through unrecorded.

  lemma ReplayUnrecorded(p: Policy, h: Halves)
    requires !p.records
    ensures Reaches(p, h.Whole(), h.Scene(0, None, Replaying([h.First()]), true, [], [h.First()]),
                    [ReplayOk(false), ReplayDone],
                    h.Scene(0, None, Producing, true, [Parcel(0, h.First())], [h.First()]))
  {
    var log, link := [h.First()], [Parcel(0, h.First())];
    assert log[1..] == [] && [] + link == link;
    TwoSteps(p, h.Whole(), h.Scene(0, None, Replaying(log), true, [], log), ReplayOk(false),
             h.Scene(0, None, Replaying([]), true, link, log),
             ReplayDone, h.Scene(0, None, Producing, true, link, log));
  }

  lemma SendSecond(p: Policy, h: Halves, link: seq<Parcel>) returns (end: World)
    ensures Reaches(p, h.Whole(), h.Scene(0, None, Pushed(h.Second()), true, link, [h.First(), h.Second()]),
                    [SendOk, RecordEmitted], end)
    ensures end.ctl.sent == |h.a| + |h.b| && end.ctl.acked == 0 && end.ctl.window == h.window
    ensures end.log == [h.First(), h.Second()]
  {
    var log, sent := [h.First(), h.Second()], link + [Parcel(0, h.Second())];
    end := h.Scene(|h.a| + |h.b|, None, Producing, true, sent, log);
    TwoSteps(p, h.Whole(), h.Scene(0, None, Pushed(h.Second()), true, link, log), SendOk,
             h.Scene(0, None, Emitted(h.Second()), true, sent, log), RecordEmitted, end);
  }

  /** A producer that replays without recording, as the sketch in the streaming guide
      does, has a run that ends with both chunks in flight. */
  lemma UnrecordedReplayOverrunsWindow(p: Policy, h: Halves) returns (events: seq<Event>)
    requires !p.records && h.Overfull()
    ensures Overruns(p, h, events)
  {
    hide Reaches;
    var job, link := h.Whole(), [Parcel(0, h.First())];
    var u := h.Scene(0, None, Replaying([h.First()]), true, [], [h.First()]);
    var v := h.Scene(0, None, Producing, true, link, [h.First()]);
    var w := h.Scene(0, None, Pushed(h.Second()), true, link, [h.First(), h.Second()]);
    events := FirstReplayBegins(p, h);
    ReplayUnrecorded(p, h);
    Both(p, job, h.Begin(), events, u, [ReplayOk(false), ReplayDone], v);
    events := events + [ReplayOk(false), ReplayDone];
    PushSecond(p, h, true, link);
    Both(p, job, h.Begin(), events, v, [GrantCredit(|h.b|), PushBody(h.b)], w);
    events := events + [GrantCredit(|h.b|), PushBody(h.b)];
    var end := SendSecond(p, h, link);
    Both(p, job, h.Begin(), events, w, [SendOk, RecordEmitted], end);
    events := events + [SendOk, RecordEmitted];
    BothInFlight(h, end);
    ReachedOverrun(p, h, events, end);
  }

  lemma ReachedOverrun(p: Policy, h: Halves, events: seq<Event>, end: World)
    requires Reaches(p, h.Whole(), h.Begin(), events, end) && !WithinWindow(end)
    ensures Overruns(p, h, events)
  {
  }

  // Not parking: the replay of the first chunk is cut off and given up.

  lemma ReplayGivenUp(p: Policy, h: Halves) returns (events: seq<Event>)
    requires !p.parks
    ensures Reaches(p, h.Whole(), h.Scene(0, None, Replaying([h.First()]), true, [], [h.First()]), events,
                    h.Scene(0, None, Producing, false, [], [h.First()]))
  {
    var job, log := h.Whole(), [h.First()];
    var lost := h.Scene(0, None, Replaying(log), false, [], log);
    var skipped := h.Scene(0, None, Replaying([]), false, [], log);
    var end := h.Scene(0, None, Producing, false, [], log);
    assert log[1..] == [];
    TwoSteps(p, job, lost, ReplayDisconnected(false), skipped, ReplayDone, end);
    assert Goes(p, job, h.Scene(0, None, Replaying(log), true, [], log), Disconnect(0), lost);
    Delivery.First(p, job, h.Scene(0, None, Replaying(log), true, [], log), Disconnect(0), lost,
                   [ReplayDisconnected(false), ReplayDone], end);
    events := [Disconnect(0)] + [ReplayDisconnected(false), ReplayDone];
  }

  lemma ReplayBothRecorded(p: Policy, h: Halves) returns (end: World)
    requires p.records
    ensures var log := [h.First(), h.Second()];
      Reaches(p, h.Whole(), h.Scene(0, None, Replaying(log), true, [], log), [ReplayOk(true), ReplayOk(true)], end)
    ensures end.ctl.sent == |h.a| + |h.b| && end.ctl.acked == 0 && end.ctl.window == h.window
    ensures end.log == [h.First(), h.Second()]
  {
    var log := [h.First(), h.Second()];
    var x, y := Parcel(0, h.First()), Parcel(0, h.Second());
    assert log[1..] == [h.Second()] && [h.Second()][1..] == [] && [] + [x] == [x] && [x] + [y] == [x, y];
    end := h.Scene(|h.a| + |h.b|, None, Replaying([]), true, [x, y], log);
    TwoSteps(p, h.Whole(), h.Scene(0, None, Replaying(log), true, [], log), ReplayOk(true),
             h.Scene(|h.a|, None, Replaying([h.Second()]), true, [x], log), ReplayOk(true), end);
  }

  lemma ParkSecond(p: Policy, h: Halves)
    ensures Reaches(p, h.Whole(), h.Scene(0, None, Pushed(h.Second()), false, [], [h.First(), h.Second()]),
                    [SendDisconnected], h.Scene(0, None, Parked, false, [], [h.First(), h.Second()]))
  {
    var log := [h.First(), h.Second()];
    Delivery.First(p, h.Whole(), h.Scene(0, None, Pushed(h.Second()), false, [], log), SendDisconnected,
                   h.Scene(0, None, Parked, false, [], log), [], h.Scene(0, None, Parked, false, [], log));
    assert [SendDisconnected] + [] == [SendDisconnected];
  }

  /** So does one that records every replay but carries on when a replay is cut off. */
  lemma UnparkedReplayOverrunsWindow(p: Policy, h: Halves) returns (events: seq<Event>)
    requires p.records && !p.parks && h.Overfull()
    ensures Overruns(p, h, events)
  {
    hide Reaches;
    var job, log := h.Whole(), [h.First(), h.Second()];
    var u := h.Scene(0, None, Replaying([h.First()]), true, [], [h.First()]);
    var v := h.Scene(0, None, Producing, false, [], [h.First()]);
    events := FirstReplayBegins(p, h);
    var skip := ReplayGivenUp(p, h);
    Both(p, job, h.Begin(), events, u, skip, v);
    events := events + skip;
    var pushed := h.Scene(0, None, Pushed(h.Second()), false, [], log);
    var parked := h.Scene(0, None, Parked, false, [], log);
    PushSecond(p, h, false, []);
    Both(p, job, h.Begin(), events, v, [GrantCredit(|h.b|), PushBody(h.b)], pushed);
    events := events + [GrantCredit(|h.b|), PushBody(h.b)];
    ParkSecond(p, h);
    Both(p, job, h.Begin(), events, pushed, [SendDisconnected], parked);
    events := events + [SendDisconnected];
    var woken := h.Scene(0, None, Replaying(log), true, [], log);
    Rings(h);
    ResumeAtZero(p, h, log);
    Both(p, job, h.Begin(), events, parked, [ResumeFromReceiver(0), WakeResumed], woken);
    events := events + [ResumeFromReceiver(0), WakeResumed];
    var end := ReplayBothRecorded(p, h);
    Both(p, job, h.Begin(), events, woken, [ReplayOk(true), ReplayOk(true)], end);
    events := events + [ReplayOk(true), ReplayOk(true)];
    BothInFlight(h, end);
    ReachedOverrun(p, h, events, end);
  }

  // ---- a resume in the middle of a replay ---------------------------------

  function SixOctets(): Job {
    Job([[1, 2, 3, 4, 5, 6]], x => x)
  }

  function A(): RingChunk { RingChunk(0, 1, false, [1]) }

  function B(): RingChunk { RingChunk(1, 1, false, [2]) }

  function C(): RingChunk { RingChunk(2, 1, false, [3]) }

  function D(): RingChunk { RingChunk(3, 3, true, [4, 5, 6]) }

  function AB(): seq<RingChunk> { [A(), B()] }

  function ABC(): seq<RingChunk> { [A(), B(), C()] }

  function ABCD(): seq<RingChunk> { [A(), B(), C(), D()] }

  function Parcels(cs: seq<RingChunk>): seq<Parcel> {
    if cs == [] then [] else [Parcel(0, cs[0])] + Parcels(cs[1..])
  }

  function Scene(
    sent: nat, acked: nat, pending: Option<nat>, phase: Phase, up: bool, link: seq<RingChunk>, received: seq<byte>,
    log: seq<RingChunk>): World
  {
    World(Control(3, sent, acked, 0, None, log, 6, Some(0), pending), phase, up, 0, Parcels(link), received, [], log)
  }

  lemma FourRings()
    ensures Push([], 6, A()) == [A()] && Push([A()], 6, B()) == AB()
    ensures Push(AB(), 6, C()) == ABC() && Push(ABC(), 6, D()) == ABCD()
  {
    var a, b, c, d := A(), B(), C(), D();
    assert [] + [a] == [a] && [a] + [b] == [a, b] && [a, b] + [c] == [a, b, c] && [a, b, c] + [d] == [a, b, c, d];
    WireAppend([], a);
    WireAppend([a], b);
    WireAppend([a, b], c);
    WireAppend([a, b, c], d);
  }

  lemma Replays()
    ensures ReplayFrom([A()], 0) == [A()]
    ensures ReplayFrom(ABC(), 0) == ABC()
    ensures ReplayFrom(ABC(), 3) == []
    ensures Covers([A()], 0) && Covers(ABC(), 1) && Covers(ABC(), 3)
  {
    var all := ABC();
    assert [A()][1..] == [] && all[1..] == [B(), C()] && [B(), C()][1..] == [C()] && [C()][1..] == [];
    assert [A()][0].offset == 0 && all[1].offset == 1;
  }

  lemma Links()
    ensures Parcels([]) == []
    ensures Parcels([A()]) == [Parcel(0, A())] && Parcels([B()]) == [Parcel(0, B())]
    ensures Parcels([D()]) == [Parcel(0, D())]
  {
    assert [A()][1..] == [] && [B()][1..] == [] && [D()][1..] == [];
  }

  lemma Slices()
    ensures var file := SixOctets().files[0];
      file[0..1] == [1] && file[1..2] == [2] && file[2..3] == [3] && file[3..6] == [4, 5, 6]
  {
  }

  /** The moments of the run, two moves apart. */
  function Moment(k: nat): World {
    match k
    case 0 => Scene(0, 0, None, Producing, true, [], [], [])
    case 1 => Scene(0, 0, None, Pushed(A()), true, [], [], [A()])
    case 2 => Scene(0, 0, None, Parked, false, [], [], [A()])
    case 3 => Scene(0, 0, None, Replaying([A()]), true, [], [], [A()])
    case 4 => Scene(1, 0, None, Replaying([]), false, [], [], [A()])
    case 5 => Scene(1, 0, Some(0), Producing, true, [], [], [A()])
    case 6 => Scene(1, 0, Some(0), Pushed(B()), true, [], [], AB())
    case 7 => Scene(2, 0, Some(0), Producing, true, [B()], [], AB())
    case 8 => Scene(2, 0, Some(0), Producing, false, [], [2], AB())
    case 9 => Scene(2, 0, Some(0), Pushed(C()), false, [], [2], ABC())
    case 10 => Scene(2, 0, None, Replaying(ABC()), false, [], [2], ABC())
    case 11 => Scene(2, 1, Some(1), Replaying([B(), C()]), true, [A()], [2], ABC())
    case 12 => Scene(2, 1, Some(1), Replaying([C()]), true, [B()], [2, 1], ABC())
    case 13 => Scene(2, 1, Some(1), Replaying([C()]), false, [], [2, 1, 2], ABC())
    case 14 => Scene(2, 1, Some(3), Parked, true, [], [2, 1, 2], ABC())
    case 15 => Scene(2, 1, None, Producing, true, [], [2, 1, 2], ABC())
    case 16 => Scene(2, 2, None, Credited(3), true, [], [2, 1, 2], ABC())
    case _ => Scene(2, 2, None, Emitted(D()), true, [D()], [2, 1, 2], ABCD())
  }

  /** The moves between them. */
  function Moves(k: nat): seq<Event> {
    match k
    case 0 => [GrantCredit(1), PushBody([1])]
    case 1 => [Disconnect(0), SendDisconnected]
    case 2 => [ResumeFromReceiver(0), WakeResumed]
    case 3 => [ReplayOk(true), Disconnect(0)]
    case 4 => [ResumeFromReceiver(0), ReplayDone]
    case 5 => [GrantCredit(1), PushBody([2])]
    case 6 => [SendOk, RecordEmitted]
    case 7 => [Deliver, Disconnect(0)]
    case 8 => [GrantCredit(1), PushBody([3])]
    case 9 => [SendDisconnected, WakeResumed]
    case 10 => [ResumeFromReceiver(0), ReplayOk(true)]
    case 11 => [Deliver, ReplayOk(true)]
    case 12 => [Deliver, Disconnect(0)]
    case 13 => [ReplayDisconnected(true), ResumeFromReceiver(0)]
    case 14 => [WakeResumed, ReplayDone]
    case 15 => [Handler(RecordAck(0, 2)), GrantCredit(3)]
    case _ => [PushBody([4, 5, 6]), SendOk]
  }

  /** A policy under which the counters are kept but for the resume. */
  predicate ResumesInReplay(p: Policy) {
    p.records && p.parks && Situation(AtReplay, false) in p.extra
  }

  ghost predicate Moved(p: Policy, k: nat) {
    Reaches(p, SixOctets(), Moment(k), Moves(k), Moment(k + 1))
  }

  /** The first octet is pushed, its send fails, */
  lemma PushA(p: Policy)
    requires ResumesInReplay(p)
    ensures Moved(p, 0)
  {
    FourRings();
    Slices();
    assert [] + [A()] == [A()];
    TwoSteps(p, SixOctets(), Moment(0), GrantCredit(1),
             Scene(0, 0, None, Credited(1), true, [], [], []), PushBody([1]), Moment(1));
  }

  lemma LoseA(p: Policy)
    requires ResumesInReplay(p)
    ensures Moved(p, 1)
  {
    Links();
    TwoSteps(p, SixOctets(), Moment(1), Disconnect(0),
             Scene(0, 0, None, Pushed(A()), false, [], [], [A()]), SendDisconnected, Moment(2));
  }

  /** the receiver resumes, */
  lemma ResumeAtA(p: Policy)
    requires ResumesInReplay(p)
    ensures Moved(p, 2)
  {
    Replays();
    hide Covers, ReplayFrom, Push;
    TwoSteps(p, SixOctets(), Moment(2), ResumeFromReceiver(0),
             Scene(0, 0, Some(0), Parked, true, [], [], [A()]), WakeResumed, Moment(3));
  }

  /** and the replayed octet is recorded and lost again. */
  lemma ReplayALost(p: Policy)
    requires ResumesInReplay(p)
    ensures Moved(p, 3)
  {
    Links();
    assert [A()][1..] == [];
    TwoSteps(p, SixOctets(), Moment(3), ReplayOk(true),
             Scene(1, 0, None, Replaying([]), true, [A()], [], [A()]), Disconnect(0), Moment(4));
  }

  /** The next resume comes before the replay is over and leaves offset 0 staged. */
  lemma ResumeBehindReplay(p: Policy)
    requires ResumesInReplay(p)
    ensures Moved(p, 4)
  {
    Replays();
    hide Covers, ReplayFrom, Push;
    TwoSteps(p, SixOctets(), Moment(4), ResumeFromReceiver(0),
             Scene(1, 0, Some(0), Replaying([]), true, [], [], [A()]), ReplayDone, Moment(5));
  }

  /** The second octet is pushed, recorded */
  lemma PushB(p: Policy)
    requires ResumesInReplay(p)
    ensures Moved(p, 5)
  {
    FourRings();
    Slices();
    assert [A()] + [B()] == AB();
    TwoSteps(p, SixOctets(), Moment(5), GrantCredit(1),
             Scene(1, 0, Some(0), Credited(1), true, [], [], [A()]), PushBody([2]), Moment(6));
  }

  lemma SendB(p: Policy)
    requires ResumesInReplay(p)
    ensures Moved(p, 6)
  {
    Links();
    TwoSteps(p, SixOctets(), Moment(6), SendOk,
             Scene(1, 0, Some(0), Emitted(B()), true, [B()], [], AB()), RecordEmitted, Moment(7));
  }

  /** and delivered: the receiver has one octet, the wrong one. */
  lemma DeliverB(p: Policy)
    requires ResumesInReplay(p)
    ensures Moved(p, 7)
  {
    Links();
    assert [] + [2] == [2];
    TwoSteps(p, SixOctets(), Moment(7), Deliver,
             Scene(2, 0, Some(0), Producing, true, [], [2], AB()), Disconnect(0), Moment(8));
  }

  /** The third octet is pushed and its send fails. */
  lemma PushC(p: Policy)
    requires ResumesInReplay(p)
    ensures Moved(p, 8)
  {
    FourRings();
    Slices();
    assert AB() + [C()] == ABC();
    TwoSteps(p, SixOctets(), Moment(8), GrantCredit(1),
             Scene(2, 0, Some(0), Credited(1), false, [], [2], AB()), PushBody([3]), Moment(9));
  }

  /** The producer parks and takes the offset that was left staged. */
  lemma WakeStale(p: Policy)
    requires ResumesInReplay(p)
    ensures Moved(p, 9)
  {
    Replays();
    hide Covers, ReplayFrom, Push;
    TwoSteps(p, SixOctets(), Moment(9), SendDisconnected,
             Scene(2, 0, Some(0), Parked, false, [], [2], ABC()), WakeResumed, Moment(10));
  }

  /** The receiver, one octet in, is resumed by a replay from 0. */
  lemma TakeUp(p: Policy)
    requires ResumesInReplay(p)
    ensures Goes(p, SixOctets(), Moment(10), ResumeFromReceiver(0),
                 Scene(2, 1, Some(1), Replaying(ABC()), true, [], [2], ABC()))
  {
    Replays();
    Links();
    hide Covers, ReplayFrom, Push;
  }

  lemma ReplayA(p: Policy)
    requires ResumesInReplay(p)
    ensures Goes(p, SixOctets(), Scene(2, 1, Some(1), Replaying(ABC()), true, [], [2], ABC()),
                 ReplayOk(true), Moment(11))
  {
    Links();
    assert ABC()[1..] == [B(), C()];
    hide Covers, ReplayFrom, Push;
  }

  lemma ResumeAheadOfReplay(p: Policy)
    requires ResumesInReplay(p)
    ensures Moved(p, 10)
  {
    TakeUp(p);
    ReplayA(p);
    hide Goes;
    TwoSteps(p, SixOctets(), Moment(10), ResumeFromReceiver(0),
             Scene(2, 1, Some(1), Replaying(ABC()), true, [], [2], ABC()), ReplayOk(true), Moment(11));
  }

  lemma ReplayB(p: Policy)
    requires ResumesInReplay(p)
    ensures Moved(p, 11)
  {
    Links();
    assert [B(), C()][1..] == [C()] && [2] + [1] == [2, 1];
    TwoSteps(p, SixOctets(), Moment(11), Deliver,
             Scene(2, 1, Some(1), Replaying([B(), C()]), true, [], [2, 1], ABC()), ReplayOk(true), Moment(12));
  }

  /** It counts three octets. The third of the file was never sent. */
  lemma LoseC(p: Policy)
    requires ResumesInReplay(p)
    ensures Moved(p, 12)
  {
    Links();
    assert [2, 1] + [2] == [2, 1, 2];
    TwoSteps(p, SixOctets(), Moment(12), Deliver,
             Scene(2, 1, Some(1), Replaying([C()]), true, [], [2, 1, 2], ABC()), Disconnect(0), Moment(13));
  }

  /** So its resume stages an offset above `sent`, */
  lemma ResumeAtEdge(p: Policy)
    requires ResumesInReplay(p)
    ensures Moved(p, 13)
  {
    Replays();
    hide Covers, ReplayFrom, Push;
    TwoSteps(p, SixOctets(), Moment(13), ReplayDisconnected(true),
             Scene(2, 1, Some(1), Parked, false, [], [2, 1, 2], ABC()), ResumeFromReceiver(0), Moment(14));
  }

  /** there is nothing to replay, and `sent` stays one octet short. */
  lemma NothingLeft(p: Policy)
    requires ResumesInReplay(p)
    ensures Moved(p, 14)
  {
    Replays();
    hide Covers, ReplayFrom, Push;
    TwoSteps(p, SixOctets(), Moment(14), WakeResumed,
             Scene(2, 1, None, Replaying([]), true, [], [2, 1, 2], ABC()), ReplayDone, Moment(15));
  }

  /** The last three octets fill the window, */
  lemma CreditD(p: Policy)
    requires ResumesInReplay(p)
    ensures Moved(p, 15)
  {
    TwoSteps(p, SixOctets(), Moment(15), Handler(RecordAck(0, 2)),
             Scene(2, 2, None, Producing, true, [], [2, 1, 2], ABC()), GrantCredit(3), Moment(16));
  }

  /** and go out on top of the one that was not counted. */
  lemma PushAll(p: Policy)
    ensures Goes(p, SixOctets(), Moment(16), PushBody([4, 5, 6]),
                 Scene(2, 2, None, Pushed(D()), true, [], [2, 1, 2], ABCD()))
  {
    FourRings();
    Slices();
    assert ABC() + [D()] == ABCD();
    hide Push, Covers;
  }

  lemma SendD(p: Policy)
    ensures Goes(p, SixOctets(), Scene(2, 2, None, Pushed(D()), true, [], [2, 1, 2], ABCD()), SendOk, Moment(17))
  {
    Links();
    hide Push, Covers;
  }

  lemma PushD(p: Policy)
    ensures Moved(p, 16)
  {
    PushAll(p);
    SendD(p);
    hide Goes;
    TwoSteps(p, SixOctets(), Moment(16), PushBody([4, 5, 6]),
             Scene(2, 2, None, Pushed(D()), true, [], [2, 1, 2], ABCD()), SendOk, Moment(17));
  }

  lemma EveryMove(p: Policy, k: nat)
    requires ResumesInReplay(p) && k < 17
    ensures Moved(p, k)
  {
    hide Moved;
    match k
    case 0 => PushA(p);
    case 1 => LoseA(p);
    case 2 => ResumeAtA(p);
    case 3 => ReplayALost(p);
    case 4 => ResumeBehindReplay(p);
    case 5 => PushB(p);
    case 6 => SendB(p);
    case 7 => DeliverB(p);
    case 8 => PushC(p);
    case 9 => WakeStale(p);
    case 10 => ResumeAheadOfReplay(p);
    case 11 => ReplayB(p);
    case 12 => LoseC(p);
    case 13 => ResumeAtEdge(p);
    case 14 => NothingLeft(p);
    case 15 => CreditD(p);
    case _ => PushD(p);
  }

  function Script(k: nat): seq<Event> {
    if k == 0 then [] else Script(k - 1) + Moves(k - 1)
  }

  lemma {:induction false} Play(p: Policy, k: nat)
    requires ResumesInReplay(p) && k <= 17
    ensures Reaches(p, SixOctets(), Moment(0), Script(k), Moment(k))
  {
    hide Moment, Moves;
    if k > 0 {
      Play(p, k - 1);
      EveryMove(p, k - 1);
      Both(p, SixOctets(), Moment(0), Script(k - 1), Moment(k - 1), Moves(k - 1), Moment(k));
    }
  }

  /** A producer that keeps count in everything else, but is resumed in the middle of a
      replay that is somewhere else, ends with four octets in flight in a window of
      three. */
  lemma ResumeInReplayOverrunsWindow(p: Policy) returns (events: seq<Event>)
    requires ResumesInReplay(p)
    ensures IsRun(p, SixOctets(), Start(3, 6, 0), events)
    ensures !WithinWindow(Final(p, SixOctets(), Start(3, 6, 0), events))
  {
    var end := Scene(6, 2, None, Producing, true, [D()], [2, 1, 2], ABCD());
    Play(p, 17);
    assert Moment(0) == Start(3, 6, 0) by {
      Links();
    }
    assert Goes(p, SixOctets(), Moment(17), RecordEmitted, end);
    Delivery.First(p, SixOctets(), Moment(17), RecordEmitted, end, [], end);
    Both(p, SixOctets(), Moment(0), Script(17), Moment(17), [RecordEmitted] + [], end);
    events := Script(17) + ([RecordEmitted] + []);
    assert LastLen(end.log) == 3;
  }

  // ---- for every policy ---------------------------------------------------

  ghost predicate AlwaysWithinWindow(p: Policy) {
    forall job: Job, window: nat, capacity: nat, peer: PeerId, events: seq<Event>
      | job.files != [] && IsRun(p, job, Start(window, capacity, peer), events) ::
      WithinWindow(Final(p, job, Start(window, capacity, peer), events))
  }

  /** For every policy: the window bound holds in every run if and only if the producer
      records what it replays, parks when a replay is cut off, and is not resumed in the
      middle of a replay that is somewhere else. */
  lemma WindowHoldsIffCountKept(p: Policy)
    ensures AlwaysWithinWindow(p) <==> KeepsCount(p)
  {
    if KeepsCount(p) {
      forall job: Job, window: nat, capacity: nat, peer: PeerId, events: seq<Event>
        | job.files != [] && IsRun(p, job, Start(window, capacity, peer), events)
        ensures WithinWindow(Final(p, job, Start(window, capacity, peer), events))
      {
        WindowHoldsThroughRecovery(p, job, window, capacity, peer, events);
      }
    } else {
      var h := Halves([1], [2], 1);
      if !p.records {
        var events := UnrecordedReplayOverrunsWindow(p, h);
        assert IsRun(p, h.Whole(), Start(h.window, |h.a| + |h.b|, 0), events);
      } else if !p.parks {
        var events := UnparkedReplayOverrunsWindow(p, h);
        assert IsRun(p, h.Whole(), Start(h.window, |h.a| + |h.b|, 0), events);
      } else {
        var events := ResumeInReplayOverrunsWindow(p);
        assert IsRun(p, SixOctets(), Start(3, 6, 0), events);
      }
    }
  }
}
