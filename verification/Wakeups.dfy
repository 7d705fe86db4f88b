/** The condvar protocol of `TransferControl`: any number of threads run critical
    sections and waits in any interleaving, and no wakeup is lost. */
module Wakeups {
  import opened Common
  import opened Transfer

  datatype Wait = Credit(chunkLen: nat) | Reconnect

  /** A sleeping thread is `notified` once a `notify_all` ran after it slept. */
  datatype Status = Running | Asleep(wait: Wait, notified: bool)

  datatype System = System(ctl: Control, threads: map<nat, Status>)

  /** One acquisition of the mutex. `Wake` also stands for spurious wakeups, and
      `expired` says that the deadline has passed. */
  datatype Event =
    | Section(thread: nat, op: Op)
    | Enter(thread: nat, wait: Wait, expired: bool)
    | Wake(thread: nat, expired: bool)

  /** A waiter that looks now has something to return. */
  predicate Ready(c: Control, w: Wait) {
    match w
    case Credit(n) => CreditLook(c, n).Some?
    case Reconnect => ReconnectLook(c).Some?
  }

  predicate Enabled(s: System, e: Event) {
    && e.thread in s.threads
    && match e
       case Section(t, op) => s.threads[t].Running? && !op.TakeResume?
       case Enter(t, _, _) => s.threads[t].Running?
       case Wake(t, _) => s.threads[t].Asleep?
  }

  function NotifyAll(threads: map<nat, Status>): map<nat, Status> {
    map t | t in threads :: if threads[t].Asleep? then threads[t].(notified := true) else threads[t]
  }

  /** One turn of a wait loop: return, time out, or go (back) to sleep. */
  function Look(s: System, t: nat, w: Wait, expired: bool): System {
    if Ready(s.ctl, w) then
      System(if w.Reconnect? then Apply(s.ctl, TakeResume) else s.ctl, s.threads[t := Running])
    else
      s.(threads := s.threads[t := if expired then Running else Asleep(w, false)])
  }

  function After(s: System, e: Event): System
    requires Enabled(s, e)
  {
    match e
    case Section(t, op) =>
      System(Apply(s.ctl, op), if Wakes(s.ctl, op) then NotifyAll(s.threads) else s.threads)
    case Enter(t, w, expired) => Look(s, t, w, expired)
    case Wake(t, expired) => Look(s, t, s.threads[t].wait, expired)
  }

  ghost predicate IsRun(s: System, events: seq<Event>)
    decreases |events|
  {
    events == [] || (Enabled(s, events[0]) && IsRun(After(s, events[0]), events[1..]))
  }

  ghost function Final(s: System, events: seq<Event>): System
    requires IsRun(s, events)
    decreases |events|
  {
    if events == [] then s else Final(After(s, events[0]), events[1..])
  }

  ghost predicate NothingLost(s: System) {
    forall t :: t in s.threads && s.threads[t].Asleep? && !s.threads[t].notified
      ==> !Ready(s.ctl, s.threads[t].wait)
  }

  /** A section that gives some sleeper something to return notifies. */
  lemma ReadyingSectionNotifies(c: Control, op: Op, w: Wait)
    requires Bounded(c) && !Ready(c, w) && Ready(Apply(c, op), w)
    ensures Wakes(c, op)
  {
    assert op.RecordSent? ==> InFlight(Apply(c, op)) >= InFlight(c);
  }

  lemma StepLosesNothing(s: System, e: Event)
    requires Bounded(s.ctl) && NothingLost(s) && Enabled(s, e)
    ensures Bounded(After(s, e).ctl) && NothingLost(After(s, e))
  {
    var s' := After(s, e);
    forall t | t in s'.threads && s'.threads[t].Asleep? && !s'.threads[t].notified
      ensures !Ready(s'.ctl, s'.threads[t].wait)
    {
      if e.Section? && Ready(s'.ctl, s'.threads[t].wait) && !Wakes(s.ctl, e.op) {
        assert t in s.threads && s.threads[t] == s'.threads[t];
        ReadyingSectionNotifies(s.ctl, e.op, s'.threads[t].wait);
        assert false;
      }
    }
  }

  /** In every reachable interleaving, a thread asleep and not yet notified has a
      false wait condition, for both waits. */
  lemma {:induction false} NoLostWakeup(s: System, events: seq<Event>)
    requires Bounded(s.ctl) && NothingLost(s) && IsRun(s, events)
    ensures Bounded(Final(s, events).ctl) && NothingLost(Final(s, events))
    decreases |events|
  {
    if events != [] {
      StepLosesNothing(s, events[0]);
      NoLostWakeup(After(s, events[0]), events[1..]);
    }
  }

  /** From a fresh control and running threads: whenever a wait condition holds,
      every thread sleeping on it has been notified, and waking it returns. */
  lemma ReadySleeperReturns(window: nat, capacity: nat, ids: set<nat>, events: seq<Event>, t: nat, expired: bool)
    requires var s := System(New(window, capacity), map i | i in ids :: Running);
      && IsRun(s, events)
      && t in Final(s, events).threads && Final(s, events).threads[t].Asleep?
      && Ready(Final(s, events).ctl, Final(s, events).threads[t].wait)
    ensures var s := System(New(window, capacity), map i | i in ids :: Running);
      && Final(s, events).threads[t].notified
      && After(Final(s, events), Wake(t, expired)).threads[t] == Running
  {
    NoLostWakeup(System(New(window, capacity), map i | i in ids :: Running), events);
  }

  // ---- what one turn of a wait does ---------------------------------------

  /** A sleeper that wakes returns exactly when it has something to return or its
      deadline has passed, and goes back to sleep otherwise. It changes no other
      thread, and nothing that the mutex guards but the resume it takes. */
  lemma WakeReturnsIffReadyOrExpired(s: System, t: nat, expired: bool)
    requires Enabled(s, Wake(t, expired))
    ensures var s' := After(s, Wake(t, expired));
      && s'.threads.Keys == s.threads.Keys
      && (s'.threads[t] == Running <==> expired || Ready(s.ctl, s.threads[t].wait))
      && (s'.threads[t] != Running ==> s'.threads[t] == Asleep(s.threads[t].wait, false))
      && (forall u :: u in s.threads && u != t ==> s'.threads[u] == s.threads[u])
      && s'.ctl == if s.threads[t].wait.Reconnect? && s.ctl.cancelled.None? then s.ctl.(pending := None) else s.ctl
  {
  }

  // ---- a resume is taken once ---------------------------------------------

  /** This turn of a reconnect wait returns with the staged resume. */
  predicate Takes(s: System, e: Event)
    requires Enabled(s, e)
  {
    && ((e.Enter? && e.wait.Reconnect?) || (e.Wake? && s.threads[e.thread].wait.Reconnect?))
    && ReconnectLook(s.ctl).Some? && ReconnectLook(s.ctl).value.ResumeReady?
  }

  /** This section accepts a resume. */
  predicate Stages(s: System, e: Event)
    requires Enabled(s, e)
  {
    e.Section? && e.op.RequestResume? && ResumeReply(s.ctl, e.op.resumeFile, e.op.lastReceived).Ok?
  }

  ghost function Taken(s: System, events: seq<Event>): nat
    requires IsRun(s, events)
    decreases |events|
  {
    if events == [] then 0
    else (if Takes(s, events[0]) then 1 else 0) + Taken(After(s, events[0]), events[1..])
  }

  ghost function Accepted(s: System, events: seq<Event>): nat
    requires IsRun(s, events)
    decreases |events|
  {
    if events == [] then 0
    else (if Stages(s, events[0]) then 1 else 0) + Accepted(After(s, events[0]), events[1..])
  }

  function Waiting(c: Control): nat {
    if c.pending.Some? then 1 else 0
  }

  /** However many threads wait for a reconnect, in every interleaving each accepted
      resume wakes at most one of them: what was taken and what is still staged were
      accepted. */
  lemma {:induction false} ResumeIsTakenOnce(s: System, events: seq<Event>)
    requires IsRun(s, events)
    ensures Taken(s, events) + Waiting(Final(s, events).ctl) <= Accepted(s, events) + Waiting(s.ctl)
    decreases |events|
  {
    if events != [] {
      ResumeIsTakenOnce(After(s, events[0]), events[1..]);
    }
  }
}
