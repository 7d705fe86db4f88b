/** The credit window over whole single-producer runs of `TransferControl`. */
module Window {
  import opened Common
  import opened Replay
  import opened Transfer

  /** `credited` is the length `wait_for_credit` last granted and that has not
      been emitted yet; `lastChunk` is the most recently emitted length. */
  datatype Run = Run(ctl: Control, credited: Option<nat>, lastChunk: nat)

  /** `Emit` records the credited length on top of what was already sent; every
      other section, from any thread, may come in between. */
  datatype Event = Grant(chunkLen: nat) | Emit | Other(op: Op)

  predicate Enabled(r: Run, e: Event) {
    match e
    case Grant(n) => r.credited.None? && CreditLook(r.ctl, n) == Some(Granted)
    case Emit => r.credited.Some?
    case Other(op) => !op.RecordSent?
  }

  function After(r: Run, e: Event): Run
    requires Enabled(r, e)
  {
    match e
    case Grant(n) => r.(credited := Some(n))
    case Emit => Run(Apply(r.ctl, RecordSent(r.ctl.sent + r.credited.value)), None, r.credited.value)
    case Other(op) => r.(ctl := Apply(r.ctl, op))
  }

  ghost predicate IsRun(r: Run, events: seq<Event>)
    decreases |events|
  {
    events == [] || (Enabled(r, events[0]) && IsRun(After(r, events[0]), events[1..]))
  }

  ghost function Final(r: Run, events: seq<Event>): Run
    requires IsRun(r, events)
    decreases |events|
  {
    if events == [] then r else Final(After(r, events[0]), events[1..])
  }

  predicate Inside(r: Run) {
    && Bounded(r.ctl)
    && InFlight(r.ctl) <= Max(r.ctl.window, r.lastChunk)
    && (r.credited.Some? ==> CreditOpen(r.ctl, r.credited.value))
  }

  lemma StepStaysInside(r: Run, e: Event)
    requires Inside(r) && Enabled(r, e)
    ensures Inside(After(r, e))
  {
    if e.Other? {
      assert InFlight(Apply(r.ctl, e.op)) <= InFlight(r.ctl);
    }
  }

  /** Whatever ACKs, resumes, cancels and file boundaries arrive, unacknowledged
      bytes never exceed the larger of the window and the last emitted chunk. */
  lemma {:induction false} WindowBound(r: Run, events: seq<Event>)
    requires Inside(r) && IsRun(r, events)
    ensures Inside(Final(r, events))
    ensures Final(r, events).ctl.window == r.ctl.window
    decreases |events|
  {
    if events != [] {
      StepStaysInside(r, events[0]);
      WindowBound(After(r, events[0]), events[1..]);
    }
  }

  lemma WindowBoundFromStart(window: nat, capacity: nat, events: seq<Event>)
    requires IsRun(Run(New(window, capacity), None, 0), events)
    ensures var end := Final(Run(New(window, capacity), None, 0), events);
      && end.ctl.acked <= end.ctl.sent
      && end.ctl.sent - end.ctl.acked <= Max(window, end.lastChunk)
  {
    WindowBound(Run(New(window, capacity), None, 0), events);
  }
}
