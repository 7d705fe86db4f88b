/** `TransferControl` of `src/stream.rs`: credit window, capped ACKs, sticky
    cancel, replay ring and staged resume behind one mutex and one condvar.

    `Control` is the value the mutex guards. Each critical section is a function
    on it, `Wakes` says which sections notify the condvar, and the class performs
    the sections in place. Sums are unbounded naturals. */
module Transfer {
  import opened Common
  import opened Replay

  datatype Control = Control(
    window: nat,
    sent: nat,
    acked: nat,
    fileIndex: nat,
    cancelled: Option<string>,
    ring: seq<RingChunk>,
    capacity: nat,
    peer: Option<PeerId>,
    pending: Option<nat>)

  datatype Rejection =
    | Cancelled
    | WrongFileIndex(requested: nat, current: nat)
    | OutOfWindow

  /** One critical section that changes the guarded value. `TakeResume` is the
      successful exit of `wait_for_reconnect`. */
  datatype Op =
    | RecordSent(newOffset: nat)
    | RecordAck(ackFile: nat, through: nat)
    | Cancel(reason: string)
    | RequestResume(newPeer: PeerId, resumeFile: nat, lastReceived: nat)
    | AdvanceToFile(nextFile: nat)
    | PushReplay(chunk: RingChunk)
    | SetPeer(peer: PeerId)
    | TakeResume

  /** The sections run by inbound message handlers. */
  predicate Inbound(op: Op) {
    op.RecordAck? || op.Cancel? || op.RequestResume?
  }

  function New(window: nat, capacity: nat): Control {
    Control(window, 0, 0, 0, None, [], capacity, None, None)
  }

  function Min(a: nat, b: nat): nat { if a <= b then a else b }

  function Max(a: nat, b: nat): nat { if a >= b then a else b }

  function InFlight(c: Control): nat { SaturatingSub(c.sent, c.acked) }

  /** The credit test of `wait_for_credit`. */
  predicate CreditOpen(c: Control, chunkLen: nat) {
    InFlight(c) == 0 || InFlight(c) + chunkLen <= c.window
  }

  /** The answer `request_resume` gives. */
  function ResumeReply(c: Control, file: nat, offset: nat): Result<nat, Rejection> {
    if c.cancelled.Some? then Err(Cancelled)
    else if file != c.fileIndex then Err(WrongFileIndex(file, c.fileIndex))
    else if !Covers(c.ring, offset) then Err(OutOfWindow)
    else Ok(offset)
  }

  function Apply(c: Control, op: Op): Control {
    match op
    case RecordSent(n) => if n > c.sent then c.(sent := n) else c
    case RecordAck(f, o) =>
      if f == c.fileIndex && Min(o, c.sent) > c.acked then c.(acked := Min(o, c.sent)) else c
    case Cancel(r) => if c.cancelled.None? then c.(cancelled := Some(r)) else c
    case RequestResume(p, f, o) =>
      if ResumeReply(c, f, o).Err? then c
      else c.(peer := Some(p), pending := Some(o),
              acked := if o > c.acked && o <= c.sent then o else c.acked)
    case AdvanceToFile(f) =>
      c.(fileIndex := f, sent := 0, acked := 0, ring := [], pending := None)
    case PushReplay(ch) => c.(ring := Push(c.ring, c.capacity, ch))
    case SetPeer(p) => c.(peer := Some(p))
    case TakeResume => if c.cancelled.None? then c.(pending := None) else c
  }

  /** The sections that call `notify_all`. */
  predicate Wakes(c: Control, op: Op) {
    match op
    case RecordAck(f, o) => f == c.fileIndex && Min(o, c.sent) > c.acked
    case Cancel(_) => c.cancelled.None?
    case RequestResume(_, f, o) => ResumeReply(c, f, o).Ok?
    case AdvanceToFile(_) => true
    case _ => false
  }

  function ApplyAll(c: Control, ops: seq<Op>): Control
    decreases |ops|
  {
    if ops == [] then c else ApplyAll(Apply(c, ops[0]), ops[1..])
  }

  lemma {:induction false} ApplyAllAppend(c: Control, xs: seq<Op>, ys: seq<Op>)
    ensures ApplyAll(c, xs + ys) == ApplyAll(ApplyAll(c, xs), ys)
    decreases |xs|
  {
    if xs == [] {
      assert xs + ys == ys;
    } else {
      ApplyAllAppend(Apply(c, xs[0]), xs[1..], ys);
      assert (xs + ys)[1..] == xs[1..] + ys;
    }
  }

  // ---- what every section keeps -------------------------------------------

  /** The receiver is never credited with more than was emitted. */
  predicate Bounded(c: Control) { c.acked <= c.sent }

  /** Over every sequence of sections from a fresh control, whatever ACKs and
      resumes it holds: `acked <= sent`, the budgets never change, a cancel
      stands with its first reason, and once cancelled no resume is accepted. */
  lemma {:induction false} EveryRunStaysBounded(c: Control, ops: seq<Op>)
    requires Bounded(c)
    ensures var d := ApplyAll(c, ops);
      && Bounded(d) && d.window == c.window && d.capacity == c.capacity
      && (c.cancelled.Some? ==> d.cancelled == c.cancelled && (d.pending == c.pending || d.pending == None))
    decreases |ops|
  {
    if ops != [] {
      EveryRunStaysBounded(Apply(c, ops[0]), ops[1..]);
    }
  }

  /** Within a file the counters only grow. */
  lemma {:induction false} CountersGrowWithinFile(c: Control, ops: seq<Op>)
    requires forall i :: 0 <= i < |ops| ==> !ops[i].AdvanceToFile?
    ensures ApplyAll(c, ops).sent >= c.sent && ApplyAll(c, ops).acked >= c.acked
    ensures ApplyAll(c, ops).fileIndex == c.fileIndex
    decreases |ops|
  {
    if ops != [] {
      CountersGrowWithinFile(Apply(c, ops[0]), ops[1..]);
    }
  }

  // ---- the waits ----------------------------------------------------------

  datatype CreditOutcome = Granted | CreditCancelled(reason: string) | CreditTimeout

  datatype ReconnectOutcome = ResumeReady(at: nat) | ReconnectCancelled(reason: string) | ReconnectTimeout

  /** What a credit waiter that looks at `c` returns, if anything. */
  function CreditLook(c: Control, chunkLen: nat): Option<CreditOutcome> {
    if c.cancelled.Some? then Some(CreditCancelled(c.cancelled.value))
    else if CreditOpen(c, chunkLen) then Some(Granted)
    else None
  }

  function ReconnectLook(c: Control): Option<ReconnectOutcome> {
    if c.cancelled.Some? then Some(ReconnectCancelled(c.cancelled.value))
    else if c.pending.Some? then Some(ResumeReady(c.pending.value))
    else None
  }

  /** The guarded value a waiter sees at its k-th wakeup: everything other
      threads did in the first k sleeps has been applied. */
  function Seen(c: Control, sleeps: seq<seq<Op>>): Control
    decreases |sleeps|
  {
    if sleeps == [] then c else Seen(ApplyAll(c, sleeps[0]), sleeps[1..])
  }

  lemma {:induction false} SeenNext(c: Control, sleeps: seq<seq<Op>>, k: nat)
    requires k < |sleeps|
    ensures Seen(c, sleeps[..k + 1]) == ApplyAll(Seen(c, sleeps[..k]), sleeps[k])
    decreases k
  {
    if k == 0 {
      assert sleeps[..1] == [sleeps[0]];
    } else {
      SeenNext(ApplyAll(c, sleeps[0]), sleeps[1..], k - 1);
      assert sleeps[..k + 1][1..] == sleeps[1..][..k];
      assert sleeps[..k][1..] == sleeps[1..][..k - 1];
    }
  }

  /** A wait that slept `k` times ends at the first wakeup with something to
      return, or at the deadline when no wakeup had. */
  ghost predicate CreditWaitEnds(c: Control, chunkLen: nat, sleeps: seq<seq<Op>>, k: nat, r: CreditOutcome)
    requires k <= |sleeps|
  {
    && (forall j: nat :: j < k ==> CreditLook(Seen(c, sleeps[..j]), chunkLen).None?)
    && (match CreditLook(Seen(c, sleeps[..k]), chunkLen)
        case Some(o) => r == o
        case None => k == |sleeps| && r == CreditTimeout)
  }

  ghost predicate ReconnectWaitEnds(c: Control, sleeps: seq<seq<Op>>, k: nat, r: ReconnectOutcome)
    requires k <= |sleeps|
  {
    && (forall j: nat :: j < k ==> ReconnectLook(Seen(c, sleeps[..j])).None?)
    && (match ReconnectLook(Seen(c, sleeps[..k]))
        case Some(o) => r == o
        case None => k == |sleeps| && r == ReconnectTimeout)
  }

  /** The control updated in place. `notifications` counts `notify_all` calls. */
  class TransferControl {
    const window: nat
    const replay: ReplayRing
    var sent: nat
    var acked: nat
    var fileIndex: nat
    var cancelled: Option<string>
    var peer: Option<PeerId>
    var pending: Option<nat>
    var notifications: nat

    ghost predicate Valid()
      reads this, replay
    {
      replay.Valid()
    }

    ghost function State(): Control
      reads this, replay
    {
      Control(window, sent, acked, fileIndex, cancelled, replay.chunks, replay.capacityBytes, peer, pending)
    }

    /** Both the new guarded value and whether the condvar was notified. */
    twostate predicate Performed(op: Op)
      reads this, replay
    {
      && Valid()
      && State() == Apply(old(State()), op)
      && notifications == old(notifications) + (if Wakes(old(State()), op) then 1 else 0)
    }

    constructor (windowBytes: nat, replayCapacity: nat)
      ensures Valid() && State() == New(windowBytes, replayCapacity) && fresh(replay)
    {
      window := windowBytes;
      replay := new ReplayRing(replayCapacity);
      sent, acked, fileIndex, notifications := 0, 0, 0, 0;
      cancelled, peer, pending := None, None, None;
    }

    method Record(newOffset: nat)
      requires Valid()
      modifies this
      ensures Performed(RecordSent(newOffset))
    {
      if newOffset > sent {
        sent := newOffset;
      }
    }

    method Ack(file: nat, through: nat)
      requires Valid()
      modifies this
      ensures Performed(RecordAck(file, through))
    {
      if file == fileIndex {
        var capped := Min(through, sent);
        if capped > acked {
          acked := capped;
          notifications := notifications + 1;
        }
      }
    }

    method CancelWith(reason: string)
      requires Valid()
      modifies this
      ensures Performed(Cancel(reason))
    {
      if cancelled.None? {
        cancelled := Some(reason);
        notifications := notifications + 1;
      }
    }

    method Resume(newPeer: PeerId, file: nat, offset: nat) returns (r: Result<nat, Rejection>)
      requires Valid()
      modifies this
      ensures r == ResumeReply(old(State()), file, offset)
      ensures Performed(RequestResume(newPeer, file, offset))
    {
      if cancelled.Some? {
        return Err(Cancelled);
      }
      if file != fileIndex {
        return Err(WrongFileIndex(file, fileIndex));
      }
      var covered := replay.CoversOffset(offset);
      if !covered {
        return Err(OutOfWindow);
      }
      peer := Some(newPeer);
      pending := Some(offset);
      if offset > acked && offset <= sent {
        acked := offset;
      }
      notifications := notifications + 1;
      r := Ok(offset);
    }

    method Advance(nextFile: nat)
      requires Valid()
      modifies this, replay
      ensures Performed(AdvanceToFile(nextFile))
    {
      fileIndex := nextFile;
      sent, acked := 0, 0;
      replay.Clear();
      pending := None;
      notifications := notifications + 1;
    }

    method PushBody(offset: nat, dataLen: nat, last: bool, body: seq<byte>)
      requires Valid()
      requires replay.chunks != [] ==> offset == Edge(replay.chunks)
      modifies replay
      ensures Performed(PushReplay(RingChunk(offset, dataLen, last, body)))
    {
      replay.PushBack(offset, dataLen, last, body);
    }

    method Install(newPeer: PeerId)
      requires Valid()
      modifies this
      ensures Performed(SetPeer(newPeer))
    {
      peer := Some(newPeer);
    }

    /** An inbound handler running while a waiter sleeps. */
    method Handle(op: Op)
      requires Valid() && Inbound(op)
      modifies this
      ensures Performed(op)
    {
      match op
      case RecordAck(f, o) => Ack(f, o);
      case Cancel(reason) => CancelWith(reason);
      case RequestResume(p, f, o) => var _ := Resume(p, f, o);
    }

    method HandleAll(ops: seq<Op>)
      requires Valid() && forall i :: 0 <= i < |ops| ==> Inbound(ops[i])
      modifies this
      ensures Valid() && State() == ApplyAll(old(State()), ops)
    {
      ghost var start := State();
      for i := 0 to |ops|
        invariant Valid() && State() == ApplyAll(start, ops[..i])
      {
        Handle(ops[i]);
        assert ops[..i + 1] == ops[..i] + [ops[i]];
        ApplyAllAppend(start, ops[..i], [ops[i]]);
      }
      assert ops[..|ops|] == ops;
    }

    /** `wait_for_credit`: look, else sleep and look again. `sleeps[k]` is what
        the handlers did during the k-th sleep, and the list ends at the deadline. */
    method WaitForCredit(chunkLen: nat, sleeps: seq<seq<Op>>) returns (r: CreditOutcome, slept: nat)
      requires Valid()
      requires forall i, j :: 0 <= i < |sleeps| && 0 <= j < |sleeps[i]| ==> Inbound(sleeps[i][j])
      modifies this
      ensures Valid() && slept <= |sleeps|
      ensures State() == Seen(old(State()), sleeps[..slept])
      ensures CreditWaitEnds(old(State()), chunkLen, sleeps, slept, r)
    {
      ghost var start := State();
      slept := 0;
      while true
        invariant slept <= |sleeps| && Valid()
        invariant State() == Seen(start, sleeps[..slept])
        invariant forall j: nat :: j < slept ==> CreditLook(Seen(start, sleeps[..j]), chunkLen).None?
        decreases |sleeps| - slept
      {
        if cancelled.Some? {
          return CreditCancelled(cancelled.value), slept;
        }
        var inFlight := SaturatingSub(sent, acked);
        if inFlight == 0 || inFlight + chunkLen <= window {
          return Granted, slept;
        }
        if slept == |sleeps| {
          return CreditTimeout, slept;
        }
        SeenNext(start, sleeps, slept);
        HandleAll(sleeps[slept]);
        slept := slept + 1;
      }
    }

    /** `wait_for_reconnect`, with the staged resume consumed on success. */
    method WaitForReconnect(sleeps: seq<seq<Op>>) returns (r: ReconnectOutcome, slept: nat)
      requires Valid()
      requires forall i, j :: 0 <= i < |sleeps| && 0 <= j < |sleeps[i]| ==> Inbound(sleeps[i][j])
      modifies this
      ensures Valid() && slept <= |sleeps|
      ensures ReconnectWaitEnds(old(State()), sleeps, slept, r)
      ensures var seen := Seen(old(State()), sleeps[..slept]);
        State() == if r.ResumeReady? then Apply(seen, TakeResume) else seen
    {
      ghost var start := State();
      slept := 0;
      while true
        invariant slept <= |sleeps| && Valid()
        invariant State() == Seen(start, sleeps[..slept])
        invariant forall j: nat :: j < slept ==> ReconnectLook(Seen(start, sleeps[..j])).None?
        decreases |sleeps| - slept
      {
        if cancelled.Some? {
          return ReconnectCancelled(cancelled.value), slept;
        }
        if pending.Some? {
          r := ResumeReady(pending.value);
          pending := None;
          return;
        }
        if slept == |sleeps| {
          return ReconnectTimeout, slept;
        }
        SeenNext(start, sleeps, slept);
        HandleAll(sleeps[slept]);
        slept := slept + 1;
      }
    }
  }
}
