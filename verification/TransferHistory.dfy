/** What a sequence of critical sections says about a transfer, read off the sequence
    itself, and that `TransferControl` holds exactly that. */
module TransferHistory {
  import opened Common
  import opened Replay
  import opened Transfer

  function Front(ops: seq<Op>): seq<Op>
    requires ops != []
  {
    ops[..|ops| - 1]
  }

  function Last(ops: seq<Op>): Op
    requires ops != []
  {
    ops[|ops| - 1]
  }

  // ---- the parts ----------------------------------------------------------

  /** The reason of the first cancel. */
  function FirstReason(ops: seq<Op>): Option<string> {
    if ops == [] then None
    else if ops[0].Cancel? then Some(ops[0].reason)
    else FirstReason(ops[1..])
  }

  /** The file last advanced to, or the first. */
  function CurrentFile(ops: seq<Op>): nat {
    if ops == [] then 0
    else if Last(ops).AdvanceToFile? then Last(ops).nextFile
    else CurrentFile(Front(ops))
  }

  /** The chunks pushed since the last advance. */
  function Pushed(ops: seq<Op>): seq<RingChunk> {
    if ops == [] || Last(ops).AdvanceToFile? then []
    else Pushed(Front(ops)) + (if Last(ops).PushReplay? then [Last(ops).chunk] else [])
  }

  /** The largest offset recorded as sent since the last advance. */
  function SentSince(ops: seq<Op>): nat {
    if ops == [] || Last(ops).AdvanceToFile? then 0
    else if Last(ops).RecordSent? then Max(SentSince(Front(ops)), Last(ops).newOffset)
    else SentSince(Front(ops))
  }

  /** Some retained chunk begins at `offset`, or the last of them ends there. */
  ghost predicate AtBoundary(ring: seq<RingChunk>, offset: nat) {
    || (exists i :: 0 <= i < |ring| && ring[i].offset == offset)
    || offset == (if ring == [] then 0 else ring[|ring| - 1].offset + ring[|ring| - 1].dataLen)
  }

  /** A resume that comes after `past` is accepted: nothing cancelled the transfer, it
      names the current file, and it asks for a boundary of what is retained. */
  ghost predicate Accepted(capacity: nat, past: seq<Op>, file: nat, offset: nat) {
    && FirstReason(past).None?
    && file == CurrentFile(past)
    && AtBoundary(RingOf(Pushed(past), capacity), offset)
  }

  /** The last section of `ops` is an accepted resume. */
  ghost predicate EndsInResume(capacity: nat, ops: seq<Op>) {
    ops != [] && Last(ops).RequestResume?
    && Accepted(capacity, Front(ops), Last(ops).resumeFile, Last(ops).lastReceived)
  }

  /** The peer of the last install or accepted resume, whichever came later. */
  ghost function LastPeer(capacity: nat, ops: seq<Op>): Option<PeerId> {
    if ops == [] then None
    else if Last(ops).SetPeer? then Some(Last(ops).peer)
    else if EndsInResume(capacity, ops) then Some(Last(ops).newPeer)
    else LastPeer(capacity, Front(ops))
  }

  /** The offset of the last accepted resume, unless a waiter took it or the file
      changed since. Nothing is taken once the transfer is cancelled. */
  ghost function Staged(capacity: nat, ops: seq<Op>): Option<nat> {
    if ops == [] || Last(ops).AdvanceToFile? then None
    else if Last(ops).TakeResume? && FirstReason(Front(ops)).None? then None
    else if EndsInResume(capacity, ops) then Some(Last(ops).lastReceived)
    else Staged(capacity, Front(ops))
  }

  /** The furthest acknowledgement since the last advance: an ACK for the current
      file counts up to what had been sent, an accepted resume when it is no further
      than that. */
  ghost function AckedSince(capacity: nat, ops: seq<Op>): nat {
    if ops == [] || Last(ops).AdvanceToFile? then 0
    else
      var before, sent := AckedSince(capacity, Front(ops)), SentSince(Front(ops));
      if Last(ops).RecordAck? && Last(ops).ackFile == CurrentFile(Front(ops)) then
        Max(before, Min(Last(ops).through, sent))
      else if EndsInResume(capacity, ops) && Last(ops).lastReceived <= sent then
        Max(before, Last(ops).lastReceived)
      else before
  }

  // ---- and the whole ------------------------------------------------------

  ghost function ReadOff(window: nat, capacity: nat, ops: seq<Op>): Control {
    Control(window, SentSince(ops), AckedSince(capacity, ops), CurrentFile(ops), FirstReason(ops),
            RingOf(Pushed(ops), capacity), capacity, LastPeer(capacity, ops), Staged(capacity, ops))
  }

  lemma {:induction false} FirstReasonSnoc(ops: seq<Op>, op: Op)
    ensures FirstReason(ops + [op]) ==
      if FirstReason(ops).Some? then FirstReason(ops) else if op.Cancel? then Some(op.reason) else None
  {
    if ops == [] {
      assert ops + [op] == [op];
    } else {
      FirstReasonSnoc(ops[1..], op);
      assert (ops + [op])[0] == ops[0] && (ops + [op])[1..] == ops[1..] + [op];
    }
  }

  lemma CoversIffAtBoundary(ring: seq<RingChunk>, offset: nat)
    ensures Covers(ring, offset) <==> AtBoundary(ring, offset)
  {
  }

  lemma ReplyOkIffAccepted(window: nat, capacity: nat, past: seq<Op>, file: nat, offset: nat)
    ensures ResumeReply(ReadOff(window, capacity, past), file, offset).Ok? <==> Accepted(capacity, past, file, offset)
  {
    CoversIffAtBoundary(RingOf(Pushed(past), capacity), offset);
  }

  lemma ReadOffStep(window: nat, capacity: nat, past: seq<Op>, op: Op)
    ensures ReadOff(window, capacity, past + [op]) == Apply(ReadOff(window, capacity, past), op)
  {
    var ops := past + [op];
    assert Front(ops) == past && Last(ops) == op;
    FirstReasonSnoc(past, op);
    if op.RequestResume? {
      ReplyOkIffAccepted(window, capacity, past, op.resumeFile, op.lastReceived);
    }
    if op.PushReplay? {
      var log := Pushed(past) + [op.chunk];
      assert log[..|log| - 1] == Pushed(past);
    } else {
      assert Pushed(past) + [] == Pushed(past);
    }
  }

  /** A control taken through any sequence of sections holds what the sequence says:
      the current file, the first cancel, the bytes sent, acknowledged and retained
      since the last advance, the last peer installed or resumed to, and the resume
      still to be taken. */
  lemma {:induction false} ControlIsReadOff(window: nat, capacity: nat, ops: seq<Op>)
    ensures ApplyAll(New(window, capacity), ops) == ReadOff(window, capacity, ops)
    decreases |ops|
  {
    if ops != [] {
      ControlIsReadOff(window, capacity, Front(ops));
      assert Front(ops) + [Last(ops)] == ops;
      ReadOffStep(window, capacity, Front(ops), Last(ops));
      ApplyAllAppend(New(window, capacity), Front(ops), [Last(ops)]);
    }
  }

  /** The peer a transfer sends to, after any sequence of sections, is that of the last
      install or accepted resume, read off the sequence. */
  lemma PeerIsLastInstalled(window: nat, capacity: nat, ops: seq<Op>)
    ensures ApplyAll(New(window, capacity), ops).peer == LastPeer(capacity, ops)
  {
    ControlIsReadOff(window, capacity, ops);
  }

  /** The answer to a resume, after any sequence of sections: refused as cancelled
      once there was a cancel; else refused with both file numbers when they differ;
      else refused as out of the window when no retained boundary is asked for; else
      accepted at the offset asked for. */
  lemma ResumeAnswers(window: nat, capacity: nat, ops: seq<Op>, file: nat, offset: nat)
    ensures ResumeReply(ApplyAll(New(window, capacity), ops), file, offset) ==
      if FirstReason(ops).Some? then Err(Cancelled)
      else if file != CurrentFile(ops) then Err(WrongFileIndex(file, CurrentFile(ops)))
      else if !AtBoundary(RingOf(Pushed(ops), capacity), offset) then Err(OutOfWindow)
      else Ok(offset)
  {
    ControlIsReadOff(window, capacity, ops);
    CoversIffAtBoundary(RingOf(Pushed(ops), capacity), offset);
  }

  /** What the two waits see, after any sequence of sections: the reason of the first
      cancel before anything else; credit for a chunk exactly when nothing is in
      flight or the chunk fits the window beside what is; a staged resume exactly
      when one is still to be taken. */
  lemma WaitersSee(window: nat, capacity: nat, ops: seq<Op>, chunkLen: nat)
    ensures var c := ApplyAll(New(window, capacity), ops);
      var sent, acked := SentSince(ops), AckedSince(capacity, ops);
      && acked <= sent
      && (CreditLook(c, chunkLen) ==
          match FirstReason(ops)
          case Some(reason) => Some(CreditCancelled(reason))
          case None => if sent == acked || sent + chunkLen <= acked + window then Some(Granted) else None)
      && (ReconnectLook(c) ==
          match FirstReason(ops)
          case Some(reason) => Some(ReconnectCancelled(reason))
          case None => if Staged(capacity, ops).Some? then Some(ResumeReady(Staged(capacity, ops).value)) else None)
  {
    ControlIsReadOff(window, capacity, ops);
    EveryRunStaysBounded(New(window, capacity), ops);
  }

  /** The condvar is notified by exactly these sections: a cancel or an ACK that
      changes something, a resume that is accepted, and every change of file. */
  lemma NotifiesExactly(c: Control, op: Op)
    ensures op.Cancel? || op.RecordAck? ==> (Wakes(c, op) <==> Apply(c, op) != c)
    ensures op.RequestResume? ==> (Wakes(c, op) <==> ResumeReply(c, op.resumeFile, op.lastReceived).Ok?)
    ensures op.AdvanceToFile? ==> Wakes(c, op)
    ensures op.RecordSent? || op.PushReplay? || op.SetPeer? || op.TakeResume? ==> !Wakes(c, op)
  {
  }
}
