/** Request/response multiplexing of `src/client.rs`: any number of concurrent
    calls, one reader, a pending map, timeouts, and a fatal read error that shuts
    the writer down before it drains the map.

    Each event is one lock acquisition or one channel operation. Request ids do
    not wrap, and a write after the shutdown fails. */
module ClientCalls {
  import opened Common

  type CallId = nat
  type RequestId = nat

  /** A response as the client sees it: the header id, version and error code,
      and everything else. */
  datatype Response = Response(id: RequestId, version: nat, ec: nat, content: seq<byte>)

  /** What travels through a call's channel. */
  datatype Letter = Arrived(response: Response) | Fatal(error: string)

  datatype Outcome =
    | Success(response: Response)
    | ServerError(response: Response)
    | VersionMismatch(version: nat)
    | IdMismatch(expected: RequestId, got: RequestId)
    | Failed(error: string)
    | WriteFailed
    | TimedOut
    | ChannelClosed

  /** Where one call stands in `call_with_body_and_timeout`. */
  datatype Phase =
    | Allocated(id: RequestId)
    | Inserted(id: RequestId)
    | Unwritten(id: RequestId)   // the write failed, the entry is still to be removed
    | Waiting(id: RequestId)
    | Expired(id: RequestId)     // the wait timed out, the entry is still to be removed
    | Closed(id: RequestId)      // the channel closed, the entry is still to be removed
    | Returned(id: RequestId, outcome: Outcome)

  /** The reader thread, between two of its own lock acquisitions. */
  datatype Reader =
    | Reading
    | Matched(sender: CallId, response: Response)
    | Failing(error: string)
    | Shut(error: string)
    | Draining(error: string, waiters: map<RequestId, CallId>)
    | Gone

  /** `pending` maps a request id to the call whose channel its sender feeds. */
  datatype Client = Client(
    nextId: RequestId,
    pending: map<RequestId, CallId>,
    writerShut: bool,
    calls: map<CallId, Phase>,
    boxes: map<CallId, seq<Letter>>,
    reader: Reader)

  datatype Event =
    | Begin(call: CallId)
    | Notify
    | Insert(call: CallId)
    | WriteOk(call: CallId)
    | WriteErr(call: CallId)
    | Receive(call: CallId)
    | Timeout(call: CallId)
    | Disconnected(call: CallId)
    | RemoveAndReturn(call: CallId)
    | ReadResponse(response: Response)
    | Hand
    | ReadError(error: string)
    | ShutDownWriter
    | Drain
    | FailOne(id: RequestId)
    | ReaderExit

  function Validate(id: RequestId, letter: Letter): Outcome {
    match letter
    case Fatal(e) => Failed(e)
    case Arrived(r) =>
      if r.version != REPE_VERSION then VersionMismatch(r.version)
      else if r.id != id then IdMismatch(id, r.id)
      else if r.ec != OK then ServerError(r)
      else Success(r)
  }

  /** Some sender for the call's channel is still alive. */
  ghost predicate SenderLives(s: Client, c: CallId) {
    || (exists id :: id in s.pending && s.pending[id] == c)
    || (s.reader.Matched? && s.reader.sender == c)
    || (s.reader.Draining? && exists id :: id in s.reader.waiters && s.reader.waiters[id] == c)
  }

  ghost predicate In(s: Client, c: CallId) {
    c in s.calls && c in s.boxes
  }

  ghost predicate Enabled(s: Client, e: Event) {
    match e
    case Begin(c) => c !in s.calls && c !in s.boxes
    case Notify => true
    case Insert(c) => In(s, c) && s.calls[c].Allocated?
    case WriteOk(c) => In(s, c) && s.calls[c].Inserted? && !s.writerShut
    case WriteErr(c) => In(s, c) && s.calls[c].Inserted?
    case Receive(c) => In(s, c) && s.calls[c].Waiting? && s.boxes[c] != []
    case Timeout(c) => In(s, c) && s.calls[c].Waiting?
    case Disconnected(c) => In(s, c) && s.calls[c].Waiting? && s.boxes[c] == [] && !SenderLives(s, c)
    case RemoveAndReturn(c) => In(s, c) && (s.calls[c].Unwritten? || s.calls[c].Expired? || s.calls[c].Closed?)
    case ReadResponse(_) => s.reader.Reading?
    case Hand => s.reader.Matched? && s.reader.sender in s.boxes
    case ReadError(_) => s.reader.Reading?
    case ShutDownWriter => s.reader.Failing?
    case Drain => s.reader.Shut?
    case FailOne(id) => s.reader.Draining? && id in s.reader.waiters && s.reader.waiters[id] in s.boxes
    case ReaderExit => s.reader.Draining? && s.reader.waiters == map[]
  }

  function Post(s: Client, c: CallId, letter: Letter): map<CallId, seq<Letter>>
    requires c in s.boxes
  {
    s.boxes[c := s.boxes[c] + [letter]]
  }

  function Moved(s: Client, c: CallId, p: Phase): Client {
    s.(calls := s.calls[c := p])
  }

  ghost function After(s: Client, e: Event): Client
    requires Enabled(s, e)
  {
    match e
    case Begin(c) => s.(nextId := s.nextId + 1, calls := s.calls[c := Allocated(s.nextId)], boxes := s.boxes[c := []])
    case Notify => s.(nextId := s.nextId + 1)
    case Insert(c) => Moved(s, c, Inserted(s.calls[c].id)).(pending := s.pending[s.calls[c].id := c])
    case WriteOk(c) => Moved(s, c, Waiting(s.calls[c].id))
    case WriteErr(c) => Moved(s, c, Unwritten(s.calls[c].id))
    case Receive(c) =>
      var id := s.calls[c].id;
      Moved(s, c, Returned(id, Validate(id, s.boxes[c][0]))).(boxes := s.boxes[c := s.boxes[c][1..]])
    case Timeout(c) => Moved(s, c, Expired(s.calls[c].id))
    case Disconnected(c) => Moved(s, c, Closed(s.calls[c].id))
    case RemoveAndReturn(c) =>
      var p := s.calls[c];
      var outcome := if p.Unwritten? then WriteFailed else if p.Expired? then TimedOut else ChannelClosed;
      Moved(s, c, Returned(p.id, outcome)).(pending := s.pending - {p.id})
    case ReadResponse(r) =>
      if r.id in s.pending then s.(pending := s.pending - {r.id}, reader := Matched(s.pending[r.id], r)) else s
    case Hand => s.(boxes := Post(s, s.reader.sender, Arrived(s.reader.response)), reader := Reading)
    case ReadError(err) => s.(reader := Failing(err))
    case ShutDownWriter => s.(writerShut := true, reader := Shut(s.reader.error))
    case Drain => s.(pending := map[], reader := Draining(s.reader.error, s.pending))
    case FailOne(id) =>
      s.(boxes := Post(s, s.reader.waiters[id], Fatal(s.reader.error)),
         reader := s.reader.(waiters := s.reader.waiters - {id}))
    case ReaderExit => s.(reader := Gone)
  }

  // ---- the invariant ------------------------------------------------------

  /** Where the one sender of a call's channel is, or whether it has been used. */
  ghost predicate InPending(s: Client, c: CallId)
    requires c in s.calls
  {
    s.calls[c].id in s.pending && s.pending[s.calls[c].id] == c
  }

  ghost predicate WithReader(s: Client, c: CallId)
    requires c in s.calls
  {
    || (s.reader.Matched? && s.reader.sender == c && s.reader.response.id == s.calls[c].id)
    || (s.reader.Draining? && s.calls[c].id in s.reader.waiters && s.reader.waiters[s.calls[c].id] == c)
  }

  ghost predicate InBox(s: Client, c: CallId)
    requires c in s.boxes
  {
    s.boxes[c] != []
  }

  /** A call that has inserted its sender and not yet returned. */
  predicate Open(p: Phase) {
    p.Inserted? || p.Unwritten? || p.Waiting? || p.Expired? || p.Closed?
  }

  predicate Drained(r: Reader) { r.Draining? || r.Gone? }

  /** What a returned call may say: a success or a server error is a response to its
      own id, of this version, whose code says which of the two it is. */
  predicate Reported(id: RequestId, outcome: Outcome) {
    match outcome
    case Success(r) => r.id == id && r.version == REPE_VERSION && r.ec == OK
    case ServerError(r) => r.id == id && r.version == REPE_VERSION && r.ec != OK
    case VersionMismatch(v) => v != REPE_VERSION
    case IdMismatch(_, _) => false
    case ChannelClosed => false
    case _ => true
  }

  ghost predicate CallHolds(s: Client, c: CallId)
    requires In(s, c)
  {
    var p := s.calls[c];
    && p.id < s.nextId
    // the sender is in at most one place, and used at most once
    && |s.boxes[c]| <= 1
    && !(InPending(s, c) && WithReader(s, c))
    && !(InPending(s, c) && InBox(s, c))
    && !(WithReader(s, c) && InBox(s, c))
    // and for an open call it is in one of them
    && (Open(p) ==> InPending(s, c) || WithReader(s, c) || InBox(s, c))
    && (p.Allocated? ==> !WithReader(s, c) && !InBox(s, c))
    // a letter carries the call's own id
    && (InBox(s, c) && s.boxes[c][0].Arrived? ==> s.boxes[c][0].response.id == p.id)
    // the channel never closes under a waiting call, and ids never cross
    && !p.Closed?
    && (p.Returned? ==> Reported(p.id, p.outcome))
    // only calls with an entry to remove are pending
    && (p.Allocated? || p.Returned? ==> p.id !in s.pending)
    // after the drain, a pending call has not been written
    && (Drained(s.reader) && InPending(s, c) ==> p.Inserted? || p.Unwritten?)
  }

  ghost predicate Owned(s: Client, id: RequestId, c: CallId) {
    In(s, c) && s.calls[c].id == id
  }

  ghost predicate UniqueIds(calls: map<CallId, Phase>) {
    forall c, d :: c in calls && d in calls && calls[c].id == calls[d].id ==> c == d
  }

  /** Everything in the invariant that is not about one call. */
  ghost predicate TableHolds(s: Client) {
    && s.calls.Keys == s.boxes.Keys
    && UniqueIds(s.calls)
    && (forall id :: id in s.pending ==> Owned(s, id, s.pending[id]))
    && (s.reader.Matched? ==> Owned(s, s.reader.response.id, s.reader.sender))
    && (s.reader.Draining? ==> forall id :: id in s.reader.waiters ==> Owned(s, id, s.reader.waiters[id]))
    && (s.reader.Shut? || Drained(s.reader) ==> s.writerShut)
  }

  ghost predicate Inv(s: Client) {
    TableHolds(s) && forall c :: c in s.calls ==> CallHolds(s, c)
  }

  function Connected(): Client {
    Client(1, map[], false, map[], map[], Reading)
  }

  // ---- every step keeps it ------------------------------------------------

  /** Events that move one call and nothing the reader holds. */
  predicate Caller(e: Event) {
    e.Insert? || e.WriteOk? || e.WriteErr? || e.Receive? || e.Timeout? || e.RemoveAndReturn?
  }

  lemma CallerKeepsTable(s: Client, e: Event)
    requires TableHolds(s) && Enabled(s, e) && Caller(e)
    ensures TableHolds(After(s, e))
  {
    var s' := After(s, e);
    assert forall c :: c in s.calls ==> s'.calls[c].id == s.calls[c].id;
    forall id, c | Owned(s, id, c) ensures Owned(s', id, c) {}
  }

  /** The moved call itself. */
  lemma CallerKeepsOwn(s: Client, e: Event)
    requires Enabled(s, e) && Caller(e) && CallHolds(s, e.call)
    requires Drained(s.reader) ==> s.writerShut
    requires s.calls[e.call].id in s.pending ==> s.pending[s.calls[e.call].id] == e.call
    ensures CallHolds(After(s, e), e.call)
  {
  }

  /** Any other call: its id differs, so neither its entry nor its box moved. */
  lemma CallerKeepsOther(s: Client, e: Event, d: CallId)
    requires Enabled(s, e) && Caller(e) && d != e.call && In(s, d) && CallHolds(s, d)
    requires s.calls[d].id != s.calls[e.call].id
    ensures CallHolds(After(s, e), d)
  {
    var s' := After(s, e);
    assert s'.calls[d] == s.calls[d] && s'.boxes[d] == s.boxes[d];
    assert InPending(s', d) == InPending(s, d) && WithReader(s', d) == WithReader(s, d);
  }

  lemma CallerKeepsInv(s: Client, e: Event)
    requires Inv(s) && Enabled(s, e) && Caller(e)
    ensures Inv(After(s, e))
  {
    CallerKeepsTable(s, e);
    forall d | d in After(s, e).calls ensures CallHolds(After(s, e), d) {
      assert CallHolds(s, d);
      if d == e.call {
        CallerKeepsOwn(s, e);
      } else {
        CallerKeepsOther(s, e, d);
      }
    }
  }

  lemma BeginKeepsTable(s: Client, c: CallId)
    requires Inv(s) && Enabled(s, Begin(c))
    ensures TableHolds(After(s, Begin(c)))
  {
    var s' := After(s, Begin(c));
    forall d | d in s.calls ensures s'.calls[d] == s.calls[d] && s.calls[d].id < s.nextId {
      assert CallHolds(s, d);
    }
    forall id, d | Owned(s, id, d) ensures Owned(s', id, d) {}
  }

  lemma BeginKeepsCall(s: Client, c: CallId, d: CallId)
    requires TableHolds(s) && Enabled(s, Begin(c)) && (d != c ==> In(s, d) && CallHolds(s, d))
    requires s.nextId !in s.pending && (s.reader.Draining? ==> s.nextId !in s.reader.waiters)
    ensures CallHolds(After(s, Begin(c)), d)
  {
    var s' := After(s, Begin(c));
    if d != c {
      assert s'.calls[d] == s.calls[d] && s'.boxes[d] == s.boxes[d];
    }
  }

  lemma IssuedIdsAreBelow(s: Client)
    requires Inv(s)
    ensures forall id :: id in s.pending ==> id < s.nextId
    ensures s.reader.Draining? ==> forall id :: id in s.reader.waiters ==> id < s.nextId
  {
    forall id: RequestId, c: CallId | Owned(s, id, c) ensures id < s.nextId {
      assert CallHolds(s, c);
    }
  }

  lemma BeginKeepsInv(s: Client, c: CallId)
    requires Inv(s) && Enabled(s, Begin(c))
    ensures Inv(After(s, Begin(c)))
  {
    BeginKeepsTable(s, c);
    IssuedIdsAreBelow(s);
    forall d | d in After(s, Begin(c)).calls ensures CallHolds(After(s, Begin(c)), d) {
      BeginKeepsCall(s, c, d);
    }
  }

  /** A waiting call always has a live sender or a letter, so its channel cannot
      be seen closed. */
  lemma ChannelNeverCloses(s: Client, c: CallId)
    requires Inv(s)
    ensures !Enabled(s, Disconnected(c))
  {
    if In(s, c) && s.calls[c].Waiting? {
      assert CallHolds(s, c);
    }
  }

  /** Events of the reader. */
  predicate ReaderMove(e: Event) {
    || e.ReadResponse? || e.Hand? || e.ReadError? || e.ShutDownWriter?
    || e.Drain? || e.FailOne? || e.ReaderExit?
  }

  lemma ReaderKeepsTable(s: Client, e: Event)
    requires TableHolds(s) && Enabled(s, e) && ReaderMove(e)
    ensures TableHolds(After(s, e))
  {
    var s' := After(s, e);
    assert s'.calls == s.calls && s'.boxes.Keys == s.boxes.Keys;
    forall id, c | Owned(s, id, c) ensures Owned(s', id, c) {}
  }

  /** A response taken out of the map moves from there into the reader's hand. */
  lemma MatchKeepsCall(s: Client, r: Response, d: CallId)
    requires TableHolds(s) && Enabled(s, ReadResponse(r)) && In(s, d) && CallHolds(s, d)
    ensures CallHolds(After(s, ReadResponse(r)), d)
  {
    if r.id in s.pending {
      assert Owned(s, r.id, s.pending[r.id]);
    }
  }

  lemma HandKeepsCall(s: Client, d: CallId)
    requires TableHolds(s) && Enabled(s, Hand) && In(s, d) && CallHolds(s, d)
    ensures CallHolds(After(s, Hand), d)
  {
  }

  lemma DrainKeepsCall(s: Client, d: CallId)
    requires TableHolds(s) && Enabled(s, Drain) && In(s, d) && CallHolds(s, d)
    ensures CallHolds(After(s, Drain), d)
  {
  }

  lemma FailKeepsCall(s: Client, id: RequestId, d: CallId)
    requires TableHolds(s) && Enabled(s, FailOne(id)) && In(s, d) && CallHolds(s, d)
    ensures CallHolds(After(s, FailOne(id)), d)
  {
    assert Owned(s, id, s.reader.waiters[id]);
  }

  lemma ReaderKeepsCall(s: Client, e: Event, d: CallId)
    requires TableHolds(s) && Enabled(s, e) && ReaderMove(e) && In(s, d) && CallHolds(s, d)
    ensures CallHolds(After(s, e), d)
  {
    match e
    case ReadResponse(r) => MatchKeepsCall(s, r, d);
    case Hand => HandKeepsCall(s, d);
    case Drain => DrainKeepsCall(s, d);
    case FailOne(id) => FailKeepsCall(s, id, d);
    case _ =>
  }

  lemma ReaderKeepsInv(s: Client, e: Event)
    requires Inv(s) && Enabled(s, e) && ReaderMove(e)
    ensures Inv(After(s, e))
  {
    ReaderKeepsTable(s, e);
    forall d | d in After(s, e).calls ensures CallHolds(After(s, e), d) {
      assert CallHolds(s, d);
      ReaderKeepsCall(s, e, d);
    }
  }

  /** A notify takes an id and nothing else. */
  lemma NotifyKeepsInv(s: Client)
    requires Inv(s)
    ensures Inv(After(s, Notify))
  {
    forall d | d in s.calls ensures CallHolds(After(s, Notify), d) {
      assert CallHolds(s, d);
    }
  }

  lemma StepKeepsInv(s: Client, e: Event)
    requires Inv(s) && Enabled(s, e)
    ensures Inv(After(s, e))
  {
    if e.Disconnected? {
      ChannelNeverCloses(s, e.call);
      assert false;
    } else if e.Begin? {
      BeginKeepsInv(s, e.call);
    } else if e.Notify? {
      NotifyKeepsInv(s);
    } else if Caller(e) {
      CallerKeepsInv(s, e);
    } else {
      ReaderKeepsInv(s, e);
    }
  }

  // ---- whole runs ---------------------------------------------------------

  ghost predicate IsRun(s: Client, events: seq<Event>)
    decreases |events|
  {
    events == [] || (Enabled(s, events[0]) && IsRun(After(s, events[0]), events[1..]))
  }

  ghost function Final(s: Client, events: seq<Event>): Client
    requires IsRun(s, events)
    decreases |events|
  {
    if events == [] then s else Final(After(s, events[0]), events[1..])
  }

  lemma {:induction false} RunKeepsInv(s: Client, events: seq<Event>)
    requires Inv(s) && IsRun(s, events)
    ensures Inv(Final(s, events))
    decreases |events|
  {
    if events != [] {
      StepKeepsInv(s, events[0]);
      RunKeepsInv(After(s, events[0]), events[1..]);
    }
  }

  /** Correlation and no leak, in every run of any number of calls: a call that
      was answered holds the response to its own id, no call ever sees another id or
      a closed channel, and a call that has returned is no longer pending. */
  lemma CallsGetTheirOwnResponse(events: seq<Event>)
    requires IsRun(Connected(), events)
    ensures var end := Final(Connected(), events);
      forall c :: c in end.calls && end.calls[c].Returned? ==>
        Reported(end.calls[c].id, end.calls[c].outcome) && end.calls[c].id !in end.pending
  {
    assert Inv(Connected());
    RunKeepsInv(Connected(), events);
    var end := Final(Connected(), events);
    assert forall c :: c in end.calls ==> CallHolds(end, c);
  }

  // ---- where responses come from ------------------------------------------

  /** An outcome that was read off the connection. */
  ghost predicate OutcomeFromWire(o: Outcome, wire: set<Letter>) {
    match o
    case Success(r) => Arrived(r) in wire
    case ServerError(r) => Arrived(r) in wire
    case VersionMismatch(v) => exists r :: Arrived(r) in wire && r.version == v
    case Failed(e) => Fatal(e) in wire
    case _ => true
  }

  predicate ReaderFromWire(r: Reader, wire: set<Letter>) {
    match r
    case Matched(_, response) => Arrived(response) in wire
    case Failing(e) => Fatal(e) in wire
    case Shut(e) => Fatal(e) in wire
    case Draining(e, _) => Fatal(e) in wire
    case _ => true
  }

  /** Every response and every error held anywhere is one the reader has read. */
  ghost predicate Sourced(s: Client, wire: set<Letter>) {
    && (forall c, i :: c in s.boxes && 0 <= i < |s.boxes[c]| ==> s.boxes[c][i] in wire)
    && ReaderFromWire(s.reader, wire)
    && (forall c :: c in s.calls && s.calls[c].Returned? ==> OutcomeFromWire(s.calls[c].outcome, wire))
  }

  function ReadBy(e: Event): set<Letter> {
    match e
    case ReadResponse(r) => {Arrived(r)}
    case ReadError(err) => {Fatal(err)}
    case _ => {}
  }

  /** What the reader read during a run. */
  function Wire(events: seq<Event>): set<Letter> {
    if events == [] then {} else ReadBy(events[0]) + Wire(events[1..])
  }

  lemma StepKeepsSource(s: Client, e: Event, wire: set<Letter>)
    requires Sourced(s, wire) && Enabled(s, e)
    ensures Sourced(After(s, e), wire + ReadBy(e))
  {
  }

  lemma {:induction false} RunKeepsSource(s: Client, events: seq<Event>, wire: set<Letter>)
    requires Sourced(s, wire) && IsRun(s, events)
    ensures Sourced(Final(s, events), wire + Wire(events))
    decreases |events|
  {
    if events == [] {
      assert wire + Wire(events) == wire;
    } else {
      StepKeepsSource(s, events[0], wire);
      RunKeepsSource(After(s, events[0]), events[1..], wire + ReadBy(events[0]));
      assert wire + ReadBy(events[0]) + Wire(events[1..]) == wire + Wire(events);
    }
  }

  /** In every run, the response or the failure a call returned with was read off the
      connection. */
  lemma ResponsesComeFromTheWire(events: seq<Event>, c: CallId)
    requires IsRun(Connected(), events)
    requires c in Final(Connected(), events).calls && Final(Connected(), events).calls[c].Returned?
    ensures OutcomeFromWire(Final(Connected(), events).calls[c].outcome, Wire(events))
  {
    RunKeepsSource(Connected(), events, {});
    assert {} + Wire(events) == Wire(events);
  }

  // ---- one outcome --------------------------------------------------------

  lemma ReturnedStays(s: Client, e: Event, c: CallId)
    requires Enabled(s, e) && c in s.calls && s.calls[c].Returned?
    ensures c in After(s, e).calls && After(s, e).calls[c] == s.calls[c]
  {
  }

  /** A call gets at most one outcome: once returned it keeps it, and its id, in
      every continuation. */
  lemma {:induction false} OutcomeIsFinal(s: Client, events: seq<Event>, c: CallId)
    requires IsRun(s, events) && c in s.calls && s.calls[c].Returned?
    ensures c in Final(s, events).calls && Final(s, events).calls[c] == s.calls[c]
    decreases |events|
  {
    if events != [] {
      ReturnedStays(s, events[0], c);
      OutcomeIsFinal(After(s, events[0]), events[1..], c);
    }
  }

  /** A response that arrives after its call has returned, on a timeout or
      otherwise, changes nothing. */
  lemma LateResponseReachesNobody(s: Client, events: seq<Event>, c: CallId, r: Response)
    requires Inv(s) && IsRun(s, events) && c in s.calls && s.calls[c].Returned? && r.id == s.calls[c].id
    requires Enabled(Final(s, events), ReadResponse(r))
    ensures After(Final(s, events), ReadResponse(r)) == Final(s, events)
  {
    RunKeepsInv(s, events);
    OutcomeIsFinal(s, events, c);
    assert CallHolds(Final(s, events), c);
  }

  /** After the drain every id still pending belongs to a call that has not
      written; its write cannot succeed. */
  lemma PendingAfterDrainIsUnwritten(events: seq<Event>, id: RequestId)
    requires IsRun(Connected(), events)
    requires Drained(Final(Connected(), events).reader) && id in Final(Connected(), events).pending
    ensures var end := Final(Connected(), events);
      var c := end.pending[id];
      && c in end.calls && (end.calls[c] == Inserted(id) || end.calls[c] == Unwritten(id))
      && !Enabled(end, WriteOk(c))
  {
    assert Inv(Connected());
    RunKeepsInv(Connected(), events);
    var end := Final(Connected(), events);
    assert Owned(end, id, end.pending[id]) && CallHolds(end, end.pending[id]);
  }

  // ---- what a call returns ------------------------------------------------

  /** What a run says about one call: its write failed, its wait expired, or it took
      a letter out of its channel. */
  datatype Record = Record(unwritten: bool, expired: bool, heard: Option<Letter>)

  const NOTHING_YET := Record(false, false, None)

  ghost function Noted(record: Record, s: Client, e: Event, c: CallId): Record
    requires Enabled(s, e)
  {
    if e == WriteErr(c) then record.(unwritten := true)
    else if e == Timeout(c) then record.(expired := true)
    else if e == Receive(c) then record.(heard := Some(s.boxes[c][0]))
    else record
  }

  /** The record of a run, read off its events and the letters they take. */
  ghost function RecordOf(record: Record, s: Client, events: seq<Event>, c: CallId): Record
    requires IsRun(s, events)
    decreases |events|
  {
    if events == [] then record
    else RecordOf(Noted(record, s, events[0], c), After(s, events[0]), events[1..], c)
  }

  lemma {:induction false} RecordNotesEvents(record: Record, s: Client, events: seq<Event>, c: CallId)
    requires IsRun(s, events)
    ensures var r := RecordOf(record, s, events, c);
      && (r.unwritten <==> record.unwritten || WriteErr(c) in events)
      && (r.expired <==> record.expired || Timeout(c) in events)
      && (r.heard.Some? <==> record.heard.Some? || Receive(c) in events)
    decreases |events|
  {
    if events != [] {
      RecordNotesEvents(Noted(record, s, events[0], c), After(s, events[0]), events[1..], c);
      assert events == [events[0]] + events[1..];
    }
  }

  /** A letter to the call with this id, and what it means to that call. */
  predicate Means(letter: Letter, id: RequestId, outcome: Outcome) {
    match letter
    case Fatal(e) => outcome == Failed(e)
    case Arrived(r) =>
      && r.id == id
      && (r.version != 1 ==> outcome == VersionMismatch(r.version))
      && (r.version == 1 && r.ec == 0 ==> outcome == Success(r))
      && (r.version == 1 && r.ec != 0 ==> outcome == ServerError(r))
  }

  /** A call's phase and its record tell one story. */
  ghost predicate Tracks(s: Client, c: CallId, record: Record) {
    if c !in s.calls then record == NOTHING_YET
    else
      match s.calls[c]
      case Unwritten(_) => record == Record(true, false, None)
      case Expired(_) => record == Record(false, true, None)
      case Returned(id, outcome) =>
        || (record == Record(true, false, None) && outcome == WriteFailed)
        || (record == Record(false, true, None) && outcome == TimedOut)
        || (record.heard.Some? && record == Record(false, false, record.heard)
            && Means(record.heard.value, id, outcome))
      case Closed(_) => false
      case _ => record == NOTHING_YET
  }

  lemma OthersLeaveTheTrack(s: Client, e: Event, c: CallId, record: Record)
    requires Enabled(s, e) && !Own(e, c) && Tracks(s, c, record)
    ensures Tracks(After(s, e), c, record) && Noted(record, s, e, c) == record
  {
    var s' := After(s, e);
    assert c in s'.calls <==> c in s.calls;
    assert c in s.calls ==> s'.calls[c] == s.calls[c];
  }

  lemma OwnStepKeepsTrack(s: Client, e: Event, c: CallId, record: Record)
    requires Enabled(s, e) && Own(e, c) && !e.Disconnected? && Tracks(s, c, record)
    requires e.Receive? && s.boxes[c][0].Arrived? ==> s.boxes[c][0].response.id == s.calls[c].id
    ensures Tracks(After(s, e), c, Noted(record, s, e, c))
  {
  }

  lemma StepKeepsTrack(s: Client, e: Event, c: CallId, record: Record)
    requires Inv(s) && Enabled(s, e) && Tracks(s, c, record)
    ensures Tracks(After(s, e), c, Noted(record, s, e, c))
  {
    hide Tracks, Noted, After;
    if !Own(e, c) {
      OthersLeaveTheTrack(s, e, c, record);
    } else if e.Disconnected? {
      ChannelNeverCloses(s, e.call);
      assert false;
    } else {
      if c in s.calls {
        assert CallHolds(s, c);
      }
      OwnStepKeepsTrack(s, e, c, record);
    }
  }

  lemma {:induction false} RunKeepsTrack(s: Client, events: seq<Event>, c: CallId, record: Record)
    requires Inv(s) && IsRun(s, events) && Tracks(s, c, record)
    ensures Tracks(Final(s, events), c, RecordOf(record, s, events, c))
    decreases |events|
  {
    if events != [] {
      StepKeepsInv(s, events[0]);
      StepKeepsTrack(s, events[0], c, record);
      RunKeepsTrack(After(s, events[0]), events[1..], c, Noted(record, s, events[0], c));
    }
  }

  /** The letter a call took out of its channel during a run. */
  ghost function Heard(events: seq<Event>, c: CallId): Option<Letter>
    requires IsRun(Connected(), events)
  {
    RecordOf(NOTHING_YET, Connected(), events, c).heard
  }

  /** Every call that returned, in every run, returned what happened to it: a timeout
      exactly when its wait expired, a write failure exactly when its write failed, and
      otherwise what the one letter it took says. A response of this version to its own
      id is a success when its code is 0 and a server error when it is not; a fatal
      letter is that failure. */
  lemma CallReturnsWhatHappened(events: seq<Event>, c: CallId)
    requires IsRun(Connected(), events)
    requires c in Final(Connected(), events).calls && Final(Connected(), events).calls[c].Returned?
    ensures var p, heard := Final(Connected(), events).calls[c], Heard(events, c);
      && (p.outcome == TimedOut <==> Timeout(c) in events)
      && (p.outcome == WriteFailed <==> WriteErr(c) in events)
      && (heard.Some? <==> Receive(c) in events)
      && (heard.Some? <==> Timeout(c) !in events && WriteErr(c) !in events)
      && (forall e :: p.outcome == Failed(e) <==> heard == Some(Fatal(e)))
      && (forall r :: p.outcome == Success(r) <==> heard == Some(Arrived(r)) && r.version == 1 && r.ec == 0)
      && (forall r :: p.outcome == ServerError(r) <==> heard == Some(Arrived(r)) && r.version == 1 && r.ec != 0)
      && (forall v :: p.outcome == VersionMismatch(v) <==>
            heard.Some? && heard.value.Arrived? && heard.value.response.version == v != 1)
      && (heard.Some? && heard.value.Arrived? ==> heard.value.response.id == p.id)
  {
    assert Inv(Connected());
    RunKeepsTrack(Connected(), events, c, NOTHING_YET);
    RecordNotesEvents(NOTHING_YET, Connected(), events, c);
  }

  /** And what should reach a call does: a response to a pending call, read while it
      waits, is handed to that call, which returns with what the response says. */
  lemma ResponseReachesItsCall(s: Client, c: CallId, r: Response)
    requires Inv(s) && s.reader.Reading? && c in s.calls && s.calls[c].Waiting? && InPending(s, c)
    requires r.id == s.calls[c].id
    ensures IsRun(s, [ReadResponse(r), Hand, Receive(c)])
    ensures c in Final(s, [ReadResponse(r), Hand, Receive(c)]).calls
    ensures var p := Final(s, [ReadResponse(r), Hand, Receive(c)]).calls[c];
      && p.Returned? && p.id == r.id
      && (r.version != 1 ==> p.outcome == VersionMismatch(r.version))
      && (r.version == 1 && r.ec == 0 ==> p.outcome == Success(r))
      && (r.version == 1 && r.ec != 0 ==> p.outcome == ServerError(r))
  {
    assert CallHolds(s, c);
    var s1 := After(s, ReadResponse(r));
    var s2 := After(s1, Hand);
    assert s2.boxes[c] == [Arrived(r)];
    var s3 := After(s2, Receive(c));
    assert IsRun(s3, []) && Final(s3, []) == s3;
    assert [Receive(c)][1..] == [] && IsRun(s2, [Receive(c)]) && Final(s2, [Receive(c)]) == s3;
    assert [Hand, Receive(c)][1..] == [Receive(c)];
    assert IsRun(s1, [Hand, Receive(c)]) && Final(s1, [Hand, Receive(c)]) == s3;
    assert [ReadResponse(r), Hand, Receive(c)][1..] == [Hand, Receive(c)];
  }

  /** Requests, whether calls or notifies, take consecutive ids. */
  function Issued(events: seq<Event>): nat {
    if events == [] then 0 else (if events[0].Begin? || events[0].Notify? then 1 else 0) + Issued(events[1..])
  }

  lemma {:induction false} IdsAreConsecutive(s: Client, events: seq<Event>)
    requires IsRun(s, events)
    ensures Final(s, events).nextId == s.nextId + Issued(events)
    decreases |events|
  {
    if events != [] {
      IdsAreConsecutive(After(s, events[0]), events[1..]);
    }
  }

  // ---- no stranded caller -------------------------------------------------

  /** Steps a call has left once the reader is gone. */
  function Rank(p: Phase): nat {
    match p
    case Allocated(_) => 4
    case Inserted(_) => 3
    case Waiting(_) => 2
    case Returned(_, _) => 0
    case _ => 1
  }

  /** No event, of any thread, puts a call further from returning. */
  lemma NoEventDelaysACall(s: Client, e: Event, c: CallId)
    requires Enabled(s, e) && c in s.calls
    ensures c in After(s, e).calls && Rank(After(s, e).calls[c]) <= Rank(s.calls[c])
  {
  }

  /** The events only `c` itself performs. */
  predicate Own(e: Event, c: CallId) {
    (e.Begin? || Caller(e) || e.Disconnected?) && e.call == c
  }

  function OwnCount(events: seq<Event>, c: CallId): nat {
    if events == [] then 0 else (if Own(events[0], c) then 1 else 0) + OwnCount(events[1..], c)
  }

  /** Once the reader is gone a call that has not returned always has a step of its
      own to take, and not only by giving up: nothing it could wait for is missing. */
  lemma CallCanMove(s: Client, c: CallId) returns (e: Event)
    requires Inv(s) && s.reader.Gone? && c in s.calls && !s.calls[c].Returned?
    ensures Enabled(s, e) && Own(e, c) && !e.Timeout?
  {
    assert CallHolds(s, c);
    match s.calls[c]
    case Allocated(_) => e := Insert(c);
    case Inserted(_) => e := WriteErr(c);
    case Waiting(_) => e := Receive(c);
    case _ => e := RemoveAndReturn(c);
  }

  /** Every step a call takes itself brings it closer to returning. */
  lemma OwnStepAdvances(s: Client, e: Event, c: CallId)
    requires Enabled(s, e) && Own(e, c) && c in s.calls
    ensures c in After(s, e).calls && Rank(After(s, e).calls[c]) < Rank(s.calls[c])
  {
  }

  lemma GoneStaysGone(s: Client, e: Event)
    requires Enabled(s, e) && s.reader.Gone?
    ensures After(s, e).reader.Gone?
  {
  }

  /** No stranded caller: once `fail_all_pending` has finished, in every run, of any
      interleaving of any threads, a call that has taken four steps of its own, or as
      many as its phase leaves it, has returned. Until then it has a step to take. */
  lemma {:induction false} NoStrandedCaller(s: Client, c: CallId, events: seq<Event>)
    requires Inv(s) && s.reader.Gone? && c in s.calls && IsRun(s, events)
    ensures var end := Final(s, events);
      && c in end.calls && end.reader.Gone? && Inv(end)
      && Rank(end.calls[c]) + OwnCount(events, c) <= Rank(s.calls[c]) <= 4
      && (OwnCount(events, c) >= Rank(s.calls[c]) ==> end.calls[c].Returned?)
      && (!end.calls[c].Returned? ==> exists e :: Enabled(end, e) && Own(e, c) && !e.Timeout?)
    decreases |events|
  {
    if events == [] {
      if !s.calls[c].Returned? {
        var e := CallCanMove(s, c);
      }
    } else {
      var s' := After(s, events[0]);
      StepKeepsInv(s, events[0]);
      GoneStaysGone(s, events[0]);
      NoEventDelaysACall(s, events[0], c);
      if Own(events[0], c) {
        OwnStepAdvances(s, events[0], c);
      }
      NoStrandedCaller(s', c, events[1..]);
    }
  }

  // ---- and the reader gets there ------------------------------------------

  /** A read error has been seen. */
  predicate Ending(r: Reader) { r.Failing? || r.Shut? || r.Draining? || r.Gone? }

  /** Steps before the map is drained, and steps from there to the exit. */
  function Stage(r: Reader): nat {
    if r.Failing? then 2 else if r.Shut? then 1 else 0
  }

  function Left(r: Reader): nat {
    if r.Draining? then |r.waiters| + 1 else 0
  }

  function ReaderCount(events: seq<Event>): nat {
    if events == [] then 0 else (if ReaderMove(events[0]) then 1 else 0) + ReaderCount(events[1..])
  }

  /** Until it is gone the reader has a step to take, whatever the callers do. */
  lemma ReaderCanMove(s: Client) returns (e: Event)
    requires TableHolds(s) && Ending(s.reader) && !s.reader.Gone?
    ensures Enabled(s, e) && ReaderMove(e)
  {
    match s.reader
    case Failing(_) => e := ShutDownWriter;
    case Shut(_) => e := Drain;
    case Draining(_, waiters) =>
      if waiters == map[] {
        e := ReaderExit;
      } else {
        var id :| id in waiters;
        assert Owned(s, id, waiters[id]);
        e := FailOne(id);
      }
  }

  /** Its own steps only go forward, and no other thread moves it at all. */
  lemma ReaderStep(s: Client, e: Event)
    requires Enabled(s, e) && Ending(s.reader)
    ensures var r := After(s, e).reader;
      && Ending(r)
      && (!ReaderMove(e) ==> r == s.reader)
      && (ReaderMove(e) && Stage(s.reader) > 0 ==> Stage(r) == Stage(s.reader) - 1)
      && (ReaderMove(e) && Stage(s.reader) == 0 ==> Stage(r) == 0 && Left(r) < Left(s.reader))
  {
    if e.FailOne? {
      assert (s.reader.waiters - {e.id}).Keys == s.reader.waiters.Keys - {e.id};
    }
  }

  /** `fail_all_pending` finishes in every run, whatever the callers do meanwhile: two
      steps of the reader drain the map, one more for each waiter taken out and one to
      leave end it, and until then the reader has a step to take. */
  lemma {:induction false} ReaderFinishes(s: Client, events: seq<Event>)
    requires Inv(s) && Ending(s.reader) && IsRun(s, events)
    ensures var end := Final(s, events);
      && Inv(end) && Ending(end.reader)
      && (ReaderCount(events) >= Stage(s.reader) ==> Stage(end.reader) == 0)
      && (Stage(s.reader) == 0 ==> Left(end.reader) + ReaderCount(events) <= Left(s.reader))
      && (Stage(s.reader) == 0 && ReaderCount(events) >= Left(s.reader) ==> end.reader.Gone?)
      && (!end.reader.Gone? ==> exists e :: Enabled(end, e) && ReaderMove(e))
    decreases |events|
  {
    if events == [] {
      if !s.reader.Gone? {
        var e := ReaderCanMove(s);
      }
    } else {
      StepKeepsInv(s, events[0]);
      ReaderStep(s, events[0]);
      ReaderFinishes(After(s, events[0]), events[1..]);
    }
  }

  // ---- the shared client updated in place ---------------------------------

  lemma {:induction false} RunSnoc(s: Client, events: seq<Event>, e: Event)
    requires IsRun(s, events) && Enabled(Final(s, events), e)
    ensures IsRun(s, events + [e]) && Final(s, events + [e]) == After(Final(s, events), e)
    decreases |events|
  {
    if events == [] {
      assert [e][1..] == [] && events + [e] == [e];
      assert IsRun(After(s, e), []);
    } else {
      RunSnoc(After(s, events[0]), events[1..], e);
      assert (events + [e])[1..] == events[1..] + [e] && (events + [e])[0] == events[0];
    }
  }

  /** What `fail_all_pending`, started in `s0`, has put into a call's channel when
      only `waiters` are left to tell. */
  ghost function Told(s0: Client, c: CallId, error: string, waiters: map<RequestId, CallId>): seq<Letter>
    requires In(s0, c)
  {
    if InPending(s0, c) && s0.calls[c].id !in waiters then s0.boxes[c] + [Fatal(error)] else s0.boxes[c]
  }

  ghost predicate Wired(s: Client) {
    s.calls.Keys == s.boxes.Keys && forall id :: id in s.pending ==> Owned(s, id, s.pending[id])
  }

  ghost predicate Telling(s0: Client, error: string, s: Client) {
    && Wired(s0) && s.reader.Draining? && s.reader.error == error && s.writerShut && s.pending == map[]
    && s.calls == s0.calls && s.boxes.Keys == s0.boxes.Keys
    && (forall id :: id in s.reader.waiters ==> id in s0.pending && s.reader.waiters[id] == s0.pending[id])
    && (forall c :: c in s.boxes ==> s.boxes[c] == Told(s0, c, error, s.reader.waiters))
  }

  lemma ShutAndDrain(s0: Client)
    requires Wired(s0) && s0.reader.Failing?
    ensures IsRun(s0, [ShutDownWriter, Drain])
    ensures Final(s0, [ShutDownWriter, Drain])
      == s0.(writerShut := true, pending := map[], reader := Draining(s0.reader.error, s0.pending))
    ensures Telling(s0, s0.reader.error, Final(s0, [ShutDownWriter, Drain]))
  {
    RunSnoc(s0, [], ShutDownWriter);
    assert [] + [ShutDownWriter] == [ShutDownWriter];
    RunSnoc(s0, [ShutDownWriter], Drain);
    assert [ShutDownWriter] + [Drain] == [ShutDownWriter, Drain];
  }

  lemma TellOne(s0: Client, error: string, s: Client, id: RequestId)
    requires Telling(s0, error, s) && id in s.reader.waiters
    ensures Enabled(s, FailOne(id)) && Telling(s0, error, After(s, FailOne(id)))
    ensures |s.reader.waiters - {id}| < |s.reader.waiters|
  {
    var c := s.reader.waiters[id];
    assert Owned(s0, id, c);
    var s' := After(s, FailOne(id));
    assert (s.reader.waiters - {id}).Keys == s.reader.waiters.Keys - {id};
    forall d | d in s'.boxes ensures s'.boxes[d] == Told(s0, d, error, s'.reader.waiters) {
      assert s.boxes[d] == Told(s0, d, error, s.reader.waiters);
    }
  }

  class SharedClient {
    var nextId: RequestId
    var pending: map<RequestId, CallId>
    var writerShut: bool
    var calls: map<CallId, Phase>
    var boxes: map<CallId, seq<Letter>>
    var reader: Reader

    ghost function State(): Client
      reads this
    {
      Client(nextId, pending, writerShut, calls, boxes, reader)
    }

    constructor ()
      ensures State() == Connected()
    {
      nextId, pending, writerShut, calls, boxes, reader := 1, map[], false, map[], map[], Reading;
    }

    /** Allocate an id and a channel, then publish the sender. */
    method BeginAndInsert(c: CallId) returns (id: RequestId)
      requires Enabled(State(), Begin(c))
      modifies this
      ensures Enabled(After(old(State()), Begin(c)), Insert(c))
      ensures State() == After(After(old(State()), Begin(c)), Insert(c)) && id == old(nextId)
    {
      id := nextId;
      nextId := nextId + 1;
      boxes := boxes[c := []];
      pending := pending[id := c];
      calls := calls[c := Inserted(id)];
    }

    method RemovePending(c: CallId)
      requires Enabled(State(), RemoveAndReturn(c))
      modifies this
      ensures State() == After(old(State()), RemoveAndReturn(c))
    {
      var p := calls[c];
      pending := pending - {p.id};
      var outcome := if p.Unwritten? then WriteFailed else if p.Expired? then TimedOut else ChannelClosed;
      calls := calls[c := Returned(p.id, outcome)];
    }

    /** One turn of the response loop after a successful read. */
    method DispatchResponse(r: Response)
      requires reader.Reading? && (r.id in pending ==> pending[r.id] in boxes)
      modifies this
      ensures old(r.id !in pending) ==> State() == old(State())
      ensures old(r.id in pending) ==>
        && Enabled(After(old(State()), ReadResponse(r)), Hand)
        && State() == After(After(old(State()), ReadResponse(r)), Hand)
    {
      if r.id in pending {
        var sender := pending[r.id];
        pending := pending - {r.id};
        boxes := boxes[sender := boxes[sender] + [Arrived(r)]];
      }
    }

    /** `fail_all_pending`: shut the writer down, take the whole map, then tell
        every waiter. It is a run of the reader's own events; each waiter is told
        once, and nobody else is. */
    method FailAllPending() returns (ghost events: seq<Event>)
      requires Wired(State()) && reader.Failing?
      modifies this
      ensures IsRun(old(State()), events) && State() == Final(old(State()), events)
      ensures reader.Gone? && writerShut && pending == map[] && calls == old(calls)
      ensures boxes.Keys == old(boxes).Keys
      ensures forall c :: c in boxes ==> boxes[c] == Told(old(State()), c, old(reader.error), map[])
    {
      ghost var start := State();
      ShutAndDrain(start);
      writerShut := true;
      reader, pending := Draining(reader.error, pending), map[];
      events := TellWaiters(start, [ShutDownWriter, Drain]);
      RunSnoc(start, events, ReaderExit);
      events := events + [ReaderExit];
      reader := Gone;
    }

    /** The loop over the drained waiters. */
    method TellWaiters(ghost start: Client, ghost before: seq<Event>) returns (ghost events: seq<Event>)
      requires start.reader.Failing? && Telling(start, start.reader.error, State())
      requires IsRun(start, before) && State() == Final(start, before)
      modifies this
      ensures Telling(start, start.reader.error, State()) && reader.waiters == map[]
      ensures IsRun(start, events) && State() == Final(start, events)
    {
      events := before;
      while reader.waiters != map[]
        invariant Telling(start, start.reader.error, State())
        invariant IsRun(start, events) && State() == Final(start, events)
        decreases |reader.waiters|
      {
        var id :| id in reader.waiters;
        TellOne(start, start.reader.error, State(), id);
        RunSnoc(start, events, FailOne(id));
        events := events + [FailOne(id)];
        Tell(id);
      }
    }

    method Tell(id: RequestId)
      requires Enabled(State(), FailOne(id))
      modifies this
      ensures State() == After(old(State()), FailOne(id))
    {
      var sender := reader.waiters[id];
      boxes := boxes[sender := boxes[sender] + [Fatal(reader.error)]];
      reader := Draining(reader.error, reader.waiters - {id});
    }
  }
}
