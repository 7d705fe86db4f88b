/** `batch_json_inner` of `src/client.rs`: a bounded set of workers empties one
    shared queue and writes each result into the slot of its request. */
module BatchCalls {
  import opened Common

  const MAX_BATCH_WORKERS: nat := 64

  /** `batch_worker_count`, with the machine's parallelism as a parameter. */
  function WorkerCount(requests: nat, parallelism: nat): (n: nat)
    ensures requests == 0 <==> n == 0
    ensures n <= requests && n <= MAX_BATCH_WORKERS && (n > 1 ==> n <= 4 * parallelism)
    ensures n < requests && n < MAX_BATCH_WORKERS ==> n >= 4 * parallelism
  {
    if requests == 0 then 0
    else
      var cap := if parallelism * 4 < 1 then 1
                 else if parallelism * 4 > MAX_BATCH_WORKERS then MAX_BATCH_WORKERS
                 else parallelism * 4;
      if requests <= cap then requests else cap
  }

  datatype Worker<T, R> = Idle | Calling(index: nat, request: T) | Answered(index: nat, result: R) | Exited

  /** `asked` and `answers` are histories: the requests handed to workers in the
      order they were handed out, and what each call was asked and gave. */
  datatype Batch<T, R> = Batch(
    queue: seq<(nat, T)>,
    results: seq<Option<R>>,
    workers: seq<Worker<T, R>>,
    asked: seq<nat>,
    answers: map<nat, (T, R)>)

  /** One lock acquisition, or the return of one call, of worker `w`. */
  datatype Event<R> = Take(w: nat) | Return(w: nat, result: R) | Store(w: nat)

  function Enumerate<T>(requests: seq<T>): seq<(nat, T)> {
    seq(|requests|, i requires 0 <= i < |requests| => (i, requests[i]))
  }

  function Start<T, R>(requests: seq<T>, workers: nat): Batch<T, R> {
    Batch(Enumerate(requests), seq(|requests|, _ => None), seq(workers, _ => Idle), [], map[])
  }

  predicate Enabled<T, R>(b: Batch<T, R>, e: Event<R>) {
    && e.w < |b.workers|
    && match e
       case Take(w) => b.workers[w].Idle?
       case Return(w, _) => b.workers[w].Calling?
       case Store(w) => b.workers[w].Answered? && b.workers[w].index < |b.results|
  }

  function After<T, R>(b: Batch<T, R>, e: Event<R>): Batch<T, R>
    requires Enabled(b, e)
  {
    match e
    case Take(w) =>
      if b.queue == [] then b.(workers := b.workers[w := Exited])
      else
        var (index, request) := b.queue[0];
        b.(queue := b.queue[1..], workers := b.workers[w := Calling(index, request)], asked := b.asked + [index])
    case Return(w, r) =>
      var Calling(index, request) := b.workers[w];
      b.(workers := b.workers[w := Answered(index, r)], answers := b.answers[index := (request, r)])
    case Store(w) =>
      var Answered(index, r) := b.workers[w];
      b.(results := b.results[index := Some(r)], workers := b.workers[w := Idle])
  }

  // ---- the invariant ------------------------------------------------------

  predicate Holds<T, R>(worker: Worker<T, R>, i: nat) {
    (worker.Calling? || worker.Answered?) && worker.index == i
  }

  ghost predicate Held<T, R>(b: Batch<T, R>, i: nat) {
    exists w :: 0 <= w < |b.workers| && Holds(b.workers[w], i)
  }

  ghost predicate WorkerHolds<T(!new), R(!new)>(requests: seq<T>, b: Batch<T, R>, w: nat)
    requires w < |b.workers| && |b.results| == |requests|
  {
    match b.workers[w]
    case Calling(i, t) =>
      i < |b.asked| && i < |requests| && t == requests[i] && b.results[i].None? && i !in b.answers
    case Answered(i, r) =>
      i < |b.asked| && i < |requests| && b.results[i].None? && i in b.answers && b.answers[i].1 == r
    case Exited => b.queue == []
    case Idle => true
  }

  ghost predicate Inv<T(!new), R(!new)>(requests: seq<T>, b: Batch<T, R>) {
    var k := |b.asked|;
    && |b.results| == |requests| && k <= |requests|
    && b.queue == Enumerate(requests)[k..]
    && (forall i :: 0 <= i < k ==> b.asked[i] == i)
    && (forall w :: 0 <= w < |b.workers| ==> WorkerHolds(requests, b, w))
    // no index is in two hands, and every index taken is in hand or stored
    && (forall v, w, i | 0 <= v < |b.workers| && 0 <= w < |b.workers| ::
          Holds(b.workers[v], i) && Holds(b.workers[w], i) ==> v == w)
    && (forall i | 0 <= i < k ::
          Held(b, i) || (b.results[i].Some? && i in b.answers && b.results[i].value == b.answers[i].1))
    && (forall i :: k <= i < |requests| ==> b.results[i].None? && i !in b.answers)
    && (forall i :: i in b.answers ==> i < |requests| && b.answers[i].0 == requests[i])
  }

  lemma TakeKeepsInv<T(!new), R(!new)>(requests: seq<T>, b: Batch<T, R>, w: nat)
    requires Inv(requests, b) && Enabled(b, Event<R>.Take(w))
    ensures Inv(requests, After(b, Take(w)))
  {
    var b' := After(b, Take(w));
    if b.queue != [] {
      var k := |b.asked|;
      assert b.queue[0] == (k, requests[k]);
      assert b'.queue == Enumerate(requests)[k + 1..];
      assert Holds(b'.workers[w], k);
      forall v | 0 <= v < |b.workers| ensures !Holds(b.workers[v], k) {
        assert WorkerHolds(requests, b, v);
      }
    }
    forall i | 0 <= i < |b'.asked| && i < |b.asked| && Held(b, i) ensures Held(b', i) {
      var v :| 0 <= v < |b.workers| && Holds(b.workers[v], i);
      assert Holds(b'.workers[v], i);
    }
    forall v | 0 <= v < |b'.workers| ensures WorkerHolds(requests, b', v) {
      assert WorkerHolds(requests, b, v);
    }
  }

  lemma ReturnKeepsInv<T(!new), R(!new)>(requests: seq<T>, b: Batch<T, R>, w: nat, r: R)
    requires Inv(requests, b) && Enabled(b, Return(w, r))
    ensures Inv(requests, After(b, Return(w, r)))
  {
    var b' := After(b, Return(w, r));
    assert WorkerHolds(requests, b, w);
    assert forall v, i :: 0 <= v < |b.workers| ==> Holds(b'.workers[v], i) == Holds(b.workers[v], i);
    forall i | 0 <= i < |b.asked| && Held(b, i) ensures Held(b', i) {
      var v :| 0 <= v < |b.workers| && Holds(b.workers[v], i);
      assert Holds(b'.workers[v], i);
    }
    forall v | 0 <= v < |b'.workers| ensures WorkerHolds(requests, b', v) {
      assert WorkerHolds(requests, b, v);
      assert v != w ==> !(Holds(b.workers[v], b.workers[w].index));
    }
  }

  lemma StoreKeepsInv<T(!new), R(!new)>(requests: seq<T>, b: Batch<T, R>, w: nat)
    requires Inv(requests, b) && Enabled(b, Event<R>.Store(w))
    ensures Inv(requests, After(b, Store(w)))
  {
    var b' := After(b, Store(w));
    var index := b.workers[w].index;
    assert WorkerHolds(requests, b, w);
    forall i | 0 <= i < |b.asked| && i != index && Held(b, i) ensures Held(b', i) {
      var v :| 0 <= v < |b.workers| && Holds(b.workers[v], i);
      assert Holds(b'.workers[v], i);
    }
    forall v | 0 <= v < |b'.workers| ensures WorkerHolds(requests, b', v) {
      assert WorkerHolds(requests, b, v);
      assert v != w ==> !(Holds(b.workers[v], index));
    }
  }

  ghost predicate IsRun<T, R>(b: Batch<T, R>, events: seq<Event<R>>)
    decreases |events|
  {
    events == [] || (Enabled(b, events[0]) && IsRun(After(b, events[0]), events[1..]))
  }

  ghost function Final<T, R>(b: Batch<T, R>, events: seq<Event<R>>): Batch<T, R>
    requires IsRun(b, events)
    decreases |events|
  {
    if events == [] then b else Final(After(b, events[0]), events[1..])
  }

  lemma StepKeepsInv<T(!new), R(!new)>(requests: seq<T>, b: Batch<T, R>, e: Event<R>)
    requires Inv(requests, b) && Enabled(b, e)
    ensures Inv(requests, After(b, e))
  {
    match e
    case Take(w) => TakeKeepsInv(requests, b, w);
    case Return(w, r) => ReturnKeepsInv(requests, b, w, r);
    case Store(w) => StoreKeepsInv(requests, b, w);
  }

  lemma {:induction false} RunKeepsInv<T(!new), R(!new)>(requests: seq<T>, b: Batch<T, R>, events: seq<Event<R>>)
    requires Inv(requests, b) && IsRun(b, events)
    ensures Inv(requests, Final(b, events)) && |Final(b, events).workers| == |b.workers|
    decreases |events|
  {
    if events != [] {
      StepKeepsInv(requests, b, events[0]);
      RunKeepsInv(requests, After(b, events[0]), events[1..]);
    }
  }

  ghost predicate Joined<T, R>(b: Batch<T, R>) {
    forall w :: 0 <= w < |b.workers| ==> b.workers[w].Exited?
  }

  /** When all workers have been joined, whatever the interleaving, each request
      was taken exactly once, in order, and slot i holds what the one call made with
      request i gave. */
  lemma BatchAnswersEveryRequest<T(!new), R(!new)>(requests: seq<T>, workers: nat, events: seq<Event<R>>)
    requires (requests != [] ==> workers > 0) && IsRun(Start<T, R>(requests, workers), events)
    requires Joined(Final(Start<T, R>(requests, workers), events))
    ensures var end := Final(Start<T, R>(requests, workers), events);
      && end.queue == [] && end.asked == seq(|requests|, i => i)
      && |end.results| == |requests|
      && forall i :: 0 <= i < |requests| ==>
           i in end.answers && end.answers[i].0 == requests[i] && end.results[i] == Some(end.answers[i].1)
  {
    var b := Start<T, R>(requests, workers);
    assert Enumerate(requests)[0..] == Enumerate(requests);
    RunKeepsInv(requests, b, events);
    var end := Final(b, events);
    assert workers > 0 ==> WorkerHolds(requests, end, 0);
    assert |end.asked| == |requests|;
  }

  // ---- every interleaving ends --------------------------------------------

  function WorkLeft<T, R>(worker: Worker<T, R>): nat {
    match worker
    case Calling(_, _) => 3
    case Answered(_, _) => 2
    case Idle => 1
    case Exited => 0
  }

  function TotalLeft<T, R>(workers: seq<Worker<T, R>>): nat {
    if workers == [] then 0 else WorkLeft(workers[0]) + TotalLeft(workers[1..])
  }

  function Measure<T, R>(b: Batch<T, R>): nat {
    3 * |b.queue| + TotalLeft(b.workers)
  }

  lemma {:induction false} TotalLeftUpdate<T, R>(workers: seq<Worker<T, R>>, w: nat, x: Worker<T, R>)
    requires w < |workers|
    ensures TotalLeft(workers[w := x]) + WorkLeft(workers[w]) == TotalLeft(workers) + WorkLeft(x)
  {
    if w == 0 {
      assert workers[0 := x][1..] == workers[1..];
    } else {
      TotalLeftUpdate(workers[1..], w - 1, x);
      assert workers[w := x][1..] == workers[1..][w - 1 := x];
    }
  }

  /** Every event brings the batch closer to the join, and until then some event
      is possible: no interleaving runs forever or gets stuck. */
  lemma BatchTerminates<T(!new), R(!new)>(requests: seq<T>, b: Batch<T, R>, e: Event<R>)
    requires Inv(requests, b) && Enabled(b, e)
    ensures Measure(After(b, e)) < Measure(b)
  {
    TotalLeftUpdate(b.workers, e.w, After(b, e).workers[e.w]);
  }

  lemma BatchNeverSticks<T(!new), R(!new)>(requests: seq<T>, b: Batch<T, R>, r: R) returns (e: Event<R>)
    requires Inv(requests, b) && !Joined(b)
    ensures Enabled(b, e)
  {
    var w :| 0 <= w < |b.workers| && !b.workers[w].Exited?;
    assert WorkerHolds(requests, b, w);
    e := if b.workers[w].Idle? then Take(w) else if b.workers[w].Calling? then Return(w, r) else Store(w);
  }

  // ---- the worker loop, in place ------------------------------------------

  predicate Listed<T>(queue: seq<(nat, T)>, i: nat) {
    exists j :: 0 <= j < |queue| && queue[j].0 == i
  }

  /** The queue and the result slots the workers share. */
  class SharedBatch<T, R> {
    var queue: seq<(nat, T)>
    const results: array<Option<R>>

    constructor (requests: seq<T>)
      ensures queue == Enumerate(requests) && fresh(results) && results.Length == |requests|
      ensures forall i :: 0 <= i < results.Length ==> results[i] == None
    {
      queue := Enumerate(requests);
      results := new Option<R>[|requests|](_ => None);
    }

    method PopFront() returns (next: Option<(nat, T)>)
      modifies this
      ensures old(queue) == [] ==> next == None && queue == []
      ensures old(queue) != [] ==> next == Some(old(queue)[0]) && queue == old(queue)[1..]
    {
      if queue == [] {
        next := None;
      } else {
        next := Some(queue[0]);
        queue := queue[1..];
      }
    }

    /** One worker alone: it leaves the queue empty, answers every request that
        was in it, and touches no other slot. */
    method Work(call: T -> R)
      requires forall j :: 0 <= j < |queue| ==> queue[j].0 < results.Length
      requires forall i, j :: 0 <= i < j < |queue| ==> queue[i].0 != queue[j].0
      modifies this, results
      ensures queue == []
      ensures forall j :: 0 <= j < |old(queue)| ==> results[old(queue)[j].0] == Some(call(old(queue)[j].1))
      ensures forall i | 0 <= i < results.Length && !Listed(old(queue), i) :: results[i] == old(results[i])
    {
      ghost var all := queue;
      ghost var k := 0;
      while true
        invariant 0 <= k <= |all| && queue == all[k..]
        invariant forall j :: 0 <= j < k ==> results[all[j].0] == Some(call(all[j].1))
        invariant forall i | 0 <= i < results.Length && !Listed(all[..k], i) :: results[i] == old(results[i])
        decreases |queue|
      {
        var next := PopFront();
        if next.None? {
          break;
        }
        var (index, request) := next.value;
        assert (index, request) == all[k];
        results[index] := Some(call(request));
        assert all[..k + 1] == all[..k] + [all[k]];
        k := k + 1;
      }
      assert k == |all| && all[..k] == all;
    }
  }
}
