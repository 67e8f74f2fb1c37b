/**
 * The path of a suspended coroutine as a step machine: from its await through the continuation pool, back through the
 * reactor's external queue and run queue, to the resumption. The reactor thread, any number of pool threads and the
 * threads that settle promises interleave; the external queue may refuse a push without a reason, as the ring does.
 */
module Reactor {
  import opened Wrappers
  import Fifo

  const CAPACITY: nat := 1024

  type Value = int

  /** A promise, who awaits it, and which entry of the log delivered it. */
  datatype Promise = Promise(value: Option<Value>, owner: nat, delivered: Option<nat>)

  /** A coroutine, with the awaitable in its frame: the future it still holds and the result written for it. */
  datatype Coroutine = Coroutine(awaiting: Option<nat>, fut: Option<nat>, result: Option<Value>, done: bool)

  /** A task of the pool: it waits for the promise, writes the result, then schedules the coroutine. */
  datatype Task = Task(coroutine: nat, promise: nat)

  datatype Worker =
    | Idle
    | Blocked(coroutine: nat, promise: nat)
    | Writing(coroutine: nat, value: Value)
    | Pushing(coroutine: nat)
    | Counting
    | Exited
  {
    predicate Holds(c: nat) {
      (Blocked? || Writing? || Pushing?) && coroutine == c
    }
  }

  /** Where the reactor thread is in its loop; index counts through the scratch queue. */
  datatype Loop = Top | Draining | Uncounting | Swapping | Visiting(index: nat) | Inside(index: nat) | Halted

  datatype Place = Ready(k: nat) | Round(k: nat) | Running | Posted(k: nat) | OnWorker(w: nat) | External(k: nat)
    | Finished

  datatype Delivery = Delivery(coroutine: nat, promise: nat, value: Option<Value>)

  /**
   * arrived is everything ever pushed to the external queue and drained how much of it was taken; posted and taken
   * are the same for the pool. place, visits, postedAtStop and log only record: where each handle is, whom this
   * round resumed, how many tasks were posted when the pool was stopped, what each await returned.
   */
  datatype State = State(
    coroutines: seq<Coroutine>, promises: seq<Promise>,
    loop: Loop, running: bool, runQueue: seq<nat>, scratch: seq<nat>, arrived: seq<nat>, drained: nat, pending: int,
    workers: seq<Worker>, posted: seq<Task>, taken: nat, poolStopped: bool,
    place: seq<Place>, visits: seq<nat>, postedAtStop: nat, log: seq<Delivery>)
  {
    /** How much of the scratch queue has been visited. */
    function Cursor(): nat {
      match loop
      case Visiting(i) => i
      case Inside(i) => i + 1
      case _ => |scratch|
    }

    function ExternalLength(): int { |arrived| - drained }

    function MoveTo(c: nat, p: Place): State
      requires c < |place|
    {
      this.(place := place[c := p])
    }

    function SetWorker(w: nat, v: Worker): State
      requires w < |workers|
    {
      this.(workers := workers[w := v])
    }

    function SetCoroutine(c: nat, v: Coroutine): State
      requires c < |coroutines|
    {
      this.(coroutines := coroutines[c := v])
    }

    function Goto(l: Loop): State { this.(loop := l) }
  }

  /** What the running coroutine does next. settled is the promise's value if await_ready finds one. */
  datatype Action = Await(settled: Option<Value>) | Yield | Finish | Spawn

  datatype Event =
    | ReactorStep(choice: bool, action: Action)
    | WorkerStep(worker: nat, choice: bool)
    | Settle(promise: nat, value: Value)
    | StopPool
    | StopReactor

  /** A reactor about to run, with a first coroutine in its run queue. */
  function Init(workers: nat): State {
    State([Coroutine(None, None, None, false)], [], Top, true, [0], [], [], 0, 0,
          seq(workers, _ => Idle), [], 0, false, [Ready(0)], [], 0, [])
  }

  // ---------------------------------------------------------------- the reactor thread

  /** schedule, called on the reactor's own thread. */
  function ScheduleHere(s: State, c: nat): State
    requires c < |s.place|
  {
    s.(runQueue := s.runQueue + [c]).MoveTo(c, Ready(|s.runQueue|))
  }

  function Drain(s: State): State
    requires s.drained < |s.arrived| && s.arrived[s.drained] < |s.place|
  {
    ScheduleHere(s, s.arrived[s.drained]).(drained := s.drained + 1, loop := Uncounting)
  }

  function Relabel(place: seq<Place>): (r: seq<Place>)
    ensures |r| == |place|
  {
    seq(|place|, c requires 0 <= c < |place| => if place[c].Ready? then Round(place[c].k) else place[c])
  }

  function Swap(s: State): State {
    s.(scratch := s.runQueue, runQueue := [], place := Relabel(s.place), visits := [], loop := Visiting(0))
  }

  /** await_resume: the future if the awaitable still holds it, else the result written by the pool. */
  function AwaitResume(s: State, c: nat): Option<Value>
    requires c < |s.coroutines|
  {
    var co := s.coroutines[c];
    if co.fut.Some? then (if co.fut.value < |s.promises| then s.promises[co.fut.value].value else None) else co.result
  }

  /** Runs a coroutine on; if it was waiting, its await returns now. */
  function Resume(s: State, c: nat, i: nat): State
    requires c < |s.coroutines| == |s.place|
    requires s.coroutines[c].awaiting.Some? ==> s.coroutines[c].awaiting.value < |s.promises|
  {
    var s1 := s.(loop := Inside(i), visits := s.visits + [c]).MoveTo(c, Running);
    match s.coroutines[c].awaiting
    case None => s1
    case Some(p) => Deliver(s1, c, p)
  }

  function Deliver(s: State, c: nat, p: nat): State
    requires c < |s.coroutines| && p < |s.promises|
  {
    s.(log := s.log + [Delivery(c, p, AwaitResume(s, c))],
       promises := s.promises[p := s.promises[p].(delivered := Some(|s.log|))])
     .SetCoroutine(c, Coroutine(None, None, None, false))
  }

  /**
   * co_await: through at once if the promise is settled, else the future moves to a task and the coroutine
   * suspends.
   */
  function AwaitPromise(s: State, c: nat, i: nat, settled: Option<Value>): State
    requires c < |s.coroutines| == |s.place|
  {
    var p := |s.promises|;
    var s1 := s.(promises := s.promises + [Promise(settled, c, None)]);
    if settled.Some? then Deliver(s1.SetCoroutine(c, Coroutine(Some(p), Some(p), None, false)), c, p)
    else s1.SetCoroutine(c, Coroutine(Some(p), None, None, false))
           .(posted := s1.posted + [Task(c, p)], loop := Visiting(i + 1)).MoveTo(c, Posted(|s1.posted|))
  }

  function SpawnCoroutine(s: State): State {
    s.(coroutines := s.coroutines + [Coroutine(None, None, None, false)],
       place := s.place + [Ready(|s.runQueue|)], runQueue := s.runQueue + [|s.coroutines|])
  }

  function Act(s: State, c: nat, i: nat, action: Action): State
    requires c < |s.coroutines| == |s.place|
  {
    match action
    case Await(settled) => AwaitPromise(s, c, i, settled)
    case Yield => ScheduleHere(s, c).Goto(Visiting(i + 1))
    case Finish => s.SetCoroutine(c, s.coroutines[c].(done := true)).MoveTo(c, Finished).Goto(Visiting(i + 1))
    case Spawn => SpawnCoroutine(s)
  }

  function StepReactor(s: State, choice: bool, action: Action): State
    requires Within(s)
  {
    match s.loop
    case Top => s.Goto(if s.running then Draining else Halted)
    case Draining => if choice && s.drained < |s.arrived| then Drain(s) else s.Goto(Swapping)
    case Uncounting => s.(pending := s.pending - 1, loop := Draining)
    case Swapping => Swap(s)
    case Visiting(i) =>
      if i < |s.scratch| then
        var c := s.scratch[i];
        assert CoroutineWithin(s, c);
        if !s.coroutines[c].done then Resume(s, c, i) else s.Goto(Visiting(i + 1))
      else s.Goto(Top)  // after the timers and the poll
    case Inside(i) => Act(s, s.scratch[i], i, action)
    case Halted => s
  }

  // ---------------------------------------------------------------- the pool threads

  function Take(s: State, w: nat): State
    requires w < |s.workers| && s.taken < |s.posted| && s.posted[s.taken].coroutine < |s.place|
  {
    var t := s.posted[s.taken];
    s.(taken := s.taken + 1).SetWorker(w, Blocked(t.coroutine, t.promise)).MoveTo(t.coroutine, OnWorker(w))
  }

  function PushExternal(s: State, w: nat, c: nat): State
    requires w < |s.workers| && c < |s.place|
  {
    s.(arrived := s.arrived + [c]).SetWorker(w, Counting).MoveTo(c, External(|s.arrived|))
  }

  function StepWorker(s: State, w: nat, choice: bool): State
    requires Within(s) && w < |s.workers|
  {
    assert WorkerWithin(s, w);
    match s.workers[w]
    case Idle =>
      if s.taken < |s.posted| then Take(s, w) else if s.poolStopped then s.SetWorker(w, Exited) else s
    case Blocked(c, p) =>
      (match s.promises[p].value
       case None => s
       case Some(v) => s.SetWorker(w, Writing(c, v)))
    case Writing(c, v) => s.SetCoroutine(c, s.coroutines[c].(result := Some(v))).SetWorker(w, Pushing(c))
    case Pushing(c) => if choice && s.ExternalLength() < CAPACITY then PushExternal(s, w, c) else s
    case Counting => s.(pending := s.pending + 1).SetWorker(w, Idle)
    case Exited => s
  }

  function Step(s: State, e: Event): State
    requires Within(s)
  {
    match e
    case ReactorStep(choice, action) => StepReactor(s, choice, action)
    case WorkerStep(w, choice) => if w < |s.workers| then StepWorker(s, w, choice) else s
    case Settle(p, v) =>
      if p < |s.promises| && s.promises[p].value == None
      then s.(promises := s.promises[p := s.promises[p].(value := Some(v))]) else s
    case StopPool => if s.poolStopped then s else s.(poolStopped := true, postedAtStop := |s.posted|)
    case StopReactor => s.(running := false)
  }

  // ---------------------------------------------------------------- invariant: indices are in range

  predicate WorkerWithin(s: State, w: nat)
    requires w < |s.workers|
  {
    var v := s.workers[w];
    && (v.Blocked? || v.Writing? || v.Pushing? ==> v.coroutine < |s.coroutines|)
    && (v.Blocked? ==> v.promise < |s.promises|)
  }

  predicate CoroutineWithin(s: State, c: nat)
    requires c < |s.coroutines|
  {
    s.coroutines[c].awaiting.Some? ==> s.coroutines[c].awaiting.value < |s.promises|
  }

  predicate Within(s: State) {
    && |s.place| == |s.coroutines| && s.drained <= |s.arrived| && s.taken <= |s.posted| && s.Cursor() <= |s.scratch|
    && (forall k :: 0 <= k < |s.runQueue| ==> s.runQueue[k] < |s.coroutines|)
    && (forall k :: 0 <= k < |s.scratch| ==> s.scratch[k] < |s.coroutines|)
    && (forall k :: 0 <= k < |s.arrived| ==> s.arrived[k] < |s.coroutines|)
    && (forall k :: 0 <= k < |s.posted| ==>
              s.posted[k].coroutine < |s.coroutines| && s.posted[k].promise < |s.promises|)
    && (forall w :: 0 <= w < |s.workers| ==> WorkerWithin(s, w))
    && (forall c :: 0 <= c < |s.coroutines| ==> CoroutineWithin(s, c))
  }

  // ---------------------------------------------------------------- invariant: every handle is in one place

  ghost predicate PlaceOk(s: State, c: nat)
    requires Within(s) && c < |s.coroutines|
  {
    match s.place[c]
    case Ready(k) => k < |s.runQueue| && s.runQueue[k] == c
    case Round(k) => s.Cursor() <= k < |s.scratch| && s.scratch[k] == c
    case Running => s.loop.Inside? && s.scratch[s.loop.index] == c
    case Posted(k) => s.taken <= k < |s.posted| && s.posted[k].coroutine == c
    case OnWorker(w) => w < |s.workers| && s.workers[w].Holds(c)
    case External(k) => s.drained <= k < |s.arrived| && s.arrived[k] == c
    case Finished => true
  }

  ghost predicate ReadyOk(s: State, k: nat)
    requires Within(s) && k < |s.runQueue|
  {
    s.place[s.runQueue[k]] == Ready(k)
  }

  ghost predicate RoundOk(s: State, k: nat)
    requires Within(s) && k < |s.scratch|
  {
    k >= s.Cursor() ==> s.place[s.scratch[k]] == Round(k)
  }

  ghost predicate RunningOk(s: State)
    requires Within(s)
  {
    s.loop.Inside? ==> s.place[s.scratch[s.loop.index]] == Running
  }

  ghost predicate PostedOk(s: State, k: nat)
    requires Within(s) && k < |s.posted|
  {
    k >= s.taken ==> s.place[s.posted[k].coroutine] == Posted(k)
  }

  ghost predicate ArrivedOk(s: State, k: nat)
    requires Within(s) && k < |s.arrived|
  {
    k >= s.drained ==> s.place[s.arrived[k]] == External(k)
  }

  ghost predicate WorkerOk(s: State, w: nat)
    requires Within(s) && w < |s.workers|
  {
    forall c: nat :: s.workers[w].Holds(c) ==> c < |s.coroutines| && s.place[c] == OnWorker(w)
  }

  /** The awaitable of a coroutine agrees with where its handle is: past the pool, its result is written. */
  ghost predicate CoroutineOk(s: State, c: nat)
    requires Within(s) && c < |s.coroutines|
  {
    var co := s.coroutines[c];
    && (co.done <==> s.place[c] == Finished)
    && co.fut == None
    && (co.awaiting.Some? ==>
          && co.awaiting.value < |s.promises|
          && s.promises[co.awaiting.value].owner == c && s.promises[co.awaiting.value].delivered == None)
    && match s.place[c]
       case Posted(k) => k < |s.posted| && co.awaiting == Some(s.posted[k].promise)
       case OnWorker(w) =>
         && w < |s.workers| && co.awaiting.Some?
         && (match s.workers[w]
             case Blocked(_, p) => co.awaiting == Some(p)
             case Writing(_, v) => s.promises[co.awaiting.value].value == Some(v)
             case Pushing(_) => Written(s, co)
             case _ => false)
       case Running => co.awaiting == None
       case Finished => co.awaiting == None
       case _ => co.awaiting.Some? ==> Written(s, co)
  }

  ghost predicate Written(s: State, co: Coroutine) {
    && co.awaiting.Some? && co.awaiting.value < |s.promises|
    && co.result.Some? && co.result == s.promises[co.awaiting.value].value
  }

  /** What an await returned is its promise's value; a promise is delivered by one entry only. */
  ghost predicate DeliveryOk(s: State, k: nat)
    requires Within(s) && k < |s.log|
  {
    var d := s.log[k];
    && d.promise < |s.promises|
    && s.promises[d.promise].delivered == Some(k) && s.promises[d.promise].owner == d.coroutine
    && d.value.Some? && d.value == s.promises[d.promise].value
  }

  ghost predicate Placed(s: State) {
    && Within(s) && RunningOk(s)
    && (forall c :: 0 <= c < |s.coroutines| ==> PlaceOk(s, c) && CoroutineOk(s, c))
    && (forall k :: 0 <= k < |s.runQueue| ==> ReadyOk(s, k))
    && (forall k :: 0 <= k < |s.scratch| ==> RoundOk(s, k))
    && (forall k :: 0 <= k < |s.posted| ==> PostedOk(s, k))
    && (forall k :: 0 <= k < |s.arrived| ==> ArrivedOk(s, k))
    && (forall w :: 0 <= w < |s.workers| ==> WorkerOk(s, w))
    && (forall k :: 0 <= k < |s.log| ==> DeliveryOk(s, k))
  }

  // ---------------------------------------------------------------- runs

  ghost predicate Inv(s: State) {
    Placed(s) && Counted(s) && Rounds(s) && Drained(s)
  }

  lemma {:induction false} InitInv(workers: nat)
    ensures Inv(Init(workers))
  {
    NoneCounting(Init(workers).workers);
  }

  lemma {:induction false} NoneCounting(workers: seq<Worker>)
    requires forall i :: 0 <= i < |workers| ==> workers[i] == Idle
    ensures CountingWorkers(workers) == 0
  {
    if workers != [] {
      NoneCounting(workers[..|workers| - 1]);
    }
  }

  lemma {:induction false} StepKeeps(s: State, e: Event)
    requires Inv(s)
    ensures Inv(Step(s, e))
  {
    hide Placed, Counted, Rounds, Drained, Step;
    PlacedIsWithin(s);
    StepKeepsPlaces(s, e);
    StepKeepsCount(s, e);
    StepKeepsRounds(s, e);
    StepKeepsDrained(s, e);
  }

  lemma {:induction false} StepKeepsPlaces(s: State, e: Event)
    requires Placed(s)
    ensures Placed(Step(s, e))
  {
    hide RunningOk, PlaceOk, CoroutineOk, ReadyOk, RoundOk, PostedOk, ArrivedOk, WorkerOk, DeliveryOk;
    match e
    case ReactorStep(choice, action) => ReactorStepKeeps(s, choice, action);
    case WorkerStep(w, choice) =>
      if w < |s.workers| {
        WorkerStepKeeps(s, w, choice);
      }
    case Settle(p, v) =>
      if p < |s.promises| && s.promises[p].value == None {
        SettleKeeps(s, p, v);
      }
    case _ => QuietKeeps(s, Step(s, e));
  }

  lemma PlacedIsWithin(s: State)
    requires Placed(s)
    ensures Within(s)
  {
  }

  ghost function Run(workers: nat, events: seq<Event>): (s: State)
    ensures Inv(s)
    decreases |events|
  {
    if events == [] then
      InitInv(workers);
      Init(workers)
    else
      var s := Run(workers, events[..|events| - 1]);
      StepKeeps(s, events[|events| - 1]);
      Step(s, events[|events| - 1])
  }

  // ---------------------------------------------------------------- what every run guarantees

  /** The kinds of place, read off the machine itself. */
  ghost predicate InRunQueue(s: State, c: nat) {
    exists k :: 0 <= k < |s.runQueue| && s.runQueue[k] == c
  }

  ghost predicate InRound(s: State, c: nat) {
    exists k :: s.Cursor() <= k < |s.scratch| && s.scratch[k] == c
  }

  ghost predicate IsRunning(s: State, c: nat) {
    s.loop.Inside? && s.loop.index < |s.scratch| && s.scratch[s.loop.index] == c
  }

  ghost predicate InPool(s: State, c: nat) {
    exists k :: s.taken <= k < |s.posted| && s.posted[k].coroutine == c
  }

  ghost predicate OnSomeWorker(s: State, c: nat) {
    exists w :: 0 <= w < |s.workers| && s.workers[w].Holds(c)
  }

  ghost predicate InExternal(s: State, c: nat) {
    exists k :: s.drained <= k < |s.arrived| && s.arrived[k] == c
  }

  /** The handle of a live coroutine is in exactly one place; that of a finished one is nowhere. */
  lemma {:induction false} EachHandleIsInOnePlace(s: State, c: nat)
    requires Inv(s) && c < |s.coroutines|
    ensures InRunQueue(s, c) <==> s.place[c].Ready?
    ensures InRound(s, c) <==> s.place[c].Round?
    ensures IsRunning(s, c) <==> s.place[c] == Running
    ensures InPool(s, c) <==> s.place[c].Posted?
    ensures OnSomeWorker(s, c) <==> s.place[c].OnWorker?
    ensures InExternal(s, c) <==> s.place[c].External?
    ensures s.coroutines[c].done <==> s.place[c] == Finished
  {
    OnlyThere(s, c);
    assert PlaceOk(s, c) && CoroutineOk(s, c);
  }

  /** And it is there once: no queue holds a handle twice, no two threads hold it. */
  lemma {:induction false} EachHandleIsThereOnce(s: State, c: nat)
    requires Inv(s) && c < |s.coroutines|
    ensures forall j, k :: 0 <= j < |s.runQueue| && 0 <= k < |s.runQueue| ==>
              s.runQueue[j] == c == s.runQueue[k] ==> j == k
    ensures forall j, k :: s.Cursor() <= j < |s.scratch| && s.Cursor() <= k < |s.scratch| ==>
              s.scratch[j] == c == s.scratch[k] ==> j == k
    ensures forall j, k :: s.taken <= j < |s.posted| && s.taken <= k < |s.posted| ==>
              s.posted[j].coroutine == c == s.posted[k].coroutine ==> j == k
    ensures forall j, k :: s.drained <= j < |s.arrived| && s.drained <= k < |s.arrived| ==>
              s.arrived[j] == c == s.arrived[k] ==> j == k
    ensures forall v, w :: 0 <= v < |s.workers| && 0 <= w < |s.workers| ==>
              s.workers[v].Holds(c) && s.workers[w].Holds(c) ==> v == w
  {
    OnlyThere(s, c);
  }

  /** When a suspended coroutine's turn comes, its result is written, and it is the value of its promise. */
  lemma {:induction false} ResumedOnlyAfterWritten(s: State, i: nat)
    requires Inv(s) && s.loop == Visiting(i) && i < |s.scratch|
    ensures var co := s.coroutines[s.scratch[i]];
      !co.done && (co.awaiting.Some? ==>
        && co.result.Some? && co.awaiting.value < |s.promises|
        && co.result == s.promises[co.awaiting.value].value && AwaitResume(s, s.scratch[i]) == co.result)
  {
    assert RoundOk(s, i) && CoroutineOk(s, s.scratch[i]);
  }

  /** The `!h.done()` test never fails: a handle that is to be visited belongs to a live coroutine. */
  lemma {:induction false} NextIsLive(s: State, i: nat)
    requires Placed(s) && s.loop == Visiting(i) && i < |s.scratch|
    ensures !s.coroutines[s.scratch[i]].done
  {
    assert RoundOk(s, i) && CoroutineOk(s, s.scratch[i]);
  }

  /** Every await returns once, to the coroutine that made it, with the value its promise was settled with. */
  lemma {:induction false} AwaitsReturnOnce(s: State, j: nat, k: nat)
    requires Inv(s) && j < |s.log| && k < |s.log|
    ensures s.log[j].promise == s.log[k].promise ==> j == k
    ensures s.log[k].promise < |s.promises| && s.promises[s.log[k].promise].owner == s.log[k].coroutine
    ensures s.log[k].value.Some? && s.log[k].value == s.promises[s.log[k].promise].value
  {
    assert DeliveryOk(s, j) && DeliveryOk(s, k);
  }

  /** The round takes the run queue as it was at the swap, resumes all of it in order, and nothing twice. */
  lemma {:induction false} RoundVisitsAll(s: State)
    requires Inv(s)
    ensures s.loop == Swapping ==> Swap(s).scratch == s.runQueue && Swap(s).runQueue == [] && Swap(s).visits == []
    ensures s.loop == Swapping ==> forall j, k :: 0 <= j < k < |s.runQueue| ==> s.runQueue[j] != s.runQueue[k]
    ensures s.loop == Visiting(|s.scratch|) ==> s.visits == s.scratch
  {
    forall k | 0 <= k < |s.runQueue|
      ensures s.place[s.runQueue[k]] == Ready(k)
    {
      assert ReadyOk(s, k);
    }
  }

  /** Between swaps the round's handles stay as they are, and whatever is scheduled queues up behind for the next. */
  lemma {:induction false} ScheduledWaitsForNextRound(s: State, e: Event)
    requires Inv(s) && !(e.ReactorStep? && s.loop == Swapping)
    ensures Step(s, e).scratch == s.scratch && s.runQueue <= Step(s, e).runQueue && s.log <= Step(s, e).log
    ensures Step(s, e).visits == s.visits
              || (s.loop.Visiting? && s.loop.index < |s.scratch|
                     && Step(s, e).visits == s.visits + [s.scratch[s.loop.index]])
  {
    hide RunningOk, PlaceOk, CoroutineOk, ReadyOk, RoundOk, PostedOk, ArrivedOk, WorkerOk, DeliveryOk, StepWorker,
         StepReactor;
    if e.WorkerStep? && e.worker < |s.workers| {
      WorkerStepShape(s, e.worker, e.choice);
    } else if e.ReactorStep? {
      ReactorStepShape(s, e.choice, e.action);
    }
  }

  /**
   * Once all pool threads have exited, whatever still waits in the pool was posted after the stop; nothing hangs in
   * a thread.
   */
  lemma {:induction false} StoppedPoolIsDrained(s: State, c: nat)
    requires Inv(s) && c < |s.coroutines| && |s.workers| > 0
    requires forall w :: 0 <= w < |s.workers| ==> s.workers[w] == Exited
    ensures s.poolStopped && !s.place[c].OnWorker?
    ensures s.place[c].Posted? ==> s.place[c].k >= s.postedAtStop
    ensures s.pending == s.ExternalLength() + if s.loop == Uncounting then 1 else 0
  {
    assert PlaceOk(s, c);
    assert s.workers[0] == Exited;
    NoCounting(s.workers);
  }

  lemma {:induction false} NoCounting(workers: seq<Worker>)
    requires forall i :: 0 <= i < |workers| ==> workers[i] == Exited
    ensures CountingWorkers(workers) == 0
  {
    if workers != [] {
      NoCounting(workers[..|workers| - 1]);
    }
  }

  /** A promise gets the value its settling event carries, or the one its await finds, once; nothing else changes it. */
  lemma {:induction false} ValuesAreSettled(s: State, e: Event)
    requires Within(s)
    ensures var s' := Step(s, e);
      && |s.promises| <= |s'.promises| <= |s.promises| + 1
      && (forall p :: 0 <= p < |s.promises| ==>
            && s'.promises[p].owner == s.promises[p].owner
            && s'.promises[p].value == if e.Settle? && e.promise == p && s.promises[p].value == None
                                       then Some(e.value) else s.promises[p].value)
      && (|s'.promises| > |s.promises| ==>
            && e.ReactorStep? && e.action.Await? && s.loop.Inside?
            && s'.promises[|s.promises|].value == e.action.settled
            && s'.promises[|s.promises|].owner == s.scratch[s.loop.index])
  {
    if e.WorkerStep? && e.worker < |s.workers| {
      assert WorkerWithin(s, e.worker);
    } else if e.ReactorStep? && s.loop.Visiting? && s.loop.index < |s.scratch| {
      assert CoroutineWithin(s, s.scratch[s.loop.index]);
    }
  }

  /** What a running coroutine asks for is what happens: a settled await goes on at once, anything else gives way. */
  lemma {:induction false} ActsAsAsked(s: State, i: nat, action: Action)
    requires Placed(s) && s.loop == Inside(i) && i < |s.scratch|
    ensures var c, p, s' := s.scratch[i], |s.promises|, Act(s, s.scratch[i], i, action);
      match action
      case Await(Some(v)) =>
        s'.loop == Inside(i) && s'.posted == s.posted && s'.log == s.log + [Delivery(c, p, Some(v))]
      case Await(None) =>
        && s'.loop == Visiting(i + 1) && s'.posted == s.posted + [Task(c, p)] && s'.log == s.log
        && s'.coroutines[c] == Coroutine(Some(p), None, None, false)
      case Yield => s'.loop == Visiting(i + 1) && s'.runQueue == s.runQueue + [c] && s'.coroutines == s.coroutines
      case Finish => s'.loop == Visiting(i + 1) && s'.coroutines[c].done && s'.runQueue == s.runQueue
      case Spawn =>
        && s'.loop == Inside(i) && s'.runQueue == s.runQueue + [|s.coroutines|]
        && s'.coroutines == s.coroutines + [Coroutine(None, None, None, false)]
  {
    hide PlaceOk, ReadyOk, PostedOk, ArrivedOk, WorkerOk, DeliveryOk, CoroutineOk;
  }

  /**
   * A stopped reactor halts at the top of its loop; a stopped pool thread exits when it finds no task, and only
   * then.
   */
  lemma {:induction false} StopsEndTheLoops(s: State, choice: bool, action: Action, w: nat)
    requires Within(s)
    ensures !Step(s, StopReactor).running && Step(s, StopPool).poolStopped
    ensures Step(s, StopPool).postedAtStop == if s.poolStopped then s.postedAtStop else |s.posted|
    ensures s.loop == Top ==> StepReactor(s, choice, action).loop == if s.running then Draining else Halted
    ensures s.loop == Draining ==>
              StepReactor(s, choice, action).loop == if choice && s.drained < |s.arrived| then Uncounting else Swapping
    ensures s.loop == Uncounting ==> StepReactor(s, choice, action).loop == Draining
    ensures s.loop == Visiting(|s.scratch|) ==> StepReactor(s, choice, action).loop == Top
    ensures w < |s.workers| && s.workers[w] == Idle && s.taken == |s.posted| ==>
              StepWorker(s, w, choice).workers[w] == if s.poolStopped then Exited else Idle
    ensures w < |s.workers| && s.workers[w].Pushing? && choice ==>
              (StepWorker(s, w, choice).workers[w] == Counting <==> s.ExternalLength() < 1024)
  {
    assert w < |s.workers| ==> WorkerWithin(s, w);
  }

  // ---------------------------------------------------------------- one await, from end to end

  lemma RunMore(workers: nat, events: seq<Event>, e: Event)
    ensures Within(Run(workers, events)) && Run(workers, events + [e]) == Step(Run(workers, events), e)
  {
    assert (events + [e])[..|events|] == events;
    hide Counted, Rounds, Drained, Step;
    PlacedIsWithin(Run(workers, events));
  }

  /** Coroutine 0 of a fresh reactor runs; it has been resumed in the first round. */
  function FirstRun(): State {
    Init(1).(loop := Inside(0), runQueue := [], scratch := [0], place := [Running], visits := [0])
  }

  lemma {:induction false} ReachesFirstRun() returns (events: seq<Event>)
    ensures Run(1, events) == FirstRun()
  {
    hide Inv, Within;
    var go, none := ReactorStep(true, Finish), ReactorStep(false, Finish);
    assert Run(1, []) == Init(1);
    RunMore(1, [], go);
    RunMore(1, [] + [go], none);
    RunMore(1, [] + [go] + [none], go);
    RunMore(1, [] + [go] + [none] + [go], go);
    events := [] + [go] + [none] + [go] + [go];
  }

  /** It awaits a promise that is not settled: a task is posted, and the promise settled afterwards. */
  function Awaiting(v: Value): State {
    FirstRun().(promises := [Promise(Some(v), 0, None)], coroutines := [Coroutine(Some(0), None, None, false)],
                posted := [Task(0, 0)], loop := Visiting(1), place := [Posted(0)])
  }

  lemma {:induction false} ReachesAwaiting(v: Value) returns (events: seq<Event>)
    ensures Run(1, events) == Awaiting(v)
  {
    hide Inv, Within, Run;
    events := ReachesFirstRun();
    var await, settle := ReactorStep(true, Await(None)), Settle(0, v);
    RunMore(1, events, await);
    events := events + [await];
    RunMore(1, events, settle);
    events := events + [settle];
  }

  /** The pool thread has fetched the value, written it, and pushed the handle. */
  function HandedBack(v: Value): State {
    Awaiting(v).(coroutines := [Coroutine(Some(0), None, Some(v), false)], taken := 1, arrived := [0], pending := 1,
                 place := [External(0)])
  }

  lemma {:induction false} ReachesHandedBack(v: Value) returns (events: seq<Event>)
    ensures Run(1, events) == HandedBack(v)
  {
    hide Inv, Within, Run;
    events := ReachesAwaiting(v);
    var go := WorkerStep(0, true);
    RunMore(1, events, go);
    RunMore(1, events + [go], go);
    RunMore(1, events + [go] + [go], go);
    RunMore(1, events + [go] + [go] + [go], go);
    RunMore(1, events + [go] + [go] + [go] + [go], go);
    events := events + [go] + [go] + [go] + [go] + [go];
  }

  /** In the next round the coroutine runs again, its await having returned the value. */
  lemma {:induction false} AwaitComesBack(v: Value) returns (events: seq<Event>)
    ensures var s := Run(1, events);
      && s.loop == Inside(0) && s.scratch == [0] && s.visits == [0] && s.log == [Delivery(0, 0, Some(v))]
      && s.pending == 0 && s.runQueue == [] && s.coroutines == [Coroutine(None, None, None, false)]
  {
    hide Inv, Within, Run;
    events := ReachesHandedBack(v);
    var go, none := ReactorStep(true, Finish), ReactorStep(false, Finish);
    RunMore(1, events, go);
    RunMore(1, events + [go], go);
    RunMore(1, events + [go] + [go], go);
    RunMore(1, events + [go] + [go] + [go], go);
    events := events + [go] + [go] + [go] + [go];
    RunMore(1, events, none);
    RunMore(1, events + [none], go);
    RunMore(1, events + [none] + [go], go);
    events := events + [none] + [go] + [go];
  }

  // ---------------------------------------------------------------- the external queue is the ring's queue

  function ExternalQueue(s: State): seq<nat>
    requires s.drained <= |s.arrived|
  {
    s.arrived[s.drained..]
  }

  /** What a step does to the external queue. */
  function EffectOf(s: State, e: Event): Fifo.Effect<nat>
    requires Within(s)
  {
    match e
    case ReactorStep(choice, _) =>
      if s.loop == Draining && choice && s.drained < |s.arrived| then Fifo.Out(s.arrived[s.drained]) else Fifo.Quiet
    case WorkerStep(w, choice) =>
      if w < |s.workers| && s.workers[w].Pushing? && choice && s.ExternalLength() < CAPACITY
      then Fifo.In(s.workers[w].coroutine) else Fifo.Quiet
    case _ => Fifo.Quiet
  }

  /** Each step has a legal effect on a bounded queue of the ring's capacity, and no other. */
  lemma {:induction false} StepIsFifoStep(s: State, e: Event)
    requires Within(s) && Within(Step(s, e))
    ensures Fifo.Apply(ExternalQueue(s), EffectOf(s, e), CAPACITY) == Some(ExternalQueue(Step(s, e)))
  {
    hide Act, Resume;
    match e
    case ReactorStep(choice, action) =>
      hide Within;
      ReactorStepShape(s, choice, action);
    case WorkerStep(w, choice) =>
      if w < |s.workers| {
        assert WorkerWithin(s, w);
        if s.workers[w].Pushing? {
          Fifo.DropAppend(s.arrived, s.drained, s.workers[w].coroutine);
        }
      }
    case _ =>
  }

  /** Tasks are taken off the pool's queue in the order they were posted, each by one thread, and stay posted. */
  lemma {:induction false} TasksStartInOrder(s: State, e: Event)
    requires Within(s) && Within(Step(s, e))
    ensures var s' := Step(s, e);
      && s.posted <= s'.posted && s.taken <= s'.taken <= s.taken + 1
      && (s'.taken == s.taken + 1 ==>
            && e.WorkerStep? && s.taken < |s.posted| && s.workers[e.worker] == Idle
            && s'.workers[e.worker] == Blocked(s.posted[s.taken].coroutine, s.posted[s.taken].promise))
  {
    hide Act, Resume;
    match e
    case ReactorStep(choice, action) =>
      hide Within;
      ReactorStepShape(s, choice, action);
    case WorkerStep(w, choice) =>
      if w < |s.workers| {
        assert WorkerWithin(s, w);
      }
    case _ =>
  }

  // ---------------------------------------------------------------- counters, rounds and the stop of the pool

  function CountingWorkers(workers: seq<Worker>): nat {
    if workers == [] then 0
    else CountingWorkers(workers[..|workers| - 1]) + if workers[|workers| - 1] == Counting then 1 else 0
  }

  lemma {:induction false} CountingUpdate(workers: seq<Worker>, w: nat, v: Worker)
    requires w < |workers|
    ensures CountingWorkers(workers[w := v]) == CountingWorkers(workers)
              + (if v == Counting then 1 else 0) - (if workers[w] == Counting then 1 else 0)
  {
    var n := |workers| - 1;
    if w < n {
      assert workers[w := v][..n] == workers[..n][w := v];
      CountingUpdate(workers[..n], w, v);
    } else {
      assert workers[w := v][..n] == workers[..n];
    }
  }

  /** The pending counter is the external queue's length, but for the push or pop not yet counted. */
  ghost predicate Counted(s: State) {
    && s.pending == s.ExternalLength() + (if s.loop == Uncounting then 1 else 0) - CountingWorkers(s.workers)
    && s.ExternalLength() <= CAPACITY
  }

  lemma {:induction false} StepKeepsCount(s: State, e: Event)
    requires Within(s) && Counted(s)
    ensures Counted(Step(s, e))
  {
    hide Within, CountingWorkers, StepWorker, StepReactor;
    var s' := Step(s, e);
    if e.WorkerStep? && e.worker < |s.workers| {
      WorkerStepShape(s, e.worker, e.choice);
      CountingUpdate(s.workers, e.worker, s'.workers[e.worker]);
    } else if e.ReactorStep? {
      ReactorStepShape(s, e.choice, e.action);
    }
  }

  /** What the reactor leaves alone while a coroutine runs, and what only grows. */
  ghost predicate Undisturbed(s: State, s': State) {
    && s'.workers == s.workers && s'.arrived == s.arrived && s'.drained == s.drained && s'.taken == s.taken
    && s'.pending == s.pending && s'.poolStopped == s.poolStopped && s'.postedAtStop == s.postedAtStop
    && s'.scratch == s.scratch && s.posted <= s'.posted && s.runQueue <= s'.runQueue && s.log <= s'.log
  }

  lemma {:induction false} ActShape(s: State, c: nat, i: nat, action: Action)
    requires c < |s.coroutines| == |s.place| && s.loop == Inside(i)
    ensures var s' := Act(s, c, i, action);
      Undisturbed(s, s') && s'.visits == s.visits && (s'.loop == Inside(i) || s'.loop == Visiting(i + 1))
  {
  }

  lemma {:induction false} ResumeShape(s: State, c: nat, i: nat)
    requires c < |s.coroutines| == |s.place|
    requires s.coroutines[c].awaiting.Some? ==> s.coroutines[c].awaiting.value < |s.promises|
    ensures var s' := Resume(s, c, i); Undisturbed(s, s') && s'.visits == s.visits + [c] && s'.loop == Inside(i)
  {
  }

  /** What a step of the reactor leaves alone, and what it does to the queues it shares. */
  lemma {:induction false} ReactorStepShape(s: State, choice: bool, action: Action)
    requires Within(s)
    ensures var s' := StepReactor(s, choice, action);
      && s'.workers == s.workers && s'.arrived == s.arrived && s'.taken == s.taken && s.posted <= s'.posted
      && s'.poolStopped == s.poolStopped && s'.postedAtStop == s.postedAtStop && s.log <= s'.log
      && s'.pending == s.pending - (if s.loop == Uncounting then 1 else 0)
      && s'.drained == s.drained + (if s'.loop == Uncounting then 1 else 0)
      && (s.loop != Swapping ==> s'.scratch == s.scratch && s.runQueue <= s'.runQueue)
    ensures var s' := StepReactor(s, choice, action);
      match s.loop
      case Swapping => s'.visits == [] && s'.loop == Visiting(0)
      case Visiting(i) =>
        if i < |s.scratch| && !s.coroutines[s.scratch[i]].done
        then s'.visits == s.visits + [s.scratch[i]] && s'.loop == Inside(i)
        else s'.visits == s.visits && s'.loop == if i < |s.scratch| then Visiting(i + 1) else Top
      case Inside(i) => s'.visits == s.visits && (s'.loop == Inside(i) || s'.loop == Visiting(i + 1))
      case _ => s'.visits == s.visits && !s'.loop.Inside? && !s'.loop.Visiting?
  {
    hide Act, Resume, WorkerWithin;
    match s.loop
    case Visiting(i) =>
      if i < |s.scratch| {
        assert CoroutineWithin(s, s.scratch[i]);
        ResumeShape(s, s.scratch[i], i);
      }
    case Inside(i) => ActShape(s, s.scratch[i], i, action);
    case _ =>
  }

  lemma {:induction false} WorkerStepShape(s: State, w: nat, choice: bool)
    requires Within(s) && w < |s.workers|
    ensures var s' := StepWorker(s, w, choice);
      && |s'.workers| == |s.workers| && (forall v :: 0 <= v < |s.workers| && v != w ==> s'.workers[v] == s.workers[v])
      && s'.workers == s.workers[w := s'.workers[w]]
      && s'.loop == s.loop && s'.scratch == s.scratch && s'.runQueue == s.runQueue && s'.visits == s.visits
      && s'.posted == s.posted && s'.poolStopped == s.poolStopped && s'.postedAtStop == s.postedAtStop
      && s'.log == s.log && s'.drained == s.drained && s.arrived <= s'.arrived && s.taken <= s'.taken
      && s'.pending == s.pending + (if s.workers[w] == Counting then 1 else 0)
      && |s'.arrived| == |s.arrived| + (if s'.workers[w] == Counting && s.workers[w] != Counting then 1 else 0)
      && (s'.workers[w] == Counting ==> s.workers[w].Pushing?)
      && (|s'.arrived| > |s.arrived| ==> s.ExternalLength() < CAPACITY)
      && (s'.workers[w] == Exited && s.workers[w] != Exited ==> s.poolStopped && s.taken == |s.posted|)
  {
    assert WorkerWithin(s, w);
  }

  /** This round has resumed exactly the part of the scratch queue before the cursor, in order. */
  ghost predicate Rounds(s: State) {
    s.Cursor() <= |s.scratch| && s.visits == s.scratch[..s.Cursor()]
  }

  lemma {:induction false} StepKeepsRounds(s: State, e: Event)
    requires Placed(s) && Rounds(s)
    ensures Rounds(Step(s, e))
  {
    hide RunningOk, PlaceOk, CoroutineOk, ReadyOk, RoundOk, PostedOk, ArrivedOk, WorkerOk, DeliveryOk, StepWorker,
         StepReactor;
    if e.WorkerStep? && e.worker < |s.workers| {
      WorkerStepShape(s, e.worker, e.choice);
    } else if e.ReactorStep? {
      ReactorStepShape(s, e.choice, e.action);
      if s.loop.Visiting? && s.loop.index < |s.scratch| {
        NextIsLive(s, s.loop.index);
      }
    }
  }

  /** A pool thread has exited only after the stop, with every task posted before it taken. */
  ghost predicate Drained(s: State) {
    && s.postedAtStop <= |s.posted|
    && forall w :: 0 <= w < |s.workers| && s.workers[w] == Exited ==> s.poolStopped && s.postedAtStop <= s.taken
  }

  lemma {:induction false} StepKeepsDrained(s: State, e: Event)
    requires Within(s) && Drained(s)
    ensures Drained(Step(s, e))
  {
    hide Within, StepWorker, StepReactor;
    if e.WorkerStep? && e.worker < |s.workers| {
      WorkerStepShape(s, e.worker, e.choice);
    } else if e.ReactorStep? {
      ReactorStepShape(s, e.choice, e.action);
    }
  }

  // ---------------------------------------------------------------- every step

  lemma {:induction false} ActKeeps(s: State, i: nat, action: Action)
    requires Placed(s) && s.loop == Inside(i) && i < |s.scratch|
    ensures Placed(Act(s, s.scratch[i], i, action))
  {
    hide RunningOk, PlaceOk, CoroutineOk, ReadyOk, RoundOk, PostedOk, ArrivedOk, WorkerOk, DeliveryOk;
    match action
    case Await(settled) => AwaitKeeps(s, i, settled);
    case Yield => YieldKeeps(s, i);
    case Finish => FinishKeeps(s, i);
    case Spawn => SpawnKeeps(s);
  }

  lemma {:induction false} ReactorStepKeeps(s: State, choice: bool, action: Action)
    requires Placed(s)
    ensures Placed(StepReactor(s, choice, action))
  {
    hide PlaceOk, CoroutineOk, ReadyOk, RoundOk, PostedOk, ArrivedOk, WorkerOk, DeliveryOk, Act, Resume, Drain, Swap;
    var s' := StepReactor(s, choice, action);
    match s.loop
    case Draining =>
      if choice && s.drained < |s.arrived| {
        DrainKeeps(s);
      } else {
        QuietKeeps(s, s');
      }
    case Swapping => SwapKeeps(s);
    case Visiting(i) =>
      if i < |s.scratch| {
        assert CoroutineWithin(s, s.scratch[i]);
        NextIsLive(s, i);
        ResumeKeeps(s, i);
      } else {
        QuietKeeps(s, s');
      }
    case Inside(i) => ActKeeps(s, i, action);
    case _ => QuietKeeps(s, s');
  }

  lemma {:induction false} WorkerStepKeeps(s: State, w: nat, choice: bool)
    requires Placed(s) && w < |s.workers|
    ensures Placed(StepWorker(s, w, choice))
  {
    hide PlaceOk, ReadyOk, PostedOk, ArrivedOk, DeliveryOk, RoundOk;
    assert WorkerWithin(s, w);
    var s' := StepWorker(s, w, choice);
    match s.workers[w]
    case Idle =>
      if s.taken < |s.posted| {
        TakeKeeps(s, w);
      } else {
        QuietKeeps(s, s');
      }
    case Blocked(c, p) =>
      BlockedKeeps(s, w, c, p);
    case Writing(c, v) =>
      WritingKeeps(s, w, c, v);
    case Pushing(c) =>
      if choice && s.ExternalLength() < CAPACITY {
        PushExternalKeeps(s, w, c);
      }
    case _ => QuietKeeps(s, s');
  }

  lemma {:induction false} BlockedKeeps(s: State, w: nat, c: nat, p: nat)
    requires Placed(s) && w < |s.workers| && s.workers[w] == Blocked(c, p) && c < |s.coroutines| && p < |s.promises|
    ensures s.promises[p].value.Some? ==> Placed(s.SetWorker(w, Writing(c, s.promises[p].value.value)))
  {
    assert WorkerOk(s, w) && s.workers[w].Holds(c) && CoroutineOk(s, c) && CoroutineWithin(s, c);
    if s.promises[p].value.Some? {
      assert s.coroutines == s.coroutines[c := s.coroutines[c]];
      hide Placed;
      WorkerGoesOn(s, w, c, Writing(c, s.promises[p].value.value), s.coroutines[c]);
    }
  }

  lemma {:induction false} WritingKeeps(s: State, w: nat, c: nat, v: Value)
    requires Placed(s) && w < |s.workers| && s.workers[w] == Writing(c, v) && c < |s.coroutines|
    ensures Placed(s.SetCoroutine(c, s.coroutines[c].(result := Some(v))).SetWorker(w, Pushing(c)))
  {
    assert WorkerOk(s, w) && s.workers[w].Holds(c) && CoroutineOk(s, c) && CoroutineWithin(s, c);
    hide Placed;
    WorkerGoesOn(s, w, c, Pushing(c), s.coroutines[c].(result := Some(v)));
  }

  // ---------------------------------------------------------------- a step touches one handle and one thread

  /** From s to s' at most handle x and worker w change, and the reactor leaves or enters only x. */
  ghost predicate Local(s: State, s': State, w: nat, x: nat) {
    && |s.coroutines| <= |s'.coroutines| && |s.place| == |s.coroutines| && |s'.place| == |s'.coroutines|
    && |s'.workers| == |s.workers| && s'.scratch == s.scratch
    && s.runQueue <= s'.runQueue && s.arrived <= s'.arrived && s.posted <= s'.posted && s.log <= s'.log
    && (forall c :: 0 <= c < |s.coroutines| && c != x ==>
              s'.coroutines[c] == s.coroutines[c] && s'.place[c] == s.place[c])
    && (forall v :: 0 <= v < |s.workers| && v != w ==> s'.workers[v] == s.workers[v])
    && |s.promises| <= |s'.promises|
    && (forall p :: 0 <= p < |s.promises| && s.promises[p].owner != x ==> s'.promises[p] == s.promises[p])
    && s.Cursor() <= s'.Cursor() <= |s.scratch|
    && (forall k :: s.Cursor() <= k < s'.Cursor() ==> s.scratch[k] == x)
    && (s.loop.Inside? && s'.loop != s.loop ==> s.scratch[s.loop.index] == x)
    && s.drained <= s'.drained <= |s'.arrived|
    && (forall k :: s.drained <= k < s'.drained ==> k < |s.arrived| && s.arrived[k] == x)
    && s.taken <= s'.taken <= |s'.posted|
    && (forall k :: s.taken <= k < s'.taken ==> k < |s.posted| && s.posted[k].coroutine == x)
  }

  /** What has to be shown of the parts that changed. */
  ghost predicate Touched(s: State, s': State, w: nat, x: nat)
    requires Within(s) && Within(s') && Local(s, s', w, x)
  {
    && RunningOk(s')
    && (forall c :: 0 <= c < |s'.coroutines| && (c >= |s.coroutines| || c == x || s.place[c] == OnWorker(w))
          ==> PlaceOk(s', c) && CoroutineOk(s', c))
    && (forall k :: 0 <= k < |s'.runQueue| && (k >= |s.runQueue| || s.runQueue[k] == x) ==> ReadyOk(s', k))
    && (forall k :: 0 <= k < |s'.scratch| && s.scratch[k] == x ==> RoundOk(s', k))
    && (forall k :: 0 <= k < |s'.posted| && (k >= |s.posted| || s.posted[k].coroutine == x) ==> PostedOk(s', k))
    && (forall k :: 0 <= k < |s'.arrived| && (k >= |s.arrived| || s.arrived[k] == x) ==> ArrivedOk(s', k))
    && (forall v :: 0 <= v < |s'.workers| && (v == w || s.workers[v].Holds(x)) ==> WorkerOk(s', v))
    && (forall k :: 0 <= k < |s'.log| && (k >= |s.log| || s.log[k].coroutine == x) ==> DeliveryOk(s', k))
  }

  lemma {:induction false} LocalKeeps(s: State, s': State, w: nat, x: nat)
    requires Placed(s) && Within(s') && Local(s, s', w, x) && Touched(s, s', w, x)
    ensures Placed(s')
  {
    LocalPlaces(s, s', w, x);
    LocalCoroutines(s, s', w, x);
    LocalQueues(s, s', w, x);
  }

  lemma {:induction false} LocalPlaces(s: State, s': State, w: nat, x: nat)
    requires Placed(s) && Within(s') && Local(s, s', w, x) && Touched(s, s', w, x)
    ensures forall c :: 0 <= c < |s'.coroutines| ==> PlaceOk(s', c)
  {
    forall c | 0 <= c < |s'.coroutines|
      ensures PlaceOk(s', c)
    {
      if c < |s.coroutines| && c != x && s.place[c] != OnWorker(w) {
        assert PlaceOk(s, c);
      }
    }
  }

  lemma {:induction false} LocalCoroutines(s: State, s': State, w: nat, x: nat)
    requires Placed(s) && Within(s') && Local(s, s', w, x) && Touched(s, s', w, x)
    ensures forall c :: 0 <= c < |s'.coroutines| ==> CoroutineOk(s', c)
    ensures forall k :: 0 <= k < |s'.log| ==> DeliveryOk(s', k)
  {
    forall c | 0 <= c < |s'.coroutines|
      ensures CoroutineOk(s', c)
    {
      if c < |s.coroutines| && c != x && s.place[c] != OnWorker(w) {
        assert CoroutineOk(s, c) && PlaceOk(s, c);
      }
    }
    forall k | 0 <= k < |s'.log|
      ensures DeliveryOk(s', k)
    {
      if k < |s.log| && s.log[k].coroutine != x {
        assert DeliveryOk(s, k);
      }
    }
  }

  lemma {:induction false} LocalQueues(s: State, s': State, w: nat, x: nat)
    requires Placed(s) && Within(s') && Local(s, s', w, x) && Touched(s, s', w, x)
    ensures forall k :: 0 <= k < |s'.runQueue| ==> ReadyOk(s', k)
    ensures forall k :: 0 <= k < |s'.scratch| ==> RoundOk(s', k)
    ensures forall k :: 0 <= k < |s'.posted| ==> PostedOk(s', k)
    ensures forall k :: 0 <= k < |s'.arrived| ==> ArrivedOk(s', k)
    ensures forall v :: 0 <= v < |s'.workers| ==> WorkerOk(s', v)
  {
    hide CoroutineOk, PlaceOk, DeliveryOk;
    forall k | 0 <= k < |s'.runQueue|
      ensures ReadyOk(s', k)
    {
      assert k < |s.runQueue| && s.runQueue[k] != x ==> ReadyOk(s, k);
    }
    forall k | 0 <= k < |s'.scratch|
      ensures RoundOk(s', k)
    {
      assert s.scratch[k] != x ==> RoundOk(s, k);
    }
    forall k | 0 <= k < |s'.posted|
      ensures PostedOk(s', k)
    {
      assert k < |s.posted| && s.posted[k].coroutine != x ==> PostedOk(s, k);
    }
    forall k | 0 <= k < |s'.arrived|
      ensures ArrivedOk(s', k)
    {
      assert k < |s.arrived| && s.arrived[k] != x ==> ArrivedOk(s, k);
    }
    forall v | 0 <= v < |s'.workers|
      ensures WorkerOk(s', v)
    {
      assert v != w && !s.workers[v].Holds(x) ==> WorkerOk(s, v);
    }
  }

  lemma {:induction false} LocalWithin(s: State, s': State, w: nat, x: nat)
    requires Within(s) && Local(s, s', w, x)
    requires forall c :: 0 <= c < |s'.coroutines| && (c == x || c >= |s.coroutines|) ==> CoroutineWithin(s', c)
    requires w < |s'.workers| ==> WorkerWithin(s', w)
    requires forall k :: |s.runQueue| <= k < |s'.runQueue| ==> s'.runQueue[k] < |s'.coroutines|
    requires forall k :: |s.arrived| <= k < |s'.arrived| ==> s'.arrived[k] < |s'.coroutines|
    requires forall k :: |s.posted| <= k < |s'.posted| ==>
               s'.posted[k].coroutine < |s'.coroutines| && s'.posted[k].promise < |s'.promises|
    ensures Within(s')
  {
    forall v | 0 <= v < |s'.workers|
      ensures WorkerWithin(s', v)
    {
      assert v != w ==> WorkerWithin(s, v);
    }
    forall c | 0 <= c < |s'.coroutines|
      ensures CoroutineWithin(s', c)
    {
      assert c != x && c < |s.coroutines| ==> CoroutineWithin(s, c);
    }
  }

  // ---------------------------------------------------------------- steps that move no handle

  /** The reactor moves on without visiting, counters and flags change, a worker without a task changes state. */
  ghost predicate Quiet(s: State, s': State) {
    && s' == s.(loop := s'.loop, running := s'.running, pending := s'.pending, workers := s'.workers,
                poolStopped := s'.poolStopped, postedAtStop := s'.postedAtStop)
    && s'.Cursor() == s.Cursor() && s'.loop.Inside? == s.loop.Inside? && (s.loop.Inside? ==> s'.loop == s.loop)
    && |s'.workers| == |s.workers|
    && forall w :: 0 <= w < |s.workers| ==>
         s'.workers[w] == s.workers[w] || (forall c: nat :: !s.workers[w].Holds(c) && !s'.workers[w].Holds(c))
  }

  lemma {:induction false} QuietWithin(s: State, s': State)
    requires Within(s) && Quiet(s, s')
    ensures Within(s')
  {
    forall w | 0 <= w < |s'.workers|
      ensures WorkerWithin(s', w)
    {
      assert WorkerWithin(s, w);
      assert s'.workers[w].Blocked? || s'.workers[w].Writing? || s'.workers[w].Pushing? ==>
               s'.workers[w].Holds(s'.workers[w].coroutine);
    }
    forall c | 0 <= c < |s'.coroutines|
      ensures CoroutineWithin(s', c)
    {
      assert CoroutineWithin(s, c);
    }
  }

  lemma {:induction false} QuietKeeps(s: State, s': State)
    requires Placed(s) && Quiet(s, s')
    ensures Placed(s')
  {
    QuietWithin(s, s');
    QuietQueues(s, s');
    forall c | 0 <= c < |s'.coroutines|
      ensures PlaceOk(s', c) && CoroutineOk(s', c)
    {
      assert PlaceOk(s, c) && CoroutineOk(s, c);
    }
  }

  lemma {:induction false} QuietQueues(s: State, s': State)
    requires Placed(s) && Quiet(s, s') && Within(s')
    ensures RunningOk(s')
    ensures forall k :: 0 <= k < |s'.runQueue| ==> ReadyOk(s', k)
    ensures forall k :: 0 <= k < |s'.scratch| ==> RoundOk(s', k)
    ensures forall k :: 0 <= k < |s'.posted| ==> PostedOk(s', k)
    ensures forall k :: 0 <= k < |s'.arrived| ==> ArrivedOk(s', k)
    ensures forall w :: 0 <= w < |s'.workers| ==> WorkerOk(s', w)
    ensures forall k :: 0 <= k < |s'.log| ==> DeliveryOk(s', k)
  {
    hide CoroutineOk, PlaceOk;
    forall k | 0 <= k < |s'.runQueue|
      ensures ReadyOk(s', k)
    {
      assert ReadyOk(s, k);
    }
    forall k | 0 <= k < |s'.scratch|
      ensures RoundOk(s', k)
    {
      assert RoundOk(s, k);
    }
    forall k | 0 <= k < |s'.posted|
      ensures PostedOk(s', k)
    {
      assert PostedOk(s, k);
    }
    forall k | 0 <= k < |s'.arrived|
      ensures ArrivedOk(s', k)
    {
      assert ArrivedOk(s, k);
    }
    forall w | 0 <= w < |s'.workers|
      ensures WorkerOk(s', w)
    {
      assert WorkerOk(s, w);
    }
    forall k | 0 <= k < |s'.log|
      ensures DeliveryOk(s', k)
    {
      assert DeliveryOk(s, k);
    }
  }

  /** The swap: every handle of the run queue becomes one of the round, at the same position. */
  lemma {:induction false} SwapKeeps(s: State)
    requires Placed(s) && s.loop == Swapping
    ensures Placed(Swap(s))
  {
    var s' := Swap(s);
    SwapWithin(s);
    forall c | 0 <= c < |s'.coroutines|
      ensures PlaceOk(s', c) && CoroutineOk(s', c)
    {
      assert PlaceOk(s, c) && CoroutineOk(s, c);
    }
    SwapQueues(s);
  }

  lemma {:induction false} SwapWithin(s: State)
    requires Within(s)
    ensures Within(Swap(s))
  {
    var s' := Swap(s);
    forall w | 0 <= w < |s'.workers|
      ensures WorkerWithin(s', w)
    {
      assert WorkerWithin(s, w);
    }
    forall c | 0 <= c < |s'.coroutines|
      ensures CoroutineWithin(s', c)
    {
      assert CoroutineWithin(s, c);
    }
  }

  lemma {:induction false} SwapQueues(s: State)
    requires Placed(s) && s.loop == Swapping && Within(Swap(s))
    ensures forall k :: 0 <= k < |s.runQueue| ==> RoundOk(Swap(s), k)
    ensures forall k :: 0 <= k < |s.posted| ==> PostedOk(Swap(s), k)
    ensures forall k :: 0 <= k < |s.arrived| ==> ArrivedOk(Swap(s), k)
    ensures forall w :: 0 <= w < |s.workers| ==> WorkerOk(Swap(s), w)
    ensures forall k :: 0 <= k < |s.log| ==> DeliveryOk(Swap(s), k)
  {
    hide CoroutineOk, PlaceOk;
    var s' := Swap(s);
    forall k | 0 <= k < |s.runQueue|
      ensures RoundOk(s', k)
    {
      assert ReadyOk(s, k);
    }
    forall k | 0 <= k < |s.posted|
      ensures PostedOk(s', k)
    {
      assert PostedOk(s, k);
    }
    forall k | 0 <= k < |s.arrived|
      ensures ArrivedOk(s', k)
    {
      assert ArrivedOk(s, k);
    }
    forall w | 0 <= w < |s.workers|
      ensures WorkerOk(s', w)
    {
      assert WorkerOk(s, w);
    }
    forall k | 0 <= k < |s.log|
      ensures DeliveryOk(s', k)
    {
      assert DeliveryOk(s, k);
    }
  }

  /** A promise is settled: nobody past the pool was waiting for it. */
  lemma {:induction false} SettleKeeps(s: State, p: nat, v: Value)
    requires Placed(s) && p < |s.promises| && s.promises[p].value == None
    ensures Placed(s.(promises := s.promises[p := s.promises[p].(value := Some(v))]))
  {
    var s' := s.(promises := s.promises[p := s.promises[p].(value := Some(v))]);
    SettleWithin(s, p, v);
    forall c | 0 <= c < |s'.coroutines|
      ensures PlaceOk(s', c) && CoroutineOk(s', c)
    {
      assert PlaceOk(s, c) && CoroutineOk(s, c);
    }
    forall k | 0 <= k < |s'.log|
      ensures DeliveryOk(s', k)
    {
      assert DeliveryOk(s, k);
    }
    SettleQueues(s, p, v);
  }

  lemma {:induction false} SettleWithin(s: State, p: nat, v: Value)
    requires Within(s) && p < |s.promises|
    ensures Within(s.(promises := s.promises[p := s.promises[p].(value := Some(v))]))
  {
    var s' := s.(promises := s.promises[p := s.promises[p].(value := Some(v))]);
    forall w | 0 <= w < |s'.workers|
      ensures WorkerWithin(s', w)
    {
      assert WorkerWithin(s, w);
    }
    forall c | 0 <= c < |s'.coroutines|
      ensures CoroutineWithin(s', c)
    {
      assert CoroutineWithin(s, c);
    }
  }

  lemma {:induction false} SettleQueues(s: State, p: nat, v: Value)
    requires Placed(s) && p < |s.promises|
    requires Within(s.(promises := s.promises[p := s.promises[p].(value := Some(v))]))
    ensures var s' := s.(promises := s.promises[p := s.promises[p].(value := Some(v))]);
      && (forall k :: 0 <= k < |s.runQueue| ==> ReadyOk(s', k))
      && (forall k :: 0 <= k < |s.scratch| ==> RoundOk(s', k))
      && (forall k :: 0 <= k < |s.posted| ==> PostedOk(s', k))
      && (forall k :: 0 <= k < |s.arrived| ==> ArrivedOk(s', k))
      && (forall w :: 0 <= w < |s.workers| ==> WorkerOk(s', w))
  {
    hide CoroutineOk, PlaceOk, DeliveryOk;
    var s' := s.(promises := s.promises[p := s.promises[p].(value := Some(v))]);
    assert forall k :: 0 <= k < |s.runQueue| ==> ReadyOk(s, k) ==> ReadyOk(s', k);
    assert forall k :: 0 <= k < |s.scratch| ==> RoundOk(s, k) ==> RoundOk(s', k);
    assert forall k :: 0 <= k < |s.posted| ==> PostedOk(s, k) ==> PostedOk(s', k);
    assert forall k :: 0 <= k < |s.arrived| ==> ArrivedOk(s, k) ==> ArrivedOk(s', k);
    assert forall w :: 0 <= w < |s.workers| ==> WorkerOk(s, w) ==> WorkerOk(s', w);
  }

  // ---------------------------------------------------------------- steps that move a handle

  /** A handle shows up nowhere but where place says. */
  lemma {:induction false} OnlyThere(s: State, x: nat)
    requires Placed(s) && x < |s.coroutines|
    ensures forall k :: 0 <= k < |s.runQueue| && s.runQueue[k] == x ==> s.place[x] == Ready(k)
    ensures forall k :: s.Cursor() <= k < |s.scratch| && s.scratch[k] == x ==> s.place[x] == Round(k)
    ensures forall k :: s.taken <= k < |s.posted| && s.posted[k].coroutine == x ==> s.place[x] == Posted(k)
    ensures forall k :: s.drained <= k < |s.arrived| && s.arrived[k] == x ==> s.place[x] == External(k)
    ensures forall v :: 0 <= v < |s.workers| && s.workers[v].Holds(x) ==> s.place[x] == OnWorker(v)
    ensures s.loop.Inside? && s.scratch[s.loop.index] == x ==> s.place[x] == Running
  {
    hide PlaceOk, CoroutineOk, DeliveryOk;
    forall k | 0 <= k < |s.runQueue| && s.runQueue[k] == x
      ensures s.place[x] == Ready(k)
    {
      assert ReadyOk(s, k);
    }
    forall k | s.Cursor() <= k < |s.scratch| && s.scratch[k] == x
      ensures s.place[x] == Round(k)
    {
      assert RoundOk(s, k);
    }
    forall k | s.taken <= k < |s.posted| && s.posted[k].coroutine == x
      ensures s.place[x] == Posted(k)
    {
      assert PostedOk(s, k);
    }
    forall k | s.drained <= k < |s.arrived| && s.arrived[k] == x
      ensures s.place[x] == External(k)
    {
      assert ArrivedOk(s, k);
    }
    forall v | 0 <= v < |s.workers| && s.workers[v].Holds(x)
      ensures s.place[x] == OnWorker(v)
    {
      assert WorkerOk(s, v);
    }
  }

  /** What a worker holds is what is placed on it, and no handle is placed on a worker that does not exist. */
  lemma {:induction false} PlacedOnWorker(s: State, w: nat)
    requires Placed(s)
    ensures forall c :: 0 <= c < |s.coroutines| && s.place[c] == OnWorker(w) ==>
              w < |s.workers| && s.workers[w].Holds(c)
  {
    forall c | 0 <= c < |s.coroutines| && s.place[c] == OnWorker(w)
      ensures w < |s.workers| && s.workers[w].Holds(c)
    {
      assert PlaceOk(s, c);
    }
  }

  /** The deliveries to a coroutine survive when its other promises change only by being delivered. */
  lemma {:induction false} DeliveriesKeep(s: State, s': State, x: nat)
    requires Placed(s) && Within(s') && s.log <= s'.log && |s.promises| <= |s'.promises|
    requires forall p :: 0 <= p < |s.promises| && s.promises[p].delivered.Some? ==> s'.promises[p] == s.promises[p]
    ensures forall k :: 0 <= k < |s.log| ==> DeliveryOk(s', k)
  {
    forall k | 0 <= k < |s.log|
      ensures DeliveryOk(s', k)
    {
      assert DeliveryOk(s, k);
    }
  }

  lemma {:induction false} DrainOwn(s: State)
    requires Placed(s) && s.loop == Draining && s.drained < |s.arrived| && s.arrived[s.drained] < |s.coroutines|
    ensures Within(Drain(s)) && Local(s, Drain(s), |s.workers|, s.arrived[s.drained])
    ensures PlaceOk(Drain(s), s.arrived[s.drained]) && CoroutineOk(Drain(s), s.arrived[s.drained])
  {
    hide DeliveryOk;
    assert ArrivedOk(s, s.drained) && CoroutineOk(s, s.arrived[s.drained]) && CoroutineWithin(s, s.arrived[s.drained]);
    LocalWithin(s, Drain(s), |s.workers|, s.arrived[s.drained]);
  }

  lemma {:induction false} DrainKeeps(s: State)
    requires Placed(s) && s.loop == Draining && s.drained < |s.arrived| && s.arrived[s.drained] < |s.coroutines|
    ensures Placed(Drain(s))
  {
    hide CoroutineOk, DeliveryOk;
    DrainOwn(s);
    OnlyThere(s, s.arrived[s.drained]);
    PlacedOnWorker(s, |s.workers|);
    DeliveriesKeep(s, Drain(s), s.arrived[s.drained]);
    LocalKeeps(s, Drain(s), |s.workers|, s.arrived[s.drained]);
  }

  lemma {:induction false} TakeOwn(s: State, w: nat)
    requires Placed(s) && w < |s.workers| && s.workers[w] == Idle && s.taken < |s.posted|
    requires s.posted[s.taken].coroutine < |s.coroutines|
    ensures Within(Take(s, w)) && Local(s, Take(s, w), w, s.posted[s.taken].coroutine)
    ensures PlaceOk(Take(s, w), s.posted[s.taken].coroutine) && CoroutineOk(Take(s, w), s.posted[s.taken].coroutine)
  {
    hide DeliveryOk;
    assert PostedOk(s, s.taken) && CoroutineOk(s, s.posted[s.taken].coroutine)
           && CoroutineWithin(s, s.posted[s.taken].coroutine);
    LocalWithin(s, Take(s, w), w, s.posted[s.taken].coroutine);
  }

  lemma {:induction false} TakeKeeps(s: State, w: nat)
    requires Placed(s) && w < |s.workers| && s.workers[w] == Idle && s.taken < |s.posted|
    requires s.posted[s.taken].coroutine < |s.coroutines|
    ensures Placed(Take(s, w))
  {
    hide CoroutineOk, DeliveryOk;
    TakeOwn(s, w);
    OnlyThere(s, s.posted[s.taken].coroutine);
    PlacedOnWorker(s, w);
    DeliveriesKeep(s, Take(s, w), s.posted[s.taken].coroutine);
    LocalKeeps(s, Take(s, w), w, s.posted[s.taken].coroutine);
  }

  /** The worker goes on with the handle it holds: it has the value, or it has written the result. */
  lemma {:induction false} WorkerGoesOn(s: State, w: nat, x: nat, v: Worker, co: Coroutine)
    requires Placed(s) && w < |s.workers| && x < |s.coroutines| && s.workers[w].Holds(x) && v.Holds(x)
    requires var s' := s.SetCoroutine(x, co).SetWorker(w, v); WorkerWithin(s', w) && CoroutineWithin(s', x)
    requires var s' := s.SetCoroutine(x, co).SetWorker(w, v); Within(s') ==> CoroutineOk(s', x)
    ensures Placed(s.SetCoroutine(x, co).SetWorker(w, v))
  {
    var s' := s.SetCoroutine(x, co).SetWorker(w, v);
    hide CoroutineOk;
    OnlyThere(s, x);
    PlacedOnWorker(s, w);
    LocalWithin(s, s', w, x);
    DeliveriesKeep(s, s', x);
    LocalKeeps(s, s', w, x);
  }

  lemma {:induction false} PushExternalOwn(s: State, w: nat, x: nat)
    requires Placed(s) && w < |s.workers| && s.workers[w] == Pushing(x) && x < |s.coroutines|
    ensures Within(PushExternal(s, w, x)) && Local(s, PushExternal(s, w, x), w, x)
    ensures PlaceOk(PushExternal(s, w, x), x) && CoroutineOk(PushExternal(s, w, x), x)
  {
    hide DeliveryOk;
    assert WorkerOk(s, w) && s.workers[w].Holds(x) && CoroutineOk(s, x) && CoroutineWithin(s, x);
    LocalWithin(s, PushExternal(s, w, x), w, x);
  }

  lemma {:induction false} PushExternalKeeps(s: State, w: nat, x: nat)
    requires Placed(s) && w < |s.workers| && s.workers[w] == Pushing(x) && x < |s.coroutines|
    ensures Placed(PushExternal(s, w, x))
  {
    hide CoroutineOk, DeliveryOk;
    PushExternalOwn(s, w, x);
    OnlyThere(s, x);
    PlacedOnWorker(s, w);
    DeliveriesKeep(s, PushExternal(s, w, x), x);
    LocalKeeps(s, PushExternal(s, w, x), w, x);
  }

  lemma {:induction false} ResumeOwn(s: State, i: nat)
    requires Placed(s) && s.loop == Visiting(i) && i < |s.scratch| && !s.coroutines[s.scratch[i]].done
    requires CoroutineWithin(s, s.scratch[i])
    ensures Within(Resume(s, s.scratch[i], i)) && Local(s, Resume(s, s.scratch[i], i), |s.workers|, s.scratch[i])
    ensures PlaceOk(Resume(s, s.scratch[i], i), s.scratch[i]) && CoroutineOk(Resume(s, s.scratch[i], i), s.scratch[i])
  {
    hide DeliveryOk;
    ResumeLocal(s, i);
    assert RoundOk(s, i) && CoroutineOk(s, s.scratch[i]);
  }

  lemma {:induction false} ResumeLocal(s: State, i: nat)
    requires Placed(s) && s.loop == Visiting(i) && i < |s.scratch| && !s.coroutines[s.scratch[i]].done
    requires CoroutineWithin(s, s.scratch[i])
    ensures Within(Resume(s, s.scratch[i], i)) && Local(s, Resume(s, s.scratch[i], i), |s.workers|, s.scratch[i])
  {
    hide DeliveryOk, PlaceOk, WorkerWithin;
    assert CoroutineOk(s, s.scratch[i]);
    LocalWithin(s, Resume(s, s.scratch[i], i), |s.workers|, s.scratch[i]);
  }

  lemma {:induction false} ResumeKeeps(s: State, i: nat)
    requires Placed(s) && s.loop == Visiting(i) && i < |s.scratch| && !s.coroutines[s.scratch[i]].done
    requires CoroutineWithin(s, s.scratch[i])
    ensures Placed(Resume(s, s.scratch[i], i))
  {
    hide CoroutineOk, DeliveryOk;
    ResumeOwn(s, i);
    OnlyThere(s, s.scratch[i]);
    PlacedOnWorker(s, |s.workers|);
    ResumeDelivers(s, i);
    DeliveriesKeep(s, Resume(s, s.scratch[i], i), s.scratch[i]);
    LocalKeeps(s, Resume(s, s.scratch[i], i), |s.workers|, s.scratch[i]);
  }

  /** What the await returns on resumption is the value of its promise. */
  lemma {:induction false} ResumeDelivers(s: State, i: nat)
    requires Placed(s) && s.loop == Visiting(i) && i < |s.scratch|
    requires CoroutineWithin(s, s.scratch[i]) && Within(Resume(s, s.scratch[i], i))
    ensures forall k :: |s.log| <= k < |Resume(s, s.scratch[i], i).log| ==> DeliveryOk(Resume(s, s.scratch[i], i), k)
    ensures forall p :: 0 <= p < |s.promises| && s.promises[p].delivered.Some? ==>
              Resume(s, s.scratch[i], i).promises[p] == s.promises[p]
  {
    assert RoundOk(s, i) && CoroutineOk(s, s.scratch[i]);
  }

  lemma {:induction false} AwaitOwn(s: State, i: nat, settled: Option<Value>)
    requires Placed(s) && s.loop == Inside(i) && i < |s.scratch|
    ensures Within(AwaitPromise(s, s.scratch[i], i, settled))
    ensures Local(s, AwaitPromise(s, s.scratch[i], i, settled), |s.workers|, s.scratch[i])
    ensures PlaceOk(AwaitPromise(s, s.scratch[i], i, settled), s.scratch[i])
    ensures CoroutineOk(AwaitPromise(s, s.scratch[i], i, settled), s.scratch[i])
  {
    hide DeliveryOk;
    assert RunningOk(s) && CoroutineOk(s, s.scratch[i]) && CoroutineWithin(s, s.scratch[i]);
    LocalWithin(s, AwaitPromise(s, s.scratch[i], i, settled), |s.workers|, s.scratch[i]);
  }

  lemma {:induction false} AwaitDelivers(s: State, i: nat, settled: Option<Value>)
    requires Placed(s) && s.loop == Inside(i) && i < |s.scratch| && Within(AwaitPromise(s, s.scratch[i], i, settled))
    ensures var s' := AwaitPromise(s, s.scratch[i], i, settled);
      forall k :: |s.log| <= k < |s'.log| ==> DeliveryOk(s', k)
  {
  }

  lemma {:induction false} AwaitKeeps(s: State, i: nat, settled: Option<Value>)
    requires Placed(s) && s.loop == Inside(i) && i < |s.scratch|
    ensures Placed(AwaitPromise(s, s.scratch[i], i, settled))
  {
    hide CoroutineOk, DeliveryOk;
    AwaitOwn(s, i, settled);
    OnlyThere(s, s.scratch[i]);
    PlacedOnWorker(s, |s.workers|);
    DeliveriesKeep(s, AwaitPromise(s, s.scratch[i], i, settled), s.scratch[i]);
    AwaitDelivers(s, i, settled);
    LocalKeeps(s, AwaitPromise(s, s.scratch[i], i, settled), |s.workers|, s.scratch[i]);
  }

  lemma {:induction false} YieldOwn(s: State, i: nat)
    requires Placed(s) && s.loop == Inside(i) && i < |s.scratch|
    ensures Within(ScheduleHere(s, s.scratch[i]).Goto(Visiting(i + 1)))
    ensures Local(s, ScheduleHere(s, s.scratch[i]).Goto(Visiting(i + 1)), |s.workers|, s.scratch[i])
    ensures PlaceOk(ScheduleHere(s, s.scratch[i]).Goto(Visiting(i + 1)), s.scratch[i])
    ensures CoroutineOk(ScheduleHere(s, s.scratch[i]).Goto(Visiting(i + 1)), s.scratch[i])
  {
    hide DeliveryOk;
    assert RunningOk(s) && CoroutineOk(s, s.scratch[i]) && CoroutineWithin(s, s.scratch[i]);
    LocalWithin(s, ScheduleHere(s, s.scratch[i]).Goto(Visiting(i + 1)), |s.workers|, s.scratch[i]);
  }

  lemma {:induction false} YieldKeeps(s: State, i: nat)
    requires Placed(s) && s.loop == Inside(i) && i < |s.scratch|
    ensures Placed(ScheduleHere(s, s.scratch[i]).Goto(Visiting(i + 1)))
  {
    hide CoroutineOk, DeliveryOk;
    YieldOwn(s, i);
    OnlyThere(s, s.scratch[i]);
    PlacedOnWorker(s, |s.workers|);
    DeliveriesKeep(s, ScheduleHere(s, s.scratch[i]).Goto(Visiting(i + 1)), s.scratch[i]);
    LocalKeeps(s, ScheduleHere(s, s.scratch[i]).Goto(Visiting(i + 1)), |s.workers|, s.scratch[i]);
  }

  lemma {:induction false} FinishOwn(s: State, i: nat)
    requires Placed(s) && s.loop == Inside(i) && i < |s.scratch|
    ensures Within(Act(s, s.scratch[i], i, Finish))
    ensures Local(s, Act(s, s.scratch[i], i, Finish), |s.workers|, s.scratch[i])
    ensures PlaceOk(Act(s, s.scratch[i], i, Finish), s.scratch[i])
    ensures CoroutineOk(Act(s, s.scratch[i], i, Finish), s.scratch[i])
  {
    hide DeliveryOk;
    assert RunningOk(s) && CoroutineOk(s, s.scratch[i]) && CoroutineWithin(s, s.scratch[i]);
    LocalWithin(s, Act(s, s.scratch[i], i, Finish), |s.workers|, s.scratch[i]);
  }

  lemma {:induction false} FinishKeeps(s: State, i: nat)
    requires Placed(s) && s.loop == Inside(i) && i < |s.scratch|
    ensures Placed(Act(s, s.scratch[i], i, Finish))
  {
    hide CoroutineOk, DeliveryOk;
    FinishOwn(s, i);
    OnlyThere(s, s.scratch[i]);
    PlacedOnWorker(s, |s.workers|);
    DeliveriesKeep(s, Act(s, s.scratch[i], i, Finish), s.scratch[i]);
    LocalKeeps(s, Act(s, s.scratch[i], i, Finish), |s.workers|, s.scratch[i]);
  }

  /** Nothing so far names a coroutine that does not exist. */
  lemma {:induction false} SpawnKeeps(s: State)
    requires Placed(s)
    ensures Placed(SpawnCoroutine(s))
  {
    hide DeliveryOk;
    var s', x := SpawnCoroutine(s), |s.coroutines|;
    PlacedOnWorker(s, |s.workers|);
    forall v | 0 <= v < |s.workers|
      ensures !s.workers[v].Holds(x)
    {
      assert WorkerOk(s, v);
    }
    LocalWithin(s, s', |s.workers|, x);
    DeliveriesKeep(s, s', x);
    LocalKeeps(s, s', |s.workers|, x);
  }

  // ---------------------------------------------------------------- one round, uninterrupted

  /** The handles of a queue whose coroutines are not done, and what they schedule on their own thread when resumed. */
  function Live(queue: seq<nat>, done: nat -> bool): seq<nat> {
    if queue == [] then []
    else if done(queue[|queue| - 1]) then Live(queue[..|queue| - 1], done)
    else Live(queue[..|queue| - 1], done) + [queue[|queue| - 1]]
  }

  function Scheduled(handles: seq<nat>, schedules: nat -> seq<nat>): seq<nat> {
    if handles == [] then [] else Scheduled(handles[..|handles| - 1], schedules) + schedules(handles[|handles| - 1])
  }

  /** Live keeps exactly the handles that are not done, as often as they occur, and in order. */
  lemma {:induction false} LiveIsNotDone(queue: seq<nat>, done: nat -> bool)
    ensures forall h :: multiset(Live(queue, done))[h] == if done(h) then 0 else multiset(queue)[h]
    ensures forall h :: h in Live(queue, done) <==> h in queue && !done(h)
  {
    if queue != [] {
      var before, last := queue[..|queue| - 1], queue[|queue| - 1];
      LiveIsNotDone(before, done);
      assert queue == before + [last];
    }
  }

  lemma {:induction false} LiveOfAppend(a: seq<nat>, b: seq<nat>, done: nat -> bool)
    ensures Live(a + b, done) == Live(a, done) + Live(b, done)
  {
    if b == [] {
      assert a + b == a;
    } else {
      assert (a + b)[..|a + b| - 1] == a + b[..|b| - 1];
      LiveOfAppend(a, b[..|b| - 1], done);
    }
  }

  /** What is scheduled comes from the handles resumed, and all of it is there. */
  lemma {:induction false} ScheduledIsAll(handles: seq<nat>, schedules: nat -> seq<nat>)
    ensures forall x :: x in Scheduled(handles, schedules) <==> exists h :: h in handles && x in schedules(h)
  {
    if handles != [] {
      var before, last := handles[..|handles| - 1], handles[|handles| - 1];
      ScheduledIsAll(before, schedules);
      assert handles == before + [last];
    }
  }

  lemma StartsEmpty(queue: seq<nat>, done: nat -> bool, schedules: nat -> seq<nat>)
    ensures Live(queue[..0], done) == [] && Scheduled(Live(queue[..0], done), schedules) == []
  {
  }

  lemma OneMoreHandle(queue: seq<nat>, h: nat, done: nat -> bool, schedules: nat -> seq<nat>)
    ensures Live(queue + [h], done) == Live(queue, done) + if done(h) then [] else [h]
    ensures Scheduled(Live(queue + [h], done), schedules)
         == Scheduled(Live(queue, done), schedules) + if done(h) then [] else schedules(h)
  {
    assert (queue + [h])[..|queue|] == queue;
    var live := Live(queue, done);
    assert (live + [h])[..|live|] == live;
  }

  class EventLoop {
    var runQueue: seq<nat>
    var scratchQueue: seq<nat>
    var externalQueue: seq<nat>
    var externalPending: int
    ghost var resumed: seq<nat>

    constructor ()
      ensures runQueue == scratchQueue == externalQueue == resumed == [] && externalPending == 0
    {
      runQueue, scratchQueue, externalQueue, resumed, externalPending := [], [], [], [], 0;
    }

    method ProcessExternalQueue()
      modifies this`runQueue, this`externalQueue, this`externalPending
      ensures externalQueue == [] && runQueue == old(runQueue) + old(externalQueue)
      ensures externalPending == old(externalPending) - |old(externalQueue)|
    {
      while externalQueue != []
        invariant runQueue + externalQueue == old(runQueue) + old(externalQueue)
        invariant externalPending - |externalQueue| == old(externalPending) - |old(externalQueue)|
        decreases |externalQueue|
      {
        runQueue := runQueue + [externalQueue[0]];
        externalQueue := externalQueue[1..];
        externalPending := externalPending - 1;
      }
    }

    /** Resumes what was waiting, in order; what that schedules, in order, is the run queue of the next round. */
    method Round(done: nat -> bool, schedules: nat -> seq<nat>)
      modifies this
      ensures scratchQueue == old(runQueue) + old(externalQueue) && externalQueue == []
      ensures resumed == old(resumed) + Live(scratchQueue, done)
      ensures runQueue == Scheduled(Live(scratchQueue, done), schedules)
      ensures forall h :: h in Live(scratchQueue, done) <==> h in scratchQueue && !done(h)
    {
      hide Live, Scheduled;
      ProcessExternalQueue();
      scratchQueue := [];
      scratchQueue, runQueue := runQueue, scratchQueue;
      StartsEmpty(scratchQueue, done, schedules);
      var i := 0;
      while i < |scratchQueue|
        modifies this`runQueue, this`resumed
        invariant i <= |scratchQueue|
        invariant resumed == old(resumed) + Live(scratchQueue[..i], done)
        invariant runQueue == Scheduled(Live(scratchQueue[..i], done), schedules)
      {
        var h := scratchQueue[i];
        assert scratchQueue[..i + 1] == scratchQueue[..i] + [h];
        OneMoreHandle(scratchQueue[..i], h, done, schedules);
        if !done(h) {
          resumed := resumed + [h];
          runQueue := runQueue + schedules(h);
        }
        i := i + 1;
      }
      assert scratchQueue[..i] == scratchQueue;
      LiveIsNotDone(scratchQueue, done);
    }
  }

  /** The pool's locked queue and its worker, uninterrupted: what was posted has run, in order, or is queued. */
  class ContinuationPool {
    var queue: seq<Task>
    var stopped: bool
    ghost var posted: seq<Task>
    ghost var ran: seq<Task>

    ghost predicate Valid()
      reads this
    {
      posted == ran + queue
    }

    constructor ()
      ensures Valid() && posted == [] && !stopped
    {
      queue, posted, ran, stopped := [], [], [], false;
    }

    method Post(task: Task)
      requires Valid()
      modifies this`queue, this`posted
      ensures Valid() && posted == old(posted) + [task]
    {
      queue := queue + [task];
      posted := posted + [task];
    }

    method Stop()
      modifies this`stopped
      ensures stopped
    {
      stopped := true;
    }

    /** rounds bounds how often the worker gets round its loop before it is interrupted. */
    method WorkerLoop(rounds: nat) returns (exited: bool)
      requires Valid()
      modifies this`queue, this`ran
      ensures Valid() && old(ran) <= ran
      ensures exited ==> stopped && ran == posted
      ensures stopped && |posted| - |old(ran)| < rounds ==> exited
    {
      exited := false;
      var left := rounds;
      while left > 0
        invariant Valid() && old(ran) <= ran && |ran| - |old(ran)| == rounds - left
      {
        if stopped && queue == [] {
          return true;
        }
        if queue == [] {
          return false;  // waits
        }
        ran := ran + [queue[0]];
        queue := queue[1..];
        left := left - 1;
      }
    }
  }
}
