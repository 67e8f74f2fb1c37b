/**
 * The batching executor as a step machine: any number of calling threads and of workers, and one thread that starts
 * and stops the pool. The queue between them hands items over in order and may refuse either side without a
 * reason, as the ring does. The clock, the model's readiness and the backend's replies come with the events.
 */
module Executor {
  import opened Wrappers
  import Fifo
  import MpmcQueue
  import opened Bits

  const CAPACITY: nat := 1024

  type Payload = int
  type Reply = int

  datatype Request = Request(payload: Payload, routing: nat)

  datatype Failure = NotReady | QueueFull | Stopped | Unavailable

  datatype Answer = Failed(failure: Failure) | Served(reply: Reply, routing: nat, queueWait: nat)

  /** A thread inside infer_async. */
  datatype Caller =
    | Idle
    | Entered(id: nat)
    | Checking(id: nat)
    | Pushing(id: nat)
    | Late(id: nat)
    | Refusing(id: nat, failure: Failure)
    | Counting
  {
    predicate Holds(r: nat) {
      !Idle? && !Counting? && id == r
    }
  }

  datatype WorkerPc = Off | Outer | Inner | Popping | Decrement | Missed | Chosen | Waiting | Infer | Sending | Failing

  /** A worker: its batch with the measured waits, how many of the batch it has answered, and its last backend call. */
  datatype Worker = Worker(pc: WorkerPc, batch: seq<nat>, waits: seq<nat>, sent: nat, run: nat)

  datatype Control = Resting | Spawning(next: nat) | Joining(next: nat)

  datatype Place = Hand(tid: nat) | Queued(position: nat) | InBatch(worker: nat, index: nat) | Answered(entry: nat)

  /** A promise being set; run and index say which reply of which backend call a served answer came from. */
  datatype Entry = Entry(id: nat, answer: Answer, run: nat, index: nat)

  /** A call of infer_batch: the requests it was given and the replies it returned. */
  datatype BackendCall = BackendCall(ids: seq<nat>, payloads: seq<Payload>, replies: seq<Reply>)

  /**
   * Requests are numbered as they arrive. pushed is everything ever pushed, popped how much of it has been taken;
   * log is every setting of a promise. place and waitOf only record: where each request is, what wait was measured.
   */
  datatype State = State(
    maxBatch: nat, calls: seq<Request>, callers: seq<Caller>, workers: seq<Worker>,
    pushed: seq<nat>, popped: nat, queueSize: int, stopped: bool, control: Control,
    log: seq<Entry>, runs: seq<BackendCall>, place: seq<Place>, waitOf: map<nat, nat>)
  {
    function SetCaller(t: nat, c: Caller): State
      requires t < |callers|
    {
      this.(callers := callers[t := c])
    }

    function SetWorker(w: nat, v: Worker): State
      requires w < |workers|
    {
      this.(workers := workers[w := v])
    }

    function MoveTo(id: nat, p: Place): State
      requires id < |place|
    {
      this.(place := place[id := p])
    }

    function QueueLength(): int { |pushed| - popped }
  }

  /** choice resolves whatever the thread reads from outside; the rest is used only by the step that needs it. */
  datatype Event =
    | Call(tid: nat, request: Request)
    | CallerStep(tid: nat, choice: bool)
    | WorkerStep(worker: nat, choice: bool, wait: nat, replies: seq<Reply>)
    | Start
    | Stop
    | ControlStep

  function Init(callers: nat, workers: nat, maxBatch: nat): State {
    State(maxBatch, [], seq(callers, _ => Idle),
          seq(if workers > 0 then workers else 1, _ => Worker(Off, [], [], 0, 0)),
          [], 0, 0, true, Resting, [], [], [], map[])
  }

  // ---------------------------------------------------------------- steps

  function Enter(s: State, t: nat, r: Request): State
    requires t < |s.callers|
  {
    s.(calls := s.calls + [r], place := s.place + [Hand(t)]).SetCaller(t, Entered(|s.calls|))
  }

  function Push(s: State, t: nat, id: nat): State
    requires t < |s.callers| && id < |s.place|
  {
    s.(pushed := s.pushed + [id]).MoveTo(id, Queued(|s.pushed|)).SetCaller(t, Counting)
  }

  function Refuse(s: State, t: nat, id: nat, f: Failure): State
    requires t < |s.callers| && id < |s.place|
  {
    s.(log := s.log + [Entry(id, Failed(f), 0, 0)]).MoveTo(id, Answered(|s.log|)).SetCaller(t, Idle)
  }

  function StepCaller(s: State, t: nat, choice: bool): State
    requires t < |s.callers| && Within(s)
  {
    assert CallerWithin(s, t);
    match s.callers[t]
    case Idle => s
    case Entered(id) => s.SetCaller(t, if choice then Checking(id) else Refusing(id, NotReady))
    case Checking(id) => s.SetCaller(t, if s.stopped then Refusing(id, Stopped) else Pushing(id))
    case Pushing(id) => if choice && s.QueueLength() < CAPACITY then Push(s, t, id) else s.SetCaller(t, Late(id))
    case Late(id) => s.SetCaller(t, if choice then Refusing(id, QueueFull) else Checking(id))
    case Refusing(id, f) => Refuse(s, t, id, f)
    case Counting => s.(queueSize := s.queueSize + 1).SetCaller(t, Idle)
  }

  function Pop(s: State, w: nat, wait: nat): State
    requires w < |s.workers| && s.popped < |s.pushed| && s.pushed[s.popped] < |s.place|
  {
    var v, id := s.workers[w], s.pushed[s.popped];
    s.(popped := s.popped + 1, waitOf := s.waitOf[id := wait])
     .MoveTo(id, InBatch(w, |v.batch|))
     .SetWorker(w, v.(pc := Decrement, batch := v.batch + [id], waits := v.waits + [wait]))
  }

  function Payloads(calls: seq<Request>, ids: seq<nat>): (r: seq<Payload>)
    requires forall i :: 0 <= i < |ids| ==> ids[i] < |calls|
    ensures |r| == |ids|
  {
    seq(|ids|, i requires 0 <= i < |ids| => calls[ids[i]].payload)
  }

  function CallBackend(s: State, w: nat, replies: seq<Reply>): State
    requires w < |s.workers| && forall i :: 0 <= i < |s.workers[w].batch| ==> s.workers[w].batch[i] < |s.calls|
  {
    var v := s.workers[w];
    s.(runs := s.runs + [BackendCall(v.batch, Payloads(s.calls, v.batch), replies)])
     .SetWorker(w, v.(pc := Sending, run := |s.runs|))
  }

  /** Sets the promise of the worker's next request. */
  function SetPromise(s: State, w: nat, answer: Answer): State
    requires w < |s.workers| && s.workers[w].sent < |s.workers[w].batch|
    requires s.workers[w].batch[s.workers[w].sent] < |s.place|
  {
    var v := s.workers[w];
    var id := v.batch[v.sent];
    s.(log := s.log + [Entry(id, answer, v.run, v.sent)])
     .MoveTo(id, Answered(|s.log|)).SetWorker(w, v.(sent := v.sent + 1))
  }

  function StepWorker(s: State, w: nat, choice: bool, wait: nat, replies: seq<Reply>): State
    requires w < |s.workers| && Within(s)
  {
    assert WorkerWithin(s, w);
    var v := s.workers[w];
    match v.pc
    case Off => s
    case Outer =>
      s.SetWorker(w, if s.stopped then v.(pc := Off) else v.(pc := Inner, batch := [], waits := [], sent := 0))
    case Inner => s.SetWorker(w, v.(pc := if |v.batch| < s.maxBatch && !s.stopped then Popping else Chosen))
    case Popping => if choice && s.popped < |s.pushed| then Pop(s, w, wait) else s.SetWorker(w, v.(pc := Missed))
    case Decrement => s.(queueSize := s.queueSize - 1).SetWorker(w, v.(pc := Inner))
    case Missed => s.SetWorker(w, v.(pc := if v.batch == [] || choice then Chosen else Inner))
    case Chosen => s.SetWorker(w, v.(pc := if v.batch == [] then Waiting else if choice then Infer else Failing))
    case Waiting => if s.queueSize > 0 || s.stopped then s.SetWorker(w, v.(pc := Outer)) else s
    case Infer => if |replies| == |v.batch| then CallBackend(s, w, replies) else s
    case Sending =>
      if v.sent < |v.batch|
      then SetPromise(s, w, Served(s.runs[v.run].replies[v.sent], s.calls[v.batch[v.sent]].routing, v.waits[v.sent]))
      else s.SetWorker(w, v.(pc := Outer))
    case Failing =>
      if v.sent < |v.batch| then SetPromise(s, w, Failed(Unavailable)) else s.SetWorker(w, v.(pc := Outer))
  }

  function StepControl(s: State): State {
    match s.control
    case Resting => s
    case Spawning(k) =>
      if k < |s.workers| then s.(control := Spawning(k + 1)).SetWorker(k, s.workers[k].(pc := Outer))
      else s.(control := Resting)
    case Joining(k) =>
      if k < |s.workers| then (if s.workers[k].pc == Off then s.(control := Joining(k + 1)) else s)
      else s.(control := Resting)
  }

  function Step(s: State, e: Event): State
    requires Within(s)
  {
    match e
    case Call(t, r) => if t < |s.callers| && s.callers[t] == Idle then Enter(s, t, r) else s
    case CallerStep(t, choice) => if t < |s.callers| then StepCaller(s, t, choice) else s
    case WorkerStep(w, choice, wait, replies) => if w < |s.workers| then StepWorker(s, w, choice, wait, replies) else s
    case Start => if s.control == Resting && s.stopped then s.(stopped := false, control := Spawning(0)) else s
    case Stop => if s.control == Resting && !s.stopped then s.(stopped := true, control := Joining(0)) else s
    case ControlStep => StepControl(s)
  }

  // ---------------------------------------------------------------- invariant: every index is in range

  predicate CallerWithin(s: State, t: nat)
    requires t < |s.callers|
  {
    var c := s.callers[t];
    c.Idle? || c.Counting? || c.id < |s.calls|
  }

  predicate WorkerWithin(s: State, w: nat)
    requires w < |s.workers|
  {
    var v := s.workers[w];
    && v.sent <= |v.batch| == |v.waits| && |v.batch| <= s.maxBatch
    && (forall i :: 0 <= i < |v.batch| ==> v.batch[i] < |s.calls|)
    && (v.pc == Popping ==> |v.batch| < s.maxBatch)
    && (v.pc == Sending ==> v.run < |s.runs| && s.runs[v.run].ids == v.batch && |s.runs[v.run].replies| == |v.batch|)
  }

  predicate Within(s: State) {
    && |s.place| == |s.calls| && s.popped <= |s.pushed|
    && (forall t :: 0 <= t < |s.callers| ==> CallerWithin(s, t))
    && (forall w :: 0 <= w < |s.workers| ==> WorkerWithin(s, w))
    && (forall k :: 0 <= k < |s.pushed| ==> s.pushed[k] < |s.calls|)
  }

  // ---------------------------------------------------------------- invariant: every request is where place says

  ghost predicate PlaceOk(s: State, id: nat)
    requires Within(s) && id < |s.calls|
  {
    match s.place[id]
    case Hand(t) => t < |s.callers| && s.callers[t].Holds(id)
    case Queued(k) => s.popped <= k < |s.pushed| && s.pushed[k] == id
    case InBatch(w, i) =>
      w < |s.workers| && s.workers[w].sent <= i < |s.workers[w].batch| && s.workers[w].batch[i] == id
    case Answered(k) => k < |s.log| && s.log[k].id == id
  }

  ghost predicate HandOk(s: State, t: nat)
    requires Within(s) && t < |s.callers|
  {
    var c := s.callers[t];
    c.Idle? || c.Counting? || (c.id < |s.calls| && s.place[c.id] == Hand(t))
  }

  ghost predicate QueueOk(s: State, k: nat)
    requires Within(s) && k < |s.pushed|
  {
    k >= s.popped ==> s.place[s.pushed[k]] == Queued(k)
  }

  predicate Busy(pc: WorkerPc) {
    pc == Inner || pc == Popping || pc == Decrement || pc == Missed || pc == Chosen || pc == Infer
  }

  ghost predicate BatchOk(s: State, w: nat, i: nat)
    requires Within(s) && w < |s.workers| && i < |s.workers[w].batch|
  {
    var v := s.workers[w];
    && i < |v.waits| && v.batch[i] < |s.calls|
    && (if i >= v.sent then s.place[v.batch[i]] == InBatch(w, i) else s.place[v.batch[i]].Answered?)
    && v.batch[i] in s.waitOf && s.waitOf[v.batch[i]] == v.waits[i]
  }

  /** A worker answers nothing before it has a batch to answer, and leaves nothing unanswered behind. */
  predicate PhaseOk(v: Worker) {
    (Busy(v.pc) ==> v.sent == 0) && (v.pc == Off || v.pc == Outer || v.pc == Waiting ==> v.sent == |v.batch|)
  }

  /** An entry of the log: its request is settled by it, and a served answer is the reply at its own batch index. */
  ghost predicate EntryOk(s: State, k: nat)
    requires Within(s) && k < |s.log|
  {
    var e := s.log[k];
    && e.id < |s.calls| && s.place[e.id] == Answered(k)
    && (e.answer.Served? ==>
          && e.run < |s.runs| && e.index < |s.runs[e.run].ids| == |s.runs[e.run].replies|
          && s.runs[e.run].ids[e.index] == e.id
          && e.answer.reply == s.runs[e.run].replies[e.index]
          && e.answer.routing == s.calls[e.id].routing
          && e.id in s.waitOf && e.answer.queueWait == s.waitOf[e.id])
  }

  /** A request given to the backend is served by that call at that index, or its worker is about to serve it so. */
  ghost predicate CallOk(s: State, r: nat, i: nat)
    requires Within(s) && r < |s.runs| && i < |s.runs[r].ids|
  {
    var c := s.runs[r];
    && |c.payloads| == |c.replies| == |c.ids| <= s.maxBatch && c.ids[i] < |s.calls|
    && c.payloads[i] == s.calls[c.ids[i]].payload
    && match s.place[c.ids[i]]
       case Answered(k) => k < |s.log| && s.log[k].answer.Served? && s.log[k].run == r && s.log[k].index == i
       case InBatch(w, j) => w < |s.workers| && s.workers[w].pc == Sending && s.workers[w].run == r && i == j
       case _ => false
  }

  ghost predicate Placed(s: State) {
    && Within(s)
    && (forall id :: 0 <= id < |s.calls| ==> PlaceOk(s, id))
    && (forall t :: 0 <= t < |s.callers| ==> HandOk(s, t))
    && (forall k :: 0 <= k < |s.pushed| ==> QueueOk(s, k))
    && (forall w :: 0 <= w < |s.workers| ==> PhaseOk(s.workers[w]))
    && (forall w, i :: 0 <= w < |s.workers| && 0 <= i < |s.workers[w].batch| ==> BatchOk(s, w, i))
    && (forall k :: 0 <= k < |s.log| ==> EntryOk(s, k))
    && (forall r, i :: 0 <= r < |s.runs| && 0 <= i < |s.runs[r].ids| ==> CallOk(s, r, i))
  }

  // ---------------------------------------------------------------- a step touches one caller, one worker, one request

  /** From s to s' at most caller t, worker w and request x change; the histories only grow. */
  ghost predicate Local(s: State, s': State, t: nat, w: nat, x: nat) {
    && s'.maxBatch == s.maxBatch && |s'.callers| == |s.callers| && |s'.workers| == |s.workers|
    && (forall u :: 0 <= u < |s.callers| && u != t ==> s'.callers[u] == s.callers[u])
    && (forall v :: 0 <= v < |s.workers| && v != w ==> s'.workers[v] == s.workers[v])
    && s.calls <= s'.calls && s.pushed <= s'.pushed && s.log <= s'.log && s.runs <= s'.runs
    && |s.place| == |s.calls| && |s'.place| == |s'.calls|
    && (forall id :: 0 <= id < |s.calls| && id != x ==> s'.place[id] == s.place[id])
    && (forall id :: id in s.waitOf && id != x ==> id in s'.waitOf && s'.waitOf[id] == s.waitOf[id])
    && s.popped <= s'.popped <= |s'.pushed|
    && (forall k :: s.popped <= k < s'.popped ==> k < |s.pushed| && s.pushed[k] == x)
  }

  /** What has to be shown of the parts that changed. */
  ghost predicate Touched(s: State, s': State, t: nat, w: nat, x: nat)
    requires Within(s) && Within(s') && Local(s, s', t, w, x)
  {
    && (forall id :: 0 <= id < |s'.calls| && (id >= |s.calls| || id == x || Rests(s.place[id], t, w)) ==>
              PlaceOk(s', id))
    && (forall u :: 0 <= u < |s.callers| && (u == t || s.callers[u].Holds(x)) ==> HandOk(s', u))
    && (forall k :: 0 <= k < |s'.pushed| && (k >= |s.pushed| || s.pushed[k] == x) ==> QueueOk(s', k))
    && (w < |s'.workers| ==> PhaseOk(s'.workers[w]))
    && (forall v, i :: 0 <= v < |s'.workers| && 0 <= i < |s'.workers[v].batch| && (v == w || s.workers[v].batch[i] == x)
          ==> BatchOk(s', v, i))
    && (forall k :: 0 <= k < |s'.log| && (k >= |s.log| || s.log[k].id == x) ==> EntryOk(s', k))
    && (forall r, i :: 0 <= r < |s'.runs| && 0 <= i < |s'.runs[r].ids| && (r >= |s.runs| || Concerns(s, r, i, w, x))
          ==> CallOk(s', r, i))
  }

  predicate Rests(p: Place, t: nat, w: nat) {
    p == Hand(t) || (p.InBatch? && p.worker == w)
  }

  predicate Concerns(s: State, r: nat, i: nat, w: nat, x: nat)
    requires Within(s) && r < |s.runs| && i < |s.runs[r].ids|
  {
    var id := s.runs[r].ids[i];
    id == x || (id < |s.calls| && s.place[id].InBatch? && s.place[id].worker == w)
  }

  lemma {:induction false} LocalKeeps(s: State, s': State, t: nat, w: nat, x: nat)
    requires Placed(s) && Within(s') && Local(s, s', t, w, x) && Touched(s, s', t, w, x)
    ensures Placed(s')
  {
    hide Within, WorkerWithin, CallerWithin;
    LocalPlaces(s, s', t, w, x);
    LocalBatches(s, s', t, w, x);
    LocalCalls(s, s', t, w, x);
    forall k | 0 <= k < |s'.log|
      ensures EntryOk(s', k)
    {
      if k < |s.log| && s.log[k].id != x {
        assert EntryOk(s, k);
      }
    }
  }

  lemma {:induction false} LocalPlaces(s: State, s': State, t: nat, w: nat, x: nat)
    requires Placed(s) && Within(s') && Local(s, s', t, w, x) && Touched(s, s', t, w, x)
    ensures forall id :: 0 <= id < |s'.calls| ==> PlaceOk(s', id)
    ensures forall u :: 0 <= u < |s'.callers| ==> HandOk(s', u)
    ensures forall k :: 0 <= k < |s'.pushed| ==> QueueOk(s', k)
  {
    hide EntryOk, CallOk, BatchOk, WorkerWithin;
    forall id | 0 <= id < |s'.calls|
      ensures PlaceOk(s', id)
    {
      if id < |s.calls| && id != x && !Rests(s.place[id], t, w) {
        assert PlaceOk(s, id);
      }
    }
    forall u | 0 <= u < |s'.callers|
      ensures HandOk(s', u)
    {
      if u != t && !s.callers[u].Holds(x) {
        assert HandOk(s, u);
      }
    }
    forall k | 0 <= k < |s'.pushed|
      ensures QueueOk(s', k)
    {
      if k < |s.pushed| && s.pushed[k] != x {
        assert QueueOk(s, k);
      }
    }
  }

  lemma {:induction false} LocalBatches(s: State, s': State, t: nat, w: nat, x: nat)
    requires Placed(s) && Within(s') && Local(s, s', t, w, x) && Touched(s, s', t, w, x)
    ensures forall v :: 0 <= v < |s'.workers| ==> PhaseOk(s'.workers[v])
    ensures forall v, i :: 0 <= v < |s'.workers| && 0 <= i < |s'.workers[v].batch| ==> BatchOk(s', v, i)
  {
    hide EntryOk, CallOk, HandOk, PlaceOk, QueueOk, WorkerWithin;
    forall v, i | 0 <= v < |s'.workers| && 0 <= i < |s'.workers[v].batch|
      ensures BatchOk(s', v, i)
    {
      if v != w && s.workers[v].batch[i] != x {
        assert BatchOk(s, v, i);
      }
    }
  }

  lemma {:induction false} LocalCalls(s: State, s': State, t: nat, w: nat, x: nat)
    requires Placed(s) && Within(s') && Local(s, s', t, w, x) && Touched(s, s', t, w, x)
    ensures forall r, i :: 0 <= r < |s'.runs| && 0 <= i < |s'.runs[r].ids| ==> CallOk(s', r, i)
  {
    hide EntryOk, BatchOk, HandOk, PlaceOk, QueueOk, WorkerWithin;
    forall r, i | 0 <= r < |s'.runs| && 0 <= i < |s'.runs[r].ids|
      ensures CallOk(s', r, i)
    {
      if r < |s.runs| && !Concerns(s, r, i, w, x) {
        assert CallOk(s, r, i);
      }
    }
  }

  lemma {:induction false} LocalWithin(s: State, s': State, t: nat, w: nat, x: nat)
    requires Within(s) && Local(s, s', t, w, x)
    requires t < |s'.callers| ==> CallerWithin(s', t)
    requires w < |s'.workers| ==> WorkerWithin(s', w)
    requires forall k :: |s.pushed| <= k < |s'.pushed| ==> s'.pushed[k] < |s'.calls|
    ensures Within(s')
  {
    forall u | 0 <= u < |s'.callers|
      ensures CallerWithin(s', u)
    {
      assert u != t ==> CallerWithin(s, u);
    }
    forall v | 0 <= v < |s'.workers|
      ensures WorkerWithin(s', v)
    {
      assert v != w ==> WorkerWithin(s, v);
    }
  }

  // ---------------------------------------------------------------- steps that move no request

  /** x == |calls| names no request: nothing recorded so far concerns it. */
  lemma {:induction false} NoSuchRequest(s: State)
    requires Placed(s)
    ensures forall k :: 0 <= k < |s.log| ==> s.log[k].id != |s.calls|
    ensures forall r, i :: 0 <= r < |s.runs| && 0 <= i < |s.runs[r].ids| ==> s.runs[r].ids[i] < |s.calls|
    ensures forall id :: 0 <= id < |s.calls| && s.place[id].InBatch? ==> s.place[id].worker < |s.workers|
    ensures forall u :: 0 <= u < |s.callers| ==> !s.callers[u].Holds(|s.calls|)
    ensures forall v, i :: 0 <= v < |s.workers| && 0 <= i < |s.workers[v].batch| ==> s.workers[v].batch[i] < |s.calls|
  {
    forall k | 0 <= k < |s.log|
      ensures s.log[k].id != |s.calls|
    {
      assert EntryOk(s, k);
    }
    forall r, i | 0 <= r < |s.runs| && 0 <= i < |s.runs[r].ids|
      ensures s.runs[r].ids[i] < |s.calls|
    {
      assert CallOk(s, r, i);
    }
    forall id | 0 <= id < |s.calls| && s.place[id].InBatch?
      ensures s.place[id].worker < |s.workers|
    {
      assert PlaceOk(s, id);
    }
    forall u | 0 <= u < |s.callers|
      ensures !s.callers[u].Holds(|s.calls|)
    {
      assert HandOk(s, u);
    }
    forall v, i | 0 <= v < |s.workers| && 0 <= i < |s.workers[v].batch|
      ensures s.workers[v].batch[i] < |s.calls|
    {
      assert BatchOk(s, v, i);
    }
  }

  lemma {:induction false} CallerMoves(s: State, t: nat, c: Caller)
    requires Placed(s) && t < |s.callers|
    requires forall id: nat :: c.Holds(id) <==> s.callers[t].Holds(id)
    ensures Placed(s.SetCaller(t, c))
  {
    var s' := s.SetCaller(t, c);
    NoSuchRequest(s);
    assert CallerWithin(s, t) && HandOk(s, t);
    assert !c.Idle? && !c.Counting? ==> s.callers[t].Holds(c.id);
    hide EntryOk, CallOk, BatchOk, WorkerWithin;
    LocalWithin(s, s', t, |s.workers|, |s.calls|);
    forall id | 0 <= id < |s.calls| && s.place[id] == Hand(t)
      ensures PlaceOk(s', id)
    {
      assert PlaceOk(s, id);
    }
    LocalKeeps(s, s', t, |s.workers|, |s.calls|);
  }

  /** A worker moves on with its batch; it leaves Sending only when the whole batch is answered. */
  lemma {:induction false} WorkerMoves(s: State, w: nat, pc: WorkerPc)
    requires Placed(s) && w < |s.workers|
    requires var v := s.workers[w];
      && PhaseOk(v.(pc := pc)) && pc != Sending && (v.pc == Sending ==> v.sent == |v.batch|)
      && (pc == Popping ==> |v.batch| < s.maxBatch)
    ensures Placed(s.SetWorker(w, s.workers[w].(pc := pc)))
  {
    var s' := s.SetWorker(w, s.workers[w].(pc := pc));
    NoSuchRequest(s);
    assert WorkerWithin(s, w);
    LocalWithin(s, s', |s.callers|, w, |s.calls|);
    OwnBatch(s, s', w);
    forall r, i | 0 <= r < |s.runs| && 0 <= i < |s.runs[r].ids|
      ensures !Concerns(s, r, i, w, |s.calls|)
    {
      assert CallOk(s, r, i) && PlaceOk(s, s.runs[r].ids[i]);
    }
    hide CallOk;
    NoHand(s);
    LocalKeeps(s, s', |s.callers|, w, |s.calls|);
  }

  lemma {:induction false} NoHand(s: State)
    requires Placed(s)
    ensures forall id :: 0 <= id < |s.calls| ==> s.place[id] != Hand(|s.callers|)
  {
    forall id | 0 <= id < |s.calls|
      ensures s.place[id] != Hand(|s.callers|)
    {
      assert PlaceOk(s, id);
    }
  }

  lemma {:induction false} OwnBatch(s: State, s': State, w: nat)
    requires Placed(s) && w < |s.workers| == |s'.workers| && Within(s')
    requires s'.place == s.place && s'.waitOf == s.waitOf && s'.calls == s.calls
    requires s'.workers[w] == s.workers[w].(pc := s'.workers[w].pc, run := s'.workers[w].run)
    ensures forall i :: 0 <= i < |s'.workers[w].batch| ==> BatchOk(s', w, i)
    ensures forall id :: 0 <= id < |s.calls| && s.place[id].InBatch? && s.place[id].worker == w ==> PlaceOk(s', id)
  {
    forall i | 0 <= i < |s'.workers[w].batch|
      ensures BatchOk(s', w, i)
    {
      assert BatchOk(s, w, i);
    }
    forall id | 0 <= id < |s.calls| && s.place[id].InBatch? && s.place[id].worker == w
      ensures PlaceOk(s', id)
    {
      assert PlaceOk(s, id);
    }
  }

  lemma {:induction false} WorkerBegins(s: State, w: nat)
    requires Placed(s) && w < |s.workers| && s.workers[w].pc == Outer
    ensures Placed(s.SetWorker(w, s.workers[w].(pc := Inner, batch := [], waits := [], sent := 0)))
  {
    var s' := s.SetWorker(w, s.workers[w].(pc := Inner, batch := [], waits := [], sent := 0));
    NoSuchRequest(s);
    NoHand(s);
    LocalWithin(s, s', |s.callers|, w, |s.calls|);
    assert PhaseOk(s.workers[w]);
    forall id | 0 <= id < |s.calls|
      ensures !(s.place[id].InBatch? && s.place[id].worker == w)
    {
      assert PlaceOk(s, id);
    }
    hide CallOk, EntryOk, PlaceOk, HandOk;
    LocalKeeps(s, s', |s.callers|, w, |s.calls|);
  }

  // ---------------------------------------------------------------- steps that move a request

  /** What is known of a request that is not answered: no entry is about it. */
  lemma {:induction false} NotAnswered(s: State, x: nat)
    requires Placed(s) && x < |s.calls| && !s.place[x].Answered?
    ensures forall k :: 0 <= k < |s.log| ==> s.log[k].id != x
  {
    forall k | 0 <= k < |s.log|
      ensures s.log[k].id != x
    {
      assert EntryOk(s, k);
    }
  }

  /** What is known of a request that is in a hand or in the queue: no batch holds it and no backend saw it. */
  lemma {:induction false} NotBatched(s: State, x: nat)
    requires Placed(s) && x < |s.calls| && (s.place[x].Hand? || s.place[x].Queued?)
    ensures forall r, i :: 0 <= r < |s.runs| && 0 <= i < |s.runs[r].ids| ==> s.runs[r].ids[i] != x
    ensures forall v, i :: 0 <= v < |s.workers| && 0 <= i < |s.workers[v].batch| ==> s.workers[v].batch[i] != x
  {
    forall r, i | 0 <= r < |s.runs| && 0 <= i < |s.runs[r].ids|
      ensures s.runs[r].ids[i] != x
    {
      assert CallOk(s, r, i);
    }
    forall v, i | 0 <= v < |s.workers| && 0 <= i < |s.workers[v].batch|
      ensures s.workers[v].batch[i] != x
    {
      assert BatchOk(s, v, i);
    }
  }

  lemma {:induction false} EnterKeeps(s: State, t: nat, r: Request)
    requires Placed(s) && t < |s.callers| && s.callers[t] == Idle
    ensures Placed(Enter(s, t, r))
  {
    var s' := Enter(s, t, r);
    NoSuchRequest(s);
    LocalWithin(s, s', t, |s.workers|, |s.calls|);
    forall id | 0 <= id < |s.calls|
      ensures s.place[id] != Hand(t)
    {
      assert PlaceOk(s, id);
    }
    hide EntryOk, CallOk, BatchOk;
    LocalKeeps(s, s', t, |s.workers|, |s.calls|);
  }

  /** The caller's request leaves its hand: for the queue, or settled with a failure. */
  lemma {:induction false} HandLeaves(s: State, t: nat, x: nat)
    requires Placed(s) && t < |s.callers| && s.callers[t].Holds(x)
    ensures x < |s.calls| && s.place[x] == Hand(t)
    ensures forall u :: 0 <= u < |s.callers| && u != t ==> !s.callers[u].Holds(x)
    ensures forall k :: s.popped <= k < |s.pushed| ==> s.pushed[k] != x
    ensures forall id :: 0 <= id < |s.calls| && s.place[id] == Hand(t) ==> id == x
  {
    assert HandOk(s, t);
    forall u | 0 <= u < |s.callers| && u != t
      ensures !s.callers[u].Holds(x)
    {
      assert HandOk(s, u);
    }
    forall k | s.popped <= k < |s.pushed|
      ensures s.pushed[k] != x
    {
      assert QueueOk(s, k);
    }
    forall id | 0 <= id < |s.calls| && s.place[id] == Hand(t)
      ensures id == x
    {
      assert PlaceOk(s, id);
    }
  }

  lemma {:induction false} PushKeeps(s: State, t: nat, id: nat)
    requires Placed(s) && t < |s.callers| && s.callers[t] == Pushing(id) && id < |s.calls|
    ensures Placed(Push(s, t, id))
  {
    var s' := Push(s, t, id);
    NoSuchRequest(s);
    HandLeaves(s, t, id);
    NotAnswered(s, id);
    NotBatched(s, id);
    LocalWithin(s, s', t, |s.workers|, id);
    hide EntryOk, CallOk, BatchOk, WorkerWithin;
    LocalKeeps(s, s', t, |s.workers|, id);
  }

  lemma {:induction false} RefuseKeeps(s: State, t: nat, id: nat, f: Failure)
    requires Placed(s) && t < |s.callers| && s.callers[t] == Refusing(id, f) && id < |s.calls|
    ensures Placed(Refuse(s, t, id, f))
  {
    var s' := Refuse(s, t, id, f);
    NoSuchRequest(s);
    HandLeaves(s, t, id);
    NotAnswered(s, id);
    NotBatched(s, id);
    LocalWithin(s, s', t, |s.workers|, id);
    hide CallOk, BatchOk, WorkerWithin;
    LocalKeeps(s, s', t, |s.workers|, id);
  }

  lemma {:induction false} PopKeeps(s: State, w: nat, wait: nat)
    requires Placed(s) && w < |s.workers| && s.workers[w].pc == Popping && s.popped < |s.pushed|
    requires s.pushed[s.popped] < |s.calls|
    ensures Placed(Pop(s, w, wait))
  {
    var s' := Pop(s, w, wait);
    var id := s.pushed[s.popped];
    assert QueueOk(s, s.popped) && WorkerWithin(s, w) && PhaseOk(s.workers[w]);
    NoSuchRequest(s);
    NoHand(s);
    NotAnswered(s, id);
    NotBatched(s, id);
    LocalWithin(s, s', |s.callers|, w, id);
    forall k | 0 <= k < |s.pushed| && s.pushed[k] == id
      ensures QueueOk(s', k)
    {
      assert QueueOk(s, k);
    }
    forall u | 0 <= u < |s.callers|
      ensures !s.callers[u].Holds(id)
    {
      assert HandOk(s, u);
    }
    PopsBatch(s, s', w, wait);
    forall r, i | 0 <= r < |s.runs| && 0 <= i < |s.runs[r].ids|
      ensures !Concerns(s, r, i, w, id)
    {
      assert CallOk(s, r, i);
    }
    hide CallOk, BatchOk, EntryOk, HandOk, QueueOk, WorkerWithin;
    LocalKeeps(s, s', |s.callers|, w, id);
  }

  lemma {:induction false} PopsBatch(s: State, s': State, w: nat, wait: nat)
    requires Placed(s) && w < |s.workers| && s.workers[w].pc == Popping && s.popped < |s.pushed|
    requires s.pushed[s.popped] < |s.calls| && s' == Pop(s, w, wait) && Within(s')
    requires s.place[s.pushed[s.popped]] == Queued(s.popped)
    ensures forall i :: 0 <= i < |s'.workers[w].batch| ==> BatchOk(s', w, i)
    ensures forall id :: 0 <= id < |s.calls| && s.place[id].InBatch? && s.place[id].worker == w ==> PlaceOk(s', id)
    ensures PlaceOk(s', s.pushed[s.popped])
  {
    NotBatched(s, s.pushed[s.popped]);
    assert WorkerWithin(s, w) && PhaseOk(s.workers[w]);
    forall i | 0 <= i < |s'.workers[w].batch|
      ensures BatchOk(s', w, i)
    {
      assert i < |s.workers[w].batch| ==> BatchOk(s, w, i);
    }
    forall id | 0 <= id < |s.calls| && s.place[id].InBatch? && s.place[id].worker == w
      ensures PlaceOk(s', id)
    {
      assert PlaceOk(s, id);
    }
  }

  lemma {:induction false} CallBackendKeeps(s: State, w: nat, replies: seq<Reply>)
    requires Placed(s) && w < |s.workers| && s.workers[w].pc == Infer && |replies| == |s.workers[w].batch|
    requires forall i :: 0 <= i < |s.workers[w].batch| ==> s.workers[w].batch[i] < |s.calls|
    ensures Placed(CallBackend(s, w, replies))
  {
    var s' := CallBackend(s, w, replies);
    assert WorkerWithin(s, w) && PhaseOk(s.workers[w]);
    NoSuchRequest(s);
    NoHand(s);
    LocalWithin(s, s', |s.callers|, w, |s.calls|);
    OwnBatch(s, s', w);
    forall r, i | 0 <= r < |s.runs| && 0 <= i < |s.runs[r].ids|
      ensures !Concerns(s, r, i, w, |s.calls|)
    {
      assert CallOk(s, r, i);
    }
    forall i | 0 <= i < |s.workers[w].batch|
      ensures CallOk(s', |s.runs|, i)
    {
      assert BatchOk(s, w, i);
    }
    hide CallOk, BatchOk, EntryOk, HandOk, PlaceOk, WorkerWithin;
    LocalKeeps(s, s', |s.callers|, w, |s.calls|);
  }

  /** The request whose promise a worker sets next is its own, and nobody else's. */
  lemma {:induction false} NextIsOwn(s: State, w: nat)
    requires Placed(s) && w < |s.workers| && s.workers[w].sent < |s.workers[w].batch|
    ensures var x := s.workers[w].batch[s.workers[w].sent];
      && x < |s.calls| && s.place[x] == InBatch(w, s.workers[w].sent)
      && (forall u :: 0 <= u < |s.callers| ==> !s.callers[u].Holds(x))
      && (forall k :: s.popped <= k < |s.pushed| ==> s.pushed[k] != x)
      && (forall v, i :: 0 <= v < |s.workers| && 0 <= i < |s.workers[v].batch| && s.workers[v].batch[i] == x
            ==> v == w && i == s.workers[w].sent)
  {
    assert BatchOk(s, w, s.workers[w].sent);
    var x := s.workers[w].batch[s.workers[w].sent];
    forall u | 0 <= u < |s.callers|
      ensures !s.callers[u].Holds(x)
    {
      assert HandOk(s, u);
    }
    forall k | s.popped <= k < |s.pushed|
      ensures s.pushed[k] != x
    {
      assert QueueOk(s, k);
    }
    forall v, i | 0 <= v < |s.workers| && 0 <= i < |s.workers[v].batch| && s.workers[v].batch[i] == x
      ensures v == w && i == s.workers[w].sent
    {
      assert BatchOk(s, v, i);
    }
  }

  /** The answer a worker is about to give is the one the phase calls for. */
  predicate RightAnswer(s: State, w: nat, answer: Answer)
    requires Within(s) && w < |s.workers| && s.workers[w].sent < |s.workers[w].batch|
  {
    var v := s.workers[w];
    if v.pc == Sending
    then v.run < |s.runs| && v.sent < |s.runs[v.run].replies| && v.batch[v.sent] < |s.calls| && v.sent < |v.waits|
         && answer == Served(s.runs[v.run].replies[v.sent], s.calls[v.batch[v.sent]].routing, v.waits[v.sent])
    else v.pc == Failing && answer == Failed(Unavailable)
  }

  lemma {:induction false} SetPromiseKeeps(s: State, w: nat, answer: Answer)
    requires Placed(s) && w < |s.workers| && s.workers[w].sent < |s.workers[w].batch|
    requires s.workers[w].batch[s.workers[w].sent] < |s.calls| && RightAnswer(s, w, answer)
    ensures Placed(SetPromise(s, w, answer))
  {
    var s', v := SetPromise(s, w, answer), s.workers[w];
    var x := v.batch[v.sent];
    SetsWithin(s, s', w, answer);
    NoSuchRequest(s);
    NoHand(s);
    NextIsOwn(s, w);
    NotAnswered(s, x);
    SetsBatch(s, s', w, answer);
    SetsCalls(s, s', w, answer);
    SetsEntry(s, s', w, answer);
    hide CallOk, BatchOk, EntryOk, HandOk, QueueOk, WorkerWithin, RightAnswer;
    LocalKeeps(s, s', |s.callers|, w, x);
  }

  lemma {:induction false} SetsWithin(s: State, s': State, w: nat, answer: Answer)
    requires Within(s) && w < |s.workers| && s.workers[w].sent < |s.workers[w].batch|
    requires s.workers[w].batch[s.workers[w].sent] < |s.calls| && s' == SetPromise(s, w, answer)
    ensures Within(s') && Local(s, s', |s.callers|, w, s.workers[w].batch[s.workers[w].sent])
  {
    assert WorkerWithin(s, w);
    LocalWithin(s, s', |s.callers|, w, s.workers[w].batch[s.workers[w].sent]);
  }

  lemma {:induction false} SetsBatch(s: State, s': State, w: nat, answer: Answer)
    requires Placed(s) && w < |s.workers| && s.workers[w].sent < |s.workers[w].batch|
    requires s.workers[w].batch[s.workers[w].sent] < |s.calls| && s' == SetPromise(s, w, answer) && Within(s')
    ensures forall i :: 0 <= i < |s'.workers[w].batch| ==> BatchOk(s', w, i)
    ensures var x := s.workers[w].batch[s.workers[w].sent];
      forall id :: 0 <= id < |s.calls| && id != x && s.place[id].InBatch? && s.place[id].worker == w ==> PlaceOk(s', id)
  {
    NextIsOwn(s, w);
    forall i | 0 <= i < |s'.workers[w].batch|
      ensures BatchOk(s', w, i)
    {
      assert BatchOk(s, w, i);
    }
    var x := s.workers[w].batch[s.workers[w].sent];
    forall id | 0 <= id < |s.calls| && id != x && s.place[id].InBatch? && s.place[id].worker == w
      ensures PlaceOk(s', id)
    {
      assert PlaceOk(s, id);
    }
  }

  lemma {:induction false} SetsEntry(s: State, s': State, w: nat, answer: Answer)
    requires Placed(s) && w < |s.workers| && s.workers[w].sent < |s.workers[w].batch|
    requires s.workers[w].batch[s.workers[w].sent] < |s.calls| && s' == SetPromise(s, w, answer) && Within(s')
    requires RightAnswer(s, w, answer)
    ensures EntryOk(s', |s.log|)
  {
    assert WorkerWithin(s, w) && BatchOk(s, w, s.workers[w].sent);
  }

  lemma {:induction false} SetsCalls(s: State, s': State, w: nat, answer: Answer)
    requires Placed(s) && w < |s.workers| && s.workers[w].sent < |s.workers[w].batch|
    requires s.workers[w].batch[s.workers[w].sent] < |s.calls| && s' == SetPromise(s, w, answer) && Within(s')
    requires RightAnswer(s, w, answer)
    ensures forall r, i :: 0 <= r < |s.runs| && 0 <= i < |s.runs[r].ids| ==> CallOk(s', r, i)
  {
    NextIsOwn(s, w);
    forall r, i | 0 <= r < |s.runs| && 0 <= i < |s.runs[r].ids|
      ensures CallOk(s', r, i)
    {
      assert CallOk(s, r, i);
    }
  }

  // ---------------------------------------------------------------- every step

  lemma {:induction false} CallerStepKeeps(s: State, t: nat, choice: bool)
    requires Placed(s) && t < |s.callers|
    ensures Placed(StepCaller(s, t, choice))
  {
    assert CallerWithin(s, t);
    hide Placed, PlaceOk;
    match s.callers[t]
    case Idle =>
    case Entered(id) => CallerMoves(s, t, if choice then Checking(id) else Refusing(id, NotReady));
    case Checking(id) => CallerMoves(s, t, if s.stopped then Refusing(id, Stopped) else Pushing(id));
    case Pushing(id) =>
      if choice && s.QueueLength() < CAPACITY {
        PushKeeps(s, t, id);
      } else {
        CallerMoves(s, t, Late(id));
      }
    case Late(id) => CallerMoves(s, t, if choice then Refusing(id, QueueFull) else Checking(id));
    case Refusing(id, f) => RefuseKeeps(s, t, id, f);
    case Counting =>
      CallerMoves(s, t, Idle);
      Unrelated(s.SetCaller(t, Idle), s.(queueSize := s.queueSize + 1).SetCaller(t, Idle));
  }

  lemma {:induction false} SpawnKeeps(s: State, w: nat)
    requires Placed(s) && w < |s.workers| && s.workers[w].pc == Off
    ensures Placed(s.(control := Spawning(w + 1)).SetWorker(w, s.workers[w].(pc := Outer)))
  {
    WorkerMoves(s, w, Outer);
    var v := s.workers[w].(pc := Outer);
    Unrelated(s.SetWorker(w, v), s.(control := Spawning(w + 1)).SetWorker(w, v));
  }

  /** Placed says nothing about the counter, the flag or the controller. */
  lemma {:induction false} Unrelated(s: State, s': State)
    requires Placed(s) && s' == s.(queueSize := s'.queueSize, stopped := s'.stopped, control := s'.control)
    ensures Placed(s')
  {
    LocalWithin(s, s', |s.callers|, |s.workers|, |s.calls|);
    NoSuchRequest(s);
    NoHand(s);
    hide EntryOk, CallOk, BatchOk, WorkerWithin, PlaceOk, HandOk;
    LocalKeeps(s, s', |s.callers|, |s.workers|, |s.calls|);
  }

  lemma {:induction false} WorkerStepKeeps(s: State, w: nat, choice: bool, wait: nat, replies: seq<Reply>)
    requires Placed(s) && w < |s.workers|
    ensures Placed(StepWorker(s, w, choice, wait, replies))
  {
    assert WorkerWithin(s, w) && PhaseOk(s.workers[w]);
    var v := s.workers[w];
    var s' := StepWorker(s, w, choice, wait, replies);
    hide Placed;
    match v.pc
    case Off =>
    case Outer =>
      if s.stopped {
        WorkerMoves(s, w, Off);
      } else {
        WorkerBegins(s, w);
      }
    case Decrement =>
      WorkerMoves(s, w, Inner);
      Unrelated(s.SetWorker(w, v.(pc := Inner)), s');
    case Popping =>
      if choice && s.popped < |s.pushed| {
        PopKeeps(s, w, wait);
      } else {
        WorkerMoves(s, w, Missed);
      }
    case Infer =>
      if |replies| == |v.batch| {
        CallBackendKeeps(s, w, replies);
      }
    case Sending =>
      if v.sent < |v.batch| {
        SetPromiseKeeps(s, w, Served(s.runs[v.run].replies[v.sent], s.calls[v.batch[v.sent]].routing, v.waits[v.sent]));
      } else {
        WorkerMoves(s, w, Outer);
      }
    case Failing =>
      if v.sent < |v.batch| {
        SetPromiseKeeps(s, w, Failed(Unavailable));
      } else {
        WorkerMoves(s, w, Outer);
      }
    case Waiting =>
      if s.queueSize > 0 || s.stopped {
        WorkerMoves(s, w, Outer);
      }
    case _ => WorkerMoves(s, w, s'.workers[w].pc);
  }

  lemma {:induction false} StepKeepsPlaces(s: State, e: Event)
    requires Placed(s) && Controlled(s)
    ensures Placed(Step(s, e))
  {
    hide PlaceOk, HandOk, QueueOk, BatchOk, EntryOk, CallOk;
    match e
    case Call(t, r) =>
      if t < |s.callers| && s.callers[t] == Idle {
        EnterKeeps(s, t, r);
      }
    case CallerStep(t, choice) =>
      if t < |s.callers| {
        CallerStepKeeps(s, t, choice);
      }
    case WorkerStep(w, choice, wait, replies) =>
      if w < |s.workers| {
        WorkerStepKeeps(s, w, choice, wait, replies);
      }
    case ControlStep =>
      ControlKeepsPlaces(s);
    case _ =>
      Unrelated(s, Step(s, e));
  }

  lemma {:induction false} ControlKeepsPlaces(s: State)
    requires Placed(s) && Controlled(s)
    ensures Placed(StepControl(s))
  {
    if s.control.Spawning? && s.control.next < |s.workers| {
      SpawnKeeps(s, s.control.next);
    } else {
      Unrelated(s, StepControl(s));
    }
  }

  // ---------------------------------------------------------------- queue_size_

  function CountingCallers(callers: seq<Caller>): nat {
    if callers == [] then 0
    else CountingCallers(callers[..|callers| - 1]) + if callers[|callers| - 1].Counting? then 1 else 0
  }

  function DecrementingWorkers(workers: seq<Worker>): nat {
    if workers == [] then 0
    else DecrementingWorkers(workers[..|workers| - 1]) + if workers[|workers| - 1].pc == Decrement then 1 else 0
  }

  lemma {:induction false} CountingUpdate(callers: seq<Caller>, t: nat, c: Caller)
    requires t < |callers|
    ensures CountingCallers(callers[t := c]) == CountingCallers(callers)
              + (if c.Counting? then 1 else 0) - (if callers[t].Counting? then 1 else 0)
  {
    var n := |callers| - 1;
    if t < n {
      assert callers[t := c][..n] == callers[..n][t := c];
      CountingUpdate(callers[..n], t, c);
    } else {
      assert callers[t := c][..n] == callers[..n];
    }
  }

  lemma {:induction false} DecrementingUpdate(workers: seq<Worker>, w: nat, v: Worker)
    requires w < |workers|
    ensures DecrementingWorkers(workers[w := v]) == DecrementingWorkers(workers)
              + (if v.pc == Decrement then 1 else 0) - (if workers[w].pc == Decrement then 1 else 0)
  {
    var n := |workers| - 1;
    if w < n {
      assert workers[w := v][..n] == workers[..n][w := v];
      DecrementingUpdate(workers[..n], w, v);
    } else {
      assert workers[w := v][..n] == workers[..n];
    }
  }

  /**
   * The queue never holds more than its 1024 slots. The counter is the queue's length, short of the pushes not yet
   * counted, ahead by the pops not yet counted.
   */
  ghost predicate Sized(s: State) {
    s.queueSize == s.QueueLength() + DecrementingWorkers(s.workers) - CountingCallers(s.callers)
    && s.QueueLength() <= 1024
  }

  lemma {:induction false} CallerKeepsSize(s: State, t: nat, choice: bool)
    requires Within(s) && Sized(s) && t < |s.callers|
    ensures Sized(StepCaller(s, t, choice))
  {
    assert CallerWithin(s, t);
    hide Within, CountingCallers, DecrementingWorkers;
    CountingUpdate(s.callers, t, StepCaller(s, t, choice).callers[t]);
  }

  lemma {:induction false} WorkerCounts(s: State, w: nat, choice: bool, wait: nat, replies: seq<Reply>)
    requires Within(s) && w < |s.workers|
    ensures var s' := StepWorker(s, w, choice, wait, replies);
      && |s'.workers| == |s.workers| && s'.workers == s.workers[w := s'.workers[w]] && s'.callers == s.callers
      && s'.queueSize - s.queueSize == -(if s.workers[w].pc == Decrement then 1 else 0)
      && s'.QueueLength() - s.QueueLength()
         == -(if s.workers[w].pc != Decrement && s'.workers[w].pc == Decrement then 1 else 0)
      && (s.workers[w].pc == Decrement ==> s'.workers[w].pc != Decrement)
  {
    hide Payloads;
    assert WorkerWithin(s, w);
  }

  lemma {:induction false} WorkerKeepsSize(s: State, w: nat, choice: bool, wait: nat, replies: seq<Reply>)
    requires Within(s) && Sized(s) && w < |s.workers|
    ensures Sized(StepWorker(s, w, choice, wait, replies))
  {
    hide Within, WorkerWithin, CountingCallers, DecrementingWorkers, StepWorker;
    WorkerCounts(s, w, choice, wait, replies);
    DecrementingUpdate(s.workers, w, StepWorker(s, w, choice, wait, replies).workers[w]);
  }

  lemma {:induction false} StepKeepsSize(s: State, e: Event)
    requires Within(s) && Sized(s) && Controlled(s)
    ensures Sized(Step(s, e))
  {
    hide CountingCallers, DecrementingWorkers, StepCaller, StepWorker;
    var s' := Step(s, e);
    match e
    case Call(t, _) =>
      if t < |s.callers| {
        CountingUpdate(s.callers, t, s'.callers[t]);
      }
    case CallerStep(t, choice) =>
      if t < |s.callers| {
        CallerKeepsSize(s, t, choice);
      }
    case WorkerStep(w, choice, wait, replies) =>
      if w < |s.workers| {
        WorkerKeepsSize(s, w, choice, wait, replies);
      }
    case ControlStep =>
      if s.control.Spawning? && s.control.next < |s.workers| {
        DecrementingUpdate(s.workers, s.control.next, s'.workers[s.control.next]);
      }
    case _ =>
  }

  // ---------------------------------------------------------------- the queue is the ring's queue

  function Queue(s: State): seq<nat>
    requires s.popped <= |s.pushed|
  {
    s.pushed[s.popped..]
  }

  /** What a step does to the queue. */
  function EffectOf(s: State, e: Event): Fifo.Effect<nat>
    requires Within(s)
  {
    match e
    case CallerStep(t, choice) =>
      if t < |s.callers| && s.callers[t].Pushing? && choice && s.QueueLength() < CAPACITY
      then Fifo.In(s.callers[t].id) else Fifo.Quiet
    case WorkerStep(w, choice, _, _) =>
      if w < |s.workers| && s.workers[w].pc == Popping && choice && s.popped < |s.pushed|
      then Fifo.Out(s.pushed[s.popped]) else Fifo.Quiet
    case _ => Fifo.Quiet
  }

  /** Each step has a legal effect on a bounded queue of the ring's capacity, and no other. */
  lemma {:induction false} StepIsFifoStep(s: State, e: Event)
    requires Within(s) && Within(Step(s, e))
    ensures Fifo.Apply(Queue(s), EffectOf(s, e), CAPACITY) == Some(Queue(Step(s, e)))
  {
    match e
    case CallerStep(t, _) =>
      if t < |s.callers| {
        assert CallerWithin(s, t);
        if s.callers[t].Pushing? {
          Fifo.DropAppend(s.pushed, s.popped, s.callers[t].id);
        }
      }
    case WorkerStep(w, choice, wait, replies) =>
      if w < |s.workers| {
        assert WorkerWithin(s, w);
        WorkerFifoStep(s, w, choice, wait, replies);
      }
    case _ =>
  }

  lemma {:induction false} WorkerFifoStep(s: State, w: nat, choice: bool, wait: nat, replies: seq<Reply>)
    requires Within(s) && w < |s.workers|
    ensures var s' := StepWorker(s, w, choice, wait, replies);
      s'.pushed == s.pushed
      && s'.popped == s.popped + if s.workers[w].pc == Popping && choice && s.popped < |s.pushed| then 1 else 0
  {
    hide PhaseOk;
    assert WorkerWithin(s, w);
  }

  /** Whatever the ring lets a push or a pop do, the machine has a step that does that to its queue. */
  lemma {:induction false} FollowsRing(s: State, tid: nat, wait: nat, effect: Fifo.Effect<nat>)
    requires Inv(s) && Fifo.Apply(Queue(s), effect, CAPACITY).Some?
    ensures tid < |s.callers| && s.callers[tid].Pushing? && !effect.Out?
            && (effect.In? ==> effect.item == s.callers[tid].id) ==>
              var s' := Step(s, CallerStep(tid, effect.In?));
              Within(s') && Some(Queue(s')) == Fifo.Apply(Queue(s), effect, CAPACITY)
    ensures tid < |s.workers| && s.workers[tid].pc == Popping && !effect.In? ==>
              var s' := Step(s, WorkerStep(tid, effect.Out?, wait, []));
              Within(s') && Some(Queue(s')) == Fifo.Apply(Queue(s), effect, CAPACITY)
  {
    hide Placed, Sized, Controlled, Step, StepCaller, StepWorker;
    var e, f := CallerStep(tid, effect.In?), WorkerStep(tid, effect.Out?, wait, []);
    PlacedIsWithin(s);
    StepKeeps(s, e);
    StepKeeps(s, f);
    PlacedIsWithin(Step(s, e));
    PlacedIsWithin(Step(s, f));
    StepIsFifoStep(s, e);
    StepIsFifoStep(s, f);
  }

  // ---------------------------------------------------------------- start and stop

  /** Workers not yet started or already joined are off, and all are while the executor is stopped and at rest. */
  ghost predicate Controlled(s: State) {
    && (s.control.Spawning? ==> !s.stopped && forall w :: s.control.next <= w < |s.workers| ==> s.workers[w].pc == Off)
    && (s.control.Joining? ==> s.stopped)
    && (s.control.Joining? ==> forall w :: 0 <= w < s.control.next && w < |s.workers| ==> s.workers[w].pc == Off)
    && (s.control.Resting? && s.stopped ==> forall w :: 0 <= w < |s.workers| ==> s.workers[w].pc == Off)
  }

  /** A worker that is off stays so, and one that turns off has seen the executor stopped. */
  lemma {:induction false} OffStaysOff(s: State, w: nat, choice: bool, wait: nat, replies: seq<Reply>)
    requires Within(s) && w < |s.workers|
    ensures var s' := StepWorker(s, w, choice, wait, replies);
      && s'.stopped == s.stopped && s'.control == s.control && |s'.workers| == |s.workers|
      && (forall v :: 0 <= v < |s.workers| && v != w ==> s'.workers[v] == s.workers[v])
      && (s.workers[w].pc == Off ==> s'.workers[w].pc == Off)
      && (s'.workers[w].pc == Off && s.workers[w].pc != Off ==> s.stopped)
  {
    assert WorkerWithin(s, w);
  }

  lemma {:induction false} StepKeepsControl(s: State, e: Event)
    requires Within(s) && Controlled(s)
    ensures Controlled(Step(s, e))
  {
    hide StepWorker, Within;
    if e.WorkerStep? && e.worker < |s.workers| {
      OffStaysOff(s, e.worker, e.choice, e.wait, e.replies);
    } else if e.CallerStep? && e.tid < |s.callers| {
      var s' := StepCaller(s, e.tid, e.choice);
      assert s'.workers == s.workers && s'.stopped == s.stopped && s'.control == s.control;
    }
  }

  // ---------------------------------------------------------------- runs

  ghost predicate Inv(s: State) {
    Placed(s) && Sized(s) && Controlled(s)
  }

  ghost function Run(callers: nat, workers: nat, maxBatch: nat, events: seq<Event>): (s: State)
    ensures Inv(s)
    decreases |events|
  {
    if events == [] then
      InitInv(callers, workers, maxBatch);
      Init(callers, workers, maxBatch)
    else
      var s := Run(callers, workers, maxBatch, events[..|events| - 1]);
      StepKeeps(s, events[|events| - 1]);
      Step(s, events[|events| - 1])
  }

  lemma {:induction false} InitInv(callers: nat, workers: nat, maxBatch: nat)
    ensures Inv(Init(callers, workers, maxBatch))
  {
    var s := Init(callers, workers, maxBatch);
    NoneCounting(s.callers);
    NoneDecrementing(s.workers);
  }

  lemma {:induction false} NoneCounting(callers: seq<Caller>)
    requires forall i :: 0 <= i < |callers| ==> callers[i] == Idle
    ensures CountingCallers(callers) == 0
  {
    if callers != [] {
      NoneCounting(callers[..|callers| - 1]);
    }
  }

  lemma {:induction false} NoneDecrementing(workers: seq<Worker>)
    requires forall i :: 0 <= i < |workers| ==> workers[i].pc == Off
    ensures DecrementingWorkers(workers) == 0
  {
    if workers != [] {
      NoneDecrementing(workers[..|workers| - 1]);
    }
  }

  lemma {:induction false} StepKeeps(s: State, e: Event)
    requires Inv(s)
    ensures Inv(Step(s, e))
  {
    hide Placed, Sized, Controlled, Step;
    PlacedIsWithin(s);
    StepKeepsPlaces(s, e);
    StepKeepsSize(s, e);
    StepKeepsControl(s, e);
  }

  lemma PlacedIsWithin(s: State)
    requires Placed(s)
    ensures Within(s)
  {
  }

  lemma RunMore(callers: nat, workers: nat, maxBatch: nat, events: seq<Event>, e: Event)
    ensures Run(callers, workers, maxBatch, events + [e]) == Step(Run(callers, workers, maxBatch, events), e)
  {
    assert (events + [e])[..|events|] == events;
  }

  // ---------------------------------------------------------------- a run of the ring drives a run of the executor

  /** The items that enter are numbers below n, each entering once: they can be requests. */
  ghost predicate Carries(history: seq<Fifo.Effect<int>>, n: nat) {
    && (forall x :: x in Fifo.Ins(history) ==> 0 <= x < n)
    && forall i, j :: 0 <= i < j < |Fifo.Ins(history)| ==> Fifo.Ins(history)[i] != Fifo.Ins(history)[j]
  }

  /** One running worker, at pc, has popped outs requests; ins are pushed, the other callers are about to push. */
  ghost predicate Following(s: State, n: nat, m: nat, k: nat, ins: seq<int>, outs: nat, pc: WorkerPc) {
    && |s.callers| == n && |s.workers| == 1 && s.maxBatch == m && !s.stopped && |s.calls| == k <= n
    && |s.pushed| == |ins| && (forall i :: 0 <= i < |ins| ==> s.pushed[i] == ins[i])
    && s.popped == |s.workers[0].batch| == outs && s.workers[0].pc == pc
    && forall t :: 0 <= t < n ==> s.callers[t] == if t >= k then Idle else if t in ins then Counting else Pushing(t)
  }

  lemma {:induction false} WorkerStarts(n: nat, m: nat) returns (events: seq<Event>)
    requires m > 0
    ensures Following(Run(n, 1, m, events), n, m, 0, [], 0, Popping)
  {
    hide Inv;
    var go := WorkerStep(0, true, 0, []);
    RunMore(n, 1, m, [], Start);
    RunMore(n, 1, m, [] + [Start], ControlStep);
    RunMore(n, 1, m, [] + [Start] + [ControlStep], go);
    RunMore(n, 1, m, [] + [Start] + [ControlStep] + [go], go);
    events := [] + [Start] + [ControlStep] + [go] + [go];
  }

  /** The first k callers call and come as far as their push; caller t carries request t. */
  lemma {:induction false} CallersArrive(n: nat, m: nat, k: nat) returns (events: seq<Event>)
    requires m > 0 && k <= n
    ensures Following(Run(n, 1, m, events), n, m, k, [], 0, Popping)
  {
    hide Inv;
    if k == 0 {
      events := WorkerStarts(n, m);
    } else {
      var before := CallersArrive(n, m, k - 1);
      var call, go := Call(k - 1, Request(0, 0)), CallerStep(k - 1, true);
      RunMore(n, 1, m, before, call);
      RunMore(n, 1, m, before + [call], go);
      RunMore(n, 1, m, before + [call] + [go], go);
      events := before + [call] + [go] + [go];
    }
  }

  lemma {:induction false} PushFollows(s: State, n: nat, m: nat, ins: seq<int>, outs: nat, x: int)
    requires Within(s) && Following(s, n, m, n, ins, outs, Popping)
    requires x !in ins && 0 <= x < n && |ins| - outs < CAPACITY
    ensures Following(Step(s, CallerStep(x, true)), n, m, n, ins + [x], outs, Popping)
  {
    assert x in ins + [x];
  }

  /** The worker pops the next request, counts it, and comes round to the next pop. */
  lemma {:induction false} WorkerFollows(s: State, n: nat, m: nat, ins: seq<int>, outs: nat, pc: WorkerPc)
    requires Within(s) && Following(s, n, m, n, ins, outs, pc) && outs < m
    requires pc == Popping || pc == Decrement || pc == Inner
    requires pc == Popping ==> outs < |ins|
    ensures var s' := Step(s, WorkerStep(0, true, 0, []));
      match pc
      case Popping => Following(s', n, m, n, ins, outs + 1, Decrement)
      case Decrement => Following(s', n, m, n, ins, outs, Inner)
      case _ => Following(s', n, m, n, ins, outs, Popping)
  {
  }

  /** The machine takes the effect: a push by the caller that carries the request, a pop by the worker, or nothing. */
  lemma {:induction false} TakesEffect(n: nat, m: nat, events: seq<Event>, ins: seq<int>, outs: nat,
                                       e: Fifo.Effect<int>)
      returns (longer: seq<Event>)
    requires Following(Run(n, 1, m, events), n, m, n, ins, outs, Popping) && outs + 1 < m && outs <= |ins|
    requires e.In? ==> e.item !in ins && 0 <= e.item < n && |ins| - outs < CAPACITY
    requires e.Out? ==> outs < |ins|
    ensures Following(Run(n, 1, m, longer), n, m, n, if e.In? then ins + [e.item] else ins,
                      if e.Out? then outs + 1 else outs, Popping)
  {
    hide Placed, Sized, Controlled, Run, Step, Following;
    var s := Run(n, 1, m, events);
    RunWithin(n, 1, m, events);
    match e
    case Quiet => longer := events;
    case In(x) =>
      PushFollows(s, n, m, ins, outs, x);
      RunMore(n, 1, m, events, CallerStep(x, true));
      longer := events + [CallerStep(x, true)];
    case Out(x) =>
      var go := WorkerStep(0, true, 0, []);
      WorkerFollows(s, n, m, ins, outs, Popping);
      RunMore(n, 1, m, events, go);
      longer := events + [go];
      RunWithin(n, 1, m, longer);
      WorkerFollows(Run(n, 1, m, longer), n, m, ins, outs + 1, Decrement);
      RunMore(n, 1, m, longer, go);
      longer := longer + [go];
      RunWithin(n, 1, m, longer);
      WorkerFollows(Run(n, 1, m, longer), n, m, ins, outs + 1, Inner);
      RunMore(n, 1, m, longer, go);
      longer := longer + [go];
  }

  lemma RunWithin(callers: nat, workers: nat, maxBatch: nat, events: seq<Event>)
    ensures Within(Run(callers, workers, maxBatch, events))
  {
    PlacedIsWithin(Run(callers, workers, maxBatch, events));
  }

  /** What a history enters next is legal and new. */
  lemma {:induction false} EntersNew(history: seq<Fifo.Effect<int>>, e: Fifo.Effect<int>, n: nat)
    requires Carries(history + [e], n) && Fifo.Replay(history + [e], CAPACITY).Some?
    ensures Carries(history, n) && Fifo.Replay(history, CAPACITY).Some?
    ensures var ins, outs := Fifo.Ins(history), Fifo.Outs(history);
      && outs <= |ins| && outs <= |history|
      && (e.In? ==> e.item !in ins && 0 <= e.item < n && |ins| - outs < CAPACITY)
      && (e.Out? ==> outs < |ins|)
      && Fifo.Ins(history + [e]) == (if e.In? then ins + [e.item] else ins)
      && Fifo.Outs(history + [e]) == (if e.Out? then outs + 1 else outs)
  {
    assert (history + [e])[..|history|] == history;
    Fifo.ReplayIsInsLessOuts(history, CAPACITY);
    var ins, more := Fifo.Ins(history), Fifo.Ins(history + [e]);
    assert forall i :: 0 <= i < |ins| ==> more[i] == ins[i] && more[i] in more;
    if e.In? {
      assert more[|ins|] == e.item && more[|ins|] in more;
    }
  }

  lemma {:induction false} FollowsHistory(n: nat, m: nat, history: seq<Fifo.Effect<int>>) returns (events: seq<Event>)
    requires Fifo.Replay(history, CAPACITY).Some? && Carries(history, n) && |history| + 1 < m
    ensures Following(Run(n, 1, m, events), n, m, n, Fifo.Ins(history), Fifo.Outs(history), Popping)
  {
    hide Inv, Run, Following, Carries;
    if history == [] {
      events := CallersArrive(n, m, n);
    } else {
      var before, e := history[..|history| - 1], history[|history| - 1];
      assert history == before + [e];
      EntersNew(before, e, n);
      events := FollowsHistory(n, m, before);
      events := TakesEffect(n, m, events, Fifo.Ins(before), Fifo.Outs(before), e);
    }
  }

  lemma CapacityIsValid()
    ensures MpmcQueue.ValidCapacity(CAPACITY)
  {
    assert PowerOfTwo(32);
    ProductOfPowers(32, 32);
  }

  /** The effects and the contents of the ring that the executor uses. */
  ghost function RingEffects(schedule: seq<MpmcQueue.Event>): seq<Fifo.Effect<int>> {
    CapacityIsValid();
    MpmcQueue.Effects(CAPACITY, schedule)
  }

  ghost function RingContents(schedule: seq<MpmcQueue.Event>): seq<int> {
    CapacityIsValid();
    MpmcQueue.Contents(MpmcQueue.Run(CAPACITY, schedule))
  }

  lemma RingHistory(schedule: seq<MpmcQueue.Event>)
    ensures Fifo.Replay(RingEffects(schedule), CAPACITY) == Some(RingContents(schedule))
    ensures |RingEffects(schedule)| == |schedule|
  {
    hide PowerOfTwo, MpmcQueue.Run, MpmcQueue.Effects;
    CapacityIsValid();
    MpmcQueue.RunIsFifoHistory(CAPACITY, schedule);
    MpmcQueue.EffectsLength(CAPACITY, schedule);
  }

  /** For every run of the ring that carries request numbers, the executor has a run with the same queue. */
  lemma {:induction false} RingDrivesExecutor(schedule: seq<MpmcQueue.Event>, n: nat) returns (events: seq<Event>)
    requires Carries(RingEffects(schedule), n)
    ensures var s, q := Run(n, 1, |schedule| + 2, events), RingContents(schedule);
      s.popped <= |s.pushed| && |Queue(s)| == |q| && forall i :: 0 <= i < |q| ==> Queue(s)[i] == q[i]
  {
    hide Run, Inv, Carries, RingEffects, RingContents;
    RingHistory(schedule);
    Fifo.ReplayIsInsLessOuts(RingEffects(schedule), CAPACITY);
    events := FollowsHistory(n, |schedule| + 2, RingEffects(schedule));
  }

  // ---------------------------------------------------------------- what every run guarantees

  /** The four kinds of place, read off the machine itself. */
  ghost predicate InHand(s: State, id: nat) {
    exists t :: 0 <= t < |s.callers| && s.callers[t].Holds(id)
  }

  ghost predicate InQueue(s: State, id: nat) {
    exists k :: s.popped <= k < |s.pushed| && s.pushed[k] == id
  }

  ghost predicate InWork(s: State, id: nat) {
    exists w, i :: 0 <= w < |s.workers| && s.workers[w].sent <= i < |s.workers[w].batch| && s.workers[w].batch[i] == id
  }

  ghost predicate InLog(s: State, id: nat) {
    exists k :: 0 <= k < |s.log| && s.log[k].id == id
  }

  /** A request is in exactly one of a caller's hand, the queue, one worker's batch, and the log. */
  lemma {:induction false} EachRequestIsInOnePlace(s: State, id: nat)
    requires Inv(s) && id < |s.calls|
    ensures InHand(s, id) <==> s.place[id].Hand?
    ensures InQueue(s, id) <==> s.place[id].Queued?
    ensures InWork(s, id) <==> s.place[id].InBatch?
    ensures InLog(s, id) <==> s.place[id].Answered?
  {
    assert PlaceOk(s, id);
    if t :| 0 <= t < |s.callers| && s.callers[t].Holds(id) {
      assert HandOk(s, t);
    }
    if k :| s.popped <= k < |s.pushed| && s.pushed[k] == id {
      assert QueueOk(s, k);
    }
    if w, i :| 0 <= w < |s.workers| && s.workers[w].sent <= i < |s.workers[w].batch| && s.workers[w].batch[i] == id {
      assert BatchOk(s, w, i);
    }
    if k :| 0 <= k < |s.log| && s.log[k].id == id {
      assert EntryOk(s, k);
    }
  }

  /** Nor is it in two places of one kind: two hands, two queue positions, two batch slots. */
  lemma {:induction false} EachRequestIsThereOnce(s: State, id: nat)
    requires Inv(s)
    ensures forall t, u :: 0 <= t < |s.callers| && 0 <= u < |s.callers| ==>
              s.callers[t].Holds(id) && s.callers[u].Holds(id) ==> t == u
    ensures forall j, k :: s.popped <= j < |s.pushed| && s.popped <= k < |s.pushed| && s.pushed[j] == id == s.pushed[k]
              ==> j == k
    ensures forall j, k :: 0 <= j < |s.log| && 0 <= k < |s.log| && s.log[j].id == id == s.log[k].id ==> j == k
  {
    forall t | 0 <= t < |s.callers| && s.callers[t].Holds(id)
      ensures id < |s.calls| && s.place[id] == Hand(t)
    {
      assert HandOk(s, t);
    }
    forall k | s.popped <= k < |s.pushed| && s.pushed[k] == id
      ensures id < |s.calls| && s.place[id] == Queued(k)
    {
      assert QueueOk(s, k);
    }
    forall k | 0 <= k < |s.log| && s.log[k].id == id
      ensures id < |s.calls| && s.place[id] == Answered(k)
    {
      assert EntryOk(s, k);
    }
  }

  lemma {:induction false} BatchesAreDisjoint(s: State, v: nat, i: nat, w: nat, j: nat)
    requires Inv(s) && v < |s.workers| && w < |s.workers|
    requires s.workers[v].sent <= i < |s.workers[v].batch| && s.workers[w].sent <= j < |s.workers[w].batch|
    requires s.workers[v].batch[i] == s.workers[w].batch[j]
    ensures v == w && i == j
  {
    assert BatchOk(s, v, i) && BatchOk(s, w, j);
  }

  /** A promise is set at most once; a served one carries the reply to its own request at its own batch index. */
  lemma {:induction false} PromisesAreSetOnceAndRight(s: State, k: nat)
    requires Inv(s) && k < |s.log|
    ensures forall j :: 0 <= j < |s.log| && s.log[j].id == s.log[k].id ==> j == k
    ensures var e := s.log[k];
      e.answer.Served? ==>
        && e.id < |s.calls| && e.run < |s.runs|
        && var c := s.runs[e.run];
           && e.index < |c.ids| == |c.payloads| == |c.replies| <= s.maxBatch
           && c.ids[e.index] == e.id && c.payloads[e.index] == s.calls[e.id].payload
           && e.answer.reply == c.replies[e.index] && e.answer.routing == s.calls[e.id].routing
           && e.id in s.waitOf && e.answer.queueWait == s.waitOf[e.id]
  {
    assert EntryOk(s, k);
    EachRequestIsThereOnce(s, s.log[k].id);
    var e := s.log[k];
    if e.answer.Served? {
      assert CallOk(s, e.run, e.index);
    }
  }

  /** No request is given to the backend twice. */
  lemma {:induction false} BackendSeesEachRequestOnce(s: State, r: nat, i: nat, q: nat, j: nat)
    requires Inv(s) && r < |s.runs| && i < |s.runs[r].ids| && q < |s.runs| && j < |s.runs[q].ids|
    requires s.runs[r].ids[i] == s.runs[q].ids[j]
    ensures r == q && i == j
  {
    assert CallOk(s, r, i) && CallOk(s, q, j);
  }

  /**
   * A worker that is off, or back at the top of its loop, has answered all of its batch; a batch is never too
   * large.
   */
  lemma {:induction false} WorkersLeaveNothingBehind(s: State, w: nat)
    requires Inv(s) && w < |s.workers|
    ensures |s.workers[w].batch| <= s.maxBatch
    ensures s.workers[w].pc == Off || s.workers[w].pc == Outer ==>
              forall id :: 0 <= id < |s.calls| && s.place[id].InBatch? ==> s.place[id].worker != w
    ensures s.workers[w].pc == Off || s.workers[w].pc == Outer ==>
              forall i :: 0 <= i < |s.workers[w].batch| ==> InLog(s, s.workers[w].batch[i])
  {
    assert WorkerWithin(s, w) && PhaseOk(s.workers[w]);
    forall id | 0 <= id < |s.calls| && s.place[id].InBatch?
      ensures s.place[id].worker == w ==> s.workers[w].sent < |s.workers[w].batch|
    {
      assert PlaceOk(s, id);
    }
    forall i | 0 <= i < s.workers[w].sent
      ensures InLog(s, s.workers[w].batch[i])
    {
      assert BatchOk(s, w, i);
      EachRequestIsInOnePlace(s, s.workers[w].batch[i]);
    }
  }

  function Stage(p: Place): nat {
    match p
    case Hand(_) => 0
    case Queued(_) => 1
    case InBatch(_, _) => 2
    case Answered(_) => 3
  }

  /** No step takes a request back a stage, forgets one, or changes what was answered. */
  lemma {:induction false} RequestsMoveForward(s: State, e: Event)
    requires Inv(s)
    ensures var s' := Step(s, e);
      && s.calls <= s'.calls && s.log <= s'.log && s.pushed <= s'.pushed && |s'.place| == |s'.calls|
      && forall id :: 0 <= id < |s.calls| ==> Stage(s.place[id]) <= Stage(s'.place[id])
  {
    hide PlaceOk, QueueOk, BatchOk, EntryOk, CallOk, Sized, Controlled, StepWorker;
    match e
    case CallerStep(t, choice) =>
      if t < |s.callers| {
        assert CallerWithin(s, t) && HandOk(s, t);
      }
    case WorkerStep(w, choice, wait, replies) =>
      if w < |s.workers| {
        WorkerMovesForward(s, w, choice, wait, replies);
      }
    case _ =>
  }

  lemma {:induction false} WorkerMovesForward(s: State, w: nat, choice: bool, wait: nat, replies: seq<Reply>)
    requires Inv(s) && w < |s.workers|
    ensures var s' := StepWorker(s, w, choice, wait, replies);
      && s.calls == s'.calls && s.log <= s'.log && s.pushed == s'.pushed && |s'.place| == |s'.calls|
      && forall id :: 0 <= id < |s.calls| ==> Stage(s.place[id]) <= Stage(s'.place[id])
  {
    hide PlaceOk, HandOk, EntryOk, CallOk, Sized, Controlled, PhaseOk;
    assert WorkerWithin(s, w);
    if s.popped < |s.pushed| {
      assert QueueOk(s, s.popped);
    }
    if s.workers[w].sent < |s.workers[w].batch| {
      assert BatchOk(s, w, s.workers[w].sent);
    }
  }

  /**
   * With the executor stopped and every caller returned, what is not answered is in the queue, and the counter
   * counts it.
   */
  lemma {:induction false} AtRest(s: State, id: nat)
    requires Inv(s) && s.stopped && s.control == Resting && id < |s.calls|
    requires forall t :: 0 <= t < |s.callers| ==> s.callers[t] == Idle
    ensures InLog(s, id) <==> !InQueue(s, id)
    ensures s.queueSize == s.QueueLength()
  {
    EachRequestIsInOnePlace(s, id);
    assert PlaceOk(s, id);
    NoneCounting(s.callers);
    NoneDecrementing(s.workers);
  }

  lemma Next(events: seq<Event>, e: Event)
    ensures Run(1, 1, 1, events + [e]) == Step(Run(1, 1, 1, events), e)
  {
    RunMore(1, 1, 1, events, e);
  }

  /** The request of caller 0 is the only one, it is in the queue, and the worker has no batch. */
  ghost predicate Stranded(s: State, caller: Caller, pc: WorkerPc, control: Control, stopped: bool) {
    && |s.calls| == |s.pushed| == |s.callers| == |s.workers| == 1 && s.popped == |s.log| == 0 && s.pushed[0] == 0
    && s.callers[0] == caller && s.workers[0].pc == pc && s.control == control && s.stopped == stopped
  }

  lemma {:induction false} Submits(r: Request) returns (events: seq<Event>)
    ensures Stranded(Run(1, 1, 1, events), Counting, Off, Spawning(0), false)
  {
    hide Inv;
    events := [];
    Next(events, Start);
    events := events + [Start];
    Next(events, Call(0, r));
    events := events + [Call(0, r)];
    Next(events, CallerStep(0, true));
    events := events + [CallerStep(0, true)];
    Next(events, CallerStep(0, true));
    events := events + [CallerStep(0, true)];
    Next(events, CallerStep(0, true));
    events := events + [CallerStep(0, true)];
  }

  /** A request pushed before a worker first looks, and then a stop: it stays in the queue and is not answered. */
  lemma {:induction false} StopCanStrandARequest(r: Request) returns (events: seq<Event>)
    ensures var s := Run(1, 1, 1, events);
      && Stranded(s, Idle, Off, Resting, true) && InQueue(s, 0) && !InLog(s, 0)
  {
    hide Inv, Run;
    events := Submits(r);
    Next(events, CallerStep(0, true));
    events := events + [CallerStep(0, true)];
    assert Stranded(Run(1, 1, 1, events), Idle, Off, Spawning(0), false);
    Next(events, ControlStep);
    events := events + [ControlStep];
    assert Stranded(Run(1, 1, 1, events), Idle, Outer, Spawning(1), false);
    Next(events, ControlStep);
    events := events + [ControlStep];
    assert Stranded(Run(1, 1, 1, events), Idle, Outer, Resting, false);
    Next(events, Stop);
    events := events + [Stop];
    assert Stranded(Run(1, 1, 1, events), Idle, Outer, Joining(0), true);
    Next(events, WorkerStep(0, true, 0, []));
    events := events + [WorkerStep(0, true, 0, [])];
    assert Stranded(Run(1, 1, 1, events), Idle, Off, Joining(0), true);
    Next(events, ControlStep);
    events := events + [ControlStep];
    assert Stranded(Run(1, 1, 1, events), Idle, Off, Joining(1), true);
    Next(events, ControlStep);
    events := events + [ControlStep];
  }

  // ---------------------------------------------------------------- what comes in, and what answers mean

  /** The requests of the calls begun so far: those of the call events at an idle caller. */
  ghost function Arrivals(callers: nat, workers: nat, maxBatch: nat, events: seq<Event>): seq<Request> {
    if events == [] then []
    else
      var before, e := events[..|events| - 1], events[|events| - 1];
      var s := Run(callers, workers, maxBatch, before);
      Arrivals(callers, workers, maxBatch, before)
      + if e.Call? && e.tid < |s.callers| && s.callers[e.tid] == Idle then [e.request] else []
  }

  lemma {:induction false} CallsAreArrivals(callers: nat, workers: nat, maxBatch: nat, events: seq<Event>)
    ensures Run(callers, workers, maxBatch, events).calls == Arrivals(callers, workers, maxBatch, events)
  {
    hide Inv, Step;
    if events != [] {
      var before, e := events[..|events| - 1], events[|events| - 1];
      CallsAreArrivals(callers, workers, maxBatch, before);
      RunWithin(callers, workers, maxBatch, before);
      StepCalls(Run(callers, workers, maxBatch, before), e);
    }
  }

  lemma {:induction false} StepCalls(s: State, e: Event)
    requires Within(s)
    ensures Step(s, e).calls
         == s.calls + if e.Call? && e.tid < |s.callers| && s.callers[e.tid] == Idle then [e.request] else []
  {
    if e.CallerStep? && e.tid < |s.callers| {
      assert CallerWithin(s, e.tid);
    } else if e.WorkerStep? && e.worker < |s.workers| {
      assert WorkerWithin(s, e.worker);
    }
  }

  /** The queue wait of a request is the one measured when it was popped, and stays. */
  lemma {:induction false} WaitIsMeasuredAtPop(s: State, e: Event)
    requires Within(s)
    ensures Step(s, e).waitOf
         == if EffectOf(s, e).Out? then s.waitOf[EffectOf(s, e).item := e.wait] else s.waitOf
  {
    if e.CallerStep? && e.tid < |s.callers| {
      assert CallerWithin(s, e.tid);
    } else if e.WorkerStep? && e.worker < |s.workers| {
      assert WorkerWithin(s, e.worker);
    }
  }

  ghost function Play(s: State, events: seq<Event>): (s': State)
    requires Inv(s)
    ensures Inv(s')
  {
    if events == [] then s
    else
      var before := Play(s, events[..|events| - 1]);
      StepKeeps(before, events[|events| - 1]);
      Step(before, events[|events| - 1])
  }

  lemma PlayLast(s: State, events: seq<Event>, e: Event)
    requires Inv(s)
    ensures Within(Play(s, events)) && Play(s, events + [e]) == Step(Play(s, events), e)
    ensures Play(s, []) == s
  {
    assert (events + [e])[..|events|] == events;
    hide Sized, Controlled, Step;
    PlacedIsWithin(Play(s, events));
  }

  /** The steps of one caller's call, nobody else moving: what each finds is in choices. */
  function CallEvents(t: nat, r: Request, choices: seq<bool>): seq<Event> {
    [Call(t, r)] + seq(|choices|, k requires 0 <= k < |choices| => CallerStep(t, choices[k]))
  }

  /** Where the call is after those steps; nothing but the caller has changed since it entered. */
  ghost predicate CallAt(s: State, t: nat, r: Request, choices: seq<bool>, c: Caller)
    requires Inv(s) && t < |s.callers|
  {
    Play(s, CallEvents(t, r, choices)) == Enter(s, t, r).SetCaller(t, c)
  }

  lemma {:induction false} CallEnters(s: State, t: nat, r: Request)
    requires Inv(s) && t < |s.callers| && s.callers[t] == Idle
    ensures CallAt(s, t, r, [], Entered(|s.calls|))
  {
    hide Inv;
    assert CallEvents(t, r, []) == [] + [Call(t, r)];
    PlayLast(s, [], Call(t, r));
  }

  lemma {:induction false} CallSteps(s: State, t: nat, r: Request, choices: seq<bool>, c: Caller, choice: bool)
    requires Inv(s) && t < |s.callers| && CallAt(s, t, r, choices, c)
    ensures var events, before := CallEvents(t, r, choices + [choice]), Enter(s, t, r).SetCaller(t, c);
      && Within(before) && Play(s, events) == StepCaller(before, t, choice)
  {
    hide Inv, StepCaller;
    assert CallEvents(t, r, choices + [choice]) == CallEvents(t, r, choices) + [CallerStep(t, choice)];
    PlayLast(s, CallEvents(t, r, choices), CallerStep(t, choice));
  }

  /** The request is refused for the reason given, and only its promise is set. */
  ghost predicate RefusedFor(s: State, t: nat, r: Request, s': State, f: Failure) {
    && s'.calls == s.calls + [r] && s'.log == s.log + [Entry(|s.calls|, Failed(f), 0, 0)]
    && s'.pushed == s.pushed && s'.popped == s.popped && s'.queueSize == s.queueSize && s'.callers == s.callers
  }

  /** A model that is not ready refuses the request; a stopped executor does; a full queue does, once the time is up. */
  lemma {:induction false} UndisturbedRefusals(s: State, t: nat, r: Request)
    requires Inv(s) && t < |s.callers| && s.callers[t] == Idle
    ensures RefusedFor(s, t, r, Play(s, CallEvents(t, r, [] + [false] + [true])), NotReady)
    ensures s.stopped ==> RefusedFor(s, t, r, Play(s, CallEvents(t, r, [] + [true] + [true] + [true])), Stopped)
    ensures !s.stopped && s.QueueLength() >= 1024 ==>
              RefusedFor(s, t, r, Play(s, CallEvents(t, r, [] + [true] + [true] + [true] + [true] + [true])), QueueFull)
  {
    hide Inv, Play, Within;
    var id := |s.calls|;
    CallEnters(s, t, r);
    CallSteps(s, t, r, [], Entered(id), false);
    CallSteps(s, t, r, [] + [false], Refusing(id, NotReady), true);
    CallSteps(s, t, r, [], Entered(id), true);
    CallSteps(s, t, r, [] + [true], Checking(id), true);
    if s.stopped {
      CallSteps(s, t, r, [] + [true] + [true], Refusing(id, Stopped), true);
    } else if s.QueueLength() >= CAPACITY {
      CallSteps(s, t, r, [] + [true] + [true], Pushing(id), true);
      CallSteps(s, t, r, [] + [true] + [true] + [true], Late(id), true);
      CallSteps(s, t, r, [] + [true] + [true] + [true] + [true], Refusing(id, QueueFull), true);
    }
  }

  /** Otherwise it is queued and counted, and no promise is set. */
  lemma {:induction false} UndisturbedCallIsQueued(s: State, t: nat, r: Request)
    requires Inv(s) && t < |s.callers| && s.callers[t] == Idle && !s.stopped && s.QueueLength() < 1024
    ensures var s' := Play(s, CallEvents(t, r, [] + [true] + [true] + [true] + [true]));
      && s'.calls == s.calls + [r] && s'.pushed == s.pushed + [|s.calls|] && s'.popped == s.popped
      && s'.queueSize == s.queueSize + 1 && s'.log == s.log && s'.callers == s.callers
  {
    hide Inv, Within;
    var id := |s.calls|;
    CallEnters(s, t, r);
    CallSteps(s, t, r, [], Entered(id), true);
    CallSteps(s, t, r, [] + [true], Checking(id), true);
    CallSteps(s, t, r, [] + [true] + [true], Pushing(id), true);
    var choices := [] + [true] + [true] + [true];
    assert CallEvents(t, r, choices + [true]) == CallEvents(t, r, choices) + [CallerStep(t, true)];
    PlayLast(s, CallEvents(t, r, choices), CallerStep(t, true));
  }

  /** The stop ends the loops: a worker leaves, stops collecting, or wakes; without it only a counted task wakes one. */
  lemma {:induction false} StopEndsTheLoops(s: State, w: nat, choice: bool, wait: nat, replies: seq<Reply>)
    requires Within(s) && w < |s.workers|
    ensures var pc, s' := s.workers[w].pc, StepWorker(s, w, choice, wait, replies);
      && (pc == Outer && s.stopped ==> s'.workers[w].pc == Off)
      && (pc == Inner && s.stopped ==> s'.workers[w].pc == Chosen)
      && (pc == Waiting ==> s'.workers[w].pc == if s.stopped || s.queueSize > 0 then Outer else Waiting)
      && (pc == Inner && |s.workers[w].batch| >= s.maxBatch ==> s'.workers[w].pc == Chosen)
  {
    assert WorkerWithin(s, w);
  }

  /** Start and stop take effect once each in turn; starting sets every worker going, stopping waits for every one. */
  lemma {:induction false} StartsAndStops(s: State)
    requires Within(s) && s.control == Resting
    ensures Step(s, Start) == if s.stopped then s.(stopped := false, control := Spawning(0)) else s
    ensures Step(s, Stop) == if s.stopped then s else s.(stopped := true, control := Joining(0))
  {
  }

  lemma {:induction false} SpawnsAndJoinsEach(s: State)
    requires Within(s)
    ensures var s' := Step(s, ControlStep);
      match s.control
      case Resting => s' == s
      case Spawning(k) =>
        if k < |s.workers| then s'.control == Spawning(k + 1) && s'.workers[k].pc == Outer else s'.control == Resting
      case Joining(k) =>
        s'.control
        == if k >= |s.workers| then Resting else if s.workers[k].pc == Off then Joining(k + 1) else Joining(k)
  {
  }

  /** A worker at the top of its loop that collects one request, which waited for wait, and then is at pc. */
  function Collected(s: State, w: nat, wait: nat, pc: WorkerPc): State
    requires w < |s.workers| && s.popped < |s.pushed| && s.pushed[s.popped] < |s.place|
  {
    var p := Pop(s.SetWorker(w, s.workers[w].(pc := Popping, batch := [], waits := [], sent := 0)), w, wait);
    p.(queueSize := p.queueSize - 1).SetWorker(w, p.workers[w].(pc := pc))
  }

  lemma {:induction false} CollectsFirst(s: State, w: nat, wait: nat) returns (events: seq<Event>)
    requires Inv(s) && w < |s.workers| && s.workers[w].pc == Outer && !s.stopped && s.maxBatch > 0
    requires s.popped < |s.pushed| && s.pushed[s.popped] < |s.place|
    ensures Play(s, events) == Collected(s, w, wait, Inner)
  {
    hide Inv, Within, Play;
    var e := WorkerStep(w, true, wait, []);
    PlayLast(s, [], e);
    PlayLast(s, [] + [e], e);
    PlayLast(s, [] + [e] + [e], e);
    PlayLast(s, [] + [e] + [e] + [e], e);
    events := [] + [e] + [e] + [e] + [e];
  }

  /** The batch is full, or the next pop is refused and the batch delay has passed. */
  lemma {:induction false} CollectsOne(s: State, w: nat, wait: nat) returns (events: seq<Event>)
    requires Inv(s) && w < |s.workers| && s.workers[w].pc == Outer && !s.stopped && s.maxBatch > 0
    requires s.popped < |s.pushed| && s.pushed[s.popped] < |s.place|
    ensures Play(s, events) == Collected(s, w, wait, Chosen)
  {
    hide Inv, Within, Play;
    events := CollectsFirst(s, w, wait);
    var go, refused := WorkerStep(w, true, 0, []), WorkerStep(w, false, 0, []);
    PlayLast(s, events, go);
    events := events + [go];
    if s.maxBatch > 1 {
      PlayLast(s, events, refused);
      events := events + [refused];
      PlayLast(s, events, go);
      events := events + [go];
    }
  }

  /** The worker with that one request finds the model not ready. */
  lemma {:induction false} AnswersUnavailable(s: State, w: nat, wait: nat, events: seq<Event>)
    returns (longer: seq<Event>)
    requires Inv(s) && w < |s.workers| && s.popped < |s.pushed| && s.pushed[s.popped] < |s.place|
    requires Play(s, events) == Collected(s, w, wait, Chosen) && s.pushed[s.popped] < |s.calls|
    ensures var s', id := Play(s, longer), s.pushed[s.popped];
      && s'.popped == s.popped + 1 && s'.pushed == s.pushed && s'.queueSize == s.queueSize - 1 && s'.runs == s.runs
      && |s'.log| == |s.log| + 1 && s.log <= s'.log
      && s'.log[|s.log|].id == id && s'.log[|s.log|].answer == Failed(Unavailable)
  {
    hide Inv, Play, Within;
    var choose, go := WorkerStep(w, false, 0, []), WorkerStep(w, true, 0, []);
    PlayLast(s, events, choose);
    assert Play(s, events + [choose]) == Collected(s, w, wait, Failing);
    PlayLast(s, events + [choose], go);
    longer := events + [choose] + [go];
  }

  /** It finds the model ready, and the backend replies. */
  lemma {:induction false} AnswersServed(s: State, w: nat, wait: nat, reply: Reply, events: seq<Event>)
      returns (longer: seq<Event>)
    requires Inv(s) && w < |s.workers| && s.popped < |s.pushed| && s.pushed[s.popped] < |s.place|
    requires Play(s, events) == Collected(s, w, wait, Chosen) && s.pushed[s.popped] < |s.calls|
    ensures var s', id := Play(s, longer), s.pushed[s.popped];
      && s'.popped == s.popped + 1 && s'.pushed == s.pushed && s'.queueSize == s.queueSize - 1
      && s'.runs == s.runs + [BackendCall([id], [s.calls[id].payload], [reply])]
      && |s'.log| == |s.log| + 1 && s.log <= s'.log
      && s'.log[|s.log|].id == id && s'.log[|s.log|].answer == Served(reply, s.calls[id].routing, wait)
  {
    hide Inv, Play, Within;
    var choose, go := WorkerStep(w, true, 0, []), WorkerStep(w, true, 0, [reply]);
    assert [] + [s.pushed[s.popped]] == [s.pushed[s.popped]];
    assert Payloads(s.calls, [s.pushed[s.popped]]) == [s.calls[s.pushed[s.popped]].payload];
    PlayLast(s, events, choose);
    assert Play(s, events + [choose]) == Collected(s, w, wait, Infer);
    PlayLast(s, events + [choose], go);
    PlayLast(s, events + [choose] + [go], go);
    longer := events + [choose] + [go] + [go];
  }

  /** What a worker's round on the next request in the queue does: it serves it if the model is ready. */
  lemma {:induction false} UndisturbedRound(s: State, w: nat, wait: nat, ready: bool, reply: Reply)
      returns (events: seq<Event>)
    requires Inv(s) && w < |s.workers| && s.workers[w].pc == Outer && !s.stopped && s.maxBatch > 0
    requires s.popped < |s.pushed| && s.pushed[s.popped] < |s.calls|
    ensures var s', id := Play(s, events), s.pushed[s.popped];
      && s'.popped == s.popped + 1 && s'.pushed == s.pushed && s'.queueSize == s.queueSize - 1
      && |s'.log| == |s.log| + 1 && s.log <= s'.log && s'.log[|s.log|].id == id
      && (ready ==> s'.log[|s.log|].answer == Served(reply, s.calls[id].routing, wait)
                    && s'.runs == s.runs + [BackendCall([id], [s.calls[id].payload], [reply])])
      && (!ready ==> s'.log[|s.log|].answer == Failed(Unavailable) && s'.runs == s.runs)
  {
    PlayLast(s, [], Start);
    hide Inv, Play, Collected;
    events := CollectsOne(s, w, wait);
    if ready {
      events := AnswersServed(s, w, wait, reply, events);
    } else {
      events := AnswersUnavailable(s, w, wait, events);
    }
  }

  // ---------------------------------------------------------------- calls running uninterrupted

  /** How a worker answers a request of its batch. */
  function Verdict(ready: bool, reply: Reply, routing: nat, wait: nat): (answer: Answer)
    ensures ready ==> answer.Served? && answer.reply == reply && answer.routing == routing && answer.queueWait == wait
    ensures !ready ==> answer == Failed(Unavailable)
  {
    if ready then Served(reply, routing, wait) else Failed(Unavailable)
  }

  /** Of n requests the pending ones, once each, are those whose promise is not among those set. */
  ghost predicate Owed(pending: seq<nat>, n: nat, answered: set<nat>) {
    && (forall i :: 0 <= i < |pending| ==> pending[i] < n && pending[i] !in answered)
    && (forall i, j :: 0 <= i < j < |pending| ==> pending[i] != pending[j])
    && (forall id :: 0 <= id < n && id !in answered ==> id in pending)
    && (forall id :: id in answered ==> id < n)
  }

  function Ids(ids: seq<nat>): set<nat> {
    set id | id in ids
  }

  lemma NoIds(ids: seq<nat>)
    ensures Ids(ids[..0]) == {}
  {
  }

  lemma IdsStep(ids: seq<nat>, i: nat)
    requires i < |ids|
    ensures Ids(ids[..i + 1]) == Ids(ids[..i]) + {ids[i]}
  {
    assert ids[..i + 1] == ids[..i] + [ids[i]];
  }

  lemma {:induction false} OneAnswered(pending: seq<nat>, i: nat, n: nat, answered: set<nat>)
    requires i < |pending| && Owed(pending[i..], n, answered)
    ensures Owed(pending[i + 1..], n, answered + {pending[i]}) && pending[i] !in answered
  {
    assert pending[i..] == [pending[i]] + pending[i + 1..];
  }

  lemma OwedInRange(pending: seq<nat>, n: nat, answered: set<nat>)
    requires Owed(pending, n, answered)
    ensures forall i :: 0 <= i < |pending| ==> pending[i] < n
  {
  }

  /** The executor as one thread at a time sees it: every request is in the queue or has its promise set, not both. */
  class ModelExecutor {
    const maxBatch: nat
    var stopped: bool
    var requests: seq<Request>
    var queue: seq<nat>
    var queueSize: int
    var promises: map<nat, Answer>

    ghost predicate Valid()
      reads this
    {
      queueSize == |queue| <= CAPACITY && Owed(queue, |requests|, promises.Keys)
    }

    constructor (maxBatch: nat)
      ensures Valid() && this.maxBatch == maxBatch && stopped && requests == [] && queue == []
    {
      this.maxBatch := maxBatch;
      stopped, requests, queue, queueSize, promises := true, [], [], 0, map[];
    }

    /** patience is how many refused pushes the caller makes before its deadline passes. */
    method InferAsync(request: Request, ready: bool, patience: nat) returns (id: nat)
      requires Valid()
      modifies this`requests, this`queue, this`queueSize, this`promises
      ensures Valid() && id == |old(requests)| && requests == old(requests) + [request]
      ensures if ready && !stopped && |old(queue)| < CAPACITY
              then queue == old(queue) + [id] && promises == old(promises)
              else queue == old(queue)
                   && promises.Keys == old(promises).Keys + {id} && promises[id].Failed?
                   && forall k :: k in old(promises) ==> promises[k] == old(promises)[k]
      ensures !ready ==> id in promises && promises[id] == Failed(NotReady)
      ensures ready && stopped ==> id in promises && promises[id] == Failed(Stopped)
      ensures ready && !stopped && |old(queue)| >= CAPACITY ==> id in promises && promises[id] == Failed(QueueFull)
    {
      id := |requests|;
      requests := requests + [request];
      if !ready {
        promises := promises[id := Failed(NotReady)];
        return;
      }
      var left: nat := patience;
      while !stopped
        invariant requests == old(requests) + [request] && queue == old(queue) && promises == old(promises)
        invariant queueSize == old(queueSize)
        invariant left < patience ==> |queue| == CAPACITY
        decreases left
      {
        if |queue| < CAPACITY {
          assert id !in queue;
          queue := queue + [id];
          queueSize := queueSize + 1;
          return;
        }
        if left == 0 {
          promises := promises[id := Failed(QueueFull)];
          return;
        }
        left := left - 1;
      }
      promises := promises[id := Failed(Stopped)];
    }

    function BatchSize(): nat
      reads this
    {
      if stopped then 0 else if |queue| < maxBatch then |queue| else maxBatch
    }

    /**
     * The inner loop of a worker: pops until the batch is full or, the queue being empty, there is no batch or its
     * delay has passed. pauses is how often it looks again before that.
     */
    method FillBatch(pauses: nat) returns (batch: seq<nat>)
      requires Valid()
      modifies this`queue, this`queueSize
      ensures batch + queue == old(queue) && |batch| == old(BatchSize()) && queueSize == |queue|
    {
      batch := [];
      var left := pauses;
      while |batch| < maxBatch && !stopped
        invariant |batch| <= old(BatchSize()) && queueSize == |queue|
        invariant batch + queue == old(queue)
        decreases maxBatch - |batch|, left
      {
        if queue != [] {
          batch := batch + [queue[0]];
          queue := queue[1..];
          queueSize := queueSize - 1;
        } else {
          if batch == [] || left == 0 {
            break;
          }
          left := left - 1;
        }
      }
    }

    /** The loops over a batch: sets the promise of each of its requests, and no other. */
    method AnswerBatch(batch: seq<nat>, ready: bool, infer: seq<Payload> -> seq<Reply>, wait: nat -> nat)
      requires Owed(batch + queue, |requests|, promises.Keys) && forall p :: |infer(p)| == |p|
      modifies this`promises
      ensures Owed(queue, |requests|, promises.Keys)
      ensures promises.Keys == old(promises).Keys + Ids(batch)
      ensures forall id :: id in old(promises) ==> promises[id] == old(promises)[id]
      ensures forall i :: 0 <= i < |batch| ==> batch[i] < |requests|
      ensures ready ==> forall i :: 0 <= i < |batch| ==>
                && promises[batch[i]].Served? && promises[batch[i]].reply == infer(Payloads(requests, batch))[i]
                && promises[batch[i]].routing == requests[batch[i]].routing && promises[batch[i]].queueWait == wait(i)
      ensures !ready ==> forall i :: 0 <= i < |batch| ==> promises[batch[i]] == Failed(Unavailable)
    {
      hide Owed, Verdict, Ids;
      ghost var pending := batch + queue;
      OwedInRange(pending, |requests|, promises.Keys);
      assert forall i :: 0 <= i < |batch| ==> pending[i] == batch[i];
      var replies := infer(Payloads(requests, batch));
      NoIds(batch);
      var i := 0;
      while i < |batch|
        invariant i <= |batch| && Owed(pending[i..], |requests|, promises.Keys)
        invariant promises.Keys == old(promises).Keys + Ids(batch[..i])
        invariant forall id :: id in old(promises) ==> promises[id] == old(promises)[id]
        invariant forall k :: 0 <= k < i ==> batch[k] in promises
        invariant forall k :: 0 <= k < i ==>
                    promises[batch[k]] == Verdict(ready, replies[k], requests[batch[k]].routing, wait(k))
      {
        OneAnswered(pending, i, |requests|, promises.Keys);
        ghost var answered := promises.Keys;
        assert batch[i] == pending[i];
        IdsStep(batch, i);
        promises := promises[batch[i] := Verdict(ready, replies[i], requests[batch[i]].routing, wait(i))];
        assert promises.Keys == answered + {pending[i]};
        i := i + 1;
      }
      assert batch[..i] == batch && pending[i..] == queue;
    }

    /** One round of a worker: the front of the queue, no more than maxBatch, each answered by its own reply. */
    method WorkerRound(ready: bool, pauses: nat, infer: seq<Payload> -> seq<Reply>, wait: nat -> nat)
      returns (batch: seq<nat>)
      requires Valid() && forall p :: |infer(p)| == |p|
      modifies this`queue, this`queueSize, this`promises
      ensures Valid() && batch + queue == old(queue) && |batch| == old(BatchSize())
      ensures promises.Keys == old(promises).Keys + Ids(batch)
      ensures forall id :: id in old(promises) ==> promises[id] == old(promises)[id]
      ensures forall i :: 0 <= i < |batch| ==> batch[i] < |requests|
      ensures ready ==> forall i :: 0 <= i < |batch| ==>
                && promises[batch[i]].Served? && promises[batch[i]].reply == infer(Payloads(requests, batch))[i]
                && promises[batch[i]].routing == requests[batch[i]].routing && promises[batch[i]].queueWait == wait(i)
      ensures !ready ==> forall i :: 0 <= i < |batch| ==> promises[batch[i]] == Failed(Unavailable)
    {
      batch := FillBatch(pauses);
      AnswerBatch(batch, ready, infer, wait);
    }
  }
}
