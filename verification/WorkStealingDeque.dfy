/**
 * The growable work-stealing deque as a step machine: one owner and any number of stealers, every atomic
 * load, store and compare-and-swap, every access to array storage and every copied slot of a resize a step
 * of its own. Steps interleave sequentially consistently.
 */
module WorkStealingDeque {
  import opened Bits
  import opened Wrappers

  type Task = int

  // ---------------------------------------------------------------- the ring arrays

  datatype Ring = Ring(capacity: nat, storage: seq<Task>) {
    ghost predicate Valid() {
      PowerOfTwo(capacity) && |storage| == capacity
    }

    function Load(i: nat): Task
      requires Valid()
    {
      storage[SlotOf(i, capacity)]
    }

    function Store(i: nat, x: Task): (r: Ring)
      requires Valid()
      ensures r.Valid() && r.capacity == capacity
    {
      this.(storage := storage[SlotOf(i, capacity) := x])
    }
  }

  function NewRing(capacity: nat): (r: Ring)
    requires PowerOfTwo(capacity)
    ensures r.Valid() && r.capacity == capacity
  {
    Ring(capacity, seq(capacity, _ => 0))
  }

  lemma {:induction false} LoadStore(r: Ring, b: nat, x: Task, i: nat)
    requires r.Valid()
    ensures r.Store(b, x).Load(b) == x
    ensures i != b && i < b + r.capacity && b < i + r.capacity ==> r.Store(b, x).Load(i) == r.Load(i)
  {
    if i != b && i < b + r.capacity && b < i + r.capacity {
      SlotsDistinct(i, b, r.capacity);
    }
  }

  /** The items at indices from to to - 1, oldest first. */
  function Window(r: Ring, from: nat, to: int): (items: seq<Task>)
    requires r.Valid() && from <= to
    ensures |items| == to - from
  {
    seq(to - from, k requires 0 <= k < to - from => r.Load(from + k))
  }

  lemma {:induction false} WindowEnds(r: Ring, from: nat, to: int)
    requires r.Valid() && from < to
    ensures Window(r, from, to) == [r.Load(from)] + Window(r, from + 1, to)
    ensures Window(r, from, to) == Window(r, from, to - 1) + [r.Load(to - 1)]
  {
  }

  // ---------------------------------------------------------------- threads and state

  /** Where the owner is, with its local copies. */
  datatype OwnerPc =
    | Idle
    | PushLoadTop(item: Task, b: nat)
    | PushLoadArray(item: Task, b: nat, t: nat)
    | Copying(item: Task, b: nat, t: nat, bigger: Ring, i: nat)
    | PushStore(item: Task, b: nat)
    | PushPublish(item: Task, b: nat)
    | PopLoadArray(last: int)
    | PopStoreBottom(last: int)
    | PopLoadTop(last: int)
    | PopTake(b: nat, expected: Task)
    | PopLoadLast(b: nat)
    | PopCas(b: nat, item: Task)
    | PopRestore(last: int, result: Option<Task>)

  datatype StealerPc =
    | Resting
    | LoadBottom(t: nat)
    | LoadArray(t: nat)
    | LoadItem(t: nat, a: nat)
    | Cas(t: nat, item: Task)

  /** The abstract operations, with their results. */
  datatype Op = Pushed(x: Task) | PoppedBack(x: Task) | PoppedEmpty | Stolen(x: Task)

  /**
   * arrays holds every ring ever published; all but the current one are garbage_.
   * log lists operations where they take effect, returned what the owner's finished calls gave back.
   */
  datatype State = State(
    top: nat, bottom: int, arrays: seq<Ring>, current: nat,
    owner: OwnerPc, stealers: map<nat, StealerPc>,
    log: seq<Op>, returned: seq<Op>)
  {
    function Array(): Ring
      requires current < |arrays|
    {
      arrays[current]
    }

    function Stealer(tid: nat): StealerPc {
      if tid in stealers then stealers[tid] else Resting
    }

    /** One past the last index still in the deque: a pop removes its index when it reads top_. */
    function Limit(): int {
      match owner
      case PopLoadTop(_) => bottom + 1
      case PopLoadLast(_) => bottom + 1
      case PopCas(_, _) => bottom + 1
      case PopRestore(_, _) => bottom + 1
      case _ => bottom
    }
  }

  datatype Command = Push(item: Task) | Pop

  datatype Event = OwnerStep(command: Command) | StealerStep(tid: nat)

  function Init(capacity: nat): State
    requires PowerOfTwo(capacity)
  {
    State(0, 0, [NewRing(capacity)], 0, Idle, map[], [], [])
  }

  // ---------------------------------------------------------------- steps

  function Owner(s: State, command: Command): State
    requires ArraysOk(s) && OwnerOk(s)
  {
    match s.owner
    case Idle =>
      (match command
       case Push(item) => s.(owner := PushLoadTop(item, s.bottom))
       case Pop => s.(owner := PopLoadArray(s.bottom - 1)))
    case PushLoadTop(item, b) => s.(owner := PushLoadArray(item, b, s.top))
    case PushLoadArray(item, b, t) =>
      if b - t > s.Array().capacity - 1
      then s.(owner := Copying(item, b, t, NewRing(2 * s.Array().capacity), t))
      else s.(owner := PushStore(item, b))
    case Copying(item, b, t, bigger, i) =>
      if i < b
      then s.(owner := Copying(item, b, t, bigger.Store(i, s.Array().Load(i)), i + 1))
      else s.(arrays := s.arrays + [bigger], current := |s.arrays|, owner := PushStore(item, b))
    case PushStore(item, b) =>
      s.(arrays := s.arrays[s.current := s.Array().Store(b, item)], owner := PushPublish(item, b))
    case PushPublish(item, b) =>
      s.(bottom := b + 1, owner := Idle, log := s.log + [Pushed(item)], returned := s.returned + [Pushed(item)])
    case PopLoadArray(last) => s.(owner := PopStoreBottom(last))
    case PopStoreBottom(last) => s.(bottom := last, owner := PopLoadTop(last))
    case PopLoadTop(last) =>
      if s.top < last then
        s.(owner := PopTake(last, s.Array().Load(last)), log := s.log + [PoppedBack(s.Array().Load(last))])
      else if s.top == last then s.(owner := PopLoadLast(last))
      else s.(owner := PopRestore(last, None), log := s.log + [PoppedEmpty])
    case PopTake(b, _) => s.(owner := Idle, returned := s.returned + [PoppedBack(s.Array().Load(b))])
    case PopLoadLast(b) => s.(owner := PopCas(b, s.Array().Load(b)))
    case PopCas(b, item) =>
      if s.top == b
      then s.(top := b + 1, owner := PopRestore(b, Some(item)), log := s.log + [PoppedBack(item)])
      else s.(owner := PopRestore(b, None), log := s.log + [PoppedEmpty])
    case PopRestore(last, result) =>
      s.(bottom := last + 1, owner := Idle, returned := s.returned + [Result(result)])
  }

  function Result(r: Option<Task>): Op {
    match r
    case None => PoppedEmpty
    case Some(x) => PoppedBack(x)
  }

  function StealStep(s: State, tid: nat): State
    requires ArraysOk(s) && StealerOk(s, s.Stealer(tid))
  {
    match s.Stealer(tid)
    case Resting => s.(stealers := s.stealers[tid := LoadBottom(s.top)])
    case LoadBottom(t) => s.(stealers := s.stealers[tid := if t < s.bottom then LoadArray(t) else Resting])
    case LoadArray(t) => s.(stealers := s.stealers[tid := LoadItem(t, s.current)])
    case LoadItem(t, a) => s.(stealers := s.stealers[tid := Cas(t, s.arrays[a].Load(t))])
    case Cas(t, item) =>
      if s.top == t
      then s.(top := t + 1, stealers := s.stealers[tid := Resting], log := s.log + [Stolen(item)])
      else s.(stealers := s.stealers[tid := Resting])
  }

  function Step(s: State, e: Event): State
    requires Inv(s)
  {
    match e
    case OwnerStep(command) => Owner(s, command)
    case StealerStep(tid) => StealStep(s, tid)
  }

  // ---------------------------------------------------------------- the abstract deque

  /** The deque the concrete state stands for: indices top to Limit, read through the current array. */
  function Contents(s: State): seq<Task>
    requires ArraysOk(s) && s.top <= s.Limit()
  {
    Window(s.Array(), s.top, s.Limit())
  }

  /** What an abstract operation does; None when its result is not the one a deque would give. */
  function Apply(q: seq<Task>, op: Op): Option<seq<Task>> {
    match op
    case Pushed(x) => Some(q + [x])
    case PoppedBack(x) => if q != [] && q[|q| - 1] == x then Some(q[..|q| - 1]) else None
    case PoppedEmpty => if q == [] then Some(q) else None
    case Stolen(x) => if q != [] && q[0] == x then Some(q[1..]) else None
  }

  function Replay(log: seq<Op>): Option<seq<Task>> {
    if log == [] then Some([])
    else
      match Replay(log[..|log| - 1])
      case None => None
      case Some(q) => Apply(q, log[|log| - 1])
  }

  function OwnerOps(log: seq<Op>): seq<Op> {
    if log == [] then []
    else OwnerOps(log[..|log| - 1]) + if log[|log| - 1].Stolen? then [] else [log[|log| - 1]]
  }

  /** The owner's operation that has taken effect but not yet returned. */
  function Pending(pc: OwnerPc): seq<Op> {
    match pc
    case PopTake(_, x) => [PoppedBack(x)]
    case PopRestore(_, result) => [Result(result)]
    case _ => []
  }

  // ---------------------------------------------------------------- invariant

  ghost predicate ArraysOk(s: State) {
    && s.current + 1 == |s.arrays|
    && forall a :: 0 <= a < |s.arrays| ==> s.arrays[a].Valid()
  }

  ghost predicate OwnerOk(s: State)
    requires ArraysOk(s)
  {
    && s.top <= s.Limit() <= s.top + s.Array().capacity
    && match s.owner
       case Idle => true
       case PushLoadTop(_, b) => b == s.bottom
       case PushLoadArray(_, b, t) => b == s.bottom && t <= s.top && b - t <= s.Array().capacity
       case Copying(_, b, t, bigger, i) =>
         && b == s.bottom && t <= s.top && t <= i <= b && b - t <= s.Array().capacity
         && bigger.Valid() && bigger.capacity == 2 * s.Array().capacity
         && forall j :: t <= j < i ==> bigger.Load(j) == s.Array().Load(j)
       case PushStore(_, b) => b == s.bottom && b - s.top < s.Array().capacity
       case PushPublish(item, b) => b == s.bottom && b - s.top < s.Array().capacity && s.Array().Load(b) == item
       case PopLoadArray(last) => last == s.bottom - 1
       case PopStoreBottom(last) => last == s.bottom - 1
       case PopLoadTop(last) => last == s.bottom
       case PopTake(b, x) => b == s.bottom && x == s.Array().Load(b)
       case PopLoadLast(b) => b == s.bottom && b <= s.top
       case PopCas(b, item) => b == s.bottom && b <= s.top && item == s.Array().Load(b)
       case PopRestore(last, _) => last == s.bottom && s.top == s.Limit()
  }

  /** A stealer's copies are right for as long as its compare-and-swap can still succeed. */
  ghost predicate StealerOk(s: State, pc: StealerPc)
    requires ArraysOk(s)
  {
    match pc
    case Resting => true
    case LoadBottom(t) => t <= s.top
    case LoadArray(t) => t <= s.top && (t == s.top ==> t < s.Limit())
    case LoadItem(t, a) =>
      && t <= s.top && a < |s.arrays|
      && (t == s.top ==> t < s.Limit() && s.arrays[a].Load(t) == s.Array().Load(t))
    case Cas(t, item) => t <= s.top && (t == s.top ==> t < s.Limit() && item == s.Array().Load(t))
  }

  ghost predicate StealersOk(s: State)
    requires ArraysOk(s)
  {
    forall tid :: tid in s.stealers ==> StealerOk(s, s.stealers[tid])
  }

  ghost predicate Inv(s: State) {
    && ArraysOk(s) && OwnerOk(s) && StealersOk(s)
    && Replay(s.log) == Some(Contents(s))
    && OwnerOps(s.log) == s.returned + Pending(s.owner)
  }

  // ---------------------------------------------------------------- preservation

  /** What a step must keep for every stealer's stale copies to stay good. */
  ghost predicate Extends(s: State, s': State)
    requires ArraysOk(s) && ArraysOk(s')
  {
    && s.top <= s'.top && |s.arrays| <= |s'.arrays|
    && (s'.top == s.top < s.Limit() ==>
          && s.top < s'.Limit()
          && s'.Array().Load(s.top) == s.Array().Load(s.top)
          && forall a :: 0 <= a < |s.arrays| ==> s'.arrays[a].Load(s.top) == s.arrays[a].Load(s.top))
  }

  lemma {:induction false} StealersKeep(s: State, s': State)
    requires ArraysOk(s) && ArraysOk(s') && StealersOk(s) && Extends(s, s') && s'.stealers == s.stealers
    ensures StealersOk(s')
  {
  }

  lemma ReplayLast(log: seq<Op>, op: Op)
    ensures Replay(log + [op]) == match Replay(log) case None => None case Some(q) => Apply(q, op)
    ensures OwnerOps(log + [op]) == OwnerOps(log) + if op.Stolen? then [] else [op]
  {
    assert (log + [op])[..|log|] == log;
  }

  lemma {:induction false} CopyKeeps(s: State)
    requires ArraysOk(s) && OwnerOk(s) && s.owner.Copying? && s.owner.i < s.owner.b
    ensures var pc := s.owner;
      var next := pc.bigger.Store(pc.i, s.Array().Load(pc.i));
      forall j :: pc.t <= j <= pc.i ==> next.Load(j) == s.Array().Load(j)
  {
    var pc := s.owner;
    var x := s.Array().Load(pc.i);
    forall j | pc.t <= j <= pc.i
      ensures pc.bigger.Store(pc.i, x).Load(j) == s.Array().Load(j)
    {
      LoadStore(pc.bigger, pc.i, x, j);
    }
  }

  lemma {:induction false} StoreKeeps(s: State)
    requires ArraysOk(s) && OwnerOk(s) && s.owner.PushStore?
    ensures s.Array().Store(s.owner.b, s.owner.item).Load(s.owner.b) == s.owner.item
    ensures forall i :: s.top <= i < s.Limit() ==>
              s.Array().Store(s.owner.b, s.owner.item).Load(i) == s.Array().Load(i)
  {
    forall i: nat
      ensures s.Array().Store(s.owner.b, s.owner.item).Load(s.owner.b) == s.owner.item
      ensures s.top <= i < s.Limit() ==>
                s.Array().Store(s.owner.b, s.owner.item).Load(i) == s.Array().Load(i)
    {
      LoadStore(s.Array(), s.owner.b, s.owner.item, i);
    }
  }

  predicate Pushing(pc: OwnerPc) {
    pc.PushLoadTop? || pc.PushLoadArray? || pc.Copying? || pc.PushStore? || pc.PushPublish?
  }

  lemma {:induction false} PushKeepsOk(s: State, command: Command)
    requires ArraysOk(s) && OwnerOk(s) && Pushing(s.owner)
    ensures ArraysOk(Owner(s, command)) && OwnerOk(Owner(s, command))
  {
    hide Ring.Load, Ring.Store, NewRing;
    if s.owner.Copying? && s.owner.i < s.owner.b {
      CopyKeeps(s);
    } else if s.owner.PushStore? {
      StoreKeeps(s);
    }
  }

  lemma {:induction false} PopKeepsOk(s: State, command: Command)
    requires ArraysOk(s) && OwnerOk(s) && !Pushing(s.owner)
    ensures ArraysOk(Owner(s, command)) && OwnerOk(Owner(s, command))
  {
    hide Ring.Load, Ring.Store, NewRing;
  }

  lemma {:induction false} OwnerKeepsOk(s: State, command: Command)
    requires ArraysOk(s) && OwnerOk(s)
    ensures ArraysOk(Owner(s, command)) && OwnerOk(Owner(s, command))
  {
    hide Owner, OwnerOk;
    if Pushing(s.owner) {
      PushKeepsOk(s, command);
    } else {
      PopKeepsOk(s, command);
    }
  }

  lemma {:induction false} OwnerExtends(s: State, command: Command)
    requires ArraysOk(s) && OwnerOk(s)
    ensures ArraysOk(Owner(s, command))
    ensures Extends(s, Owner(s, command)) && Owner(s, command).stealers == s.stealers
  {
    if s.owner.PushStore? {
      StoreKeeps(s);
    }
    hide Ring.Load, Ring.Store, NewRing;
  }

  /** From s to s', the abstract deque did op, or nothing. */
  ghost predicate Refines(s: State, s': State)
    requires ArraysOk(s) && OwnerOk(s) && ArraysOk(s') && OwnerOk(s')
  {
    || (s'.log == s.log && Contents(s') == Contents(s))
    || (s'.log != [] && s'.log == s.log + [s'.log[|s'.log| - 1]]
        && Apply(Contents(s), s'.log[|s'.log| - 1]) == Some(Contents(s')))
  }

  lemma {:induction false} SameContents(s: State, s': State)
    requires ArraysOk(s) && ArraysOk(s') && s.top <= s.Limit() && s'.top == s.top && s'.Limit() == s.Limit()
    requires forall i :: s.top <= i < s.Limit() ==> s'.Array().Load(i) == s.Array().Load(i)
    ensures Contents(s') == Contents(s)
  {
  }

  lemma {:induction false} OwnerRefines(s: State, command: Command)
    requires ArraysOk(s) && OwnerOk(s)
    ensures ArraysOk(Owner(s, command)) && OwnerOk(Owner(s, command))
    ensures Refines(s, Owner(s, command))
  {
    OwnerKeepsOk(s, command);
    var s' := Owner(s, command);
    if s.owner.PushStore? {
      StoreKeeps(s);
    }
    hide Ring.Load, Ring.Store, NewRing;
    if s'.log == s.log {
      SameContents(s, s');
    } else {
      EffectRefines(s, command);
    }
  }

  /** The steps at which the owner's operations take effect. */
  lemma {:induction false} EffectRefines(s: State, command: Command)
    requires ArraysOk(s) && OwnerOk(s)
    requires ArraysOk(Owner(s, command)) && OwnerOk(Owner(s, command))
    requires Owner(s, command).log != s.log
    ensures Refines(s, Owner(s, command))
  {
    var s' := Owner(s, command);
    var q, q' := Contents(s), Contents(s');
    hide Ring.Load, Ring.Store, NewRing;
    if s.owner.PushPublish? {
      assert q' == q + [s.owner.item];
    } else if s.owner.PopLoadTop? {
      LastRefines(s, command);
    } else if s.top == s.owner.b {
      assert q == [s.owner.item] && q' == [];
    }
  }

  lemma {:induction false} LastRefines(s: State, command: Command)
    requires ArraysOk(s) && OwnerOk(s)
    requires ArraysOk(Owner(s, command)) && OwnerOk(Owner(s, command))
    requires s.owner.PopLoadTop? && Owner(s, command).log != s.log
    ensures Refines(s, Owner(s, command))
  {
    var s' := Owner(s, command);
    var q, q' := Contents(s), Contents(s');
    hide Ring.Load;
    if s.top < s.owner.last {
      assert q' == q[..|q| - 1];
    } else {
      assert q == q' == [];
    }
  }

  /** The log stays a legal history when each new entry is an abstract step, returned sooner or later. */
  lemma {:induction false} HistoryKeeps(s: State, s': State)
    requires ArraysOk(s) && OwnerOk(s) && ArraysOk(s') && OwnerOk(s') && Refines(s, s')
    requires Replay(s.log) == Some(Contents(s))
    requires OwnerOps(s.log) == s.returned + Pending(s.owner)
    requires s'.returned + Pending(s'.owner) == s.returned + Pending(s.owner) +
      if s'.log == s.log || s'.log[|s'.log| - 1].Stolen? then [] else [s'.log[|s'.log| - 1]]
    ensures Replay(s'.log) == Some(Contents(s'))
    ensures OwnerOps(s'.log) == s'.returned + Pending(s'.owner)
  {
    hide Contents, Pending, Apply;
    if s'.log != s.log {
      ReplayLast(s.log, s'.log[|s'.log| - 1]);
    }
  }

  lemma {:induction false} OwnerKeepsHistory(s: State, command: Command)
    requires Inv(s)
    ensures ArraysOk(Owner(s, command)) && OwnerOk(Owner(s, command))
    ensures var s' := Owner(s, command);
      && Replay(s'.log) == Some(Contents(s'))
      && OwnerOps(s'.log) == s'.returned + Pending(s'.owner)
  {
    OwnerRefines(s, command);
    hide Ring.Load, Ring.Store, NewRing, Contents, Apply, Replay, OwnerOps;
    HistoryKeeps(s, Owner(s, command));
  }

  lemma {:induction false} StealKeepsOk(s: State, tid: nat)
    requires ArraysOk(s) && OwnerOk(s) && StealersOk(s)
    ensures var s' := StealStep(s, tid);
      ArraysOk(s') && OwnerOk(s') && StealersOk(s')
  {
    var s' := StealStep(s, tid);
    hide Ring.Load;
    assert OwnerOk(s');
    assert StealerOk(s', s'.Stealer(tid));
  }

  lemma {:induction false} StealRefines(s: State, tid: nat)
    requires ArraysOk(s) && OwnerOk(s) && StealersOk(s)
    ensures ArraysOk(StealStep(s, tid)) && OwnerOk(StealStep(s, tid))
    ensures Refines(s, StealStep(s, tid))
  {
    StealKeepsOk(s, tid);
    var s' := StealStep(s, tid);
    hide Ring.Load;
    if s'.log == s.log {
      SameContents(s, s');
    } else {
      assert Contents(s') == Contents(s)[1..];
    }
  }

  lemma {:induction false} StealKeepsHistory(s: State, tid: nat)
    requires Inv(s)
    ensures ArraysOk(StealStep(s, tid)) && OwnerOk(StealStep(s, tid))
    ensures var s' := StealStep(s, tid);
      && Replay(s'.log) == Some(Contents(s'))
      && OwnerOps(s'.log) == s'.returned + Pending(s'.owner)
  {
    StealRefines(s, tid);
    hide Ring.Load, Contents, Apply, Replay, OwnerOps;
    HistoryKeeps(s, StealStep(s, tid));
  }

  lemma {:induction false} StepKeeps(s: State, e: Event)
    requires Inv(s)
    ensures Inv(Step(s, e))
  {
    hide Owner, StealStep, Ring.Load, Replay, OwnerOps, Contents;
    match e
    case OwnerStep(command) =>
      OwnerKeepsOk(s, command);
      OwnerKeepsHistory(s, command);
      OwnerExtends(s, command);
      StealersKeep(s, Owner(s, command));
    case StealerStep(tid) =>
      StealKeepsOk(s, tid);
      StealKeepsHistory(s, tid);
  }

  // ---------------------------------------------------------------- every run

  /** The state after any schedule, however owner and stealer steps are interleaved. */
  function Run(capacity: nat, schedule: seq<Event>): (s: State)
    requires PowerOfTwo(capacity)
    ensures Inv(s)
  {
    if schedule == [] then
      InitOk(capacity);
      Init(capacity)
    else
      var before := Run(capacity, schedule[..|schedule| - 1]);
      StepKeeps(before, schedule[|schedule| - 1]);
      Step(before, schedule[|schedule| - 1])
  }

  lemma InitOk(capacity: nat)
    requires PowerOfTwo(capacity)
    ensures Inv(Init(capacity))
  {
    assert Contents(Init(capacity)) == [];
  }

  /**
   * The operations, in the order in which they take effect, form a legal history of one double-ended queue
   * whose content is what the memory now holds; and the owner's calls return exactly that history's results.
   */
  lemma {:induction false} RunIsLinearizable(capacity: nat, schedule: seq<Event>)
    requires PowerOfTwo(capacity)
    ensures var s := Run(capacity, schedule);
      && Replay(s.log) == Some(Contents(s))
      && OwnerOps(s.log) == s.returned + Pending(s.owner)
  {
    var s := Run(capacity, schedule);
    assert Inv(s);
  }

  /** The calls the owner has begun: the commands of its steps taken while it was idle. */
  function Issued(capacity: nat, schedule: seq<Event>): seq<Command>
    requires PowerOfTwo(capacity)
  {
    if schedule == [] then []
    else
      var before, e := schedule[..|schedule| - 1], schedule[|schedule| - 1];
      Issued(capacity, before)
      + if e.OwnerStep? && Run(capacity, before).owner == Idle then [e.command] else []
  }

  predicate Answers(op: Op, command: Command) {
    match command
    case Push(item) => op == Pushed(item)
    case Pop => op.PoppedBack? || op.PoppedEmpty?
  }

  /** The call the owner is in the middle of. */
  predicate Doing(pc: OwnerPc, command: Command) {
    if Pushing(pc) then !pc.Idle? && command == Push(pc.item) else command == Pop
  }

  /**
   * The owner's calls, in order, are the owner's operations of the history: a push of x appears as the push of x, a
   * pop as a pop, and only a call that is still running may not have appeared yet.
   */
  lemma {:induction false} CallsAreAnswered(capacity: nat, schedule: seq<Event>)
    requires PowerOfTwo(capacity)
    ensures var s, calls := Run(capacity, schedule), Issued(capacity, schedule);
      && OwnerOps(s.log) == s.returned + Pending(s.owner)
      && |calls| == |s.returned| + (if s.owner == Idle then 0 else 1)
      && (s.owner != Idle ==> Doing(s.owner, calls[|s.returned|]))
      && forall k :: 0 <= k < |OwnerOps(s.log)| ==> k < |calls| && Answers(OwnerOps(s.log)[k], calls[k])
  {
    RunIsLinearizable(capacity, schedule);
    hide Replay, Contents, OwnerOps;
    if schedule != [] {
      var before, e := schedule[..|schedule| - 1], schedule[|schedule| - 1];
      CallsAreAnswered(capacity, before);
      RunIsLinearizable(capacity, before);
      StepKeepsCalls(Run(capacity, before), e, Issued(capacity, before));
    }
  }

  ghost predicate Called(s: State, calls: seq<Command>) {
    var ops := s.returned + Pending(s.owner);
    && |calls| == |s.returned| + (if s.owner == Idle then 0 else 1)
    && (s.owner != Idle ==> Doing(s.owner, calls[|s.returned|]))
    && forall k :: 0 <= k < |ops| ==> k < |calls| && Answers(ops[k], calls[k])
  }

  lemma {:induction false} StepKeepsCalls(s: State, e: Event, calls: seq<Command>)
    requires Inv(s) && Called(s, calls)
    ensures Called(Step(s, e), calls + if e.OwnerStep? && s.owner == Idle then [e.command] else [])
  {
    hide Replay, Contents, OwnerOps, StealersOk, Ring.Load, Ring.Store, SlotOf, PowerOfTwo;
    if e.OwnerStep? {
      OwnerKeepsCalls(s, e.command, calls);
    }
  }

  lemma {:induction false} OwnerKeepsCalls(s: State, command: Command, calls: seq<Command>)
    requires ArraysOk(s) && OwnerOk(s) && Called(s, calls)
    ensures Called(Owner(s, command), calls + if s.owner == Idle then [command] else [])
  {
    hide Ring.Store, SlotOf, PowerOfTwo;
  }

  /** A push doubles the ring exactly when the ring looks full to it, from the end it read and its copy of top. */
  lemma {:induction false} GrowsExactlyWhenFull(s: State, command: Command)
    requires Inv(s) && s.owner.PushLoadArray?
    ensures var pc, s' := s.owner, Owner(s, command);
      && (s'.owner.Copying? <==> pc.b == pc.t + s.Array().capacity)
      && (s'.owner.Copying? ==> s'.owner.bigger.capacity == 2 * s.Array().capacity)
      && (!s'.owner.Copying? ==> s'.owner == PushStore(pc.item, pc.b)) && s'.arrays == s.arrays
  {
    hide Replay, OwnerOps, Contents, StealersOk;
  }

  /** The stealer's own steps, n of them in a row. */
  function StealSteps(s: State, tid: nat, n: nat): (s': State)
    requires Inv(s)
    ensures Inv(s')
  {
    if n == 0 then s
    else
      var before := StealSteps(s, tid, n - 1);
      StepKeeps(before, StealerStep(tid));
      Step(before, StealerStep(tid))
  }

  /** An undisturbed steal takes the front if top is below bottom, and otherwise gives up at once. */
  lemma {:induction false} UndisturbedSteal(s: State, tid: nat)
    requires Inv(s) && s.Stealer(tid) == Resting
    ensures s.top < s.bottom ==>
              var s' := StealSteps(s, tid, 5);
              && Contents(s) != [] && s'.log == s.log + [Stolen(Contents(s)[0])]
              && s'.top == s.top + 1 && s'.Stealer(tid) == Resting && s'.bottom == s.bottom
    ensures s.top >= s.bottom ==>
              var s' := StealSteps(s, tid, 2);
              s'.log == s.log && s'.top == s.top && s'.Stealer(tid) == Resting
  {
    hide Inv, Step, StealSteps, Contents, OwnerOk, StealerOk, Ring.Load;
    InvGivesStealer(s, tid);
    NextStealStep(s, tid, 0);
    NextStealStep(s, tid, 1);
    if s.top < s.bottom {
      FirstItem(s);
      NextStealStep(s, tid, 2);
      NextStealStep(s, tid, 3);
      NextStealStep(s, tid, 4);
    }
  }

  lemma NextStealStep(s: State, tid: nat, n: nat)
    requires Inv(s)
    ensures var before := StealSteps(s, tid, n);
      && ArraysOk(before) && StealerOk(before, before.Stealer(tid))
      && StealSteps(s, tid, n + 1) == StealStep(before, tid)
    ensures n == 0 ==> StealSteps(s, tid, n) == s
  {
    hide Contents, Replay, OwnerOps, OwnerOk, StealerOk, StealStep;
    InvGivesStealer(StealSteps(s, tid, n), tid);
  }

  function PushedItem(op: Op): seq<Task> {
    match op
    case Pushed(x) => [x]
    case _ => []
  }

  function TakenItem(op: Op): seq<Task> {
    match op
    case PoppedBack(x) => [x]
    case Stolen(x) => [x]
    case _ => []
  }

  function PushedItems(log: seq<Op>): seq<Task> {
    if log == [] then [] else PushedItems(log[..|log| - 1]) + PushedItem(log[|log| - 1])
  }

  function TakenItems(log: seq<Op>): seq<Task> {
    if log == [] then [] else TakenItems(log[..|log| - 1]) + TakenItem(log[|log| - 1])
  }

  lemma {:induction false} LegalHistoryConserves(log: seq<Op>)
    requires Replay(log).Some?
    ensures multiset(PushedItems(log)) == multiset(TakenItems(log)) + multiset(Replay(log).value)
  {
    if log != [] {
      var before := log[..|log| - 1];
      LegalHistoryConserves(before);
      hide Apply, PushedItem, TakenItem;
      var op := log[|log| - 1];
      ApplyConserves(Replay(before).value, op);
      assert multiset(PushedItems(log)) == multiset(PushedItems(before)) + multiset(PushedItem(op));
      assert multiset(TakenItems(log)) == multiset(TakenItems(before)) + multiset(TakenItem(op));
      MoveBetween(multiset(PushedItems(before)), multiset(TakenItems(before)), multiset(Replay(before).value),
                  multiset(PushedItem(op)), multiset(TakenItem(op)), multiset(Replay(log).value));
    }
  }

  lemma {:induction false} MoveBetween(p: multiset<Task>, t: multiset<Task>, q: multiset<Task>,
                                       p1: multiset<Task>, t1: multiset<Task>, q1: multiset<Task>)
    requires p == t + q && q + p1 == q1 + t1
    ensures p + p1 == t + t1 + q1
  {
    assert p + p1 == t + (q + p1);
  }

  lemma {:induction false} ApplyConserves(q: seq<Task>, op: Op)
    requires Apply(q, op).Some?
    ensures multiset(q) + multiset(PushedItem(op)) == multiset(Apply(q, op).value) + multiset(TakenItem(op))
  {
    match op
    case PoppedBack(x) => assert q == q[..|q| - 1] + [x];
    case Stolen(x) => assert q == [x] + q[1..];
    case _ =>
  }

  /** Every pushed item is still there or was handed out exactly once, by pop or by steal. */
  lemma {:induction false} RunConserves(capacity: nat, schedule: seq<Event>)
    requires PowerOfTwo(capacity)
    ensures var s := Run(capacity, schedule);
      multiset(PushedItems(s.log)) == multiset(TakenItems(s.log)) + multiset(Contents(s))
  {
    var s := Run(capacity, schedule);
    assert Inv(s);
    LegalHistoryConserves(s.log);
  }

  /**
   * Growth never spoils a steal in flight: while the stealer's compare-and-swap can still succeed, the ring
   * it holds, current or retired, has the oldest item in slot t, and a copy already made is that item.
   */
  lemma {:induction false} StealInFlight(capacity: nat, schedule: seq<Event>, tid: nat)
    requires PowerOfTwo(capacity)
    ensures var s := Run(capacity, schedule);
      match s.Stealer(tid)
      case LoadItem(t, a) =>
        a < |s.arrays| && (s.top == t ==> Contents(s) != [] && s.arrays[a].Load(t) == Contents(s)[0])
      case Cas(t, item) => s.top == t ==> Contents(s) != [] && item == Contents(s)[0]
      case _ => true
  {
    hide Run, Step, Replay, OwnerOps, OwnerOk, Contents;
    var s := Run(capacity, schedule);
    InvGivesStealer(s, tid);
    if s.top < s.Limit() {
      FirstItem(s);
    }
  }

  lemma InvGivesStealer(s: State, tid: nat)
    requires Inv(s)
    ensures ArraysOk(s) && s.top <= s.Limit() && StealerOk(s, s.Stealer(tid))
  {
    hide Replay, OwnerOps, Contents;
  }

  lemma FirstItem(s: State)
    requires ArraysOk(s) && s.top < s.Limit()
    ensures Contents(s) != [] && Contents(s)[0] == s.Array().Load(s.top)
  {
  }

  /** A push never writes the slot of an index that is still in the deque, stale top_ or not. */
  lemma {:induction false} PushNeverWraps(capacity: nat, schedule: seq<Event>, i: nat)
    requires PowerOfTwo(capacity)
    ensures var s := Run(capacity, schedule);
      s.owner.PushStore? && s.top <= i < s.Limit()
      ==> SlotOf(i, s.Array().capacity) != SlotOf(s.owner.b, s.Array().capacity)
  {
    var s := Run(capacity, schedule);
    assert Inv(s);
    if s.owner.PushStore? && s.top <= i < s.Limit() {
      SlotsDistinct(i, s.owner.b, s.Array().capacity);
    }
  }

  /** Own steps the owner still needs to finish its call. */
  function Remaining(pc: OwnerPc): nat {
    match pc
    case Idle => 0
    case PushLoadTop(_, b) => b + 6
    case PushLoadArray(_, b, t) => if t <= b then b - t + 5 else 5
    case Copying(_, b, _, _, i) => if i <= b then b - i + 4 else 4
    case PushStore(_, _) => 2
    case PushPublish(_, _) => 1
    case PopLoadArray(_) => 6
    case PopStoreBottom(_) => 5
    case PopLoadTop(_) => 4
    case PopLoadLast(_) => 3
    case PopCas(_, _) => 2
    case PopTake(_, _) => 1
    case PopRestore(_, _) => 1
  }

  /** The owner is wait-free: each of its steps brings its call nearer to its end, whatever stealers do. */
  lemma {:induction false} OwnerIsWaitFree(s: State, command: Command)
    requires Inv(s) && s.owner != Idle
    ensures Remaining(Owner(s, command).owner) < Remaining(s.owner)
  {
    hide Replay, OwnerOps, StealersOk, Contents, Owner, Remaining;
    if Pushing(s.owner) {
      PushAdvances(s, command);
    } else {
      PopAdvances(s, command);
    }
  }

  lemma {:induction false} PushAdvances(s: State, command: Command)
    requires ArraysOk(s) && OwnerOk(s) && Pushing(s.owner)
    ensures s.owner != Idle ==> Remaining(Owner(s, command).owner) < Remaining(s.owner)
  {
    hide Ring.Load, Ring.Store, SlotOf, PowerOfTwo;
  }

  lemma {:induction false} PopAdvances(s: State, command: Command)
    requires ArraysOk(s) && OwnerOk(s) && !Pushing(s.owner)
    ensures s.owner != Idle ==> Remaining(Owner(s, command).owner) < Remaining(s.owner)
  {
    hide Ring.Load, Ring.Store, SlotOf, PowerOfTwo;
  }

  // ---------------------------------------------------------------- the class, calls undisturbed but for one rival

  class Deque {
    var top: nat
    var bottom: int
    var ring: array<Task>
    var garbage: seq<array<Task>>

    ghost predicate Valid()
      reads this
    {
      PowerOfTwo(ring.Length) && top <= bottom <= top + ring.Length && ring !in garbage
    }

    ghost function Store(): (r: Ring)
      requires PowerOfTwo(ring.Length)
      reads this, ring
      ensures r.Valid()
    {
      Ring(ring.Length, ring[..])
    }

    ghost function Items(): seq<Task>
      requires Valid()
      reads this, ring
    {
      Window(Store(), top, bottom)
    }

    constructor (capacity: nat)
      requires PowerOfTwo(capacity)
      ensures Valid() && Items() == [] && fresh(ring)
    {
      top, bottom, garbage := 0, 0, [];
      ring := new Task[capacity];
    }

    method Push(item: Task)
      requires Valid()
      modifies this, ring
      ensures Valid() && Items() == old(Items()) + [item]
      ensures top == old(top)
      ensures if old(bottom - top < ring.Length) then ring == old(ring) && garbage == old(garbage)
              else fresh(ring) && ring.Length == 2 * old(ring.Length) && garbage == old(garbage + [ring])
    {
      var b, t := bottom, top;
      if b - t > ring.Length - 1 {
        Resize(b, t);
      }
      ghost var before := Store();
      ring[SlotOf(b, ring.Length)] := item;
      bottom := b + 1;
      assert Store() == before.Store(b, item);
      forall i: nat
        ensures before.Store(b, item).Load(b) == item
        ensures t <= i < b ==> before.Store(b, item).Load(i) == before.Load(i)
      {
        LoadStore(before, b, item, i);
      }
      assert Items() == Window(before, t, b) + [item];
    }

    /** Doubles the ring, copying the live indices, and retires the old one. */
    method Resize(b: nat, t: nat)
      requires Valid() && b == bottom && t == top && b - t == ring.Length
      modifies this
      ensures Valid() && Items() == old(Items()) && top == old(top) && bottom == old(bottom)
      ensures fresh(ring) && ring.Length == 2 * old(ring.Length) && garbage == old(garbage + [ring])
    {
      var before := ring;
      ghost var r := Store();
      var bigger := new Task[2 * before.Length];
      var i := t;
      while i < b
        modifies bigger
        invariant t <= i <= b
        invariant forall j :: t <= j < i ==> Ring(bigger.Length, bigger[..]).Load(j) == r.Load(j)
      {
        ghost var was := Ring(bigger.Length, bigger[..]);
        bigger[SlotOf(i, bigger.Length)] := before[SlotOf(i, before.Length)];
        assert Ring(bigger.Length, bigger[..]) == was.Store(i, r.Load(i));
        forall j | t <= j <= i
          ensures was.Store(i, r.Load(i)).Load(j) == r.Load(j)
        {
          LoadStore(was, i, r.Load(i), j);
        }
        i := i + 1;
      }
      garbage := garbage + [before];
      ring := bigger;
      assert Items() == Window(r, t, b);
    }

    /** rival: whether a stealer takes the last item between the load of top and the compare-and-swap. */
    method Pop(rival: bool) returns (r: Option<Task>)
      requires Valid()
      modifies this
      ensures Valid() && ring == old(ring) && garbage == old(garbage)
      ensures if rival && |old(Items())| == 1
              then r == None && Apply(old(Items()), Stolen(old(Items())[0])) == Some(Items())
              else Apply(old(Items()), Result(r)) == Some(Items())
    {
      ghost var r0 := Store();
      var b := bottom - 1;
      bottom := b;
      var t := top;
      r := None;
      if t <= b {
        WindowEnds(r0, t, b + 1);
        r := Some(ring[SlotOf(b, ring.Length)]);
        if t == b {
          if rival {
            top := top + 1;
          }
          if top == t {
            top := t + 1;
          } else {
            r := None;
          }
          bottom := b + 1;
        }
      } else {
        bottom := b + 1;
      }
      assert Store() == r0;
      hide Ring.Load;
    }

    /** rival: whether another thread takes the front between the load of the item and the compare-and-swap. */
    method Steal(rival: bool) returns (r: Option<Task>)
      requires Valid()
      modifies this
      ensures Valid() && ring == old(ring) && bottom == old(bottom) && garbage == old(garbage)
      ensures match r
        case None => if old(Items()) == [] then Items() == []
                     else rival && Apply(old(Items()), Stolen(old(Items())[0])) == Some(Items())
        case Some(x) => !rival && Apply(old(Items()), Stolen(x)) == Some(Items())
    {
      ghost var r0 := Store();
      var t, b := top, bottom;
      r := None;
      if t < b {
        WindowEnds(r0, t, b);
        r := Some(ring[SlotOf(t, ring.Length)]);
        if rival {
          top := top + 1;
        }
        if top == t {
          top := t + 1;
        } else {
          r := None;
        }
      }
      assert Store() == r0;
    }
  }
}
