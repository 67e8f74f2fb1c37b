/**
 * The ticketed multi-producer multi-consumer ring as a step machine: any number of threads, every atomic
 * access and every access to slot storage a step of its own, interleaved sequentially consistently. A weak
 * compare-and-swap may fail for no reason.
 */
module MpmcQueue {
  import opened Bits
  import opened Wrappers
  import Fifo

  type Item = int

  datatype Slot = Slot(sequence: nat, storage: Option<Item>)

  datatype Outcome = NoCall | Accepted(ticket: nat) | Refused | Got(ticket: nat, item: Item) | Nothing

  datatype Pc =
    | Idle(last: Outcome)
    | EmplaceLoad(item: Item)
    | EmplaceRead(item: Item, pos: nat)
    | EmplaceCas(item: Item, pos: nat)
    | Construct(item: Item, pos: nat)
    | Publish(pos: nat)
    | PopLoad
    | PopRead(pos: nat)
    | PopCas(pos: nat)
    | Move(pos: nat)
    | Release(pos: nat, item: Item)

  /**
   * The queue's memory and threads; and, recorded beside them, the value each ticket was claimed for,
   * which thread claimed it on either side, and which tickets were published and released.
   */
  datatype State = State(
    slots: seq<Slot>, enqueuePos: nat, dequeuePos: nat, threads: map<nat, Pc>,
    values: seq<Item>, producer: seq<nat>, consumer: seq<nat>,
    published: set<nat>, released: set<nat>)
  {
    function Capacity(): nat { |slots| }

    function Thread(tid: nat): Pc {
      if tid in threads then threads[tid] else Idle(NoCall)
    }

    function At(ticket: nat): Slot
      requires PowerOfTwo(|slots|)
    {
      slots[SlotOf(ticket, |slots|)]
    }

    function Goto(tid: nat, pc: Pc): State {
      this.(threads := threads[tid := pc])
    }

    function Put(ticket: nat, slot: Slot): State
      requires PowerOfTwo(|slots|)
    {
      this.(slots := slots[SlotOf(ticket, |slots|) := slot])
    }
  }

  datatype Command = Emplace(item: Item) | TryPop

  /** One step of a thread; command is used only by an idle thread, spurious only by a compare-and-swap. */
  datatype Event = Event(tid: nat, command: Command, spurious: bool)

  predicate ValidCapacity(capacity: nat) {
    capacity >= 2 && PowerOfTwo(capacity)
  }

  function Init(capacity: nat): State {
    State(seq(capacity, i requires 0 <= i < capacity => Slot(i, None)), 0, 0, map[], [], [], [], {}, {})
  }

  function ClaimEnqueue(s: State, tid: nat, x: Item): State {
    s.(enqueuePos := s.enqueuePos + 1, values := s.values + [x], producer := s.producer + [tid])
     .Goto(tid, Construct(x, s.enqueuePos))
  }

  function ClaimDequeue(s: State, tid: nat): State {
    s.(dequeuePos := s.dequeuePos + 1, consumer := s.consumer + [tid]).Goto(tid, Move(s.dequeuePos))
  }

  function Step(s: State, e: Event): (s': State)
    requires PowerOfTwo(s.Capacity())
    ensures s'.Capacity() == s.Capacity()
  {
    match s.Thread(e.tid)
    case Idle(_) =>
      (match e.command
       case Emplace(x) => s.Goto(e.tid, EmplaceLoad(x))
       case TryPop => s.Goto(e.tid, PopLoad))
    case EmplaceLoad(x) => s.Goto(e.tid, EmplaceRead(x, s.enqueuePos))
    case EmplaceRead(x, pos) =>
      var seqNo := s.At(pos).sequence;
      s.Goto(e.tid, if seqNo == pos then EmplaceCas(x, pos)
                    else if seqNo < pos then Idle(Refused)
                    else EmplaceLoad(x))
    case EmplaceCas(x, pos) =>
      if s.enqueuePos == pos && !e.spurious then ClaimEnqueue(s, e.tid, x)
      else s.Goto(e.tid, EmplaceRead(x, s.enqueuePos))
    case Construct(x, pos) => s.Put(pos, s.At(pos).(storage := Some(x))).Goto(e.tid, Publish(pos))
    case Publish(pos) =>
      s.(published := s.published + {pos}).Put(pos, s.At(pos).(sequence := pos + 1))
       .Goto(e.tid, Idle(Accepted(pos)))
    case PopLoad => s.Goto(e.tid, PopRead(s.dequeuePos))
    case PopRead(pos) =>
      var seqNo := s.At(pos).sequence;
      s.Goto(e.tid, if seqNo == pos + 1 then PopCas(pos)
                    else if seqNo < pos + 1 then Idle(Nothing)
                    else PopLoad)
    case PopCas(pos) =>
      if s.dequeuePos == pos && !e.spurious then ClaimDequeue(s, e.tid)
      else s.Goto(e.tid, PopRead(s.dequeuePos))
    case Move(pos) =>
      (match s.At(pos).storage
       case None => s  // the invariant excludes a move from raw storage
       case Some(x) => s.Put(pos, s.At(pos).(storage := None)).Goto(e.tid, Release(pos, x)))
    case Release(pos, x) =>
      s.(released := s.released + {pos}).Put(pos, s.At(pos).(sequence := pos + s.Capacity()))
       .Goto(e.tid, Idle(Got(pos, x)))
  }

  // ---------------------------------------------------------------- invariant

  /** A thread's own view: its position is not from the future, its claim is recorded, its reading still binds. */
  ghost predicate ThreadOk(s: State, tid: nat, pc: Pc)
    requires ValidCapacity(s.Capacity()) && s.dequeuePos <= s.enqueuePos == |s.values| == |s.producer|
    requires s.dequeuePos == |s.consumer|
  {
    match pc
    case EmplaceRead(_, pos) => pos <= s.enqueuePos
    case EmplaceCas(_, pos) => pos <= s.enqueuePos && (pos == s.enqueuePos ==> Free(s, pos))
    case Construct(x, pos) =>
      && pos < s.enqueuePos && pos !in s.published && s.producer[pos] == tid
      && s.values[pos] == x && s.At(pos).storage == None
    case Publish(pos) =>
      && pos < s.enqueuePos && pos !in s.published && s.producer[pos] == tid
      && s.At(pos).storage == Some(s.values[pos])
    case PopRead(pos) => pos <= s.dequeuePos
    case PopCas(pos) => pos <= s.dequeuePos && (pos == s.dequeuePos ==> pos in s.published)
    case Move(pos) =>
      && pos < s.dequeuePos && pos !in s.released && s.consumer[pos] == tid
      && s.At(pos).storage == Some(s.values[pos])
    case Release(pos, x) =>
      && pos < s.dequeuePos && pos !in s.released && s.consumer[pos] == tid
      && s.values[pos] == x && s.At(pos).storage == None
    case Idle(Got(pos, x)) => pos < s.dequeuePos && pos in s.released && x == s.values[pos] && s.consumer[pos] == tid
    case Idle(Accepted(pos)) => pos < s.enqueuePos && pos in s.published && s.producer[pos] == tid
    case _ => true
  }

  /** The ticket that used the slot one lap earlier has been released, or there was none. */
  ghost predicate Free(s: State, ticket: nat) {
    ticket < s.Capacity() || ticket - s.Capacity() in s.released
  }

  predicate Producing(pc: Pc, ticket: nat) {
    (pc.Construct? || pc.Publish?) && pc.pos == ticket
  }

  predicate Consuming(pc: Pc, ticket: nat) {
    (pc.Move? || pc.Release?) && pc.pos == ticket
  }

  ghost predicate Counters(s: State) {
    && ValidCapacity(s.Capacity())
    && s.dequeuePos <= s.enqueuePos <= s.dequeuePos + s.Capacity()
    && |s.values| == |s.producer| == s.enqueuePos && |s.consumer| == s.dequeuePos
  }

  /** Whether a ticket has been published and released, and if not, who still holds it. */
  ghost predicate TicketOk(s: State, p: nat)
    requires Counters(s)
  {
    && (p in s.published ==> p < s.enqueuePos)
    && (p in s.released ==> p < s.dequeuePos)
    && (p < s.dequeuePos ==> p in s.published)
    && (p < s.enqueuePos ==> Free(s, p))
    && (p < s.enqueuePos && p !in s.published ==> Producing(s.Thread(s.producer[p]), p))
    && (p < s.dequeuePos && p !in s.released ==> Consuming(s.Thread(s.consumer[p]), p))
    && (p in s.published ==> s.At(p).sequence >= p + 1)
    && (p in s.released ==> s.At(p).sequence >= p + s.Capacity())
  }

  /** What the sequence number of the slot for a ticket of the current window must be. */
  ghost function ExpectedSequence(s: State, p: nat): int {
    if p < s.enqueuePos then (if p in s.published then p + 1 else p)
    else (if Free(s, p) then p else p - s.Capacity() + 1)
  }

  ghost predicate InWindow(s: State, p: nat) {
    s.dequeuePos <= p < s.dequeuePos + s.Capacity()
  }

  ghost predicate WindowOk(s: State, p: nat)
    requires Counters(s)
  {
    && s.At(p).sequence == ExpectedSequence(s, p)
    && (p < s.enqueuePos && p in s.published ==> s.At(p).storage == Some(s.values[p]))
    && (p >= s.enqueuePos && Free(s, p) ==> s.At(p).storage == None)
  }

  ghost predicate Slots(s: State)
    requires Counters(s)
  {
    && (forall p: nat :: TicketOk(s, p))
    && (forall p: nat :: InWindow(s, p) ==> WindowOk(s, p))
  }

  ghost predicate Threads(s: State)
    requires Counters(s)
  {
    forall tid :: tid in s.threads ==> ThreadOk(s, tid, s.threads[tid])
  }

  ghost predicate Inv(s: State) {
    Counters(s) && Slots(s) && Threads(s)
  }

  // ---------------------------------------------------------------- holders of a ticket exclude each other

  predicate Holding(pc: Pc, ticket: nat) {
    Producing(pc, ticket) || Consuming(pc, ticket)
  }

  lemma {:induction false} HolderSequence(s: State, tid: nat, p: nat)
    requires Inv(s)
    ensures Producing(s.Thread(tid), p) ==>
              s.At(p).sequence == p && InWindow(s, p) && p < s.enqueuePos && p !in s.published
    ensures Consuming(s.Thread(tid), p) ==>
              s.At(p).sequence == p + 1 && p < s.dequeuePos && p !in s.released
              && InWindow(s, p + s.Capacity()) && s.enqueuePos <= p + s.Capacity()
  {
    SlotLap(p, s.Capacity());
    assert TicketOk(s, p);
    if Producing(s.Thread(tid), p) {
      assert ThreadOk(s, tid, s.threads[tid]);
      assert WindowOk(s, p);
    } else if Consuming(s.Thread(tid), p) {
      assert ThreadOk(s, tid, s.threads[tid]);
      assert TicketOk(s, p + s.Capacity());
      assert WindowOk(s, p + s.Capacity());
    }
  }

  /** Two threads never own the storage of one slot together. */
  lemma {:induction false} StorageIsExclusive(s: State, t: nat, p: nat, u: nat, q: nat)
    requires Inv(s) && t != u && Holding(s.Thread(t), p) && Holding(s.Thread(u), q)
    ensures SlotOf(p, s.Capacity()) != SlotOf(q, s.Capacity())
  {
    HolderSequence(s, t, p);
    HolderSequence(s, u, q);
    assert ThreadOk(s, t, s.threads[t]) && ThreadOk(s, u, s.threads[u]);
    if p != q {
      if s.At(p).sequence == s.At(q).sequence || p == q + 1 || q == p + 1 {
        SlotsDistinct(p, q, s.Capacity());
      }
    }
  }

  // ---------------------------------------------------------------- preservation

  /** Steps that touch only the thread's own position. */
  lemma {:induction false} GotoKeeps(s: State, tid: nat, pc: Pc)
    requires Inv(s) && ThreadOk(s, tid, pc)
    requires forall p: nat :: !Holding(s.Thread(tid), p)
    ensures Inv(s.Goto(tid, pc))
  {
    var s' := s.Goto(tid, pc);
    forall p: nat
      ensures TicketOk(s', p)
      ensures InWindow(s', p) ==> WindowOk(s', p)
    {
      assert TicketOk(s, p);
      assert !Holding(s.Thread(tid), p);
      assert InWindow(s, p) ==> WindowOk(s, p);
    }
    forall u | u in s'.threads
      ensures ThreadOk(s', u, s'.threads[u])
    {
      assert ThreadOk(s, u, s'.threads[u]);
    }
  }

  /** A sequence number read equal to an unclaimed position shows that its slot is free. */
  lemma {:induction false} ReadingShowsFree(s: State, pos: nat)
    requires Inv(s) && pos == s.enqueuePos && s.At(pos).sequence == pos
    ensures Free(s, pos) && InWindow(s, pos)
  {
    SlotLap(s.dequeuePos, s.Capacity());
    assert WindowOk(s, s.dequeuePos);
    if InWindow(s, pos) {
      assert WindowOk(s, pos);
    }
  }

  /** A sequence number read one past an unclaimed position shows that its ticket is published. */
  lemma {:induction false} ReadingShowsPublished(s: State, pos: nat)
    requires Inv(s) && pos == s.dequeuePos && s.At(pos).sequence == pos + 1
    ensures pos in s.published
  {
    assert WindowOk(s, pos);
  }

  lemma {:induction false} ClaimEnqueueSlots(s: State, tid: nat, x: Item)
    requires Inv(s) && s.Thread(tid) == EmplaceCas(x, s.enqueuePos)
    ensures Counters(ClaimEnqueue(s, tid, x)) && Slots(ClaimEnqueue(s, tid, x))
  {
    var pos, s' := s.enqueuePos, ClaimEnqueue(s, tid, x);
    assert ThreadOk(s, tid, s.threads[tid]);
    if pos >= s.Capacity() {
      assert TicketOk(s, pos - s.Capacity());
    }
    assert TicketOk(s, pos);
    assert WindowOk(s, pos);
    forall p: nat
      ensures TicketOk(s', p)
      ensures InWindow(s', p) ==> WindowOk(s', p)
    {
      assert TicketOk(s, p);
      assert InWindow(s, p) ==> WindowOk(s, p);
    }
  }

  lemma {:induction false} ClaimEnqueueKeeps(s: State, tid: nat, x: Item)
    requires Inv(s) && s.Thread(tid) == EmplaceCas(x, s.enqueuePos)
    ensures Inv(ClaimEnqueue(s, tid, x))
  {
    ClaimEnqueueSlots(s, tid, x);
    assert ThreadOk(s, tid, s.threads[tid]) && WindowOk(s, s.enqueuePos) && TicketOk(s, s.enqueuePos);
    if s.enqueuePos >= s.Capacity() {
      assert TicketOk(s, s.enqueuePos - s.Capacity());
    }
    var s' := ClaimEnqueue(s, tid, x);
    forall u | u in s'.threads
      ensures ThreadOk(s', u, s'.threads[u])
    {
      if u != tid {
        assert ThreadOk(s, u, s.threads[u]);
      }
    }
  }

  lemma {:induction false} ClaimDequeueSlots(s: State, tid: nat)
    requires Inv(s) && s.Thread(tid) == PopCas(s.dequeuePos)
    ensures Counters(ClaimDequeue(s, tid)) && Slots(ClaimDequeue(s, tid))
  {
    var pos, s' := s.dequeuePos, ClaimDequeue(s, tid);
    var q := pos + s.Capacity();
    assert ThreadOk(s, tid, s.threads[tid]);
    SlotLap(pos, s.Capacity());
    assert TicketOk(s, pos) && TicketOk(s, q) && WindowOk(s, pos);
    forall p: nat
      ensures TicketOk(s', p)
      ensures InWindow(s', p) ==> WindowOk(s', p)
    {
      assert TicketOk(s, p);
      assert InWindow(s, p) ==> WindowOk(s, p);
    }
  }

  lemma {:induction false} ClaimDequeueKeeps(s: State, tid: nat)
    requires Inv(s) && s.Thread(tid) == PopCas(s.dequeuePos)
    ensures Inv(ClaimDequeue(s, tid))
  {
    ClaimDequeueSlots(s, tid);
    assert ThreadOk(s, tid, s.threads[tid]) && WindowOk(s, s.dequeuePos);
    assert TicketOk(s, s.dequeuePos);
    var s' := ClaimDequeue(s, tid);
    forall u | u in s'.threads
      ensures ThreadOk(s', u, s'.threads[u])
    {
      if u != tid {
        assert ThreadOk(s, u, s.threads[u]);
      }
    }
  }

  /** s' is s after the holder of ticket p wrote slot and moved on. */
  ghost predicate HolderWrote(s: State, tid: nat, p: nat, slot: Slot, s': State)
    requires Counters(s)
  {
    && Holding(s.Thread(tid), p)
    && s'.slots == s.Put(p, slot).slots && s'.enqueuePos == s.enqueuePos && s'.dequeuePos == s.dequeuePos
    && s'.values == s.values && s'.producer == s.producer && s'.consumer == s.consumer
    && s'.threads == s.threads[tid := s'.Thread(tid)]
    && s'.published == (if s.Thread(tid).Publish? then s.published + {p} else s.published)
    && s'.released == (if s.Thread(tid).Release? then s.released + {p} else s.released)
  }

  lemma {:induction false} OtherThreadsKeep(s: State, tid: nat, p: nat, slot: Slot, s': State)
    requires Inv(s) && HolderWrote(s, tid, p, slot, s') && ThreadOk(s', tid, s'.Thread(tid))
    ensures Threads(s')
  {
    forall u | u in s'.threads
      ensures ThreadOk(s', u, s'.threads[u])
    {
      if u != tid {
        var pc := s.threads[u];
        assert ThreadOk(s, u, pc);
        assert ThreadOk(s, tid, s.threads[tid]);
        if Busy(pc) {
          StorageIsExclusive(s, tid, p, u, pc.pos);
        }
      }
    }
  }

  /** The window ticket whose slot the holder of p writes. */
  function WindowTicket(s: State, tid: nat, p: nat): nat {
    if Producing(s.Thread(tid), p) then p else p + s.Capacity()
  }

  lemma {:induction false} OtherSlotsKeep(s: State, tid: nat, p: nat, slot: Slot, s': State)
    requires Inv(s) && HolderWrote(s, tid, p, slot, s')
    requires slot.sequence >= s.At(p).sequence
    requires WindowOk(s', WindowTicket(s, tid, p)) && TicketOk(s', p)
    ensures Slots(s')
  {
    forall q: nat
      ensures TicketOk(s', q)
      ensures InWindow(s', q) ==> WindowOk(s', q)
    {
      OtherTicketKeeps(s, tid, p, slot, s', q);
      OtherWindowKeeps(s, tid, p, slot, s', q);
    }
  }

  lemma {:induction false} OtherTicketKeeps(s: State, tid: nat, p: nat, slot: Slot, s': State, q: nat)
    requires Inv(s) && HolderWrote(s, tid, p, slot, s')
    requires slot.sequence >= s.At(p).sequence && TicketOk(s', p)
    ensures TicketOk(s', q)
  {
    hide WindowOk, InWindow;
    assert TicketOk(s, q);
  }

  lemma {:induction false} OtherWindowKeeps(s: State, tid: nat, p: nat, slot: Slot, s': State, q: nat)
    requires Inv(s) && HolderWrote(s, tid, p, slot, s')
    requires WindowOk(s', WindowTicket(s, tid, p))
    ensures InWindow(s', q) ==> WindowOk(s', q)
  {
    var w := WindowTicket(s, tid, p);
    HolderSequence(s, tid, p);
    SlotLap(p, s.Capacity());
    hide TicketOk, ThreadOk;
    if q != w && InWindow(s, q) {
      assert WindowOk(s, q);
      SlotsDistinct(q, w, s.Capacity());
    }
  }

  predicate Busy(pc: Pc) {
    pc.Construct? || pc.Publish? || pc.Move? || pc.Release?
  }

  lemma {:induction false} HolderStepWrites(s: State, e: Event)
    requires Inv(s) && Busy(s.Thread(e.tid))
    ensures var s', p := Step(s, e), s.Thread(e.tid).pos;
      HolderWrote(s, e.tid, p, s'.At(p), s') && ThreadOk(s', e.tid, s'.Thread(e.tid))
  {
    assert ThreadOk(s, e.tid, s.threads[e.tid]);
  }

  lemma {:induction false} HolderStepWindow(s: State, e: Event)
    requires Inv(s) && Busy(s.Thread(e.tid))
    ensures var s', p := Step(s, e), s.Thread(e.tid).pos;
      && Counters(s') && WindowOk(s', WindowTicket(s, e.tid, p)) && TicketOk(s', p)
      && s'.At(p).sequence >= s.At(p).sequence
  {
    var p := s.Thread(e.tid).pos;
    HolderSequence(s, e.tid, p);
    SlotLap(p, s.Capacity());
    assert ThreadOk(s, e.tid, s.threads[e.tid]);
    assert TicketOk(s, p) && TicketOk(s, p + s.Capacity());
    assert WindowOk(s, WindowTicket(s, e.tid, p));
  }

  lemma {:induction false} HolderStepKeeps(s: State, e: Event)
    requires Inv(s) && Busy(s.Thread(e.tid))
    ensures Inv(Step(s, e))
  {
    var s', p := Step(s, e), s.Thread(e.tid).pos;
    HolderStepWrites(s, e);
    HolderStepWindow(s, e);
    hide Step, WindowOk, TicketOk;
    OtherThreadsKeep(s, e.tid, p, s'.At(p), s');
    OtherSlotsKeep(s, e.tid, p, s'.At(p), s');
  }

  lemma {:induction false} StepKeeps(s: State, e: Event)
    requires Inv(s)
    ensures Inv(Step(s, e))
  {
    var pc := s.Thread(e.tid);
    if e.tid in s.threads {
      assert ThreadOk(s, e.tid, s.threads[e.tid]);
    }
    if Busy(pc) {
      HolderStepKeeps(s, e);
    } else if pc.EmplaceCas? && s.enqueuePos == pc.pos && !e.spurious {
      ClaimEnqueueKeeps(s, e.tid, pc.item);
    } else if pc.PopCas? && s.dequeuePos == pc.pos && !e.spurious {
      ClaimDequeueKeeps(s, e.tid);
    } else {
      if pc.EmplaceRead? && pc.pos == s.enqueuePos == s.At(pc.pos).sequence {
        ReadingShowsFree(s, pc.pos);
      } else if pc.PopRead? && pc.pos == s.dequeuePos && s.At(pc.pos).sequence == pc.pos + 1 {
        ReadingShowsPublished(s, pc.pos);
      }
      GotoKeeps(s, e.tid, Step(s, e).Thread(e.tid));
    }
  }

  // ---------------------------------------------------------------- every run

  function Run(capacity: nat, schedule: seq<Event>): (s: State)
    requires ValidCapacity(capacity)
    ensures Inv(s)
  {
    if schedule == [] then
      InitOk(capacity);
      Init(capacity)
    else
      var before := Run(capacity, schedule[..|schedule| - 1]);
      StepKeeps(before, schedule[|schedule| - 1]);
      Step(before, schedule[|schedule| - 1])
  }

  lemma {:induction false} InitOk(capacity: nat)
    requires ValidCapacity(capacity)
    ensures Inv(Init(capacity))
  {
    var s := Init(capacity);
    forall p: nat
      ensures TicketOk(s, p)
      ensures InWindow(s, p) ==> WindowOk(s, p)
    {
      SlotIsModulo(p, capacity);
    }
  }

  /** The abstract FIFO: values whose ticket is claimed on the producing side only. */
  function Contents(s: State): seq<Item>
    requires s.dequeuePos <= |s.values|
  {
    s.values[s.dequeuePos..]
  }

  /** Every step leaves the FIFO alone, appends the producer's own value, or removes the front for a consumer. */
  lemma {:induction false} StepRefinesFifo(s: State, e: Event)
    requires Inv(s)
    ensures var s' := Step(s, e);
      var pc, pc' := s.Thread(e.tid), s'.Thread(e.tid);
      && s'.dequeuePos <= |s'.values|
      && if !pc.Construct? && pc'.Construct? then
           pc.EmplaceCas? && |Contents(s)| < s.Capacity() && Contents(s') == Contents(s) + [pc.item]
         else if !pc.Move? && pc'.Move? then
           Contents(s) != [] && Contents(s') == Contents(s)[1..] && pc'.pos == s.dequeuePos
           && s.values[pc'.pos] == Contents(s)[0]
         else Contents(s') == Contents(s)
  {
    StepKeeps(s, e);
    if e.tid in s.threads {
      assert ThreadOk(s, e.tid, s.threads[e.tid]);
    }
    assert TicketOk(s, s.dequeuePos);
  }

  /** What a step does to the queue: a claimed ticket enters its value or takes the front. */
  function EffectOf(s: State, e: Event): Fifo.Effect<Item>
    requires PowerOfTwo(s.Capacity()) && s.dequeuePos <= |s.values|
  {
    var pc, pc' := s.Thread(e.tid), Step(s, e).Thread(e.tid);
    if pc.EmplaceCas? && pc'.Construct? then Fifo.In(pc.item)
    else if pc.PopCas? && pc'.Move? && Contents(s) != [] then Fifo.Out(Contents(s)[0])
    else Fifo.Quiet
  }

  ghost function Effects(capacity: nat, schedule: seq<Event>): (history: seq<Fifo.Effect<Item>>)
    requires ValidCapacity(capacity)
  {
    if schedule == [] then []
    else
      var before := schedule[..|schedule| - 1];
      Effects(capacity, before) + [EffectOf(Run(capacity, before), schedule[|schedule| - 1])]
  }

  /** Every run of the ring is a legal history of a bounded queue, which it leaves with the same contents. */
  lemma {:induction false} RunIsFifoHistory(capacity: nat, schedule: seq<Event>)
    requires ValidCapacity(capacity)
    ensures Fifo.Replay(Effects(capacity, schedule), capacity) == Some(Contents(Run(capacity, schedule)))
  {
    if schedule != [] {
      var before, e := schedule[..|schedule| - 1], schedule[|schedule| - 1];
      var s, history := Run(capacity, before), Effects(capacity, before);
      RunIsFifoHistory(capacity, before);
      RunCapacity(capacity, before);
      StepIsFifoStep(s, e);
      assert (history + [EffectOf(s, e)])[..|history|] == history;
    }
  }

  lemma {:induction false} EffectsLength(capacity: nat, schedule: seq<Event>)
    requires ValidCapacity(capacity)
    ensures |Effects(capacity, schedule)| == |schedule|
  {
    if schedule != [] {
      EffectsLength(capacity, schedule[..|schedule| - 1]);
    }
  }

  lemma {:induction false} RunCapacity(capacity: nat, schedule: seq<Event>)
    requires ValidCapacity(capacity)
    ensures Run(capacity, schedule).Capacity() == capacity
  {
    if schedule != [] {
      RunCapacity(capacity, schedule[..|schedule| - 1]);
    }
  }

  lemma {:induction false} StepIsFifoStep(s: State, e: Event)
    requires Inv(s)
    ensures Step(s, e).dequeuePos <= |Step(s, e).values|
    ensures Fifo.Apply(Contents(s), EffectOf(s, e), s.Capacity()) == Some(Contents(Step(s, e)))
  {
    hide Inv;
    InvCounters(s);
    StepRefinesFifo(s, e);
  }

  lemma InvCounters(s: State)
    requires Inv(s)
    ensures Counters(s)
  {
  }

  /**
   * A finished try_pop that got ticket p returns the value the producer of ticket p passed in, the ticket is
   * its own, and the counters stay within one capacity.
   */
  lemma {:induction false} PopReturnsItsTicketsValue(capacity: nat, schedule: seq<Event>, tid: nat)
    requires ValidCapacity(capacity)
    ensures var s := Run(capacity, schedule);
      && s.dequeuePos <= s.enqueuePos <= s.dequeuePos + s.Capacity()
      && |s.values| == |s.producer| == s.enqueuePos && |s.consumer| == s.dequeuePos
      && match s.Thread(tid)
         case Idle(Got(p, x)) => p < s.dequeuePos && x == s.values[p] && s.consumer[p] == tid && p in s.released
         case Idle(Accepted(p)) => p < s.enqueuePos && s.producer[p] == tid && p in s.published
         case _ => true
  {
    var s := Run(capacity, schedule);
    assert Inv(s);
    if tid in s.threads {
      assert ThreadOk(s, tid, s.threads[tid]);
    }
  }

  /** A failed compare-and-swap starts the attempt over at the position it found; a lost slot at a fresh load. */
  lemma {:induction false} RetriesAtTheFoundPosition(s: State, e: Event)
    requires Inv(s)
    ensures match s.Thread(e.tid)
      case EmplaceCas(x, pos) =>
        (pos != s.enqueuePos || e.spurious) ==> Step(s, e) == s.Goto(e.tid, EmplaceRead(x, s.enqueuePos))
      case PopCas(pos) => (pos != s.dequeuePos || e.spurious) ==> Step(s, e) == s.Goto(e.tid, PopRead(s.dequeuePos))
      case EmplaceRead(x, pos) => s.At(pos).sequence > pos ==> Step(s, e) == s.Goto(e.tid, EmplaceLoad(x))
      case PopRead(pos) => s.At(pos).sequence > pos + 1 ==> Step(s, e) == s.Goto(e.tid, PopLoad)
      case _ => true
  {
  }

  /** The call each thread has begun last: the command of its step taken while it was idle. */
  function LastCall(capacity: nat, schedule: seq<Event>, tid: nat): Option<Command>
    requires ValidCapacity(capacity)
  {
    if schedule == [] then None
    else
      var before, e := schedule[..|schedule| - 1], schedule[|schedule| - 1];
      if e.tid == tid && Run(capacity, before).Thread(tid).Idle? then Some(e.command)
      else LastCall(capacity, before, tid)
  }

  /** What a thread is doing, or has done, is its call: an emplace carries its argument all the way to its ticket. */
  predicate Serves(values: seq<Item>, pc: Pc, call: Option<Command>) {
    match pc
    case EmplaceLoad(x) => call == Some(Emplace(x))
    case EmplaceRead(x, _) => call == Some(Emplace(x))
    case EmplaceCas(x, _) => call == Some(Emplace(x))
    case Construct(x, _) => call == Some(Emplace(x))
    case Publish(pos) => pos < |values| && call == Some(Emplace(values[pos]))
    case Idle(Accepted(pos)) => pos < |values| && call == Some(Emplace(values[pos]))
    case Idle(Refused) => call.Some? && call.value.Emplace?
    case Idle(NoCall) => call == None
    case _ => call == Some(TryPop)
  }

  /** Over every run, whatever retries and refusals, an accepted emplace of x has x under its ticket. */
  lemma {:induction false} CallsKeepTheirArgument(capacity: nat, schedule: seq<Event>, tid: nat)
    requires ValidCapacity(capacity)
    ensures var s := Run(capacity, schedule); Serves(s.values, s.Thread(tid), LastCall(capacity, schedule, tid))
  {
    if schedule != [] {
      var before, e := schedule[..|schedule| - 1], schedule[|schedule| - 1];
      CallsKeepTheirArgument(capacity, before, tid);
      StepServes(Run(capacity, before), e, tid, LastCall(capacity, before, tid));
    }
  }

  lemma {:induction false} StepServes(s: State, e: Event, tid: nat, call: Option<Command>)
    requires Inv(s) && Serves(s.values, s.Thread(tid), call)
    ensures var s' := Step(s, e);
      Serves(s'.values, s'.Thread(tid), if e.tid == tid && s.Thread(tid).Idle? then Some(e.command) else call)
  {
    hide Slots, Threads;
    if e.tid == tid && tid in s.threads {
      ThreadIsOk(s, tid);
    }
  }

  lemma ThreadIsOk(s: State, tid: nat)
    requires Inv(s) && tid in s.threads
    ensures ThreadOk(s, tid, s.threads[tid])
  {
  }

  /** A ticket is claimed once on each side and its value never changes afterwards. */
  lemma {:induction false} TicketsAreServedOnce(s: State, e: Event)
    requires Inv(s)
    ensures var s' := Step(s, e);
      && s.values <= s'.values && s.producer <= s'.producer && s.consumer <= s'.consumer
      && s.published <= s'.published && s.released <= s'.released
      && (s.Thread(e.tid).Publish? ==> s.Thread(e.tid).pos !in s.published)
      && (s.Thread(e.tid).Release? ==> s.Thread(e.tid).pos !in s.released)
  {
    if e.tid in s.threads {
      assert ThreadOk(s, e.tid, s.threads[e.tid]);
    }
  }

  // ---------------------------------------------------------------- refusals

  /** emplace gives up exactly when the ticket one lap before its position has not been released. */
  lemma {:induction false} EmplaceRefusal(s: State, e: Event)
    requires Inv(s) && s.Thread(e.tid).EmplaceRead?
    ensures var pos := s.Thread(e.tid).pos;
      Step(s, e).Thread(e.tid) == Idle(Refused) <==> !Free(s, pos)
  {
    var pos := s.Thread(e.tid).pos;
    assert ThreadOk(s, e.tid, s.threads[e.tid]);
    assert TicketOk(s, pos);
    if pos >= s.Capacity() {
      SlotLap(pos - s.Capacity(), s.Capacity());
      assert TicketOk(s, pos - s.Capacity());
    }
    if InWindow(s, pos) {
      assert WindowOk(s, pos);
    } else if pos == s.enqueuePos {
      SlotLap(s.dequeuePos, s.Capacity());
      assert WindowOk(s, s.dequeuePos);
    } else {
      EarlierTicketSequence(s, pos);
    }
  }

  /** The slot of a ticket that has left the window has moved past it. */
  lemma {:induction false} EarlierTicketSequence(s: State, pos: nat)
    requires Inv(s) && pos < s.dequeuePos
    ensures s.At(pos).sequence > pos
  {
    assert TicketOk(s, pos);
  }

  /** try_pop gives up exactly when the ticket at its position has not been published. */
  lemma {:induction false} PopRefusal(s: State, e: Event)
    requires Inv(s) && s.Thread(e.tid).PopRead?
    ensures var pos := s.Thread(e.tid).pos;
      Step(s, e).Thread(e.tid) == Idle(Nothing) <==> pos !in s.published
  {
    var pos := s.Thread(e.tid).pos;
    assert ThreadOk(s, e.tid, s.threads[e.tid]);
    assert TicketOk(s, pos);
    if pos == s.dequeuePos {
      assert WindowOk(s, pos);
    }
  }

  ghost predicate Quiescent(s: State) {
    forall tid: nat :: s.Thread(tid).Idle?
  }

  /** With no call in flight a refusal means exactly full, and an empty-handed pop exactly empty. */
  lemma {:induction false} QuiescentRefusals(s: State)
    requires Inv(s) && Quiescent(s)
    ensures s.At(s.enqueuePos).sequence < s.enqueuePos <==> |Contents(s)| == s.Capacity()
    ensures s.At(s.dequeuePos).sequence < s.dequeuePos + 1 <==> Contents(s) == []
  {
    SlotLap(s.dequeuePos, s.Capacity());
    assert WindowOk(s, s.dequeuePos);
    assert TicketOk(s, s.dequeuePos) && TicketOk(s, s.enqueuePos);
    if InWindow(s, s.enqueuePos) {
      assert WindowOk(s, s.enqueuePos);
      if s.enqueuePos >= s.Capacity() {
        assert TicketOk(s, s.enqueuePos - s.Capacity());
      }
    }
  }

  /**
   * While calls are in flight a refused emplace means full exactly when no consumer is at work on the ticket it
   * waits for.
   */
  lemma {:induction false} RefusedMeansFull(s: State, e: Event)
    requires Inv(s) && s.Thread(e.tid).EmplaceRead? && Step(s, e).Thread(e.tid) == Idle(Refused)
    ensures s.Thread(e.tid).pos == s.enqueuePos >= s.Capacity()
    ensures |Contents(s)| == s.Capacity()
       <==> forall t: nat :: !Consuming(s.Thread(t), s.Thread(e.tid).pos - s.Capacity())
  {
    var pos := s.Thread(e.tid).pos;
    EmplaceRefusal(s, e);
    assert ThreadOk(s, e.tid, s.threads[e.tid]);
    assert TicketOk(s, pos) && TicketOk(s, pos - s.Capacity());
    if |Contents(s)| == s.Capacity() {
      forall t: nat
        ensures !Consuming(s.Thread(t), pos - s.Capacity())
      {
        assert t in s.threads ==> ThreadOk(s, t, s.threads[t]);
      }
    } else {
      assert Consuming(s.Thread(s.consumer[pos - s.Capacity()]), pos - s.Capacity());
    }
  }

  /** And an empty-handed pop means empty exactly when no producer is at work on the ticket it wants to take. */
  lemma {:induction false} NothingMeansEmpty(s: State, e: Event)
    requires Inv(s) && s.Thread(e.tid).PopRead? && Step(s, e).Thread(e.tid) == Idle(Nothing)
    ensures s.Thread(e.tid).pos == s.dequeuePos
    ensures Contents(s) == [] <==> forall t: nat :: !Producing(s.Thread(t), s.Thread(e.tid).pos)
  {
    var pos := s.Thread(e.tid).pos;
    PopRefusal(s, e);
    assert ThreadOk(s, e.tid, s.threads[e.tid]);
    assert TicketOk(s, pos);
    if Contents(s) == [] {
      forall t: nat
        ensures !Producing(s.Thread(t), pos)
      {
        assert t in s.threads ==> ThreadOk(s, t, s.threads[t]);
      }
    } else {
      assert Producing(s.Thread(s.producer[pos]), pos);
    }
  }

  // ---------------------------------------------------------------- runs by hand

  function Repeat(s: State, e: Event, n: nat): (s': State)
    requires PowerOfTwo(s.Capacity())
    ensures s'.Capacity() == s.Capacity()
  {
    if n == 0 then s else Step(Repeat(s, e, n - 1), e)
  }

  lemma Thrice(s: State, e: Event)
    requires PowerOfTwo(s.Capacity())
    ensures Repeat(s, e, 3) == Step(Step(Step(s, e), e), e)
  {
    hide Step;
    assert Repeat(s, e, 1) == Step(Repeat(s, e, 0), e);
    assert Repeat(s, e, 2) == Step(Repeat(s, e, 1), e);
  }

  /** The first half of a call, up to its compare-and-swap or its refusal. */
  lemma {:induction false} EmplaceArrives(s: State, e: Event)
    requires PowerOfTwo(s.Capacity()) && s.Thread(e.tid).Idle? && e.command.Emplace?
    requires s.At(s.enqueuePos).sequence <= s.enqueuePos
    ensures Repeat(s, e, 3) == s.Goto(e.tid, if s.At(s.enqueuePos).sequence == s.enqueuePos
                                             then EmplaceCas(e.command.item, s.enqueuePos) else Idle(Refused))
  {
    Thrice(s, e);
  }

  lemma {:induction false} PopArrives(s: State, e: Event)
    requires PowerOfTwo(s.Capacity()) && s.Thread(e.tid).Idle? && e.command.TryPop?
    requires s.At(s.dequeuePos).sequence <= s.dequeuePos + 1
    ensures Repeat(s, e, 3) == s.Goto(e.tid, if s.At(s.dequeuePos).sequence == s.dequeuePos + 1
                                             then PopCas(s.dequeuePos) else Idle(Nothing))
  {
    Thrice(s, e);
  }

  /** The second half of an emplace that is not disturbed. */
  function Emplaced(s: State, tid: nat, x: Item): State
    requires PowerOfTwo(s.Capacity())
  {
    s.(enqueuePos := s.enqueuePos + 1, values := s.values + [x], producer := s.producer + [tid],
       published := s.published + {s.enqueuePos})
     .Put(s.enqueuePos, Slot(s.enqueuePos + 1, Some(x))).Goto(tid, Idle(Accepted(s.enqueuePos)))
  }

  lemma {:induction false} EmplaceFinishes(s: State, e: Event, x: Item)
    requires PowerOfTwo(s.Capacity()) && s.Thread(e.tid) == EmplaceCas(x, s.enqueuePos) && !e.spurious
    ensures Repeat(s, e, 3) == Emplaced(s, e.tid, x)
  {
    var pos, s1 := s.enqueuePos, ClaimEnqueue(s, e.tid, x);
    var s2 := s1.Put(pos, s1.At(pos).(storage := Some(x))).Goto(e.tid, Publish(pos));
    assert s1.At(pos) == s.At(pos) && s2.At(pos) == s.At(pos).(storage := Some(x));
    assert Step(s, e) == s1;
    assert Step(s1, e) == s2;
    Thrice(s, e);
  }

  function Popped(s: State, tid: nat, x: Item): State
    requires PowerOfTwo(s.Capacity())
  {
    s.(dequeuePos := s.dequeuePos + 1, consumer := s.consumer + [tid], released := s.released + {s.dequeuePos})
     .Put(s.dequeuePos, Slot(s.dequeuePos + s.Capacity(), None)).Goto(tid, Idle(Got(s.dequeuePos, x)))
  }

  lemma {:induction false} PopFinishes(s: State, e: Event, x: Item)
    requires PowerOfTwo(s.Capacity()) && s.Thread(e.tid) == PopCas(s.dequeuePos) && !e.spurious
    requires s.At(s.dequeuePos).storage == Some(x)
    ensures Repeat(s, e, 3) == Popped(s, e.tid, x)
  {
    var pos, s1 := s.dequeuePos, ClaimDequeue(s, e.tid);
    var s2 := s1.Put(pos, s1.At(pos).(storage := None)).Goto(e.tid, Release(pos, x));
    assert s1.At(pos) == s.At(pos) && s2.At(pos) == s.At(pos).(storage := None);
    assert Step(s, e) == s1;
    assert Step(s1, e) == s2;
    Thrice(s, e);
  }

  /** With a single slot, "published" and "free" read the same, and a second producer overruns the first. */
  lemma {:induction false} CapacityOneOverruns(x: Item, y: Item)
    ensures var e, f := Event(0, Emplace(x), false), Event(1, Emplace(y), false);
      var s := Repeat(Repeat(Repeat(Repeat(Init(1), e, 3), e, 3), f, 3), f, 3);
      s.dequeuePos == 0 && s.enqueuePos == 2 && s.slots[0].storage == Some(y)
  {
    SlotIsModulo(0, 1);
    SlotIsModulo(1, 1);
    var e, f := Event(0, Emplace(x), false), Event(1, Emplace(y), false);
    var s0 := Init(1);
    hide Step, Repeat, Init;
    EmplaceArrives(s0, e);
    EmplaceFinishes(s0.Goto(0, EmplaceCas(x, 0)), e, x);
    var s1 := Emplaced(s0.Goto(0, EmplaceCas(x, 0)), 0, x);
    EmplaceArrives(s1, f);
    EmplaceFinishes(s1.Goto(1, EmplaceCas(y, 1)), f, y);
  }

  lemma {:induction false} RunRepeat(capacity: nat, schedule: seq<Event>, e: Event, n: nat) returns (longer: seq<Event>)
    requires ValidCapacity(capacity)
    ensures Run(capacity, longer) == Repeat(Run(capacity, schedule), e, n)
  {
    hide Step, Inv;
    longer := schedule;
    if n > 0 {
      var shorter := RunRepeat(capacity, schedule, e, n - 1);
      longer := shorter + [e];
      assert longer[..|longer| - 1] == shorter;
    }
  }

  /** Two slots, x and y in them, thread 0 having put them there. */
  function TwoEmplaced(x: Item, y: Item): State {
    State([Slot(1, Some(x)), Slot(2, Some(y))], 2, 0, map[0 := Idle(Accepted(1))], [x, y], [0, 0], [], {0, 1}, {})
  }

  lemma {:induction false} ReachesTwoEmplaced(x: Item, y: Item) returns (schedule: seq<Event>)
    ensures Run(2, schedule) == TwoEmplaced(x, y)
  {
    SlotIsModulo(0, 2);
    SlotIsModulo(1, 2);
    hide Step, Repeat, Inv;
    var e, f := Event(0, Emplace(x), false), Event(0, Emplace(y), false);
    var s0 := Init(2);
    EmplaceArrives(s0, e);
    EmplaceFinishes(s0.Goto(0, EmplaceCas(x, 0)), e, x);
    var s1 := Emplaced(s0.Goto(0, EmplaceCas(x, 0)), 0, x);
    EmplaceArrives(s1, f);
    EmplaceFinishes(s1.Goto(0, EmplaceCas(y, 1)), f, y);
    assert Emplaced(s1.Goto(0, EmplaceCas(y, 1)), 0, y) == TwoEmplaced(x, y);
    schedule := RunRepeat(2, [], e, 3);
    schedule := RunRepeat(2, schedule, e, 3);
    schedule := RunRepeat(2, schedule, f, 3);
    schedule := RunRepeat(2, schedule, f, 3);
  }

  /** Consumer 1 has claimed ticket 0, and has not moved its value out yet. */
  function OneClaimed(x: Item, y: Item): State {
    State([Slot(1, Some(x)), Slot(2, Some(y))], 2, 1, map[0 := Idle(Accepted(1)), 1 := Move(0)],
          [x, y], [0, 0], [1], {0, 1}, {})
  }

  lemma {:induction false} ReachesOneClaimed(x: Item, y: Item) returns (schedule: seq<Event>)
    ensures Run(2, schedule) == OneClaimed(x, y)
  {
    SlotIsModulo(0, 2);
    hide Step, Repeat, Inv, Run;
    var p := Event(1, TryPop, false);
    PopArrives(TwoEmplaced(x, y), p);
    OnceClaims(TwoEmplaced(x, y).Goto(1, PopCas(0)), p);
    assert ClaimDequeue(TwoEmplaced(x, y).Goto(1, PopCas(0)), 1) == OneClaimed(x, y);
    schedule := ReachesTwoEmplaced(x, y);
    schedule := RunRepeat(2, schedule, p, 3);
    schedule := RunRepeat(2, schedule, p, 1);
  }

  /** Consumer 2 has taken ticket 1 meanwhile. */
  function OtherTaken(x: Item, y: Item): State {
    State([Slot(1, Some(x)), Slot(3, None)], 2, 2, map[0 := Idle(Accepted(1)), 1 := Move(0), 2 := Idle(Got(1, y))],
          [x, y], [0, 0], [1, 2], {0, 1}, {1})
  }

  lemma {:induction false} ReachesOtherTaken(x: Item, y: Item) returns (schedule: seq<Event>)
    ensures Run(2, schedule) == OtherTaken(x, y)
  {
    SlotIsModulo(1, 2);
    hide Step, Repeat, Inv, Run;
    var q, s := Event(2, TryPop, false), OneClaimed(x, y);
    PopArrives(s, q);
    PopFinishes(s.Goto(2, PopCas(1)), q, y);
    assert Popped(s.Goto(2, PopCas(1)), 2, y) == OtherTaken(x, y);
    schedule := ReachesOneClaimed(x, y);
    schedule := RunRepeat(2, schedule, q, 3);
    schedule := RunRepeat(2, schedule, q, 3);
  }

  /**
   * Consumer 1 claims ticket 0 and stalls, consumer 2 takes ticket 1: the next emplace is refused although the queue
   * is empty and the slot of the ticket after it is free.
   */
  lemma {:induction false} StalledConsumerBlocks(x: Item, y: Item) returns (schedule: seq<Event>)
    ensures var s := Run(2, schedule);
      s.Thread(0) == Idle(Refused) && Contents(s) == [] && s.At(s.enqueuePos + 1).sequence == s.enqueuePos + 1
  {
    SlotIsModulo(2, 2);
    SlotIsModulo(3, 2);
    hide Step, Repeat, Inv, Run;
    var e := Event(0, Emplace(x), false);
    EmplaceArrives(OtherTaken(x, y), e);
    schedule := ReachesOtherTaken(x, y);
    schedule := RunRepeat(2, schedule, e, 3);
  }

  lemma OnceClaims(s: State, e: Event)
    requires PowerOfTwo(s.Capacity()) && s.Thread(e.tid) == PopCas(s.dequeuePos) && !e.spurious
    ensures Repeat(s, e, 1) == ClaimDequeue(s, e.tid)
  {
    assert Repeat(s, e, 1) == Step(Repeat(s, e, 0), e);
  }

  // ---------------------------------------------------------------- the class, calls running uninterrupted

  /** The stored values of tickets from to to - 1. */
  ghost function Stored(slots: seq<Slot>, from: nat, to: nat): seq<Item>
    requires PowerOfTwo(|slots|) && from <= to
    requires forall p: nat :: from <= p < to ==> slots[SlotOf(p, |slots|)].storage.Some?
  {
    seq(to - from, k requires 0 <= k < to - from => slots[SlotOf(from + k, |slots|)].storage.value)
  }

  class Queue {
    var slots: array<Slot>
    var enqueuePos: nat
    var dequeuePos: nat

    ghost predicate Valid()
      reads this, slots
    {
      && ValidCapacity(slots.Length)
      && dequeuePos <= enqueuePos <= dequeuePos + slots.Length
      && forall p: nat :: dequeuePos <= p < dequeuePos + slots.Length ==>
           var slot := slots[SlotOf(p, slots.Length)];
           if p < enqueuePos then slot.sequence == p + 1 && slot.storage.Some? else slot.sequence == p
    }

    ghost function Items(): seq<Item>
      requires Valid()
      reads this, slots
    {
      Stored(slots[..], dequeuePos, enqueuePos)
    }

    constructor (capacity: nat)
      requires ValidCapacity(capacity)
      ensures Valid() && Items() == [] && slots.Length == capacity && fresh(slots)
    {
      slots := new Slot[capacity];
      enqueuePos, dequeuePos := 0, 0;
      new;
      var i := 0;
      while i < capacity
        modifies slots
        invariant i <= capacity == slots.Length
        invariant forall j :: 0 <= j < i ==> slots[j].sequence == j
      {
        slots[i] := Slot(i, None);
        i := i + 1;
      }
      forall p: nat
        ensures p < capacity ==> SlotOf(p, capacity) == p
      {
        SlotIsModulo(p, capacity);
      }
    }

    /** failures is how often the weak compare-and-swap fails for no reason. */
    method Emplace(item: Item, failures: nat) returns (ok: bool)
      requires Valid()
      modifies this`enqueuePos, slots
      ensures Valid()
      ensures ok <==> |old(Items())| < slots.Length
      ensures Items() == if ok then old(Items()) + [item] else old(Items())
    {
      var pos := enqueuePos;
      var left := failures;
      SlotLap(dequeuePos, slots.Length);
      while true
        invariant pos == enqueuePos == old(enqueuePos) && slots[..] == old(slots[..])
        decreases left
      {
        var i := SlotOf(pos, slots.Length);
        var seqNo := slots[i].sequence;
        if seqNo == pos {
          if left == 0 {
            break;
          }
          left := left - 1;
          pos := enqueuePos;
        } else {
          // a larger number is only read when another thread has taken the ticket meanwhile
          assert seqNo < pos;
          return false;
        }
      }
      ghost var before := slots[..];
      var i := SlotOf(pos, slots.Length);
      enqueuePos := pos + 1;
      slots[i] := slots[i].(storage := Some(item));
      slots[i] := slots[i].(sequence := pos + 1);
      forall p: nat | dequeuePos <= p < dequeuePos + slots.Length && p != pos
        ensures SlotOf(p, slots.Length) != i
      {
        SlotsDistinct(p, pos, slots.Length);
      }
      assert Stored(slots[..], dequeuePos, pos + 1) == Stored(before, dequeuePos, pos) + [item];
      ok := true;
    }

    method TryPop(failures: nat) returns (r: Option<Item>)
      requires Valid()
      modifies this`dequeuePos, slots
      ensures Valid()
      ensures r.None? <==> old(Items()) == []
      ensures r.None? ==> Items() == old(Items())
      ensures r.Some? ==> old(Items()) == [r.value] + Items()
    {
      var pos := dequeuePos;
      var left := failures;
      while true
        invariant pos == dequeuePos == old(dequeuePos) && slots[..] == old(slots[..])
        decreases left
      {
        var i := SlotOf(pos, slots.Length);
        var seqNo := slots[i].sequence;
        if seqNo == pos + 1 {
          if left == 0 {
            break;
          }
          left := left - 1;
          pos := dequeuePos;
        } else {
          assert seqNo < pos + 1;
          return None;
        }
      }
      ghost var before := slots[..];
      var i := SlotOf(pos, slots.Length);
      dequeuePos := pos + 1;
      r := slots[i].storage;
      slots[i] := slots[i].(storage := None);
      slots[i] := slots[i].(sequence := pos + slots.Length);
      SlotLap(pos, slots.Length);
      forall p: nat | pos < p < pos + slots.Length
        ensures SlotOf(p, slots.Length) != i
      {
        SlotsDistinct(p, pos, slots.Length);
      }
      assert Stored(before, pos, enqueuePos) == [before[i].storage.value] + Stored(slots[..], pos + 1, enqueuePos);
    }
  }
}
