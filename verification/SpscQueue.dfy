/**
 * The single-producer single-consumer ring, with its counters as they are: 64-bit words that wrap around.
 * Producer and consumer steps interleave sequentially consistently. Beside the memory the state records all
 * values ever stored and how many were taken, which is what unbounded counters would hold.
 */
module SpscQueue {
  import opened Bits
  import opened Wrappers

  type Item = int

  datatype ProducerPc = Resting(accepted: bool) | LoadHead(item: Item, t: nat) | Write(item: Item, t: nat)
    | StoreTail(item: Item, t: nat)

  datatype ConsumerPc = Waiting(got: Option<Item>) | LoadTail(h: nat) | Move(h: nat) | StoreHead(h: nat, item: Item)

  datatype State = State(
    slots: seq<Option<Item>>, head: nat, tail: nat, producer: ProducerPc, consumer: ConsumerPc,
    stored: seq<Item>, taken: nat)
  {
    function Capacity(): nat { |slots| }

    function At(counter: nat): Option<Item>
      requires PowerOfTwo(|slots|)
    {
      slots[SlotOf(counter, |slots|)]
    }

    function Put(counter: nat, x: Option<Item>): State
      requires PowerOfTwo(|slots|)
    {
      this.(slots := slots[SlotOf(counter, |slots|) := x])
    }
  }

  datatype Event = Producer(item: Item) | Consumer

  /** Any power of two that a 64-bit size can hold. */
  predicate ValidCapacity(capacity: nat) {
    PowerOfTwo(capacity) && capacity < WORD
  }

  /** Word subtraction. */
  function Minus(a: nat, b: nat): nat {
    (a - b) % WORD
  }

  function Step(s: State, e: Event): (s': State)
    requires PowerOfTwo(s.Capacity())
    ensures s'.Capacity() == s.Capacity()
  {
    match e
    case Producer(x) =>
      (match s.producer
       case Resting(_) => s.(producer := LoadHead(x, s.tail))
       case LoadHead(item, t) =>
         var next := (t + 1) % WORD;
         s.(producer := if Minus(next, s.head) > s.Capacity() then Resting(false) else Write(item, t))
       case Write(item, t) => s.Put(t, Some(item)).(producer := StoreTail(item, t))
       case StoreTail(item, t) =>
         s.(tail := (t + 1) % WORD, stored := s.stored + [item], producer := Resting(true)))
    case Consumer =>
      (match s.consumer
       case Waiting(_) => s.(consumer := LoadTail(s.head))
       case LoadTail(h) => s.(consumer := if h == s.tail then Waiting(None) else Move(h))
       case Move(h) =>
         (match s.At(h)
          case None => s  // the invariant excludes a move from raw storage
          case Some(x) => s.Put(h, None).(consumer := StoreHead(h, x)))
       case StoreHead(h, x) =>
         s.(head := (h + 1) % WORD, taken := s.taken + 1, consumer := Waiting(Some(x))))
  }

  function Init(capacity: nat): State {
    State(seq(capacity, _ => None), 0, 0, Resting(true), Waiting(None), [], 0)
  }

  // ---------------------------------------------------------------- wrapped counters

  lemma {:induction false} PowerDividesWord(n: nat, w: nat) returns (q: nat)
    requires PowerOfTwo(n) && PowerOfTwo(w) && n <= w
    ensures w == n * q
  {
    if n == 1 {
      q := w;
    } else {
      q := PowerDividesWord(n / 2, w / 2);
      assert w == 2 * (n / 2 * q);
    }
  }

  lemma {:induction false} ModuloModulo(x: nat, n: nat, q: nat, w: nat)
    requires n > 0 && w > 0 && w == n * q
    ensures (x % w) % n == x % n
  {
    var a, r := x / w, x % w;
    var b, e := r / n, r % n;
    Distribute(n, q, a, b);
    assert x == w * a + r && r == n * b + e;
    ModuloUnique(x, n, q * a + b, e);
  }

  lemma Distribute(n: nat, q: nat, a: nat, b: nat)
    ensures (n * q) * a + n * b == n * (q * a + b)
  {
  }

  /** Masking a wrapped counter reaches the slot that the unbounded counter names. */
  lemma {:induction false} WrappedSlot(x: nat, n: nat)
    requires ValidCapacity(n)
    ensures SlotOf(x % WORD, n) == SlotOf(x, n)
  {
    WordIsPowerOfTwo();
    var q := PowerDividesWord(n, WORD);
    SlotIsModulo(x, n);
    SlotIsModulo(x % WORD, n);
    ModuloModulo(x, n, q, WORD);
  }

  lemma {:induction false} WrappedNext(x: nat)
    ensures (x % WORD + 1) % WORD == (x + 1) % WORD
  {
  }

  /** Word subtraction of wrapped counters is the true distance while that fits a word. */
  lemma {:induction false} WrappedMinus(a: nat, b: nat)
    requires b <= a < b + WORD
    ensures Minus(a % WORD, b % WORD) == a - b
  {
  }

  // ---------------------------------------------------------------- invariant

  ghost predicate Counters(s: State) {
    && ValidCapacity(s.Capacity())
    && s.taken <= |s.stored| <= s.taken + s.Capacity()
    && s.head == s.taken % WORD && s.tail == |s.stored| % WORD
  }

  /** Slot contents, by unbounded counter: full below the tail, raw above it, except where a call is at work. */
  ghost predicate SlotOk(s: State, p: nat)
    requires Counters(s)
  {
    s.taken <= p < s.taken + s.Capacity() ==>
      s.At(p) ==
      if p == s.taken && s.consumer.StoreHead? then None
      else if p == |s.stored| && s.producer.StoreTail? then Some(s.producer.item)
      else if p < |s.stored| then Some(s.stored[p])
      else None
  }

  ghost predicate Inv(s: State) {
    && Counters(s)
    && (match s.producer
        case Resting(_) => true
        case LoadHead(_, t) => t == s.tail
        case Write(_, t) => t == s.tail && |s.stored| < s.taken + s.Capacity()
        case StoreTail(_, t) => t == s.tail && |s.stored| < s.taken + s.Capacity())
    && (match s.consumer
        case Waiting(got) => got.Some? ==> s.taken > 0 && got.value == s.stored[s.taken - 1]
        case LoadTail(h) => h == s.head
        case Move(h) => h == s.head && s.taken < |s.stored|
        case StoreHead(h, x) => h == s.head && s.taken < |s.stored| && x == s.stored[s.taken])
    && (forall p: nat :: SlotOk(s, p))
  }

  lemma {:induction false} ProducerKeeps(s: State, e: Event)
    requires Inv(s) && e.Producer?
    ensures Inv(Step(s, e))
  {
    var s' := Step(s, e);
    WrappedNext(|s.stored|);
    WrappedSlot(|s.stored|, s.Capacity());
    Decisions(s);
    assert Counters(s');
    forall p: nat
      ensures SlotOk(s', p)
    {
      assert SlotOk(s, p);
      if s.taken <= p < s.taken + s.Capacity() && p != |s.stored| && |s.stored| < s.taken + s.Capacity() {
        SlotsDistinct(p, |s.stored|, s.Capacity());
      }
    }
  }

  lemma {:induction false} ConsumerKeeps(s: State, e: Event)
    requires Inv(s) && e.Consumer?
    ensures Inv(Step(s, e))
  {
    var s' := Step(s, e);
    WrappedNext(s.taken);
    WrappedSlot(s.taken, s.Capacity());
    Decisions(s);
    SlotLap(s.taken, s.Capacity());
    assert SlotOk(s, s.taken);
    assert Counters(s');
    forall p: nat
      ensures SlotOk(s', p)
    {
      assert SlotOk(s, p);
      if s.taken < p < s.taken + s.Capacity() {
        SlotsDistinct(p, s.taken, s.Capacity());
      }
    }
  }

  lemma {:induction false} StepKeeps(s: State, e: Event)
    requires Inv(s)
    ensures Inv(Step(s, e))
  {
    if e.Consumer? {
      ConsumerKeeps(s, e);
    } else {
      ProducerKeeps(s, e);
    }
  }

  /** Every test on the wrapped counters decides as it would on unbounded ones. */
  lemma {:induction false} Decisions(s: State)
    requires Counters(s)
    ensures Minus((s.tail + 1) % WORD, s.head) > s.Capacity() <==> |s.stored| == s.taken + s.Capacity()
    ensures s.head == s.tail <==> s.taken == |s.stored|
    ensures Minus(s.tail, s.head) == |s.stored| - s.taken
  {
    HalfWord(s.Capacity());
    WrappedNext(|s.stored|);
    WrappedMinus(|s.stored| + 1, s.taken);
    WrappedMinus(|s.stored|, s.taken);
  }

  /** A power of two below 2^64 is at most 2^63. */
  lemma {:induction false} HalfWord(n: nat)
    requires ValidCapacity(n)
    ensures n <= WORD / 2
  {
    WordIsPowerOfTwo();
    var q := PowerDividesWord(n, WORD);
    if q >= 2 {
      MultiplyStep(n, 1, q);
    }
  }

  // ---------------------------------------------------------------- every run

  function Run(capacity: nat, schedule: seq<Event>): (s: State)
    requires ValidCapacity(capacity)
    ensures Inv(s) && s.Capacity() == capacity
  {
    if schedule == [] then
      Init(capacity)
    else
      var before := Run(capacity, schedule[..|schedule| - 1]);
      StepKeeps(before, schedule[|schedule| - 1]);
      Step(before, schedule[|schedule| - 1])
  }

  /** The abstract bounded FIFO. */
  function Contents(s: State): seq<Item>
    requires s.taken <= |s.stored|
  {
    s.stored[s.taken..]
  }

  /**
   * Each step is a step of a bounded FIFO or none: a producer's last step appends its item, a consumer's last
   * step removes and returns the front; a refusal happens only when the FIFO is full, an empty-handed pop only
   * when it is empty.
   */
  lemma {:induction false} StepRefinesFifo(s: State, e: Event)
    requires Inv(s)
    ensures var s' := Step(s, e);
      && s'.taken <= |s'.stored| && |Contents(s')| <= s.Capacity()
      && match e
         case Producer(_) =>
           if s.producer.StoreTail? then
             Contents(s') == Contents(s) + [s.producer.item] && s'.producer == Resting(true)
           else
             Contents(s') == Contents(s)
             && (s.producer.LoadHead? ==> (s'.producer == Resting(false) <==> |Contents(s)| == s.Capacity()))
         case Consumer =>
           if s.consumer.StoreHead? then
             Contents(s) == [s.consumer.item] + Contents(s') && s'.consumer == Waiting(Some(s.consumer.item))
           else
             Contents(s') == Contents(s)
             && (s.consumer.LoadTail? ==> (s'.consumer == Waiting(None) <==> Contents(s) == []))
  {
    StepKeeps(s, e);
    Decisions(s);
  }

  /** The item of the push begun last: that of the producer's last step from rest. */
  function LastPush(capacity: nat, schedule: seq<Event>): Option<Item>
    requires ValidCapacity(capacity)
  {
    if schedule == [] then None
    else
      var before, e := schedule[..|schedule| - 1], schedule[|schedule| - 1];
      if e.Producer? && Run(capacity, before).producer.Resting? then Some(e.item) else LastPush(capacity, before)
  }

  /** Over every run, the producer works on the item it was called with; once accepted that is the last item stored. */
  lemma {:induction false} PushKeepsItsItem(capacity: nat, schedule: seq<Event>)
    requires ValidCapacity(capacity)
    ensures var s, call := Run(capacity, schedule), LastPush(capacity, schedule);
      match s.producer
      case Resting(accepted) => accepted && call.Some? ==> s.stored != [] && s.stored[|s.stored| - 1] == call.value
      case LoadHead(item, _) => call == Some(item)
      case Write(item, _) => call == Some(item)
      case StoreTail(item, _) => call == Some(item)
  {
    hide Inv;
    if schedule != [] {
      PushKeepsItsItem(capacity, schedule[..|schedule| - 1]);
    }
  }

  /** Construction never overwrites a live object and a move always finds one. */
  lemma {:induction false} StorageDiscipline(s: State)
    requires Inv(s)
    ensures s.producer.Write? ==> s.At(s.producer.t) == None
    ensures s.consumer.Move? ==> s.At(s.consumer.h) == Some(s.stored[s.taken])
    ensures (s.producer.Write? || s.producer.StoreTail?) && (s.consumer.Move? || s.consumer.StoreHead?)
            ==> SlotOf(s.producer.t, s.Capacity()) != SlotOf(s.consumer.h, s.Capacity())
  {
    WrappedSlot(|s.stored|, s.Capacity());
    WrappedSlot(s.taken, s.Capacity());
    assert SlotOk(s, |s.stored|) && SlotOk(s, s.taken);
    if s.taken < |s.stored| < s.taken + s.Capacity() {
      SlotsDistinct(|s.stored|, s.taken, s.Capacity());
    }
  }

  // -------------------------------------------------------- size(), which loads the counters one after the other

  lemma {:induction false} CountersGrow(s: State, e: Event)
    requires Inv(s)
    ensures s.taken <= Step(s, e).taken && s.stored <= Step(s, e).stored
    ensures e.Consumer? ==> Step(s, e).stored == s.stored
    ensures e.Producer? ==> Step(s, e).taken == s.taken
  {
  }

  /** From one moment of a run to a later one; each counter is moved by its own thread only. */
  lemma {:induction false} RunGrows(capacity: nat, a: seq<Event>, b: seq<Event>)
    requires ValidCapacity(capacity)
    ensures Run(capacity, a).taken <= Run(capacity, a + b).taken
           && Run(capacity, a).stored <= Run(capacity, a + b).stored
    ensures (forall e :: e in b ==> e.Consumer?) ==> Run(capacity, a + b).stored == Run(capacity, a).stored
    ensures (forall e :: e in b ==> e.Producer?) ==> Run(capacity, a + b).taken == Run(capacity, a).taken
    decreases |b|
  {
    hide Step, Inv;
    if b == [] {
      assert a + b == a;
    } else {
      var rest, e := b[..|b| - 1], b[|b| - 1];
      RunGrows(capacity, a, rest);
      assert (a + b)[..|a + b| - 1] == a + rest;
      CountersGrow(Run(capacity, a + rest), e);
    }
  }

  /**
   * The tail is loaded after a, the head after b more: the answer is right unless the consumer has passed that
   * tail.
   */
  lemma {:induction false} SizeTailFirst(capacity: nat, a: seq<Event>, b: seq<Event>)
    requires ValidCapacity(capacity)
    ensures var s, t := Run(capacity, a), Run(capacity, a + b);
      && (Minus(s.tail, t.head) == |s.stored| - t.taken <==> t.taken <= |s.stored|)
      && (t.taken <= |s.stored| ==> Minus(s.tail, t.head) <= capacity)
  {
    var s, t := Run(capacity, a), Run(capacity, a + b);
    RunGrows(capacity, a, b);
    HalfWord(capacity);
    if t.taken <= |s.stored| {
      WrappedMinus(|s.stored|, t.taken);
    }
  }

  /**
   * The other order, which the language allows: right for less than a word of pushes, but possibly above the
   * capacity.
   */
  lemma {:induction false} SizeHeadFirst(capacity: nat, a: seq<Event>, b: seq<Event>)
    requires ValidCapacity(capacity)
    ensures var s, t := Run(capacity, a), Run(capacity, a + b);
      Minus(t.tail, s.head) == |t.stored| - s.taken <==> |t.stored| - s.taken < WORD
  {
    var s, t := Run(capacity, a), Run(capacity, a + b);
    RunGrows(capacity, a, b);
    if |t.stored| < s.taken + WORD {
      WrappedMinus(|t.stored|, s.taken);
    }
  }

  /** Called on the producer's or the consumer's own thread, either order gives the size at one of the two moments. */
  lemma {:induction false} SizeOnOwnThread(capacity: nat, a: seq<Event>, b: seq<Event>)
    requires ValidCapacity(capacity)
    ensures var s, t := Run(capacity, a), Run(capacity, a + b);
      && ((forall e :: e in b ==> e.Consumer?) ==>
            Minus(s.tail, t.head) == |Contents(t)| && Minus(t.tail, s.head) == |Contents(s)|)
      && ((forall e :: e in b ==> e.Producer?) ==>
            Minus(s.tail, t.head) == |Contents(s)| && Minus(t.tail, s.head) == |Contents(t)|)
  {
    RunGrows(capacity, a, b);
    Decisions(Run(capacity, a));
    Decisions(Run(capacity, a + b));
  }

  lemma RunMore(capacity: nat, schedule: seq<Event>, e: Event)
    requires ValidCapacity(capacity)
    ensures Run(capacity, schedule + [e]) == Step(Run(capacity, schedule), e)
  {
    assert (schedule + [e])[..|schedule|] == schedule;
  }

  lemma {:induction false} FourMore(capacity: nat, schedule: seq<Event>, e: Event) returns (longer: seq<Event>)
    requires ValidCapacity(capacity)
    ensures longer == schedule + [e, e, e, e]
    ensures Run(capacity, longer) == Step(Step(Step(Step(Run(capacity, schedule), e), e), e), e)
  {
    hide Step, Run;
    RunMore(capacity, schedule, e);
    RunMore(capacity, schedule + [e], e);
    RunMore(capacity, schedule + [e] + [e], e);
    RunMore(capacity, schedule + [e] + [e] + [e], e);
    longer := schedule + [e] + [e] + [e] + [e];
    assert longer == schedule + [e, e, e, e];
  }

  /** A third thread loads the tail of the empty ring; one push and one pop later, size() answers 2^64 - 1. */
  lemma {:induction false} SizeCanWrap(capacity: nat, x: Item) returns (b: seq<Event>)
    requires ValidCapacity(capacity)
    ensures Minus(Run(capacity, []).tail, Run(capacity, [] + b).head) == WORD - 1
  {
    var p, c := Producer(x), Consumer;
    b := FourMore(capacity, [], p);
    PushAndPop(Init(capacity), x);
    hide Step, Run;
    b := FourMore(capacity, b, c);
    assert [] + b == b;
  }

  /** One undisturbed push into the empty ring, then one undisturbed pop. */
  lemma {:induction false} PushAndPop(s: State, x: Item)
    requires Inv(s) && s.head == s.tail == s.taken == |s.stored| == 0 && s.producer.Resting? && s.consumer.Waiting?
    ensures var p, c := Producer(x), Consumer;
      Step(Step(Step(Step(Step(Step(Step(Step(s, p), p), p), p), c), c), c), c).head == 1
  {
  }

  // ---------------------------------------------------------------- the class, calls running uninterrupted

  /** The steps of a pop that finds the ring nonempty, seen from outside the call. */
  lemma {:induction false} UndisturbedPop(v: State)
    requires Inv(v) && v.consumer == Waiting(None) && v.head != v.tail
    ensures Inv(v.(consumer := Move(v.head)))
    ensures Inv(Step(Step(v.(consumer := Move(v.head)), Consumer), Consumer).(consumer := Waiting(None)))
  {
    Decisions(v);
    WrappedSlot(v.taken, v.Capacity());
    assert SlotOk(v, v.taken);
    var v2 := v.(consumer := Move(v.head));
    assert forall p: nat :: SlotOk(v, p) ==> SlotOk(v2, p);
    StepKeeps(v2, Consumer);
    StepKeeps(Step(v2, Consumer), Consumer);
    var w := Step(Step(v2, Consumer), Consumer);
    assert forall p: nat :: SlotOk(w, p) ==> SlotOk(w.(consumer := Waiting(None)), p);
  }

  class Queue {
    var slots: array<Option<Item>>
    var head: nat
    var tail: nat
    // what unbounded counters would hold
    ghost var stored: seq<Item>
    ghost var taken: nat

    ghost function View(): State
      reads this, slots
    {
      State(slots[..], head, tail, Resting(true), Waiting(None), stored, taken)
    }

    ghost predicate Valid()
      reads this, slots
    {
      Inv(View())
    }

    ghost function Items(): seq<Item>
      requires Valid()
      reads this, slots
    {
      Contents(View())
    }

    constructor (capacity: nat)
      requires ValidCapacity(capacity)
      ensures Valid() && Items() == [] && slots.Length == capacity && fresh(slots)
    {
      slots := new Option<Item>[capacity](_ => None);
      head, tail, stored, taken := 0, 0, [], 0;
    }

    method Emplace(item: Item) returns (ok: bool)
      requires Valid()
      modifies this`tail, this`stored, slots
      ensures Valid()
      ensures ok <==> |old(Items())| < slots.Length
      ensures Items() == if ok then old(Items()) + [item] else old(Items())
    {
      ghost var v := View();
      Decisions(v);
      var t := tail;
      var next := (t + 1) % WORD;
      var currentHead := head;
      if Minus(next, currentHead) > slots.Length {
        return false;
      }
      slots[SlotOf(t, slots.Length)] := Some(item);
      tail := next;
      stored := stored + [item];
      ok := true;
      ghost var v3 := v.(producer := Write(item, t));
      assert Inv(v3) by {
        assert forall p: nat :: SlotOk(v, p) ==> SlotOk(v3, p);
      }
      StepKeeps(v3, Producer(item));
      StepKeeps(Step(v3, Producer(item)), Producer(item));
      assert View() == Step(Step(v3, Producer(item)), Producer(item));
    }

    method TryPop() returns (r: Option<Item>)
      requires Valid()
      modifies this`head, this`taken, slots
      ensures Valid()
      ensures r.None? <==> old(Items()) == []
      ensures r.None? ==> Items() == old(Items())
      ensures r.Some? ==> old(Items()) == [r.value] + Items()
    {
      ghost var v := View();
      Decisions(v);
      var h := head;
      if h == tail {
        return None;
      }
      WrappedSlot(taken, slots.Length);
      assert SlotOk(v, taken);
      r := slots[SlotOf(h, slots.Length)];
      slots[SlotOf(h, slots.Length)] := None;
      head := (h + 1) % WORD;
      taken := taken + 1;
      UndisturbedPop(v);
      assert View() == Step(Step(v.(consumer := Move(h)), Consumer), Consumer).(consumer := Waiting(None));
    }

    method Size() returns (n: nat)
      requires Valid()
      ensures n == |Items()|
    {
      Decisions(View());
      n := Minus(tail, head);
    }
  }
}
