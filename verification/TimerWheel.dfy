/**
 * The hashed timer wheel against a plain list of pending timers. Firing appends the timer and the tick to a log; what
 * a callback arms in turn is given as a function of the firing.
 */
module TimerWheel {
  import opened Bits

  const SLOTS: nat := 512
  const TICK_NS: nat := 1_000_000

  datatype Entry = Entry(expires: nat, callback: int)

  datatype Firing = Firing(tick: nat, entry: Entry)

  /** A call of add_timer. */
  datatype Arming = Arming(delayNs: nat, callback: int)

  /** Whole ticks of a delay, at least one. */
  function Ticks(delayNs: nat): nat {
    if delayNs < TICK_NS then 1 else delayNs / TICK_NS
  }

  /** Delays are rounded down to whole ticks, but never to none. */
  lemma {:induction false} TicksRoundDown(delayNs: nat)
    ensures if delayNs < 1_000_000 then Ticks(delayNs) == 1
            else Ticks(delayNs) * 1_000_000 <= delayNs < (Ticks(delayNs) + 1) * 1_000_000
  {
  }

  function Target(tick: nat, a: Arming): Entry {
    Entry(tick + Ticks(a.delayNs), a.callback)
  }

  // ---------------------------------------------------------------- the plain list

  /** A timer is due at a tick that is not before its target and in the same place on the wheel. */
  predicate Due(e: Entry, tick: nat) {
    e.expires <= tick && e.expires % SLOTS == tick % SLOTS
  }

  function Keep(list: seq<Entry>, tick: nat): seq<Entry> {
    if list == [] then []
    else if Due(list[0], tick) then Keep(list[1..], tick)
    else [list[0]] + Keep(list[1..], tick)
  }

  function Fire(list: seq<Entry>, tick: nat): seq<Firing> {
    if list == [] then []
    else if Due(list[0], tick) then [Firing(tick, list[0])] + Fire(list[1..], tick)
    else Fire(list[1..], tick)
  }

  function Targets(tick: nat, armings: seq<Arming>): seq<Entry> {
    if armings == [] then []
    else Targets(tick, armings[..|armings| - 1]) + [Target(tick, armings[|armings| - 1])]
  }

  /** One timer for each arming, in order. */
  lemma {:induction false} TargetsAreInOrder(tick: nat, armings: seq<Arming>)
    ensures |Targets(tick, armings)| == |armings|
    ensures forall k :: 0 <= k < |armings| ==> Targets(tick, armings)[k] == Target(tick, armings[k])
  {
    if armings != [] {
      TargetsAreInOrder(tick, armings[..|armings| - 1]);
    }
  }

  /** The timers that the callbacks of a log arm, in the order they run. */
  function Armed(log: seq<Firing>, arm: Firing -> seq<Arming>): seq<Entry> {
    if log == [] then []
    else Armed(log[..|log| - 1], arm) + Targets(log[|log| - 1].tick, arm(log[|log| - 1]))
  }

  /** The list and the log after ticks from + 1 to until. */
  function Remaining(list: seq<Entry>, from: nat, until: nat, arm: Firing -> seq<Arming>): seq<Entry>
    decreases until
  {
    if until <= from then list
    else
      var before := Remaining(list, from, until - 1, arm);
      Keep(before, until) + Armed(Fire(before, until), arm)
  }

  function Fired(list: seq<Entry>, from: nat, until: nat, arm: Firing -> seq<Arming>): seq<Firing>
    decreases until
  {
    if until <= from then []
    else Fired(list, from, until - 1, arm) + Fire(Remaining(list, from, until - 1, arm), until)
  }

  /** Every timer there was: the list, and what the callbacks armed on the way. */
  function All(list: seq<Entry>, from: nat, until: nat, arm: Firing -> seq<Arming>): seq<Entry> {
    list + Armed(Fired(list, from, until, arm), arm)
  }

  // ---------------------------------------------------------------- when a timer fires

  /** The tick at which a timer pending at tick from fires. */
  function FireTick(e: Entry, from: nat): (tick: nat)
    ensures from < tick && Due(e, tick)
    ensures tick % 512 == e.expires % 512 && e.expires <= tick && (e.expires <= from ==> tick <= from + 512)
    ensures forall t: nat :: from < t < tick ==> !Due(e, t)
    ensures e.expires > from ==> tick == e.expires
  {
    if e.expires > from then e.expires
    else
      var lap := (from - e.expires) / SLOTS + 1;
      LapIsCongruent(e.expires, lap);
      assert e.expires + lap * SLOTS <= from + SLOTS;
      NoEarlierLap(e, from, e.expires + lap * SLOTS);
      e.expires + lap * SLOTS
  }

  lemma {:induction false} LapIsCongruent(x: nat, lap: nat)
    ensures (x + lap * SLOTS) % SLOTS == x % SLOTS
  {
    ModuloUnique(x + lap * SLOTS, SLOTS, x / SLOTS + lap, x % SLOTS);
  }

  lemma {:induction false} NoEarlierLap(e: Entry, from: nat, tick: nat)
    requires e.expires <= from < tick <= from + SLOTS && Due(e, tick)
    ensures forall t: nat :: from < t < tick ==> !Due(e, t)
  {
    forall t: nat | from < t < tick
      ensures !Due(e, t)
    {
      if Due(e, t) {
        ModuloInjective(t, tick, SLOTS);
      }
    }
  }

  function Later(list: seq<Entry>, from: nat, until: nat): seq<Entry> {
    if list == [] then []
    else if FireTick(list[0], from) > until then [list[0]] + Later(list[1..], from, until)
    else Later(list[1..], from, until)
  }

  function FiringAt(list: seq<Entry>, from: nat, tick: nat): seq<Firing> {
    if list == [] then []
    else if FireTick(list[0], from) == tick then [Firing(tick, list[0])] + FiringAt(list[1..], from, tick)
    else FiringAt(list[1..], from, tick)
  }

  lemma {:induction false} TickOfLater(list: seq<Entry>, from: nat, tick: nat)
    requires from < tick
    ensures Keep(Later(list, from, tick - 1), tick) == Later(list, from, tick)
    ensures Fire(Later(list, from, tick - 1), tick) == FiringAt(list, from, tick)
  {
    if list != [] {
      var e, rest := list[0], list[1..];
      TickOfLater(rest, from, tick);
      assert FireTick(e, from) > tick - 1 ==> (Due(e, tick) <==> FireTick(e, from) == tick);
      if FireTick(e, from) > tick - 1 {
        assert Later(list, from, tick - 1)[1..] == Later(rest, from, tick - 1);
      } else {
        assert Later(list, from, tick - 1) == Later(rest, from, tick - 1);
      }
    }
  }

  lemma {:induction false} LaterAll(list: seq<Entry>, from: nat, until: nat)
    requires until <= from
    ensures Later(list, from, until) == list
  {
    if list != [] {
      LaterAll(list[1..], from, until);
    }
  }

  lemma {:induction false} LaterAppend(a: seq<Entry>, b: seq<Entry>, from: nat, until: nat)
    ensures Later(a + b, from, until) == Later(a, from, until) + Later(b, from, until)
  {
    if a == [] {
      assert a + b == b;
    } else {
      assert (a + b)[1..] == a[1..] + b;
      LaterAppend(a[1..], b, from, until);
    }
  }

  lemma {:induction false} ArmedAppend(a: seq<Firing>, b: seq<Firing>, arm: Firing -> seq<Arming>)
    ensures Armed(a + b, arm) == Armed(a, arm) + Armed(b, arm)
  {
    if b == [] {
      assert a + b == a;
    } else {
      assert (a + b)[..|a + b| - 1] == a + b[..|b| - 1];
      ArmedAppend(a, b[..|b| - 1], arm);
    }
  }

  /** What callbacks arm lies ahead of their tick. */
  lemma {:induction false} TargetsAhead(tick: nat, armings: seq<Arming>)
    ensures forall e :: e in Targets(tick, armings) ==> e.expires > tick
  {
    if armings != [] {
      TargetsAhead(tick, armings[..|armings| - 1]);
    }
  }

  lemma {:induction false} ArmedAhead(log: seq<Firing>, arm: Firing -> seq<Arming>, tick: nat)
    requires forall f :: f in log ==> f.tick == tick
    ensures forall e :: e in Armed(log, arm) ==> e.expires > tick
  {
    if log != [] {
      ArmedAhead(log[..|log| - 1], arm, tick);
      TargetsAhead(log[|log| - 1].tick, arm(log[|log| - 1]));
    }
  }

  lemma {:induction false} FireTicks(list: seq<Entry>, tick: nat)
    ensures forall f :: f in Fire(list, tick) ==> f.tick == tick
  {
    if list != [] {
      FireTicks(list[1..], tick);
    }
  }

  lemma {:induction false} LaterAhead(list: seq<Entry>, from: nat, until: nat)
    requires from <= until && forall e :: e in list ==> e.expires > until
    ensures Later(list, from, until) == list
  {
    if list != [] {
      LaterAhead(list[1..], from, until);
      assert list[0] in list;
    }
  }

  /**
   * What is left after advancing is what fires later, in the order it was armed; and the timers fired at
   * any tick are exactly those whose firing tick it is, in the order they were armed. Timers armed by callbacks
   * on the way count like the others.
   */
  lemma {:induction false} AdvanceFiresOnTime(list: seq<Entry>, from: nat, until: nat, arm: Firing -> seq<Arming>)
    ensures Remaining(list, from, until, arm) == Later(All(list, from, until, arm), from, until)
    ensures from < until ==>
              Fired(list, from, until, arm)
              == Fired(list, from, until - 1, arm) + FiringAt(All(list, from, until - 1, arm), from, until)
    decreases until
  {
    hide Later, FiringAt, Keep, Fire, Armed, All;
    if until <= from {
      LaterAll(list, from, until);
      AllStarts(list, from, until, arm);
    } else {
      var all, before := All(list, from, until - 1, arm), Remaining(list, from, until - 1, arm);
      var now := Fire(before, until);
      AdvanceFiresOnTime(list, from, until - 1, arm);
      TickOfLater(all, from, until);
      AllGrows(list, from, until, arm);
      LaterAppend(all, Armed(now, arm), from, until);
      FireTicks(before, until);
      ArmedAhead(now, arm, until);
      LaterAhead(Armed(now, arm), from, until);
    }
  }

  lemma {:induction false} AllStarts(list: seq<Entry>, from: nat, until: nat, arm: Firing -> seq<Arming>)
    requires until <= from
    ensures All(list, from, until, arm) == list
  {
  }

  lemma {:induction false} AllGrows(list: seq<Entry>, from: nat, until: nat, arm: Firing -> seq<Arming>)
    requires from < until
    ensures All(list, from, until, arm)
         == All(list, from, until - 1, arm) + Armed(Fire(Remaining(list, from, until - 1, arm), until), arm)
  {
    hide Armed, Fire, Keep;
    ArmedAppend(Fired(list, from, until - 1, arm), Fire(Remaining(list, from, until - 1, arm), until), arm);
  }

  lemma {:induction false} FiringAtTicks(list: seq<Entry>, from: nat, tick: nat)
    ensures forall f :: f in FiringAt(list, from, tick) ==> f.tick == tick == FireTick(f.entry, from)
  {
    if list != [] {
      FiringAtTicks(list[1..], from, tick);
    }
  }

  /** Every firing happens at the timer's own tick, and the log is in tick order. */
  lemma {:induction false} FiredInOrder(list: seq<Entry>, from: nat, until: nat, arm: Firing -> seq<Arming>)
    ensures forall f :: f in Fired(list, from, until, arm) ==> f.tick == FireTick(f.entry, from) <= until
    ensures forall i, j :: 0 <= i < j < |Fired(list, from, until, arm)| ==>
              Fired(list, from, until, arm)[i].tick <= Fired(list, from, until, arm)[j].tick
    decreases until
  {
    hide Fire, FiringAt, FireTick, All;
    if from < until {
      FiredInOrder(list, from, until - 1, arm);
      AdvanceFiresOnTime(list, from, until, arm);
      FiringAtTicks(All(list, from, until - 1, arm), from, until);
      InOrderAppend(Fired(list, from, until - 1, arm), FiringAt(All(list, from, until - 1, arm), from, until), until);
    }
  }

  lemma {:induction false} InOrderAppend(a: seq<Firing>, b: seq<Firing>, tick: nat)
    requires forall f :: f in a ==> f.tick <= tick
    requires forall f :: f in b ==> f.tick == tick
    requires forall i, j :: 0 <= i < j < |a| ==> a[i].tick <= a[j].tick
    ensures forall i, j :: 0 <= i < j < |a + b| ==> (a + b)[i].tick <= (a + b)[j].tick
  {
    var log := a + b;
    forall i, j | 0 <= i < j < |log|
      ensures log[i].tick <= log[j].tick
    {
      assert i < |a| ==> a[i] in a;
      assert j >= |a| ==> b[j - |a|] in b;
      assert i >= |a| ==> b[i - |a|] in b;
    }
  }

  function Entries(log: seq<Firing>): seq<Entry> {
    if log == [] then [] else [log[0].entry] + Entries(log[1..])
  }

  lemma {:induction false} EntriesAppend(a: seq<Firing>, b: seq<Firing>)
    ensures Entries(a + b) == Entries(a) + Entries(b)
  {
    if a == [] {
      assert a + b == b;
    } else {
      assert (a + b)[1..] == a[1..] + b;
      EntriesAppend(a[1..], b);
    }
  }

  lemma {:induction false} TickConserves(list: seq<Entry>, tick: nat)
    ensures multiset(list) == multiset(Keep(list, tick)) + multiset(Entries(Fire(list, tick)))
  {
    hide Keep, Fire, Entries;
    if list == [] {
      NothingToConserve(tick);
    } else {
      var e, rest := list[0], list[1..];
      TickConserves(rest, tick);
      assert list == [e] + rest;
      ListCons(e, rest, tick);
      FirstEntry(Firing(tick, e), Fire(rest, tick));
    }
  }

  lemma NothingToConserve(tick: nat)
    ensures Keep([], tick) == [] && Entries(Fire([], tick)) == []
  {
  }

  lemma FirstEntry(f: Firing, log: seq<Firing>)
    ensures Entries([f] + log) == [f.entry] + Entries(log)
  {
  }

  lemma Regroup(all: multiset<Entry>, left: multiset<Entry>, log: multiset<Entry>, kept: multiset<Entry>,
                out: multiset<Entry>,
                armed: multiset<Entry>)
    requires all == left + log && left == kept + out
    ensures all + armed == (kept + armed) + (log + out)
  {
  }

  /** A timer, from the start or armed on the way, is pending or has fired, and fires once. */
  lemma {:induction false} EveryTimerOnce(list: seq<Entry>, from: nat, until: nat, arm: Firing -> seq<Arming>)
    ensures multiset(All(list, from, until, arm))
         == multiset(Remaining(list, from, until, arm)) + multiset(Entries(Fired(list, from, until, arm)))
    decreases until
  {
    hide Keep, Fire, Armed, All;
    if until <= from {
      AllStarts(list, from, until, arm);
    } else {
      EveryTimerOnce(list, from, until - 1, arm);
      var left, log := Remaining(list, from, until - 1, arm), Fired(list, from, until - 1, arm);
      var now := Fire(left, until);
      TickConserves(left, until);
      EntriesAppend(log, now);
      AllGrows(list, from, until, arm);
      Regroup(multiset(All(list, from, until - 1, arm)), multiset(left), multiset(Entries(log)),
              multiset(Keep(left, until)), multiset(Entries(now)), multiset(Armed(now, arm)));
    }
  }

  /** Advancing in two strides is advancing in one. */
  lemma {:induction false} AdvanceComposes(list: seq<Entry>, from: nat, mid: nat, until: nat,
                                           arm: Firing -> seq<Arming>)
    requires from <= mid <= until
    ensures var half := Remaining(list, from, mid, arm);
      && Remaining(half, mid, until, arm) == Remaining(list, from, until, arm)
      && Fired(list, from, mid, arm) + Fired(half, mid, until, arm) == Fired(list, from, until, arm)
    decreases until
  {
    hide Keep, Fire, Armed;
    if mid < until {
      AdvanceComposes(list, from, mid, until - 1, arm);
    } else {
      NothingLeftToDo(Remaining(list, from, mid, arm), mid, until, arm);
    }
  }

  lemma NothingLeftToDo(list: seq<Entry>, from: nat, until: nat, arm: Firing -> seq<Arming>)
    ensures until <= from ==> Remaining(list, from, until, arm) == list && Fired(list, from, until, arm) == []
  {
  }

  lemma OneMoreTick(list: seq<Entry>, from: nat, until: nat, arm: Firing -> seq<Arming>)
    requires from < until
    ensures var before := Remaining(list, from, until - 1, arm);
      && Remaining(list, from, until, arm) == Keep(before, until) + Armed(Fire(before, until), arm)
      && Fired(list, from, until, arm) == Fired(list, from, until - 1, arm) + Fire(before, until)
  {
  }

  /** What has fired by a tick stays the beginning of the log. */
  lemma {:induction false} FiredPrefix(list: seq<Entry>, from: nat, mid: nat, until: nat, arm: Firing -> seq<Arming>)
    requires from < mid <= until
    ensures forall f :: f in Fire(Remaining(list, from, mid - 1, arm), mid) ==> f in Fired(list, from, until, arm)
    decreases until
  {
    hide Keep, Fire, Armed;
    if mid < until {
      FiredPrefix(list, from, mid, until - 1, arm);
    }
  }

  // ---------------------------------------------------------------- the wheel

  function InSlot(list: seq<Entry>, slot: nat): seq<Entry> {
    if list == [] then []
    else if list[0].expires % SLOTS == slot then [list[0]] + InSlot(list[1..], slot)
    else InSlot(list[1..], slot)
  }

  lemma {:induction false} InSlotAppend(list: seq<Entry>, e: Entry, slot: nat)
    ensures InSlot(list + [e], slot) == InSlot(list, slot) + if e.expires % SLOTS == slot then [e] else []
  {
    if list != [] {
      assert (list + [e])[1..] == list[1..] + [e];
      InSlotAppend(list[1..], e, slot);
    }
  }

  /** std::stable_partition by "expires after this tick": the kept entries, then the fired ones. */
  function After(entries: seq<Entry>, tick: nat): seq<Entry> {
    if entries == [] then []
    else if entries[0].expires > tick then [entries[0]] + After(entries[1..], tick)
    else After(entries[1..], tick)
  }

  function NotAfter(entries: seq<Entry>, tick: nat): seq<Entry> {
    if entries == [] then []
    else if entries[0].expires > tick then NotAfter(entries[1..], tick)
    else [entries[0]] + NotAfter(entries[1..], tick)
  }

  function Log(entries: seq<Entry>, tick: nat): (log: seq<Firing>)
    ensures |log| == |entries|
  {
    seq(|entries|, i requires 0 <= i < |entries| => Firing(tick, entries[i]))
  }

  lemma ListCons(e: Entry, rest: seq<Entry>, tick: nat)
    ensures Keep([e] + rest, tick) == if Due(e, tick) then Keep(rest, tick) else [e] + Keep(rest, tick)
    ensures Fire([e] + rest, tick) == if Due(e, tick) then [Firing(tick, e)] + Fire(rest, tick) else Fire(rest, tick)
  {
  }

  lemma SlotCons(e: Entry, rest: seq<Entry>, slot: nat)
    ensures InSlot([e] + rest, slot)
         == if e.expires % SLOTS == slot then [e] + InSlot(rest, slot) else InSlot(rest, slot)
  {
  }

  lemma PartitionCons(e: Entry, rest: seq<Entry>, tick: nat)
    ensures After([e] + rest, tick) == if e.expires > tick then [e] + After(rest, tick) else After(rest, tick)
    ensures NotAfter([e] + rest, tick) == if e.expires > tick then NotAfter(rest, tick) else [e] + NotAfter(rest, tick)
  {
  }

  lemma LogCons(e: Entry, rest: seq<Entry>, tick: nat)
    ensures Log([e] + rest, tick) == [Firing(tick, e)] + Log(rest, tick)
  {
  }

  lemma NothingInSlot(tick: nat)
    ensures InSlot(Keep([], tick), tick % SLOTS) == After(InSlot([], tick % SLOTS), tick)
    ensures Fire([], tick) == Log(NotAfter(InSlot([], tick % SLOTS), tick), tick)
  {
  }

  /** Partitioning one slot does to that slot what a tick does to the list. */
  lemma {:induction false} SlotTick(list: seq<Entry>, tick: nat)
    ensures InSlot(Keep(list, tick), tick % SLOTS) == After(InSlot(list, tick % SLOTS), tick)
    ensures Fire(list, tick) == Log(NotAfter(InSlot(list, tick % SLOTS), tick), tick)
  {
    hide InSlot, Keep, Fire, After, NotAfter, Log;
    if list == [] {
      NothingInSlot(tick);
    } else {
      var e, rest, slot := list[0], list[1..], tick % SLOTS;
      SlotTick(rest, tick);
      assert list == [e] + rest;
      ListCons(e, rest, tick);
      SlotCons(e, rest, slot);
      SlotCons(e, Keep(rest, tick), slot);
      PartitionCons(e, InSlot(rest, slot), tick);
      LogCons(e, NotAfter(InSlot(rest, slot), tick), tick);
    }
  }

  lemma {:induction false} OtherSlotTick(list: seq<Entry>, tick: nat, slot: nat)
    requires slot != tick % SLOTS
    ensures InSlot(Keep(list, tick), slot) == InSlot(list, slot)
  {
    if list != [] {
      OtherSlotTick(list[1..], tick, slot);
      if !Due(list[0], tick) {
        assert Keep(list, tick)[1..] == Keep(list[1..], tick);
      }
    }
  }

  /** What the callbacks of a log may arm: delays of one word, that do not come round to the slot being walked. */
  ghost predicate ArmsElsewhere(log: seq<Firing>, arm: Firing -> seq<Arming>) {
    forall f, a :: f in log && a in arm(f) ==> a.delayNs < WORD && Ticks(a.delayNs) % SLOTS != 0
  }

  /** A timer armed during a tick lands in the slot of that tick exactly when its delay is a whole number of turns. */
  lemma {:induction false} SameSlotIff(tick: nat, a: Arming)
    ensures Target(tick, a).expires % SLOTS == tick % SLOTS <==> Ticks(a.delayNs) % SLOTS == 0
  {
  }

  lemma {:induction false} NextArmsElsewhere(list: seq<Entry>, from: nat, mid: nat, until: nat,
                                             arm: Firing -> seq<Arming>)
    requires from <= mid < until && ArmsElsewhere(Fired(list, from, until, arm), arm)
    ensures ArmsElsewhere(Fire(Remaining(list, from, mid, arm), mid + 1), arm)
  {
    hide Fired, Fire, Remaining;
    FiredPrefix(list, from, mid + 1, until, arm);
  }

  // ---------------------------------------------------------------- the walk over a slot that has room to grow

  /** The loop over the expired entries re-reads the end of the slot: what is still to visit, and the log so far. */
  datatype Walk = Walk(todo: seq<Entry>, log: seq<Firing>)

  function Visit(w: Walk, tick: nat, arm: Firing -> seq<Arming>): Walk
    requires w.todo != []
  {
    var f := Firing(tick, w.todo[0]);
    Walk(w.todo[1..] + InSlot(Targets(tick, arm(f)), tick % SLOTS), w.log + [f])
  }

  /** The walk after at most n visits. */
  function Visits(w: Walk, tick: nat, arm: Firing -> seq<Arming>, n: nat): Walk
    decreases n
  {
    if n == 0 then w
    else
      var before := Visits(w, tick, arm, n - 1);
      if before.todo == [] then before else Visit(before, tick, arm)
  }

  lemma {:induction false} InSlotAppends(a: seq<Entry>, b: seq<Entry>, slot: nat)
    ensures InSlot(a + b, slot) == InSlot(a, slot) + InSlot(b, slot)
  {
    if a == [] {
      assert a + b == b;
    } else {
      assert (a + b)[1..] == a[1..] + b;
      InSlotAppends(a[1..], b, slot);
    }
  }

  lemma VisitFirst(e: Entry, rest: seq<Entry>, log: seq<Firing>, tick: nat, arm: Firing -> seq<Arming>)
    ensures Visit(Walk([e] + rest, log), tick, arm)
         == Walk(rest + InSlot(Targets(tick, arm(Firing(tick, e))), tick % SLOTS), log + [Firing(tick, e)])
  {
  }

  lemma LogLast(entries: seq<Entry>, e: Entry, tick: nat)
    ensures Log(entries + [e], tick) == Log(entries, tick) + [Firing(tick, e)]
  {
  }

  lemma ArmedLast(log: seq<Firing>, f: Firing, arm: Firing -> seq<Arming>)
    ensures Armed(log + [f], arm) == Armed(log, arm) + Targets(f.tick, arm(f))
  {
    assert (log + [f])[..|log|] == log;
  }

  /** Once some entries are visited the rest is left, and what those callbacks put into the same slot. */
  lemma {:induction false} WalkSoFar(done: seq<Entry>, rest: seq<Entry>, tick: nat, arm: Firing -> seq<Arming>)
    ensures Visits(Walk(done + rest, []), tick, arm, |done|)
         == Walk(rest + InSlot(Armed(Log(done, tick), arm), tick % SLOTS), Log(done, tick))
    decreases |done|
  {
    hide InSlot, Visit;
    if done == [] {
      NothingVisited(done, tick, arm);
      assert done + rest == rest && rest + [] == rest;
    } else {
      hide Armed, Log;
      var before, e := done[..|done| - 1], done[|done| - 1];
      var f, armed := Firing(tick, e), InSlot(Armed(Log(before, tick), arm), tick % SLOTS);
      WalkSoFar(before, [e] + rest, tick, arm);
      assert done == before + [e] && done + rest == before + ([e] + rest);
      assert ([e] + rest) + armed == [e] + (rest + armed);
      VisitFirst(e, rest + armed, Log(before, tick), tick, arm);
      LogLast(before, e, tick);
      ArmedLast(Log(before, tick), f, arm);
      InSlotAppends(Armed(Log(before, tick), arm), Targets(tick, arm(f)), tick % SLOTS);
      assert (rest + armed) + InSlot(Targets(tick, arm(f)), tick % SLOTS)
          == rest + (armed + InSlot(Targets(tick, arm(f)), tick % SLOTS));
    }
  }

  lemma NothingVisited(done: seq<Entry>, tick: nat, arm: Firing -> seq<Arming>)
    requires done == []
    ensures Log(done, tick) == [] && InSlot(Armed(Log(done, tick), arm), tick % SLOTS) == []
  {
  }

  /**
   * The walk ends with the expired entries exactly when their callbacks arm nothing in this slot; if they do, it goes
   * on to a timer that is not due before a later tick.
   */
  lemma {:induction false} WalkEndsWithExpired(expired: seq<Entry>, tick: nat, arm: Firing -> seq<Arming>)
    ensures var w := Visits(Walk(expired, []), tick, arm, |expired|);
      && w.log == Log(expired, tick)
      && (w.todo == [] <==> InSlot(Armed(Log(expired, tick), arm), tick % SLOTS) == [])
      && (w.todo != [] ==> w.todo[0].expires > tick && Visit(w, tick, arm).log == w.log + [Firing(tick, w.todo[0])])
  {
    hide Visits, Armed, InSlot;
    var log := Log(expired, tick);
    WalkSoFar(expired, [], tick, arm);
    assert expired + [] == expired;
    assert [] + InSlot(Armed(log, arm), tick % SLOTS) == InSlot(Armed(log, arm), tick % SLOTS);
    ArmedAhead(log, arm, tick);
    InSlotSubset(Armed(log, arm), tick % SLOTS);
  }

  lemma {:induction false} InSlotSubset(list: seq<Entry>, slot: nat)
    ensures forall e :: e in InSlot(list, slot) ==> e in list
  {
    if list != [] {
      InSlotSubset(list[1..], slot);
    }
  }

  /** A callback that re-arms itself a whole turn ahead. */
  function Rearming(f: Firing): seq<Arming> {
    [Arming(SLOTS * TICK_NS, f.entry.callback)]
  }

  /** It keeps the walk going for ever. */
  lemma {:induction false} RearmingNeverEnds(e: Entry, tick: nat, n: nat)
    ensures var w := Visits(Walk([e], []), tick, Rearming, n); |w.todo| == 1 && |w.log| == n
    decreases n
  {
    hide Visit, InSlot, Targets;
    if n > 0 {
      RearmingNeverEnds(e, tick, n - 1);
      var w := Visits(Walk([e], []), tick, Rearming, n - 1);
      RearmedInSlot(w.todo[0], tick);
      assert w.todo == [w.todo[0]] + [];
      VisitFirst(w.todo[0], [], w.log, tick, Rearming);
    }
  }

  lemma {:induction false} RearmedInSlot(e: Entry, tick: nat)
    ensures |InSlot(Targets(tick, Rearming(Firing(tick, e))), tick % SLOTS)| == 1
  {
    var a := Arming(SLOTS * TICK_NS, e.callback);
    assert [a][..0] == [] && Ticks(a.delayNs) == SLOTS;
    assert Targets(tick, [a]) == [Target(tick, a)];
    SameSlotIff(tick, a);
  }

  class Wheel {
    var slots: array<seq<Entry>>
    var currentTick: nat
    var fired: seq<Firing>
    ghost var pending: seq<Entry>

    ghost predicate Valid()
      reads this, slots
    {
      Shaped() && forall j :: 0 <= j < SLOTS ==> slots[j] == InSlot(pending, j)
    }

    ghost predicate Shaped()
      reads this
    {
      slots.Length == SLOTS && currentTick <= WORD / TICK_NS
    }

    constructor ()
      ensures Valid() && pending == [] && fired == [] && currentTick == 0 && fresh(slots)
    {
      slots := new seq<Entry>[SLOTS](_ => []);
      currentTick, fired, pending := 0, [], [];
    }

    /** delayNs is a 64-bit word; the target tick cannot overflow one. */
    method AddTimer(delayNs: nat, callback: int)
      requires Shaped() && delayNs < WORD
      modifies this`pending, slots
      ensures old(Valid()) ==> Valid()
      ensures var e := Target(currentTick, Arming(delayNs, callback));
        && pending == old(pending) + [e] && e.callback == callback
        && e.expires == currentTick + (if delayNs < TICK_NS then 1 else delayNs / TICK_NS)
        && currentTick < e.expires < WORD && FireTick(e, currentTick) == e.expires
        && forall j :: 0 <= j < SLOTS ==> slots[j] == old(slots[j]) + if j == e.expires % SLOTS then [e] else []
    {
      var ticks := delayNs / TICK_NS;
      if ticks == 0 {
        ticks := 1;
      }
      var e := Entry(currentTick + ticks, callback);
      assert PowerOfTwo(SLOTS);
      SlotIsModulo(e.expires, SLOTS);
      var slot := SlotOf(e.expires, SLOTS);
      slots[slot] := slots[slot] + [e];
      pending := pending + [e];
      forall j | 0 <= j < SLOTS
        ensures InSlot(pending, j) == InSlot(old(pending), j) + if j == slot then [e] else []
      {
        InSlotAppend(old(pending), e, j);
      }
    }

    method Initialize(nowNs: nat)
      requires Valid() && nowNs < WORD
      modifies this`currentTick
      ensures Valid() && currentTick == nowNs / 1_000_000
    {
      currentTick := nowNs / TICK_NS;
    }

    method Advance(nowNs: nat, arm: Firing -> seq<Arming>)
      requires Valid() && nowNs < WORD
      requires ArmsElsewhere(Fired(pending, currentTick, nowNs / TICK_NS, arm), arm)
      modifies this, slots
      ensures Valid() && slots == old(slots)
      ensures currentTick == if nowNs / TICK_NS > old(currentTick) then nowNs / TICK_NS else old(currentTick)
      ensures pending == Remaining(old(pending), old(currentTick), nowNs / TICK_NS, arm)
      ensures fired == old(fired) + Fired(old(pending), old(currentTick), nowNs / TICK_NS, arm)
    {
      hide InSlot, Keep, Fire, Armed, ArmsElsewhere, Remaining, Fired;
      NothingLeftToDo(pending, currentTick, currentTick, arm);
      NothingLeftToDo(pending, currentTick, nowNs / TICK_NS, arm);
      var targetTick := nowNs / TICK_NS;
      while currentTick < targetTick
        invariant Valid() && slots == old(slots)
        invariant old(currentTick) <= currentTick
        invariant currentTick <= targetTick || currentTick == old(currentTick)
        invariant pending == Remaining(old(pending), old(currentTick), currentTick, arm)
        invariant fired == old(fired) + Fired(old(pending), old(currentTick), currentTick, arm)
        decreases targetTick - currentTick
      {
        NextArmsElsewhere(old(pending), old(currentTick), currentTick, targetTick, arm);
        OneMoreTick(old(pending), old(currentTick), currentTick + 1, arm);
        Tick(arm);
      }
    }

    /** One round of the loop in advance. */
    method Tick(arm: Firing -> seq<Arming>)
      requires Valid() && currentTick < WORD / TICK_NS && ArmsElsewhere(Fire(pending, currentTick + 1), arm)
      modifies this, slots
      ensures Valid() && slots == old(slots) && currentTick == old(currentTick) + 1
      ensures fired == old(fired) + Fire(old(pending), currentTick)
      ensures pending == Keep(old(pending), currentTick) + Armed(Fire(old(pending), currentTick), arm)
    {
      currentTick := currentTick + 1;
      assert PowerOfTwo(SLOTS);
      SlotIsModulo(currentTick, SLOTS);
      var slot := SlotOf(currentTick, SLOTS);
      var entries := slots[slot];
      SlotTick(pending, currentTick);
      forall j | 0 <= j < SLOTS && j != slot
        ensures InSlot(Keep(pending, currentTick), j) == InSlot(pending, j)
      {
        OtherSlotTick(pending, currentTick, j);
      }
      pending := Keep(pending, currentTick);
      if entries == [] {
        assert NotAfter(entries, currentTick) == [];
        return;
      }
      RunCallbacks(slot, entries, arm);
      slots[slot] := After(entries, currentTick);
    }

    /** The loop over the expired entries of the slot. */
    method RunCallbacks(slot: nat, entries: seq<Entry>, arm: Firing -> seq<Arming>)
      requires Walking(slot, entries) && slot == currentTick % SLOTS
      requires ArmsElsewhere(Log(NotAfter(entries, currentTick), currentTick), arm)
      modifies this`pending, this`fired, slots
      ensures Walking(slot, entries)
      ensures fired == old(fired) + Log(NotAfter(entries, currentTick), currentTick)
      ensures pending == old(pending) + Armed(Log(NotAfter(entries, currentTick), currentTick), arm)
    {
      hide Walking, NotAfter, Target;
      var expired := NotAfter(entries, currentTick);
      ghost var log := Log(expired, currentTick);
      var i := 0;
      while i < |expired|
        invariant 0 <= i <= |expired| && Walking(slot, entries)
        invariant fired == old(fired) + log[..i]
        invariant pending == old(pending) + Armed(log[..i], arm)
      {
        assert log[..i + 1][..i] == log[..i] && log[i] == Firing(currentTick, expired[i]);
        assert log[i] in log;
        RunCallback(Firing(currentTick, expired[i]), slot, entries, arm);
        i := i + 1;
      }
      assert log[..i] == log;
    }

    /** One callback: it is logged, and arms what it arms. */
    method RunCallback(f: Firing, slot: nat, entries: seq<Entry>, arm: Firing -> seq<Arming>)
      requires Walking(slot, entries) && slot == currentTick % SLOTS && ArmsElsewhere([f], arm) && f.tick == currentTick
      modifies this`pending, this`fired, slots
      ensures Walking(slot, entries)
      ensures fired == old(fired) + [f] && pending == old(pending) + Targets(f.tick, arm(f))
    {
      fired := fired + [f];
      var armings := arm(f);
      var k := 0;
      while k < |armings|
        invariant 0 <= k <= |armings| && Walking(slot, entries)
        invariant fired == old(fired) + [f]
        invariant pending == old(pending) + Targets(f.tick, armings[..k])
      {
        assert f in [f] && armings[k] in arm(f);
        SameSlotIff(currentTick, armings[k]);
        AddOne(armings[k], slot, entries);
        assert armings[..k + 1][..k] == armings[..k];
        k := k + 1;
      }
      assert armings[..k] == armings;
    }

    /** A slot is being walked: it still holds its old entries, of which the pending timers are those not expired. */
    ghost predicate Walking(slot: nat, entries: seq<Entry>)
      reads this, slots
    {
      && Shaped() && slot < SLOTS
      && slots[slot] == entries && InSlot(pending, slot) == After(entries, currentTick)
      && forall j :: 0 <= j < SLOTS && j != slot ==> slots[j] == InSlot(pending, j)
    }

    method AddOne(a: Arming, slot: nat, entries: seq<Entry>)
      requires Walking(slot, entries) && a.delayNs < WORD && Target(currentTick, a).expires % SLOTS != slot
      modifies this`pending, slots
      ensures Walking(slot, entries) && pending == old(pending) + [Target(currentTick, a)]
    {
      ghost var e := Target(currentTick, a);
      AddTimer(a.delayNs, a.callback);
      forall j | 0 <= j < SLOTS
        ensures InSlot(pending, j) == InSlot(old(pending), j) + if e.expires % SLOTS == j then [e] else []
      {
        InSlotAppend(old(pending), e, j);
      }
    }
  }
}
