/**
 * The sequence lock as a step machine: any number of writers and readers, whose callbacks touch the shared
 * data one word at a time, in any order and as often as they like. Steps interleave sequentially consistently.
 * The counter wraps at an even modulus (2^64 in the source); count is what an unbounded counter would hold.
 */
module Seqlock {
  import opened Bits
  import opened Wrappers

  datatype Reading = Reading(index: nat, value: int)

  /** The words a read callback saw, and the counts at its first and its accepting load of the counter. */
  datatype Snapshot = Snapshot(log: seq<Reading>, start: nat, stop: nat)

  datatype Pc =
    | Idle(last: Option<Snapshot>)
    | WriteLoad
    | WriteCas(s: nat)
    | Writing(s: nat)
    | ReadLoad
    | InRead(s: nat, start: nat, log: seq<Reading>)

  /** versions holds every committed data state, the initial one first; writer who is inside a write callback. */
  datatype State = State(
    modulus: nat, seqNo: nat, data: seq<int>, threads: map<nat, Pc>,
    count: nat, versions: seq<seq<int>>, writer: Option<nat>)
  {
    function Thread(tid: nat): Pc {
      if tid in threads then threads[tid] else Idle(None)
    }

    function Goto(tid: nat, pc: Pc): State {
      this.(threads := threads[tid := pc])
    }
  }

  datatype Action = StartWrite | StartRead | Touch(index: nat, value: int) | Finish | Spurious

  datatype Event = Event(tid: nat, action: Action)

  predicate ValidModulus(m: nat) {
    m >= 2 && m % 2 == 0
  }

  function Wrap(x: nat, m: nat): (r: nat)
    requires m > 0
    ensures r < m
  {
    x % m
  }

  function Init(modulus: nat, data: seq<int>): State {
    State(modulus, 0, data, map[], 0, [data], None)
  }

  function Step(s: State, e: Event): (s': State)
    requires ValidModulus(s.modulus)
    ensures s'.modulus == s.modulus
  {
    match s.Thread(e.tid)
    case Idle(_) =>
      (match e.action
       case StartWrite => s.Goto(e.tid, WriteLoad)
       case StartRead => s.Goto(e.tid, ReadLoad)
       case _ => s)
    case WriteLoad => if s.seqNo % 2 == 1 then s else s.Goto(e.tid, WriteCas(s.seqNo))
    case WriteCas(n) =>
      if s.seqNo == n && e.action != Spurious
      then s.(seqNo := Wrap(n + 1, s.modulus), count := s.count + 1, writer := Some(e.tid)).Goto(e.tid, Writing(n))
      else s.Goto(e.tid, WriteLoad)
    case Writing(n) =>
      (match e.action
       case Touch(i, v) => if i < |s.data| then s.(data := s.data[i := v]) else s
       case Finish =>
         s.(seqNo := Wrap(n + 2, s.modulus), count := s.count + 1, versions := s.versions + [s.data], writer := None)
          .Goto(e.tid, Idle(None))
       case _ => s)
    case ReadLoad => if s.seqNo % 2 == 1 then s else s.Goto(e.tid, InRead(s.seqNo, s.count, []))
    case InRead(n, start, log) =>
      (match e.action
       case Touch(i, _) =>
         if i < |s.data| then s.Goto(e.tid, InRead(n, start, log + [Reading(i, s.data[i])])) else s
       case Finish =>
         s.Goto(e.tid, if s.seqNo == n then Idle(Some(Snapshot(log, start, s.count))) else ReadLoad)
       case _ => s)
  }

  // ---------------------------------------------------------------- invariant

  /** Every word of the log is the one that data state held. */
  predicate SeenIn(log: seq<Reading>, version: seq<int>) {
    forall r :: r in log ==> r.index < |version| && version[r.index] == r.value
  }

  ghost predicate ThreadOk(s: State, tid: nat, pc: Pc)
    requires |s.versions| == s.count / 2 + 1 && ValidModulus(s.modulus)
  {
    match pc
    case Idle(Some(Snapshot(log, start, stop))) =>
      && start <= stop <= s.count
      && (stop < start + s.modulus ==> stop == start && SeenIn(log, s.versions[start / 2]))
    case WriteCas(n) => n % 2 == 0 && n < s.modulus
    case Writing(n) => n % 2 == 0 && n < s.modulus && s.seqNo == n + 1 && s.writer == Some(tid)
    case InRead(n, start, log) =>
      && n == Wrap(start, s.modulus) && n % 2 == 0 && start % 2 == 0 && start <= s.count
      && (start == s.count ==> SeenIn(log, s.versions[start / 2]))
    case _ => true
  }

  ghost predicate Inv(s: State) {
    && ValidModulus(s.modulus)
    && s.seqNo == Wrap(s.count, s.modulus)
    && |s.versions| == s.count / 2 + 1
    && (s.writer.Some? <==> s.count % 2 == 1)
    && (s.writer.Some? ==> s.Thread(s.writer.value).Writing?)
    && (s.count % 2 == 0 ==> s.data == s.versions[s.count / 2])
    && (forall tid :: tid in s.threads ==> ThreadOk(s, tid, s.threads[tid]))
  }

  lemma EvenProduct(m: nat, q: nat)
    requires m % 2 == 0
    ensures (m * q) % 2 == 0
  {
    assert m * q == 2 * (m / 2 * q);
  }

  lemma DivideModulo(x: nat, m: nat)
    requires m > 0
    ensures x == m * (x / m) + x % m && x % m < m
  {
  }

  lemma QuotientOf(x: nat, m: nat) returns (q: nat)
    requires m > 0
    ensures x == m * q + Wrap(x, m) && Wrap(x, m) < m
  {
    DivideModulo(x, m);
    q := x / m;
  }

  /** Wrapping at an even modulus keeps parity. */
  lemma {:induction false} WrapParity(x: nat, m: nat)
    requires ValidModulus(m)
    ensures Wrap(x, m) % 2 == x % 2
    ensures Wrap(x, m) % 2 == 0 ==> Wrap(x, m) + 1 < m
  {
    hide Wrap;
    var q := QuotientOf(x, m);
    ParityOfRemainder(x, m, q, Wrap(x, m));
  }

  lemma ParityOfRemainder(x: nat, m: nat, q: nat, r: nat)
    requires m % 2 == 0 && x == m * q + r && r < m
    ensures x % 2 == r % 2 && (r % 2 == 0 ==> r + 1 < m)
  {
    EvenProduct(m, q);
    EvenPlus(m * q, r);
  }

  lemma EvenPlus(e: nat, r: nat)
    requires e % 2 == 0
    ensures (e + r) % 2 == r % 2
  {
  }

  lemma Regroup(m: nat, q: nat, r: nat, k: nat, q': nat, r': nat)
    requires r + k == m * q' + r'
    ensures m * q + r + k == m * (q + q') + r'
  {
  }

  lemma {:induction false} WrapSum(x: nat, k: nat, m: nat)
    requires m > 0
    ensures Wrap(Wrap(x, m) + k, m) == Wrap(x + k, m)
    ensures x < m ==> Wrap(x, m) == x
  {
    var q, r := x / m, x % m;
    var q', r' := (r + k) / m, (r + k) % m;
    DivideModulo(x, m);
    DivideModulo(r + k, m);
    Regroup(m, q, r, k, q', r');
    ModuloUnique(x + k, m, q + q', r');
    if x < m {
      ModuloUnique(x, m, 0, x);
    }
  }

  /** Equal wrapped counters less than a modulus apart are equal counters. */
  lemma {:induction false} WrapInjective(x: nat, y: nat, m: nat)
    requires m > 0 && x <= y < x + m && Wrap(x, m) == Wrap(y, m)
    ensures x == y
  {
    ModuloInjective(x, y, m);
  }

  /** Steps that touch only the thread's own position. */
  lemma {:induction false} GotoKeeps(s: State, tid: nat, pc: Pc)
    requires Inv(s) && ThreadOk(s, tid, pc) && !pc.Writing? && !s.Thread(tid).Writing?
    ensures Inv(s.Goto(tid, pc))
  {
    var s' := s.Goto(tid, pc);
    hide Wrap;
    forall u | u in s'.threads
      ensures ThreadOk(s', u, s'.threads[u])
    {
      assert ThreadOk(s, u, s'.threads[u]);
    }
  }

  lemma {:induction false} ReaderStepOk(s: State, e: Event)
    requires Inv(s) && (s.Thread(e.tid).InRead? || s.Thread(e.tid).ReadLoad?)
    ensures var pc' := Step(s, e).Thread(e.tid);
      Step(s, e) == s || (Step(s, e) == s.Goto(e.tid, pc') && !pc'.Writing? && ThreadOk(s, e.tid, pc'))
  {
    var pc := s.Thread(e.tid);
    assert ThreadOk(s, e.tid, s.threads[e.tid]);
    WrapParity(s.count, s.modulus);
    if pc.InRead? && s.seqNo == pc.s && s.count < pc.start + s.modulus {
      WrapInjective(pc.start, s.count, s.modulus);
    }
    hide Wrap;
  }

  /** The shared part after a step of a writer in its critical section or entering it. */
  lemma {:induction false} WriterStepOk(s: State, e: Event)
    requires Inv(s)
    requires s.Thread(e.tid).Writing? || (s.Thread(e.tid).WriteCas? && s.seqNo == s.Thread(e.tid).s
           && e.action != Spurious)
    ensures var s' := Step(s, e);
      && s'.seqNo == Wrap(s'.count, s'.modulus) && |s'.versions| == s'.count / 2 + 1
      && (s'.writer.Some? <==> s'.count % 2 == 1)
      && (s'.writer.Some? ==> s'.Thread(s'.writer.value).Writing?)
      && (s'.count % 2 == 0 ==> s'.data == s'.versions[s'.count / 2])
      && ThreadOk(s', e.tid, s'.Thread(e.tid))
      && s.count <= s'.count && s.versions <= s'.versions && (s'.count == s.count ==> s'.versions == s.versions)
      && (s.writer.Some? ==> s.writer.value == e.tid)
  {
    var pc := s.Thread(e.tid);
    assert ThreadOk(s, e.tid, s.threads[e.tid]);
    WrapParity(s.count, s.modulus);
    WrapSum(s.count, 1, s.modulus);
    WrapSum(pc.s + 1, 0, s.modulus);
    hide Wrap;
  }

  lemma {:induction false} StepKeeps(s: State, e: Event)
    requires Inv(s)
    ensures Inv(Step(s, e))
  {
    var s', tid, pc := Step(s, e), e.tid, s.Thread(e.tid);
    if pc.InRead? || pc.ReadLoad? {
      ReaderStepOk(s, e);
      if s' != s {
        GotoKeeps(s, tid, s'.Thread(tid));
      }
    } else if pc.Writing? || (pc.WriteCas? && s.seqNo == pc.s && e.action != Spurious) {
      WriterStepOk(s, e);
      hide Wrap;
      forall u | u in s'.threads
        ensures ThreadOk(s', u, s'.threads[u])
      {
        if u != tid {
          assert ThreadOk(s, u, s.threads[u]);
        }
      }
    } else if s' != s {
      WrapParity(s.count, s.modulus);
      GotoKeeps(s, tid, s'.Thread(tid));
    }
  }

  // ---------------------------------------------------------------- every run

  function Run(modulus: nat, data: seq<int>, schedule: seq<Event>): (s: State)
    requires ValidModulus(modulus)
    ensures Inv(s) && s.modulus == modulus
  {
    if schedule == [] then
      Init(modulus, data)
    else
      var before := Run(modulus, data, schedule[..|schedule| - 1]);
      StepKeeps(before, schedule[|schedule| - 1]);
      Step(before, schedule[|schedule| - 1])
  }

  /** At most one thread is inside its write callback, and the counter is odd exactly while one is. */
  lemma {:induction false} OneWriter(modulus: nat, data: seq<int>, schedule: seq<Event>)
    requires ValidModulus(modulus)
    ensures var s := Run(modulus, data, schedule);
      && (forall t, u :: s.Thread(t).Writing? && s.Thread(u).Writing? ==> t == u)
      && (s.seqNo % 2 == 1 <==> exists t :: s.Thread(t).Writing?)
  {
    var s := Run(modulus, data, schedule);
    assert Inv(s);
    WrapParity(s.count, s.modulus);
    forall t | s.Thread(t).Writing?
      ensures s.writer == Some(t)
    {
      assert ThreadOk(s, t, s.threads[t]);
    }
    if s.writer.Some? {
      assert s.Thread(s.writer.value).Writing?;
    }
  }

  /**
   * Whatever order the words were read in, an accepted read saw, word for word, the one data state that was
   * committed last when it began, provided fewer than modulus / 2 writes were committed while it ran.
   */
  lemma {:induction false} AcceptedReadIsOneVersion(modulus: nat, data: seq<int>, schedule: seq<Event>, tid: nat)
    requires ValidModulus(modulus)
    ensures var s := Run(modulus, data, schedule);
      match s.Thread(tid)
      case Idle(Some(Snapshot(log, start, stop))) =>
        stop < start + modulus ==>
          stop == start && start / 2 < |s.versions| && SeenIn(log, s.versions[start / 2])
      case _ => true
  {
    var s := Run(modulus, data, schedule);
    assert Inv(s);
    if tid in s.threads {
      assert ThreadOk(s, tid, s.threads[tid]);
    }
  }

  /** A read ends exactly when the counter is what it was at its first load; otherwise it starts over. */
  lemma {:induction false} AcceptsIffCounterUnmoved(s: State, e: Event)
    requires Inv(s) && s.Thread(e.tid).InRead? && e.action == Finish
    ensures var pc, s' := s.Thread(e.tid), Step(s, e);
      && s'.Thread(e.tid) == (if Wrap(pc.start, s.modulus) == Wrap(s.count, s.modulus)
                              then Idle(Some(Snapshot(pc.log, pc.start, s.count))) else ReadLoad)
      && s'.data == s.data && s'.count == s.count
  {
    hide SeenIn;
    assert ThreadOk(s, e.tid, s.threads[e.tid]);
  }

  predicate IsWrite(pc: Pc) {
    pc.WriteLoad? || pc.WriteCas? || pc.Writing?
  }

  /** A write goes on until it commits, and a read until it is accepted: no other step ends a call. */
  lemma {:induction false} CallsGoOn(s: State, e: Event)
    requires Inv(s)
    ensures var pc, s' := s.Thread(e.tid), Step(s, e);
      var pc' := s'.Thread(e.tid);
      && (IsWrite(pc) ==> IsWrite(pc') || (pc.Writing? && e.action == Finish && |s'.versions| == |s.versions| + 1))
      && (pc.ReadLoad? ==> pc'.ReadLoad? || (pc'.InRead? && pc'.log == []))
      && (pc.InRead? ==> pc'.InRead? || pc'.ReadLoad? || (pc'.Idle? && pc'.last.Some? && pc'.last.value.log == pc.log))
      && (pc.Idle? ==>
            pc' == if e.action == StartWrite then WriteLoad else if e.action == StartRead then ReadLoad else pc)
  {
    hide SeenIn;
  }

  /** So a read during which no write was claimed is accepted, and what it saw is what the data still is. */
  lemma {:induction false} UnclaimedReadIsAccepted(s: State, e: Event)
    requires Inv(s) && s.Thread(e.tid).InRead? && e.action == Finish && s.Thread(e.tid).start == s.count
    ensures var log := s.Thread(e.tid).log;
      && Step(s, e).Thread(e.tid) == Idle(Some(Snapshot(log, s.count, s.count)))
      && SeenIn(log, s.data) && Step(s, e).data == s.data
  {
    AcceptsIffCounterUnmoved(s, e);
    hide SeenIn;
    assert ThreadOk(s, e.tid, s.threads[e.tid]);
  }

  // ---------------------------------------------------------------- undisturbed calls

  function Play(s: State, events: seq<Event>): (s': State)
    requires ValidModulus(s.modulus)
    ensures s'.modulus == s.modulus
  {
    if events == [] then s else Step(Play(s, events[..|events| - 1]), events[|events| - 1])
  }

  lemma PlayLast(s: State, events: seq<Event>, e: Event)
    requires ValidModulus(s.modulus)
    ensures Play(s, events + [e]) == Step(Play(s, events), e)
  {
    assert (events + [e])[..|events|] == events;
  }

  /** The words of the given indices, read one after the other. */
  function Readings(data: seq<int>, indices: seq<nat>): seq<Reading>
    requires forall k :: 0 <= k < |indices| ==> indices[k] < |data|
  {
    seq(|indices|, k requires 0 <= k < |indices| => Reading(indices[k], data[indices[k]]))
  }

  /** Load the counter, enter the callback, read words, check the counter. */
  function ReadEvents(tid: nat, indices: seq<nat>): seq<Event> {
    [Event(tid, StartRead)] + [Event(tid, Finish)]
    + seq(|indices|, k requires 0 <= k < |indices| => Event(tid, Touch(indices[k], 0)))
  }

  lemma {:induction false} ReadBegins(s: State, tid: nat)
    requires ValidModulus(s.modulus) && s.Thread(tid).Idle? && s.seqNo % 2 == 0
    ensures Play(s, ReadEvents(tid, [])) == s.Goto(tid, InRead(s.seqNo, s.count, []))
  {
    PlayLast(s, [], Event(tid, StartRead));
    PlayLast(s, [] + [Event(tid, StartRead)], Event(tid, Finish));
    assert ReadEvents(tid, []) == [] + [Event(tid, StartRead)] + [Event(tid, Finish)];
    assert Play(s, []) == s;
  }

  lemma ReadOneMore(tid: nat, data: seq<int>, before: seq<nat>, last: nat)
    requires last < |data| && forall k :: 0 <= k < |before| ==> before[k] < |data|
    ensures ReadEvents(tid, before + [last]) == ReadEvents(tid, before) + [Event(tid, Touch(last, 0))]
    ensures Readings(data, before + [last]) == Readings(data, before) + [Reading(last, data[last])]
  {
  }

  lemma NoReadings(data: seq<int>)
    ensures Readings(data, []) == []
  {
  }

  lemma {:induction false} ReadsSoFar(s: State, tid: nat, indices: seq<nat>)
    requires ValidModulus(s.modulus) && s.Thread(tid).Idle? && s.seqNo % 2 == 0
    requires forall k :: 0 <= k < |indices| ==> indices[k] < |s.data|
    ensures Play(s, ReadEvents(tid, indices)) == s.Goto(tid, InRead(s.seqNo, s.count, Readings(s.data, indices)))
    decreases |indices|
  {
    hide ReadEvents, Readings, Play, Wrap;
    if indices == [] {
      ReadBegins(s, tid);
      NoReadings(s.data);
    } else {
      var before, last := indices[..|indices| - 1], indices[|indices| - 1];
      ReadsSoFar(s, tid, before);
      assert indices == before + [last];
      ReadOneMore(tid, s.data, before, last);
      PlayLast(s, ReadEvents(tid, before), Event(tid, Touch(last, 0)));
    }
  }

  /** Alone, with no writer inside, a read returns the words it asked for and changes nothing else. */
  lemma {:induction false} UndisturbedRead(s: State, tid: nat, indices: seq<nat>)
    requires Inv(s) && s.Thread(tid).Idle? && s.writer == None
    requires forall k :: 0 <= k < |indices| ==> indices[k] < |s.data|
    ensures Play(s, ReadEvents(tid, indices) + [Event(tid, Finish)])
         == s.Goto(tid, Idle(Some(Snapshot(Readings(s.data, indices), s.count, s.count))))
  {
    WrapParity(s.count, s.modulus);
    ReadsSoFar(s, tid, indices);
    PlayLast(s, ReadEvents(tid, indices), Event(tid, Finish));
  }

  /** The data after the given words are written one after the other. */
  function Written(data: seq<int>, words: seq<Reading>): (r: seq<int>)
    requires forall k :: 0 <= k < |words| ==> words[k].index < |data|
    ensures |r| == |data|
  {
    if words == [] then data
    else Written(data, words[..|words| - 1])[words[|words| - 1].index := words[|words| - 1].value]
  }

  /** Load the counter, claim it, write words. */
  function WriteEvents(tid: nat, words: seq<Reading>): seq<Event> {
    [Event(tid, StartWrite)] + [Event(tid, Finish)] + [Event(tid, Finish)]
    + seq(|words|, k requires 0 <= k < |words| => Event(tid, Touch(words[k].index, words[k].value)))
  }

  lemma {:induction false} WriteBegins(s: State, tid: nat)
    requires ValidModulus(s.modulus) && s.Thread(tid).Idle? && s.seqNo % 2 == 0
    ensures Play(s, WriteEvents(tid, []))
         == s.(seqNo := Wrap(s.seqNo + 1, s.modulus), count := s.count + 1, writer := Some(tid))
             .Goto(tid, Writing(s.seqNo))
  {
    var e, f := Event(tid, StartWrite), Event(tid, Finish);
    WriteClaims(s, tid);
    NoWordsYet(tid);
    hide Step, WriteEvents, Wrap;
    PlayLast(s, [], e);
    PlayLast(s, [] + [e], f);
    PlayLast(s, [] + [e] + [f], f);
    assert Play(s, []) == s;
  }

  lemma NoWordsYet(tid: nat)
    ensures WriteEvents(tid, []) == [] + [Event(tid, StartWrite)] + [Event(tid, Finish)] + [Event(tid, Finish)]
  {
  }

  /** Three steps from rest claim the counter. */
  lemma {:induction false} WriteClaims(s: State, tid: nat)
    requires ValidModulus(s.modulus) && s.Thread(tid).Idle? && s.seqNo % 2 == 0
    ensures Step(Step(Step(s, Event(tid, StartWrite)), Event(tid, Finish)), Event(tid, Finish))
         == s.(seqNo := Wrap(s.seqNo + 1, s.modulus), count := s.count + 1, writer := Some(tid))
             .Goto(tid, Writing(s.seqNo))
  {
    hide Wrap;
    assert Step(s, Event(tid, StartWrite)) == s.Goto(tid, WriteLoad);
    assert Step(s.Goto(tid, WriteLoad), Event(tid, Finish)) == s.Goto(tid, WriteCas(s.seqNo));
  }

  lemma WriteOneMore(tid: nat, data: seq<int>, before: seq<Reading>, last: Reading)
    requires last.index < |data| && forall k :: 0 <= k < |before| ==> before[k].index < |data|
    ensures WriteEvents(tid, before + [last])
         == WriteEvents(tid, before) + [Event(tid, Touch(last.index, last.value))]
    ensures Written(data, before + [last]) == Written(data, before)[last.index := last.value]
  {
    assert (before + [last])[..|before|] == before;
  }

  lemma {:induction false} WritesSoFar(s: State, tid: nat, words: seq<Reading>)
    requires ValidModulus(s.modulus) && s.Thread(tid).Idle? && s.seqNo % 2 == 0
    requires forall k :: 0 <= k < |words| ==> words[k].index < |s.data|
    ensures Play(s, WriteEvents(tid, words))
         == s.(seqNo := Wrap(s.seqNo + 1, s.modulus), count := s.count + 1, writer := Some(tid),
               data := Written(s.data, words)).Goto(tid, Writing(s.seqNo))
    decreases |words|
  {
    hide Wrap, WriteEvents, Play;
    if words == [] {
      WriteBegins(s, tid);
    } else {
      var before, last := words[..|words| - 1], words[|words| - 1];
      WritesSoFar(s, tid, before);
      assert words == before + [last];
      WriteOneMore(tid, s.data, before, last);
      PlayLast(s, WriteEvents(tid, before), Event(tid, Touch(last.index, last.value)));
    }
  }

  /**
   * Alone, with no writer inside, a write ends: its words are committed as a new version, and the counter is even
   * again.
   */
  lemma {:induction false} UndisturbedWrite(s: State, tid: nat, words: seq<Reading>)
    requires Inv(s) && s.Thread(tid).Idle? && s.writer == None
    requires forall k :: 0 <= k < |words| ==> words[k].index < |s.data|
    ensures var s' := Play(s, WriteEvents(tid, words) + [Event(tid, Finish)]);
      && s'.data == Written(s.data, words) && s'.versions == s.versions + [s'.data]
      && s'.count == s.count + 2 && s'.seqNo == Wrap(s.count + 2, s.modulus) && s'.seqNo % 2 == 0
      && s'.writer == None && s'.Thread(tid) == Idle(None)
  {
    WrapParity(s.count, s.modulus);
    WrapParity(s.count + 2, s.modulus);
    WrapSum(s.count, 2, s.modulus);
    hide Wrap;
    WritesSoFar(s, tid, words);
    PlayLast(s, WriteEvents(tid, words), Event(tid, Finish));
  }

  /** Versions are the data states at the ends of write callbacks, and are never revised. */
  lemma {:induction false} VersionsAreCommits(s: State, e: Event)
    requires Inv(s)
    ensures var s' := Step(s, e);
      if s.Thread(e.tid).Writing? && e.action == Finish
      then s'.versions == s.versions + [s.data] && s'.data == s.data
      else s'.versions == s.versions && (s'.data != s.data ==> s.Thread(e.tid).Writing?)
  {
  }

  // ---------------------------------------------------------------- the bound on concurrent writes is sharp

  lemma RunMore(modulus: nat, data: seq<int>, schedule: seq<Event>, e: Event)
    requires ValidModulus(modulus)
    ensures Run(modulus, data, schedule + [e]) == Step(Run(modulus, data, schedule), e)
  {
    assert (schedule + [e])[..|schedule|] == schedule;
  }

  /** Reader 0 has read word 0 before writer 1 committed k times, each time setting both words to 1. */
  predicate AfterCycles(s: State, k: nat) {
    && ValidModulus(s.modulus) && s.seqNo == Wrap(2 * k, s.modulus) && s.count == 2 * k
    && s.data == (if k == 0 then [0, 0] else [1, 1])
    && s.Thread(0) == InRead(0, 0, [Reading(0, 0)]) && s.Thread(1) == Idle(None)
    && forall v :: v in s.versions ==> v == [0, 0] || v == [1, 1]
  }

  const START := Event(1, StartWrite)
  const PROCEED := Event(1, Finish)
  const FIRST := Event(1, Touch(0, 1))
  const SECOND := Event(1, Touch(1, 1))

  /** One uninterrupted write: load, claim, two words, publish. */
  function WriteCycle(s: State): State
    requires ValidModulus(s.modulus)
  {
    Step(Step(Step(Step(Step(Step(s, START), PROCEED), PROCEED), FIRST), SECOND), PROCEED)
  }

  lemma {:induction false} WriteCycleEffect(s: State, k: nat)
    requires AfterCycles(s, k)
    ensures AfterCycles(WriteCycle(s), k + 1)
  {
    WrapParity(2 * k, s.modulus);
    WrapSum(2 * k, 2, s.modulus);
    hide Wrap;
    var n := s.seqNo;
    var s3 := s.(seqNo := Wrap(n + 1, s.modulus), count := s.count + 1, writer := Some(1));
    var s5 := s3.(data := [1, 1]);
    assert Step(Step(Step(s, START), PROCEED), PROCEED).(threads := s.threads) == s3;
    assert Step(Step(Step(s, START), PROCEED), PROCEED).Thread(1) == Writing(n);
    assert Step(Step(Step(Step(Step(s, START), PROCEED), PROCEED), FIRST), SECOND).(threads := s.threads) == s5;
  }

  lemma {:induction false} OneMoreCycle(modulus: nat, schedule: seq<Event>, k: nat) returns (longer: seq<Event>)
    requires ValidModulus(modulus) && AfterCycles(Run(modulus, [0, 0], schedule), k)
    ensures AfterCycles(Run(modulus, [0, 0], longer), k + 1)
  {
    WriteCycleEffect(Run(modulus, [0, 0], schedule), k);
    var s := Run(modulus, [0, 0], schedule);
    assert WriteCycle(s) == Step(Step(Step(Step(Step(Step(s, START), PROCEED), PROCEED), FIRST), SECOND), PROCEED);
    hide Step, Run, AfterCycles, WriteCycle;
    longer := schedule + [START];
    RunMore(modulus, [0, 0], schedule, START);
    RunMore(modulus, [0, 0], longer, PROCEED);
    longer := longer + [PROCEED];
    RunMore(modulus, [0, 0], longer, PROCEED);
    longer := longer + [PROCEED];
    RunMore(modulus, [0, 0], longer, FIRST);
    longer := longer + [FIRST];
    RunMore(modulus, [0, 0], longer, SECOND);
    longer := longer + [SECOND];
    RunMore(modulus, [0, 0], longer, PROCEED);
    longer := longer + [PROCEED];
  }

  lemma {:induction false} ManyCycles(modulus: nat, k: nat) returns (schedule: seq<Event>)
    requires ValidModulus(modulus)
    ensures AfterCycles(Run(modulus, [0, 0], schedule), k)
  {
    hide Run, Step, Inv, AfterCycles;
    if k == 0 {
      schedule := ReaderBegins(modulus);
    } else {
      schedule := ManyCycles(modulus, k - 1);
      schedule := OneMoreCycle(modulus, schedule, k - 1);
    }
  }

  lemma {:induction false} ReaderBegins(modulus: nat) returns (schedule: seq<Event>)
    requires ValidModulus(modulus)
    ensures AfterCycles(Run(modulus, [0, 0], schedule), 0)
  {
    hide Run, Step, Inv, AfterCycles;
    var e1, e2, e3 := Event(0, StartRead), Event(0, Finish), Event(0, Touch(0, 0));
    RunStarts(modulus, [0, 0]);
    RunMore(modulus, [0, 0], [], e1);
    RunMore(modulus, [0, 0], [] + [e1], e2);
    RunMore(modulus, [0, 0], [] + [e1] + [e2], e3);
    schedule := [] + [e1] + [e2] + [e3];
    FirstSteps(modulus);
  }

  lemma RunStarts(modulus: nat, data: seq<int>)
    requires ValidModulus(modulus)
    ensures Run(modulus, data, []) == Init(modulus, data)
  {
  }

  /** The reader loads the counter, enters its callback and reads the first word. */
  lemma {:induction false} FirstSteps(modulus: nat)
    requires ValidModulus(modulus)
    ensures var s := Init(modulus, [0, 0]);
      AfterCycles(Step(Step(Step(s, Event(0, StartRead)), Event(0, Finish)), Event(0, Touch(0, 0))), 0)
  {
    WrapSum(0, 0, modulus);
  }

  /** With exactly modulus / 2 commits in its window, a read of two words is accepted although it is torn. */
  lemma {:induction false} WrappedReadCanBeTorn(modulus: nat) returns (schedule: seq<Event>)
    requires ValidModulus(modulus)
    ensures var s := Run(modulus, [0, 0], schedule);
      match s.Thread(0)
      case Idle(Some(Snapshot(log, start, stop))) =>
        start == 0 && stop == modulus && forall v :: v in s.versions ==> !SeenIn(log, v)
      case _ => false
  {
    hide Run, Step, Inv, AfterCycles;
    schedule := ManyCycles(modulus, modulus / 2);
    var e1, e2 := Event(0, Touch(1, 0)), Event(0, Finish);
    LastSteps(Run(modulus, [0, 0], schedule));
    RunMore(modulus, [0, 0], schedule, e1);
    RunMore(modulus, [0, 0], schedule + [e1], e2);
    schedule := schedule + [e1] + [e2];
  }

  /** The reader's second word and its closing check, after half a modulus of writes. */
  lemma {:induction false} LastSteps(s: State)
    requires ValidModulus(s.modulus) && AfterCycles(s, s.modulus / 2)
    ensures var s' := Step(Step(s, Event(0, Touch(1, 0))), Event(0, Finish));
      match s'.Thread(0)
      case Idle(Some(Snapshot(log, start, stop))) =>
        start == 0 && stop == s.modulus && forall v :: v in s'.versions ==> !SeenIn(log, v)
      case _ => false
  {
    WrapsToZero(s.modulus);
    hide Wrap;
    var log := [Reading(0, 0)] + [Reading(1, 1)];
    assert log[0] in log && log[1] in log;
  }

  lemma WrapsToZero(m: nat)
    requires ValidModulus(m)
    ensures Wrap(2 * (m / 2), m) == 0
  {
    ModuloUnique(m, m, 1, 0);
  }

  /** Every accepted read during which at most k writes were committed saw, word for word, one version. */
  ghost predicate ReadsAreSound(modulus: nat, k: nat)
    requires ValidModulus(modulus)
  {
    forall data: seq<int>, schedule: seq<Event>, tid: nat ::
      ReadIsSound(Run(modulus, data, schedule), Run(modulus, data, schedule).Thread(tid), k)
  }

  ghost predicate ReadIsSound(s: State, pc: Pc, k: nat) {
    match pc
    case Idle(Some(Snapshot(log, start, stop))) =>
      stop <= start + 2 * k ==> exists v :: v in s.versions && SeenIn(log, v)
    case _ => true
  }

  /** For any counter width: fewer than half its range of writes within a read keep reads sound, and no more do. */
  lemma {:induction false} SoundBelowHalfARange(modulus: nat, k: nat)
    requires ValidModulus(modulus)
    ensures ReadsAreSound(modulus, k) <==> k < modulus / 2
  {
    hide Run, Step, Inv, SeenIn;
    if k < modulus / 2 {
      forall data: seq<int>, schedule: seq<Event>, tid: nat
        ensures ReadIsSound(Run(modulus, data, schedule), Run(modulus, data, schedule).Thread(tid), k)
      {
        AcceptedReadIsOneVersion(modulus, data, schedule, tid);
      }
    } else {
      var schedule := WrappedReadCanBeTorn(modulus);
      assert !ReadIsSound(Run(modulus, [0, 0], schedule), Run(modulus, [0, 0], schedule).Thread(0), k);
    }
  }

  /** The source's counter is a 64-bit word, so the bound is 2^63 writes within one read. */
  lemma {:induction false} WordModulus(data: seq<int>, schedule: seq<Event>, tid: nat)
    ensures ValidModulus(WORD)
    ensures var s := Run(WORD, data, schedule);
      match s.Thread(tid)
      case Idle(Some(Snapshot(log, start, stop))) =>
        (stop - start) / 2 < 0x8000_0000_0000_0000 ==> exists v :: v in s.versions && SeenIn(log, v)
      case _ => true
  {
    hide Run, Step, Inv, SeenIn;
    AcceptedReadIsOneVersion(WORD, data, schedule, tid);
  }
}
