/** A bounded queue by its effects: what the ring offers, and what the machines built on it use. */
module Fifo {
  import opened Wrappers

  datatype Effect<T> = Quiet | In(item: T) | Out(item: T)

  function Apply<T(==)>(q: seq<T>, e: Effect<T>, capacity: nat): Option<seq<T>> {
    match e
    case Quiet => Some(q)
    case In(x) => if |q| < capacity then Some(q + [x]) else None
    case Out(x) => if q != [] && q[0] == x then Some(q[1..]) else None
  }

  /** The contents after a history of effects from the empty queue, if it is a legal one. */
  function Replay<T(==)>(history: seq<Effect<T>>, capacity: nat): Option<seq<T>> {
    if history == [] then Some([])
    else
      match Replay(history[..|history| - 1], capacity)
      case None => None
      case Some(q) => Apply(q, history[|history| - 1], capacity)
  }

  lemma DropAppend<T>(s: seq<T>, n: nat, x: T)
    requires n <= |s|
    ensures (s + [x])[n..] == s[n..] + [x]
  {
  }

  /** What came in over a history, and how many went out. */
  function Ins<T>(history: seq<Effect<T>>): seq<T> {
    if history == [] then []
    else
      var last := history[|history| - 1];
      Ins(history[..|history| - 1]) + if last.In? then [last.item] else []
  }

  function Outs<T>(history: seq<Effect<T>>): nat {
    if history == [] then 0 else Outs(history[..|history| - 1]) + if history[|history| - 1].Out? then 1 else 0
  }

  /** The contents are what came in, in order, less the oldest that went out. */
  lemma {:induction false} ReplayIsInsLessOuts<T>(history: seq<Effect<T>>, capacity: nat)
    requires Replay(history, capacity).Some?
    ensures Outs(history) <= |Ins(history)| && Outs(history) <= |history|
    ensures Replay(history, capacity).value == Ins(history)[Outs(history)..]
  {
    if history != [] {
      var before, last := history[..|history| - 1], history[|history| - 1];
      ReplayIsInsLessOuts(before, capacity);
      if last.In? {
        DropAppend(Ins(before), Outs(before), last.item);
      }
    }
  }
}
