/**
 * The slab allocator and its intrusive free list. A slot is a union: while it is free its storage is the link to the
 * next free slot, while it is live its storage is the object. Reading the link of a live slot has no meaning, so
 * every read of a link below comes with the proof that the slot is free.
 */
module Slab {
  datatype Storage<T> = Link(next: Slot?<T>) | Object(value: T)

  class Slot<T> {
    var storage: Storage<T>

    constructor ()
      ensures storage == Link(null)
    {
      storage := Link(null);
    }
  }

  function SetOf<T>(slots: seq<Slot<T>>): (r: set<Slot<T>>)
    ensures (forall s :: s in r ==> s in slots) && (forall s :: s in slots ==> s in r)
  {
    set s | s in slots
  }

  function Elements<T>(chunks: seq<seq<Slot<T>>>): set<Slot<T>> {
    if chunks == [] then {} else Elements(chunks[..|chunks| - 1]) + SetOf(chunks[|chunks| - 1])
  }

  predicate Distinct<T>(slots: seq<Slot<T>>) {
    forall i, j :: 0 <= i < j < |slots| ==> slots[i] != slots[j]
  }

  /** The list is threaded through the slots and ends. */
  predicate Threaded<T>(list: seq<Slot<T>>)
    reads list
  {
    forall i {:trigger list[i].storage} :: 0 <= i < |list| ==>
              list[i].storage == Link(if i + 1 < |list| then list[i + 1] else null)
  }

  lemma {:induction false} DistinctSize<T>(slots: seq<Slot<T>>)
    requires Distinct(slots)
    ensures |SetOf(slots)| == |slots|
  {
    if slots != [] {
      DistinctSize(slots[1..]);
      assert SetOf(slots) == {slots[0]} + SetOf(slots[1..]);
    }
  }

  lemma {:induction false} ElementsStep<T>(chunks: seq<seq<Slot<T>>>, chunk: seq<Slot<T>>)
    ensures Elements(chunks + [chunk]) == Elements(chunks) + SetOf(chunk)
  {
    assert (chunks + [chunk])[..|chunks|] == chunks;
  }

  lemma {:induction false} OneMoreTimes(k: nat, n: nat)
    ensures (k + 1) * n == k * n + n
  {
  }

  /** The chunks own n slots each, all different. */
  predicate Chunked<T>(chunks: seq<seq<Slot<T>>>, slots: set<Slot<T>>, n: nat) {
    && slots == Elements(chunks) && |slots| == |chunks| * n
    && forall c :: c in chunks ==> |c| == n
  }

  lemma {:induction false} OneMoreChunk<T>(chunks: seq<seq<Slot<T>>>, slots: set<Slot<T>>, chunk: seq<Slot<T>>, n: nat)
    requires Chunked(chunks, slots, n) && Distinct(chunk) && |chunk| == n
    requires SetOf(chunk) !! slots
    ensures Chunked(chunks + [chunk], slots + SetOf(chunk), n)
  {
    hide Elements, SetOf, Distinct;
    DistinctSize(chunk);
    ElementsStep(chunks, chunk);
    OneMoreTimes(|chunks|, n);
  }

  function First<T>(list: seq<Slot<T>>): Slot?<T> {
    if list == [] then null else list[0]
  }

  lemma {:induction false} PushedList<T>(s: Slot<T>, list: seq<Slot<T>>)
    requires Distinct(list) && Threaded(list) && s !in list && s.storage == Link(First(list))
    ensures Distinct([s] + list) && Threaded([s] + list)
  {
  }

  lemma {:induction false} PoppedList<T>(list: seq<Slot<T>>)
    requires list != [] && Distinct(list) && Threaded(list)
    ensures list[0].storage == Link(First(list[1..])) && list[0] !in list[1..]
    ensures Distinct(list[1..]) && Threaded(list[1..])
  {
  }

  class Allocator<T> {
    const chunkObjects: nat
    var chunks: seq<seq<Slot<T>>>
    var freeListHead: Slot?<T>

    ghost var free: seq<Slot<T>>  // from the head of the free list on
    ghost var slots: set<Slot<T>>  // every slot of every chunk

    ghost predicate Listed()
      reads this, free
    {
      && Distinct(free) && Threaded(free)
      && freeListHead == First(free)
    }

    ghost predicate Valid()
      reads this, slots, free
    {
      && chunkObjects > 0 && Chunked(chunks, slots, chunkObjects) && Listed()
      && (forall s :: s in free ==> s in slots)
      && (forall s :: s in slots && s !in free ==> s.storage.Object?)
    }

    /** The slots handed out and not given back. */
    ghost function Live(): set<Slot<T>>
      reads this
    {
      slots - SetOf(free)
    }

    constructor (chunkObjects: nat)
      requires chunkObjects > 0
      ensures Valid() && this.chunkObjects == chunkObjects && chunks == [] && free == [] && Live() == {}
    {
      this.chunkObjects := chunkObjects;
      chunks, freeListHead, free, slots := [], null, [], {};
    }

    method NewChunk() returns (chunk: seq<Slot<T>>)
      ensures |chunk| == chunkObjects && Distinct(chunk)
      ensures fresh(chunk)
    {
      chunk := [];
      while |chunk| < chunkObjects
        invariant |chunk| <= chunkObjects && Distinct(chunk)
        invariant fresh(chunk)
      {
        var slot := new Slot<T>();
        chunk := chunk + [slot];
      }
    }

    /** Puts the slots of a new chunk on the free list, each before the last. */
    method ChainSlots(chunk: seq<Slot<T>>)
      requires Listed() && |chunk| == chunkObjects && Distinct(chunk)
      requires forall s :: s in chunk ==> s !in free
      modifies this`freeListHead, this`free, chunk
      ensures Listed() && |free| == chunkObjects + |old(free)| && free[chunkObjects..] == old(free)
      ensures SetOf(free) == SetOf(chunk) + SetOf(old(free))
    {
      hide Threaded, SetOf;
      var i := 0;
      while i < chunkObjects
        modifies this`freeListHead, this`free, chunk
        invariant i <= chunkObjects
        invariant Listed() && |free| == i + |old(free)| && free[i..] == old(free)
        invariant forall s :: s in free <==> s in chunk[..i] || s in old(free)
      {
        var slot := chunk[i];
        assert slot !in free;
        slot.storage := Link(freeListHead);
        freeListHead := slot;
        PushedList(slot, free);
        free := [slot] + free;
        i := i + 1;
      }
      assert chunk[..i] == chunk;
    }

    /** A chunk of free slots; whatever was live stays so. */
    method AllocateChunk()
      requires Valid()
      modifies this
      ensures Valid() && |chunks| == |old(chunks)| + 1
      ensures free != [] && Live() == old(Live())
      ensures forall s :: s in slots ==> s in old(slots) || fresh(s)
    {
      hide Elements, SetOf, Distinct, Threaded, Chunked;
      var chunk := NewChunk();
      ChainSlots(chunk);
      OneMoreChunk(chunks, slots, chunk, chunkObjects);
      assert forall s :: s in free ==> s as object != this;
      chunks := chunks + [chunk];
      slots := slots + SetOf(chunk);
      assert Listed();
      assert forall s :: s in slots && s !in free ==> s in old(slots) && s !in old(free);
    }

    /** Constructs value in a slot nobody holds; a chunk is added only when every slot is live. */
    method Allocate(value: T) returns (slot: Slot<T>)
      requires Valid()
      modifies this, free
      ensures Valid()
      ensures slot !in old(Live()) && Live() == old(Live()) + {slot} && slot.storage == Object(value)
      ensures |chunks| == |old(chunks)| + (if old(Live()) == old(slots) then 1 else 0)
      ensures old(free) != [] ==> slot == old(free[0]) && free == old(free[1..])
      ensures forall s :: s in slots ==> s in old(slots) || fresh(s)
    {
      hide Distinct, Threaded, SetOf, Elements, Chunked;
      if freeListHead == null {
        AllocateChunk();
      }
      PoppedList(free);
      slot := freeListHead;
      freeListHead := slot.storage.next;
      free := free[1..];
      slot.storage := Object(value);
    }

    /** The caller passes null or an object it got from Allocate and has not given back. */
    method Deallocate(p: Slot?<T>)
      requires Valid()
      requires p != null ==> p in Live()
      modifies this, p
      ensures Valid() && chunks == old(chunks) && slots == old(slots)
      ensures p == null ==> free == old(free)
      ensures p != null ==> free == [p] + old(free) && Live() == old(Live()) - {p}
    {
      if p == null {
        return;
      }
      hide Distinct, Threaded, SetOf, Elements, Chunked;
      var slot: Slot<T> := p;
      assert forall s :: s in free ==> s as object != this;
      slot.storage := Link(freeListHead);
      PushedList(slot, free);
      freeListHead := slot;
      free := [slot] + free;
      assert Listed();
    }

    /** Where k steps along the links lead from the head of the list. */
    ghost function Follow(k: nat): Slot?<T>
      reads this, slots, free
      requires Valid()
    {
      if k == 0 then freeListHead
      else
        var s := Follow(k - 1);
        if s != null && s in slots && s.storage.Link? then s.storage.next else null
    }

    lemma {:induction false} FollowIsFree(k: nat)
      requires Valid()
      ensures Follow(k) == if k < |free| then free[k] else null
    {
      if k > 0 {
        FollowIsFree(k - 1);
      }
    }

    /** The list never returns to a slot, and it ends after as many steps as there are free slots. */
    lemma {:induction false} ListIsAcyclic(j: nat, k: nat)
      requires Valid() && j < k
      ensures Follow(k) != null ==> Follow(j) != Follow(k)
      ensures Follow(j) == null <==> j >= |free|
    {
      FollowIsFree(j);
      FollowIsFree(k);
    }

    /** Every slot is on the list or holds an object, never both, and there are chunks * chunkObjects of them. */
    lemma {:induction false} FreeAndLivePartition(s: Slot<T>)
      requires Valid()
      ensures s in Live() <==> s in slots && s.storage.Object?
      ensures s in slots && s.storage.Link? <==> exists k: nat :: k < |free| && Follow(k) == s
      ensures |Live()| + |free| == |chunks| * chunkObjects
    {
      DistinctSize(free);
      assert slots == Live() + SetOf(free);
      if s in free {
        var k :| 0 <= k < |free| && free[k] == s;
        FollowIsFree(k);
      }
      forall k: nat | k < |free|
        ensures Follow(k) == free[k]
      {
        FollowIsFree(k);
      }
    }
  }
}
