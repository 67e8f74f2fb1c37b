# Jellybean, verified

A Dafny model of the core of Jellybean, a C++ inference runtime built on hand-written concurrent and low-level
primitives. Each module models one component and proves what the component is for.

* `WorkStealingDeque`, `MpmcQueue`, `SpscQueue`, `Seqlock`: lock-free structures. Each is a state machine in which
  every atomic load, store or compare-and-swap (and, for the seqlock, every word a callback touches) is one step of
  one thread; a run is any sequence of such steps. Steps are sequentially consistent. An inductive invariant over
  the memory, every thread's program counter and its stale local copies is carried through all runs, and each step
  is shown to refine an abstract deque, FIFO or register. The queues and the deque also appear as classes whose
  methods have the source's own form and run uninterrupted; their contracts are stated on the same contents.
* `Words`, `Crc32c`, `PolynomialDivision`, `Frame`: the frame codec. Words are sequences of bits, so the checksum can
  be compared with polynomial division as it is defined; the table form and the 8-byte form are loops proved equal to
  it. Encoding and parsing undo each other, and corruption is detected.
* `Bits`: masks and power-of-two arithmetic, proved against division and remainder. `Fifo`: a bounded queue by its
  effects, which the ticketed ring has and which the two machines built on it use.
* `TimerWheel`, `Arena`, `Slab`, `Histogram`: structures that must agree with something simple, namely a list of
  timers, a set of disjoint intervals, a partition of slots, and the sorted samples.
* `Executor`, `Reactor`: the batching executor and the path of a suspended coroutine, as state machines of any number
  of threads. A record of where every request or handle is makes "exactly one place" an invariant. The loops of both
  also appear as classes whose methods run uninterrupted.

Where a promise does not hold of the code, the model keeps the code and states the exact condition:

* The seqlock's reader can accept a torn read when the counter comes back to where it was, which takes 2^63 writes
  within one read; below that it cannot.
* After `reset()` on an arena of several blocks the next new block overwrites a link, so blocks behind it are no
  longer reachable. The intervals handed out stay disjoint, but the destructor frees everything exactly when no
  allocation took the slow path while the current block was not the last of its chain.
* `stop()` leaves tasks in the executor's queue; their futures are not resolved. At rest, unanswered and queued are
  the same.
* `size()` of the single-producer ring loads two counters one after the other. Called by the producer or the consumer
  it is right; a third thread that loads the tail first sees it wrap exactly when the consumer then passes that tail, and
  a run shows it.
* The ticketed ring's refusals are about one ticket: a stalled consumer can make `emplace` fail although the queue is
  empty and another slot is free, and a run shows it. A refusal means full, or empty, exactly when no thread is at work on
  the ticket it waits for.
* `include/jellybean/telemetry/metrics.hpp:35` calls the histogram's percentiles exact. The code answers with the power of
  two at or below the sample, and 1 for the sample 0: it is exact exactly for powers of two.
* A timer callback that arms a timer a whole number of turns ahead puts it in the slot being walked. In a slot with room
  to grow the walk goes on to it before its time, and exactly then; one that re-arms itself so never ends.

`dafny verify dfyconfig.toml` checks the whole project.

## Model

| member | source | states |
|---|---|---|
| `WorkStealingDeque.LoadStore` | include/jellybean/scheduler/work_stealing_deque.hpp:155-180 | a stored index reads back, and no other index less than one capacity away is disturbed |
| `WorkStealingDeque.StepKeeps` | include/jellybean/scheduler/work_stealing_deque.hpp:70-193 | the invariant over the owner's program counter, its stale copies of top and array, and every stealer's, survives each step of each thread |
| `WorkStealingDeque.Run` | include/jellybean/scheduler/work_stealing_deque.hpp:46-193 | every interleaving of one owner and any number of stealers satisfies the invariant |
| `WorkStealingDeque.RunIsLinearizable` | include/jellybean/scheduler/work_stealing_deque.hpp:70-151 | the log of effects replays on an abstract deque (push at the back, pop from the back, steal from the front, owner's empty answer only when empty) to exactly the contents, and the owner's part of it is what its calls returned |
| `WorkStealingDeque.CallsAreAnswered` | include/jellybean/scheduler/work_stealing_deque.hpp:70-121 | over every run the owner's calls, in order, are the owner's operations of that history: a push of x is the push of x, a pop is a pop, and only a call still running may be missing |
| `WorkStealingDeque.RunConserves` | include/jellybean/scheduler/work_stealing_deque.hpp:70-151 | what was pushed is, as a multiset, what was handed out by pop or steal plus what is still there |
| `WorkStealingDeque.LegalHistoryConserves` | include/jellybean/scheduler/work_stealing_deque.hpp:70-151 | any history an abstract deque accepts conserves items |
| `WorkStealingDeque.StealInFlight` | include/jellybean/scheduler/work_stealing_deque.hpp:136-147 | while a stealer's compare-and-swap on top can still succeed, the array it holds, current or retired, has the oldest item in its slot, and so is the item it has copied |
| `WorkStealingDeque.PushNeverWraps` | include/jellybean/scheduler/work_stealing_deque.hpp:70-86 | the slot push writes is the slot of no live index, although the owner's copy of top may be stale |
| `WorkStealingDeque.CopyKeeps` | include/jellybean/scheduler/work_stealing_deque.hpp:185-193 | after each copying step of resize, the new ring holds every index copied so far |
| `WorkStealingDeque.OwnerIsWaitFree` | include/jellybean/scheduler/work_stealing_deque.hpp:70-121 | each step of push or pop strictly shortens the call, whatever the stealers do |
| `WorkStealingDeque.GrowsExactlyWhenFull` | include/jellybean/scheduler/work_stealing_deque.hpp:70-79 | a push starts a ring of twice the capacity exactly when the one it has looks full from the end it read and its copy of top |
| `WorkStealingDeque.UndisturbedSteal` | include/jellybean/scheduler/work_stealing_deque.hpp:128-151 | a steal whose five steps are not disturbed takes the front whenever top is below bottom, and otherwise gives up after two |
| `WorkStealingDeque.Deque.Push` | include/jellybean/scheduler/work_stealing_deque.hpp:70-86 | appends at the back; grows exactly when the ring is full, retiring the old ring |
| `WorkStealingDeque.Deque.Resize` | include/jellybean/scheduler/work_stealing_deque.hpp:185-193 | doubles the ring and keeps the contents and their indices |
| `WorkStealingDeque.Deque.Pop` | include/jellybean/scheduler/work_stealing_deque.hpp:93-121 | returns the back, or nothing exactly when empty or when a rival takes the last item between the load of top and the compare-and-swap |
| `WorkStealingDeque.Deque.Steal` | include/jellybean/scheduler/work_stealing_deque.hpp:128-151 | returns the front, or nothing exactly when empty or when a rival takes the front before the compare-and-swap |
| `MpmcQueue.StepKeeps` | include/jellybean/concurrency/mpmc_queue.hpp:85-148 | the invariant over tickets, sequence numbers, storage and every thread's position survives each step |
| `MpmcQueue.Run` | include/jellybean/concurrency/mpmc_queue.hpp:50-148 | every interleaving of any number of producers and consumers satisfies the invariant, for every power of two from 2 |
| `MpmcQueue.StorageIsExclusive` | include/jellybean/concurrency/mpmc_queue.hpp:93-141 | two threads that own tickets never own the same slot's storage |
| `MpmcQueue.ReadingShowsFree` | include/jellybean/concurrency/mpmc_queue.hpp:88-94 | a sequence number read equal to the next ticket shows the slot free |
| `MpmcQueue.ReadingShowsPublished` | include/jellybean/concurrency/mpmc_queue.hpp:119-126 | a sequence number read one past the next ticket to take shows that ticket published |
| `MpmcQueue.StepRefinesFifo` | include/jellybean/concurrency/mpmc_queue.hpp:85-148 | each step appends the producer's own value to a bounded queue, removes its front, or leaves it alone |
| `MpmcQueue.CallsKeepTheirArgument` | include/jellybean/concurrency/mpmc_queue.hpp:85-148 | over every run, whatever retries, a thread works on the call it began: an emplace of x that is accepted has x under its ticket |
| `MpmcQueue.RetriesAtTheFoundPosition` | include/jellybean/concurrency/mpmc_queue.hpp:88-146 | a failed compare-and-swap tries again at the position it found, a slot already lapped at a fresh load |
| `MpmcQueue.PopReturnsItsTicketsValue` | include/jellybean/concurrency/mpmc_queue.hpp:85-148 | a finished pop holding ticket p returned the value stored under ticket p and p was its own; dequeue position <= enqueue position <= dequeue position + capacity |
| `MpmcQueue.TicketsAreServedOnce` | include/jellybean/concurrency/mpmc_queue.hpp:94-141 | values and owners of tickets never change; a ticket is published once and released once |
| `MpmcQueue.EmplaceRefusal` | include/jellybean/concurrency/mpmc_queue.hpp:88-110 | emplace gives up exactly when the ticket one lap before its position has not been released |
| `MpmcQueue.PopRefusal` | include/jellybean/concurrency/mpmc_queue.hpp:119-146 | try_pop gives up exactly when the ticket at its position has not been published |
| `MpmcQueue.RefusedMeansFull` | include/jellybean/concurrency/mpmc_queue.hpp:88-110 | whatever is in flight, a refused emplace means full exactly when no consumer is between its claim and its release of the ticket one lap before its position |
| `MpmcQueue.NothingMeansEmpty` | include/jellybean/concurrency/mpmc_queue.hpp:119-146 | whatever is in flight, an empty-handed pop means empty exactly when no producer is between its claim and its publication of the ticket at its position |
| `MpmcQueue.QuiescentRefusals` | include/jellybean/concurrency/mpmc_queue.hpp:88-146 | with no call in flight the tests of emplace and try_pop mean exactly full and exactly empty |
| `MpmcQueue.StalledConsumerBlocks` | include/jellybean/concurrency/mpmc_queue.hpp:88-148 | a run with a stalled consumer in which emplace is refused although the queue is empty and another slot is free |
| `MpmcQueue.RunIsFifoHistory` | include/jellybean/concurrency/mpmc_queue.hpp:85-148 | every run, by the effects of its steps, is a legal history of a bounded queue and leaves it with the same contents |
| `MpmcQueue.CapacityOneOverruns` | include/jellybean/concurrency/mpmc_queue.hpp:39-40 | why capacity must be at least 2: with one slot a second producer overwrites an item nobody took |
| `MpmcQueue.Queue.constructor` | include/jellybean/concurrency/mpmc_queue.hpp:50-54 | an empty queue, slot i carrying sequence i |
| `MpmcQueue.Queue.Emplace` | include/jellybean/concurrency/mpmc_queue.hpp:85-112 | undisturbed, appends, and refuses exactly when full, however often the weak compare-and-swap fails |
| `MpmcQueue.Queue.TryPop` | include/jellybean/concurrency/mpmc_queue.hpp:117-148 | undisturbed, takes the front, and comes back empty-handed exactly when empty |
| `SpscQueue.WrappedSlot` | include/jellybean/concurrency/spsc_queue.hpp:86-131 | masking a wrapped 64-bit counter reaches the slot the unbounded counter names, for every power-of-two capacity |
| `SpscQueue.Decisions` | include/jellybean/concurrency/spsc_queue.hpp:86-137 | the full, empty and distance tests on wrapped counters decide as on unbounded ones |
| `SpscQueue.StepKeeps` | include/jellybean/concurrency/spsc_queue.hpp:85-137 | the invariant over both counters, the slots and both threads' positions survives each step |
| `SpscQueue.Run` | include/jellybean/concurrency/spsc_queue.hpp:85-137 | every interleaving of the producer and the consumer satisfies the invariant across any number of wraparounds |
| `SpscQueue.StepRefinesFifo` | include/jellybean/concurrency/spsc_queue.hpp:85-137 | each step is one of a bounded FIFO or none; a refusal happens exactly when it is full, an empty-handed pop exactly when it is empty |
| `SpscQueue.PushKeepsItsItem` | include/jellybean/concurrency/spsc_queue.hpp:85-109 | over every run the producer works on the item it was called with, and once accepted that item is the last stored |
| `SpscQueue.StorageDiscipline` | include/jellybean/concurrency/spsc_queue.hpp:96-131 | construction happens on raw storage, a move finds the front item, and the two never meet in one slot |
| `SpscQueue.SizeTailFirst` | include/jellybean/concurrency/spsc_queue.hpp:149-151 | over any run: with the tail loaded first, size() is the true distance exactly when the consumer has not passed that tail before the head is loaded, and then at most the capacity |
| `SpscQueue.SizeHeadFirst` | include/jellybean/concurrency/spsc_queue.hpp:149-151 | with the head loaded first, which the language allows too, it is the true distance exactly when that is less than 2^64 |
| `SpscQueue.SizeOnOwnThread` | include/jellybean/concurrency/spsc_queue.hpp:149-151 | called by the producer or by the consumer, in either order, it is the number of items at one of the two loads: it cannot wrap |
| `SpscQueue.SizeCanWrap` | include/jellybean/concurrency/spsc_queue.hpp:149-151 | seen from a third thread it can: the tail of the empty ring, one push, one pop, then the head give 2^64 - 1 |
| `SpscQueue.Queue.Emplace` | include/jellybean/concurrency/spsc_queue.hpp:85-109 | appends, and refuses exactly when full |
| `SpscQueue.Queue.TryPop` | include/jellybean/concurrency/spsc_queue.hpp:116-137 | takes the front, or nothing exactly when empty |
| `SpscQueue.Queue.Size` | include/jellybean/concurrency/spsc_queue.hpp:149-151 | undisturbed, the number of items |
| `Seqlock.StepKeeps` | include/jellybean/concurrency/seqlock.hpp:51-112 | the invariant over the counter, the data and every thread's position survives each step, callbacks touching one word at a time |
| `Seqlock.OneWriter` | include/jellybean/concurrency/seqlock.hpp:52-79 | at most one thread is inside its write callback, and the counter is odd exactly while one is |
| `Seqlock.AcceptsIffCounterUnmoved` | include/jellybean/concurrency/seqlock.hpp:104-110 | a read is accepted exactly when the wrapped counter equals its first load, and starts over otherwise |
| `Seqlock.UnclaimedReadIsAccepted` | include/jellybean/concurrency/seqlock.hpp:96-110 | a read during which no write was claimed is accepted, with words that are still the data |
| `Seqlock.CallsGoOn` | include/jellybean/concurrency/seqlock.hpp:52-112 | a write goes on until it commits and a read until it is accepted; no other step ends a call |
| `Seqlock.UndisturbedRead` | include/jellybean/concurrency/seqlock.hpp:89-112 | alone and with no writer inside, a read returns the words it asked for and changes nothing else |
| `Seqlock.UndisturbedWrite` | include/jellybean/concurrency/seqlock.hpp:51-79 | alone and with no writer inside, a write ends, its words are committed as a version, and the counter is even again, two further |
| `Seqlock.AcceptedReadIsOneVersion` | include/jellybean/concurrency/seqlock.hpp:89-112 | an accepted read saw, word for word, the version last committed when it began, if fewer than half a counter's range of writes was committed meanwhile |
| `Seqlock.WordModulus` | include/jellybean/concurrency/seqlock.hpp:89-112 | for the 64-bit counter: fewer than 2^63 writes within one read |
| `Seqlock.SoundBelowHalfARange` | include/jellybean/concurrency/seqlock.hpp:89-112 | for every counter width and k: in all runs every accepted read during which at most k writes were committed saw one version, exactly when k is less than half the counter's range |
| `Seqlock.WrappedReadCanBeTorn` | include/jellybean/concurrency/seqlock.hpp:96-106 | at exactly that many writes the counter is back and a torn read is accepted: the bound is sharp, for every counter width |
| `Seqlock.VersionsAreCommits` | include/jellybean/concurrency/seqlock.hpp:68-78 | versions are the data at the ends of write callbacks, are never revised, and only the writer changes data |
| `Crc32c.MakeTable` | src/proto/codec.cpp:20-34 | each of the 256 entries is eight polynomial steps of its index |
| `Crc32c.TableStep` | src/proto/codec.cpp:41-45 | one table lookup, shift and exclusive-or equals feeding the byte bit by bit |
| `Crc32c.Software` | src/proto/codec.cpp:38-47 | the table-driven loop computes the bit-by-bit checksum, for every byte sequence |
| `Crc32c.Hardware` | src/proto/codec.cpp:51-76 | the loop over 8-byte little-endian chunks and then single bytes computes the same checksum |
| `Crc32c.LoadChunkBits` | src/proto/codec.cpp:57-60 | the bits of the 64-bit value that a little-endian load of eight bytes gives, lowest first, are the message bits in order |
| `Crc32c.StepLinear` | src/proto/codec.cpp:24-30 | the bit step distributes over exclusive-or |
| `Crc32c.StepInjective` | src/proto/codec.cpp:24-30 | the bit step loses no information |
| `Crc32c.FeedBitsIsXor` | src/proto/codec.cpp:41-45 | feeding up to 32 bits is stepping the register exclusive-or those bits |
| `Crc32c.BitBurstDetected` | src/proto/codec.cpp:38-47 | any change confined to 32 consecutive bits changes the register |
| `Crc32c.BurstDetected` | src/proto/codec.cpp:51-76 | equal-length messages that differ only inside four consecutive bytes have different checksums |
| `Crc32c.OddBitErrorsDetected` | src/proto/codec.cpp:51-76 | messages whose bits differ in parity have different checksums |
| `PolynomialDivision.RegisterDivides` | src/proto/codec.cpp:38-47 | feeding a message is long division by the generator: dividend = quotient * generator + register |
| `PolynomialDivision.GeneratorIsCrc32c` | src/proto/codec.cpp:15 | the source's constant is the generator of section 12.1 of RFC 3720: its coefficients are set exactly at the listed exponents |
| `PolynomialDivision.DividendOfInitial` | src/proto/codec.cpp:40 | the initial register complements the first 32 coefficients of the message times x^32 |
| `PolynomialDivision.DivisionUnique` | src/proto/codec.cpp:20-47 | a division by the generator has one quotient and one remainder |
| `PolynomialDivision.CrcIsTheRemainder` | src/proto/codec.cpp:51-76 | the checksum is r exactly when its complement is the remainder of the message polynomial, as section 12.1 of RFC 3720 defines it |
| `Frame.LayoutForPayload` | include/jellybean/proto/frame.hpp:7-22 | padding to the next multiple of 8, checksum offset and total size |
| `Frame.LayoutSize` | include/jellybean/proto/wire.hpp:55-66 | layout_for_payload and encoded_frame_size agree |
| `Bits.PowerOfTwoTest` | src/memory/arena.cpp:76 | n & (n - 1) is zero exactly for powers of two |
| `Bits.ComplementMaskClears` | src/memory/arena.cpp:81 | x & ~(n - 1) on a word clears exactly the remainder modulo n |
| `Bits.AlignUp` | include/jellybean/proto/wire.hpp:55-58 | the bit-mask rounding is the least multiple not below: a multiple, at least the value, less than one alignment above |
| `Frame.HeaderRoundTrip` | include/jellybean/proto/wire.hpp:25-37 | reading back written header bytes gives the same fields |
| `Frame.HeaderBytesOfRead` | include/jellybean/proto/wire.hpp:25-37 | writing back read fields gives the same 32 bytes |
| `Frame.HeaderOffsets` | include/jellybean/proto/wire.hpp:25-37 | where each field of the header is, and how wide |
| `Frame.EncodeFrame` | src/proto/codec.cpp:108-143 | returns encoded_frame_size, or 0 and an untouched buffer exactly when the payload or the buffer does not fit; the frame's bytes, and every byte beyond it as before |
| `Frame.ParseFrame` | src/proto/codec.cpp:78-106 | the early exits and fields of parse_frame, with the checksum of the 8-byte loop, agree with the definition the lemmas below are about |
| `Frame.ParseOfParts` | src/proto/codec.cpp:78-106 | header, payload, any padding and any four bytes for the checksum parse to the same fields and payload, the checksum computed and the one found, valid exactly when these are equal |
| `Frame.ParseRejects` | src/proto/codec.cpp:78-93 | what is refused outright: fewer than 36 bytes, a foreign magic or version, a frame longer than the buffer |
| `Frame.ParseOfFrame` | src/proto/codec.cpp:78-143 | parsing an encoded frame, with any trailing bytes, is valid and returns the same fields and payload |
| `Frame.FrameOfParse` | src/proto/codec.cpp:78-143 | a valid frame re-encodes to the bytes it came from exactly when reserved and padding were zero |
| `Frame.ValidIffResidue` | src/proto/codec.cpp:95-105 | a frame is valid exactly when header, payload and checksum together leave the fixed residue |
| `Frame.WindowCorruptionDetected` | src/proto/codec.cpp:78-106 | a valid frame changed inside four consecutive bytes, payload_length aside, stays valid exactly when header, payload and checksum are unchanged |
| `Frame.OddCorruptionDetected` | src/proto/codec.cpp:78-106 | a change, payload_length aside, that flips the parity of header, payload and checksum is never valid |
| `TimerWheel.FireTick` | src/reactor/timer_wheel.cpp:41-64 | the tick of a timer: after the wheel's tick, due in its slot, the least such, and the target itself when that lies ahead |
| `TimerWheel.TicksRoundDown` | src/reactor/timer_wheel.cpp:17-19 | a delay counts as its whole milliseconds, and as one below a millisecond |
| `TimerWheel.TargetsAreInOrder` | src/reactor/timer_wheel.cpp:16-29 | each arming of a callback gives its one timer, in order |
| `TimerWheel.AdvanceFiresOnTime` | src/reactor/timer_wheel.cpp:41-64 | advancing fires at each tick exactly the timers whose tick that is, in insertion order, and keeps exactly those whose tick lies later, timers armed by callbacks on the way included |
| `TimerWheel.FiredInOrder` | src/reactor/timer_wheel.cpp:41-64 | the log is in tick order and every timer in it fired at its own tick |
| `TimerWheel.EveryTimerOnce` | src/reactor/timer_wheel.cpp:53-62 | as multisets, timers before + timers armed by callbacks = timers left + timers fired |
| `TimerWheel.AdvanceComposes` | src/reactor/timer_wheel.cpp:41-64 | advancing to a and then b equals advancing straight to b |
| `TimerWheel.SlotTick` | src/reactor/timer_wheel.cpp:48-62 | stable partition and erase of one slot is one tick of the plain list |
| `TimerWheel.OtherSlotTick` | src/reactor/timer_wheel.cpp:48-62 | a tick leaves the other slots alone |
| `TimerWheel.Wheel.AddTimer` | src/reactor/timer_wheel.cpp:16-29 | appends a timer at least one tick ahead; its tick will be its target; no 64-bit overflow |
| `TimerWheel.Wheel.Initialize` | src/reactor/timer_wheel.cpp:34-36 | moves the tick and keeps the pending timers |
| `TimerWheel.SameSlotIff` | src/reactor/timer_wheel.cpp:22-28 | a timer armed during a tick lands in the slot being walked exactly when its delay is a whole number of turns |
| `TimerWheel.WalkEndsWithExpired` | src/reactor/timer_wheel.cpp:53-62 | in a slot with room to grow, the loop that re-reads the slot's end stops with the expired entries exactly when their callbacks arm nothing in this slot; else it goes on to a timer that is not due yet |
| `TimerWheel.RearmingNeverEnds` | src/reactor/timer_wheel.cpp:58-61 | a callback that re-arms itself a whole turn ahead keeps that loop going for ever |
| `TimerWheel.Wheel.Advance` | src/reactor/timer_wheel.cpp:41-64 | the hashed wheel does what the plain timer list does, the callbacks that run arming timers in other slots |
| `TimerWheel.Wheel.Tick` | src/reactor/timer_wheel.cpp:45-63 | one turn of that loop is one tick of the list |
| `TimerWheel.Wheel.RunCallbacks` | src/reactor/timer_wheel.cpp:58-61 | the expired entries are logged in order, and what they arm goes to its own slots while this one is walked |
| `Arena.BumpKeeps` | src/memory/arena.cpp:74-95 | a grant in the current chunk is aligned, inside it and apart from every earlier one |
| `Arena.ExtendKeeps` | src/memory/arena.cpp:100-148 | a new block keeps all earlier grants safe, bytes_allocated unchanged and total_allocated_ the sum of all blocks |
| `Arena.RewindKeeps` | src/memory/arena.cpp:170-184 | reset forgets the grants, keeps every block, and bytes_allocated is 0 |
| `Arena.TakeKeeps` | src/memory/arena.cpp:74-118 | either path records the interval returned and bytes_allocated grows by at least its size; 0 bytes of an arena without blocks change nothing |
| `Arena.TakesFirstFit` | src/memory/arena.cpp:74-118 | the interval starts at the least aligned address from the mark on, and memory is obtained exactly when that does not fit |
| `Arena.EveryRunIsSafe` | src/memory/arena.cpp:74-184 | after any run of allocate and reset: the intervals granted since the last reset are aligned, each in one block, pairwise disjoint, and granted <= bytes_allocated <= total_allocated_ |
| `Arena.BytesWithinTotal` | include/jellybean/memory/arena.hpp:86-88 | the subtraction in bytes_wasted cannot underflow, even after a multi-block reset |
| `Arena.ExtendLoses` | src/memory/arena.cpp:136-142 | chaining a block drops no earlier block exactly when the current one is the last of the chain |
| `Arena.RunLoses` | src/memory/arena.cpp:74-184 | over any run, no block is lost exactly when no allocation took the slow path while the current block was not the last of its chain |
| `Arena.ResetThenGrowLeaks` | src/memory/arena.cpp:136-184 | after a reset with several blocks, the next new block makes the reachable sum fall short of total_allocated_ |
| `Arena.FourCallsLeak` | src/memory/arena.cpp:74-184 | a run of three allocations and a reset that does it: 236 bytes obtained, 172 reachable |
| `Arena.Allocator.Allocate` | src/memory/arena.cpp:74-95 | returns the interval it records, or null for 0 bytes of an arena without blocks; the new state is the model's |
| `Arena.Allocator.AllocateSlow` | src/memory/arena.cpp:100-118 | freezes the current block's mark, chains a block big enough for any alignment, and grants in it |
| `Arena.Allocator.AllocateBlock` | src/memory/arena.cpp:123-148 | the new block follows the current one, whose old link is overwritten |
| `Arena.Allocator.Reset` | src/memory/arena.cpp:170-184 | clears every mark of the chain and goes back to the oldest block |
| `Arena.Allocator.BytesAllocated` | src/memory/arena.cpp:153-165 | the walk over the chain returns the bytes used up to the current mark |
| `Arena.Allocator.BytesWasted` | include/jellybean/memory/arena.hpp:86-88 | total_allocated_ less bytes_allocated, never negative |
| `Arena.Allocator.Destroy` | src/memory/arena.cpp:18-25 | frees the reachable chain; that is every byte obtained exactly when no block was dropped from it |
| `Slab.Allocator.constructor` | include/jellybean/memory/slab.hpp:31-32 | no chunks, an empty free list |
| `Slab.Allocator.ChainSlots` | include/jellybean/memory/slab.hpp:44-49 | the slots of a chunk go to the front of the free list, threaded and ending in the old list |
| `Slab.Allocator.AllocateChunk` | include/jellybean/memory/slab.hpp:41-51 | one chunk more, all of it free, the live slots as before |
| `Slab.Allocator.Allocate` | include/jellybean/memory/slab.hpp:74-84 | hands out a slot that was not live; a chunk is added exactly when every slot is live |
| `Slab.Allocator.Deallocate` | include/jellybean/memory/slab.hpp:92-102 | null is ignored; a live slot becomes the head of the free list, so it is the next one handed out |
| `Slab.Allocator.ListIsAcyclic` | include/jellybean/memory/slab.hpp:25-32 | following the links never returns to a slot and ends after as many steps as there are free slots |
| `Slab.Allocator.FreeAndLivePartition` | include/jellybean/memory/slab.hpp:25-102 | a slot is on the list exactly when it holds a link and live exactly when it holds an object; together they are chunks * ChunkObjects |
| `Histogram.LatencyHistogram.Record` | include/jellybean/telemetry/metrics.hpp:45-47 | adds one sample |
| `Histogram.LatencyHistogram.Percentile` | src/telemetry/metrics.cpp:6-22 | reports the estimate for the sample of the target rank in sorted order; 0 for no samples or a rank beyond them, 1 for rank 0 |
| `Histogram.FirstToReach` | src/telemetry/metrics.cpp:14-20 | the first bucket to bring the count to the rank is the bucket of the sample of that rank, and is at most 64, so the shift is defined |
| `Histogram.BeforeInSorted` | src/telemetry/metrics.cpp:13-20 | the count before bucket i reaches k exactly when the k-th smallest sample lies before bucket i |
| `Histogram.EstimateIsClose` | include/jellybean/telemetry/metrics.hpp:39-42 | an estimate r of x has x < 2r, and r <= x unless x is 0 |
| `Histogram.ReportIsClose` | src/telemetry/metrics.cpp:6-22 | so has the report for every rank from 1; rank 0 always reports 1, which is that close to the least sample exactly when that is 0 or 1; reports never fall as the rank grows |
| `Histogram.ReportIsExact` | src/telemetry/metrics.cpp:6-22 | the report is the sample itself exactly when the sample is a power of two |
| `Histogram.ThreeIsReportedAsTwo` | src/telemetry/metrics.cpp:6-22 | a single latency of 3 is reported as 2, and as 1 at rank 0 |
| `Executor.StepKeepsPlaces` | src/model/model_executor.cpp:42-166 | each step of each caller, worker and of start and stop keeps every request where the record of places says, and every answer right |
| `Executor.StepKeepsSize` | src/model/model_executor.cpp:64-65 | queue_size_ is the queue's length, plus pops not yet counted, minus pushes not yet counted |
| `Executor.StepKeepsControl` | src/model/model_executor.cpp:16-40 | workers not started or already joined are off |
| `Executor.StepIsFifoStep` | src/model/model_executor.cpp:64-94 | each step has the effect on the task queue that the ring's steps have: enter at the back, leave from the front, within the ring's capacity, or none |
| `Executor.FollowsRing` | src/model/model_executor.cpp:64-94 | in every state, whatever legal effect the ring gives a push or a pop, the machine has a step that does that to its queue |
| `Executor.RingDrivesExecutor` | src/model/model_executor.cpp:64-94 | for every run of the ring that carries request numbers, the executor has a run with the same queue |
| `Executor.Run` | src/model/model_executor.cpp:16-166 | every interleaving of any number of callers and workers, with starts and stops, satisfies all of these |
| `Executor.EachRequestIsInOnePlace` | src/model/model_executor.cpp:42-166 | a request is in exactly one of a caller's hand, the queue, a worker's batch, and the answered log |
| `Executor.EachRequestIsThereOnce` | src/model/model_executor.cpp:42-166 | and not twice in any of them: a promise is set at most once |
| `Executor.BatchesAreDisjoint` | src/model/model_executor.cpp:93-103 | two places in workers' batches never hold the same request |
| `Executor.PromisesAreSetOnceAndRight` | src/model/model_executor.cpp:120-152 | a served answer is the reply at the request's own index in the batch the backend was given, with its own payload and routing |
| `Executor.CallsAreArrivals` | src/model/model_executor.cpp:42-49 | the requests are those the calls brought, in order |
| `Executor.WaitIsMeasuredAtPop` | src/model/model_executor.cpp:94-101 | the wait recorded for a request is the one measured when it was popped, and stays |
| `Executor.UndisturbedRefusals` | src/model/model_executor.cpp:51-82 | a call nobody disturbs is refused, with only its own promise set, for a model that is not ready, a stopped executor, or a full queue once the time is up, each with its own reason |
| `Executor.UndisturbedCallIsQueued` | src/model/model_executor.cpp:59-68 | otherwise it is queued behind the others and counted, and no promise is set |
| `Executor.UndisturbedRound` | src/model/model_executor.cpp:85-166 | a worker's round on one request: if the model is ready the backend gets its payload and the promise the reply, the request's routing and the measured wait; if not, the backend is unavailable |
| `Executor.StopEndsTheLoops` | src/model/model_executor.cpp:86-123 | a stop makes a worker leave, stop collecting, or wake; without it only a counted task wakes one |
| `Executor.StartsAndStops` | src/model/model_executor.cpp:16-40 | start acts only on a stopped executor and stop only on a running one |
| `Executor.SpawnsAndJoinsEach` | src/model/model_executor.cpp:16-40 | starting sets every worker going, stopping waits for each to be off |
| `Executor.BackendSeesEachRequestOnce` | src/model/model_executor.cpp:120-126 | no request is passed to infer_batch twice |
| `Executor.WorkersLeaveNothingBehind` | src/model/model_executor.cpp:86-166 | a batch never exceeds max_batch_size, and a worker that exits or starts over has answered all of its batch |
| `Executor.RequestsMoveForward` | src/model/model_executor.cpp:42-166 | no step takes a request back a stage, forgets one, or changes an answer |
| `Executor.AtRest` | src/model/model_executor.cpp:26-40 | stopped and with every caller returned, a request is unanswered exactly when it is still queued, and queue_size_ is the queue's length |
| `Executor.StopCanStrandARequest` | src/model/model_executor.cpp:26-40 | such a run exists: a request pushed before the workers look is never answered once the executor stops |
| `Executor.ModelExecutor.InferAsync` | src/model/model_executor.cpp:42-83 | undisturbed: queued exactly when the model is ready, the executor runs and the queue has room, else answered with the matching error |
| `Executor.ModelExecutor.FillBatch` | src/model/model_executor.cpp:93-115 | pops the front of the queue up to max_batch_size, whatever the batch delay |
| `Executor.ModelExecutor.AnswerBatch` | src/model/model_executor.cpp:126-164 | sets each promise of the batch to its own reply, routing and wait, and touches no other |
| `Executor.ModelExecutor.WorkerRound` | src/model/model_executor.cpp:85-166 | both together: every request is in the queue or has its promise set, never both |
| `Reactor.StepKeepsPlaces` | src/reactor/reactor.cpp:19-82 | each step of the reactor, the pool threads and the threads settling promises keeps every handle where the record of places says |
| `Reactor.StepKeepsCount` | src/reactor/reactor.cpp:62-82 | external_pending_ is the external queue's length but for a push or pop not yet counted |
| `Reactor.StepKeepsDrained` | src/reactor/continuation_pool.cpp:40-56 | a pool thread has exited only after the stop, with every task posted before it taken |
| `Reactor.StepKeepsRounds` | src/reactor/reactor.cpp:32-39 | this round has resumed exactly the part of the scratch queue before the cursor, in order |
| `Reactor.Run` | src/reactor/reactor.cpp:19-82 | every interleaving satisfies all of these |
| `Reactor.EachHandleIsInOnePlace` | include/jellybean/reactor/future_awaitable.hpp:27-47 | the handle of a live coroutine is in exactly one of run queue, round, running, pool queue, pool thread, external queue; that of a finished one nowhere |
| `Reactor.EachHandleIsThereOnce` | include/jellybean/reactor/future_awaitable.hpp:33-40 | and once: no queue holds a handle twice, no two threads hold it |
| `Reactor.ResumedOnlyAfterWritten` | include/jellybean/reactor/future_awaitable.hpp:36-47 | when a suspended coroutine's turn comes, its result is written and is the value of its promise |
| `Reactor.AwaitsReturnOnce` | include/jellybean/reactor/future_awaitable.hpp:27-47 | each await returns once, to the coroutine that made it, with its promise's value |
| `Reactor.ValuesAreSettled` | include/jellybean/reactor/future_awaitable.hpp:27-40 | a promise gets the value it is settled with, once; nothing else changes it |
| `Reactor.ActsAsAsked` | include/jellybean/reactor/future_awaitable.hpp:27-40 | a settled await goes on at once; an unsettled one posts one task and gives way; a yield, an end and a new coroutine do what they say |
| `Reactor.AwaitComesBack` | include/jellybean/reactor/future_awaitable.hpp:27-47 | one await from end to end: through task, pool thread, external queue and run queue the coroutine runs again in the next round with the value |
| `Reactor.StopsEndTheLoops` | src/reactor/reactor.cpp:27-60 | the order of the reactor's loop; a stopped reactor halts at its top, a stopped pool thread exits when it finds no task, and only then |
| `Reactor.NextIsLive` | src/reactor/reactor.cpp:35-39 | the done() test never fails: a handle to be visited belongs to a live coroutine |
| `Reactor.RoundVisitsAll` | src/reactor/reactor.cpp:32-39 | a round takes the run queue as it was at the swap, without repetition, and by its end has resumed all of it |
| `Reactor.ScheduledWaitsForNextRound` | src/reactor/reactor.cpp:62-75 | between swaps the round stays as it is and what is scheduled queues up for the next |
| `Reactor.StoppedPoolIsDrained` | src/reactor/continuation_pool.cpp:19-56 | once all pool threads have exited, what still waits was posted after the stop and no handle hangs in a thread |
| `Reactor.EventLoop.ProcessExternalQueue` | src/reactor/reactor.cpp:77-82 | moves the external queue, in order, behind the run queue |
| `Reactor.EventLoop.Round` | src/reactor/reactor.cpp:27-39 | undisturbed: resumes every live handle that was waiting, in order; what they schedule, in order, is the next run queue |
| `Reactor.LiveIsNotDone` | src/reactor/reactor.cpp:35-39 | what a round resumes is each waiting handle that is not done, as often as it waited |
| `Reactor.LiveOfAppend` | src/reactor/reactor.cpp:35-39 | and in the order in which they waited |
| `Reactor.ScheduledIsAll` | src/reactor/reactor.cpp:62-65 | what the next round finds is what the resumed handles scheduled, and all of it |
| `Reactor.TasksStartInOrder` | src/reactor/continuation_pool.cpp:32-56 | tasks stay posted, are taken in the order they were posted, one at a time, and each becomes the task of the one thread that took it |
| `Reactor.StepIsFifoStep` | src/reactor/reactor.cpp:62-82 | each step has the effect on the external queue that the ring's steps have |
| `Reactor.ContinuationPool.WorkerLoop` | src/reactor/continuation_pool.cpp:40-56 | exits only when stopped and with every posted task run, in order, and then does exit |

## Left out

- Memory orders, fences and weak-memory reorderings: the steps are sequentially consistent; cache lines and alignment
  attributes carry no meaning.
- The counters of the deque and of the ticketed ring are unbounded; the single-producer ring's and the seqlock's wrap.
- WorkStealingDeque.Deque.Pop: other threads act only at the compare-and-swap; every interleaving is in the state machine.
- WorkStealingDeque.Deque.Steal: as Pop.
- MpmcQueue.Queue.Emplace: the class runs undisturbed; interleavings are in the state machine.
- MpmcQueue.Queue.TryPop: as Emplace.
- SpscQueue.Queue.Emplace: the class runs undisturbed; interleavings are in the state machine.
- SpscQueue.Queue.TryPop: as Emplace.
- SpscQueue.Queue.Size: as Emplace; SizeTailFirst and SizeHeadFirst say what it is across other threads' steps.
- Seqlock.AcceptedReadIsOneVersion: holds below the stated number of writes within one read, which is shown sharp.
- Frame.WindowCorruptionDetected: corruption of `payload_length` itself is not covered, because it moves the checksum.
- Frame.EncodeFrame: the in-memory image of the header is taken to be little-endian and without gaps, as `wire.hpp`
  lays it out.
- `_mm_crc32_u64` and `_mm_crc32_u8` are taken to be 64 and 8 bit steps.
- TimerWheel.Wheel.Advance: requires that the callbacks that run arm no timer in the slot being walked: where the slot's
  storage moves, the source's loop has no meaning; where it does not, TimerWheel.WalkEndsWithExpired says what it does.
  A callback that calls advance is outside the model.
- Arena: `malloc` is a parameter naming a region disjoint from every region before; aborting when memory runs out, the
  move operations and `construct` are not modelled.
- Slab: constructors and destructors of the objects, and what happens to live objects when the allocator goes away.
- Histogram.LatencyHistogram.Percentile: the target rank is the input, not a fraction in floating point; recording
  during the two loops is not modelled, and the counters do not wrap.
- Executor: `infer_batch` returns one reply per request and does not throw; the clock, the model's readiness and the
  backoff are choices of the environment; the metrics counters, and being woken at all, are not modelled. start and
  stop are called by one thread at a time. The ring's steps between a claim and its return are not repeated here: a push
  or pop is its effect, which MpmcQueue.RunIsFifoHistory, Executor.FollowsRing and Executor.RingDrivesExecutor connect.
- Executor.ModelExecutor.InferAsync: the class runs undisturbed; interleavings are in the state machine.
- Executor.ModelExecutor.FillBatch: as InferAsync.
- Executor.ModelExecutor.WorkerRound: as InferAsync.
- Reactor: timers, polling, `wakeup` and the back end are not modelled, nor coroutines created or yielded from other
  threads; a reactor starts with one coroutine, which can create more.
- Reactor.EventLoop.Round: undisturbed, what a handle schedules being given; interleavings are in the state machine.
- Reactor.ContinuationPool.WorkerLoop: one worker, undisturbed; the interleaving of several is in the state machine.
- Locks, condition variables and liveness: no claim that a waiting thread is ever woken.
- Sockets, sessions, epoll, io_uring, the metrics server, logging and configuration: input and output only.
- Torch and all tensor arithmetic, model and actor registries, mailboxes, fibers, CPU pinning: they would add only easy
  members or belong to the compiler and the operating system.
- The Raft and log design in the documentation has no code.
