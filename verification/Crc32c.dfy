/**
 * The CRC32C checksum: its definition by bit steps, the table-driven and the eight-bytes-at-a-time
 * implementations, and the errors it is certain to detect.
 */
module Crc32c {
  import opened Words

  type Word32 = s: seq<bool> | |s| == 32 witness Zeros(32)

  const POLYNOMIAL: Word32 := ToBits(0x82F6_3B78, 32)
  const INITIAL: Word32 := Not(Zeros(32))  // 0xFFFFFFFF

  /** One step of the reflected shift register. */
  function BitStep(c: Word32): Word32 {
    if c[0] then Xor(ShiftRight(c, 1), POLYNOMIAL) else ShiftRight(c, 1)
  }

  lemma BitStepCases(c: Word32)
    ensures BitStep(c) == if c[0] then Xor(ShiftRight(c, 1), POLYNOMIAL) else ShiftRight(c, 1)
  {
  }

  function BitSteps(c: Word32, n: nat): Word32
    decreases n
  {
    if n == 0 then c else BitSteps(BitStep(c), n - 1)
  }

  /** A message bit enters at the low end of the register. */
  function FeedBit(c: Word32, m: bool): Word32 {
    BitStep(c[0 := c[0] != m])
  }

  function FeedBits(c: Word32, m: seq<bool>): Word32
    decreases m
  {
    if m == [] then c else FeedBits(FeedBit(c, m[0]), m[1..])
  }

  /** The checksum of a byte string, bit by bit. */
  function Crc(data: seq<byte>): Word32 {
    Not(FeedBits(INITIAL, MessageBits(data)))
  }

  // ---------------------------------------------------------------- the bit step is a linear bijection

  lemma {:induction false} StepLinear(a: Word32, b: Word32)
    ensures BitStep(Xor(a, b)) == Xor(BitStep(a), BitStep(b))
  {
  }

  lemma {:induction false} StepsLinear(a: Word32, b: Word32, n: nat)
    ensures BitSteps(Xor(a, b), n) == Xor(BitSteps(a, n), BitSteps(b, n))
    decreases n
  {
    if n > 0 {
      StepLinear(a, b);
      StepsLinear(BitStep(a), BitStep(b), n - 1);
    }
  }

  lemma PolynomialTopBit()
    ensures POLYNOMIAL[31]
  {
    WordIs32Bits();
  }

  lemma {:induction false} StepInjective(a: Word32, b: Word32)
    requires BitStep(a) == BitStep(b)
    ensures a == b
  {
    PolynomialTopBit();
    assert BitStep(a)[31] == a[0] && BitStep(b)[31] == b[0];
    forall i | 1 <= i < 32
      ensures a[i] == b[i]
    {
      assert BitStep(a)[i - 1] == (a[i] != (a[0] && POLYNOMIAL[i - 1]));
      assert BitStep(b)[i - 1] == (b[i] != (b[0] && POLYNOMIAL[i - 1]));
    }
  }

  lemma {:induction false} StepsInjective(a: Word32, b: Word32, n: nat)
    requires BitSteps(a, n) == BitSteps(b, n)
    ensures a == b
    decreases n
  {
    if n > 0 {
      StepsInjective(BitStep(a), BitStep(b), n - 1);
      StepInjective(a, b);
    }
  }

  lemma {:induction false} FeedBitsInjective(c: Word32, d: Word32, m: seq<bool>)
    requires FeedBits(c, m) == FeedBits(d, m)
    ensures c == d
    decreases m
  {
    if m != [] {
      FeedBitsInjective(FeedBit(c, m[0]), FeedBit(d, m[0]), m[1..]);
      var c', d' := c[0 := c[0] != m[0]], d[0 := d[0] != m[0]];
      StepInjective(c', d');
      assert c == c'[0 := c[0]] && d == d'[0 := d[0]];
      assert c'[0] == d'[0];
    }
  }

  lemma {:induction false} FeedBitsAppend(c: Word32, a: seq<bool>, b: seq<bool>)
    ensures FeedBits(c, a + b) == FeedBits(FeedBits(c, a), b)
    decreases a
  {
    if a == [] {
      assert a + b == b;
    } else {
      assert (a + b)[1..] == a[1..] + b;
      FeedBitsAppend(FeedBit(c, a[0]), a[1..], b);
    }
  }

  function Widen(m: seq<bool>): Word32
    requires |m| <= 32
  {
    m + Zeros(32 - |m|)
  }

  /** Feeding up to 32 bits one at a time is xoring them in at once and then stepping. */
  lemma {:induction false} FeedBitsIsXor(c: Word32, m: seq<bool>)
    requires |m| <= 32
    ensures FeedBits(c, m) == BitSteps(Xor(c, Widen(m)), |m|)
    decreases m
  {
    if m == [] {
      assert Xor(c, Widen(m)) == c;
    } else {
      var c', rest := c[0 := c[0] != m[0]], [false] + m[1..] + Zeros(32 - |m|);
      assert Xor(c, Widen(m)) == Xor(c', rest);
      StepLinear(c', rest);
      assert BitStep(rest) == Widen(m[1..]);
      FeedBitsIsXor(FeedBit(c, m[0]), m[1..]);
    }
  }

  /** k steps merely shift a register whose k low bits are clear. */
  lemma {:induction false} StepsShift(c: Word32, k: nat)
    requires k <= 32 && forall i :: 0 <= i < k ==> !c[i]
    ensures BitSteps(c, k) == ShiftRight(c, k)
    decreases k
  {
    if k > 0 {
      var d := BitStep(c);
      assert forall i :: 0 <= i < 31 ==> d[i] == c[i + 1];
      StepsShift(d, k - 1);
      assert ShiftRight(d, k - 1) == ShiftRight(c, k);
    } else {
      assert ShiftRight(c, 0) == c;
    }
  }

  // ---------------------------------------------------------------- table-driven form

  /** The register after the eight bits of byte i, from zero. */
  function TableEntry(i: nat): Word32 {
    BitSteps(ToBits(i, 32), 8)
  }

  ghost predicate IsTable(table: seq<Word32>) {
    |table| == 256 && forall i :: 0 <= i < 256 ==> table[i] == TableEntry(i)
  }

  /** Fills the 256-entry table in place. */
  method MakeTable() returns (table: array<Word32>)
    ensures fresh(table) && IsTable(table[..])
  {
    hide BitStep;
    table := new Word32[256];
    var i := 0;
    while i < table.Length
      invariant 0 <= i <= 256 == table.Length
      invariant forall j :: 0 <= j < i ==> table[j] == TableEntry(j)
    {
      var crc: Word32 := ToBits(i, 32);
      var bit := 0;
      while bit < 8
        invariant 0 <= bit <= 8
        invariant BitSteps(crc, 8 - bit) == TableEntry(i)
        invariant forall j :: 0 <= j < i ==> table[j] == TableEntry(j)
      {
        BitStepCases(crc);
        if crc[0] {
          crc := Xor(ShiftRight(crc, 1), POLYNOMIAL);
        } else {
          crc := ShiftRight(crc, 1);
        }
        bit := bit + 1;
      }
      table[i] := crc;
      i := i + 1;
    }
  }

  /** `(crc ^ byte) & 0xFF` as an index. */
  function TableIndex(c: Word32, b: byte): (i: nat)
    ensures i < 256
  {
    ByteIsEightBits();
    FromBits(Xor(c, ToBits(b, 32))[..8])
  }

  /** The identity behind the table: feeding a byte is one lookup and one shift. */
  lemma {:induction false} TableStep(c: Word32, b: byte)
    ensures FeedBits(c, ToBits(b, 8)) == Xor(ShiftRight(c, 8), TableEntry(TableIndex(c, b)))
  {
    ByteIsEightBits();
    WidenBits(b, 8, 24);
    FeedBitsIsXor(c, ToBits(b, 8));
    var x: Word32 := Xor(c, ToBits(b, 32));
    var low: Word32, high: Word32 := x[..8] + Zeros(24), Zeros(8) + x[8..];
    assert Xor(high, low) == x;
    StepsLinear(high, low, 8);
    StepsShift(high, 8);
    assert ShiftRight(high, 8) == ShiftRight(c, 8);
    WidenBits(TableIndex(c, b), 8, 24);
    ToFromBits(x[..8]);
  }

  method Software(table: seq<Word32>, data: seq<byte>) returns (r: Word32)
    requires IsTable(table)
    ensures r == Crc(data)
  {
    var crc: Word32 := INITIAL;
    var i := 0;
    while i < |data|
      invariant 0 <= i <= |data|
      invariant FeedBits(crc, MessageBits(data[i..])) == FeedBits(INITIAL, MessageBits(data))
    {
      var idx := TableIndex(crc, data[i]);
      TableStep(crc, data[i]);
      FeedBitsAppend(crc, ToBits(data[i], 8), MessageBits(data[i + 1..]));
      assert data[i..][1..] == data[i + 1..];
      crc := Xor(ShiftRight(crc, 8), table[idx]);
      i := i + 1;
    }
    r := Not(crc);
  }

  // ---------------------------------------------------------------- the CRC instruction, eight bytes at a time

  /** What the instruction computes on a 64-bit and on an 8-bit operand: one step per operand bit. */
  function Crc32U64(c: Word32, chunk: seq<bool>): Word32
    requires |chunk| == 64
  {
    FeedBits(c, chunk)
  }

  function Crc32U8(c: Word32, b: byte): Word32 {
    FeedBits(c, ToBits(b, 8))
  }

  /** The 64-bit value that memcpy of eight bytes gives on a little-endian machine, as bits. */
  function LoadChunk(p: seq<byte>): (chunk: seq<bool>)
    requires |p| == 8
    ensures |chunk| == 64
  {
    ToBits(FromLe(p), 64)
  }

  lemma {:induction false} LoadChunkBits(p: seq<byte>)
    requires |p| == 8
    ensures LoadChunk(p) == MessageBits(p)
  {
    FromBitsOfMessage(p);
    ToFromBits(MessageBits(p));
  }

  method Hardware(data: seq<byte>) returns (r: Word32)
    ensures r == Crc(data)
  {
    var crc: Word32 := INITIAL;
    var p, len := 0, |data|;
    while len >= 8
      invariant 0 <= p <= |data| && p + len == |data|
      invariant FeedBits(crc, MessageBits(data[p..])) == FeedBits(INITIAL, MessageBits(data))
    {
      var chunk := LoadChunk(data[p..p + 8]);
      LoadChunkBits(data[p..p + 8]);
      assert data[p..] == data[p..p + 8] + data[p + 8..];
      MessageBitsAppend(data[p..p + 8], data[p + 8..]);
      FeedBitsAppend(crc, chunk, MessageBits(data[p + 8..]));
      crc := Crc32U64(crc, chunk);
      p, len := p + 8, len - 8;
    }
    while len > 0
      invariant 0 <= p <= |data| && p + len == |data|
      invariant FeedBits(crc, MessageBits(data[p..])) == FeedBits(INITIAL, MessageBits(data))
    {
      FeedBitsAppend(crc, ToBits(data[p], 8), MessageBits(data[p + 1..]));
      assert data[p..][1..] == data[p + 1..];
      crc := Crc32U8(crc, data[p]);
      p, len := p + 1, len - 1;
    }
    r := Not(crc);
  }

  // ---------------------------------------------------------------- guaranteed error detection

  /** Two messages that differ, but only inside a window of 32 consecutive bits, leave different registers. */
  lemma {:induction false} BitBurstDetected(c: Word32, a: seq<bool>, b: seq<bool>, from: nat)
    requires |a| == |b| && a != b
    requires forall k :: 0 <= k < |a| && !(from <= k < from + 32) ==> a[k] == b[k]
    ensures FeedBits(c, a) != FeedBits(c, b)
  {
    var to := if from + 32 <= |a| then from + 32 else |a|;
    assert from < |a| by {
      assert exists k :: 0 <= k < |a| && a[k] != b[k] by {
        SequencesDiffer(a, b);
      }
    }
    var x, y := a[from..to], b[from..to];
    assert a == a[..from] + x + a[to..] && b == a[..from] + y + a[to..];
    FeedBitsAppend(c, a[..from] + x, a[to..]);
    FeedBitsAppend(c, a[..from] + y, a[to..]);
    FeedBitsAppend(c, a[..from], x);
    FeedBitsAppend(c, a[..from], y);
    var d := FeedBits(c, a[..from]);
    if FeedBits(c, a) == FeedBits(c, b) {
      FeedBitsInjective(FeedBits(d, x), FeedBits(d, y), a[to..]);
      ShortFeedInjective(d, x, y);
    }
  }

  lemma {:induction false} SequencesDiffer(a: seq<bool>, b: seq<bool>)
    requires |a| == |b| && a != b
    ensures exists k :: 0 <= k < |a| && a[k] != b[k]
  {
  }

  /** Up to 32 message bits can be recovered from the register. */
  lemma {:induction false} ShortFeedInjective(c: Word32, x: seq<bool>, y: seq<bool>)
    requires |x| == |y| <= 32 && FeedBits(c, x) == FeedBits(c, y)
    ensures x == y
  {
    FeedBitsIsXor(c, x);
    FeedBitsIsXor(c, y);
    StepsInjective(Xor(c, Widen(x)), Xor(c, Widen(y)), |x|);
    forall i | 0 <= i < |x|
      ensures x[i] == y[i]
    {
      assert Xor(c, Widen(x))[i] == Xor(c, Widen(y))[i];
    }
  }

  lemma {:induction false} MessageBitsAt(data: seq<byte>, k: nat)
    requires k < |data|
    ensures MessageBits(data)[8 * k..8 * k + 8] == ToBits(data[k], 8)
  {
    assert data == data[..k] + data[k..];
    MessageBitsAppend(data[..k], data[k..]);
    assert MessageBits(data[k..]) == ToBits(data[k], 8) + MessageBits(data[k..][1..]);
  }

  /** Equal-length byte strings that differ only inside four consecutive bytes have different checksums. */
  lemma {:induction false} BurstDetected(a: seq<byte>, b: seq<byte>, from: nat)
    requires |a| == |b| && a != b
    requires forall k :: 0 <= k < |a| && !(from <= k < from + 4) ==> a[k] == b[k]
    ensures Crc(a) != Crc(b)
  {
    var x, y := MessageBits(a), MessageBits(b);
    if x == y {
      MessageBitsInjective(a, b);
    }
    forall i | 0 <= i < |x| && !(8 * from <= i < 8 * from + 32)
      ensures x[i] == y[i]
    {
      var k := i / 8;
      MessageBitsAt(a, k);
      MessageBitsAt(b, k);
      assert x[i] == x[8 * k..8 * k + 8][i - 8 * k] && y[i] == y[8 * k..8 * k + 8][i - 8 * k];
    }
    BitBurstDetected(INITIAL, x, y, 8 * from);
    NotInjective(FeedBits(INITIAL, x), FeedBits(INITIAL, y));
  }

  lemma {:induction false} NotInjective(a: seq<bool>, b: seq<bool>)
    requires |a| == |b| && a != b
    ensures Not(a) != Not(b)
  {
    if Not(a) == Not(b) {
      forall i | 0 <= i < |a|
        ensures a[i] == b[i]
      {
        assert Not(a)[i] == Not(b)[i];
      }
    }
  }

  lemma {:induction false} PolynomialParity()
    ensures Parity(POLYNOMIAL)
  {
    hide Parity;
    ParityOfCode();
    WordIs32Bits();
    ParityOfBits(0x82F6_3B78, 32);
  }

  lemma {:induction false} ParityOfCode()
    ensures NatParity(0x82F6_3B78)
  {
    ParityOfDigits();
    hide NatParity;
    NatParityNibble(0x82F6_3B78, 0x82F_63B7, 0x8);
    NatParityNibble(0x82F_63B7, 0x82_F63B, 0x7);
    NatParityNibble(0x82_F63B, 0x8_2F63, 0xB);
    NatParityNibble(0x8_2F63, 0x82F6, 0x3);
    NatParityNibble(0x82F6, 0x82F, 0x6);
    NatParityNibble(0x82F, 0x82, 0xF);
    NatParityNibble(0x82, 0x8, 0x2);
  }

  lemma ParityOfDigits()
    ensures NatParity(0x8) && NatParity(0x2) && !NatParity(0xF) && !NatParity(0x6)
    ensures !NatParity(0x3) && NatParity(0xB) && NatParity(0x7)
  {
  }

  /** The generator has a factor x + 1, so a step keeps the parity of the register. */
  lemma {:induction false} StepParity(c: Word32)
    ensures Parity(BitStep(c)) == Parity(c)
  {
    PolynomialParity();
    assert c == [c[0]] + c[1..];
    ParityAppend(c[1..], [false]);
    assert Zeros(1) == [false];
    if c[0] {
      ParityXor(ShiftRight(c, 1), POLYNOMIAL);
    }
  }

  lemma {:induction false} FeedBitsParity(c: Word32, m: seq<bool>)
    ensures Parity(FeedBits(c, m)) == (Parity(c) != Parity(m))
    decreases m
  {
    if m != [] {
      StepParity(c[0 := c[0] != m[0]]);
      assert c[0 := c[0] != m[0]][1..] == c[1..];
      FeedBitsParity(FeedBit(c, m[0]), m[1..]);
    }
  }

  /** Any odd number of flipped bits, anywhere in messages of any length, changes the checksum. */
  lemma {:induction false} OddBitErrorsDetected(a: seq<byte>, b: seq<byte>)
    requires Parity(MessageBits(a)) != Parity(MessageBits(b))
    ensures Crc(a) != Crc(b)
  {
    var x, y := FeedBits(INITIAL, MessageBits(a)), FeedBits(INITIAL, MessageBits(b));
    FeedBitsParity(INITIAL, MessageBits(a));
    FeedBitsParity(INITIAL, MessageBits(b));
    NotInjective(x, y);
  }
}
