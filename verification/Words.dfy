/** Machine words as the sequence of their bits, least significant first. */
module Words {
  import opened Bits

  type byte = x: int | 0 <= x < 256

  function Pow2(n: nat): (p: nat)
    ensures p > 0
  {
    if n == 0 then 1 else 2 * Pow2(n - 1)
  }

  function Zeros(n: nat): (s: seq<bool>)
    ensures |s| == n
  {
    seq(n, _ => false)
  }

  function Xor(a: seq<bool>, b: seq<bool>): (s: seq<bool>)
    requires |a| == |b|
    ensures |s| == |a|
  {
    seq(|a|, i requires 0 <= i < |a| => a[i] != b[i])
  }

  function Not(a: seq<bool>): (s: seq<bool>)
    ensures |s| == |a|
  {
    seq(|a|, i requires 0 <= i < |a| => !a[i])
  }

  /** `a >> n`, the width kept. */
  function ShiftRight(a: seq<bool>, n: nat): (s: seq<bool>)
    requires n <= |a|
    ensures |s| == |a|
  {
    a[n..] + Zeros(n)
  }

  function ToBits(x: nat, width: nat): (s: seq<bool>)
    ensures |s| == width
  {
    seq(width, i requires 0 <= i < width => (x / Pow2(i)) % 2 == 1)
  }

  lemma {:induction false} ToBitsTail(x: nat, width: nat)
    ensures ToBits(x, width + 1) == [x % 2 == 1] + ToBits(x / 2, width)
  {
    forall i | 0 <= i < width
      ensures (x / Pow2(i + 1)) % 2 == ((x / 2) / Pow2(i)) % 2
    {
      HalveThenDivide(x, Pow2(i));
    }
  }

  lemma {:induction false} HalveThenDivide(x: nat, p: nat)
    requires p > 0
    ensures x / (2 * p) == (x / 2) / p
  {
    DoubleModulo(x, p);
    var d := (x / 2) / p;
    assert x / 2 == p * d + (x / 2) % p;
    assert x == (2 * p) * d + x % (2 * p) by {
      assert 2 * (p * d) == (2 * p) * d;
      assert x == 2 * (x / 2) + x % 2;
    }
    ModuloUnique(x, 2 * p, d, x % (2 * p));
  }

  function FromBits(s: seq<bool>): (x: nat)
    ensures x < Pow2(|s|)
  {
    if s == [] then 0 else (if s[0] then 1 else 0) + 2 * FromBits(s[1..])
  }

  lemma {:induction false} FromToBits(x: nat, width: nat)
    requires x < Pow2(width)
    ensures FromBits(ToBits(x, width)) == x
  {
    if width > 0 {
      FromToBits(x / 2, width - 1);
      ToBitsTail(x, width - 1);
    }
  }

  lemma {:induction false} ToFromBits(s: seq<bool>)
    ensures ToBits(FromBits(s), |s|) == s
  {
    if s != [] {
      ToFromBits(s[1..]);
      ToBitsTail(FromBits(s), |s| - 1);
      assert FromBits(s) / 2 == FromBits(s[1..]);
    }
  }

  /** A word widened by zeros keeps its value. */
  lemma {:induction false} WidenBits(x: nat, width: nat, more: nat)
    requires x < Pow2(width)
    ensures ToBits(x, width + more) == ToBits(x, width) + Zeros(more)
  {
    var wide := ToBits(x, width + more);
    forall i | width <= i < width + more
      ensures !wide[i]
    {
      Pow2Monotone(width, i);
      ModuloUnique(x, Pow2(i), 0, x);
    }
  }

  lemma {:induction false} Pow2Monotone(m: nat, n: nat)
    requires m <= n
    ensures Pow2(m) <= Pow2(n)
    decreases n
  {
    if m < n {
      Pow2Monotone(m, n - 1);
    }
  }

  /** Whether the number of set bits is odd. */
  function Parity(s: seq<bool>): bool {
    if s == [] then false else s[0] != Parity(s[1..])
  }

  function NatParity(x: nat): bool {
    if x == 0 then false else (x % 2 == 1) != NatParity(x / 2)
  }

  lemma {:induction false} ParityOfBits(x: nat, width: nat)
    requires x < Pow2(width)
    ensures Parity(ToBits(x, width)) == NatParity(x)
  {
    if width > 0 {
      ToBitsTail(x, width - 1);
      ParityOfBits(x / 2, width - 1);
    }
  }

  lemma {:induction false} NatParityNibble(x: nat, high: nat, low: nat)
    requires x == 16 * high + low && low < 16
    ensures NatParity(x) == (NatParity(high) != NatParity(low))
  {
    hide NatParity;
    var l1, l2, l3 := low / 2, low / 4, low / 8;
    assert l1 / 2 == l2 && l2 / 2 == l3 && l3 / 2 == 0;
    NatParityHalf(x);
    NatParityHalf(8 * high + l1);
    NatParityHalf(4 * high + l2);
    NatParityHalf(2 * high + l3);
    NatParityHalf(low);
    NatParityHalf(l1);
    NatParityHalf(l2);
    NatParityHalf(l3);
  }

  lemma {:induction false} NatParityHalf(x: nat)
    ensures NatParity(x) == ((x % 2 == 1) != NatParity(x / 2))
    ensures !NatParity(0)
  {
  }

  lemma {:induction false} ParityXor(a: seq<bool>, b: seq<bool>)
    requires |a| == |b|
    ensures Parity(Xor(a, b)) == (Parity(a) != Parity(b))
  {
    if a != [] {
      assert Xor(a, b)[1..] == Xor(a[1..], b[1..]);
      ParityXor(a[1..], b[1..]);
    }
  }

  lemma {:induction false} ParityAppend(a: seq<bool>, b: seq<bool>)
    ensures Parity(a + b) == (Parity(a) != Parity(b))
  {
    if a == [] {
      assert a + b == b;
    } else {
      assert (a + b)[1..] == a[1..] + b;
      ParityAppend(a[1..], b);
    }
  }

  lemma {:induction false} ByteIsEightBits()
    ensures Pow2(8) == 256
  {
    assert Pow2(4) == 16;
  }

  lemma {:induction false} Pow2Sum(m: nat, n: nat)
    ensures Pow2(m + n) == Pow2(m) * Pow2(n)
  {
    if m > 0 {
      Pow2Sum(m - 1, n);
    }
  }

  lemma {:induction false} WordIs32Bits()
    ensures Pow2(16) == 0x1_0000 && Pow2(31) == 0x8000_0000 && Pow2(32) == 0x1_0000_0000
  {
    ByteIsEightBits();
    Pow2Sum(8, 8);
    Pow2Sum(16, 16);
    assert Pow2(32) == 2 * Pow2(31);
  }

  /** The bits of a byte string, byte by byte, each least significant bit first. */
  function MessageBits(data: seq<byte>): (m: seq<bool>)
    ensures |m| == 8 * |data|
  {
    if data == [] then [] else ToBits(data[0], 8) + MessageBits(data[1..])
  }

  lemma {:induction false} MessageBitsAppend(a: seq<byte>, b: seq<byte>)
    ensures MessageBits(a + b) == MessageBits(a) + MessageBits(b)
  {
    if a == [] {
      assert a + b == b;
    } else {
      assert (a + b)[1..] == a[1..] + b;
      MessageBitsAppend(a[1..], b);
    }
  }

  lemma {:induction false} MessageBitsInjective(a: seq<byte>, b: seq<byte>)
    requires |a| == |b| && MessageBits(a) == MessageBits(b)
    ensures a == b
  {
    if a != [] {
      ByteIsEightBits();
      FromToBits(a[0], 8);
      FromToBits(b[0], 8);
      assert ToBits(a[0], 8) == MessageBits(a)[..8] == MessageBits(b)[..8] == ToBits(b[0], 8);
      assert MessageBits(a[1..]) == MessageBits(a)[8..] == MessageBits(b[1..]);
      MessageBitsInjective(a[1..], b[1..]);
    }
  }

  // ---------------------------------------------------------------- little-endian fields

  function Le(x: nat, n: nat): (s: seq<byte>)
    ensures |s| == n
  {
    if n == 0 then [] else [x % 256] + Le(x / 256, n - 1)
  }

  function FromLe(s: seq<byte>): (x: nat)
    ensures x < Pow2(8 * |s|)
  {
    if s == [] then 0
    else
      assert Pow2(8 * |s|) == 256 * Pow2(8 * |s[1..]|) by {
        ByteIsEightBits();
        Pow2Sum(8, 8 * |s[1..]|);
      }
      s[0] + 256 * FromLe(s[1..])
  }

  lemma {:induction false} FromLeLe(x: nat, n: nat)
    requires x < Pow2(8 * n)
    ensures FromLe(Le(x, n)) == x
  {
    if n > 0 {
      ByteIsEightBits();
      Pow2Sum(8, 8 * (n - 1));
      FromLeLe(x / 256, n - 1);
    }
  }

  lemma {:induction false} LeFromLe(s: seq<byte>)
    ensures Le(FromLe(s), |s|) == s
  {
    if s != [] {
      LeFromLe(s[1..]);
      ModuloUnique(FromLe(s), 256, FromLe(s[1..]), s[0]);
    }
  }

  /** A little-endian field read as bits. */
  lemma {:induction false} FromBitsOfMessage(s: seq<byte>)
    ensures FromBits(MessageBits(s)) == FromLe(s)
  {
    if s != [] {
      FromBitsOfMessage(s[1..]);
      FromBitsAppend(ToBits(s[0], 8), MessageBits(s[1..]));
      ByteIsEightBits();
      FromToBits(s[0], 8);
    }
  }

  lemma DoubleProduct(bit: nat, x: nat, p: nat, y: nat)
    ensures bit + 2 * (x + p * y) == (bit + 2 * x) + (2 * p) * y
  {
  }

  lemma {:induction false} FromBitsAppend(a: seq<bool>, b: seq<bool>)
    ensures FromBits(a + b) == FromBits(a) + Pow2(|a|) * FromBits(b)
  {
    hide FromBits;
    if a == [] {
      assert a + b == b;
      NoBits(a);
    } else {
      assert (a + b)[1..] == a[1..] + b;
      FromBitsAppend(a[1..], b);
      DoubleProduct(if a[0] then 1 else 0, FromBits(a[1..]), Pow2(|a| - 1), FromBits(b));
      FirstBit(a);
      FirstBit(a + b);
    }
  }

  lemma NoBits(a: seq<bool>)
    requires a == []
    ensures FromBits(a) == 0
  {
  }

  lemma FirstBit(a: seq<bool>)
    requires a != []
    ensures FromBits(a) == (if a[0] then 1 else 0) + 2 * FromBits(a[1..])
  {
  }
}
