/** Power-of-two mask arithmetic: what `x & (n - 1)` and `x & ~(n - 1)` mean on machine words. */
module Bits {

  // One past the largest 64-bit word.
  const WORD: nat := 0x1_0000_0000_0000_0000

  predicate PowerOfTwo(n: nat) {
    n == 1 || (n > 1 && n % 2 == 0 && PowerOfTwo(n / 2))
  }

  /** Bitwise `&` of two words. */
  function And(x: nat, y: nat): nat {
    if x == 0 || y == 0 then 0
    else 2 * And(x / 2, y / 2) + (if x % 2 == 1 && y % 2 == 1 then 1 else 0)
  }

  lemma {:induction false} AndZero(x: nat)
    ensures And(x, 0) == 0 && And(0, x) == 0
  {
  }

  lemma {:induction false} DoubleModulo(x: nat, m: nat)
    requires m > 0
    ensures 2 * ((x / 2) % m) + x % 2 == x % (2 * m)
  {
    var d, e := (x / 2) / m, (x / 2) % m;
    assert x == (2 * m) * d + (2 * e + x % 2) by {
      assert x == 2 * (x / 2) + x % 2;
      assert x / 2 == m * d + e;
      assert 2 * (m * d) == (2 * m) * d;
    }
    ModuloUnique(x, 2 * m, d, 2 * e + x % 2);
  }

  lemma {:induction false} MultiplyStep(n: nat, a: nat, b: nat)
    ensures a < b ==> n * b >= n * a + n
    decreases b
  {
    if a < b {
      assert n * b == n * (b - 1) + n;
      MultiplyStep(n, a, b - 1);
    }
  }

  lemma {:induction false} ModuloUnique(x: nat, n: nat, q: nat, r: nat)
    requires n > 0 && x == n * q + r && r < n
    ensures x % n == r && x / n == q
  {
    MultiplyStep(n, q, x / n);
    MultiplyStep(n, x / n, q);
  }

  /** `x & (n - 1)` is the remainder, for every power of two n. */
  lemma {:induction false} MaskIsModulo(x: nat, n: nat)
    requires PowerOfTwo(n)
    ensures And(x, n - 1) == x % n
  {
    if n == 1 {
      AndZero(x);
    } else if x == 0 {
    } else {
      var m := n / 2;
      MaskIsModulo(x / 2, m);
      DoubleModulo(x, m);
      assert (n - 1) / 2 == m - 1 && (n - 1) % 2 == 1;
    }
  }

  lemma {:induction false} AndDouble(x: nat, y: nat)
    ensures And(x, 2 * y) == 2 * And(x / 2, y)
  {
    assert (2 * y) / 2 == y && (2 * y) % 2 == 0;
    AndZero(x / 2);
  }

  lemma {:induction false} ComplementMaskStep(x: nat, m: nat, u: nat)
    requires 0 < m <= u
    requires And(x / 2, u - m) == x / 2 - (x / 2) % m
    ensures And(x, 2 * u - 2 * m) == x - x % (2 * m)
  {
    DoubleModulo(x, m);
    AndDouble(x, u - m);
    assert 2 * (u - m) == 2 * u - 2 * m;
  }

  /** `x & ~(n - 1)`, with the complement taken in a word of size w, clears exactly the remainder. */
  lemma {:induction false} ComplementMaskClears(x: nat, n: nat, w: nat)
    requires PowerOfTwo(n) && PowerOfTwo(w) && n <= w && x < w
    ensures And(x, w - n) == x - x % n
  {
    if n == 1 {
      MaskIsModulo(x, w);
      ModuloUnique(x, w, 0, x);
    } else {
      ComplementMaskClears(x / 2, n / 2, w / 2);
      ComplementMaskStep(x, n / 2, w / 2);
    }
  }

  /** The source's power-of-two test, `n & (n - 1) == 0` for positive n. */
  lemma {:induction false} PowerOfTwoTest(n: nat)
    requires n > 0
    ensures PowerOfTwo(n) <==> And(n, n - 1) == 0
  {
    if n == 1 {
    } else if n % 2 == 1 {
      assert n / 2 == (n - 1) / 2 && n / 2 > 0;
      AndSelf(n / 2);
      assert (n - 1) / 2 == n / 2;
    } else {
      PowerOfTwoTest(n / 2);
      assert (n - 1) / 2 == n / 2 - 1;
    }
  }

  lemma {:induction false} AndSelf(x: nat)
    ensures And(x, x) == x
  {
    if x > 0 {
      AndSelf(x / 2);
    }
  }

  lemma {:induction false} ProductOfPowers(n: nat, m: nat)
    requires PowerOfTwo(n) && PowerOfTwo(m)
    ensures PowerOfTwo(n * m)
  {
    if m > 1 {
      var k := m / 2;
      assert m == 2 * k;
      ProductOfPowers(n, k);
      assert n * m == 2 * (n * k);
    }
  }

  lemma ByteIsPowerOfTwo()
    ensures PowerOfTwo(0x100)
  {
  }

  lemma WordIsPowerOfTwo()
    ensures PowerOfTwo(WORD)
  {
    hide PowerOfTwo;
    ByteIsPowerOfTwo();
    ProductOfPowers(0x100, 0x100);
    ProductOfPowers(0x1_0000, 0x1_0000);
    ProductOfPowers(0x1_0000_0000, 0x1_0000_0000);
  }

  /** `(value + alignment - 1) & ~(alignment - 1)` on 64-bit words: the least multiple not below. */
  function AlignUp(value: nat, alignment: nat): (r: nat)
    requires PowerOfTwo(alignment)
    requires value + alignment - 1 < WORD
    ensures r % alignment == 0
    ensures value <= r < value + alignment
  {
    WordIsPowerOfTwo();
    ComplementMaskClears(value + alignment - 1, alignment, WORD);
    RoundDown(value + alignment - 1, alignment);
    And(value + alignment - 1, WORD - alignment)
  }

  /** A multiple of the alignment stays where it is. */
  lemma {:induction false} AlignUpFixes(value: nat, alignment: nat)
    requires PowerOfTwo(alignment) && value + alignment - 1 < WORD && value % alignment == 0
    ensures AlignUp(value, alignment) == value
  {
    hide AlignUp, PowerOfTwo;
    ModuloInjective(value, AlignUp(value, alignment), alignment);
  }

  lemma AlignUpZero(alignment: nat)
    requires PowerOfTwo(alignment) && alignment < WORD
    ensures AlignUp(0, alignment) == 0
  {
    hide AlignUp;
    ModuloUnique(0, alignment, 0, 0);
    AlignUpFixes(0, alignment);
  }

  lemma {:induction false} RoundDown(x: nat, n: nat)
    requires n > 0
    ensures x % n < n && x % n <= x && (x - x % n) % n == 0
  {
    assert x - x % n == n * (x / n) + 0;
    ModuloUnique(x - x % n, n, x / n, 0);
  }

  /** Two indices less than n apart share a slot only when they are equal. */
  lemma {:induction false} ModuloInjective(x: nat, y: nat, n: nat)
    requires n > 0 && x <= y < x + n
    requires x % n == y % n
    ensures x == y
  {
    MultiplyStep(n, x / n, y / n);
    MultiplyStep(n, y / n, x / n);
  }

  /** Adding one lap keeps the slot. */
  lemma {:induction false} ModuloLap(x: nat, n: nat)
    requires n > 0
    ensures (x + n) % n == x % n
  {
    assert x + n == n * (x / n + 1) + x % n;
    ModuloUnique(x + n, n, x / n + 1, x % n);
  }

  /** `i & mask` for a ring of n slots. */
  function SlotOf(i: nat, n: nat): (slot: nat)
    requires PowerOfTwo(n)
    ensures slot < n
  {
    MaskIsModulo(i, n);
    And(i, n - 1)
  }

  lemma {:induction false} SlotIsModulo(i: nat, n: nat)
    requires PowerOfTwo(n)
    ensures SlotOf(i, n) == i % n
    ensures i < n ==> SlotOf(i, n) == i
  {
    MaskIsModulo(i, n);
    if i < n {
      ModuloUnique(i, n, 0, i);
    }
  }

  /** One lap later the slot is the same. */
  lemma {:induction false} SlotLap(i: nat, n: nat)
    requires PowerOfTwo(n)
    ensures SlotOf(i + n, n) == SlotOf(i, n)
  {
    SlotIsModulo(i, n);
    SlotIsModulo(i + n, n);
    ModuloLap(i, n);
  }

  lemma {:induction false} SlotsDistinct(i: nat, j: nat, n: nat)
    requires PowerOfTwo(n) && i != j && i < j + n && j < i + n
    ensures SlotOf(i, n) != SlotOf(j, n)
  {
    SlotIsModulo(i, n);
    SlotIsModulo(j, n);
    if SlotOf(i, n) == SlotOf(j, n) {
      if i < j {
        ModuloInjective(i, j, n);
      } else {
        ModuloInjective(j, i, n);
      }
    }
  }
}
