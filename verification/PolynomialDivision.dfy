/**
 * What the CRC register means: the remainder of the message polynomial, shifted by 32 places and with its
 * first 32 coefficients offset by the initial register, on division by the generator over GF(2).
 *
 * A polynomial is its coefficients, highest power first; addition is Xor. The reflected register is already
 * in this form: its low bit is the coefficient of x^31.
 */
module PolynomialDivision {
  import opened Words
  import opened Crc32c

  // x^32 + the 32 coefficients of the reflected constant
  const GENERATOR: seq<bool> := [true] + POLYNOMIAL

  /** The exponents of the CRC32C generator, as section 12.1 of RFC 3720 lists them (0x11EDC6F41). */
  const EXPONENTS: set<nat> := {32, 28, 27, 26, 25, 23, 22, 20, 19, 18, 14, 13, 11, 10, 9, 8, 6, 0}

  /** A hexadecimal digit, lowest bit first. */
  function Digit(a: bool, b: bool, c: bool, d: bool): seq<bool> {
    [a, b, c, d]
  }

  /** The source's constant, from its lowest digit: 8, 7, B, 3, 6, F, 2, 8. */
  const HIGH: seq<bool> := Digit(false, true, true, false) + (Digit(true, true, true, true)
                           + (Digit(false, true, false, false) + Digit(false, false, false, true)))
  const DIGITS: seq<bool> := Digit(false, false, false, true) + (Digit(true, true, true, false)
                             + (Digit(true, true, false, true) + (Digit(true, true, false, false) + HIGH)))

  lemma DigitValue(a: bool, b: bool, c: bool, d: bool)
    ensures |Digit(a, b, c, d)| == 4 && Pow2(4) == 16
    ensures FromBits(Digit(a, b, c, d))
         == (if a then 1 else 0) + (if b then 2 else 0) + (if c then 4 else 0) + (if d then 8 else 0)
  {
    var s := [a, b, c, d];
    assert s[1..] == [b, c, d] && [b, c, d][1..] == [c, d] && [c, d][1..] == [d] && [d][1..] == [];
    FirstBit(s);
    FirstBit([b, c, d]);
    FirstBit([c, d]);
    FirstBit([d]);
  }

  lemma PrependDigit(a: bool, b: bool, c: bool, d: bool, rest: seq<bool>)
    ensures FromBits(Digit(a, b, c, d) + rest)
         == (if a then 1 else 0) + (if b then 2 else 0) + (if c then 4 else 0) + (if d then 8 else 0)
            + 16 * FromBits(rest)
  {
    DigitValue(a, b, c, d);
    hide FromBits, Pow2, Digit;
    FromBitsAppend(Digit(a, b, c, d), rest);
  }

  lemma HighDigits()
    ensures FromBits(HIGH) == 0x82F6
  {
    hide FromBits, Digit;
    var e8 := Digit(false, false, false, true);
    DigitValue(false, false, false, true);
    PrependDigit(false, true, false, false, e8);
    PrependDigit(true, true, true, true, Digit(false, true, false, false) + e8);
    PrependDigit(false, true, true, false, Digit(true, true, true, true) + (Digit(false, true, false, false) + e8));
  }

  lemma AllDigits()
    ensures FromBits(DIGITS) == 0x82F6_3B78
  {
    HighDigits();
    hide FromBits, Digit;
    var d3 := Digit(true, true, false, false) + HIGH;
    var dB := Digit(true, true, false, true) + d3;
    PrependDigit(true, true, false, false, HIGH);
    PrependDigit(true, true, false, true, d3);
    PrependDigit(true, true, true, false, dB);
    PrependDigit(false, false, false, true, Digit(true, true, true, false) + dB);
  }

  lemma {:induction false} DigitsAreTheConstant()
    ensures |DIGITS| == 32 && POLYNOMIAL == DIGITS
  {
    hide FromBits, ToBits;
    AllDigits();
    ToFromBits(DIGITS);
  }

  /** The generator is x^32 + x^28 + x^27 + ... + x^6 + 1: its coefficients are true exactly at the listed exponents. */
  lemma {:induction false} GeneratorIsCrc32c()
    ensures |GENERATOR| == 33 && forall i :: 0 <= i <= 32 ==> (GENERATOR[i] <==> 32 - i in EXPONENTS)
  {
    DigitsAreTheConstant();
  }

  /** q times the generator, of degree below |q| + 32. */
  function Product(q: seq<bool>): (p: seq<bool>)
    ensures |p| == |q| + 32
  {
    if q == [] then Zeros(32)
    else
      var n := |q| - 1;
      Xor(Product(q[..n]) + [false], Zeros(n) + if q[n] then GENERATOR else Zeros(33))
  }

  /** The message times x^32, plus the initial register aligned with the first 32 coefficients. */
  function Dividend(c: Word32, m: seq<bool>): (d: seq<bool>)
    ensures |d| == |m| + 32
  {
    Xor(c + Zeros(|m|), m + Zeros(32))
  }

  /** The initial register complements the first 32 coefficients, and appending 32 zeros multiplies by x^32. */
  lemma {:induction false} DividendOfInitial(m: seq<bool>)
    ensures forall i :: 0 <= i < |m| + 32 ==>
              Dividend(INITIAL, m)[i] == ((if i < |m| then m[i] else false) != (i < 32))
  {
  }

  ghost predicate IsRemainder(d: seq<bool>, r: Word32)
    requires |d| >= 32
  {
    exists q :: IsDivision(d, q, r)
  }

  predicate IsDivision(d: seq<bool>, q: seq<bool>, r: Word32) {
    |d| == |q| + 32 && d == Xor(Product(q), Zeros(|q|) + r)
  }

  /** The quotient: the bits that leave the register. */
  function Quotient(c: Word32, m: seq<bool>): (q: seq<bool>)
    ensures |q| == |m|
    decreases m
  {
    if m == [] then []
    else
      var n := |m| - 1;
      Quotient(c, m[..n]) + [FeedBits(c, m[..n])[0] != m[n]]
  }

  lemma {:induction false} FeedLast(c: Word32, m: seq<bool>)
    requires m != []
    ensures FeedBits(c, m) == FeedBit(FeedBits(c, m[..|m| - 1]), m[|m| - 1])
  {
    var n := |m| - 1;
    assert m == m[..n] + [m[n]];
    FeedBitsAppend(c, m[..n], [m[n]]);
  }

  /** One step of long division, on the register alone. */
  lemma {:induction false} DivideRegister(r: Word32, e: bool)
    ensures Xor(r + [false], [e] + Zeros(32))
         == Xor(if r[0] != e then GENERATOR else Zeros(33), [false] + FeedBit(r, e))
  {
    var c := r[0 := r[0] != e];
    var s := ShiftRight(c, 1);
    assert BitStep(c) == if c[0] then Xor(s, POLYNOMIAL) else s;
  }

  lemma {:induction false} DivisionStep(d: seq<bool>, q: seq<bool>, r: Word32, e: bool)
    requires IsDivision(d, q, r)
    ensures IsDivision(Xor(d + [false], Zeros(|q|) + [e] + Zeros(32)), q + [r[0] != e], FeedBit(r, e))
  {
    var n := |q|;
    var g := if r[0] != e then GENERATOR else Zeros(33);
    var next := q + [r[0] != e];
    DivideRegister(r, e);
    assert next[..n] == q;
    assert Product(next) == Xor(Product(q) + [false], Zeros(n) + g);
    var before := Xor(d + [false], Zeros(n) + [e] + Zeros(32));
    var after := Xor(Product(next), Zeros(n + 1) + FeedBit(r, e));
    forall i | 0 <= i < n + 33
      ensures before[i] == after[i]
    {
      if i >= n {
        assert Xor(r + [false], [e] + Zeros(32))[i - n] == Xor(g, [false] + FeedBit(r, e))[i - n];
      }
    }
    assert before == after;
  }

  lemma {:induction false} DividendLast(c: Word32, m: seq<bool>)
    requires m != []
    ensures var n := |m| - 1;
      Dividend(c, m) == Xor(Dividend(c, m[..n]) + [false], Zeros(n) + [m[n]] + Zeros(32))
  {
  }

  lemma {:induction false} DividesNothing(c: Word32, m: seq<bool>)
    requires m == []
    ensures IsDivision(Dividend(c, m), [], c)
  {
  }

  /** Feeding the message divides: dividend = quotient * generator + register. */
  lemma {:induction false} RegisterDivides(c: Word32, m: seq<bool>)
    ensures IsDivision(Dividend(c, m), Quotient(c, m), FeedBits(c, m))
    decreases m
  {
    hide IsDivision, Dividend, Xor, Zeros, FeedBit;
    if m == [] {
      DividesNothing(c, m);
    } else {
      var n := |m| - 1;
      RegisterDivides(c, m[..n]);
      DivisionStep(Dividend(c, m[..n]), Quotient(c, m[..n]), FeedBits(c, m[..n]), m[n]);
      FeedLast(c, m);
      DividendLast(c, m);
    }
  }

  /** What is left of a division when the last quotient coefficient and the last dividend coefficient go. */
  function Undo(h: bool, r: Word32): Word32 {
    Xor(if h then GENERATOR[..32] else Zeros(32), [false] + r[..31])
  }

  lemma {:induction false} DivisionPrefix(d: seq<bool>, q: seq<bool>, r: Word32)
    requires IsDivision(d, q, r) && q != []
    ensures IsDivision(d[..|d| - 1], q[..|q| - 1], Undo(q[|q| - 1], r))
    ensures d[|d| - 1] == ((q[|q| - 1] && GENERATOR[32]) != r[31])
  {
    var n := |q| - 1;
    var g := if q[n] then GENERATOR else Zeros(33);
    assert Product(q) == Xor(Product(q[..n]) + [false], Zeros(n) + g);
    var left, right := d[..|d| - 1], Xor(Product(q[..n]), Zeros(n) + Undo(q[n], r));
    forall i | 0 <= i < n + 32
      ensures left[i] == right[i]
    {
      assert d[i] == (Product(q)[i] != (Zeros(n + 1) + r)[i]);
    }
    assert left == right;
  }

  /** Quotient and remainder are unique. */
  lemma {:induction false} DivisionUnique(d: seq<bool>, q: seq<bool>, r: Word32, q': seq<bool>, r': Word32)
    requires IsDivision(d, q, r) && IsDivision(d, q', r')
    ensures q == q' && r == r'
    decreases q
  {
    if q == [] {
      forall i | 0 <= i < 32
        ensures r[i] == r'[i]
      {
        assert d[i] == (Product(q)[i] != (Zeros(0) + r)[i]);
        assert d[i] == (Product(q')[i] != (Zeros(0) + r')[i]);
      }
    } else {
      var n := |q| - 1;
      DivisionPrefix(d, q, r);
      DivisionPrefix(d, q', r');
      var u, u' := Undo(q[n], r), Undo(q'[n], r');
      DivisionUnique(d[..|d| - 1], q[..n], u, q'[..n], u');
      assert u[0] == q[n] && u'[0] == q'[n];
      forall i | 0 <= i < 31
        ensures r[i] == r'[i]
      {
        assert u[i + 1] == ((q[n] && GENERATOR[i + 1]) != r[i]);
        assert u'[i + 1] == ((q'[n] && GENERATOR[i + 1]) != r'[i]);
      }
      assert q == q[..n] + [q[n]] && q' == q'[..n] + [q'[n]];
    }
  }

  /** The checksum is the complement of the remainder, and of nothing else. */
  lemma {:induction false} CrcIsTheRemainder(data: seq<byte>, r: Word32)
    ensures IsRemainder(Dividend(INITIAL, MessageBits(data)), r) <==> Crc(data) == Not(r)
  {
    var m := MessageBits(data);
    RegisterDivides(INITIAL, m);
    if IsRemainder(Dividend(INITIAL, m), r) {
      var q :| IsDivision(Dividend(INITIAL, m), q, r);
      DivisionUnique(Dividend(INITIAL, m), q, r, Quotient(INITIAL, m), FeedBits(INITIAL, m));
    } else if Crc(data) == Not(r) {
      if r != FeedBits(INITIAL, m) {
        NotInjective(r, FeedBits(INITIAL, m));
      }
    }
  }
}
