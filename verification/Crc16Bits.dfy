/** Single bits of the checksum register, and what one register step does to each of them. */
module Crc16Bits {
  import opened Crc16Register

  function Shift(r: bv16): bv16 { r << 1 }

  predicate TopBit(r: bv16) { r & 0x8000 != 0 }

  /** The k-th bit of a register, highest first. */
  predicate Bit(r: bv16, k: nat)
    decreases k
  {
    if k == 0 then TopBit(r) else Bit(Shift(r), k - 1)
  }

  function Top(m: bool): bv16 {
    if m then 0x8000 else 0
  }

  /** The register after one message bit. */
  function BitStep(c: bv16, m: bool): bv16 {
    Step(Xor(c, Top(m)))
  }

  // ---------- bits of sums ----------

  lemma TopXor(a: bv16, b: bv16)
    ensures TopBit(Xor(a, b)) == (TopBit(a) != TopBit(b))
  {
  }

  lemma ShiftXor(a: bv16, b: bv16)
    ensures Shift(Xor(a, b)) == Xor(Shift(a), Shift(b))
  {
  }

  lemma {:induction false} BitXor(a: bv16, b: bv16, k: nat)
    ensures Bit(Xor(a, b), k) == (Bit(a, k) != Bit(b, k))
    decreases k
  {
    hide Xor, Shift, TopBit;
    if k == 0 {
      TopXor(a, b);
    } else {
      ShiftXor(a, b);
      BitXor(Shift(a), Shift(b), k - 1);
    }
  }

  lemma {:induction false} ZeroBit(k: nat)
    ensures !Bit(0, k)
    decreases k
  {
    if k > 0 {
      ZeroBit(k - 1);
    }
  }

  /** The sixteen bits below x^16 of x^16 + x^12 + x^5 + 1. */
  lemma GeneratorBits(k: nat)
    ensures Bit(0x1021, k) == (k == 3 || k == 10 || k == 15)
  {
    assert Shift(0x1021) == 0x2042 && Shift(0x2042) == 0x4084 && Shift(0x4084) == 0x8108 && Shift(0x8108) == 0x0210;
    assert Shift(0x0210) == 0x0420 && Shift(0x0420) == 0x0840 && Shift(0x0840) == 0x1080 && Shift(0x1080) == 0x2100;
    assert Shift(0x2100) == 0x4200 && Shift(0x4200) == 0x8400 && Shift(0x8400) == 0x0800 && Shift(0x0800) == 0x1000;
    assert Shift(0x1000) == 0x2000 && Shift(0x2000) == 0x4000 && Shift(0x4000) == 0x8000 && Shift(0x8000) == 0;
    assert TopBit(0x8108) && TopBit(0x8400) && TopBit(0x8000);
    hide Shift;
    if k < 8 {
      BitsFrom(0x1021, 0x2042, 0x4084, 0x8108, k);
      BitsFrom(0x0210, 0x0420, 0x0840, 0x1080, k - 4);
    } else if k < 16 {
      BitsFrom(0x1021, 0x2042, 0x4084, 0x8108, k);
      BitsFrom(0x0210, 0x0420, 0x0840, 0x1080, k - 4);
      BitsFrom(0x2100, 0x4200, 0x8400, 0x0800, k - 8);
      BitsFrom(0x1000, 0x2000, 0x4000, 0x8000, k - 12);
    } else {
      BitsFrom(0x1021, 0x2042, 0x4084, 0x8108, k);
      BitsFrom(0x0210, 0x0420, 0x0840, 0x1080, k - 4);
      BitsFrom(0x2100, 0x4200, 0x8400, 0x0800, k - 8);
      BitsFrom(0x1000, 0x2000, 0x4000, 0x8000, k - 12);
      ZeroBit(k - 16);
    }
  }

  lemma BitsFrom(a: bv16, b: bv16, c: bv16, d: bv16, k: int)
    requires b == Shift(a) && c == Shift(b) && d == Shift(c)
    ensures k == 0 ==> Bit(a, k) == TopBit(a)
    ensures k == 1 ==> Bit(a, k) == TopBit(b)
    ensures k == 2 ==> Bit(a, k) == TopBit(c)
    ensures k == 3 ==> Bit(a, k) == TopBit(d)
    ensures k >= 4 ==> Bit(a, k) == Bit(Shift(d), k - 4)
  {
    hide Shift, TopBit;
    if k >= 3 {
      assert Bit(a, k) == Bit(b, k - 1) == Bit(c, k - 2) == Bit(d, k - 3);
    }
  }

  lemma FeedbackCases(c: bv16)
    ensures Feedback(c) == if TopBit(c) then 0x1021 else 0
  {
  }

  lemma StepIsShiftAndFeedback(c: bv16)
    ensures Step(c) == Xor(Shift(c), Feedback(c))
  {
  }

  lemma StepBit(c: bv16, k: nat)
    requires k < 16
    ensures Bit(Step(c), k) == (Bit(c, k + 1) != (Bit(c, 0) && (k == 3 || k == 10 || k == 15)))
  {
    hide Xor, Shift, Feedback, TopBit, Step;
    StepIsShiftAndFeedback(c);
    BitXor(Shift(c), Feedback(c), k);
    FeedbackCases(c);
    GeneratorBits(k);
    ZeroBit(k);
  }

  lemma TopOnly(m: bool)
    ensures TopBit(Top(m)) == m && Shift(Top(m)) == 0
  {
  }

  /** What one message bit does to the sixteen remainder bits. */
  lemma BitStepBit(c: bv16, m: bool, k: nat)
    requires k < 16
    ensures Bit(BitStep(c, m), k) == (Bit(c, k + 1) != (Bit(c, 0) != m && (k == 3 || k == 10 || k == 15)))
  {
    hide Step, Xor, Top, Shift, TopBit;
    StepBit(Xor(c, Top(m)), k);
    BitXor(c, Top(m), 0);
    BitXor(c, Top(m), k + 1);
    TopOnly(m);
    ZeroBit(k);
  }

  // ---------- a byte enters bit by bit ----------

  predicate First(t: bv8) { t & 0x80 != 0 }

  function Left(t: bv8): bv8 { t << 1 }

  lemma ShiftIn(c: bv16, t: bv8)
    ensures Step(Xor(c, Up(t))) == Xor(BitStep(c, First(t)), Up(Left(t)))
  {
  }

  lemma NothingLeft(t: bv8)
    ensures Left(Left(Left(Left(Left(Left(Left(Left(t)))))))) == 0
  {
  }

  // ---------- a register is its sixteen bits ----------

  function ShiftBy(r: bv16, n: nat): bv16
    decreases n
  {
    if n == 0 then r else ShiftBy(Shift(r), n - 1)
  }

  lemma SixteenShifts(r: bv16)
    ensures ShiftBy(r, 16) == 0
  {
    var r4, r8 := Shift(Shift(Shift(Shift(r)))), Shift(Shift(Shift(Shift(Shift(Shift(Shift(Shift(r))))))));
    AllOut(r);
    hide Shift;
    FourShifts(r, 12);
    FourShifts(r4, 8);
    FourShifts(r8, 4);
    FourShifts(Shift(Shift(Shift(Shift(r8)))), 0);
  }

  lemma {:induction false} BitIsShiftedOut(r: bv16, k: nat)
    ensures Bit(r, k) == TopBit(ShiftBy(r, k))
    decreases k
  {
    hide Shift, TopBit;
    if k > 0 {
      BitIsShiftedOut(Shift(r), k - 1);
    }
  }

  lemma NoBit16(r: bv16)
    ensures !Bit(r, 16)
  {
    BitIsShiftedOut(r, 16);
    SixteenShifts(r);
  }

  lemma FourShifts(r: bv16, n: nat)
    ensures ShiftBy(r, n + 4) == ShiftBy(Shift(Shift(Shift(Shift(r)))), n)
  {
    hide Shift;
    var r1 := Shift(r);
    var r2 := Shift(r1);
    var r3 := Shift(r2);
    assert ShiftBy(r, n + 4) == ShiftBy(r1, n + 3) == ShiftBy(r2, n + 2) == ShiftBy(r3, n + 1);
  }

  lemma AllOut(r: bv16)
    ensures Shift(Shift(Shift(Shift(Shift(Shift(Shift(Shift(Shift(Shift(Shift(Shift(Shift(Shift(Shift(Shift(r)))))))))))))))) == 0
  {
  }

  lemma SameTopAndRest(c: bv16, d: bv16)
    requires TopBit(c) == TopBit(d) && Shift(c) == Shift(d)
    ensures c == d
  {
  }

  lemma {:induction false} SameBits(c: bv16, d: bv16, n: nat)
    requires ShiftBy(c, n) == ShiftBy(d, n)
    requires forall k: nat | k < n :: Bit(c, k) == Bit(d, k)
    ensures c == d
    decreases n
  {
    hide Shift, TopBit;
    if n > 0 {
      assert Bit(c, 0) == Bit(d, 0);
      forall k: nat | k < n - 1
        ensures Bit(Shift(c), k) == Bit(Shift(d), k)
      {
        assert Bit(c, k + 1) == Bit(d, k + 1);
      }
      SameBits(Shift(c), Shift(d), n - 1);
      SameTopAndRest(c, d);
    }
  }

  lemma BitsAreInjective(c: bv16, d: bv16)
    requires forall k: nat | k < 16 :: Bit(c, k) == Bit(d, k)
    ensures c == d
  {
    hide *;
    SixteenShifts(c);
    SixteenShifts(d);
    SameBits(c, d, 16);
  }
}
