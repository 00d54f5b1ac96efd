/** The checksum of Galaxy Buds packets is the remainder of polynomial division by x^16 + x^12 + x^5 + 1 with start
    value 0 (section 2 of ITU-T V.41), and detects every change within two neighbouring bytes. */
module Crc16 {
  import opened Crc16Register
  import opened Crc16Bits

  function Fold(c: bv16, data: seq<bv8>): bv16
    decreases |data|
  {
    if data == [] then c else Fold(ByteStep(c, data[0]), data[1..])
  }

  function Crc(data: seq<bv8>): bv16 {
    Fold(0, data)
  }

  /** The checksum of `data`, one table look-up a byte. */
  method Checksum(data: seq<bv8>) returns (crc: bv16)
    ensures crc == Crc(data)
  {
    hide Table, High, ByteStep;
    crc := 0;
    for i := 0 to |data|
      invariant Fold(crc, data[i..]) == Crc(data)
    {
      TableStepIsByteStep(crc, data[i]);
      assert data[i..][1..] == data[i + 1..];
      crc := Table(High(crc) ^ data[i]) ^ (crc << 8);
    }
  }

  /** The two checksum bytes as a packet carries them, low byte first. */
  method PacketChecksum(id: bv8, payload: seq<bv8>) returns (bytes: seq<bv8>)
    ensures bytes == [Low(Crc([id] + payload)), High(Crc([id] + payload))]
  {
    var crcData := [id];
    crcData := crcData + payload;
    var crc := Checksum(crcData);
    bytes := [Low(crc), High(crc)];
  }

  // ---------- messages as polynomials ----------

  function Bits16(r: bv16): seq<bool> {
    seq(16, k requires 0 <= k => Bit(r, k))
  }

  function TopBits(t: bv8, n: nat): (s: seq<bool>)
    ensures |s| == n
    decreases n
  {
    if n == 0 then [] else [First(t)] + TopBits(Left(t), n - 1)
  }

  /** A message as a polynomial over GF(2): its bits, highest power first. */
  function MessageBits(data: seq<bv8>): (s: seq<bool>)
    ensures |s| == 8 * |data|
  {
    if data == [] then [] else TopBits(data[0], 8) + MessageBits(data[1..])
  }

  function Coefficient(q: seq<bool>, k: int): bool {
    0 <= k < |q| && q[k]
  }

  function ProductBit(q: seq<bool>, k: int): bool {
    ((Coefficient(q, k) != Coefficient(q, k - 4)) != Coefficient(q, k - 11)) != Coefficient(q, k - 16)
  }

  /** q times x^16 + x^12 + x^5 + 1, coefficients modulo 2. */
  function TimesG(q: seq<bool>): seq<bool> {
    seq(|q| + 16, k => ProductBit(q, k))
  }

  /** message * x^16 + r == q * (x^16 + x^12 + x^5 + 1) */
  ghost predicate Divides(q: seq<bool>, message: seq<bool>, r: bv16) {
    |q| == |message| && TimesG(q) == message + Bits16(r)
  }

  function BitFold(c: bv16, bits: seq<bool>): bv16
    decreases |bits|
  {
    if bits == [] then c else BitFold(BitStep(c, bits[0]), bits[1..])
  }

  /** Feeding a bit keeps the division going: the bit that falls out extends the quotient. */
  lemma BitKeepsDivides(q: seq<bool>, message: seq<bool>, c: bv16, m: bool)
    requires Divides(q, message, c)
    ensures Divides(q + [Bit(c, 0) != m], message + [m], BitStep(c, m))
  {
    hide Bit, BitStep;
    var n, b := |q|, Bit(c, 0) != m;
    var q', s, s' := q + [b], Bits16(c), Bits16(BitStep(c, m));
    assert !Bit(c, 16) by { NoBit16(c); }
    forall k | 0 <= k < n + 17
      ensures ProductBit(q', k) == (message + [m] + s')[k]
    {
      assert forall i :: i != n ==> Coefficient(q', i) == Coefficient(q, i);
      assert Coefficient(q', n) == b && !Coefficient(q, n);
      if k < n + 16 {
        assert TimesG(q)[k] == ProductBit(q, k) == (message + s)[k];
      }
      if k > n {
        BitStepBit(c, m, k - n - 1);
      }
    }
    assert TimesG(q') == message + [m] + s';
  }

  lemma {:induction false} BitsKeepDivides(q: seq<bool>, message: seq<bool>, c: bv16, bits: seq<bool>)
      returns (q': seq<bool>)
    requires Divides(q, message, c)
    ensures Divides(q', message + bits, BitFold(c, bits))
    decreases |bits|
  {
    hide Divides, Bit, BitStep;
    if bits == [] {
      q' := q;
      assert message + bits == message;
    } else {
      BitKeepsDivides(q, message, c, bits[0]);
      q' := BitsKeepDivides(q + [Bit(c, 0) != bits[0]], message + [bits[0]], BitStep(c, bits[0]), bits[1..]);
      assert message + bits == message + [bits[0]] + bits[1..];
    }
  }

  function ShiftLeft(t: bv8, n: nat): bv8
    decreases n
  {
    if n == 0 then t else ShiftLeft(Left(t), n - 1)
  }

  function Steps(r: bv16, n: nat): bv16
    decreases n
  {
    if n == 0 then r else Steps(Step(r), n - 1)
  }

  lemma {:induction false} StepsFeedBits(c: bv16, t: bv8, n: nat)
    ensures Steps(Xor(c, Up(t)), n) == Xor(BitFold(c, TopBits(t, n)), Up(ShiftLeft(t, n)))
    decreases n
  {
    hide Step, BitStep, Xor, Up, First, Left;
    if n != 0 {
      ShiftIn(c, t);
      StepsFeedBits(BitStep(c, First(t)), Left(t), n - 1);
      assert TopBits(t, n)[1..] == TopBits(Left(t), n - 1);
    }
  }

  lemma EightSteps(r: bv16)
    ensures Steps(r, 8) == Step8(r)
  {
    hide Step;
    var r1 := Step(r);
    var r2 := Step(r1);
    var r3 := Step(r2);
    var r4 := Step(r3);
    var r5 := Step(r4);
    var r6 := Step(r5);
    assert Steps(r, 8) == Steps(r1, 7) == Steps(r2, 6) == Steps(r3, 5) == Steps(r4, 4) == Steps(r5, 3) == Steps(r6, 2);
  }

  lemma EightLefts(t: bv8)
    ensures ShiftLeft(t, 8) == 0
  {
    hide Left;
    NothingLeft(t);
    var t1 := Left(t);
    var t2 := Left(t1);
    var t3 := Left(t2);
    var t4 := Left(t3);
    var t5 := Left(t4);
    var t6 := Left(t5);
    assert ShiftLeft(t, 8) == ShiftLeft(t1, 7) == ShiftLeft(t2, 6) == ShiftLeft(t3, 5)
        == ShiftLeft(t4, 4) == ShiftLeft(t5, 3) == ShiftLeft(t6, 2);
  }

  lemma XorNothing(c: bv16)
    ensures Xor(c, Up(0)) == c
  {
  }

  /** A byte step is its eight bits fed one by one. */
  lemma ByteStepFeedsBits(c: bv16, t: bv8)
    ensures ByteStep(c, t) == BitFold(c, TopBits(t, 8))
  {
    hide Step8, Steps, ShiftLeft, TopBits, BitFold, Xor, Up;
    StepsFeedBits(c, t, 8);
    EightSteps(Xor(c, Up(t)));
    EightLefts(t);
    XorNothing(BitFold(c, TopBits(t, 8)));
  }

  lemma {:induction false} FoldKeepsDivides(q: seq<bool>, message: seq<bool>, c: bv16, data: seq<bv8>)
      returns (q': seq<bool>)
    requires Divides(q, message, c)
    ensures Divides(q', message + MessageBits(data), Fold(c, data))
    decreases |data|
  {
    hide Divides, ByteStep, TopBits, BitFold;
    if data == [] {
      q' := q;
      assert message + MessageBits(data) == message;
    } else {
      var q1 := BitsKeepDivides(q, message, c, TopBits(data[0], 8));
      ByteStepFeedsBits(c, data[0]);
      q' := FoldKeepsDivides(q1, message + TopBits(data[0], 8), ByteStep(c, data[0]), data[1..]);
      assert message + MessageBits(data) == message + TopBits(data[0], 8) + MessageBits(data[1..]);
    }
  }

  /** Quotient and remainder are unique. */
  lemma DivisionIsUnique(q1: seq<bool>, q2: seq<bool>, message: seq<bool>, r1: bv16, r2: bv16)
    requires Divides(q1, message, r1) && Divides(q2, message, r2)
    ensures q1 == q2 && r1 == r2
  {
    hide Bit;
    var n := |message|;
    var k := 0;
    while k < n
      invariant 0 <= k <= n && q1[..k] == q2[..k]
    {
      assert forall i | 0 <= i < k :: q1[i] == q1[..k][i] && q2[i] == q2[..k][i];
      assert TimesG(q1)[k] == ProductBit(q1, k) == message[k];
      assert TimesG(q2)[k] == ProductBit(q2, k) == message[k];
      k := k + 1;
    }
    assert q1 == q1[..n] == q2[..n] == q2;
    forall k: nat | k < 16
      ensures Bit(r1, k) == Bit(r2, k)
    {
      assert Bit(r1, k) == Bits16(r1)[k] == TimesG(q1)[n + k];
      assert Bit(r2, k) == Bits16(r2)[k] == TimesG(q2)[n + k];
    }
    BitsAreInjective(r1, r2);
  }

  /** The checksum is the remainder of polynomial division: the one value that, put behind the message,
      makes it a multiple of x^16 + x^12 + x^5 + 1. */
  lemma ChecksumIsTheRemainder(data: seq<bv8>, r: bv16)
    ensures r == Crc(data) <==> exists q :: Divides(q, MessageBits(data), r)
  {
    assert Divides([], [], 0) by { ZeroDivides(); }
    hide Divides;
    var q := FoldKeepsDivides([], [], 0, data);
    assert [] + MessageBits(data) == MessageBits(data);
    if q2 :| Divides(q2, MessageBits(data), r) {
      DivisionIsUnique(q, q2, MessageBits(data), Crc(data), r);
    }
  }

  lemma ZeroDivides()
    ensures Divides([], [], 0)
  {
    forall k: nat | k < 16
      ensures !Bit(0, k)
    {
      ZeroBit(k);
    }
    hide Bit;
    assert TimesG([]) == [] + Bits16(0);
  }

  // ---------- error detection ----------

  lemma {:induction false} FoldConcat(c: bv16, a: seq<bv8>, b: seq<bv8>)
    ensures Fold(c, a + b) == Fold(Fold(c, a), b)
    decreases |a|
  {
    hide ByteStep;
    if a == [] {
      assert a + b == b;
    } else {
      FoldConcat(ByteStep(c, a[0]), a[1..], b);
      assert (a + b)[1..] == a[1..] + b;
    }
  }

  /** Two registers that differ stay different through the same bytes. */
  lemma {:induction false} FoldIsInjective(c: bv16, d: bv16, data: seq<bv8>)
    requires c != d
    ensures Fold(c, data) != Fold(d, data)
    decreases |data|
  {
    hide ByteStep;
    if data != [] {
      if ByteStep(c, data[0]) == ByteStep(d, data[0]) {
        ByteStepIsInjective(c, d, data[0]);
        assert false;
      }
      FoldIsInjective(ByteStep(c, data[0]), ByteStep(d, data[0]), data[1..]);
    }
  }

  lemma FoldPair(c: bv16, s: seq<bv8>)
    requires |s| == 2
    ensures Fold(c, s) == ByteStep(ByteStep(c, s[0]), s[1])
  {
    hide ByteStep;
    assert s[1..][1..] == [];
    assert Fold(c, s) == Fold(ByteStep(c, s[0]), s[1..]) == ByteStep(ByteStep(c, s[0]), s[1]);
  }

  /** A message changed only within two neighbouring bytes has another checksum, whatever its length. */
  lemma BurstChangesChecksum(before: seq<bv8>, a: seq<bv8>, b: seq<bv8>, after: seq<bv8>)
    requires |a| == |b| == 2 && a != b
    ensures Crc(before + a + after) != Crc(before + b + after)
  {
    hide ByteStep, Fold;
    var c := Crc(before);
    forall s | s == a || s == b
      ensures Crc(before + s + after) == Fold(Fold(c, s), after)
    {
      FoldConcat(0, before + s, after);
      FoldConcat(0, before, s);
    }
    FoldPair(c, a);
    FoldPair(c, b);
    if Fold(c, a) == Fold(c, b) {
      PairIsInjective(c, a[0], a[1], b[0], b[1]);
      assert false;
    }
    FoldIsInjective(Fold(c, a), Fold(c, b), after);
  }

  /** With two bytes appended, high byte first, the checksum is 0 exactly when they are the message's own. */
  lemma ResidueIsZero(data: seq<bv8>, high: bv8, low: bv8)
    ensures Crc(data + [high, low]) == 0 <==> high == High(Crc(data)) && low == Low(Crc(data))
  {
    hide ByteStep, Fold, High, Low;
    var c := Crc(data);
    FoldConcat(0, data, [high, low]);
    FoldPair(c, [high, low]);
    OwnBytesClearTheRegister(c);
    if ByteStep(ByteStep(c, high), low) == 0 {
      PairIsInjective(c, high, low, High(c), Low(c));
    }
  }
}
