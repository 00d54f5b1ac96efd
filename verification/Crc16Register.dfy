/** The checksum of Galaxy Buds packets: CRC-16 with the polynomial x^16 + x^12 + x^5 + 1 and start value 0
    (section 2 of ITU-T V.41), computed a byte at a time with a 256-entry table. */
module Crc16Register {

  // ---------- the table, row by row as the source lays it out ----------

  function Row0(i: bv8): bv16 {
    match i
    case  0 => 0x0000 case  1 => 0x1021 case  2 => 0x2042 case  3 => 0x3063
    case  4 => 0x4084 case  5 => 0x50A5 case  6 => 0x60C6 case  7 => 0x70E7
    case  8 => 0x8108 case  9 => 0x9129 case 10 => 0xA14A case 11 => 0xB16B
    case 12 => 0xC18C case 13 => 0xD1AD case 14 => 0xE1CE case  _ => 0xF1EF
  }

  function Row1(i: bv8): bv16 {
    match i
    case  0 => 0x1231 case  1 => 0x0210 case  2 => 0x3273 case  3 => 0x2252
    case  4 => 0x52B5 case  5 => 0x4294 case  6 => 0x72F7 case  7 => 0x62D6
    case  8 => 0x9339 case  9 => 0x8318 case 10 => 0xB37B case 11 => 0xA35A
    case 12 => 0xD3BD case 13 => 0xC39C case 14 => 0xF3FF case  _ => 0xE3DE
  }

  function Row2(i: bv8): bv16 {
    match i
    case  0 => 0x2462 case  1 => 0x3443 case  2 => 0x0420 case  3 => 0x1401
    case  4 => 0x64E6 case  5 => 0x74C7 case  6 => 0x44A4 case  7 => 0x5485
    case  8 => 0xA56A case  9 => 0xB54B case 10 => 0x8528 case 11 => 0x9509
    case 12 => 0xE5EE case 13 => 0xF5CF case 14 => 0xC5AC case  _ => 0xD58D
  }

  function Row3(i: bv8): bv16 {
    match i
    case  0 => 0x3653 case  1 => 0x2672 case  2 => 0x1611 case  3 => 0x0630
    case  4 => 0x76D7 case  5 => 0x66F6 case  6 => 0x5695 case  7 => 0x46B4
    case  8 => 0xB75B case  9 => 0xA77A case 10 => 0x9719 case 11 => 0x8738
    case 12 => 0xF7DF case 13 => 0xE7FE case 14 => 0xD79D case  _ => 0xC7BC
  }

  function Row4(i: bv8): bv16 {
    match i
    case  0 => 0x48C4 case  1 => 0x58E5 case  2 => 0x6886 case  3 => 0x78A7
    case  4 => 0x0840 case  5 => 0x1861 case  6 => 0x2802 case  7 => 0x3823
    case  8 => 0xC9CC case  9 => 0xD9ED case 10 => 0xE98E case 11 => 0xF9AF
    case 12 => 0x8948 case 13 => 0x9969 case 14 => 0xA90A case  _ => 0xB92B
  }

  function Row5(i: bv8): bv16 {
    match i
    case  0 => 0x5AF5 case  1 => 0x4AD4 case  2 => 0x7AB7 case  3 => 0x6A96
    case  4 => 0x1A71 case  5 => 0x0A50 case  6 => 0x3A33 case  7 => 0x2A12
    case  8 => 0xDBFD case  9 => 0xCBDC case 10 => 0xFBBF case 11 => 0xEB9E
    case 12 => 0x9B79 case 13 => 0x8B58 case 14 => 0xBB3B case  _ => 0xAB1A
  }

  function Row6(i: bv8): bv16 {
    match i
    case  0 => 0x6CA6 case  1 => 0x7C87 case  2 => 0x4CE4 case  3 => 0x5CC5
    case  4 => 0x2C22 case  5 => 0x3C03 case  6 => 0x0C60 case  7 => 0x1C41
    case  8 => 0xEDAE case  9 => 0xFD8F case 10 => 0xCDEC case 11 => 0xDDCD
    case 12 => 0xAD2A case 13 => 0xBD0B case 14 => 0x8D68 case  _ => 0x9D49
  }

  function Row7(i: bv8): bv16 {
    match i
    case  0 => 0x7E97 case  1 => 0x6EB6 case  2 => 0x5ED5 case  3 => 0x4EF4
    case  4 => 0x3E13 case  5 => 0x2E32 case  6 => 0x1E51 case  7 => 0x0E70
    case  8 => 0xFF9F case  9 => 0xEFBE case 10 => 0xDFDD case 11 => 0xCFFC
    case 12 => 0xBF1B case 13 => 0xAF3A case 14 => 0x9F59 case  _ => 0x8F78
  }

  function Row8(i: bv8): bv16 {
    match i
    case  0 => 0x9188 case  1 => 0x81A9 case  2 => 0xB1CA case  3 => 0xA1EB
    case  4 => 0xD10C case  5 => 0xC12D case  6 => 0xF14E case  7 => 0xE16F
    case  8 => 0x1080 case  9 => 0x00A1 case 10 => 0x30C2 case 11 => 0x20E3
    case 12 => 0x5004 case 13 => 0x4025 case 14 => 0x7046 case  _ => 0x6067
  }

  function Row9(i: bv8): bv16 {
    match i
    case  0 => 0x83B9 case  1 => 0x9398 case  2 => 0xA3FB case  3 => 0xB3DA
    case  4 => 0xC33D case  5 => 0xD31C case  6 => 0xE37F case  7 => 0xF35E
    case  8 => 0x02B1 case  9 => 0x1290 case 10 => 0x22F3 case 11 => 0x32D2
    case 12 => 0x4235 case 13 => 0x5214 case 14 => 0x6277 case  _ => 0x7256
  }

  function RowA(i: bv8): bv16 {
    match i
    case  0 => 0xB5EA case  1 => 0xA5CB case  2 => 0x95A8 case  3 => 0x8589
    case  4 => 0xF56E case  5 => 0xE54F case  6 => 0xD52C case  7 => 0xC50D
    case  8 => 0x34E2 case  9 => 0x24C3 case 10 => 0x14A0 case 11 => 0x0481
    case 12 => 0x7466 case 13 => 0x6447 case 14 => 0x5424 case  _ => 0x4405
  }

  function RowB(i: bv8): bv16 {
    match i
    case  0 => 0xA7DB case  1 => 0xB7FA case  2 => 0x8799 case  3 => 0x97B8
    case  4 => 0xE75F case  5 => 0xF77E case  6 => 0xC71D case  7 => 0xD73C
    case  8 => 0x26D3 case  9 => 0x36F2 case 10 => 0x0691 case 11 => 0x16B0
    case 12 => 0x6657 case 13 => 0x7676 case 14 => 0x4615 case  _ => 0x5634
  }

  function RowC(i: bv8): bv16 {
    match i
    case  0 => 0xD94C case  1 => 0xC96D case  2 => 0xF90E case  3 => 0xE92F
    case  4 => 0x99C8 case  5 => 0x89E9 case  6 => 0xB98A case  7 => 0xA9AB
    case  8 => 0x5844 case  9 => 0x4865 case 10 => 0x7806 case 11 => 0x6827
    case 12 => 0x18C0 case 13 => 0x08E1 case 14 => 0x3882 case  _ => 0x28A3
  }

  function RowD(i: bv8): bv16 {
    match i
    case  0 => 0xCB7D case  1 => 0xDB5C case  2 => 0xEB3F case  3 => 0xFB1E
    case  4 => 0x8BF9 case  5 => 0x9BD8 case  6 => 0xABBB case  7 => 0xBB9A
    case  8 => 0x4A75 case  9 => 0x5A54 case 10 => 0x6A37 case 11 => 0x7A16
    case 12 => 0x0AF1 case 13 => 0x1AD0 case 14 => 0x2AB3 case  _ => 0x3A92
  }

  function RowE(i: bv8): bv16 {
    match i
    case  0 => 0xFD2E case  1 => 0xED0F case  2 => 0xDD6C case  3 => 0xCD4D
    case  4 => 0xBDAA case  5 => 0xAD8B case  6 => 0x9DE8 case  7 => 0x8DC9
    case  8 => 0x7C26 case  9 => 0x6C07 case 10 => 0x5C64 case 11 => 0x4C45
    case 12 => 0x3CA2 case 13 => 0x2C83 case 14 => 0x1CE0 case  _ => 0x0CC1
  }

  function RowF(i: bv8): bv16 {
    match i
    case  0 => 0xEF1F case  1 => 0xFF3E case  2 => 0xCF5D case  3 => 0xDF7C
    case  4 => 0xAF9B case  5 => 0xBFBA case  6 => 0x8FD9 case  7 => 0x9FF8
    case  8 => 0x6E17 case  9 => 0x7E36 case 10 => 0x4E55 case 11 => 0x5E74
    case 12 => 0x2E93 case 13 => 0x3EB2 case 14 => 0x0ED1 case  _ => 0x1EF0
  }

  function Table(i: bv8): bv16 {
    match i >> 4
    case  0 => Row0(i & 15)
    case  1 => Row1(i & 15)
    case  2 => Row2(i & 15)
    case  3 => Row3(i & 15)
    case  4 => Row4(i & 15)
    case  5 => Row5(i & 15)
    case  6 => Row6(i & 15)
    case  7 => Row7(i & 15)
    case  8 => Row8(i & 15)
    case  9 => Row9(i & 15)
    case 10 => RowA(i & 15)
    case 11 => RowB(i & 15)
    case 12 => RowC(i & 15)
    case 13 => RowD(i & 15)
    case 14 => RowE(i & 15)
    case  _ => RowF(i & 15)
  }

  // ---------- the shift register: one bit, then one byte ----------

  /** One step of the feedback register with no input: times x, and the polynomial again off what falls out. */
  function Step(r: bv16): bv16 {
    (r << 1) ^ Feedback(r)
  }

  function Feedback(r: bv16): bv16 { (r >> 15) * 0x1021 }

  function Step8(r: bv16): bv16 {
    Step(Step(Step(Step(Step(Step(Step(Step(r))))))))
  }

  function High(c: bv16): bv8 { (c >> 8) as bv8 }

  function Low(c: bv16): bv8 { (c & 0xFF) as bv8 }

  /** A byte at the high end of the register. */
  function Up(t: bv8): bv16 { (t as bv16) << 8 }

  function Xor(a: bv16, b: bv16): bv16 { a ^ b }

  /** A message byte enters at the high end and is shifted through. */
  function ByteStep(c: bv16, t: bv8): bv16 {
    Step8(Xor(c, Up(t)))
  }

  function Index(c: bv16, t: bv8): bv8 { High(c) ^ t }

  function TableStep(c: bv16, t: bv8): bv16 {
    Xor(Table(Index(c, t)), Up(Low(c)))
  }

  // ---------- the table holds the register's byte steps ----------

  lemma Row0Entry(i: bv8)
    requires i >> 4 == 0
    ensures Row0(i & 15) == Step8(Up(i))
  {
  }

  lemma Row1Entry(i: bv8)
    requires i >> 4 == 1
    ensures Row1(i & 15) == Step8(Up(i))
  {
  }

  lemma Row2Entry(i: bv8)
    requires i >> 4 == 2
    ensures Row2(i & 15) == Step8(Up(i))
  {
  }

  lemma Row3Entry(i: bv8)
    requires i >> 4 == 3
    ensures Row3(i & 15) == Step8(Up(i))
  {
  }

  lemma Row4Entry(i: bv8)
    requires i >> 4 == 4
    ensures Row4(i & 15) == Step8(Up(i))
  {
  }

  lemma Row5Entry(i: bv8)
    requires i >> 4 == 5
    ensures Row5(i & 15) == Step8(Up(i))
  {
  }

  lemma Row6Entry(i: bv8)
    requires i >> 4 == 6
    ensures Row6(i & 15) == Step8(Up(i))
  {
  }

  lemma Row7Entry(i: bv8)
    requires i >> 4 == 7
    ensures Row7(i & 15) == Step8(Up(i))
  {
  }

  lemma Row8Entry(i: bv8)
    requires i >> 4 == 8
    ensures Row8(i & 15) == Step8(Up(i))
  {
  }

  lemma Row9Entry(i: bv8)
    requires i >> 4 == 9
    ensures Row9(i & 15) == Step8(Up(i))
  {
  }

  lemma RowAEntry(i: bv8)
    requires i >> 4 == 10
    ensures RowA(i & 15) == Step8(Up(i))
  {
  }

  lemma RowBEntry(i: bv8)
    requires i >> 4 == 11
    ensures RowB(i & 15) == Step8(Up(i))
  {
  }

  lemma RowCEntry(i: bv8)
    requires i >> 4 == 12
    ensures RowC(i & 15) == Step8(Up(i))
  {
  }

  lemma RowDEntry(i: bv8)
    requires i >> 4 == 13
    ensures RowD(i & 15) == Step8(Up(i))
  {
  }

  lemma RowEEntry(i: bv8)
    requires i >> 4 == 14
    ensures RowE(i & 15) == Step8(Up(i))
  {
  }

  lemma RowFEntry(i: bv8)
    requires i >> 4 == 15
    ensures RowF(i & 15) == Step8(Up(i))
  {
  }

  lemma TableEntry(i: bv8)
    ensures Table(i) == Step8(Up(i))
  {
    hide Row0, Row1, Row2, Row3, Row4, Row5, Row6, Row7, Row8, Row9, RowA, RowB, RowC, RowD, RowE, RowF, Step8, Up;
    match i >> 4
    case  0 => Row0Entry(i);
    case  1 => Row1Entry(i);
    case  2 => Row2Entry(i);
    case  3 => Row3Entry(i);
    case  4 => Row4Entry(i);
    case  5 => Row5Entry(i);
    case  6 => Row6Entry(i);
    case  7 => Row7Entry(i);
    case  8 => Row8Entry(i);
    case  9 => Row9Entry(i);
    case 10 => RowAEntry(i);
    case 11 => RowBEntry(i);
    case 12 => RowCEntry(i);
    case 13 => RowDEntry(i);
    case 14 => RowEEntry(i);
    case  _ => RowFEntry(i);
  }

  lemma StepIsLinear(a: bv16, b: bv16)
    ensures Step(a ^ b) == Step(a) ^ Step(b)
  {
  }

  lemma StepXor(a: bv16, b: bv16)
    ensures Step(Xor(a, b)) == Xor(Step(a), Step(b))
  {
    hide Step;
    StepIsLinear(a, b);
  }

  /** The register is linear over GF(2). */
  lemma Step8Xor(a: bv16, b: bv16)
    ensures Step8(Xor(a, b)) == Xor(Step8(a), Step8(b))
  {
    hide Step, Xor;
    var a1, b1 := Step(a), Step(b);    StepXor(a, b);
    var a2, b2 := Step(a1), Step(b1);  StepXor(a1, b1);
    var a3, b3 := Step(a2), Step(b2);  StepXor(a2, b2);
    var a4, b4 := Step(a3), Step(b3);  StepXor(a3, b3);
    var a5, b5 := Step(a4), Step(b4);  StepXor(a4, b4);
    var a6, b6 := Step(a5), Step(b5);  StepXor(a5, b5);
    var a7, b7 := Step(a6), Step(b6);  StepXor(a6, b6);
    StepXor(a7, b7);
  }

  lemma Step8OfLowByte(b: bv8)
    ensures Step8(b as bv16) == Up(b)
  {
  }

  lemma SplitInput(c: bv16, t: bv8)
    ensures Xor(c, Up(t)) == Xor(Up(Index(c, t)), Low(c) as bv16)
  {
  }

  lemma OnlyTheHighByteFeedsBack(c: bv16, t: bv8)
    ensures ByteStep(c, t) == Xor(Step8(Up(Index(c, t))), Up(Low(c)))
  {
    hide Step8, Xor, Up, Index, Low;
    SplitInput(c, t);
    Step8Xor(Up(Index(c, t)), Low(c) as bv16);
    Step8OfLowByte(Low(c));
  }

  /** A table look-up does eight register steps. */
  lemma TableStepIsByteStep(c: bv16, t: bv8)
    ensures TableStep(c, t) == ByteStep(c, t)
  {
    hide Table, Step8, ByteStep, Xor, Up, Index, Low;
    TableEntry(Index(c, t));
    OnlyTheHighByteFeedsBack(c, t);
  }

  // ---------- nothing that goes in is lost ----------

  lemma Step8Zero(r: bv16)
    requires Step8(r) == 0
    ensures r == 0
  {
  }

  lemma XorZero(a: bv16, b: bv16)
    ensures Xor(a, b) == 0 <==> a == b
  {
  }

  lemma Step8IsInjective(c: bv16, d: bv16)
    requires Step8(c) == Step8(d)
    ensures c == d
  {
    hide *;
    Step8Xor(c, d);
    XorZero(Step8(c), Step8(d));
    Step8Zero(Xor(c, d));
    XorZero(c, d);
  }

  lemma XorRightCancels(c: bv16, d: bv16, s: bv16)
    requires Xor(c, s) == Xor(d, s)
    ensures c == d
  {
  }

  lemma ByteStepIsInjective(c: bv16, d: bv16, t: bv8)
    requires ByteStep(c, t) == ByteStep(d, t)
    ensures c == d
  {
    hide Step8, Xor, Up;
    Step8IsInjective(Xor(c, Up(t)), Xor(d, Up(t)));
    XorRightCancels(c, d, Up(t));
  }

  lemma LowBytesAreDistinct(i: bv8, j: bv8)
    requires Low(Step8(Up(i))) == Low(Step8(Up(j)))
    ensures i == j
  {
  }

  lemma UpHasNoLowByte(x: bv16, b: bv8)
    ensures Low(Xor(x, Up(b))) == Low(x)
  {
  }

  lemma LowByteOfStep(c: bv16, t: bv8)
    ensures Low(ByteStep(c, t)) == Low(Step8(Up(Index(c, t))))
  {
    hide *;
    OnlyTheHighByteFeedsBack(c, t);
    UpHasNoLowByte(Step8(Up(Index(c, t))), Low(c));
  }

  lemma UpIsInjective(a: bv16, s: bv8, t: bv8)
    requires Xor(a, Up(s)) == Xor(a, Up(t))
    ensures s == t
  {
  }

  lemma IndexIsInjective(c: bv16, s: bv8, t: bv8)
    requires Index(c, s) == Index(c, t)
    ensures s == t
  {
  }

  lemma CollisionKeepsLowByte(a: bv16, b: bv16, s: bv8, t: bv8)
    requires ByteStep(a, s) == ByteStep(b, t)
    ensures Low(a) == Low(b) && (a == b ==> s == t)
  {
    hide Step8, Xor, Up, Low;
    Step8IsInjective(Xor(a, Up(s)), Xor(b, Up(t)));
    UpHasNoLowByte(a, s);
    UpHasNoLowByte(b, t);
    if a == b {
      UpIsInjective(a, s, t);
    }
  }

  lemma LowByteTellsInput(c: bv16, s: bv8, t: bv8)
    requires Low(ByteStep(c, s)) == Low(ByteStep(c, t))
    ensures s == t
  {
    hide *;
    LowByteOfStep(c, s);
    LowByteOfStep(c, t);
    LowBytesAreDistinct(Index(c, s), Index(c, t));
    IndexIsInjective(c, s, t);
  }

  /** From one register, different byte pairs lead to different registers. */
  lemma PairIsInjective(c: bv16, a1: bv8, a2: bv8, b1: bv8, b2: bv8)
    requires ByteStep(ByteStep(c, a1), a2) == ByteStep(ByteStep(c, b1), b2)
    ensures a1 == b1 && a2 == b2
  {
    hide *;
    CollisionKeepsLowByte(ByteStep(c, a1), ByteStep(c, b1), a2, b2);
    LowByteTellsInput(c, a1, b1);
  }

  lemma OwnBytesClearTheRegister(c: bv16)
    ensures ByteStep(ByteStep(c, High(c)), Low(c)) == 0
  {
  }
}
