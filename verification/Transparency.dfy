/** The customized transparency mode of AirPods as a characteristic's value: little-endian 32-bit floats, each kept
    as the word it is. */
module Transparency {
  import opened Wrappers

  type Byte = b: int | 0 <= b < 0x100
  type Word = w: int | 0 <= w < 0x1_0000_0000
  type EightWords = s: seq<Word> | |s| == 8 witness [0, 0, 0, 0, 0, 0, 0, 0]

  const ONE: Word := 0x3F80_0000
  const ZERO: Word := 0

  datatype Bud = Bud(eq: EightWords, amplification: Word, tone: Word, conversationBoost: Word, ambientNoiseReduction: Word)

  datatype Settings = Settings(enabled: bool, left: Bud, right: Bud, ownVoice: Option<Word>)

  /** A float larger than 0.5 and not a NaN. */
  predicate AboveHalf(w: Word) { 0x3F00_0000 < w <= 0x7F80_0000 }

  // ---------- words and bytes ----------

  function Low(bits: int): Byte { bits % 0x100 }

  function Little(w: Word): seq<Byte> {
    var bits: int := w;
    [Low(bits), Low(bits / 0x100), Low(bits / 0x1_0000), Low(bits / 0x100_0000)]
  }

  function WordAt(data: seq<Byte>, i: nat): Word
    requires 4 * i + 4 <= |data|
  {
    Combined(data[4 * i], data[4 * i + 1], data[4 * i + 2], data[4 * i + 3])
  }

  function Combined(a: int, b: int, c: int, d: int): int {
    a + b * 0x100 + c * 0x1_0000 + d * 0x100_0000
  }

  function Bytes(words: seq<Word>): (data: seq<Byte>)
    ensures |data| == 4 * |words|
  {
    if words == [] then [] else Bytes(words[..|words| - 1]) + Little(words[|words| - 1])
  }

  function WordsFrom(data: seq<Byte>, first: nat, count: nat): seq<Word>
    requires 4 * (first + count) <= |data|
  {
    seq<Word>(count, i requires 0 <= i < count => WordAt(data, first + i))
  }

  function WordsIn(data: seq<Byte>, count: nat): seq<Word>
    requires 4 * count <= |data|
  {
    WordsFrom(data, 0, count)
  }

  lemma {:induction false} WordAtBytes(words: seq<Word>, i: nat)
    requires i < |words|
    ensures WordAt(Bytes(words), i) == words[i]
    decreases |words|
  {
    var n := |words| - 1;
    if i < n {
      hide Little;
      WordAtBytes(words[..n], i);
    } else {
      LittleIsTheWord(words[n]);
      hide Little;
    }
  }

  lemma LittleIsTheWord(w: Word)
    ensures |Little(w)| == 4 && WordAt(Little(w), 0) == w
  {
    var bits: int := w;
    var rest := bits / 0x100;
    var more := rest / 0x100;
    assert bits / 0x1_0000 == more && bits / 0x100_0000 == more / 0x100;
    assert bits == Low(bits) + 0x100 * rest && rest == Low(rest) + 0x100 * more
        && more == Low(more) + 0x100 * (more / 0x100);
    assert 0 <= more / 0x100 < 0x100;
    assert Low(more / 0x100) == more / 0x100;
  }

  lemma BytesAtWord(data: seq<Byte>, i: nat)
    requires 4 * i + 4 <= |data|
    ensures Little(WordAt(data, i)) == data[4 * i..4 * i + 4]
  {
    var a: int, b: int, c: int, d: int := data[4 * i], data[4 * i + 1], data[4 * i + 2], data[4 * i + 3];
    var w := Combined(a, b, c, d);
    assert w / 0x100 == b + c * 0x100 + d * 0x1_0000 && w % 0x100 == a;
    assert w / 0x1_0000 == c + d * 0x100 && w / 0x100_0000 == d;
  }

  lemma {:induction false} BytesOfWords(data: seq<Byte>, count: nat)
    requires 4 * count <= |data|
    ensures Bytes(WordsIn(data, count)) == data[..4 * count]
    decreases count
  {
    if count > 0 {
      BytesOfWords(data, count - 1);
      BytesAtWord(data, count - 1);
      hide Little, WordAt;
      assert WordsIn(data, count)[..count - 1] == WordsIn(data, count - 1);
      assert data[..4 * count] == data[..4 * (count - 1)] + data[4 * (count - 1)..4 * count];
    }
  }

  // ---------- the layout ----------

  function BudWords(b: Bud): (words: seq<Word>)
    ensures |words| == 12
  {
    b.eq + [b.amplification, b.tone, b.conversationBoost, b.ambientNoiseReduction]
  }

  function BudOf(words: seq<Word>): Bud
    requires |words| == 12
  {
    Bud(words[..8], words[8], words[9], words[10], words[11])
  }

  function SettingsWords(s: Settings): seq<Word> {
    [if s.enabled then ONE else ZERO] + BudWords(s.left) + BudWords(s.right) + if s.ownVoice.Some? then [s.ownVoice.value] else []
  }

  function SettingsOf(words: seq<Word>): Settings
    requires |words| == 25 || |words| == 26
  {
    Settings(AboveHalf(words[0]), BudOf(words[1..13]), BudOf(words[13..25]),
        if |words| == 26 then Some(words[25]) else None)
  }

  function Parsed(data: seq<Byte>): Option<Settings> {
    if |data| < 100 then None else Some(SettingsOf(WordsIn(data, if |data| >= 104 then 26 else 25)))
  }

  // ---------- as the loops read and write it ----------

  method Parse(data: seq<Byte>) returns (s: Option<Settings>)
    ensures s == Parsed(data)
  {
    if |data| < 100 {
      return None;
    }
    var count := if |data| >= 104 then 26 else 25;
    ghost var words := WordsIn(data, count);
    hide WordAt;
    var enabled := AboveHalf(WordAt(data, 0));
    var left := ParseBud(data, 1);
    var right := ParseBud(data, 13);
    assert words[1..13] == WordsFrom(data, 1, 12);
    assert words[13..25] == WordsFrom(data, 13, 12);
    s := Some(Settings(enabled, left, right, if |data| >= 104 then Some(WordAt(data, 25)) else None));
  }

  method ParseBud(data: seq<Byte>, first: nat) returns (bud: Bud)
    requires 4 * first + 48 <= |data|
    ensures bud == BudOf(WordsFrom(data, first, 12))
  {
    hide WordAt;
    var eq: seq<Word> := [];
    var at := first;
    while at < first + 8
      invariant first <= at <= first + 8 && |eq| == at - first
      invariant forall i | 0 <= i < |eq| :: eq[i] == WordAt(data, first + i)
    {
      eq := eq + [WordAt(data, at)];
      at := at + 1;
    }
    bud := Bud(eq, WordAt(data, at), WordAt(data, at + 1), WordAt(data, at + 2), WordAt(data, at + 3));
    ghost var words := WordsFrom(data, first, 12);
    assert eq == words[..8];
    assert BudOf(words) == bud;
  }

  method Encode(s: Settings) returns (out: seq<Byte>)
    ensures out == Bytes(SettingsWords(s))
  {
    var none: seq<Word> := [];
    assert Bytes(none) == [];
    var head: seq<Word> := [if s.enabled then ONE else ZERO];
    hide Little, Bytes, BudWords;
    out := Put([], none, head[0]);
    assert none + [head[0]] == head;
    out := PutBud(out, head, s.left);
    out := PutBud(out, head + BudWords(s.left), s.right);
    ghost var words := head + BudWords(s.left) + BudWords(s.right);
    if s.ownVoice.Some? {
      out := Put(out, words, s.ownVoice.value);
      words := words + [s.ownVoice.value];
    }
    assert words == SettingsWords(s);
  }

  method Put(out: seq<Byte>, ghost words: seq<Word>, value: Word) returns (out': seq<Byte>)
    requires out == Bytes(words)
    ensures out' == Bytes(words + [value])
  {
    out' := out;
    for i := 0 to 4
      invariant out' == out + Little(value)[..i]
    {
      out' := out' + [Little(value)[i]];
    }
    assert (words + [value])[..|words|] == words && Little(value)[..4] == Little(value);
  }

  method PutBud(out: seq<Byte>, ghost words: seq<Word>, bud: Bud) returns (out': seq<Byte>)
    requires out == Bytes(words)
    ensures out' == Bytes(words + BudWords(bud))
  {
    hide Bytes, Little;
    out' := out;
    assert words + bud.eq[..0] == words;
    for b := 0 to 8
      invariant out' == Bytes(words + bud.eq[..b])
    {
      out' := Put(out', words + bud.eq[..b], bud.eq[b]);
      assert words + bud.eq[..b] + [bud.eq[b]] == words + bud.eq[..b + 1];
    }
    ghost var eq := words + bud.eq[..8];
    out' := Put(out', eq, bud.amplification);
    out' := Put(out', eq + [bud.amplification], bud.tone);
    out' := Put(out', eq + [bud.amplification] + [bud.tone], bud.conversationBoost);
    out' := Put(out', eq + [bud.amplification] + [bud.tone] + [bud.conversationBoost], bud.ambientNoiseReduction);
    assert eq + [bud.amplification] + [bud.tone] + [bud.conversationBoost] + [bud.ambientNoiseReduction]
        == words + BudWords(bud);
  }

  // ---------- one undoes the other ----------

  /** Written settings read back as they were. */
  lemma ParseUndoesEncode(s: Settings)
    ensures Parsed(Bytes(SettingsWords(s))) == Some(s)
  {
    var words := SettingsWords(s);
    var data := Bytes(words);
    forall i | 0 <= i < |words| ensures WordAt(data, i) == words[i] {
      WordAtBytes(words, i);
    }
    hide WordAt, Bytes;
    assert WordsIn(data, |words|) == words;
    SettingsOfWords(s);
  }

  lemma SettingsOfWords(s: Settings)
    ensures SettingsOf(SettingsWords(s)) == s
  {
    var words := SettingsWords(s);
    assert words[1..13] == BudWords(s.left) && words[13..25] == BudWords(s.right);
    assert BudOf(BudWords(s.left)) == s.left && BudOf(BudWords(s.right)) == s.right;
  }

  /** A value that was read is written back byte for byte if and only if nothing follows its last float and the first
      one is exactly 1.0 or 0.0. */
  lemma EncodeUndoesParseIff(data: seq<Byte>)
    requires |data| >= 100
    ensures Bytes(SettingsWords(Parsed(data).value)) == data
       <==> (|data| == 100 || |data| == 104) && WordAt(data, 0) in {ONE, ZERO}
  {
    var count := if |data| >= 104 then 26 else 25;
    var words := WordsIn(data, count);
    var back := SettingsWords(SettingsOf(words));
    BackAgain(words);
    BytesOfWords(data, count);
    assert data[..|data|] == data;
    if Bytes(back) == data {
      WordAtBytes(back, 0);
    }
    hide Bytes, WordAt;
    if (|data| == 100 || |data| == 104) && words[0] in {ONE, ZERO} {
      assert back == words;
    }
  }

  lemma BackAgain(words: seq<Word>)
    requires |words| == 25 || |words| == 26
    ensures SettingsWords(SettingsOf(words)) == [if AboveHalf(words[0]) then ONE else ZERO] + words[1..]
  {
    var s := SettingsOf(words);
    assert BudWords(s.left) == words[1..13] && BudWords(s.right) == words[13..25];
    assert words[1..] == words[1..13] + words[13..25] + words[25..];
  }

  /** The word stands at its place, low byte first. */
  predicate StandsAt(data: seq<Byte>, i: nat, w: int) {
    && 4 * i + 4 <= |data|
    && data[4 * i] == w % 0x100 && data[4 * i + 1] == w / 0x100 % 0x100
    && data[4 * i + 2] == w / 0x1_0000 % 0x100 && data[4 * i + 3] == w / 0x100_0000
  }

  lemma BudStands(data: seq<Byte>, words: seq<Word>, first: nat, b: Bud, i: nat)
    requires data == Bytes(words) && first + 12 <= |words| && words[first..first + 12] == BudWords(b) && i < 8
    ensures StandsAt(data, first + i, b.eq[i])
    ensures StandsAt(data, first + 8, b.amplification) && StandsAt(data, first + 9, b.tone)
    ensures StandsAt(data, first + 10, b.conversationBoost) && StandsAt(data, first + 11, b.ambientNoiseReduction)
  {
    hide Bytes, StandsAt;
    var all := words[first..first + 12];
    assert all[i] == b.eq[i] && all[8] == b.amplification && all[9] == b.tone;
    assert all[10] == b.conversationBoost && all[11] == b.ambientNoiseReduction;
    WordStands(words, first + i);
    WordStands(words, first + 8);
    WordStands(words, first + 9);
    WordStands(words, first + 10);
    WordStands(words, first + 11);
  }

  lemma {:induction false} WordStands(words: seq<Word>, i: nat)
    requires i < |words|
    ensures StandsAt(Bytes(words), i, words[i])
    decreases |words|
  {
    var n := |words| - 1;
    if i < n {
      hide Little;
      WordStands(words[..n], i);
    } else {
      LastStands(Bytes(words[..n]), words[n]);
      hide Little;
    }
  }

  lemma LastStands(data: seq<Byte>, w: Word)
    requires |data| % 4 == 0
    ensures StandsAt(data + Little(w), |data| / 4, w)
  {
    var bits: int := w;
    assert (data + Little(w))[|data|] == Little(w)[0] && (data + Little(w))[|data| + 1] == Little(w)[1];
    assert (data + Little(w))[|data| + 2] == Little(w)[2] && (data + Little(w))[|data| + 3] == Little(w)[3];
    assert 0 <= bits / 0x100_0000 < 0x100;
  }

  /** Every setting is written at its place: the switch first, the left bud from word 1, the right one from word 13, the
      own voice, if any, last. */
  lemma SettingsStand(s: Settings, i: nat)
    requires i < 8
    ensures var data := Bytes(SettingsWords(s));
            && |data| == (if s.ownVoice.Some? then 104 else 100)
            && StandsAt(data, 0, if s.enabled then 0x3F80_0000 else 0)
            && StandsAt(data, 1 + i, s.left.eq[i]) && StandsAt(data, 9, s.left.amplification) && StandsAt(data, 10, s.left.tone)
            && StandsAt(data, 11, s.left.conversationBoost) && StandsAt(data, 12, s.left.ambientNoiseReduction)
            && StandsAt(data, 13 + i, s.right.eq[i]) && StandsAt(data, 21, s.right.amplification) && StandsAt(data, 22, s.right.tone)
            && StandsAt(data, 23, s.right.conversationBoost) && StandsAt(data, 24, s.right.ambientNoiseReduction)
            && (s.ownVoice.Some? ==> StandsAt(data, 25, s.ownVoice.value))
  {
    var words := SettingsWords(s);
    hide Bytes, StandsAt;
    assert words[1..13] == BudWords(s.left) && words[13..25] == BudWords(s.right);
    BudStands(Bytes(words), words, 1, s.left, i);
    BudStands(Bytes(words), words, 13, s.right, i);
    WordStands(words, 0);
    if s.ownVoice.Some? {
      WordStands(words, 25);
    }
  }
}
