/** The names the nodes carry in the text: no two nodes share one. */
module EffectNames {
  import opened Effects
  import opened EffectGraph
  import opened EffectShape

  function Decimal(n: nat): (s: string)
    ensures s != [] && forall ch | ch in s :: '0' <= ch <= '9'
  {
    if n < 10 then ['0' + n as char] else Decimal(n / 10) + ['0' + (n % 10) as char]
  }

  function ChannelText(ch: Channel): string {
    match ch
    case L => "L"
    case R => "R"
    case C => "C"
    case LFE => "LFE"
    case RL => "RL"
    case RR => "RR"
    case SL => "SL"
    case SR => "SR"
  }

  function EarText(ear: Ear): string { if ear == LeftEar then "L" else "R" }

  function FilterText(tag: Tag): string {
    match tag
    case Eq(i) => "eq" + Decimal(i)
    case Tilt(i) => "tl" + Decimal(i)
    case Correction(i) => "co" + Decimal(i)
    case Hearing(i) => "hl" + Decimal(i)
    case Loudness => "ld" + Decimal(0)
  }

  /** A filter's name with the channel put in: "eq3" is "eqL3" for the left ear. */
  function NodeName(filter: string, c: string): string
    requires |filter| >= 2
  {
    filter[..2] + c + filter[2..]
  }

  function Text(id: NodeId): string {
    match id
    case Pre(ch) => "pre" + ChannelText(ch)
    case Xl(ear) => "xl" + EarText(ear)
    case Xm(ear) => "xm" + EarText(ear)
    case Sc(ch, i) => "sc" + ChannelText(ch) + Decimal(i)
    case Sp(ch) => "sp" + ChannelText(ch)
    case Bass => "bass"
    case Lp(i) => "lp" + Decimal(i)
    case Hrtf(ear) => "hrtf" + EarText(ear)
    case Dm(ear) => "dm" + EarText(ear)
    case Mix(ear) => "mix" + EarText(ear)
    case Band(tag, ear) => NodeName(FilterText(tag), EarText(ear))
    case Lim => "lim"
  }

  // ---------- the three pieces of a name ----------

  function Stem(id: NodeId): string {
    match id
    case Pre(_) => "pre"
    case Xl(_) => "xl"
    case Xm(_) => "xm"
    case Sc(_, _) => "sc"
    case Sp(_) => "sp"
    case Bass => "bass"
    case Lp(_) => "lp"
    case Hrtf(_) => "hrtf"
    case Dm(_) => "dm"
    case Mix(_) => "mix"
    case Band(tag, _) => (match tag case Eq(_) => "eq" case Tilt(_) => "tl" case Correction(_) => "co" case Hearing(_) => "hl" case Loudness => "ld")
    case Lim => "lim"
  }

  function Letters(id: NodeId): string {
    match id
    case Pre(ch) => ChannelText(ch)
    case Sc(ch, _) => ChannelText(ch)
    case Sp(ch) => ChannelText(ch)
    case Xl(ear) => EarText(ear)
    case Xm(ear) => EarText(ear)
    case Hrtf(ear) => EarText(ear)
    case Dm(ear) => EarText(ear)
    case Mix(ear) => EarText(ear)
    case Band(_, ear) => EarText(ear)
    case Bass => ""
    case Lp(_) => ""
    case Lim => ""
  }

  function Index(id: NodeId): nat {
    match id
    case Sc(_, i) => i
    case Lp(i) => i
    case Band(tag, _) => if tag.Loudness? then 0 else tag.i
    case Pre(_) => 0 case Xl(_) => 0 case Xm(_) => 0 case Sp(_) => 0 case Bass => 0 case Hrtf(_) => 0 case Dm(_) => 0
    case Mix(_) => 0 case Lim => 0
  }

  function Digits(id: NodeId): string {
    if id.Sc? || id.Lp? || id.Band? then Decimal(Index(id)) else ""
  }

  lemma TextInPieces(id: NodeId)
    ensures Text(id) == Stem(id) + (Letters(id) + Digits(id))
  {
    hide Decimal;
    if id.Band? {
      var d := Decimal(Index(id));
      assert FilterText(id.tag) == Stem(id) + d;
      assert (Stem(id) + d)[..2] == Stem(id) && (Stem(id) + d)[2..] == d;
    }
  }

  predicate IsDigit(ch: char) { '0' <= ch <= '9' }

  predicate Lettered(s: string) { forall ch | ch in s :: !IsDigit(ch) }

  predicate Digital(s: string) { forall ch | ch in s :: IsDigit(ch) }

  lemma PieceKinds(id: NodeId)
    ensures Lettered(Letters(id)) && Digital(Digits(id))
  {
    hide Decimal;
  }

  function FirstDigit(s: string): nat {
    if s == "" || IsDigit(s[0]) then 0 else 1 + FirstDigit(s[1..])
  }

  lemma {:induction false} FirstDigitAfter(a: string, x: string)
    requires Lettered(a) && Digital(x)
    ensures FirstDigit(a + x) == |a|
  {
    if a == "" {
      assert a + x == x;
    } else {
      assert a[0] in a && (a + x)[1..] == a[1..] + x;
      FirstDigitAfter(a[1..], x);
    }
  }

  lemma LettersEndAtDigits(a: string, x: string, b: string, y: string)
    requires Lettered(a) && Lettered(b) && Digital(x) && Digital(y) && a + x == b + y
    ensures a == b && x == y
  {
    FirstDigitAfter(a, x);
    FirstDigitAfter(b, y);
    assert a == (a + x)[..|a|] && b == (b + y)[..|b|];
    assert x == (a + x)[|a|..] && y == (b + y)[|b|..];
  }

  lemma {:induction false} DecimalIsInjective(a: nat, b: nat)
    requires Decimal(a) == Decimal(b)
    ensures a == b
    decreases a
  {
    var s, t := Decimal(a), Decimal(b);
    assert s[|s| - 1] == '0' + (a % 10) as char && t[|t| - 1] == '0' + (b % 10) as char;
    if a >= 10 && b >= 10 {
      assert s[..|s| - 1] == Decimal(a / 10) && t[..|t| - 1] == Decimal(b / 10);
      DecimalIsInjective(a / 10, b / 10);
    }
  }

  /** A number for the first two letters, one per family of names. */
  function Family(id: NodeId): nat {
    match id
    case Pre(_) => 0
    case Xl(_) => 1
    case Xm(_) => 2
    case Sc(_, _) => 3
    case Sp(_) => 4
    case Bass => 5
    case Lp(_) => 6
    case Hrtf(_) => 7
    case Dm(_) => 8
    case Mix(_) => 9
    case Lim => 10
    case Band(tag, _) => (match tag case Eq(_) => 11 case Tilt(_) => 12 case Correction(_) => 13 case Hearing(_) => 14 case Loudness => 15)
  }

  function FamilyOf(a: char, b: char): nat {
    if a == 'p' then 0
    else if a == 'x' then (if b == 'l' then 1 else 2)
    else if a == 's' then (if b == 'c' then 3 else 4)
    else if a == 'b' then 5
    else if a == 'l' then (if b == 'p' then 6 else if b == 'i' then 10 else 15)
    else if a == 'h' then (if b == 'r' then 7 else 14)
    else if a == 'd' then 8
    else if a == 'm' then 9
    else if a == 'e' then 11
    else if a == 't' then 12
    else 13
  }

  lemma StemTellsFamily(id: NodeId)
    ensures |Stem(id)| >= 2 && FamilyOf(Stem(id)[0], Stem(id)[1]) == Family(id)
  {
  }

  lemma FamilyTellsStem(a: NodeId, b: NodeId)
    requires Family(a) == Family(b)
    ensures Stem(a) == Stem(b)
    ensures Letters(a) == Letters(b) && Index(a) == Index(b) ==> a == b
    ensures Digits(a) != "" <==> Digits(b) != ""
  {
    hide Decimal;
  }

  /** Two nodes with the same name are the same node. */
  lemma NamesTellNodes(a: NodeId, b: NodeId)
    requires Text(a) == Text(b)
    ensures a == b
  {
    TextInPieces(a);
    TextInPieces(b);
    StemTellsFamily(a);
    StemTellsFamily(b);
    hide Stem, Letters, Text, Family, FamilyOf, Decimal, Index;
    assert Stem(a)[0] == Text(a)[0] == Text(b)[0] == Stem(b)[0];
    assert Stem(a)[1] == Text(a)[1] == Text(b)[1] == Stem(b)[1];
    FamilyTellsStem(a, b);
    assert Letters(a) + Digits(a) == Text(a)[|Stem(a)|..] == Letters(b) + Digits(b);
    PieceKinds(a);
    PieceKinds(b);
    LettersEndAtDigits(Letters(a), Digits(a), Letters(b), Digits(b));
    if Digits(a) != "" {
      DecimalIsInjective(Index(a), Index(b));
    } else {
      NoIndex(a);
      NoIndex(b);
    }
  }

  lemma NoIndex(id: NodeId)
    requires Digits(id) == ""
    ensures Index(id) == 0
  {
    hide Decimal;
  }

  /** For every config, the names in the text are all different. */
  lemma TextsAreDistinct(n: Numerics, sink: string, d: string, c: Config, yaw: real, i: nat, j: nat)
    requires i < j < |GraphOf(n, sink, d, c, yaw).nodes|
    ensures var nodes := GraphOf(n, sink, d, c, yaw).nodes; Text(nodes[i].id) != Text(nodes[j].id)
  {
    hide Text, NodeOf, Names, GraphKey;
    var nodes, names := GraphOf(n, sink, d, c, yaw).nodes, Names(GraphKey(c));
    NamesAreDistinct(GraphKey(c));
    NodeHasId(n, c, yaw, names[i]);
    NodeHasId(n, c, yaw, names[j]);
    if Text(nodes[i].id) == Text(nodes[j].id) {
      NamesTellNodes(nodes[i].id, nodes[j].id);
    }
  }
}
