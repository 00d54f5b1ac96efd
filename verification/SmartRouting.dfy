/** Smart routing messages of AirPods: the name cut on a character boundary, the OPACK bodies, and the packet around
    them. Bodies use this much of OPACK: 0x40+n a string of n bytes, 0x30 an 8-bit and 0x31 a 16-bit little-endian
    number, 0x08+n the number n, 0x01 true, 0xE0+n a dictionary of n pairs, and 0xA0+i a reference to the i-th of the
    strings and 8- or 16-bit numbers before it, keys included. */
module SmartRouting {
  import opened Wrappers

  type Byte = n: nat | n < 256

  type Bytes = seq<Byte>

  // ---------- UTF-8 (section 4 of RFC 3629) ----------

  predicate Continues(b: Byte) { 0x80 <= b <= 0xBF }

  predicate In(b: Byte, lo: Byte, hi: Byte) { lo <= b <= hi }

  /** Length of the well-formed character at the front, 0 if there is none. */
  function CharLength(s: Bytes): (n: nat)
    ensures n <= |s| && n <= 4
  {
    if |s| >= 1 && s[0] <= 0x7F then 1
    else if |s| >= 2 && In(s[0], 0xC2, 0xDF) && Continues(s[1]) then 2
    else if |s| >= 3 && Continues(s[2]) && (
      || (s[0] == 0xE0 && In(s[1], 0xA0, 0xBF))
      || (In(s[0], 0xE1, 0xEC) && Continues(s[1]))
      || (s[0] == 0xED && In(s[1], 0x80, 0x9F))
      || (In(s[0], 0xEE, 0xEF) && Continues(s[1]))) then 3
    else if |s| >= 4 && Continues(s[2]) && Continues(s[3]) && (
      || (s[0] == 0xF0 && In(s[1], 0x90, 0xBF))
      || (In(s[0], 0xF1, 0xF3) && Continues(s[1]))
      || (s[0] == 0xF4 && In(s[1], 0x80, 0x8F))) then 4
    else 0
  }

  predicate ValidUtf8(s: Bytes)
    decreases |s|
  {
    s == [] || (CharLength(s) > 0 && ValidUtf8(s[CharLength(s)..]))
  }

  lemma CharShape(s: Bytes)
    requires CharLength(s) > 0
    ensures !Continues(s[0]) && forall i | 1 <= i < CharLength(s) :: Continues(s[i])
  {
  }

  lemma PrefixOfChar(s: Bytes, k: nat)
    requires k <= |s|
    ensures 0 < CharLength(s) <= k ==> CharLength(s[..k]) == CharLength(s)
    ensures 0 < k < CharLength(s) ==> CharLength(s[..k]) == 0
  {
  }

  /** A prefix of a name is valid exactly when it ends where a character does. */
  lemma {:induction false} ValidPrefixIff(s: Bytes, k: nat)
    requires ValidUtf8(s) && k <= |s|
    ensures ValidUtf8(s[..k]) <==> k == |s| || !Continues(s[k])
    decreases |s|
  {
    hide CharLength;
    if s == [] {
      assert s[..k] == [];
    } else {
      var n := CharLength(s);
      CharShape(s);
      PrefixOfChar(s, k);
      if k == 0 {
        assert s[..k] == [];
      } else if k >= n {
        assert s[..k][n..] == s[n..][..k - n];
        ValidPrefixIff(s[n..], k - n);
      }
    }
  }

  /** Never more than three continuation bytes in a row. */
  lemma {:induction false} AtMostThreeContinue(s: Bytes, k: nat)
    requires ValidUtf8(s) && k + 3 < |s|
    ensures exists i | k <= i <= k + 3 :: !Continues(s[i])
    decreases |s|
  {
    hide CharLength;
    var n := CharLength(s);
    CharShape(s);
    if k == 0 {
      assert !Continues(s[0]);
    } else if n <= k {
      AtMostThreeContinue(s[n..], k - n);
      var i :| k - n <= i <= k - n + 3 && !Continues(s[n..][i]);
      assert !Continues(s[i + n]);
    } else {
      var m := CharLength(s[n..]);
      CharShape(s[n..]);
      assert s[n..][0] == s[n];
    }
  }

  const MAX_BYTES := 32
  const LINUX: Bytes := Ascii("Linux")

  function Ascii(s: string): (b: Bytes)
    ensures |b| == |s|
  {
    seq(|s|, i requires 0 <= i < |s| => (s[i] as int) % 256)
  }

  /** `p` is the longest valid prefix of `s` with at most `max` bytes. */
  ghost predicate IsLongestValidPrefix(p: Bytes, s: Bytes, max: nat) {
    && p <= s && |p| <= max && ValidUtf8(p)
    && forall k | |p| < k <= |s| && k <= max :: !ValidUtf8(s[..k])
  }

  /** The name a banner shows: at most 32 bytes, whole characters. */
  method BannerName(name: Bytes) returns (banner: Bytes)
    ensures |banner| <= MAX_BYTES
    ensures name == [] ==> banner == LINUX
    ensures 0 < |name| <= MAX_BYTES ==> banner == name
    ensures |name| > MAX_BYTES ==> banner <= name && (banner == [] || !Continues(name[|banner|]))
    ensures |name| > MAX_BYTES ==> forall i | |banner| < i <= MAX_BYTES :: Continues(name[i])
    ensures |name| > MAX_BYTES && ValidUtf8(name) ==> banner != [] && IsLongestValidPrefix(banner, name, MAX_BYTES)
  {
    if name == [] {
      return LINUX;
    }
    if |name| <= MAX_BYTES {
      return name;
    }
    var cut := MAX_BYTES;
    if ValidUtf8(name) {
      AtMostThreeContinue(name, 29);
    }
    while cut > 0 && Continues(name[cut])
      invariant 0 <= cut <= MAX_BYTES
      invariant ValidUtf8(name) ==> cut >= 29
      invariant forall i | cut < i <= MAX_BYTES :: Continues(name[i])
    {
      cut := cut - 1;
    }
    banner := name[..cut];
    if ValidUtf8(name) {
      forall k | 0 <= k <= MAX_BYTES
        ensures ValidUtf8(name[..k]) <==> !Continues(name[k])
      {
        ValidPrefixIff(name, k);
      }
    }
  }

  // ---------- OPACK ----------

  datatype Item = Text(bytes: Bytes) | Int8(b: Byte) | Int16(n: nat) | Small(n: nat) | True | Ref(i: nat)

  datatype Value = TextValue(bytes: Bytes) | Number(n: nat) | Yes

  function Encoded(x: Item): Bytes {
    match x
    case Text(bytes) => [(0x40 + |bytes|) % 256] + bytes
    case Int8(n) => [0x30, n]
    case Int16(n) => [0x31, n % 256, (n / 256) % 256]
    case Small(n) => [(0x08 + n) % 256]
    case True => [0x01]
    case Ref(i) => [(0xA0 + i) % 256]
  }

  function EncodedAll(xs: seq<Item>): Bytes {
    if xs == [] then [] else EncodedAll(xs[..|xs| - 1]) + Encoded(xs[|xs| - 1])
  }

  /** What an item stands for, given the values that can be referred to. */
  function ValueOf(x: Item, table: seq<Value>): Value
    requires x.Ref? ==> x.i < |table|
  {
    match x
    case Text(bytes) => TextValue(bytes)
    case Int8(n) => Number(n)
    case Int16(n) => Number(n)
    case Small(n) => Number(n)
    case True => Yes
    case Ref(i) => table[i]
  }

  /** Strings and the longer numbers can be referred to. */
  predicate Referable(x: Item) { x.Text? || x.Int8? || x.Int16? }

  /** The item fits its encoding. */
  predicate Fits(x: Item, table: seq<Value>) {
    match x
    case Text(bytes) => |bytes| <= 32
    case Int8(_) => true
    case Int16(n) => n < 0x1_0000
    case Small(n) => n < 0x28
    case True => true
    case Ref(i) => i < |table| && i < 0x20
  }

  /** All items fit, one after the other, beginning with `table`. */
  predicate AllFit(xs: seq<Item>, table: seq<Value>)
    decreases |xs|
  {
    xs == [] || (Fits(xs[0], table) && AllFit(xs[1..], After(xs[0], table)))
  }

  function After(x: Item, table: seq<Value>): seq<Value> {
    if Referable(x) then table + [ValueOf(x, table)] else table
  }

  function Values(xs: seq<Item>, table: seq<Value>): seq<Value>
    requires AllFit(xs, table)
    decreases |xs|
  {
    if xs == [] then [] else [ValueOf(xs[0], table)] + Values(xs[1..], After(xs[0], table))
  }

  /** Reads one item off the front: its value, whether it can be referred to, and its length. */
  datatype Token = Token(value: Value, referable: bool, length: nat)

  function ReadItem(s: Bytes, table: seq<Value>): (t: Option<Token>)
    ensures t.Some? ==> 1 <= t.value.length <= |s|
  {
    if s == [] then None
    else if s[0] == 0x01 then Some(Token(Yes, false, 1))
    else if 0x08 <= s[0] <= 0x2F then Some(Token(Number(s[0] as int - 0x08), false, 1))
    else if s[0] == 0x30 && |s| >= 2 then Some(Token(Number(s[1]), true, 2))
    else if s[0] == 0x31 && |s| >= 3 then Some(Token(Number((s[1] as int) + 256 * (s[2] as int)), true, 3))
    else if 0x40 <= s[0] <= 0x60 && |s| >= 1 + (s[0] as int - 0x40) then
      var n := s[0] as int - 0x40;
      Some(Token(TextValue(s[1..1 + n]), true, 1 + n))
    else if 0xA0 <= s[0] <= 0xBF && s[0] as int - 0xA0 < |table| then Some(Token(table[s[0] as int - 0xA0], false, 1))
    else None
  }

  /** Reads `n` items off the front, all of it. */
  function ReadItems(s: Bytes, n: nat, table: seq<Value>): Option<seq<Value>>
    decreases n
  {
    if n == 0 then (if s == [] then Some([]) else None)
    else
      match ReadItem(s, table)
      case None => None
      case Some(t) =>
        match ReadItems(s[t.length..], n - 1, if t.referable then table + [t.value] else table)
        case None => None
        case Some(vs) => Some([t.value] + vs)
  }

  /** A body is a version byte and one dictionary: keys and values in turn. */
  function DecodedBody(body: Bytes): Option<seq<Value>> {
    if |body| >= 2 && body[0] == 0x01 && 0xE0 <= body[1] <= 0xEF then
      ReadItems(body[2..], 2 * (body[1] as int - 0xE0), [])
    else None
  }

  lemma ReadItemUndoesEncoded(x: Item, rest: Bytes, table: seq<Value>)
    requires Fits(x, table)
    ensures ReadItem(Encoded(x) + rest, table) == Some(Token(ValueOf(x, table), Referable(x), |Encoded(x)|))
  {
    var s := Encoded(x) + rest;
    match x
    case Text(bytes) => assert s[1..1 + |bytes|] == bytes;
    case _ =>
  }

  lemma {:induction false} EncodedFirst(xs: seq<Item>)
    requires xs != []
    ensures EncodedAll(xs) == Encoded(xs[0]) + EncodedAll(xs[1..])
    decreases |xs|
  {
    hide Encoded;
    var n := |xs| - 1;
    if n == 0 {
      assert xs[..n] == [] && xs[1..] == [];
    } else {
      EncodedFirst(xs[..n]);
      assert xs[..n][1..] == xs[1..][..n - 1] && xs[1..][n - 1] == xs[n] && xs[..n][0] == xs[0];
      var a, b, c := Encoded(xs[0]), EncodedAll(xs[1..][..n - 1]), Encoded(xs[n]);
      assert (a + b) + c == a + (b + c);
    }
  }

  /** Any items that fit read back as their values, references resolved. */
  lemma {:induction false} ReadItemsUndoesEncoded(xs: seq<Item>, table: seq<Value>)
    requires AllFit(xs, table)
    ensures ReadItems(EncodedAll(xs), |xs|, table) == Some(Values(xs, table))
    decreases |xs|
  {
    hide Encoded, ReadItem, ValueOf, Referable, Fits, EncodedAll;
    if xs == [] {
      assert EncodedAll([]) == [] by { EncodedNothing(); }
    } else {
      var e, rest := Encoded(xs[0]), EncodedAll(xs[1..]);
      EncodedFirst(xs);
      ReadItemUndoesEncoded(xs[0], rest, table);
      assert (e + rest)[|e|..] == rest;
      ReadItemsUndoesEncoded(xs[1..], After(xs[0], table));
    }
  }

  lemma EncodedNothing()
    ensures EncodedAll([]) == []
  {
  }

  // ---------- the packet ----------

  /** Target address in reverse, length of the body, body. */
  function Packet(target: Bytes, body: Bytes): Bytes
    requires |target| == 6
  {
    [0x04, 0x00, 0x04, 0x00, 0x10, 0x00] + [target[5], target[4], target[3], target[2], target[1], target[0]]
    + [|body| % 256, (|body| / 256) % 256] + body
  }

  /** The packet goes to `target`, its length field is the length of its body, and the body is the dictionary. */
  ghost predicate Says(packet: Bytes, target: Bytes, dictionary: seq<Value>) {
    && |packet| >= 14 && |target| == 6
    && packet[..6] == [0x04, 0x00, 0x04, 0x00, 0x10, 0x00]
    && packet[6..12] == [target[5], target[4], target[3], target[2], target[1], target[0]]
    && (packet[12] as int) + 256 * (packet[13] as int) == |packet| - 14
    && DecodedBody(packet[14..]) == Some(dictionary)
  }

  lemma PacketSays(target: Bytes, n: nat, xs: seq<Item>)
    requires |target| == 6 && n < 16 && |xs| == 2 * n && AllFit(xs, []) && |EncodedAll(xs)| < 1000
    ensures Says(Packet(target, [0x01, 0xE0 + n] + EncodedAll(xs)), target, Values(xs, []))
  {
    hide EncodedAll, Values, AllFit, ReadItems;
    var body := [0x01, 0xE0 + n] + EncodedAll(xs);
    var packet := Packet(target, body);
    assert packet[14..] == body && body[2..] == EncodedAll(xs);
    ReadItemsUndoesEncoded(xs, []);
  }

  /** A body being built: a version byte, the dictionary's size, and the items so far. */
  class Body {
    const pairs: nat
    var bytes: Bytes
    ghost var items: seq<Item>

    ghost predicate Valid()
      reads this
    {
      pairs < 16 && bytes == [0x01, 0xE0 + pairs] + EncodedAll(items)
    }

    constructor (pairs: nat)
      requires pairs < 16
      ensures Valid() && this.pairs == pairs && items == []
    {
      this.pairs := pairs;
      bytes, items := [0x01, 0xE0 + pairs], [];
      new;
      assert bytes + [] == bytes;
    }

    /** A string; callers keep it within 32 bytes. */
    method Str(s: Bytes)
      requires Valid()
      modifies this
      ensures Valid() && items == old(items) + [Text(s)]
    {
      bytes := bytes + [(0x40 + |s|) % 256];
      bytes := bytes + s;
      Append(Text(s));
    }

    method PushBack(b: Byte, ghost x: Item)
      requires Valid() && Encoded(x) == [b]
      modifies this
      ensures Valid() && items == old(items) + [x]
    {
      bytes := bytes + [b];
      Append(x);
    }

    method Insert(bs: Bytes, ghost x: Item)
      requires Valid() && Encoded(x) == bs
      modifies this
      ensures Valid() && items == old(items) + [x]
    {
      bytes := bytes + bs;
      Append(x);
    }

    ghost method Append(x: Item)
      requires pairs < 16 && bytes == [0x01, 0xE0 + pairs] + EncodedAll(items) + Encoded(x)
      modifies this`items
      ensures Valid() && items == old(items) + [x]
    {
      hide Encoded;
      EncodedLast(items, x);
      items := items + [x];
    }
  }

  lemma EncodedLast(xs: seq<Item>, x: Item)
    ensures EncodedAll(xs + [x]) == EncodedAll(xs) + Encoded(x)
    ensures forall head: Bytes :: head + EncodedAll(xs) + Encoded(x) == head + EncodedAll(xs + [x])
  {
    assert (xs + [x])[..|xs|] == xs;
  }

  method SmartRoutingPacket(target: Bytes, body: Bytes) returns (packet: Bytes)
    requires |target| == 6
    ensures packet == Packet(target, body)
  {
    packet := [0x04, 0x00, 0x04, 0x00, 0x10, 0x00];
    packet := packet + [target[5], target[4], target[3], target[2], target[1], target[0]];
    packet := packet + [|body| % 256];
    packet := packet + [(|body| / 256) % 256];
    packet := packet + body;
  }

  function T(s: string): Value { TextValue(Ascii(s)) }

  /** An item without references stands for itself. */
  predicate IsPlain(x: Item) { !x.Ref? && Fits(x, []) }

  function Plain(x: Item): Value
    requires IsPlain(x)
  {
    ValueOf(x, [])
  }

  lemma {:induction false} PlainValues(xs: seq<Item>, table: seq<Value>)
    requires forall x | x in xs :: IsPlain(x)
    ensures AllFit(xs, table)
    ensures Values(xs, table) == seq(|xs|, i requires 0 <= i < |xs| => Plain(xs[i]))
    decreases |xs|
  {
    if xs != [] {
      assert IsPlain(xs[0]);
      PlainValues(xs[1..], After(xs[0], table));
    }
  }

  lemma {:induction false} EncodedIsShort(xs: seq<Item>)
    requires forall x | x in xs :: IsPlain(x)
    ensures |EncodedAll(xs)| <= 33 * |xs|
    decreases |xs|
  {
    if xs != [] {
      var n := |xs| - 1;
      assert IsPlain(xs[n]);
      EncodedIsShort(xs[..n]);
    }
  }

  /** Ten items, appended one by one. */
  function Ten(x0: Item, x1: Item, x2: Item, x3: Item, x4: Item, x5: Item, x6: Item, x7: Item, x8: Item,
      x9: Item): seq<Item> {
    [] + [x0] + [x1] + [x2] + [x3] + [x4] + [x5] + [x6] + [x7] + [x8] + [x9]
  }

  lemma TenItems(x0: Item, x1: Item, x2: Item, x3: Item, x4: Item, x5: Item, x6: Item, x7: Item, x8: Item, x9: Item)
    ensures Ten(x0, x1, x2, x3, x4, x5, x6, x7, x8, x9) == [x0, x1, x2, x3, x4, x5, x6, x7, x8, x9]
  {
  }

  /** Ten plain items make five pairs. */
  lemma FivePairs(target: Bytes, xs: seq<Item>, dictionary: seq<Value>)
    requires |target| == 6 && |xs| == 10 == |dictionary|
    requires forall i | 0 <= i < 10 :: IsPlain(xs[i]) && Plain(xs[i]) == dictionary[i]
    ensures Says(Packet(target, [0x01, 0xE5] + EncodedAll(xs)), target, dictionary)
  {
    hide Says, Packet, EncodedAll, IsPlain, Plain;
    PlainValues(xs, []);
    EncodedIsShort(xs);
    assert Values(xs, []) == dictionary;
    PacketSays(target, 5, xs);
  }

  function MediaInformationItems(selfMac: Bytes, selfName: Bytes): seq<Item> {
    Ten(Text(Ascii("PlayingApp")), Text(Ascii("com.google.ios.youtube")),
        Text(Ascii("HostStreamingState")), Text(Ascii("NO")),
        Text(Ascii("btAddress")), Text(selfMac),
        Text(Ascii("btName")), Text(selfName),
        Text(Ascii("otherDeviceAudioCategory")), Int16(301))
  }

  function MediaInformationMeaning(selfMac: Bytes, selfName: Bytes): seq<Value> {
    [T("PlayingApp"), T("com.google.ios.youtube"),
     T("HostStreamingState"), T("NO"),
     T("btAddress"), TextValue(selfMac),
     T("btName"), TextValue(selfName),
     T("otherDeviceAudioCategory"), Number(301)]
  }

  lemma MediaInformationMeansIt(target: Bytes, selfMac: Bytes, selfName: Bytes)
    requires |target| == 6 && |selfMac| <= 32 && |selfName| <= 32
    ensures Says(Packet(target, [0x01, 0xE5] + EncodedAll(MediaInformationItems(selfMac, selfName))), target,
        MediaInformationMeaning(selfMac, selfName))
  {
    hide Says, Packet, EncodedAll, Ten, Ascii;
    TenItems(Text(Ascii("PlayingApp")), Text(Ascii("com.google.ios.youtube")),
        Text(Ascii("HostStreamingState")), Text(Ascii("NO")),
        Text(Ascii("btAddress")), Text(selfMac),
        Text(Ascii("btName")), Text(selfName),
        Text(Ascii("otherDeviceAudioCategory")), Int16(301));
    FivePairs(target, MediaInformationItems(selfMac, selfName), MediaInformationMeaning(selfMac, selfName));
  }

  /** "This computer plays": to every device asked to let go. */
  method MediaInformation(target: Bytes, selfMac: Bytes, selfName: Bytes) returns (packet: Bytes)
    requires |target| == 6 && |selfMac| <= 32 && |selfName| <= 32
    ensures Says(packet, target, MediaInformationMeaning(selfMac, selfName))
  {
    hide Ascii, EncodedAll, Says, MediaInformationMeaning, Packet, Body.Valid;
    var b := new Body(5);
    b.Str(Ascii("PlayingApp"));
    b.Str(Ascii("com.google.ios.youtube"));
    b.Str(Ascii("HostStreamingState"));
    b.Str(Ascii("NO"));
    b.Str(Ascii("btAddress"));
    b.Str(selfMac);
    b.Str(Ascii("btName"));
    b.Str(selfName);
    b.Str(Ascii("otherDeviceAudioCategory"));
    b.Insert([0x31, 0x2D, 0x01], Int16(301));
    assert b.items == MediaInformationItems(selfMac, selfName);
    packet := SmartRoutingPacket(target, b.bytes);
    MediaInformationMeansIt(target, selfMac, selfName);
  }

  function NewDeviceInformationItems(selfMac: Bytes, selfName: Bytes): seq<Item> {
    Ten(Text(Ascii("playingApp")), Text(Ascii("NA")),
        Text(Ascii("hostStreamingState")), Text(Ascii("NO")),
        Text(Ascii("btAddress")), Text(selfMac),
        Text(Ascii("btName")), Text(selfName),
        Text(Ascii("otherDeviceAudioCategory")), Int8(100))
  }

  function NewDeviceInformationMeaning(selfMac: Bytes, selfName: Bytes): seq<Value> {
    [T("playingApp"), T("NA"),
     T("hostStreamingState"), T("NO"),
     T("btAddress"), TextValue(selfMac),
     T("btName"), TextValue(selfName),
     T("otherDeviceAudioCategory"), Number(100)]
  }

  lemma NewDeviceInformationMeansIt(target: Bytes, selfMac: Bytes, selfName: Bytes)
    requires |target| == 6 && |selfMac| <= 32 && |selfName| <= 32
    ensures Says(Packet(target, [0x01, 0xE5] + EncodedAll(NewDeviceInformationItems(selfMac, selfName))), target,
        NewDeviceInformationMeaning(selfMac, selfName))
  {
    hide Says, Packet, EncodedAll, Ten, Ascii;
    TenItems(Text(Ascii("playingApp")), Text(Ascii("NA")),
        Text(Ascii("hostStreamingState")), Text(Ascii("NO")),
        Text(Ascii("btAddress")), Text(selfMac),
        Text(Ascii("btName")), Text(selfName),
        Text(Ascii("otherDeviceAudioCategory")), Int8(100));
    FivePairs(target, NewDeviceInformationItems(selfMac, selfName), NewDeviceInformationMeaning(selfMac, selfName));
  }

  /** To a device that newly connected: who this computer is. */
  method NewDeviceInformation(target: Bytes, selfMac: Bytes, selfName: Bytes) returns (packet: Bytes)
    requires |target| == 6 && |selfMac| <= 32 && |selfName| <= 32
    ensures Says(packet, target, NewDeviceInformationMeaning(selfMac, selfName))
  {
    hide Ascii, EncodedAll, Says, NewDeviceInformationMeaning, Packet, Body.Valid;
    var b := new Body(5);
    b.Str(Ascii("playingApp"));
    b.Str(Ascii("NA"));
    b.Str(Ascii("hostStreamingState"));
    b.Str(Ascii("NO"));
    b.Str(Ascii("btAddress"));
    b.Str(selfMac);
    b.Str(Ascii("btName"));
    b.Str(selfName);
    b.Str(Ascii("otherDeviceAudioCategory"));
    b.Insert([0x30, 0x64], Int8(100));
    assert b.items == NewDeviceInformationItems(selfMac, selfName);
    packet := SmartRoutingPacket(target, b.bytes);
    NewDeviceInformationMeansIt(target, selfMac, selfName);
  }

  function AddTiPiDeviceItems(selfMac: Bytes, selfName: Bytes): seq<Item> {
    Ten(Text(Ascii("idleTime")), Small(0),
        Text(Ascii("newTipi")), True,
        Text(Ascii("btAddress")), Text(selfMac),
        Text(Ascii("btName")), Text(selfName),
        Text(Ascii("nearbyAudioScore")), Small(6))
  }

  function AddTiPiDeviceMeaning(selfMac: Bytes, selfName: Bytes): seq<Value> {
    [T("idleTime"), Number(0),
     T("newTipi"), Yes,
     T("btAddress"), TextValue(selfMac),
     T("btName"), TextValue(selfName),
     T("nearbyAudioScore"), Number(6)]
  }

  lemma AddTiPiDeviceMeansIt(target: Bytes, selfMac: Bytes, selfName: Bytes)
    requires |target| == 6 && |selfMac| <= 32 && |selfName| <= 32
    ensures Says(Packet(target, [0x01, 0xE5] + EncodedAll(AddTiPiDeviceItems(selfMac, selfName))), target,
        AddTiPiDeviceMeaning(selfMac, selfName))
  {
    hide Says, Packet, EncodedAll, Ten, Ascii;
    TenItems(Text(Ascii("idleTime")), Small(0),
        Text(Ascii("newTipi")), True,
        Text(Ascii("btAddress")), Text(selfMac),
        Text(Ascii("btName")), Text(selfName),
        Text(Ascii("nearbyAudioScore")), Small(6));
    FivePairs(target, AddTiPiDeviceItems(selfMac, selfName), AddTiPiDeviceMeaning(selfMac, selfName));
  }

  method AddTiPiDevice(target: Bytes, selfMac: Bytes, selfName: Bytes) returns (packet: Bytes)
    requires |target| == 6 && |selfMac| <= 32 && |selfName| <= 32
    ensures Says(packet, target, AddTiPiDeviceMeaning(selfMac, selfName))
  {
    hide Ascii, EncodedAll, Says, AddTiPiDeviceMeaning, Packet, Body.Valid;
    var b := new Body(5);
    b.Str(Ascii("idleTime"));
    b.PushBack(0x08, Small(0));
    b.Str(Ascii("newTipi"));
    b.PushBack(0x01, True);
    b.Str(Ascii("btAddress"));
    b.Str(selfMac);
    b.Str(Ascii("btName"));
    b.Str(selfName);
    b.Str(Ascii("nearbyAudioScore"));
    b.PushBack(0x0E, Small(6));
    assert b.items == AddTiPiDeviceItems(selfMac, selfName);
    packet := SmartRoutingPacket(target, b.bytes);
    AddTiPiDeviceMeansIt(target, selfMac, selfName);
  }

  // ---------- bodies that refer back ----------

  /** What can be referred to behind some items. */
  function TableAfter(xs: seq<Item>, table: seq<Value>): seq<Value>
    requires AllFit(xs, table)
    decreases |xs|
  {
    if xs == [] then table else TableAfter(xs[1..], After(xs[0], table))
  }

  lemma {:induction false} Concat(xs: seq<Item>, ys: seq<Item>, table: seq<Value>)
    requires AllFit(xs, table) && AllFit(ys, TableAfter(xs, table))
    ensures AllFit(xs + ys, table)
    ensures TableAfter(xs + ys, table) == TableAfter(ys, TableAfter(xs, table))
    ensures Values(xs + ys, table) == Values(xs, table) + Values(ys, TableAfter(xs, table))
    decreases |xs|
  {
    hide Fits, After, ValueOf;
    if xs == [] {
      assert xs + ys == ys;
    } else {
      assert (xs + ys)[1..] == xs[1..] + ys;
      Concat(xs[1..], ys, After(xs[0], table));
    }
  }

  lemma {:induction false} TableGrows(xs: seq<Item>, table: seq<Value>)
    requires AllFit(xs, table)
    ensures table <= TableAfter(xs, table)
    decreases |xs|
  {
    if xs != [] {
      TableGrows(xs[1..], After(xs[0], table));
    }
  }

  lemma LoneReference(i: nat, table: seq<Value>)
    requires i < |table| && i < 0x20
    ensures AllFit([Ref(i)], table) && Values([Ref(i)], table) == [table[i]]
  {
    assert [Ref(i)][1..] == [];
  }

  /** Plain items and a reference to something before them. */
  lemma ThenReference(xs: seq<Item>, i: nat, table: seq<Value>)
    requires forall x | x in xs :: IsPlain(x)
    requires i < |table| && i < 0x20
    ensures AllFit(xs + [Ref(i)], table) && table <= TableAfter(xs + [Ref(i)], table)
    ensures Values(xs + [Ref(i)], table) == seq(|xs|, k requires 0 <= k < |xs| => Plain(xs[k])) + [table[i]]
  {
    hide IsPlain, Plain, AllFit, Values, TableAfter;
    PlainValues(xs, table);
    TableGrows(xs, table);
    LoneReference(i, TableAfter(xs, table));
    Concat(xs, [Ref(i)], table);
    TableGrows(xs + [Ref(i)], table);
  }

  lemma FourItems(a: Item, b: Item, c: Item, d: Item)
    requires IsPlain(a) && IsPlain(b) && IsPlain(c) && IsPlain(d)
    ensures AllFit([a, b, c, d], [])
    ensures TableAfter([a, b, c, d], []) == After(d, After(c, After(b, After(a, []))))
  {
    PlainValues([a, b, c, d], []);
    hide IsPlain, Fits, After;
    var t1 := After(a, []);
    var t2 := After(b, t1);
    var t3 := After(c, t2);
    assert [a, b, c, d][1..] == [b, c, d] && [b, c, d][1..] == [c, d] && [c, d][1..] == [d] && [d][1..] == [];
    assert TableAfter([a, b, c, d], []) == TableAfter([b, c, d], t1);
    assert TableAfter([b, c, d], t1) == TableAfter([c, d], t2);
    assert TableAfter([c, d], t2) == TableAfter([d], t3);
    assert TableAfter([d], t3) == TableAfter([], After(d, t3)) == After(d, t3);
  }

  /** The plain values of items, in order. */
  function Plains(xs: seq<Item>): seq<Value>
    requires forall x | x in xs :: IsPlain(x)
  {
    seq(|xs|, k requires 0 <= k < |xs| => Plain(xs[k]))
  }

  /** Plain items, and behind them more of which the last refers back to the i-th. */
  lemma ReferenceBack(xs: seq<Item>, ys: seq<Item>, i: nat, v: Value)
    requires (forall x | x in xs :: IsPlain(x)) && (forall y | y in ys :: IsPlain(y))
    requires AllFit(xs, []) && i < |TableAfter(xs, [])| && i < 0x20 && TableAfter(xs, [])[i] == v
    ensures AllFit(xs + (ys + [Ref(i)]), [])
    ensures Values(xs + (ys + [Ref(i)]), []) == Plains(xs) + (Plains(ys) + [v])
    ensures TableAfter(xs, []) <= TableAfter(xs + (ys + [Ref(i)]), [])
  {
    hide IsPlain, Plain, AllFit, Values, TableAfter;
    var t := TableAfter(xs, []);
    PlainValues(xs, []);
    ThenReference(ys, i, t);
    Concat(xs, ys + [Ref(i)], []);
  }

  /** ... and once more. */
  lemma ReferenceBackTwice(xs: seq<Item>, ys: seq<Item>, zs: seq<Item>, i: nat, v: Value)
    requires (forall x | x in xs :: IsPlain(x)) && (forall y | y in ys :: IsPlain(y)) && (forall z | z in zs :: IsPlain(z))
    requires AllFit(xs, []) && i < |TableAfter(xs, [])| && i < 0x20 && TableAfter(xs, [])[i] == v
    ensures AllFit(xs + (ys + [Ref(i)]) + (zs + [Ref(i)]), [])
    ensures Values(xs + (ys + [Ref(i)]) + (zs + [Ref(i)]), []) == Plains(xs) + (Plains(ys) + [v]) + (Plains(zs) + [v])
  {
    hide IsPlain, Plain, AllFit, Values, TableAfter;
    ReferenceBack(xs, ys, i, v);
    var t := TableAfter(xs + (ys + [Ref(i)]), []);
    ThenReference(zs, i, t);
    Concat(xs + (ys + [Ref(i)]), zs + [Ref(i)], []);
  }

  function ShowNearbyUIItems(): seq<Item> {
    [Text(Ascii("SmartRoutingKeyShowNearbyUI")), True, Text(Ascii("localscore")), Int16(301)]
    + ([Text(Ascii("reason")), Text(Ascii("hijackv2")), Text(Ascii("audioRoutingScore"))] + [Ref(2)])
    + ([Text(Ascii("audioRoutingSetOwnershipToFalse")), True, Text(Ascii("remotescore"))] + [Ref(2)])
  }

  function ShowNearbyUIMeaning(): seq<Value> {
    [T("SmartRoutingKeyShowNearbyUI"), Yes,
     T("localscore"), Number(301),
     T("reason"), T("hijackv2"),
     T("audioRoutingScore"), Number(301),
     T("audioRoutingSetOwnershipToFalse"), Yes,
     T("remotescore"), Number(301)]
  }

  function HijackRequestItems(): seq<Item> {
    [Text(Ascii("localscore")), Int8(100), Text(Ascii("reason")), Text(Ascii("Hijackv2"))]
    + [Text(Ascii("audioRoutingScore")), Int16(301)]
    + ([Text(Ascii("audioRoutingSetOwnershipToFalse")), True, Text(Ascii("remotescore"))] + [Ref(5)])
  }

  function HijackRequestMeaning(): seq<Value> {
    [T("localscore"), Number(100),
     T("reason"), T("Hijackv2"),
     T("audioRoutingScore"), Number(301),
     T("audioRoutingSetOwnershipToFalse"), Yes,
     T("remotescore"), Number(301)]
  }

  /** Both later scores refer to the first one. */
  lemma NearbyReferences()
    ensures AllFit(ShowNearbyUIItems(), []) && Values(ShowNearbyUIItems(), []) == ShowNearbyUIMeaning()
  {
    hide Ascii, Values, AllFit, TableAfter;
    var xs := [Text(Ascii("SmartRoutingKeyShowNearbyUI")), True, Text(Ascii("localscore")), Int16(301)];
    var ys := [Text(Ascii("reason")), Text(Ascii("hijackv2")), Text(Ascii("audioRoutingScore"))];
    var zs := [Text(Ascii("audioRoutingSetOwnershipToFalse")), True, Text(Ascii("remotescore"))];
    FourItems(xs[0], xs[1], xs[2], xs[3]);
    ReferenceBackTwice(xs, ys, zs, 2, Number(301));
    assert Plains(xs) == ShowNearbyUIMeaning()[..4];
    assert Plains(ys) + [Number(301)] == ShowNearbyUIMeaning()[4..8];
    assert Plains(zs) + [Number(301)] == ShowNearbyUIMeaning()[8..];
  }

  lemma SixItems(xs: seq<Item>)
    requires |xs| == 6 && forall i | 0 <= i < 6 :: IsPlain(xs[i]) && Referable(xs[i])
    ensures AllFit(xs, []) && |TableAfter(xs, [])| == 6 && TableAfter(xs, [])[5] == Plain(xs[5])
  {
    PlainValues(xs, []);
    AllReferable(xs, []);
  }

  lemma {:induction false} AllReferable(xs: seq<Item>, table: seq<Value>)
    requires forall x | x in xs :: IsPlain(x) && Referable(x)
    requires AllFit(xs, table)
    ensures TableAfter(xs, table) == table + Plains(xs)
    decreases |xs|
  {
    if xs != [] {
      assert IsPlain(xs[0]) && Referable(xs[0]);
      AllReferable(xs[1..], After(xs[0], table));
      assert Plains(xs) == [Plain(xs[0])] + Plains(xs[1..]);
    }
  }

  /** The remote score refers to the one sent before. */
  lemma HijackReferences()
    ensures AllFit(HijackRequestItems(), []) && Values(HijackRequestItems(), []) == HijackRequestMeaning()
  {
    hide Ascii, Values, AllFit, TableAfter;
    var xs := [Text(Ascii("localscore")), Int8(100), Text(Ascii("reason")), Text(Ascii("Hijackv2"))]
              + [Text(Ascii("audioRoutingScore")), Int16(301)];
    var ys := [Text(Ascii("audioRoutingSetOwnershipToFalse")), True, Text(Ascii("remotescore"))];
    SixItems(xs);
    ReferenceBack(xs, ys, 5, Number(301));
    assert Plains(xs) == HijackRequestMeaning()[..6];
    assert Plains(ys) + [Number(301)] == HijackRequestMeaning()[6..];
  }

  lemma NearbyHasSixPairs()
    ensures |ShowNearbyUIItems()| == 12
  {
  }

  lemma HijackHasFivePairs()
    ensures |HijackRequestItems()| == 10
  {
  }

  lemma NearbyItemsInOrder()
    ensures Ten(Text(Ascii("SmartRoutingKeyShowNearbyUI")), True, Text(Ascii("localscore")), Int16(301),
        Text(Ascii("reason")), Text(Ascii("hijackv2")), Text(Ascii("audioRoutingScore")), Ref(2),
        Text(Ascii("audioRoutingSetOwnershipToFalse")), True)
            + [Text(Ascii("remotescore"))] + [Ref(2)] == ShowNearbyUIItems()
  {
    hide Ascii, Ten;
    TenItems(Text(Ascii("SmartRoutingKeyShowNearbyUI")), True, Text(Ascii("localscore")), Int16(301),
        Text(Ascii("reason")), Text(Ascii("hijackv2")), Text(Ascii("audioRoutingScore")), Ref(2),
        Text(Ascii("audioRoutingSetOwnershipToFalse")), True);
  }

  lemma HijackItemsInOrder()
    ensures Ten(Text(Ascii("localscore")), Int8(100), Text(Ascii("reason")), Text(Ascii("Hijackv2")),
        Text(Ascii("audioRoutingScore")), Int16(301), Text(Ascii("audioRoutingSetOwnershipToFalse")), True,
        Text(Ascii("remotescore")), Ref(5))
         == HijackRequestItems()
  {
    hide Ascii, Ten;
    TenItems(Text(Ascii("localscore")), Int8(100), Text(Ascii("reason")), Text(Ascii("Hijackv2")),
        Text(Ascii("audioRoutingScore")), Int16(301), Text(Ascii("audioRoutingSetOwnershipToFalse")), True,
        Text(Ascii("remotescore")), Ref(5));
  }

  lemma ConstantBodiesAreShort()
    ensures |EncodedAll(ShowNearbyUIItems())| <= 33 * 12 && |EncodedAll(HijackRequestItems())| <= 33 * 10
  {
    hide Ascii, EncodedAll;
    assert forall x | x in ShowNearbyUIItems() :: FitsShort(x);
    ShortItems(ShowNearbyUIItems());
    assert forall x | x in HijackRequestItems() :: FitsShort(x);
    ShortItems(HijackRequestItems());
  }

  predicate FitsShort(x: Item) { x.Text? ==> |x.bytes| <= 32 }

  lemma {:induction false} ShortItems(xs: seq<Item>)
    requires forall x | x in xs :: FitsShort(x)
    ensures |EncodedAll(xs)| <= 33 * |xs|
    decreases |xs|
  {
    if xs != [] {
      assert FitsShort(xs[|xs| - 1]);
      ShortItems(xs[..|xs| - 1]);
    }
  }

  method ShowNearbyUI(target: Bytes) returns (packet: Bytes)
    requires |target| == 6
    ensures Says(packet, target, ShowNearbyUIMeaning())
  {
    hide Ascii, EncodedAll, Says, ShowNearbyUIMeaning, ShowNearbyUIItems, Packet, Body.Valid, Values, AllFit;
    var b := new Body(6);
    b.Str(Ascii("SmartRoutingKeyShowNearbyUI"));
    b.PushBack(0x01, True);
    b.Str(Ascii("localscore"));
    b.Insert([0x31, 0x2D, 0x01], Int16(301));
    b.Str(Ascii("reason"));
    b.Str(Ascii("hijackv2"));
    b.Str(Ascii("audioRoutingScore"));
    b.PushBack(0xA2, Ref(2));
    b.Str(Ascii("audioRoutingSetOwnershipToFalse"));
    b.PushBack(0x01, True);
    b.Str(Ascii("remotescore"));
    b.PushBack(0xA2, Ref(2));
    assert b.items == Ten(Text(Ascii("SmartRoutingKeyShowNearbyUI")), True, Text(Ascii("localscore")), Int16(301),
        Text(Ascii("reason")), Text(Ascii("hijackv2")), Text(Ascii("audioRoutingScore")), Ref(2),
        Text(Ascii("audioRoutingSetOwnershipToFalse")), True)
                      + [Text(Ascii("remotescore"))] + [Ref(2)];
    NearbyItemsInOrder();
    packet := SmartRoutingPacket(target, b.bytes);
    NearbyReferences();
    ConstantBodiesAreShort();
    NearbyHasSixPairs();
    PacketSays(target, 6, ShowNearbyUIItems());
  }

  method HijackRequest(target: Bytes) returns (packet: Bytes)
    requires |target| == 6
    ensures Says(packet, target, HijackRequestMeaning())
  {
    hide Ascii, EncodedAll, Says, HijackRequestMeaning, HijackRequestItems, Packet, Body.Valid, Values, AllFit;
    var b := new Body(5);
    b.Str(Ascii("localscore"));
    b.Insert([0x30, 0x64], Int8(100));
    b.Str(Ascii("reason"));
    b.Str(Ascii("Hijackv2"));
    b.Str(Ascii("audioRoutingScore"));
    b.Insert([0x31, 0x2D, 0x01], Int16(301));
    b.Str(Ascii("audioRoutingSetOwnershipToFalse"));
    b.PushBack(0x01, True);
    b.Str(Ascii("remotescore"));
    b.PushBack(0xA5, Ref(5));
    assert b.items == Ten(Text(Ascii("localscore")), Int8(100), Text(Ascii("reason")), Text(Ascii("Hijackv2")),
        Text(Ascii("audioRoutingScore")), Int16(301), Text(Ascii("audioRoutingSetOwnershipToFalse")), True,
        Text(Ascii("remotescore")), Ref(5));
    HijackItemsInOrder();
    packet := SmartRoutingPacket(target, b.bytes);
    HijackReferences();
    ConstantBodiesAreShort();
    HijackHasFivePairs();
    PacketSays(target, 5, HijackRequestItems());
  }
}
