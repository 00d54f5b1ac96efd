/** Galaxy Buds packets on a byte stream: framing, checksum check and the device that feeds on them.
    A packet is a start byte, two header bytes (legacy Buds: type, size), `size` bytes of id, payload and checksum,
    and an end byte. */
module GalaxyBuds {
  import opened Wrappers
  import opened Crc16Register
  import opened Crc16

  const SOM: bv8 := 0xFD
  const EOM: bv8 := 0xDD
  const LEGACY_SOM: bv8 := 0xFE
  const LEGACY_EOM: bv8 := 0xEE

  datatype MsgType = Request | Response

  datatype ResponseData = ResponseData(id: bv8, msgType: MsgType, payload: seq<bv8>)

  function Som(legacy: bool): bv8 { if legacy then LEGACY_SOM else SOM }

  function Eom(legacy: bool): bv8 { if legacy then LEGACY_EOM else EOM }

  predicate ValidId(b: bv8) {
    b == 66 || b == 96 || b == 97 || b == 119 || b == 120
  }

  predicate ValidType(b: bv8) {
    b == 0 || b == 1
  }

  function Value(b: bv8): (n: nat)
    ensures n < 256
  {
    b as int
  }

  function Byte(n: nat): bv8
    requires n < 256
  {
    n as bv8
  }

  lemma NextValue(b: bv8)
    requires Value(b) < 255
    ensures Value(b + 1) == Value(b) + 1
  {
    assert b != 255;
  }

  lemma {:induction false} ByteWithValue(n: nat) returns (b: bv8)
    requires n < 256
    ensures Value(b) == n
  {
    hide Value;
    if n == 0 {
      b := 0;
      assert Value(0) == 0 by { ZeroValue(); }
    } else {
      b := ByteWithValue(n - 1);
      NextValue(b);
      b := b + 1;
    }
  }

  lemma ZeroValue()
    ensures Value(0) == 0
  {
  }

  lemma ZeroByte(b: bv8)
    ensures Value(b) == 0 <==> b == 0
  {
    ByteOfValue(b);
    ZeroValue();
  }

  lemma ByteOfValue(b: bv8)
    ensures Byte(Value(b)) == b
  {
  }

  lemma ValueOfByte(n: nat)
    requires n < 256
    ensures Value(Byte(n)) == n
  {
    hide *;
    var b := ByteWithValue(n);
    ByteOfValue(b);
  }

  /** The two header bytes, low byte first. */
  function HeaderValue(buffer: seq<bv8>): nat
    requires |buffer| >= 3
  {
    256 * Value(buffer[2]) + Value(buffer[1])
  }

  /** The size field: a byte, or the low ten bits of the header. */
  function PacketSize(buffer: seq<bv8>, legacy: bool): nat
    requires |buffer| >= 3
  {
    if legacy then Value(buffer[2]) else HeaderValue(buffer) % 1024
  }

  // ---------- splitting a stream ----------

  /** What the front of the stream turns out to be. */
  datatype Verdict = Wait | Drop | Take(total: nat)

  function Look(s: seq<bv8>, legacy: bool): (v: Verdict)
    ensures v.Take? ==> 4 <= v.total <= |s|
    ensures v.Drop? ==> |s| >= 3
  {
    if |s| < 3 then Wait
    else if s[0] != Som(legacy) then Drop
    else
      var total := 3 + PacketSize(s, legacy) + 1;
      if |s| < total then Wait
      else if s[total - 1] != Eom(legacy) then Drop
      else Take(total)
  }

  datatype Piece = Packet(bytes: seq<bv8>) | Dropped(byte: bv8)

  /** The stream in order: packets and dropped bytes. */
  function Pieces(s: seq<bv8>, legacy: bool): seq<Piece>
    decreases |s|
  {
    match Look(s, legacy)
    case Wait => []
    case Drop => [Dropped(s[0])] + Pieces(s[1..], legacy)
    case Take(total) => [Packet(s[..total])] + Pieces(s[total..], legacy)
  }

  /** What is left over, waiting for more. */
  function Tail(s: seq<bv8>, legacy: bool): (t: seq<bv8>)
    ensures |t| <= |s|
    decreases |s|
  {
    match Look(s, legacy)
    case Wait => s
    case Drop => Tail(s[1..], legacy)
    case Take(total) => Tail(s[total..], legacy)
  }

  function PacketsOf(ps: seq<Piece>): seq<seq<bv8>> {
    if ps == [] then []
    else (if ps[0].Packet? then [ps[0].bytes] else []) + PacketsOf(ps[1..])
  }

  function Packets(s: seq<bv8>, legacy: bool): seq<seq<bv8>> {
    PacketsOf(Pieces(s, legacy))
  }

  function BytesOf(ps: seq<Piece>): seq<bv8> {
    if ps == [] then []
    else (if ps[0].Packet? then ps[0].bytes else [ps[0].byte]) + BytesOf(ps[1..])
  }

  lemma {:induction false} PacketsOfConcat(a: seq<Piece>, b: seq<Piece>)
    ensures PacketsOf(a + b) == PacketsOf(a) + PacketsOf(b)
    decreases |a|
  {
    if a == [] {
      assert a + b == b;
    } else {
      assert (a + b)[1..] == a[1..] + b;
      PacketsOfConcat(a[1..], b);
    }
  }

  lemma NoBytes()
    ensures BytesOf([]) == []
  {
  }

  /** Nothing is lost or reordered: packets, dropped bytes and the tail are the stream. */
  lemma {:induction false} SplitConserves(s: seq<bv8>, legacy: bool)
    ensures BytesOf(Pieces(s, legacy)) + Tail(s, legacy) == s
    decreases |s|
  {
    hide Look, BytesOf;
    match Look(s, legacy)
    case Wait =>
      assert BytesOf([]) == [] by { NoBytes(); }
    case Drop =>
      SplitConserves(s[1..], legacy);
      FirstAndRest(s, 1, Dropped(s[0]), Pieces(s[1..], legacy), Tail(s[1..], legacy));
    case Take(total) =>
      SplitConserves(s[total..], legacy);
      FirstAndRest(s, total, Packet(s[..total]), Pieces(s[total..], legacy), Tail(s[total..], legacy));
  }

  lemma FirstAndRest(s: seq<bv8>, n: nat, p: Piece, ps: seq<Piece>, t: seq<bv8>)
    requires n <= |s| && BytesOf(ps) + t == s[n..]
    requires (if p.Packet? then p.bytes else [p.byte]) == s[..n]
    ensures BytesOf([p] + ps) + t == s
  {
    assert ([p] + ps)[1..] == ps;
    assert s == s[..n] + s[n..];
  }

  /** A verdict other than waiting stands, whatever arrives behind. */
  lemma LookIsStable(a: seq<bv8>, b: seq<bv8>, legacy: bool)
    requires !Look(a, legacy).Wait?
    ensures Look(a + b, legacy) == Look(a, legacy)
  {
    assert (a + b)[0] == a[0] && (a + b)[1] == a[1] && (a + b)[2] == a[2];
  }

  lemma AppendAfter(p: Piece, ps: seq<Piece>, qs: seq<Piece>)
    ensures [p] + (ps + qs) == [p] + ps + qs
  {
  }

  /** Splitting does not depend on where the reads cut the stream, garbage and false start bytes included. */
  lemma {:induction false} SplitIgnoresReadBoundaries(a: seq<bv8>, b: seq<bv8>, legacy: bool)
    ensures Pieces(a + b, legacy) == Pieces(a, legacy) + Pieces(Tail(a, legacy) + b, legacy)
    ensures Tail(a + b, legacy) == Tail(Tail(a, legacy) + b, legacy)
    decreases |a|
  {
    hide *;
    FrontAndRest(a, legacy);
    FrontAndRest(a + b, legacy);
    match Look(a, legacy)
    case Wait =>
      assert [] + Pieces(a + b, legacy) == Pieces(a + b, legacy);
    case Drop =>
      LookIsStable(a, b, legacy);
      SplitIgnoresReadBoundaries(a[1..], b, legacy);
      assert (a + b)[1..] == a[1..] + b && (a + b)[0] == a[0];
      AppendAfter(Dropped(a[0]), Pieces(a[1..], legacy), Pieces(Tail(a[1..], legacy) + b, legacy));
    case Take(total) =>
      LookIsStable(a, b, legacy);
      SplitIgnoresReadBoundaries(a[total..], b, legacy);
      assert (a + b)[total..] == a[total..] + b && (a + b)[..total] == a[..total];
      AppendAfter(Packet(a[..total]), Pieces(a[total..], legacy), Pieces(Tail(a[total..], legacy) + b, legacy));
  }

  lemma FrontAndRest(s: seq<bv8>, legacy: bool)
    ensures match Look(s, legacy)
            case Wait => Pieces(s, legacy) == [] && Tail(s, legacy) == s
            case Drop => Pieces(s, legacy) == [Dropped(s[0])] + Pieces(s[1..], legacy) && Tail(s, legacy) == Tail(s[1..], legacy)
            case Take(total) =>
              Pieces(s, legacy) == [Packet(s[..total])] + Pieces(s[total..], legacy) && Tail(s, legacy) == Tail(s[total..], legacy)
  {
    hide Look;
  }

  lemma PacketsIgnoreReadBoundaries(a: seq<bv8>, b: seq<bv8>, legacy: bool)
    ensures Packets(a + b, legacy) == Packets(a, legacy) + Packets(Tail(a, legacy) + b, legacy)
  {
    SplitIgnoresReadBoundaries(a, b, legacy);
    PacketsOfConcat(Pieces(a, legacy), Pieces(Tail(a, legacy) + b, legacy));
  }

  /** The verdict at `start`, in terms of the whole buffer. */
  lemma LookAt(s: seq<bv8>, start: nat, legacy: bool)
    requires start <= |s|
    ensures var v := Look(s[start..], legacy);
            if |s| - start < 3 then v == Wait
            else if s[start] != Som(legacy) then v == Drop
            else
              var total := 3 + PacketSize(s[start..start + 3], legacy) + 1;
              if |s| - start < total then v == Wait
              else if s[start + total - 1] != Eom(legacy) then v == Drop
              else v == Take(total)
  {
    if |s| - start >= 3 {
      var h := s[start..start + 3];
      assert s[start..][1] == h[1] && s[start..][2] == h[2];
    }
  }

  /** Up to `start` the stream is `done`, which holds `packets`. */
  ghost predicate SplitTo(s: seq<bv8>, start: nat, done: seq<Piece>, packets: seq<seq<bv8>>, legacy: bool) {
    && start <= |s|
    && Pieces(s, legacy) == done + Pieces(s[start..], legacy)
    && Tail(s, legacy) == Tail(s[start..], legacy)
    && packets == PacketsOf(done)
  }

  lemma SplitDrop(s: seq<bv8>, start: nat, done: seq<Piece>, packets: seq<seq<bv8>>, legacy: bool)
    requires SplitTo(s, start, done, packets, legacy) && Look(s[start..], legacy).Drop?
    ensures SplitTo(s, start + 1, done + [Dropped(s[start])], packets, legacy)
  {
    hide Look;
    PacketsOfConcat(done, [Dropped(s[start])]);
    assert s[start..][1..] == s[start + 1..];
  }

  lemma SplitTake(s: seq<bv8>, start: nat, done: seq<Piece>, packets: seq<seq<bv8>>, legacy: bool, total: nat)
    requires SplitTo(s, start, done, packets, legacy) && Look(s[start..], legacy) == Take(total)
    ensures SplitTo(s, start + total, done + [Packet(s[start..start + total])], packets + [s[start..start + total]], legacy)
  {
    hide Look;
    PacketsOfConcat(done, [Packet(s[start..start + total])]);
    assert s[start..][total..] == s[start + total..] && s[start..][..total] == s[start..start + total];
  }

  lemma NothingSplit(s: seq<bv8>, legacy: bool)
    ensures SplitTo(s, 0, [], [], legacy)
  {
    hide Look;
    assert s[0..] == s;
  }

  lemma SplitEnds(s: seq<bv8>, start: nat, done: seq<Piece>, packets: seq<seq<bv8>>, legacy: bool)
    requires SplitTo(s, start, done, packets, legacy) && Look(s[start..], legacy).Wait?
    ensures packets == Packets(s, legacy) && s[start..] == Tail(s, legacy)
  {
    hide Look;
    assert done + [] == done;
  }

  // ---------- reading one packet ----------

  /** The guard on entry: the size field points inside the buffer and leaves room for id and checksum. */
  predicate Readable(buffer: seq<bv8>, legacy: bool) {
    |buffer| >= 6 && |buffer| >= 3 + PacketSize(buffer, legacy) + 1 && PacketSize(buffer, legacy) >= 3
  }

  /** Id and payload, the bytes the checksum covers. */
  function Body(buffer: seq<bv8>, legacy: bool): seq<bv8>
    requires Readable(buffer, legacy)
  {
    buffer[3..PacketSize(buffer, legacy) + 1]
  }

  function TypeOf(buffer: seq<bv8>, legacy: bool): MsgType
    requires |buffer| >= 3
  {
    if legacy then (if buffer[1] == 0 then Request else Response)
    else if HeaderValue(buffer) / 0x1000 % 2 != 0 then Request else Response
  }

  /** A packet is accepted exactly when its header, its id and its two checksum bytes (low byte first) are right. */
  predicate Accepts(buffer: seq<bv8>, legacy: bool) {
    && Readable(buffer, legacy)
    && (legacy ==> ValidType(buffer[1]))
    && ValidId(buffer[3])
    && var size := PacketSize(buffer, legacy);
       buffer[size + 1] == Low(Crc(Body(buffer, legacy))) && buffer[size + 2] == High(Crc(Body(buffer, legacy)))
  }

  function Extracted(buffer: seq<bv8>, legacy: bool): Option<ResponseData> {
    if Accepts(buffer, legacy) then
      Some(ResponseData(buffer[3], TypeOf(buffer, legacy), Body(buffer, legacy)[1..]))
    else
      None
  }

  function Encoded(som: bv8, eom: bv8, legacy: bool, id: bv8, payload: seq<bv8>): seq<bv8> {
    var size := (|payload| + 3) % 0x1_0000;
    [som] + (if legacy then [0, Byte(size % 256)] else [Byte(size % 256), Byte(size / 256)])
    + [id] + payload + [Low(Crc([id] + payload)), High(Crc([id] + payload))] + [eom]
  }

  class GalaxyBudsPacket {
    const isLegacy: bool
    var startOfMessage: bv8
    var endOfMessage: bv8

    constructor (model: nat)
      ensures isLegacy == (model == 1) && startOfMessage == endOfMessage == 0
    {
      isLegacy := model == 1;
      startOfMessage, endOfMessage := 0, 0;
    }

    /** Takes the complete packets off the front of `pending`; `rest` is what stays there. */
    method Split(pending: seq<bv8>) returns (packets: seq<seq<bv8>>, rest: seq<bv8>)
      ensures packets == Packets(pending, isLegacy)
      ensures rest == Tail(pending, isLegacy)
    {
      hide Look, PacketSize, SplitTo, Packets, Tail;
      var som := if isLegacy then LEGACY_SOM else SOM;
      var eom := if isLegacy then LEGACY_EOM else EOM;
      packets := [];
      var start := 0;
      ghost var done := [];
      NothingSplit(pending, isLegacy);
      while |pending| - start >= 3
        invariant start <= |pending| && SplitTo(pending, start, done, packets, isLegacy)
        decreases |pending| - start
      {
        LookAt(pending, start, isLegacy);
        if pending[start] != som {
          SplitDrop(pending, start, done, packets, isLegacy);
          done := done + [Dropped(pending[start])];
          start := start + 1;
          continue;
        }
        var head := pending[start..start + 3];
        var total := 3 + PacketSize(head, isLegacy) + 1;
        if |pending| - start < total {
          break;
        }
        if pending[start + total - 1] != eom {
          SplitDrop(pending, start, done, packets, isLegacy);
          done := done + [Dropped(pending[start])];
          start := start + 1;
          continue;
        }
        SplitTake(pending, start, done, packets, isLegacy, total);
        done := done + [Packet(pending[start..start + total])];
        packets := packets + [pending[start..start + total]];
        start := start + total;
      }
      LookAt(pending, start, isLegacy);
      SplitEnds(pending, start, done, packets, isLegacy);
      rest := pending[start..];
    }

    /** Reads one packet; a buffer too short for its size field leaves the framing bytes alone. */
    method Extract(buffer: seq<bv8>) returns (data: Option<ResponseData>)
      modifies this
      ensures data == Extracted(buffer, isLegacy)
      ensures data.Some? ==>
                (data.value.msgType == Request <==>
                 if isLegacy then Value(buffer[1]) == 0 else HeaderValue(buffer) / 0x1000 % 2 == 1)
      ensures Readable(buffer, isLegacy) ==> startOfMessage == buffer[0] && endOfMessage == buffer[|buffer| - 1]
      ensures !Readable(buffer, isLegacy) ==> startOfMessage == old(startOfMessage) && endOfMessage == old(endOfMessage)
    {
      hide Crc, Low, High, Value;
      if |buffer| < 6 || |buffer| < 3 + PacketSize(buffer, isLegacy) + 1 || PacketSize(buffer, isLegacy) < 3 {
        return None;
      }
      startOfMessage := buffer[0];
      endOfMessage := buffer[|buffer| - 1];
      var msgType, size;
      if isLegacy {
        if !ValidType(buffer[1]) {
          return None;
        }
        ZeroByte(buffer[1]);
        msgType := if buffer[1] == 0 then Request else Response;
        size := Value(buffer[2]);
      } else {
        var header := 256 * Value(buffer[2]) + Value(buffer[1]);
        msgType := if header / 0x1000 % 2 != 0 then Request else Response;
        size := header % 1024;
      }
      var id := buffer[3];
      if !ValidId(id) {
        return None;
      }
      var payloadSize := size - 3;
      var crcData := [id];
      for i := 0 to payloadSize
        invariant crcData == buffer[3..4 + i]
      {
        crcData := crcData + [buffer[4 + i]];
      }
      assert crcData == Body(buffer, isLegacy);
      crcData := crcData + [buffer[3 + payloadSize + 2]];
      crcData := crcData + [buffer[3 + payloadSize + 1]];
      assert crcData == Body(buffer, isLegacy) + [buffer[size + 2], buffer[size + 1]];
      ResidueIsZero(Body(buffer, isLegacy), buffer[size + 2], buffer[size + 1]);
      var crc16 := Checksum(crcData);
      if crc16 != 0 {
        return None;
      }
      var payload := [];
      for i := 0 to payloadSize
        invariant payload == buffer[4..4 + i]
      {
        payload := payload + [buffer[4 + i]];
      }
      assert payload == Body(buffer, isLegacy)[1..];
      return Some(ResponseData(id, msgType, payload));
    }

    method Encode(id: bv8, payload: seq<bv8>) returns (writer: seq<bv8>)
      ensures writer == Encoded(startOfMessage, endOfMessage, isLegacy, id, payload)
    {
      hide Crc, Low, High, Byte;
      var size := (1 + |payload| + 2) % 0x1_0000;
      writer := [startOfMessage];
      if isLegacy {
        writer := writer + [0];
        writer := writer + [Byte(size % 256)];
      } else {
        writer := writer + [Byte(size % 256)];
        writer := writer + [Byte(size / 256)];
      }
      writer := writer + [id];
      writer := writer + payload;
      var crc := PacketChecksum(id, payload);
      writer := writer + crc;
      writer := writer + [endOfMessage];
    }
  }

  // ---------- round trip ----------

  datatype Message = Message(id: bv8, payload: seq<bv8>)

  /** The payload fits the size field. */
  predicate Fits(m: Message, legacy: bool) {
    ValidId(m.id) && |m.payload| <= if legacy then 252 else 1020
  }

  function EncodedAll(ms: seq<Message>, legacy: bool): seq<bv8> {
    if ms == [] then []
    else Encoded(Som(legacy), Eom(legacy), legacy, ms[0].id, ms[0].payload) + EncodedAll(ms[1..], legacy)
  }

  function EachEncoded(ms: seq<Message>, legacy: bool): seq<seq<bv8>> {
    seq(|ms|, i requires 0 <= i < |ms| => Encoded(Som(legacy), Eom(legacy), legacy, ms[i].id, ms[i].payload))
  }

  function Header(som: bv8, n: nat, legacy: bool): seq<bv8>
    requires n <= 1020
  {
    if legacy then [som, 0, Byte((n + 3) % 256)] else [som, Byte((n + 3) % 256), Byte((n + 3) / 256)]
  }

  lemma EncodedLayout(som: bv8, eom: bv8, m: Message, legacy: bool, rest: seq<bv8>)
    requires Fits(m, legacy)
    ensures var e := Encoded(som, eom, legacy, m.id, m.payload); var n := |m.payload|;
            && |e| == n + 7 && PacketSize(e + rest, legacy) == n + 3
            && e[0] == som && e[n + 6] == eom && (if legacy then e[1] == 0 else e[2] == Byte((n + 3) / 256))
            && e[3..n + 4] == [m.id] + m.payload
            && e[n + 4] == Low(Crc([m.id] + m.payload)) && e[n + 5] == High(Crc([m.id] + m.payload))
  {
    hide *;
    var n, body := |m.payload|, [m.id] + m.payload;
    var e := Encoded(som, eom, legacy, m.id, m.payload);
    EncodedInParts(som, eom, m, legacy);
    HeaderSaysSize(e + rest, som, n, legacy);
  }

  lemma EncodedInParts(som: bv8, eom: bv8, m: Message, legacy: bool)
    requires Fits(m, legacy)
    ensures var e := Encoded(som, eom, legacy, m.id, m.payload); var n, body := |m.payload|, [m.id] + m.payload;
            && n <= 1020 && (legacy ==> n <= 252)
            && |e| == n + 7 && e[..3] == Header(som, n, legacy) && e[3..n + 4] == body
            && e[n + 4] == Low(Crc(body)) && e[n + 5] == High(Crc(body)) && e[n + 6] == eom
  {
    hide Crc, Low, High, Byte, ValidId;
    var n, body := |m.payload|, [m.id] + m.payload;
    assert (n + 3) % 0x1_0000 == n + 3;
    var tail := [Low(Crc(body)), High(Crc(body)), eom];
    assert Encoded(som, eom, legacy, m.id, m.payload) == Header(som, n, legacy) + body + tail;
    assert |Header(som, n, legacy)| == 3;
    hide Encoded, Header;
    InPlace(Header(som, n, legacy), body, tail);
  }

  lemma InPlace(head: seq<bv8>, body: seq<bv8>, tail: seq<bv8>)
    requires |head| == |tail| == 3
    ensures var s, n := head + body + tail, |body|;
            && |s| == n + 6 && s[..3] == head && s[3..n + 3] == body
            && s[n + 3] == tail[0] && s[n + 4] == tail[1] && s[n + 5] == tail[2]
  {
  }

  lemma HeaderSaysSize(s: seq<bv8>, som: bv8, n: nat, legacy: bool)
    requires n <= 1020 && (legacy ==> n <= 252) && |s| >= 3 && s[..3] == Header(som, n, legacy)
    ensures PacketSize(s, legacy) == n + 3
    ensures s[0] == som && if legacy then s[1] == 0 else s[2] == Byte((n + 3) / 256)
  {
    hide Byte, Value;
    ValueOfByte((n + 3) % 256);
    ValueOfByte((n + 3) / 256);
    var h := Header(som, n, legacy);
    assert s[0] == s[..3][0] == h[0] && s[1] == s[..3][1] == h[1] && s[2] == s[..3][2] == h[2];
  }

  /** Id and payload read back, whatever bytes frame the packet. */
  lemma ExtractUndoesEncode(som: bv8, eom: bv8, m: Message, legacy: bool)
    requires Fits(m, legacy)
    ensures var r := Extracted(Encoded(som, eom, legacy, m.id, m.payload), legacy);
            r.Some? && r.value.id == m.id && r.value.payload == m.payload
  {
    hide Crc, Low, High, Encoded, Byte;
    var e := Encoded(som, eom, legacy, m.id, m.payload);
    EncodedLayout(som, eom, m, legacy, []);
    assert e + [] == e;
    assert Body(e, legacy) == [m.id] + m.payload;
    assert e[3] == e[3..|m.payload| + 4][0];
  }

  /** A packet with a header of its own: legacy, the type byte and the size; else the two bytes of `header`. */
  function LaidOut(som: bv8, eom: bv8, legacy: bool, header: nat, id: bv8, payload: seq<bv8>): seq<bv8>
    requires header < 0x1_0000 && (legacy ==> |payload| <= 252)
  {
    [som] + (if legacy then [if header == 0 then 0 else 1, Byte(|payload| + 3)] else [Byte(header % 256), Byte(header / 256)])
    + [id] + payload + [Low(Crc([id] + payload)), High(Crc([id] + payload))] + [eom]
  }

  /** The ids that are read. */
  const IDS: set<bv8> := {66, 96, 97, 119, 120}

  /** Whatever is laid out is read: legacy, type byte 0 is a request and 1 a response; else bit 12 of the header marks
      a request, the low ten bits are the size, and the other bits may be anything. */
  lemma LaidOutIsRead(som: bv8, eom: bv8, legacy: bool, header: nat, id: bv8, payload: seq<bv8>)
    requires header < 0x1_0000 && id in IDS && |payload| <= 1020
    requires if legacy then header < 2 && |payload| <= 252 else header % 1024 == |payload| + 3
    ensures var msgType := if legacy then (if header == 0 then Request else Response)
                           else if (header / 0x1000) % 2 == 1 then Request else Response;
            Extracted(LaidOut(som, eom, legacy, header, id, payload), legacy) == Some(ResponseData(id, msgType, payload))
  {
    hide *;
    var e := LaidOut(som, eom, legacy, header, id, payload);
    LaidOutInParts(som, eom, legacy, header, id, payload);
    HeaderIsRead(e, legacy, header, |payload|);
    PartsAreRead(e, legacy, |payload|, id, payload);
  }

  function SecondByte(legacy: bool, header: nat, n: nat): nat { if legacy then n + 3 else header / 256 }

  function FirstByte(legacy: bool, header: nat): nat { if legacy then (if header == 0 then 0 else 1) else header % 256 }

  lemma LaidOutInParts(som: bv8, eom: bv8, legacy: bool, header: nat, id: bv8, payload: seq<bv8>)
    requires header < 0x1_0000 && (legacy ==> |payload| <= 252)
    ensures var e, body, n := LaidOut(som, eom, legacy, header, id, payload), [id] + payload, |payload|;
            && |e| == n + 7 && e[1] == Byte(FirstByte(legacy, header)) && e[2] == Byte(SecondByte(legacy, header, n))
            && e[3..n + 4] == body && e[n + 4] == Low(Crc(body)) && e[n + 5] == High(Crc(body))
  {
    hide Crc, Low, High;
    var body := [id] + payload;
    var tail := [Low(Crc(body)), High(Crc(body)), eom];
    SmallBytes();
    hide Byte;
    var head := [som, Byte(FirstByte(legacy, header)), Byte(SecondByte(legacy, header, |payload|))];
    assert LaidOut(som, eom, legacy, header, id, payload) == head + body + tail;
    hide LaidOut, FirstByte, SecondByte;
    InPlace(head, body, tail);
    var e := head + body + tail;
    assert e[1] == e[..3][1] && e[2] == e[..3][2];
  }

  lemma SmallBytes()
    ensures Byte(0) == 0 && Byte(1) == 1
  {
  }

  lemma HeaderIsRead(e: seq<bv8>, legacy: bool, header: nat, n: nat)
    requires header < 0x1_0000 && |e| >= 3
    requires if legacy then header < 2 && n <= 252 else header % 1024 == n + 3
    requires e[1] == Byte(FirstByte(legacy, header)) && e[2] == Byte(SecondByte(legacy, header, n))
    ensures PacketSize(e, legacy) == n + 3 && (legacy ==> ValidType(e[1]))
    ensures TypeOf(e, legacy) == if legacy then (if header == 0 then Request else Response)
                                 else if (header / 0x1000) % 2 == 1 then Request else Response
  {
    SmallBytes();
    ValueOfByte(FirstByte(legacy, header));
    ValueOfByte(SecondByte(legacy, header, n));
    hide Byte, Value;
  }

  lemma PartsAreRead(e: seq<bv8>, legacy: bool, n: nat, id: bv8, payload: seq<bv8>)
    requires |payload| == n && id in IDS && |e| == n + 7 && PacketSize(e, legacy) == n + 3 && (legacy ==> ValidType(e[1]))
    requires e[3..n + 4] == [id] + payload
    requires e[n + 4] == Low(Crc([id] + payload)) && e[n + 5] == High(Crc([id] + payload))
    ensures Extracted(e, legacy) == Some(ResponseData(id, TypeOf(e, legacy), payload))
  {
    hide Crc, Low, High, PacketSize, TypeOf, ValidType;
    var body := [id] + payload;
    assert e[3] == e[3..n + 4][0] == id;
    assert Body(e, legacy) == body && body[1..] == payload;
  }

  /** No other type byte is read on the legacy Buds. */
  lemma OtherTypesAreNot(buffer: seq<bv8>)
    requires |buffer| >= 2 && buffer[1] != 0 && buffer[1] != 1
    ensures Extracted(buffer, true) == None
  {
    hide Crc, Low, High, Value;
  }

  /** No other id is read. */
  lemma OtherIdsAreNot(buffer: seq<bv8>, legacy: bool)
    requires |buffer| >= 4 && buffer[3] !in IDS
    ensures Extracted(buffer, legacy) == None
  {
    hide Crc, Low, High, Value;
  }

  /** The type every packet is written with. */
  const WRITTEN_TYPE := Request

  /** The type written is the type read on the legacy Buds, and on no others: their header marks a request, the header
      written marks nothing. */
  lemma TypeReadsBackIff(som: bv8, eom: bv8, m: Message, legacy: bool)
    requires Fits(m, legacy)
    ensures var r := Extracted(Encoded(som, eom, legacy, m.id, m.payload), legacy);
            r.Some? && (r.value.msgType == WRITTEN_TYPE <==> legacy)
  {
    hide *;
    FitsMeans(m, legacy);
    var header := if legacy then 0 else |m.payload| + 3;
    EncodedIsLaidOut(som, eom, m, legacy);
    LaidOutIsRead(som, eom, legacy, header, m.id, m.payload);
    assert WRITTEN_TYPE == Request by { WrittenAsRequest(); }
  }

  lemma WrittenAsRequest()
    ensures WRITTEN_TYPE == Request
  {
  }

  lemma FitsMeans(m: Message, legacy: bool)
    ensures Fits(m, legacy) <==> m.id in IDS && |m.payload| <= if legacy then 252 else 1020
  {
  }

  lemma EncodedIsLaidOut(som: bv8, eom: bv8, m: Message, legacy: bool)
    requires Fits(m, legacy)
    ensures Encoded(som, eom, legacy, m.id, m.payload)
         == LaidOut(som, eom, legacy, if legacy then 0 else |m.payload| + 3, m.id, m.payload)
  {
    hide Crc, Low, High, Byte;
    var n := |m.payload|;
    assert (n + 3) % 0x1_0000 == n + 3;
  }

  /** For one: a request without payload, as written, is read as a response. */
  lemma RequestReadAsResponse()
    ensures Extracted(Encoded(SOM, EOM, false, 97, []), false) == Some(ResponseData(97, Response, []))
  {
    hide Encoded, Crc, Low, High;
    TypeReadsBackIff(SOM, EOM, Message(97, []), false);
    ExtractUndoesEncode(SOM, EOM, Message(97, []), false);
  }

  /** What is sent splits into itself, with nothing left over, if and only if both framing bytes are the model's:
      before the first packet was read they are 0. */
  lemma SentSplitsIff(som: bv8, eom: bv8, m: Message, legacy: bool)
    requires Fits(m, legacy)
    ensures var e := Encoded(som, eom, legacy, m.id, m.payload);
            Packets(e, legacy) == [e] && Tail(e, legacy) == [] <==> som == Som(legacy) && eom == Eom(legacy)
  {
    hide Encoded, PacketSize, Crc, Low, High, Byte;
    var e := Encoded(som, eom, legacy, m.id, m.payload);
    EncodedLayout(som, eom, m, legacy, []);
    assert e + [] == e;
    if som == Som(legacy) && eom == Eom(legacy) {
      assert Look(e, legacy) == Take(|e|);
      assert e[..|e|] == e && e[|e|..] == [];
      assert Pieces([], legacy) == [] && Pieces(e, legacy) == [Packet(e)] + [];
      assert PacketsOf([Packet(e)]) == [e] + PacketsOf([]);
    } else {
      assert Look(e, legacy) == Drop;
      assert Pieces(e, legacy)[1..] == Pieces(e[1..], legacy);
      assert Packets(e, legacy) == Packets(e[1..], legacy);
      hide Look, Pieces;
      if Packets(e, legacy) == [e] {
        PacketsFit(e[1..], legacy, e);
        assert false;
      }
    }
  }

  lemma {:induction false} PacketsFit(s: seq<bv8>, legacy: bool, p: seq<bv8>)
    requires p in Packets(s, legacy)
    ensures |p| <= |s|
    decreases |s|
  {
    hide Look;
    match Look(s, legacy)
    case Wait =>
    case Drop =>
      assert Pieces(s, legacy)[1..] == Pieces(s[1..], legacy);
      PacketsFit(s[1..], legacy, p);
    case Take(total) =>
      assert Pieces(s, legacy)[1..] == Pieces(s[total..], legacy);
      if p != s[..total] {
        PacketsFit(s[total..], legacy, p);
      }
  }

  /** Any list of messages, encoded one behind the other, splits into exactly those packets and reads back. */
  lemma {:induction false} SplitUndoesEncode(ms: seq<Message>, legacy: bool)
    requires forall m :: m in ms ==> Fits(m, legacy)
    ensures Packets(EncodedAll(ms, legacy), legacy) == EachEncoded(ms, legacy)
    ensures Tail(EncodedAll(ms, legacy), legacy) == []
    ensures forall i | 0 <= i < |ms| :: var r := Extracted(EachEncoded(ms, legacy)[i], legacy);
              r.Some? && r.value.id == ms[i].id && r.value.payload == ms[i].payload
    decreases |ms|
  {
    hide Encoded, Extracted, PacketSize;
    if ms != [] {
      var e := Encoded(Som(legacy), Eom(legacy), legacy, ms[0].id, ms[0].payload);
      var rest := EncodedAll(ms[1..], legacy);
      var s := e + rest;
      EncodedLayout(Som(legacy), Eom(legacy), ms[0], legacy, rest);
      assert s[0] == e[0] && s[|e| - 1] == e[|e| - 1];
      assert Look(s, legacy) == Take(|e|);
      assert s[..|e|] == e && s[|e|..] == rest;
      assert Pieces(s, legacy)[1..] == Pieces(rest, legacy);
      SplitUndoesEncode(ms[1..], legacy);
      assert EachEncoded(ms, legacy) == [e] + EachEncoded(ms[1..], legacy);
      forall i | 0 <= i < |ms|
        ensures var r := Extracted(EachEncoded(ms, legacy)[i], legacy);
                r.Some? && r.value.id == ms[i].id && r.value.payload == ms[i].payload
      {
        ExtractUndoesEncode(Som(legacy), Eom(legacy), ms[i], legacy);
      }
    }
  }

  // ---------- error detection ----------

  /** The packets have the same length and differ at most at the given places. */
  ghost predicate DiffersOnlyAt(a: seq<bv8>, b: seq<bv8>, lo: nat, hi: nat) {
    |a| == |b| && forall k | 0 <= k < |a| && !(lo <= k < hi) :: a[k] == b[k]
  }

  /** A valid packet changed only within two neighbouring bytes of id and payload is rejected, at any length. */
  lemma BurstIsRejected(a: seq<bv8>, b: seq<bv8>, legacy: bool, j: nat)
    requires Accepts(a, legacy) && a != b
    requires 3 <= j <= PacketSize(a, legacy)
    requires DiffersOnlyAt(a, b, j, if j < PacketSize(a, legacy) then j + 2 else j + 1)
    ensures Extracted(b, legacy) == None
  {
    hide Crc, Low, High, Value;
    var size := PacketSize(a, legacy);
    var x, y := Body(a, legacy), Body(b, legacy);
    assert a[1] == b[1] && a[2] == b[2];
    if Accepts(b, legacy) {
      BodiesDiffer(a, b, legacy);
      assert a[size + 1] == b[size + 1] && a[size + 2] == b[size + 2];
      SameChecksumBytes(Crc(x), Crc(y));
      forall k | 0 <= k < |x| && !(j - 3 <= k < j - 1)
        ensures x[k] == y[k]
      {
        assert x[k] == a[k + 3] && y[k] == b[k + 3];
      }
      BurstInBody(x, y, j - 3);
      assert false;
    }
  }

  lemma BurstInBody(x: seq<bv8>, y: seq<bv8>, p: nat)
    requires |x| == |y| && p < |x| && x != y
    requires forall k | 0 <= k < |x| && !(p <= k < p + 2) :: x[k] == y[k]
    ensures Crc(x) != Crc(y)
  {
    hide Crc;
    if |x| == 1 {
      SingleByte(x, y);
    } else {
      var q := if p + 2 <= |x| then p else p - 1;
      assert x == x[..q] + x[q..q + 2] + x[q + 2..];
      assert y == x[..q] + y[q..q + 2] + x[q + 2..];
      BurstChangesChecksum(x[..q], x[q..q + 2], y[q..q + 2], x[q + 2..]);
    }
  }

  lemma BodiesDiffer(a: seq<bv8>, b: seq<bv8>, legacy: bool)
    requires Readable(a, legacy) && Readable(b, legacy) && a != b && |a| == |b|
    requires PacketSize(a, legacy) == PacketSize(b, legacy)
    requires forall k | 0 <= k < |a| && !(3 <= k < PacketSize(a, legacy) + 1) :: a[k] == b[k]
    ensures Body(a, legacy) != Body(b, legacy)
  {
    var k :| 0 <= k < |a| && a[k] != b[k];
    assert Body(a, legacy)[k - 3] == a[k] && Body(b, legacy)[k - 3] == b[k];
  }

  lemma SingleByte(x: seq<bv8>, y: seq<bv8>)
    requires |x| == |y| == 1 && x != y
    ensures Crc(x) != Crc(y)
  {
    hide ByteStep;
    BurstChangesChecksum([], [0] + x, [0] + y, []);
    LeadingZero(x);
    LeadingZero(y);
    assert [0] + x != [0] + y by { assert ([0] + x)[1] == x[0] && ([0] + y)[1] == y[0]; }
    assert [] + ([0] + x) + [] == [0] + x && [] + ([0] + y) + [] == [0] + y;
  }

  lemma LeadingZero(x: seq<bv8>)
    ensures Crc([0] + x) == Crc(x)
  {
    assert ByteStep(0, 0) == 0;
    hide ByteStep;
    assert ([0] + x)[1..] == x;
  }

  lemma SameChecksumBytes(c: bv16, d: bv16)
    requires Low(c) == Low(d) && High(c) == High(d)
    ensures c == d
  {
  }

  /** A valid packet changed only in its checksum bytes is rejected. */
  lemma ChangedChecksumIsRejected(a: seq<bv8>, b: seq<bv8>, legacy: bool)
    requires Accepts(a, legacy) && a != b
    requires DiffersOnlyAt(a, b, PacketSize(a, legacy) + 1, PacketSize(a, legacy) + 3)
    ensures Extracted(b, legacy) == None
  {
    hide Crc, Low, High, Value;
    assert a[1] == b[1] && a[2] == b[2];
    assert Readable(b, legacy) && PacketSize(b, legacy) == PacketSize(a, legacy);
    var x, y := Body(a, legacy), Body(b, legacy);
    assert forall i | 0 <= i < |x| :: x[i] == a[i + 3] == b[i + 3] == y[i];
    assert x == y;
    var k :| 0 <= k < |a| && a[k] != b[k];
    assert k == PacketSize(b, legacy) + 1 || k == PacketSize(b, legacy) + 2;
  }

  // ---------- the device ----------

  function Responses(packets: seq<seq<bv8>>, legacy: bool): seq<ResponseData> {
    if packets == [] then []
    else ResponseTo(packets[0], legacy) + Responses(packets[1..], legacy)
  }

  function ResponseTo(packet: seq<bv8>, legacy: bool): seq<ResponseData> {
    match Extracted(packet, legacy) case Some(d) => [d] case None => []
  }

  class GalaxyBudsDevice {
    const packet: GalaxyBudsPacket
    var pending: seq<bv8>
    var fired: seq<ResponseData>  // the events fired so far, in order

    constructor (model: nat)
      ensures pending == [] && fired == [] && fresh(packet)
    {
      packet := new GalaxyBudsPacket(model);
      pending, fired := [], [];
    }

    method OnResponseDataReceived(data: seq<bv8>)
      modifies this, packet
      ensures pending == Tail(old(pending) + data, packet.isLegacy)
      ensures fired == old(fired) + Responses(Packets(old(pending) + data, packet.isLegacy), packet.isLegacy)
    {
      hide Packets, Tail, Responses, Extracted;
      pending := pending + data;
      var frames, rest := packet.Split(pending);
      pending := rest;
      var i := 0;
      assert Responses([], packet.isLegacy) == [] by { NoResponses(packet.isLegacy); }
      assert frames[0..] == frames;
      while i < |frames|
        invariant 0 <= i <= |frames|
        invariant pending == rest
        invariant fired + Responses(frames[i..], packet.isLegacy) == old(fired) + Responses(frames, packet.isLegacy)
      {
        var optionalData := packet.Extract(frames[i]);
        ResponsesFrom(frames, i, packet.isLegacy);
        if optionalData.Some? {
          assert fired + ([optionalData.value] + Responses(frames[i + 1..], packet.isLegacy))
              == fired + [optionalData.value] + Responses(frames[i + 1..], packet.isLegacy);
          fired := fired + [optionalData.value];
        }
        i := i + 1;
      }
      assert frames[i..] == [] && fired + [] == fired;
    }
  }

  lemma NoResponses(legacy: bool)
    ensures Responses([], legacy) == []
  {
  }

  lemma ResponsesFrom(frames: seq<seq<bv8>>, i: nat, legacy: bool)
    requires i < |frames|
    ensures Responses(frames[i..], legacy)
         == ResponseTo(frames[i], legacy) + Responses(frames[i + 1..], legacy)
  {
    hide ResponseTo;
    assert frames[i..][1..] == frames[i + 1..];
  }

  /** What a device with `pending` bytes fires for a list of reads. */
  function FiredFor(pending: seq<bv8>, chunks: seq<seq<bv8>>, legacy: bool): seq<ResponseData>
    decreases |chunks|
  {
    if chunks == [] then []
    else Responses(Packets(pending + chunks[0], legacy), legacy)
         + FiredFor(Tail(pending + chunks[0], legacy), chunks[1..], legacy)
  }

  function Joined(chunks: seq<seq<bv8>>): seq<bv8> {
    if chunks == [] then [] else chunks[0] + Joined(chunks[1..])
  }

  lemma {:induction false} ResponsesConcat(a: seq<seq<bv8>>, b: seq<seq<bv8>>, legacy: bool)
    ensures Responses(a + b, legacy) == Responses(a, legacy) + Responses(b, legacy)
    decreases |a|
  {
    hide ResponseTo;
    if a == [] {
      assert a + b == b;
    } else {
      ResponsesConcat(a[1..], b, legacy);
      assert (a + b)[1..] == a[1..] + b;
      var x, y, z := ResponseTo(a[0], legacy), Responses(a[1..], legacy), Responses(b, legacy);
      assert x + (y + z) == (x + y) + z;
    }
  }

  /** The device fires the same responses however the bytes are cut into reads. */
  lemma {:induction false} ChunkingDoesNotMatter(pending: seq<bv8>, chunks: seq<seq<bv8>>, legacy: bool)
    requires Look(pending, legacy).Wait?
    ensures FiredFor(pending, chunks, legacy) == Responses(Packets(pending + Joined(chunks), legacy), legacy)
    decreases |chunks|
  {
    if chunks == [] {
      assert pending + Joined(chunks) == pending;
    } else {
      var first, later := pending + chunks[0], Joined(chunks[1..]);
      assert pending + Joined(chunks) == first + later;
      PacketsIgnoreReadBoundaries(first, later, legacy);
      ResponsesConcat(Packets(first, legacy), Packets(Tail(first, legacy) + later, legacy), legacy);
      TailWaits(first, legacy);
      ChunkingDoesNotMatter(Tail(first, legacy), chunks[1..], legacy);
    }
  }

  lemma {:induction false} TailWaits(s: seq<bv8>, legacy: bool)
    ensures Look(Tail(s, legacy), legacy).Wait?
    decreases |s|
  {
    match Look(s, legacy)
    case Wait =>
    case Drop => TailWaits(s[1..], legacy);
    case Take(total) => TailWaits(s[total..], legacy);
  }
}
