/** Parrot Zik control frames on an RFCOMM stream: [len hi][len lo][id] + payload, `len` counts the 3 header bytes. */
module Zik {

  type Byte = n: nat | n < 256

  const Ack: Byte := 0x02
  const Request: Byte := 0x80

  datatype Message = Message(id: Byte, xml: seq<Byte>)

  function Frame(id: Byte, payload: seq<Byte>): seq<Byte> {
    var len := |payload| + 3;
    [(len / 256) % 256, len % 256, id] + payload
  }

  /** What the front of the buffer turns out to be. */
  datatype Verdict = Wait | OutOfSync | Take(len: nat)

  function Look(s: seq<Byte>): (v: Verdict)
    ensures v.Take? ==> 3 <= v.len <= |s|
  {
    if |s| < 3 then Wait
    else
      var len: nat := (s[0] as int) * 256 + (s[1] as int);
      if len < 3 then OutOfSync
      else if |s| < len then Wait
      else Take(len)
  }

  function MessageAt(s: seq<Byte>, len: nat): Message
    requires 3 <= len <= |s|
  {
    Message(s[2], if s[2] == Request && len > 7 then s[7..len] else [])
  }

  function Messages(s: seq<Byte>): seq<Message>
    decreases |s|
  {
    match Look(s)
    case Take(len) => [MessageAt(s, len)] + Messages(s[len..])
    case _ => []
  }

  /** What stays in the buffer; a header that cannot be one empties it. */
  function Left(s: seq<Byte>): (rest: seq<Byte>)
    ensures |rest| <= |s|
    decreases |s|
  {
    match Look(s)
    case Take(len) => Left(s[len..])
    case Wait => s
    case OutOfSync => []
  }

  /** Reading `s` comes upon a header that cannot be one. */
  predicate LosesSync(s: seq<Byte>)
    decreases |s|
  {
    match Look(s)
    case Take(len) => LosesSync(s[len..])
    case Wait => false
    case OutOfSync => true
  }

  class Framer {
    var buffer: seq<Byte>

    constructor ()
      ensures buffer == []
    {
      buffer := [];
    }

    method Reset()
      modifies this
      ensures buffer == []
    {
      buffer := [];
    }

    method Feed(chunk: seq<Byte>) returns (messages: seq<Message>)
      modifies this
      ensures messages == Messages(old(buffer) + chunk)
      ensures buffer == Left(old(buffer) + chunk)
    {
      hide Messages, Left;
      buffer := buffer + chunk;
      messages := [];
      assert [] + Messages(buffer) == Messages(buffer);
      while |buffer| >= 3
        invariant messages + Messages(buffer) == Messages(old(buffer) + chunk)
        invariant Left(buffer) == Left(old(buffer) + chunk)
        decreases |buffer|
      {
        ReadOne(buffer);
        var len: nat := (buffer[0] as int) * 256 + (buffer[1] as int);
        if len < 3 {
          buffer := [];
          break;
        }
        if |buffer| < len {
          break;
        }
        var xml := [];
        if buffer[2] == Request && len > 7 {
          xml := buffer[7..len];
        }
        AppendBetween(messages, Message(buffer[2], xml), Messages(buffer[len..]));
        messages := messages + [Message(buffer[2], xml)];
        buffer := buffer[len..];
      }
      ReadOne(buffer);
      assert messages + [] == messages;
    }
  }

  lemma ReadOne(s: seq<Byte>)
    ensures |s| < 3 ==> Messages(s) == [] && Left(s) == s
    ensures |s| >= 3 ==> var len: nat := (s[0] as int) * 256 + (s[1] as int);
              if len < 3 then Messages(s) == [] && Left(s) == [] == Left([]) && Messages([]) == []
              else if |s| < len then Messages(s) == [] && Left(s) == s
              else Messages(s) == [MessageAt(s, len)] + Messages(s[len..]) && Left(s) == Left(s[len..])
  {
  }

  lemma AppendBetween(ms: seq<Message>, m: Message, ns: seq<Message>)
    ensures ms + ([m] + ns) == ms + [m] + ns
  {
  }

  // ---------- cutting the stream ----------

  lemma LookIsStable(a: seq<Byte>, b: seq<Byte>)
    requires !Look(a).Wait?
    ensures Look(a + b) == Look(a)
  {
    assert (a + b)[0] == a[0] && (a + b)[1] == a[1];
  }

  /** What one read gives, and what two do. */
  lemma {:induction false} CutWhileInSync(a: seq<Byte>, b: seq<Byte>)
    ensures !LosesSync(a) ==> Messages(a + b) == Messages(a) + Messages(Left(a) + b) && Left(a + b) == Left(Left(a) + b)
    ensures LosesSync(a) ==> Messages(a + b) == Messages(a) && Left(a + b) == [] && Left(a) == []
    decreases |a|
  {
    hide Look, MessageAt;
    match Look(a)
    case Wait =>
      assert [] + Messages(a + b) == Messages(a + b);
    case OutOfSync => LookIsStable(a, b);
    case Take(len) =>
      LookIsStable(a, b);
      CutWhileInSync(a[len..], b);
      assert (a + b)[len..] == a[len..] + b;
      MessageIsStable(a, b, len);
      AppendAfter(MessageAt(a, len), Messages(a[len..]), Messages(Left(a[len..]) + b));
  }

  lemma MessageIsStable(a: seq<Byte>, b: seq<Byte>, len: nat)
    requires 3 <= len <= |a|
    ensures MessageAt(a + b, len) == MessageAt(a, len)
  {
    if len > 7 {
      assert (a + b)[7..len] == a[7..len];
    }
  }

  lemma AppendAfter(m: Message, ms: seq<Message>, ns: seq<Message>)
    ensures [m] + (ms + ns) == [m] + ms + ns
  {
  }

  /** A cut makes no difference exactly when the first part keeps in sync, or nothing follows it, or what follows is
      itself out of sync from its first byte. */
  lemma CutDoesNotMatterIff(a: seq<Byte>, b: seq<Byte>)
    ensures Messages(a + b) == Messages(a) + Messages(Left(a) + b) && Left(a + b) == Left(Left(a) + b)
       <==> !LosesSync(a) || b == [] || Look(b) == OutOfSync
  {
    CutWhileInSync(a, b);
    if LosesSync(a) {
      assert Left(a) + b == b;
      if Messages(b) == [] {
        assert Messages(a) + Messages(b) == Messages(a);
      }
    }
  }

  /** For one: a length of zero swallows the acknowledgement read together with it, not the one read after it. */
  lemma CutMattersOutOfSync()
    ensures Messages([0, 0, 0] + [0, 3, Ack]) != Messages([0, 0, 0]) + Messages(Left([0, 0, 0]) + [0, 3, Ack])
  {
    var a: seq<Byte>, b: seq<Byte> := [0, 0, 0], [0, 3, Ack];
    assert Look(b) == Take(3);
    assert Look(a) == OutOfSync;
    CutDoesNotMatterIff(a, b);
    CutWhileInSync(a, b);
    assert Left(a) + b == b;
    assert |Messages(a) + Messages(b)| > |Messages(a)|;
  }

  // ---------- whole frames in any chunks ----------

  datatype RawFrame = RawFrame(id: Byte, payload: seq<Byte>)

  predicate Fits(f: RawFrame) { |f.payload| <= 65532 }

  function Stream(fs: seq<RawFrame>): seq<Byte> {
    if fs == [] then [] else Frame(fs[0].id, fs[0].payload) + Stream(fs[1..])
  }

  /** The XML of a request's answer starts behind four bytes of its own. */
  function MessageOf(f: RawFrame): Message {
    Message(f.id, if f.id == Request && |f.payload| > 4 then f.payload[4..] else [])
  }

  function MessagesOf(fs: seq<RawFrame>): seq<Message> {
    seq(|fs|, i requires 0 <= i < |fs| => MessageOf(fs[i]))
  }

  /** Bytes of the stream: `k` whole frames, then less than the next one. */
  ghost predicate Holds(s: seq<Byte>, fs: seq<RawFrame>, k: nat, part: seq<Byte>) {
    && k <= |fs|
    && s == Stream(fs[..k]) + part
    && if k == |fs| then part == []
       else part <= Frame(fs[k].id, fs[k].payload) && |part| < |fs[k].payload| + 3
  }

  lemma FrameIsTaken(f: RawFrame, rest: seq<Byte>)
    requires Fits(f)
    ensures Look(Frame(f.id, f.payload) + rest) == Take(|f.payload| + 3)
    ensures MessageAt(Frame(f.id, f.payload) + rest, |f.payload| + 3) == MessageOf(f)
  {
    var len := |f.payload| + 3;
    var s := Frame(f.id, f.payload) + rest;
    assert s[0] == len / 256 && s[1] == len % 256 && s[2] == f.id;
    if len > 7 {
      assert s[7..len] == f.payload[4..];
    }
  }

  lemma PartWaits(f: RawFrame, part: seq<Byte>)
    requires Fits(f) && part <= Frame(f.id, f.payload) && |part| < |f.payload| + 3
    ensures Look(part) == Wait
  {
    var e := Frame(f.id, f.payload);
    if |part| >= 3 {
      assert part[0] == e[0] == (|f.payload| + 3) / 256 && part[1] == e[1];
    }
  }

  lemma {:induction false} WholeFramesAreRead(s: seq<Byte>, fs: seq<RawFrame>, k: nat, part: seq<Byte>)
    requires forall f :: f in fs ==> Fits(f)
    requires Holds(s, fs, k, part)
    ensures Messages(s) == MessagesOf(fs[..k]) && Left(s) == part && !LosesSync(s)
    decreases |fs|
  {
    hide Look, MessageAt, MessageOf;
    if k == 0 {
      assert Stream(fs[..0]) == [] && s == part;
      if k < |fs| {
        PartWaits(fs[0], part);
      } else {
        assert Look([]) == Wait by { EmptyWaits(); }
      }
    } else {
      var f, e := fs[0], Frame(fs[0].id, fs[0].payload);
      assert fs[..k][1..] == fs[1..][..k - 1];
      var rest := Stream(fs[1..][..k - 1]) + part;
      assert s == e + rest;
      FrameIsTaken(f, rest);
      assert s[|e|..] == rest;
      WholeFramesAreRead(rest, fs[1..], k - 1, part);
      assert MessagesOf(fs[..k]) == [MessageOf(f)] + MessagesOf(fs[1..][..k - 1]);
    }
  }

  lemma EmptyWaits()
    ensures Look([]) == Wait
  {
  }

  /** Every prefix of a stream of frames holds some of them and a proper part of the next. */
  lemma {:induction false} PrefixHolds(fs: seq<RawFrame>, s: seq<Byte>) returns (k: nat, part: seq<Byte>)
    requires s <= Stream(fs)
    ensures Holds(s, fs, k, part)
    decreases |fs|
  {
    if fs == [] {
      k, part := 0, [];
    } else {
      var e := Frame(fs[0].id, fs[0].payload);
      assert Stream(fs) == e + Stream(fs[1..]);
      if |s| < |e| {
        k, part := 0, s;
        assert s <= e;
      } else {
        assert s[..|e|] == e && s[|e|..] <= Stream(fs[1..]);
        k, part := PrefixHolds(fs[1..], s[|e|..]);
        k := k + 1;
        assert fs[..k][1..] == fs[1..][..k - 1];
        assert s == e + s[|e|..];
      }
    }
  }

  function Joined(chunks: seq<seq<Byte>>): seq<Byte> {
    if chunks == [] then [] else chunks[0] + Joined(chunks[1..])
  }

  /** The messages of successive reads, and what the framer keeps. */
  function FedMessages(buffer: seq<Byte>, chunks: seq<seq<Byte>>): seq<Message>
    decreases |chunks|
  {
    if chunks == [] then [] else Messages(buffer + chunks[0]) + FedMessages(Left(buffer + chunks[0]), chunks[1..])
  }

  function FedLeft(buffer: seq<Byte>, chunks: seq<seq<Byte>>): seq<Byte>
    decreases |chunks|
  {
    if chunks == [] then buffer else FedLeft(Left(buffer + chunks[0]), chunks[1..])
  }

  /** However a stream of frames is cut, the reads so far have given exactly its whole frames, in order,
      and the buffer holds a proper part of the next. */
  lemma FramesSurviveChunking(fs: seq<RawFrame>, chunks: seq<seq<Byte>>) returns (k: nat, part: seq<Byte>)
    requires forall f :: f in fs ==> Fits(f)
    requires Joined(chunks) <= Stream(fs)
    ensures Holds(Joined(chunks), fs, k, part)
    ensures FedMessages([], chunks) == MessagesOf(fs[..k]) && FedLeft([], chunks) == part
  {
    k, part := PrefixHolds(fs, Joined(chunks));
    WholeFramesAreRead(Joined(chunks), fs, k, part);
    assert [] + Joined(chunks) == Joined(chunks);
    InSyncChunks([], chunks);
  }

  lemma {:induction false} InSyncChunks(buffer: seq<Byte>, chunks: seq<seq<Byte>>)
    requires Look(buffer) == Wait && !LosesSync(buffer + Joined(chunks))
    ensures FedMessages(buffer, chunks) == Messages(buffer + Joined(chunks))
    ensures FedLeft(buffer, chunks) == Left(buffer + Joined(chunks))
    decreases |chunks|
  {
    if chunks == [] {
      assert buffer + Joined(chunks) == buffer;
    } else {
      var a, b := buffer + chunks[0], Joined(chunks[1..]);
      assert buffer + Joined(chunks) == a + b;
      SyncOfParts(a, b);
      CutWhileInSync(a, b);
      InSyncChunks(Left(a), chunks[1..]);
    }
  }

  lemma {:induction false} SyncOfParts(a: seq<Byte>, b: seq<Byte>)
    requires !LosesSync(a + b)
    ensures !LosesSync(a) && !LosesSync(Left(a) + b) && Look(Left(a)) == Wait
    decreases |a|
  {
    hide Look;
    match Look(a)
    case Wait =>
    case OutOfSync => LookIsStable(a, b);
    case Take(len) =>
      LookIsStable(a, b);
      assert (a + b)[len..] == a[len..] + b;
      SyncOfParts(a[len..], b);
  }
}
