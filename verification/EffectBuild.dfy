/** `BuildConfig` as it collects nodes and links, against the graph that `NodeOf` and `Driver` describe. */
module EffectBuild {
  import opened Effects
  import opened EffectGraph

  /** The two lists the graph is written to. */
  datatype Part = Part(nodes: seq<Node>, links: seq<Link>)

  datatype Feed = Feed(output: Port, gain: real)

  function Plus(a: Part, b: Part): Part { Part(a.nodes + b.nodes, a.links + b.links) }

  function PartOf(n: Numerics, c: Config, yaw: real, ids: seq<NodeId>): Part {
    Part(NodesOf(n, c, yaw, ids), LinksTo(GraphKey(c), PortsOfAll(GraphKey(c), ids)))
  }

  // ---------- parts put together ----------

  lemma {:induction false} PortsConcat(k: Key, a: seq<NodeId>, b: seq<NodeId>)
    ensures PortsOfAll(k, a + b) == PortsOfAll(k, a) + PortsOfAll(k, b)
    decreases |b|
  {
    hide PortsOf;
    if b == [] {
      assert a + b == a;
    } else {
      PortsConcat(k, a, b[..|b| - 1]);
      assert (a + b)[..|a + b| - 1] == a + b[..|b| - 1];
    }
  }

  lemma LinksConcat(k: Key, a: seq<Port>, b: seq<Port>)
    ensures LinksTo(k, a + b) == LinksTo(k, a) + LinksTo(k, b)
  {
    hide Driver;
  }

  lemma NodesConcat(n: Numerics, c: Config, yaw: real, a: seq<NodeId>, b: seq<NodeId>)
    ensures NodesOf(n, c, yaw, a + b) == NodesOf(n, c, yaw, a) + NodesOf(n, c, yaw, b)
  {
    hide NodeOf;
  }

  lemma PartConcat(n: Numerics, c: Config, yaw: real, a: seq<NodeId>, b: seq<NodeId>)
    ensures PartOf(n, c, yaw, a + b) == Plus(PartOf(n, c, yaw, a), PartOf(n, c, yaw, b))
  {
    hide NodesOf, LinksTo, PortsOfAll, GraphKey;
    var k := GraphKey(c);
    NodesConcat(n, c, yaw, a, b);
    PortsConcat(k, a, b);
    LinksConcat(k, PortsOfAll(k, a), PortsOfAll(k, b));
  }

  lemma PortsOfOne(k: Key, id: NodeId)
    ensures PortsOfAll(k, [id]) == PortsOf(k, id)
  {
    hide PortsOf;
    assert [id][..0] == [] && PortsOfAll(k, []) == [];
  }

  lemma PartOfOne(n: Numerics, c: Config, yaw: real, id: NodeId)
    ensures PartOf(n, c, yaw, [id]) == Part([NodeOf(n, c, yaw, id)], LinksTo(GraphKey(c), PortsOf(GraphKey(c), id)))
  {
    hide NodeOf, LinksTo, PortsOf, GraphKey;
    PortsOfOne(GraphKey(c), id);
  }

  // ---------- the three things the text is made of ----------

  function AddLink(p: Part, output: Port, input: Port): Part {
    Part(p.nodes, p.links + [Link(output, input)])
  }

  function AddBiquad(p: Part, id: NodeId, bq: Biquad): Part {
    Part(p.nodes + [BiquadNode(id, bq)], p.links)
  }

  function GainsOf(ins: seq<Feed>): seq<real> { seq(|ins|, i requires 0 <= i < |ins| => ins[i].gain) }

  function MixerLinks(id: NodeId, ins: seq<Feed>): seq<Link> {
    seq(|ins|, i requires 0 <= i < |ins| => Link(ins[i].output, Port(id, InAt(i + 1))))
  }

  method AddMixer(p: Part, id: NodeId, ins: seq<Feed>) returns (p': Part)
    ensures p' == Part(p.nodes + [MixerNode(id, GainsOf(ins))], p.links + MixerLinks(id, ins))
  {
    var gains: seq<Setting> := [];
    for i := 0 to |ins|
      invariant |gains| == i
      invariant forall j | 0 <= j < i :: gains[j] == Setting(GainAt(j + 1), Num(ins[j].gain))
    {
      hide Num;
      gains := gains + [Setting(GainAt(i + 1), Num(ins[i].gain))];
    }
    MixerSettings(id, ins, gains);
    var links := p.links;
    assert MixerLinks(id, ins[..0]) == [];
    for i := 0 to |ins|
      invariant links == p.links + MixerLinks(id, ins[..i])
    {
      assert MixerLinks(id, ins[..i + 1]) == MixerLinks(id, ins[..i]) + [Link(ins[i].output, Port(id, InAt(i + 1)))];
      links := links + [Link(ins[i].output, Port(id, InAt(i + 1)))];
    }
    assert ins[..|ins|] == ins;
    p' := Part(p.nodes + [Node(id, Mixer, gains)], links);
  }

  lemma MixerSettings(id: NodeId, ins: seq<Feed>, settings: seq<Setting>)
    requires |settings| == |ins|
    requires forall j | 0 <= j < |ins| :: settings[j] == Setting(GainAt(j + 1), Num(ins[j].gain))
    ensures Node(id, Mixer, settings) == MixerNode(id, GainsOf(ins))
  {
    hide Num;
    var s := MixerNode(id, GainsOf(ins)).settings;
    assert |s| == |ins|;
    forall j | 0 <= j < |ins| ensures s[j] == settings[j] {
      assert GainsOf(ins)[j] == ins[j].gain;
    }
  }

  predicate Feeds(k: Key, id: NodeId, ins: seq<Feed>) {
    && InputsOf(k, id) == Numbered(|ins|)
    && forall i | 0 <= i < |ins| :: ins[i].output == Driver(k, Port(id, InAt(i + 1)))
  }

  /** A mixer with the right feeds is the part of its name. */
  lemma MixerFits(n: Numerics, c: Config, yaw: real, id: NodeId, ins: seq<Feed>, p: Part, p': Part)
    requires Feeds(GraphKey(c), id, ins) && NodeOf(n, c, yaw, id) == MixerNode(id, GainsOf(ins))
    requires p' == Part(p.nodes + [MixerNode(id, GainsOf(ins))], p.links + MixerLinks(id, ins))
    ensures p' == Plus(p, PartOf(n, c, yaw, [id]))
  {
    hide NodeOf, Driver, MixerNode, GainsOf, InputsOf, GraphKey;
    var k := GraphKey(c);
    PartOfOne(n, c, yaw, id);
    assert forall i | 0 <= i < |ins| :: Numbered(|ins|)[i] == InAt(i + 1);
    assert MixerLinks(id, ins) == LinksTo(k, PortsOf(k, id));
  }

  /** A node with one input. */
  lemma PlainFits(n: Numerics, c: Config, yaw: real, id: NodeId)
    requires InputsOf(GraphKey(c), id) == [In]
    ensures PartOf(n, c, yaw, [id])
         == Part([NodeOf(n, c, yaw, id)], [Link(Driver(GraphKey(c), Port(id, In)), Port(id, In))])
  {
    hide NodeOf, Driver, InputsOf, GraphKey;
    PartOfOne(n, c, yaw, id);
  }

  // ---------- what is written ----------

  method PreGains(n: Numerics, c: Config, yaw: real) returns (nodes: seq<Node>, inputs: seq<Port>, positions: seq<Channel>)
    ensures nodes == NodesOf(n, c, yaw, PreNames(Speakers(GraphKey(c))))
    ensures inputs == GraphInputs(GraphKey(c)) && positions == Speakers(GraphKey(c))
  {
    var speakers := Speakers(GraphKey(c));
    hide Speakers, GraphKey, HeadroomDb, BiquadNode;
    nodes, inputs, positions := [], [], [];
    for i := 0 to |speakers|
      invariant |nodes| == |inputs| == i && positions == speakers[..i]
      invariant forall j | 0 <= j < i :: nodes[j] == NodeOf(n, c, yaw, Pre(speakers[j]))
      invariant forall j | 0 <= j < i :: inputs[j] == Port(Pre(speakers[j]), In)
    {
      nodes := nodes + [BiquadNode(Pre(speakers[i]), Biquad(HighShelf, 0.0, -HeadroomDb(n, c), 1.0))];
      inputs := inputs + [Port(Pre(speakers[i]), In)];
      positions := positions + [speakers[i]];
    }
    hide NodeOf;
  }

  /** Without spatial audio: the crossfeed's low-passes and mixers, muted when it is off. */
  method CrossfeedPart(n: Numerics, c: Config, yaw: real) returns (part: Part)
    requires !Spatial(c)
    ensures part == PartOf(n, c, yaw, HeadNames(GraphKey(c)))
  {
    var g := if c.crossfeed && !c.bypass then n.crossfeedGain else 0.0;
    part := AddBiquad(Part([], []), Xl(LeftEar), CROSSFEED_LOWPASS);
    part := AddLink(part, Port(Pre(L), Out), Port(Xl(LeftEar), In));
    part := AddBiquad(part, Xl(RightEar), CROSSFEED_LOWPASS);
    part := AddLink(part, Port(Pre(R), Out), Port(Xl(RightEar), In));
    CrossfeedLowPasses(n, c, yaw, part);
    ghost var ids := [Xl(LeftEar), Xl(RightEar)];
    hide PartOf, CROSSFEED_LOWPASS;
    part := CrossfeedMixer(n, c, yaw, g, LeftEar, part, ids);
    part := CrossfeedMixer(n, c, yaw, g, RightEar, part, ids + [Xm(LeftEar)]);
    assert ids + [Xm(LeftEar)] + [Xm(RightEar)] == HeadNames(GraphKey(c));
  }

  lemma CrossfeedLowPasses(n: Numerics, c: Config, yaw: real, part: Part)
    requires part == Part([BiquadNode(Xl(LeftEar), CROSSFEED_LOWPASS), BiquadNode(Xl(RightEar), CROSSFEED_LOWPASS)],
                          [Link(Port(Pre(L), Out), Port(Xl(LeftEar), In)), Link(Port(Pre(R), Out), Port(Xl(RightEar), In))])
    ensures part == PartOf(n, c, yaw, [Xl(LeftEar), Xl(RightEar)])
  {
    PlainFits(n, c, yaw, Xl(LeftEar));
    PlainFits(n, c, yaw, Xl(RightEar));
    PartConcat(n, c, yaw, [Xl(LeftEar)], [Xl(RightEar)]);
    hide PartOf, BiquadNode, GraphKey;
    assert [Xl(LeftEar)] + [Xl(RightEar)] == [Xl(LeftEar), Xl(RightEar)];
  }

  method CrossfeedMixer(n: Numerics, c: Config, yaw: real, g: real, ear: Ear, part: Part, ghost ids: seq<NodeId>)
    returns (part': Part)
    requires g == CrossfeedGain(n, c) && part == PartOf(n, c, yaw, ids)
    ensures part' == PartOf(n, c, yaw, ids + [Xm(ear)])
  {
    var ins := [Feed(Port(Pre(Own(ear)), Out), 1.0), Feed(Port(Xl(ear), Out), if g != 0.0 then -g else 0.0),
                Feed(Port(Xl(Opposite(ear)), Out), g)];
    part' := AddMixer(part, Xm(ear), ins);
    assert GainsOf(ins) == CrossfeedGains(n, c);
    hide PartOf, MixerNode, CrossfeedGains, GraphKey, GainsOf;
    MixerFits(n, c, yaw, Xm(ear), ins, part, part');
    PartConcat(n, c, yaw, ids, [Xm(ear)]);
  }

  /** A virtual speaker: crossover and compensation if the KEMAR needs them, then the spatializer. */
  method SpeakerPart(n: Numerics, c: Config, yaw: real, ch: Channel) returns (part: Part)
    ensures part == PartOf(n, c, yaw, ChainNames(GraphKey(c), ch))
  {
    var k := GraphKey(c);
    hide GraphKey;
    var chain := [Pre(ch)];
    var nodes: seq<Node> := [];
    if Kemar(k) {
      for i := 0 to |HIGHS|
        invariant chain == [Pre(ch)] + Compensation(ch, i)
        invariant nodes == NodesOf(n, c, yaw, Compensation(ch, i))
      {
        assert Compensation(ch, i + 1) == Compensation(ch, i) + [Sc(ch, i)];
        HighNode(n, c, yaw, ch, i);
        NodesConcat(n, c, yaw, Compensation(ch, i), [Sc(ch, i)]);
        hide NodeOf, BiquadNode;
        chain := chain + [Sc(ch, i)];
        nodes := nodes + [BiquadNode(Sc(ch, i), HIGHS[i])];
      }
    }
    var names := ChainNames(k, ch);
    chain := chain + [Sp(ch)];
    assert chain == [Pre(ch)] + names;
    assert NodeOf(n, c, yaw, Sp(ch)) == SpatializerNode(k, ch, yaw);
    hide SpatializerNode, NodeOf;
    nodes := nodes + [SpatializerNode(k, ch, yaw)];
    assert nodes == NodesOf(n, c, yaw, names);
    hide NodesOf;
    var links := ChainLinks(k, ch, chain);
    part := Part(nodes, links);
  }

  lemma HighNode(n: Numerics, c: Config, yaw: real, ch: Channel, i: nat)
    requires i < |HIGHS|
    ensures NodesOf(n, c, yaw, [Sc(ch, i)]) == [BiquadNode(Sc(ch, i), HIGHS[i])]
  {
    hide BiquadNode;
  }

  function Chained(chain: seq<NodeId>): seq<Link>
    requires chain != []
  {
    seq(|chain| - 1, i requires 0 <= i < |chain| - 1 => Link(Port(chain[i], Out), Port(chain[i + 1], In)))
  }

  method ChainLinks(k: Key, ch: Channel, chain: seq<NodeId>) returns (links: seq<Link>)
    requires chain == [Pre(ch)] + ChainNames(k, ch)
    ensures links == LinksTo(k, PortsOfAll(k, ChainNames(k, ch)))
  {
    hide ChainNames, LinksTo, PortsOfAll;
    links := [];
    for i := 1 to |chain|
      invariant |links| == i - 1
      invariant forall j | 0 <= j < i - 1 :: links[j] == Link(Port(chain[j], Out), Port(chain[j + 1], In))
    {
      links := links + [Link(Port(chain[i - 1], Out), Port(chain[i], In))];
    }
    assert links == Chained(chain);
    ChainedIsDriven(k, ch);
  }

  lemma ChainedIsDriven(k: Key, ch: Channel)
    ensures Chained([Pre(ch)] + ChainNames(k, ch)) == LinksTo(k, PortsOfAll(k, ChainNames(k, ch)))
  {
    ChainIsPlain(k, ch);
    var names := ChainNames(k, ch);
    var chain := [Pre(ch)] + names;
    hide Driver, ChainNames, PortsOfAll, InputsOf;
    PlainPorts(k, names);
    forall j | 0 <= j < |names| ensures Driver(k, Port(names[j], In)) == Port(chain[j], Out) && chain[j + 1] == names[j] {
      ChainDriver(k, ch, j);
    }
  }

  lemma ChainIsPlain(k: Key, ch: Channel)
    ensures forall id | id in ChainNames(k, ch) :: InputsOf(k, id) == [In]
  {
    hide HIGHS;
  }

  lemma ChainDriver(k: Key, ch: Channel, j: nat)
    requires j < |ChainNames(k, ch)|
    ensures Driver(k, Port(ChainNames(k, ch)[j], In)) == Port(([Pre(ch)] + ChainNames(k, ch))[j], Out)
  {
  }

  lemma {:induction false} PlainPorts(k: Key, ids: seq<NodeId>)
    requires forall i | 0 <= i < |ids| :: InputsOf(k, ids[i]) == [In]
    ensures |PortsOfAll(k, ids)| == |ids|
    ensures forall i | 0 <= i < |ids| :: PortsOfAll(k, ids)[i] == Port(ids[i], In)
    decreases |ids|
  {
    hide InputsOf;
    if ids != [] {
      PlainPorts(k, ids[..|ids| - 1]);
    }
  }

  method SpeakersPart(n: Numerics, c: Config, yaw: real) returns (part: Part)
    ensures part == PartOf(n, c, yaw, SpeakerNames(GraphKey(c), Speakers(GraphKey(c))))
  {
    var k := GraphKey(c);
    var speakers := Speakers(k);
    hide Speakers, GraphKey, ChainNames;
    part := Part([], []);
    NothingYet(n, c, yaw, k, speakers);
    hide PartOf;
    for i := 0 to |speakers|
      invariant part == PartOf(n, c, yaw, SpeakerNames(k, speakers[..i]))
    {
      assert speakers[..i + 1][..i] == speakers[..i];
      if speakers[i] != LFE {
        var chain := SpeakerPart(n, c, yaw, speakers[i]);
        PartConcat(n, c, yaw, SpeakerNames(k, speakers[..i]), ChainNames(k, speakers[i]));
        part := Plus(part, chain);
      } else {
        assert SpeakerNames(k, speakers[..i + 1]) == SpeakerNames(k, speakers[..i]);
      }
    }
    assert speakers[..|speakers|] == speakers;
  }

  lemma NothingYet(n: Numerics, c: Config, yaw: real, k: Key, speakers: seq<Channel>)
    ensures Part([], []) == PartOf(n, c, yaw, SpeakerNames(k, speakers[..0])) == PartOf(n, c, yaw, [])
  {
    assert PortsOfAll(GraphKey(c), []) == [];
    assert SpeakerNames(k, speakers[..0]) == [];
  }

  /** The bass that bypasses the HRTF, and the LFE. */
  method BassPart(n: Numerics, c: Config, yaw: real) returns (part: Part)
    requires Spatial(c)
    ensures part == PartOf(n, c, yaw, BassNames(GraphKey(c)))
  {
    var k := GraphKey(c);
    part := Part([], []);
    if HasBass(c) {
      var bass := BassFeeds(k);
      part := AddMixer(part, Bass, bass);
      assert Feeds(k, Bass, bass) && GainsOf(bass) == BassGains(BassChannels(k));
      MixerFits(n, c, yaw, Bass, bass, Part([], []), part);
      hide MixerNode, GainsOf, BassGains;
      assert part == PartOf(n, c, yaw, [Bass]);
      hide PartOf;
      part := AddBiquad(part, Lp(0), KEMAR_LOWPASS);
      part := AddBiquad(part, Lp(1), KEMAR_LOWPASS);
      part := AddLink(part, Port(Bass, Out), Port(Lp(0), In));
      part := AddLink(part, Port(Lp(0), Out), Port(Lp(1), In));
      PlainFits(n, c, yaw, Lp(0));
      PlainFits(n, c, yaw, Lp(1));
      PartConcat(n, c, yaw, [Lp(0)], [Lp(1)]);
      PartConcat(n, c, yaw, [Bass], [Lp(0)] + [Lp(1)]);
      assert [Bass] + ([Lp(0)] + [Lp(1)]) == BassNames(k);
    } else {
      NothingYet(n, c, yaw, k, []);
    }
  }

  /** Those of `s` in `keep`, in their order. */
  function Kept(keep: set<Channel>, s: seq<Channel>): seq<Channel> {
    if s == [] then []
    else Kept(keep, s[..|s| - 1]) + if s[|s| - 1] in keep then [s[|s| - 1]] else []
  }

  lemma KeptNext(keep: set<Channel>, s: seq<Channel>, i: nat)
    requires i < |s|
    ensures Kept(keep, s[..i + 1]) == Kept(keep, s[..i]) + if s[i] in keep then [s[i]] else []
  {
    assert s[..i + 1][..i] == s[..i];
  }

  const SEATS := {L, R, C, RL, RR, SL, SR}

  lemma KeptStereo(keep: set<Channel>)
    requires L in keep && R in keep
    ensures Kept(keep, STEREO) == STEREO
  {
    KeptNext(keep, STEREO, 0);
    KeptNext(keep, STEREO, 1);
    assert STEREO[..2] == STEREO;
  }

  function One(keep: set<Channel>, ch: Channel): seq<Channel> { if ch in keep then [ch] else [] }

  lemma KeptSurround(keep: set<Channel>)
    ensures Kept(keep, SURROUND) == One(keep, L) + One(keep, R) + One(keep, C) + One(keep, LFE)
                                    + One(keep, RL) + One(keep, RR) + One(keep, SL) + One(keep, SR)
  {
    hide One;
    var two := [L] + [R];
    var four := two + [C] + [LFE];
    var six := four + [RL] + [RR];
    KeptOne(keep, L);
    KeptMore(keep, [L], R);
    KeptMore(keep, two, C);
    KeptMore(keep, two + [C], LFE);
    KeptMore(keep, four, RL);
    KeptMore(keep, four + [RL], RR);
    KeptMore(keep, six, SL);
    KeptMore(keep, six + [SL], SR);
    hide Kept;
    assert SURROUND == six + [SL] + [SR];
  }

  lemma KeptOne(keep: set<Channel>, ch: Channel)
    ensures Kept(keep, [ch]) == One(keep, ch)
  {
    assert [ch][..0] == [] && Kept(keep, []) == [];
  }

  lemma KeptMore(keep: set<Channel>, s: seq<Channel>, ch: Channel)
    ensures Kept(keep, s + [ch]) == Kept(keep, s) + One(keep, ch)
  {
    assert (s + [ch])[..|s|] == s;
  }

  function BassKept(k: Key): set<Channel> { if Kemar(k) then SEATS + {LFE} else {LFE} }

  function Mixed(ear: Ear): set<Channel> { if ear == LeftEar then {L, C, RL, SL} else {R, C, RR, SR} }

  lemma BassIsKept(k: Key)
    requires BassPath(k)
    ensures Kept(BassKept(k), Speakers(k)) == BassChannels(k)
  {
    if k.surround {
      KeptSurround(BassKept(k));
    } else {
      KeptStereo(BassKept(k));
    }
  }

  lemma SeatedAreKept(k: Key)
    ensures Kept(SEATS, Speakers(k)) == SeatedChannels(k)
  {
    if k.spatial && k.surround {
      KeptSurround(SEATS);
    } else {
      KeptStereo(SEATS);
    }
  }

  lemma MixedAreKept(ear: Ear)
    ensures Kept(Mixed(ear), SURROUND) == DownmixChannels(ear)
    ensures forall ch: Channel :: ch in Mixed(ear) <==> Downmix(ch, ear) != 0.0
  {
    KeptSurround(Mixed(ear));
    forall ch: Channel ensures ch in Mixed(ear) <==> Downmix(ch, ear) != 0.0 {
      match ch case L => case R => case C => case LFE => case RL => case RR => case SL => case SR =>
    }
  }

  method BassFeeds(k: Key) returns (bass: seq<Feed>)
    requires BassPath(k)
    ensures |bass| == |BassChannels(k)|
    ensures forall i | 0 <= i < |bass| :: bass[i] == Feed(Port(Pre(BassChannels(k)[i]), Out), BassGain(BassChannels(k)[i]))
  {
    var speakers := Speakers(k);
    bass := [];
    ghost var channels := [];
    for i := 0 to |speakers|
      invariant channels == Kept(BassKept(k), speakers[..i])
      invariant |bass| == |channels|
      invariant forall j | 0 <= j < |bass| :: bass[j] == Feed(Port(Pre(channels[j]), Out), BassGain(channels[j]))
    {
      KeptNext(BassKept(k), speakers, i);
      hide Kept;
      if speakers[i] == LFE || Kemar(k) {
        bass := bass + [Feed(Port(Pre(speakers[i]), Out), if speakers[i] == LFE then 1.0 else 0.5)];
        channels := channels + [speakers[i]];
      }
    }
    assert speakers[..|speakers|] == speakers;
    BassIsKept(k);
  }

  /** An ear's mixers: the virtual speakers, the downmix for the A/B comparison, and the final one. */
  method EarPart(n: Numerics, c: Config, yaw: real, ear: Ear) returns (part: Part)
    requires Spatial(c)
    ensures part == PartOf(n, c, yaw, EarNames(GraphKey(c), ear))
  {
    var k := GraphKey(c);
    var hrtf, downmix := EarFeeds(k, ear);
    part := HrtfPart(n, c, yaw, ear, hrtf);
    hide PartOf, GraphKey;
    var direct := Port(Pre(Own(ear)), Out);
    ghost var ids := [Hrtf(ear)];
    if c.surround {
      part := DownmixPart(n, c, yaw, ear, downmix, part, ids);
      direct := Port(Dm(ear), Out);
      ids := ids + [Dm(ear)];
    }
    part := MixPart(n, c, yaw, ear, direct, part, ids);
    assert ids + [Mix(ear)] == EarNames(k, ear);
  }

  predicate HrtfFed(hrtf: seq<Feed>, s: seq<Channel>, ear: Ear) {
    |hrtf| == |s| && forall j | 0 <= j < |s| :: hrtf[j] == Feed(Port(Sp(s[j]), OutAt(ear)), SPEAKER_GAIN)
  }

  predicate DownmixFed(downmix: seq<Feed>, s: seq<Channel>, ear: Ear) {
    |downmix| == |s| && forall j | 0 <= j < |s| :: downmix[j] == Feed(Port(Pre(s[j]), Out), Downmix(s[j], ear))
  }

  lemma HrtfFedNext(hrtf: seq<Feed>, s: seq<Channel>, ear: Ear, ch: Channel)
    requires HrtfFed(hrtf, s, ear)
    ensures HrtfFed(hrtf + [Feed(Port(Sp(ch), OutAt(ear)), SPEAKER_GAIN)], s + [ch], ear)
  {
  }

  lemma DownmixFedNext(downmix: seq<Feed>, s: seq<Channel>, ear: Ear, ch: Channel)
    requires DownmixFed(downmix, s, ear)
    ensures DownmixFed(downmix + [Feed(Port(Pre(ch), Out), Downmix(ch, ear))], s + [ch], ear)
  {
    hide Downmix;
  }

  method EarFeeds(k: Key, ear: Ear) returns (hrtf: seq<Feed>, downmix: seq<Feed>)
    requires k.spatial
    ensures HrtfFed(hrtf, SeatedChannels(k), ear)
    ensures k.surround ==> DownmixFed(downmix, DownmixChannels(ear), ear)
  {
    var speakers := Speakers(k);
    hrtf, downmix := [], [];
    ghost var seated, mixed := [], [];
    assert HrtfFed(hrtf, seated, ear) && DownmixFed(downmix, mixed, ear);
    SeatedAreKept(k);
    assert k.surround ==> speakers == SURROUND;
    assert Kept(SEATS, speakers[..0]) == [] && Kept(Mixed(ear), speakers[..0]) == [];
    hide *;
    for i := 0 to |speakers|
      invariant seated == Kept(SEATS, speakers[..i]) && mixed == Kept(Mixed(ear), speakers[..i])
      invariant HrtfFed(hrtf, seated, ear) && DownmixFed(downmix, mixed, ear)
    {
      KeptNext(SEATS, speakers, i);
      KeptNext(Mixed(ear), speakers, i);
      SeatsAreSeated();
      MixedAreKept(ear);
      if speakers[i] != LFE {
        HrtfFedNext(hrtf, seated, ear, speakers[i]);
        hrtf := hrtf + [Feed(Port(Sp(speakers[i]), OutAt(ear)), SPEAKER_GAIN)];
        seated := seated + [speakers[i]];
      }
      if Downmix(speakers[i], ear) != 0.0 {
        DownmixFedNext(downmix, mixed, ear, speakers[i]);
        downmix := downmix + [Feed(Port(Pre(speakers[i]), Out), Downmix(speakers[i], ear))];
        mixed := mixed + [speakers[i]];
      }
    }
    assert speakers[..|speakers|] == speakers;
    MixedAreKept(ear);
  }

  lemma SeatsAreSeated()
    ensures forall ch: Channel :: ch in SEATS <==> ch != LFE
  {
    forall ch: Channel ensures ch in SEATS <==> ch != LFE {
      match ch case L => case R => case C => case LFE => case RL => case RR => case SL => case SR =>
    }
  }

  method HrtfPart(n: Numerics, c: Config, yaw: real, ear: Ear, hrtf: seq<Feed>) returns (part: Part)
    requires HrtfFed(hrtf, SeatedChannels(GraphKey(c)), ear)
    ensures part == PartOf(n, c, yaw, [Hrtf(ear)])
  {
    var k := GraphKey(c);
    part := AddMixer(Part([], []), Hrtf(ear), hrtf);
    assert GainsOf(hrtf) == SpeakerGains(SeatedChannels(k));
    hide GainsOf, SpeakerGains, MixerNode, GraphKey;
    assert Feeds(k, Hrtf(ear), hrtf);
    MixerFits(n, c, yaw, Hrtf(ear), hrtf, Part([], []), part);
  }

  method DownmixPart(n: Numerics, c: Config, yaw: real, ear: Ear, downmix: seq<Feed>, part: Part, ghost ids: seq<NodeId>)
    returns (part': Part)
    requires part == PartOf(n, c, yaw, ids) && DownmixFed(downmix, DownmixChannels(ear), ear)
    ensures part' == PartOf(n, c, yaw, ids + [Dm(ear)])
  {
    part' := AddMixer(part, Dm(ear), downmix);
    hide PartOf, GraphKey, Downmix;
    assert GainsOf(downmix) == DownmixGains(DownmixChannels(ear), ear);
    hide GainsOf, DownmixGains, MixerNode;
    assert Feeds(GraphKey(c), Dm(ear), downmix);
    MixerFits(n, c, yaw, Dm(ear), downmix, part, part');
    PartConcat(n, c, yaw, ids, [Dm(ear)]);
  }

  method MixPart(n: Numerics, c: Config, yaw: real, ear: Ear, direct: Port, part: Part, ghost ids: seq<NodeId>)
    returns (part': Part)
    requires Spatial(c) && part == PartOf(n, c, yaw, ids)
    requires direct == Port(if c.surround then Dm(ear) else Pre(Own(ear)), Out)
    ensures part' == PartOf(n, c, yaw, ids + [Mix(ear)])
  {
    var gains := MixGains(c);
    var ins := [Feed(Port(Hrtf(ear), Out), gains[0]), Feed(Port(Lp(1), Out), gains[1]), Feed(direct, gains[2])];
    if !HasBass(c) {
      ins := ins[1 := Feed(Port(Hrtf(ear), Out), 0.0)];
    }
    assert GainsOf(ins) == MixGains(c) && Feeds(GraphKey(c), Mix(ear), ins);
    hide PartOf, GraphKey, GainsOf, MixGains, MixerNode, Feeds, HasBass;
    part' := AddMixer(part, Mix(ear), ins);
    MixerFits(n, c, yaw, Mix(ear), ins, part, part');
    PartConcat(n, c, yaw, ids, [Mix(ear)]);
  }

  method HeadPart(n: Numerics, c: Config, yaw: real) returns (part: Part)
    ensures part == PartOf(n, c, yaw, HeadNames(GraphKey(c)))
  {
    if !Spatial(c) {
      part := CrossfeedPart(n, c, yaw);
    } else {
      var k := GraphKey(c);
      assert HeadNames(k) == SpeakerNames(k, Speakers(k)) + BassNames(k) + EarNames(k, LeftEar) + EarNames(k, RightEar);
      var speakers := SpeakersPart(n, c, yaw);
      var bass := BassPart(n, c, yaw);
      var left := EarPart(n, c, yaw, LeftEar);
      var right := EarPart(n, c, yaw, RightEar);
      hide HeadNames, EarNames, BassNames, SpeakerNames, PartOf, GraphKey;
      PartConcat(n, c, yaw, SpeakerNames(k, Speakers(k)), BassNames(k));
      PartConcat(n, c, yaw, SpeakerNames(k, Speakers(k)) + BassNames(k), EarNames(k, LeftEar));
      PartConcat(n, c, yaw, SpeakerNames(k, Speakers(k)) + BassNames(k) + EarNames(k, LeftEar), EarNames(k, RightEar));
      part := Plus(Plus(Plus(speakers, bass), left), right);
    }
  }

  /** The filters of an ear, one after the other; returns the last node. */
  method BandsPart(n: Numerics, c: Config, yaw: real, ear: Ear) returns (part: Part, previous: NodeId)
    ensures part == PartOf(n, c, yaw, BandNames(TagsOf(GraphKey(c)), ear))
    ensures previous == Band(Loudness, ear)
  {
    var k := GraphKey(c);
    assert TagsOf(k) == Tags(|c.correction|);
    var filters := CollectFilters(n, c, ear);
    part := Part([], []);
    previous := if Spatial(c) then Mix(ear) else Xm(ear);
    ghost var tags := TagsOf(k);
    assert forall i | 0 <= i < |tags| :: filters[i] == Filter(tags[i], InEffect(n, c, ear, tags[i]));
    NothingYet(n, c, yaw, k, []);
    assert BandNames(tags[..0], ear) == [];
    TagPositions(k);
    assert previous == Head(k, ear);
    hide PartOf, GraphKey, InEffect, Filters, TagsOf, Head;
    for i := 0 to |filters|
      invariant part == PartOf(n, c, yaw, BandNames(tags[..i], ear))
      invariant previous == if i == 0 then Head(k, ear) else Band(tags[i - 1], ear)
    {
      var tag, bq := filters[i].tag, filters[i].bq;
      BandFits(n, c, yaw, k, tags, i, ear, bq);
      part := AddLink(AddBiquad(part, Band(tag, ear), bq), Port(previous, Out), Port(Band(tag, ear), In));
      previous := Band(tag, ear);
    }
    assert tags[..|tags|] == tags;
  }

  lemma TagPositions(k: Key)
    ensures forall p | 0 <= p < |TagsOf(k)| :: Position(TagsOf(k)[p], |k.correction|) == p
    ensures TagsOf(k)[|TagsOf(k)| - 1] == Loudness
  {
  }

  lemma BandFits(n: Numerics, c: Config, yaw: real, k: Key, tags: seq<Tag>, i: nat, ear: Ear, bq: Biquad)
    requires k == GraphKey(c) && tags == TagsOf(k) && i < |tags| && bq == InEffect(n, c, ear, tags[i])
    ensures PartOf(n, c, yaw, BandNames(tags[..i + 1], ear))
         == AddLink(AddBiquad(PartOf(n, c, yaw, BandNames(tags[..i], ear)), Band(tags[i], ear), bq),
                    Port(if i == 0 then Head(k, ear) else Band(tags[i - 1], ear), Out), Port(Band(tags[i], ear), In))
  {
    TagPositions(k);
    hide Tags, TagsOf, InEffect, Head, GraphKey, Position, BiquadNode;
    var id := Band(tags[i], ear);
    assert BandNames(tags[..i + 1], ear) == BandNames(tags[..i], ear) + [id];
    PartConcat(n, c, yaw, BandNames(tags[..i], ear), [id]);
    PlainFits(n, c, yaw, id);
    assert NodeOf(n, c, yaw, id) == BiquadNode(id, bq);
    hide NodeOf, PartOf;
  }

  /** The graph in front of `sink`. */
  method BuildConfig(n: Numerics, sink: string, description: string, c: Config, yaw: real) returns (g: Graph)
    ensures g == GraphOf(n, sink, description, c, yaw)
  {
    var k := GraphKey(c);
    var nodes, inputs, positions := PreGains(n, c, yaw);
    var head := HeadPart(n, c, yaw);
    var left, lastLeft := BandsPart(n, c, yaw, LeftEar);
    var right, lastRight := BandsPart(n, c, yaw, RightEar);
    var limited := c.limiter != "";
    var leftLimit := if limited then [Link(Port(lastLeft, Out), Port(Lim, InAt(1)))] else [];
    var rightLimit := if limited then [Link(Port(lastRight, Out), Port(Lim, InAt(2)))] else [];
    var outputs := [if limited then Port(Lim, OutAt(LeftEar)) else Port(lastLeft, Out),
                    if limited then Port(Lim, OutAt(RightEar)) else Port(lastRight, Out)];
    var limiter := if limited then [LimiterNode(k)] else [];
    assert limiter == NodesOf(n, c, yaw, LimNames(k));
    assert leftLimit == LinksTo(k, LimPort(k, LeftEar)) && rightLimit == LinksTo(k, LimPort(k, RightEar));
    nodes := nodes + head.nodes + left.nodes + right.nodes + limiter;
    var links := head.links + left.links + leftLimit + right.links + rightLimit;
    WholeNodes(n, c, yaw);
    WholeLinks(k);
    hide NodesOf, LinksTo, PortsOfAll, HeadNames, BandNames, Names, DrivenPorts, PreNames, LimPort, LimNames, Speakers,
      GraphInputs, TagsOf;
    g := Graph(sink, Clean(description), nodes, links, inputs, outputs, positions);
  }

  lemma WholeNodes(n: Numerics, c: Config, yaw: real)
    ensures var k := GraphKey(c);
            NodesOf(n, c, yaw, Names(k))
            == NodesOf(n, c, yaw, PreNames(Speakers(k))) + NodesOf(n, c, yaw, HeadNames(k))
               + NodesOf(n, c, yaw, BandNames(TagsOf(k), LeftEar)) + NodesOf(n, c, yaw, BandNames(TagsOf(k), RightEar))
               + NodesOf(n, c, yaw, LimNames(k))
  {
    var k := GraphKey(c);
    hide GraphKey, NodesOf, PreNames, HeadNames, BandNames, LimNames, TagsOf, Speakers;
    var a, b, d, e, f := PreNames(Speakers(k)), HeadNames(k), BandNames(TagsOf(k), LeftEar), BandNames(TagsOf(k), RightEar),
      LimNames(k);
    NodesConcat(n, c, yaw, a, b);
    NodesConcat(n, c, yaw, a + b, d);
    NodesConcat(n, c, yaw, a + b + d, e);
    NodesConcat(n, c, yaw, a + b + d + e, f);
  }

  lemma WholeLinks(k: Key)
    ensures LinksTo(k, DrivenPorts(k))
         == LinksTo(k, PortsOfAll(k, HeadNames(k)))
            + LinksTo(k, PortsOfAll(k, BandNames(TagsOf(k), LeftEar))) + LinksTo(k, LimPort(k, LeftEar))
            + LinksTo(k, PortsOfAll(k, BandNames(TagsOf(k), RightEar))) + LinksTo(k, LimPort(k, RightEar))
  {
    hide LinksTo, PortsOfAll, HeadNames, BandNames, LimPort, TagsOf;
    var a, b, d, e, f := PortsOfAll(k, HeadNames(k)), PortsOfAll(k, BandNames(TagsOf(k), LeftEar)), LimPort(k, LeftEar),
      PortsOfAll(k, BandNames(TagsOf(k), RightEar)), LimPort(k, RightEar);
    LinksConcat(k, a, b);
    LinksConcat(k, a + b, d);
    LinksConcat(k, a + b + d, e);
    LinksConcat(k, a + b + d + e, f);
  }
}
