/** For every config, and a correction of any length, the graph is well formed. */
module EffectShape {
  import opened Effects
  import opened EffectGraph
  import opened EffectBuild

  // ---------- which nodes there are ----------

  predicate Exists(k: Key, id: NodeId) {
    match id
    case Pre(ch) => ch in Speakers(k)
    case Xl(_) => !k.spatial
    case Xm(_) => !k.spatial
    case Sc(ch, i) => k.spatial && Kemar(k) && ch in Speakers(k) && Seated(ch) && i < |HIGHS|
    case Sp(ch) => k.spatial && ch in Speakers(k) && Seated(ch)
    case Bass => BassPath(k)
    case Lp(i) => BassPath(k) && i < 2
    case Hrtf(_) => k.spatial
    case Dm(_) => k.spatial && k.surround
    case Mix(_) => k.spatial
    case Band(tag, _) => tag in TagsOf(k)
    case Lim => k.limiter != ""
  }

  lemma InPre(s: seq<Channel>, id: NodeId)
    ensures id in PreNames(s) <==> id.Pre? && id.channel in s
  {
    if id.Pre? && id.channel in s {
      var i :| 0 <= i < |s| && s[i] == id.channel;
      assert PreNames(s)[i] == id;
    }
  }

  lemma InBands(tags: seq<Tag>, ear: Ear, id: NodeId)
    ensures id in BandNames(tags, ear) <==> id.Band? && id.ear == ear && id.tag in tags
  {
    if id.Band? && id.ear == ear && id.tag in tags {
      var i :| 0 <= i < |tags| && tags[i] == id.tag;
      assert BandNames(tags, ear)[i] == id;
    }
  }

  lemma InChain(k: Key, ch: Channel, id: NodeId)
    ensures id in ChainNames(k, ch)
       <==> (id.Sc? && id.channel == ch && Kemar(k) && id.i < |HIGHS|) || (id.Sp? && id.channel == ch)
  {
    hide HIGHS;
    if id.Sc? && id.channel == ch && Kemar(k) && id.i < |HIGHS| {
      assert Compensation(ch, |HIGHS|)[id.i] == id;
    }
  }

  lemma {:induction false} InSpeakers(k: Key, s: seq<Channel>, id: NodeId)
    ensures id in SpeakerNames(k, s)
       <==> (id.Sc? || id.Sp?) && id.channel in s && Seated(id.channel) && (id.Sc? ==> Kemar(k) && id.i < |HIGHS|)
    decreases |s|
  {
    hide ChainNames, HIGHS;
    if s != [] {
      var n := |s| - 1;
      InSpeakers(k, s[..n], id);
      InChain(k, s[n], id);
      assert s == s[..n] + [s[n]];
    }
  }

  lemma InEar(k: Key, ear: Ear, id: NodeId)
    ensures id in EarNames(k, ear) <==> id == Hrtf(ear) || id == Mix(ear) || (k.surround && id == Dm(ear))
  {
  }

  lemma InBass(k: Key, id: NodeId)
    ensures id in BassNames(k) <==> BassPath(k) && (id.Bass? || (id.Lp? && id.i < 2))
  {
    hide BassPath;
    if id.Lp? && id.i < 2 {
      assert id == Lp(0) || id == Lp(1);
    }
  }

  lemma InMixers(k: Key, id: NodeId)
    ensures id in BassNames(k) + EarNames(k, LeftEar) + EarNames(k, RightEar)
       <==> (BassPath(k) && (id.Bass? || (id.Lp? && id.i < 2))) || id.Hrtf? || id.Mix? || (k.surround && id.Dm?)
  {
    InEar(k, LeftEar, id);
    InEar(k, RightEar, id);
    InBass(k, id);
    hide BassPath, BassNames, EarNames;
    BothEars(id);
  }

  lemma BothEars(id: NodeId)
    ensures id.Xl? || id.Xm? || id.Hrtf? || id.Dm? || id.Mix? || id.Band? ==> id.ear == LeftEar || id.ear == RightEar
  {
  }

  lemma InStereo(id: NodeId)
    ensures id in STEREO_NAMES <==> id.Xl? || id.Xm?
  {
    BothEars(id);
    assert STEREO_NAMES == [Xl(LeftEar), Xl(RightEar)] + [Xm(LeftEar), Xm(RightEar)];
  }

  lemma InHead(k: Key, id: NodeId)
    ensures id in HeadNames(k) <==> Exists(k, id) && !id.Pre? && !id.Band? && !id.Lim?
  {
    if k.spatial {
      InSpeakers(k, Speakers(k), id);
      InMixers(k, id);
      hide SpeakerNames, BassNames, EarNames, HIGHS, Speakers, TagsOf, Kemar, BassPath;
      assert id in HeadNames(k)
        <==> id in SpeakerNames(k, Speakers(k)) || id in BassNames(k) + EarNames(k, LeftEar) + EarNames(k, RightEar);
    } else {
      InStereo(id);
      hide TagsOf, Speakers, HIGHS, SpeakerNames, STEREO_NAMES;
    }
  }

  /** Exactly these nodes are there. */
  lemma NamesAre(k: Key, id: NodeId)
    ensures id in Names(k) <==> Exists(k, id)
  {
    InPre(Speakers(k), id);
    InHead(k, id);
    InBands(TagsOf(k), LeftEar, id);
    InBands(TagsOf(k), RightEar, id);
    hide PreNames, HeadNames, BandNames, Speakers, TagsOf, HIGHS;
  }

  // ---------- no name twice ----------

  ghost predicate Distinct<T>(s: seq<T>) {
    forall i, j | 0 <= i < j < |s| :: s[i] != s[j]
  }

  lemma DistinctConcat<T>(a: seq<T>, b: seq<T>)
    requires Distinct(a) && Distinct(b)
    requires forall x | x in a :: x !in b
    ensures Distinct(a + b)
  {
    var s := a + b;
    forall i, j | 0 <= i < j < |s| ensures s[i] != s[j] {
      if i < |a| <= j {
        assert s[i] in a && s[j] in b;
      }
    }
  }

  lemma TagsAreDistinct(count: nat)
    ensures Distinct(Tags(count))
  {
    forall i, j | 0 <= i < j < |Tags(count)| ensures Tags(count)[i] != Tags(count)[j] {
      TagPosition(count, i);
      TagPosition(count, j);
    }
  }

  lemma TagPosition(count: nat, p: nat)
    requires p < |Tags(count)|
    ensures Position(Tags(count)[p], count) == p
  {
  }

  lemma ChainIsDistinct(k: Key, ch: Channel)
    ensures Distinct(ChainNames(k, ch))
  {
    hide HIGHS;
  }

  lemma {:induction false} SpeakersAreDistinct(k: Key, s: seq<Channel>)
    requires Distinct(s)
    ensures Distinct(SpeakerNames(k, s))
    decreases |s|
  {
    hide ChainNames, HIGHS;
    if s != [] {
      var n := |s| - 1;
      SpeakersAreDistinct(k, s[..n]);
      ChainIsDistinct(k, s[n]);
      forall id | id in SpeakerNames(k, s[..n]) ensures id !in ChainNames(k, s[n]) {
        InSpeakers(k, s[..n], id);
        InChain(k, s[n], id);
      }
      if Seated(s[n]) {
        DistinctConcat(SpeakerNames(k, s[..n]), ChainNames(k, s[n]));
      }
    }
  }

  lemma MixersAreDistinct(k: Key)
    ensures Distinct(BassNames(k) + EarNames(k, LeftEar) + EarNames(k, RightEar))
  {
    hide BassPath;
    DistinctConcat(BassNames(k), EarNames(k, LeftEar));
    DistinctConcat(BassNames(k) + EarNames(k, LeftEar), EarNames(k, RightEar));
  }

  lemma HeadIsDistinct(k: Key)
    ensures Distinct(HeadNames(k))
  {
    if k.spatial {
      var a, b := SpeakerNames(k, Speakers(k)), BassNames(k) + EarNames(k, LeftEar) + EarNames(k, RightEar);
      SpeakersAreDistinct(k, Speakers(k));
      MixersAreDistinct(k);
      assert HeadNames(k) == a + b;
      hide *;
      forall id | id in a ensures id !in b {
        InSpeakers(k, Speakers(k), id);
        InMixers(k, id);
      }
      DistinctConcat(a, b);
    }
  }

  /** Every node name is given once. */
  lemma NamesAreDistinct(k: Key)
    ensures Distinct(Names(k))
  {
    var tags := TagsOf(k);
    TagsAreDistinct(|k.correction|);
    HeadIsDistinct(k);
    var p, h, l, r, lim := PreNames(Speakers(k)), HeadNames(k), BandNames(tags, LeftEar), BandNames(tags, RightEar),
        LimNames(k);
    assert Distinct(p) && Distinct(l) && Distinct(r) && Distinct(lim);
    forall id ensures id in p ==> id.Pre?
              ensures id in h ==> !id.Pre? && !id.Band? && !id.Lim?
              ensures id in l ==> id.Band? && id.ear == LeftEar
              ensures id in r ==> id.Band? && id.ear == RightEar
    {
      InPre(Speakers(k), id);
      InHead(k, id);
      InBands(tags, LeftEar, id);
      InBands(tags, RightEar, id);
      hide Exists, HeadNames, PreNames, BandNames, Speakers;
    }
    assert forall id | id in lim :: id.Lim?;
    hide PreNames, HeadNames, BandNames, LimNames, Speakers, TagsOf;
    DistinctConcat(p, h);
    DistinctConcat(p + h, l);
    DistinctConcat(p + h + l, r);
    DistinctConcat(p + h + l + r, lim);
  }

  // ---------- every input driven once ----------

  /** The input `p` belongs to a node that is there and that a link must drive. */
  predicate IsInput(k: Key, p: Port) {
    Exists(k, p.node) && p.name in InputsOf(k, p.node)
  }

  lemma InPorts(k: Key, id: NodeId, p: Port)
    ensures p in PortsOf(k, id) <==> p.node == id && p.name in InputsOf(k, id)
    ensures Distinct(PortsOf(k, id))
  {
    hide Speakers, BassChannels, SeatedChannels, DownmixChannels;
    if p.node == id && p.name in InputsOf(k, id) {
      var i :| 0 <= i < |InputsOf(k, id)| && InputsOf(k, id)[i] == p.name;
      assert PortsOf(k, id)[i] == p;
    }
  }

  lemma {:induction false} InAllPorts(k: Key, ids: seq<NodeId>, p: Port)
    ensures p in PortsOfAll(k, ids) <==> p.node in ids && p.name in InputsOf(k, p.node)
    decreases |ids|
  {
    hide PortsOf, InputsOf;
    if ids != [] {
      var n := |ids| - 1;
      InAllPorts(k, ids[..n], p);
      InPorts(k, ids[n], p);
      assert ids == ids[..n] + [ids[n]];
    }
  }

  lemma {:induction false} AllPortsAreDistinct(k: Key, ids: seq<NodeId>)
    requires Distinct(ids)
    ensures Distinct(PortsOfAll(k, ids))
    decreases |ids|
  {
    hide PortsOf, InputsOf;
    if ids != [] {
      var n := |ids| - 1;
      AllPortsAreDistinct(k, ids[..n]);
      InPorts(k, ids[n], Port(ids[n], In));
      forall p | p in PortsOfAll(k, ids[..n]) ensures p !in PortsOf(k, ids[n]) {
        InAllPorts(k, ids[..n], p);
        InPorts(k, ids[n], p);
      }
      DistinctConcat(PortsOfAll(k, ids[..n]), PortsOf(k, ids[n]));
    }
  }

  lemma InLimPorts(k: Key, p: Port)
    ensures p in LimPort(k, LeftEar) || p in LimPort(k, RightEar)
       <==> p.node == Lim && k.limiter != "" && p.name in Numbered(2)
  {
    assert Numbered(2) == [InAt(1), InAt(2)];
  }

  /** The links drive exactly the inputs of the nodes. */
  lemma DrivenAreInputs(k: Key, p: Port)
    ensures p in DrivenPorts(k) <==> IsInput(k, p)
  {
    var tags := TagsOf(k);
    InAllPorts(k, HeadNames(k), p);
    InAllPorts(k, BandNames(tags, LeftEar), p);
    InAllPorts(k, BandNames(tags, RightEar), p);
    InHead(k, p.node);
    InBands(tags, LeftEar, p.node);
    InBands(tags, RightEar, p.node);
    InLimPorts(k, p);
    hide PortsOfAll, HeadNames, BandNames, LimPort, TagsOf, Numbered, Speakers, HIGHS, BassPath, Kemar, BassChannels,
      SeatedChannels, DownmixChannels;
    assert p in DrivenPorts(k)
      <==> p in PortsOfAll(k, HeadNames(k)) || p in PortsOfAll(k, BandNames(tags, LeftEar))
           || p in PortsOfAll(k, BandNames(tags, RightEar)) || p in LimPort(k, LeftEar) || p in LimPort(k, RightEar);
    hide DrivenPorts;
    BothEars(p.node);
  }

  lemma DrivenAreDistinct(k: Key)
    ensures Distinct(DrivenPorts(k))
  {
    var tags := TagsOf(k);
    HeadIsDistinct(k);
    TagsAreDistinct(|k.correction|);
    var h, l, r := HeadNames(k), BandNames(tags, LeftEar), BandNames(tags, RightEar);
    assert Distinct(l) && Distinct(r);
    AllPortsAreDistinct(k, h);
    AllPortsAreDistinct(k, l);
    AllPortsAreDistinct(k, r);
    forall p: Port ensures p in PortsOfAll(k, h) ==> !p.node.Band? && !p.node.Lim?
                   ensures p in PortsOfAll(k, l) ==> p.node.Band? && p.node.ear == LeftEar
                   ensures p in PortsOfAll(k, r) ==> p.node.Band? && p.node.ear == RightEar
    {
      InAllPorts(k, h, p);
      InAllPorts(k, l, p);
      InAllPorts(k, r, p);
      InHead(k, p.node);
      InBands(tags, LeftEar, p.node);
      InBands(tags, RightEar, p.node);
      hide PortsOfAll, HeadNames, BandNames, InputsOf, Exists;
    }
    LimPortsAre(k);
    hide *;
    var ll, lr := LimPort(k, LeftEar), LimPort(k, RightEar);
    DistinctConcat(PortsOfAll(k, h), PortsOfAll(k, l));
    DistinctConcat(PortsOfAll(k, h) + PortsOfAll(k, l), ll);
    DistinctConcat(PortsOfAll(k, h) + PortsOfAll(k, l) + ll, PortsOfAll(k, r));
    DistinctConcat(PortsOfAll(k, h) + PortsOfAll(k, l) + ll + PortsOfAll(k, r), lr);
    DrivenPortsAre(k);
  }

  lemma DrivenPortsAre(k: Key)
    ensures DrivenPorts(k) == PortsOfAll(k, HeadNames(k))
                              + PortsOfAll(k, BandNames(TagsOf(k), LeftEar)) + LimPort(k, LeftEar)
                              + PortsOfAll(k, BandNames(TagsOf(k), RightEar)) + LimPort(k, RightEar)
  {
    hide PortsOfAll, HeadNames, BandNames, LimPort, TagsOf;
  }

  lemma LimPortsAre(k: Key)
    ensures forall p: Port | p in LimPort(k, LeftEar) :: p.node.Lim? && p.name == InAt(1)
    ensures forall p: Port | p in LimPort(k, RightEar) :: p.node.Lim? && p.name == InAt(2)
    ensures Distinct(LimPort(k, LeftEar)) && Distinct(LimPort(k, RightEar))
  {
  }

  // ---------- what a well-formed graph is ----------

  predicate HasInput(node: Node, name: PortName) {
    match node.kind
    case Builtin(_) => name == In
    case Mixer => name.InAt? && 1 <= name.i <= |node.settings|
    case Spatializer(_) => name == In
    case Limiter(_) => name == InAt(1) || name == InAt(2)
  }

  predicate HasOutput(node: Node, name: PortName) {
    if node.kind.Builtin? || node.kind.Mixer? then name == Out else name.OutAt?
  }

  ghost predicate IsInputOf(g: Graph, p: Port) {
    exists node | node in g.nodes :: node.id == p.node && HasInput(node, p.name)
  }

  ghost predicate IsOutputOf(g: Graph, p: Port) {
    exists node | node in g.nodes :: node.id == p.node && HasOutput(node, p.name)
  }

  /** All that drives an input: what comes from outside, and the links. */
  function Driven(g: Graph): seq<Port> {
    g.inputs + seq(|g.links|, i requires 0 <= i < |g.links| => g.links[i].input)
  }

  function Ids(g: Graph): seq<NodeId> {
    seq(|g.nodes|, i requires 0 <= i < |g.nodes| => g.nodes[i].id)
  }

  ghost predicate IsPath(g: Graph, path: seq<NodeId>) {
    forall i | 0 < i < |path| :: Linked(g, path[i - 1], path[i])
  }

  ghost predicate Linked(g: Graph, from: NodeId, to: NodeId) {
    exists l | l in g.links :: l.output.node == from && l.input.node == to
  }

  ghost predicate ReachedFromInputs(g: Graph, id: NodeId) {
    exists path: seq<NodeId> ::
      path != [] && IsPath(g, path) && Port(path[0], In) in g.inputs && path[|path| - 1] == id
  }

  // ---------- the drivers ----------

  function Rank(k: Key, id: NodeId): nat {
    match id
    case Pre(_) => 0
    case Xl(_) => 1
    case Xm(_) => 2
    case Sc(_, i) => 1 + i
    case Sp(_) => 1 + |HIGHS|
    case Bass => 1
    case Lp(i) => 2 + i
    case Hrtf(_) => 2 + |HIGHS|
    case Dm(_) => 1
    case Mix(_) => 3 + |HIGHS|
    case Band(tag, _) => 4 + |HIGHS| + Position(tag, |k.correction|)
    case Lim => 4 + |HIGHS| + 19 + |k.correction|
  }

  lemma BandDriver(k: Key, tag: Tag, ear: Ear)
    requires tag in TagsOf(k)
    ensures Exists(k, Before(k, tag, ear)) && Rank(k, Before(k, tag, ear)) < Rank(k, Band(tag, ear))
    ensures Before(k, tag, ear).Band? || Before(k, tag, ear) == Head(k, ear)
  {
    hide HIGHS, Tags, Position;
    var p :| 0 <= p < |TagsOf(k)| && TagsOf(k)[p] == tag;
    TagPosition(|k.correction|, p);
    if p > 0 {
      TagPosition(|k.correction|, p - 1);
    }
  }

  lemma LastBand(k: Key)
    ensures Loudness in TagsOf(k)
  {
    assert TagsOf(k)[18 + |k.correction|] == Loudness;
  }

  lemma ChannelsExist(k: Key)
    requires k.spatial
    ensures L in Speakers(k) && R in Speakers(k)
    ensures forall ch | ch in SeatedChannels(k) :: ch in Speakers(k) && Seated(ch)
    ensures BassPath(k) ==> forall ch | ch in BassChannels(k) :: ch in Speakers(k)
    ensures k.surround ==> forall ear, ch | ch in DownmixChannels(ear) :: ch in Speakers(k)
  {
  }

  lemma NumberedName(name: PortName, count: nat)
    ensures name in Numbered(count) <==> name.InAt? && 1 <= name.i <= count
  {
    if name.InAt? && 1 <= name.i <= count {
      assert Numbered(count)[name.i - 1] == name;
    }
  }

  /** What drives an input is there, and comes before it. */
  lemma DriverExists(k: Key, p: Port)
    requires IsInput(k, p)
    ensures Exists(k, Driver(k, p).node) && Rank(k, Driver(k, p).node) < Rank(k, p.node)
  {
    if k.spatial {
      ChannelsExist(k);
    }
    NumberedName(p.name, |InputsOf(k, p.node)|);
    LastBand(k);
    if p.node.Band? {
      BandDriver(k, p.node.tag, p.node.ear);
    }
    hide HIGHS, TagsOf, Before, BassPath, BassChannels, SeatedChannels, DownmixChannels, Numbered, Speakers;
    match p.node case Pre(_) => case Xl(_) => case Xm(_) => case Sc(_, _) => case Sp(_) => case Bass => case Lp(_) =>
    case Hrtf(_) => case Dm(_) => case Mix(_) => case Band(_, _) => case Lim =>
  }

  // ---------- the graph is well formed ----------

  lemma NodeIsThere(n: Numerics, sink: string, d: string, c: Config, yaw: real, id: NodeId)
    requires Exists(GraphKey(c), id)
    ensures NodeOf(n, c, yaw, id) in GraphOf(n, sink, d, c, yaw).nodes && NodeOf(n, c, yaw, id).id == id
  {
    NamesAre(GraphKey(c), id);
    NodeHasId(n, c, yaw, id);
    hide NodeOf, Names, GraphKey, Exists;
    var names := Names(GraphKey(c));
    var i :| 0 <= i < |names| && names[i] == id;
    assert NodesOf(n, c, yaw, names)[i] == NodeOf(n, c, yaw, id);
  }

  lemma NodeHasId(n: Numerics, c: Config, yaw: real, id: NodeId)
    ensures NodeOf(n, c, yaw, id).id == id
  {
  }

  lemma NodeIsOf(n: Numerics, sink: string, d: string, c: Config, yaw: real, node: Node)
    requires node in GraphOf(n, sink, d, c, yaw).nodes
    ensures Exists(GraphKey(c), node.id) && node == NodeOf(n, c, yaw, node.id)
  {
    hide NodeOf, Names, GraphKey, Exists;
    var names := Names(GraphKey(c));
    var i :| 0 <= i < |names| && NodesOf(n, c, yaw, names)[i] == node;
    NamesAre(GraphKey(c), names[i]);
    NodeHasId(n, c, yaw, names[i]);
  }

  lemma InputsMatch(n: Numerics, c: Config, yaw: real, id: NodeId, name: PortName)
    ensures HasInput(NodeOf(n, c, yaw, id), name) <==> name in InputsOf(GraphKey(c), id) || (id.Pre? && name == In)
    ensures NodeOf(n, c, yaw, id).kind.Mixer? ==> |NodeOf(n, c, yaw, id).settings| <= 8
  {
    NumberedName(name, |InputsOf(GraphKey(c), id)|);
    hide HIGHS, High, HeadroomDb, InEffect, Num, Clean, Azimuth, MixGains, Numbered, GraphKey, Downmix;
    match id case Pre(_) => case Xl(_) => case Xm(_) => case Sc(_, _) => case Sp(_) => case Bass => case Lp(_) =>
    case Hrtf(_) => case Dm(_) => case Mix(_) => case Band(_, _) => case Lim =>
  }

  lemma OutputKind(n: Numerics, c: Config, yaw: real, id: NodeId, name: PortName)
    ensures HasOutput(NodeOf(n, c, yaw, id), name) <==> if id.Sp? || id.Lim? then name.OutAt? else name == Out
  {
    hide HIGHS, High, HeadroomDb, InEffect, Num, Clean, Azimuth, MixGains, GraphKey, Downmix, BassChannels,
        SeatedChannels, DownmixChannels;
    match id case Pre(_) => case Xl(_) => case Xm(_) => case Sc(_, _) => case Sp(_) => case Bass => case Lp(_) =>
    case Hrtf(_) => case Dm(_) => case Mix(_) => case Band(_, _) => case Lim =>
  }

  lemma DriverIsOutput(n: Numerics, c: Config, yaw: real, p: Port)
    requires IsInput(GraphKey(c), p)
    ensures HasOutput(NodeOf(n, c, yaw, Driver(GraphKey(c), p).node), Driver(GraphKey(c), p).name)
  {
    var k := GraphKey(c);
    OutputKind(n, c, yaw, Driver(k, p).node, Driver(k, p).name);
    hide HIGHS, NodeOf, HasOutput, GraphKey, Exists, InputsOf, BassPath, TagsOf, BassChannels, SeatedChannels,
        DownmixChannels, ChannelAt;
    match p.node case Pre(_) => case Xl(_) => case Xm(_) => case Sc(_, _) => case Sp(_) => case Bass => case Lp(_) =>
    case Hrtf(_) => case Dm(_) => case Mix(_) => case Lim =>
    case Band(_, ear) => HeadIsPlain(k, ear);
  }

  lemma HeadIsPlain(k: Key, ear: Ear)
    ensures Head(k, ear).Mix? || Head(k, ear).Xm?
  {
  }

  ghost predicate WellFormed(g: Graph, rank: NodeId -> nat) {
    && Distinct(Ids(g)) && Distinct(Driven(g))
    && (forall p: Port :: p in Driven(g) <==> IsInputOf(g, p))
    && (forall l | l in g.links :: IsOutputOf(g, l.output) && rank(l.output.node) < rank(l.input.node))
    && |g.outputs| == 2 && (forall p | p in g.outputs :: IsOutputOf(g, p))
    && (forall node | node in g.nodes && node.kind.Mixer? :: |node.settings| <= 8)
  }

  function RankIn(k: Key): NodeId -> nat { id => Rank(k, id) }

  /** For every config: no name twice, every input of every node driven exactly once and by an output that is there,
      links only from lower to higher rank, no mixer with more inputs than PipeWire's takes. */
  lemma GraphIsWellFormed(n: Numerics, sink: string, d: string, c: Config, yaw: real)
    ensures WellFormed(GraphOf(n, sink, d, c, yaw), RankIn(GraphKey(c)))
  {
    var g, k := GraphOf(n, sink, d, c, yaw), GraphKey(c);
    assert Ids(g) == Names(k) by { IdsAreNames(n, sink, d, c, yaw); }
    NamesAreDistinct(k);
    DrivenIs(n, sink, d, c, yaw);
    forall p: Port ensures p in Driven(g) <==> IsInputOf(g, p) {
      DrivenIsInput(n, sink, d, c, yaw, p);
    }
    forall l | l in g.links ensures IsOutputOf(g, l.output) && Rank(k, l.output.node) < Rank(k, l.input.node) {
      LinkIsFromOutput(n, sink, d, c, yaw, l);
    }
    forall p | p in g.outputs ensures IsOutputOf(g, p) {
      OutputIsThere(n, sink, d, c, yaw, p);
    }
    forall node | node in g.nodes && node.kind.Mixer? ensures |node.settings| <= 8 {
      NodeIsOf(n, sink, d, c, yaw, node);
      InputsMatch(n, c, yaw, node.id, In);
    }
    hide GraphKey, Names, NodesOf, LinksTo, DrivenPorts, GraphInputs, Rank, Clean, IsInputOf, IsOutputOf, Driven;
  }

  lemma IdsAreNames(n: Numerics, sink: string, d: string, c: Config, yaw: real)
    ensures Ids(GraphOf(n, sink, d, c, yaw)) == Names(GraphKey(c))
  {
    hide NodeOf, Names, GraphKey;
    var names := Names(GraphKey(c));
    forall i | 0 <= i < |names| ensures Ids(GraphOf(n, sink, d, c, yaw))[i] == names[i] {
      NodeHasId(n, c, yaw, names[i]);
    }
  }

  lemma GraphInputsAreDistinct(k: Key)
    ensures Distinct(GraphInputs(k))
  {
  }

  lemma DrivenIs(n: Numerics, sink: string, d: string, c: Config, yaw: real)
    ensures Driven(GraphOf(n, sink, d, c, yaw)) == GraphInputs(GraphKey(c)) + DrivenPorts(GraphKey(c))
    ensures Distinct(Driven(GraphOf(n, sink, d, c, yaw)))
  {
    var k := GraphKey(c);
    hide GraphInputs, DrivenPorts, GraphKey, Driver, NodesOf;
    assert Driven(GraphOf(n, sink, d, c, yaw)) == GraphInputs(k) + DrivenPorts(k);
    hide Driven, GraphOf;
    GraphInputsAreDistinct(k);
    DrivenAreDistinct(k);
    forall p | p in GraphInputs(k) ensures p !in DrivenPorts(k) {
      InGraphInputs(k, p);
      DrivenAreInputs(k, p);
    }
    DistinctConcat(GraphInputs(k), DrivenPorts(k));
  }

  lemma InGraphInputs(k: Key, p: Port)
    ensures p in GraphInputs(k) <==> p.node.Pre? && p.node.channel in Speakers(k) && p.name == In
  {
    hide Speakers;
    if p.node.Pre? && p.node.channel in Speakers(k) && p.name == In {
      var i :| 0 <= i < |Speakers(k)| && Speakers(k)[i] == p.node.channel;
      assert GraphInputs(k)[i] == p;
    }
  }

  lemma DrivenIsInput(n: Numerics, sink: string, d: string, c: Config, yaw: real, p: Port)
    ensures p in Driven(GraphOf(n, sink, d, c, yaw)) <==> IsInputOf(GraphOf(n, sink, d, c, yaw), p)
  {
    var g, k := GraphOf(n, sink, d, c, yaw), GraphKey(c);
    DrivenIs(n, sink, d, c, yaw);
    DrivenAreInputs(k, p);
    InGraphInputs(k, p);
    InputsMatch(n, c, yaw, p.node, p.name);
    hide GraphKey, GraphInputs, DrivenPorts, NodeOf, InputsOf, HasInput, GraphOf, Driven, Speakers;
    if IsInputOf(g, p) {
      var node :| node in g.nodes && node.id == p.node && HasInput(node, p.name);
      NodeIsOf(n, sink, d, c, yaw, node);
    }
    if p in Driven(g) {
      NodeIsThere(n, sink, d, c, yaw, p.node);
    }
  }

  lemma LinkIsFromOutput(n: Numerics, sink: string, d: string, c: Config, yaw: real, l: Link)
    requires l in GraphOf(n, sink, d, c, yaw).links
    ensures IsOutputOf(GraphOf(n, sink, d, c, yaw), l.output)
    ensures Rank(GraphKey(c), l.output.node) < Rank(GraphKey(c), l.input.node)
    ensures IsInput(GraphKey(c), l.input) && l.output == Driver(GraphKey(c), l.input)
  {
    var k := GraphKey(c);
    hide NodesOf, GraphKey, GraphInputs, Driver, DrivenPorts, NodeOf;
    var i :| 0 <= i < |DrivenPorts(k)| && l == LinksTo(k, DrivenPorts(k))[i];
    hide LinksTo, GraphOf, Exists, Rank, HasOutput, InputsOf;
    DrivenAreInputs(k, l.input);
    DriverExists(k, l.input);
    DriverIsOutput(n, c, yaw, l.input);
    NodeIsThere(n, sink, d, c, yaw, l.output.node);
  }

  lemma OutputIsThere(n: Numerics, sink: string, d: string, c: Config, yaw: real, p: Port)
    requires p in GraphOf(n, sink, d, c, yaw).outputs
    ensures IsOutputOf(GraphOf(n, sink, d, c, yaw), p) && Exists(GraphKey(c), p.node)
  {
    var k := GraphKey(c);
    LastBand(k);
    hide NodesOf, GraphInputs, LinksTo, Names, TagsOf;
    OutputsAre(n, c, yaw, p);
    hide NodeOf, HasOutput;
    NodeIsThere(n, sink, d, c, yaw, p.node);
  }

  lemma OutputsAre(n: Numerics, c: Config, yaw: real, p: Port)
    requires p == EarOutput(GraphKey(c), LeftEar) || p == EarOutput(GraphKey(c), RightEar)
    ensures HasOutput(NodeOf(n, c, yaw, p.node), p.name)
  {
    hide InEffect, Clean, Num;
  }

  // ---------- no cycle, and everything is reached ----------

  lemma {:induction false} PathsClimb(g: Graph, rank: NodeId -> nat, path: seq<NodeId>)
    requires WellFormed(g, rank) && IsPath(g, path) && |path| >= 2
    ensures rank(path[0]) < rank(path[|path| - 1])
    decreases |path|
  {
    var n := |path| - 1;
    assert Linked(g, path[n - 1], path[n]);
    if n >= 2 {
      assert IsPath(g, path[..n]);
      PathsClimb(g, rank, path[..n]);
    }
  }

  /** No node feeds itself, directly or through others. */
  lemma NoCycle(n: Numerics, sink: string, d: string, c: Config, yaw: real, path: seq<NodeId>)
    requires IsPath(GraphOf(n, sink, d, c, yaw), path) && |path| >= 2
    ensures path[0] != path[|path| - 1]
  {
    GraphIsWellFormed(n, sink, d, c, yaw);
    hide GraphOf, WellFormed, RankIn, GraphKey;
    PathsClimb(GraphOf(n, sink, d, c, yaw), RankIn(GraphKey(c)), path);
  }

  /** The sound that comes in reaches every node, so each ear's output too. */
  lemma {:induction false} EveryNodeIsReached(n: Numerics, sink: string, d: string, c: Config, yaw: real, id: NodeId)
    requires Exists(GraphKey(c), id)
    ensures ReachedFromInputs(GraphOf(n, sink, d, c, yaw), id)
    decreases Rank(GraphKey(c), id)
  {
    hide *;
    var k := GraphKey(c);
    if id.Pre? {
      InputsAreReached(n, sink, d, c, yaw, id);
    } else {
      var p := FirstInput(k, id);
      DriverExists(k, p);
      LinkIsThere(n, sink, d, c, yaw, p);
      EveryNodeIsReached(n, sink, d, c, yaw, Driver(k, p).node);
      ReachedOneMore(GraphOf(n, sink, d, c, yaw), Driver(k, p).node, id);
    }
  }

  lemma InputsAreReached(n: Numerics, sink: string, d: string, c: Config, yaw: real, id: NodeId)
    requires Exists(GraphKey(c), id) && id.Pre?
    ensures ReachedFromInputs(GraphOf(n, sink, d, c, yaw), id)
  {
    var g := GraphOf(n, sink, d, c, yaw);
    InGraphInputs(GraphKey(c), Port(id, In));
    assert g.inputs == GraphInputs(GraphKey(c));
    hide *;
    ReachedAtOnce(g, id);
  }

  lemma ReachedAtOnce(g: Graph, id: NodeId)
    requires Port(id, In) in g.inputs
    ensures ReachedFromInputs(g, id)
  {
    var path := [id];
    assert IsPath(g, path) && path[|path| - 1] == id;
  }

  lemma ReachedOneMore(g: Graph, from: NodeId, to: NodeId)
    requires ReachedFromInputs(g, from) && Linked(g, from, to)
    ensures ReachedFromInputs(g, to)
  {
    var path: seq<NodeId> :| path != [] && IsPath(g, path) && Port(path[0], In) in g.inputs && path[|path| - 1] == from;
    hide Linked;
    var longer := path + [to];
    forall i | 0 < i < |longer| ensures Linked(g, longer[i - 1], longer[i]) {
      if i < |path| {
        assert longer[i - 1] == path[i - 1] && longer[i] == path[i];
      }
    }
    assert longer[|longer| - 1] == to;
  }

  lemma LinkIsThere(n: Numerics, sink: string, d: string, c: Config, yaw: real, p: Port)
    requires IsInput(GraphKey(c), p)
    ensures Link(Driver(GraphKey(c), p), p) in GraphOf(n, sink, d, c, yaw).links
    ensures Linked(GraphOf(n, sink, d, c, yaw), Driver(GraphKey(c), p).node, p.node)
  {
    var k := GraphKey(c);
    DrivenAreInputs(k, p);
    hide DrivenPorts, Driver, GraphKey, NodesOf, GraphInputs, IsInput;
    var i :| 0 <= i < |DrivenPorts(k)| && DrivenPorts(k)[i] == p;
    assert LinksTo(k, DrivenPorts(k))[i] == Link(Driver(k, p), p);
  }

  function FirstInput(k: Key, id: NodeId): (p: Port)
    requires Exists(k, id) && !id.Pre?
    ensures IsInput(k, p) && p.node == id
  {
    assert !(id.Bass? || id.Hrtf? || id.Dm? || id.Xm? || id.Mix? || id.Lim?) ==> In in InputsOf(k, id);
    assert (id.Bass? || id.Hrtf? || id.Dm? || id.Xm? || id.Mix? || id.Lim?) ==> InAt(1) in InputsOf(k, id) by {
      NumberedName(InAt(1), |InputsOf(k, id)|);
    }
    Port(id, if In in InputsOf(k, id) then In else InAt(1))
  }

  lemma EarsAreReached(n: Numerics, sink: string, d: string, c: Config, yaw: real, p: Port)
    requires p in GraphOf(n, sink, d, c, yaw).outputs
    ensures ReachedFromInputs(GraphOf(n, sink, d, c, yaw), p.node)
  {
    OutputIsThere(n, sink, d, c, yaw, p);
    EveryNodeIsReached(n, sink, d, c, yaw, p.node);
  }
}
