/** The node and link graph the effects of a pair of headphones are compiled to. `NodeOf` and `Driver` say what each
    node is and what feeds each of its inputs; `BuildConfig` puts the graph together as a text would list it. */
module EffectGraph {
  import opened Effects

  // ---------- graphs ----------

  datatype Channel = L | R | C | LFE | RL | RR | SL | SR

  datatype NodeId =
    | Pre(channel: Channel)               // the pre-gain
    | Xl(ear: Ear)                        // crossfeed low-pass
    | Xm(ear: Ear)                        // crossfeed mixer
    | Sc(channel: Channel, i: nat)        // speaker compensation
    | Sp(channel: Channel)                // spatializer
    | Bass
    | Lp(i: nat)
    | Hrtf(ear: Ear)
    | Dm(ear: Ear)                        // downmix
    | Mix(ear: Ear)
    | Band(tag: Tag, ear: Ear)            // a filter of the ear
    | Lim

  datatype PortName = In | InAt(i: nat) | Out | OutAt(ear: Ear)

  datatype Port = Port(node: NodeId, name: PortName)

  datatype Link = Link(output: Port, input: Port)

  datatype Control = Freq | Q | Gain | GainAt(i: nat) | AzimuthOf | Elevation | Radius | InputGain | Limit | ReleaseTime

  datatype Setting = Setting(control: Control, value: real)

  datatype Kind = Builtin(filter: FilterType) | Mixer | Spatializer(file: string) | Limiter(plugin: string)

  datatype Node = Node(id: NodeId, kind: Kind, settings: seq<Setting>)

  datatype Graph = Graph(
    sink: string,
    description: string,
    nodes: seq<Node>,
    links: seq<Link>,
    inputs: seq<Port>,
    outputs: seq<Port>,
    positions: seq<Channel>
  )

  // ---------- speakers ----------

  const STEREO := [L, R]
  const SURROUND := [L, R, C, LFE, RL, RR, SL, SR]
  const SPEAKER_GAIN := 0.7
  const HALF_ROOT := 0.70710678118654757

  function Base(ch: Channel): real {
    match ch
    case L => 30.0
    case R => -30.0
    case C => 0.0
    case LFE => 0.0
    case RL => 135.0
    case RR => -135.0
    case SL => 90.0
    case SR => -90.0
  }

  /** ITU downmix of a channel into an ear. */
  function Downmix(ch: Channel, ear: Ear): real {
    if ch == LFE then 0.0
    else if Base(ch) == 0.0 then HALF_ROOT
    else if (Base(ch) > 0.0) != (ear == LeftEar) then 0.0
    else if ch == L || ch == R then 1.0 else HALF_ROOT
  }

  function Own(ear: Ear): Channel { if ear == LeftEar then L else R }

  function Opposite(ear: Ear): Ear { if ear == LeftEar then RightEar else LeftEar }

  // ---------- what decides the graph's shape ----------

  /** As long as this stays, the running graph is updated, not replaced. */
  datatype Key = Key(spatial: bool, surround: bool, correction: seq<Biquad>, sofa: string, limiter: string)

  function GraphKey(c: Config): Key {
    Key(Spatial(c), c.surround, c.correction, if DefaultSofa(c.sofa) then "" else c.sofa, c.limiter)
  }

  predicate Kemar(k: Key) { k.sofa == "" }

  predicate BassPath(k: Key) { k.spatial && (Kemar(k) || k.surround) }

  function Speakers(k: Key): seq<Channel> { if k.spatial && k.surround then SURROUND else STEREO }

  predicate Seated(ch: Channel) { ch != LFE }

  function BassChannels(k: Key): seq<Channel> { if Kemar(k) then Speakers(k) else [LFE] }

  function SeatedChannels(k: Key): seq<Channel> {
    if k.spatial && k.surround then [L, R, C, RL, RR, SL, SR] else STEREO
  }

  function DownmixChannels(ear: Ear): seq<Channel> {
    if ear == LeftEar then [L, C, RL, SL] else [R, C, RR, SR]
  }

  // ---------- each node ----------

  const CROSSFEED_LOWPASS := Biquad(LowPass, 700.0, 0.0, 0.5)
  const KEMAR_HIGHPASS := Biquad(HighPass, 250.0, 0.0, 0.71)
  const KEMAR_LOWPASS := Biquad(LowPass, 250.0, 0.0, 0.71)

  /** What a speaker runs through before the spatializer: the crossover twice, then the KEMAR's compensation. */
  const HIGHS: seq<Biquad> := [
    KEMAR_HIGHPASS, KEMAR_HIGHPASS,
    Biquad(LowShelf, 345.0, 14.0, 0.30), Biquad(Peaking, 457.0, 3.4, 1.41), Biquad(Peaking, 1453.0, 10.1, 1.02),
    Biquad(Peaking, 2204.0, -10.5, 4.00), Biquad(Peaking, 4213.0, -7.8, 0.49), Biquad(HighShelf, 4419.0, 4.2, 2.59),
    Biquad(Peaking, 6853.0, 2.7, 3.33), Biquad(Peaking, 8426.0, 6.0, 4.00)]

  function High(i: nat): Biquad { if i < |HIGHS| then HIGHS[i] else KEMAR_HIGHPASS }

  /** Without what would break out of a quoted string. */
  function Clean(raw: string): (r: string)
    ensures forall ch | ch in r :: ch in raw && ch != '"' && ch != '\\' && ch != '\n'
    ensures r == raw <==> '"' !in raw && '\\' !in raw && '\n' !in raw
  {
    if raw == "" then ""
    else
      var n := |raw| - 1;
      Clean(raw[..n]) + if raw[n] != '"' && raw[n] != '\\' && raw[n] != '\n' then [raw[n]] else ""
  }

  /** And all else stays, in its order. */
  lemma {:induction false} CleanPiecewise(a: string, b: string)
    ensures Clean(a + b) == Clean(a) + Clean(b)
  {
    if b == "" {
      assert a + b == a;
    } else {
      var front := b[..|b| - 1];
      assert b == front + [b[|b| - 1]] && a + b == (a + front) + [b[|b| - 1]];
      CleanPiecewise(a, front);
      CleanOne(front, b[|b| - 1]);
      CleanOne(a + front, b[|b| - 1]);
    }
  }

  lemma CleanOne(s: string, ch: char)
    ensures Clean(s + [ch]) == Clean(s) + if ch != '"' && ch != '\\' && ch != '\n' then [ch] else ""
  {
    assert (s + [ch])[..|s|] == s;
  }

  function BiquadNode(id: NodeId, bq: Biquad): Node {
    Node(id, Builtin(bq.kind), [Setting(Freq, Num(bq.freq)), Setting(Q, Num(bq.q)), Setting(Gain, Num(bq.gain))])
  }

  function MixerNode(id: NodeId, gains: seq<real>): Node {
    Node(id, Mixer, seq(|gains|, (i: nat) requires i < |gains| => Setting(GainAt(i + 1), Num(gains[i]))))
  }

  function SpatializerNode(k: Key, ch: Channel, yaw: real): Node {
    Node(Sp(ch), Spatializer(Clean(if Kemar(k) then SOFA_FILE else k.sofa)),
         [Setting(AzimuthOf, Num(Azimuth(Base(ch), yaw))), Setting(Elevation, 0.0), Setting(Radius, 1.0)])
  }

  function LimiterNode(k: Key): Node {
    Node(Lim, Limiter(Clean(k.limiter)), [Setting(InputGain, 0.0), Setting(Limit, Num(-1.0)), Setting(ReleaseTime, 0.10)])
  }

  function PreGain(n: Numerics, c: Config): Biquad { Biquad(HighShelf, 0.0, -HeadroomDb(n, c), 1.0) }

  function CrossfeedGains(n: Numerics, c: Config): seq<real> {
    [1.0, -CrossfeedGain(n, c), CrossfeedGain(n, c)]
  }

  function BassGain(ch: Channel): real { if ch == LFE then 1.0 else 0.5 }

  function BassGains(s: seq<Channel>): seq<real> {
    seq(|s|, i requires 0 <= i < |s| => BassGain(s[i]))
  }

  function DownmixGains(s: seq<Channel>, ear: Ear): seq<real> {
    seq(|s|, i requires 0 <= i < |s| => Downmix(s[i], ear))
  }

  function SpeakerGains(s: seq<Channel>): seq<real> {
    seq(|s|, i requires 0 <= i < |s| => SPEAKER_GAIN)
  }

  function NodeOf(n: Numerics, c: Config, yaw: real, id: NodeId): Node {
    var k := GraphKey(c);
    match id
    case Pre(_) => BiquadNode(id, PreGain(n, c))
    case Xl(_) => BiquadNode(id, CROSSFEED_LOWPASS)
    case Xm(_) => MixerNode(id, CrossfeedGains(n, c))
    case Sc(_, i) => BiquadNode(id, High(i))
    case Sp(ch) => SpatializerNode(k, ch, yaw)
    case Bass => MixerNode(id, BassGains(BassChannels(k)))
    case Lp(_) => BiquadNode(id, KEMAR_LOWPASS)
    case Hrtf(_) => MixerNode(id, SpeakerGains(SeatedChannels(k)))
    case Dm(ear) => MixerNode(id, DownmixGains(DownmixChannels(ear), ear))
    case Mix(_) => MixerNode(id, MixGains(c))
    case Band(tag, ear) => BiquadNode(id, InEffect(n, c, ear, tag))
    case Lim => LimiterNode(k)
  }

  // ---------- which nodes there are, in the order of the text ----------

  function PreNames(s: seq<Channel>): seq<NodeId> { seq(|s|, i requires 0 <= i < |s| => Pre(s[i])) }

  function Compensation(ch: Channel, count: nat): seq<NodeId> { seq(count, (i: nat) => Sc(ch, i)) }

  function ChainNames(k: Key, ch: Channel): seq<NodeId> {
    (if Kemar(k) then Compensation(ch, |HIGHS|) else []) + [Sp(ch)]
  }

  function SpeakerNames(k: Key, s: seq<Channel>): seq<NodeId> {
    if s == [] then []
    else SpeakerNames(k, s[..|s| - 1]) + if Seated(s[|s| - 1]) then ChainNames(k, s[|s| - 1]) else []
  }

  function BassNames(k: Key): seq<NodeId> { if BassPath(k) then [Bass, Lp(0), Lp(1)] else [] }

  function EarNames(k: Key, ear: Ear): seq<NodeId> { [Hrtf(ear)] + (if k.surround then [Dm(ear)] else []) + [Mix(ear)] }

  const STEREO_NAMES := [Xl(LeftEar), Xl(RightEar), Xm(LeftEar), Xm(RightEar)]

  function HeadNames(k: Key): seq<NodeId> {
    if k.spatial then SpeakerNames(k, Speakers(k)) + BassNames(k) + EarNames(k, LeftEar) + EarNames(k, RightEar)
    else STEREO_NAMES
  }

  function BandNames(tags: seq<Tag>, ear: Ear): seq<NodeId> {
    seq(|tags|, i requires 0 <= i < |tags| => Band(tags[i], ear))
  }

  function LimNames(k: Key): seq<NodeId> { if k.limiter != "" then [Lim] else [] }

  function TagsOf(k: Key): seq<Tag> { Tags(|k.correction|) }

  function Names(k: Key): seq<NodeId> {
    PreNames(Speakers(k)) + HeadNames(k) + BandNames(TagsOf(k), LeftEar) + BandNames(TagsOf(k), RightEar) + LimNames(k)
  }

  // ---------- what drives each input ----------

  function Numbered(count: nat): seq<PortName> { seq(count, (i: nat) => InAt(i + 1)) }

  /** The inputs of a node that links drive; the pre-gains are driven from outside, the limiter's inputs come ear by ear. */
  function InputsOf(k: Key, id: NodeId): seq<PortName> {
    match id
    case Pre(_) => []
    case Xl(_) => [In]
    case Xm(_) => Numbered(3)
    case Sc(_, _) => [In]
    case Sp(_) => [In]
    case Bass => Numbered(|BassChannels(k)|)
    case Lp(_) => [In]
    case Hrtf(_) => Numbered(|SeatedChannels(k)|)
    case Dm(ear) => Numbered(|DownmixChannels(ear)|)
    case Mix(_) => Numbered(3)
    case Band(_, _) => [In]
    case Lim => Numbered(2)
  }

  function PortsOf(k: Key, id: NodeId): seq<Port> {
    seq(|InputsOf(k, id)|, i requires 0 <= i < |InputsOf(k, id)| => Port(id, InputsOf(k, id)[i]))
  }

  function PortsOfAll(k: Key, ids: seq<NodeId>): seq<Port> {
    if ids == [] then [] else PortsOfAll(k, ids[..|ids| - 1]) + PortsOf(k, ids[|ids| - 1])
  }

  function LimPort(k: Key, ear: Ear): seq<Port> {
    if k.limiter == "" then [] else [Port(Lim, InAt(if ear == LeftEar then 1 else 2))]
  }

  /** Every input that a link drives, in the order of the text. */
  function DrivenPorts(k: Key): seq<Port> {
    PortsOfAll(k, HeadNames(k))
    + PortsOfAll(k, BandNames(TagsOf(k), LeftEar)) + LimPort(k, LeftEar)
    + PortsOfAll(k, BandNames(TagsOf(k), RightEar)) + LimPort(k, RightEar)
  }

  function Head(k: Key, ear: Ear): NodeId { if k.spatial then Mix(ear) else Xm(ear) }

  function Position(tag: Tag, count: nat): nat {
    match tag
    case Eq(i) => i
    case Tilt(i) => 10 + i
    case Correction(i) => 12 + i
    case Hearing(i) => 12 + count + i
    case Loudness => 18 + count
  }

  /** The node before a filter of an ear. */
  function Before(k: Key, tag: Tag, ear: Ear): NodeId {
    var p := Position(tag, |k.correction|);
    if 0 < p <= |TagsOf(k)| then Band(TagsOf(k)[p - 1], ear) else Head(k, ear)
  }

  function ChannelAt(s: seq<Channel>, i: nat): Channel { if 0 < i <= |s| then s[i - 1] else L }

  /** The output that feeds an input. */
  function Driver(k: Key, p: Port): Port {
    var i := if p.name.InAt? then p.name.i else 0;
    match p.node
    case Pre(ch) => Port(Pre(ch), Out)
    case Xl(ear) => Port(Pre(Own(ear)), Out)
    case Xm(ear) =>
      if i == 1 then Port(Pre(Own(ear)), Out)
      else if i == 2 then Port(Xl(ear), Out)
      else Port(Xl(Opposite(ear)), Out)
    case Sc(ch, j) => if j == 0 then Port(Pre(ch), Out) else Port(Sc(ch, j - 1), Out)
    case Sp(ch) => if Kemar(k) then Port(Sc(ch, |HIGHS| - 1), Out) else Port(Pre(ch), Out)
    case Bass => Port(Pre(ChannelAt(BassChannels(k), i)), Out)
    case Lp(j) => if j == 0 then Port(Bass, Out) else Port(Lp(j - 1), Out)
    case Hrtf(ear) => Port(Sp(ChannelAt(SeatedChannels(k), i)), OutAt(ear))
    case Dm(ear) => Port(Pre(ChannelAt(DownmixChannels(ear), i)), Out)
    case Mix(ear) =>
      if i == 1 then Port(Hrtf(ear), Out)
      else if i == 2 then (if BassPath(k) then Port(Lp(1), Out) else Port(Hrtf(ear), Out))
      else if k.surround then Port(Dm(ear), Out) else Port(Pre(Own(ear)), Out)
    case Band(tag, ear) => Port(Before(k, tag, ear), Out)
    case Lim => Port(Band(Loudness, if i == 1 then LeftEar else RightEar), Out)
  }

  function LinksTo(k: Key, ports: seq<Port>): seq<Link> {
    seq(|ports|, i requires 0 <= i < |ports| => Link(Driver(k, ports[i]), ports[i]))
  }

  function NodesOf(n: Numerics, c: Config, yaw: real, ids: seq<NodeId>): seq<Node> {
    seq(|ids|, i requires 0 <= i < |ids| => NodeOf(n, c, yaw, ids[i]))
  }

  function GraphInputs(k: Key): seq<Port> {
    seq(|Speakers(k)|, i requires 0 <= i < |Speakers(k)| => Port(Pre(Speakers(k)[i]), In))
  }

  function EarOutput(k: Key, ear: Ear): Port {
    if k.limiter == "" then Port(Band(Loudness, ear), Out) else Port(Lim, OutAt(ear))
  }

  /** The whole graph, node by node and input by input. */
  function GraphOf(n: Numerics, sink: string, description: string, c: Config, yaw: real): Graph {
    var k := GraphKey(c);
    Graph(sink, Clean(description), NodesOf(n, c, yaw, Names(k)), LinksTo(k, DrivenPorts(k)), GraphInputs(k),
          [EarOutput(k, LeftEar), EarOutput(k, RightEar)], Speakers(k))
  }
}
