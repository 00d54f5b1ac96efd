/** What the graph does with the sound when the effects are on, with the weights written out: the virtual speakers, the
    bass path, the crossfeed, the downmix, and how they hang together. */
module EffectWeights {
  import opened Effects
  import opened EffectGraph
  import opened EffectShape
  import opened EffectMeaning

  /** The sum of what is at some ports. */
  function Together(v: Signals, ports: seq<Port>, t: nat): real {
    if ports == [] then 0.0 else Together(v, ports[..|ports| - 1], t) + v(ports[|ports| - 1], t)
  }

  // ---------- a mixer puts out the weighted sum of what drives it ----------

  function FedSum(k: Key, v: Signals, id: NodeId, gains: seq<real>, t: nat): real {
    if gains == [] then 0.0
    else
      var i := |gains| - 1;
      FedSum(k, v, id, gains[..i], t) + Num(gains[i]) * v(Driver(k, Port(id, InAt(i + 1))), t)
  }

  lemma {:induction false} MixedIsFed(n: Numerics, rate: real, sink: string, d: string, c: Config, yaw: real, v: Signals,
      id: NodeId, gains: seq<real>, m: nat, t: nat)
    requires rate > 0.0 && Runs(n, rate, GraphOf(n, sink, d, c, yaw), v) && m <= |gains|
    requires Exists(GraphKey(c), id) && InputsOf(GraphKey(c), id) == Numbered(|gains|)
    ensures Mixed(MixerNode(id, gains).settings[..m], v, id, t) == FedSum(GraphKey(c), v, id, gains[..m], t)
    decreases m
  {
    hide Runs, GraphOf, Exists, GraphKey, InputsOf, Numbered, Driver, Num;
    var s := MixerNode(id, gains).settings;
    if m > 0 {
      MixedIsFed(n, rate, sink, d, c, yaw, v, id, gains, m - 1, t);
      assert s[..m][..m - 1] == s[..m - 1] && gains[..m][..m - 1] == gains[..m - 1];
      FedThrough(n, rate, sink, d, c, yaw, v, id, |gains|, m, t);
      assert s[..m][m - 1].value == Num(gains[m - 1]) && gains[..m][m - 1] == gains[m - 1];
    }
  }

  lemma FedThrough(n: Numerics, rate: real, sink: string, d: string, c: Config, yaw: real, v: Signals, id: NodeId, count: nat,
      m: nat, t: nat)
    requires rate > 0.0 && Runs(n, rate, GraphOf(n, sink, d, c, yaw), v) && 0 < m <= count
    requires Exists(GraphKey(c), id) && InputsOf(GraphKey(c), id) == Numbered(count)
    ensures v(Port(id, InAt(m)), t) == v(Driver(GraphKey(c), Port(id, InAt(m))), t)
  {
    NumberedName(InAt(m), count);
    assert IsInput(GraphKey(c), Port(id, InAt(m))) by { hide Runs, GraphOf, Exists, GraphKey, InputsOf, Numbered; }
    hide *;
    RunsLink(n, rate, sink, d, c, yaw, v, Port(id, InAt(m)), t);
  }

  lemma MixerPutsOut(n: Numerics, rate: real, sink: string, d: string, c: Config, yaw: real, v: Signals, id: NodeId,
      gains: seq<real>, t: nat)
    requires rate > 0.0 && Runs(n, rate, GraphOf(n, sink, d, c, yaw), v)
    requires Exists(GraphKey(c), id) && NodeOf(n, c, yaw, id) == MixerNode(id, gains)
    requires InputsOf(GraphKey(c), id) == Numbered(|gains|)
    ensures v(Port(id, Out), t) == FedSum(GraphKey(c), v, id, gains, t)
  {
    hide *;
    MixerRuns(n, rate, sink, d, c, yaw, v, id, gains, t);
    MixedIsFed(n, rate, sink, d, c, yaw, v, id, gains, |gains|, t);
    AllOfIt(id, gains);
  }

  lemma AllOfIt(id: NodeId, gains: seq<real>)
    ensures var s := MixerNode(id, gains).settings; s[..|gains|] == s && gains[..|gains|] == gains
  {
    hide Num;
  }

  /** Equal weights: the weight times the sum. */
  lemma {:induction false} EquallyFed(k: Key, v: Signals, id: NodeId, gains: seq<real>, ports: seq<Port>, g: real, m: nat, t: nat)
    requires |ports| == |gains| && m <= |gains|
    requires forall i | 0 <= i < |gains| :: Num(gains[i]) == g && Driver(k, Port(id, InAt(i + 1))) == ports[i]
    ensures FedSum(k, v, id, gains[..m], t) == g * Together(v, ports[..m], t)
    decreases m
  {
    hide Driver, Num;
    if m > 0 {
      EquallyFed(k, v, id, gains, ports, g, m - 1, t);
      assert gains[..m][..m - 1] == gains[..m - 1] && ports[..m][..m - 1] == ports[..m - 1];
      assert gains[..m][m - 1] == gains[m - 1] && ports[..m][m - 1] == ports[m - 1];
      assert g * Together(v, ports[..m], t) == g * Together(v, ports[..m - 1], t) + g * v(ports[m - 1], t);
    }
  }

  // ---------- the virtual speakers ----------

  /** What the spatializers of the seated speakers put out for an ear: two of them, with 7.1 seven. */
  function SpeakerOutputs(surround: bool, ear: Ear): seq<Port> {
    if surround then
      [Port(Sp(L), OutAt(ear)), Port(Sp(R), OutAt(ear)), Port(Sp(C), OutAt(ear)), Port(Sp(RL), OutAt(ear)),
       Port(Sp(RR), OutAt(ear)), Port(Sp(SL), OutAt(ear)), Port(Sp(SR), OutAt(ear))]
    else [Port(Sp(L), OutAt(ear)), Port(Sp(R), OutAt(ear))]
  }

  /** An ear hears every seated speaker at 0.7. */
  lemma SpeakersAreSummed(n: Numerics, rate: real, sink: string, d: string, c: Config, yaw: real, v: Signals, ear: Ear, t: nat)
    requires rate > 0.0 && Runs(n, rate, GraphOf(n, sink, d, c, yaw), v) && Spatial(c)
    ensures v(Port(Hrtf(ear), Out), t) == 0.7 * Together(v, SpeakerOutputs(c.surround, ear), t)
  {
    hide *;
    var gains, ports := SpeakerGains(SeatedChannels(GraphKey(c))), SpeakerOutputs(c.surround, ear);
    HrtfIs(n, c, yaw, ear);
    MixerPutsOut(n, rate, sink, d, c, yaw, v, Hrtf(ear), gains, t);
    EquallyFed(GraphKey(c), v, Hrtf(ear), gains, ports, 0.7, |gains|, t);
    assert gains[..|gains|] == gains && ports[..|ports|] == ports;
  }

  lemma HrtfIs(n: Numerics, c: Config, yaw: real, ear: Ear)
    requires Spatial(c)
    ensures var k, gains, ports := GraphKey(c), SpeakerGains(SeatedChannels(GraphKey(c))), SpeakerOutputs(c.surround, ear);
            && Exists(k, Hrtf(ear)) && NodeOf(n, c, yaw, Hrtf(ear)) == MixerNode(Hrtf(ear), gains)
            && InputsOf(k, Hrtf(ear)) == Numbered(|gains|) && |ports| == |gains|
            && forall i | 0 <= i < |gains| :: Num(gains[i]) == 0.7 && Driver(k, Port(Hrtf(ear), InAt(i + 1))) == ports[i]
  {
    NumOfHundredths(70);
    hide Num, MixerNode;
  }

  // ---------- the final mixer ----------

  /** With the effects on, an ear's filters start from the virtual speakers, plus the bass path exactly with the KEMAR or
      7.1; the unprocessed input is not heard. */
  lemma EffectsHead(n: Numerics, rate: real, sink: string, d: string, c: Config, yaw: real, v: Signals, ear: Ear, t: nat)
    requires rate > 0.0 && Runs(n, rate, GraphOf(n, sink, d, c, yaw), v) && Spatial(c) && !c.bypass
    ensures v(Port(Head(GraphKey(c), ear), Out), t) == v(Port(Mix(ear), Out), t)
         == v(Port(Hrtf(ear), Out), t) + if DefaultSofa(c.sofa) || c.surround then v(Port(Lp(1), Out), t) else 0.0
  {
    hide *;
    MixIs(n, c, yaw, ear);
    ThreeRun(n, rate, sink, d, c, yaw, v, Mix(ear), MixGains(c), t);
  }

  lemma MixIs(n: Numerics, c: Config, yaw: real, ear: Ear)
    requires Spatial(c) && !c.bypass
    ensures var k, gains := GraphKey(c), MixGains(c);
            && Head(k, ear) == Mix(ear) && Exists(k, Mix(ear)) && NodeOf(n, c, yaw, Mix(ear)) == MixerNode(Mix(ear), gains)
            && |gains| == 3 && Num(gains[0]) == 1.0 && Num(gains[2]) == 0.0
            && Num(gains[1]) == (if DefaultSofa(c.sofa) || c.surround then 1.0 else 0.0)
            && Driver(k, Port(Mix(ear), InAt(1))) == Port(Hrtf(ear), Out)
            && (DefaultSofa(c.sofa) || c.surround ==> Driver(k, Port(Mix(ear), InAt(2))) == Port(Lp(1), Out))
  {
    NumOfHundredths(0);
    NumOfHundredths(100);
    hide Num, MixerNode;
  }

  // ---------- the crossfeed ----------

  /** Without spatial audio an ear's filters start from its own channel, plus, with the crossfeed on, its gain times what
      the other channel's low-pass has more than the own one's. */
  lemma CrossfeedHead(n: Numerics, rate: real, sink: string, d: string, c: Config, yaw: real, v: Signals, ear: Ear, t: nat)
    requires rate > 0.0 && Runs(n, rate, GraphOf(n, sink, d, c, yaw), v) && !Spatial(c)
    ensures var other := if ear == LeftEar then RightEar else LeftEar;
            var own := if ear == LeftEar then L else R;
            var g := if c.crossfeed && !c.bypass then Num(n.crossfeedGain) else 0.0;
            v(Port(Head(GraphKey(c), ear), Out), t) == v(Port(Xm(ear), Out), t)
            == v(Port(Pre(own), Out), t) + g * (v(Port(Xl(other), Out), t) - v(Port(Xl(ear), Out), t))
  {
    hide *;
    XmIs(n, c, yaw, ear);
    ThreeRun(n, rate, sink, d, c, yaw, v, Xm(ear), CrossfeedGains(n, c), t);
    var other := if ear == LeftEar then RightEar else LeftEar;
    Difference(Num(CrossfeedGains(n, c)[2]), v(Port(Xl(other), Out), t), v(Port(Xl(ear), Out), t));
  }

  lemma Difference(g: real, x: real, y: real)
    ensures g * (x - y) == -g * y + g * x
  {
  }

  lemma XmIs(n: Numerics, c: Config, yaw: real, ear: Ear)
    requires !Spatial(c)
    ensures var k, gains := GraphKey(c), CrossfeedGains(n, c);
            var g := if c.crossfeed && !c.bypass then Num(n.crossfeedGain) else 0.0;
            && Head(k, ear) == Xm(ear) && Exists(k, Xm(ear)) && NodeOf(n, c, yaw, Xm(ear)) == MixerNode(Xm(ear), gains)
            && |gains| == 3 && Num(gains[0]) == 1.0 && Num(gains[1]) == -g && Num(gains[2]) == g
            && Driver(k, Port(Xm(ear), InAt(1))) == Port(Pre(if ear == LeftEar then L else R), Out)
            && Driver(k, Port(Xm(ear), InAt(2))) == Port(Xl(ear), Out)
            && Driver(k, Port(Xm(ear), InAt(3))) == Port(Xl(if ear == LeftEar then RightEar else LeftEar), Out)
  {
    NumOfHundredths(0);
    NumOfHundredths(100);
    NumIsOdd(CrossfeedGain(n, c));
    hide Num, MixerNode;
  }

  // ---------- the bass path ----------

  /** The LFE whole, every other channel at half. */
  function BassSum(v: Signals, s: seq<Channel>, t: nat): real {
    if s == [] then 0.0
    else
      var ch := s[|s| - 1];
      BassSum(v, s[..|s| - 1], t) + (if ch == LFE then 1.0 else 0.5) * v(Port(Pre(ch), Out), t)
  }

  /** What joins the bass path: with the KEMAR every channel, else the LFE alone. */
  function BassInputs(c: Config): seq<Channel> {
    if !DefaultSofa(c.sofa) then [LFE] else if c.surround then [L, R, C, LFE, RL, RR, SL, SR] else [L, R]
  }

  lemma BassIsTheMean(n: Numerics, rate: real, sink: string, d: string, c: Config, yaw: real, v: Signals, t: nat)
    requires rate > 0.0 && Runs(n, rate, GraphOf(n, sink, d, c, yaw), v)
    requires Spatial(c) && (DefaultSofa(c.sofa) || c.surround)
    ensures v(Port(Bass, Out), t) == BassSum(v, BassInputs(c), t)
  {
    hide *;
    BassIs(n, c, yaw);
    var s := BassInputs(c);
    MixerPutsOut(n, rate, sink, d, c, yaw, v, Bass, BassGains(s), t);
    BassFed(c, v, |s|, t);
    assert BassGains(s)[..|s|] == BassGains(s) && s[..|s|] == s;
  }

  lemma BassIs(n: Numerics, c: Config, yaw: real)
    requires Spatial(c) && (DefaultSofa(c.sofa) || c.surround)
    ensures var k, s := GraphKey(c), BassInputs(c);
            && s == BassChannels(k) && |BassGains(s)| == |s|
            && Exists(k, Bass) && NodeOf(n, c, yaw, Bass) == MixerNode(Bass, BassGains(s)) && InputsOf(k, Bass) == Numbered(|s|)
  {
    hide MixerNode;
  }

  lemma {:induction false} BassFed(c: Config, v: Signals, m: nat, t: nat)
    requires Spatial(c) && (DefaultSofa(c.sofa) || c.surround) && m <= |BassInputs(c)| == |BassGains(BassInputs(c))|
    ensures FedSum(GraphKey(c), v, Bass, BassGains(BassInputs(c))[..m], t) == BassSum(v, BassInputs(c)[..m], t)
    decreases m
  {
    hide *;
    var s, gains := BassInputs(c), BassGains(BassInputs(c));
    if m > 0 {
      BassFed(c, v, m - 1, t);
      BassWeight(c, m);
      FedMore(GraphKey(c), v, Bass, gains, m, t);
      BassMore(v, s, m, t);
    } else {
      NothingFed(GraphKey(c), v, Bass, t);
      assert gains[..0] == [] && s[..0] == [];
    }
  }

  lemma NothingFed(k: Key, v: Signals, id: NodeId, t: nat)
    ensures FedSum(k, v, id, [], t) == 0.0 && BassSum(v, [], t) == 0.0
  {
  }

  lemma FedMore(k: Key, v: Signals, id: NodeId, gains: seq<real>, m: nat, t: nat)
    requires 0 < m <= |gains|
    ensures FedSum(k, v, id, gains[..m], t)
         == FedSum(k, v, id, gains[..m - 1], t) + Num(gains[m - 1]) * v(Driver(k, Port(id, InAt(m))), t)
  {
    hide Num, Driver;
    assert gains[..m][..m - 1] == gains[..m - 1];
  }

  lemma BassMore(v: Signals, s: seq<Channel>, m: nat, t: nat)
    requires 0 < m <= |s|
    ensures BassSum(v, s[..m], t)
         == BassSum(v, s[..m - 1], t) + (if s[m - 1] == LFE then 1.0 else 0.5) * v(Port(Pre(s[m - 1]), Out), t)
  {
    assert s[..m][..m - 1] == s[..m - 1];
  }

  lemma BassWeight(c: Config, m: nat)
    requires Spatial(c) && (DefaultSofa(c.sofa) || c.surround) && 0 < m <= |BassInputs(c)| == |BassGains(BassInputs(c))|
    ensures var ch := BassInputs(c)[m - 1];
            && Num(BassGains(BassInputs(c))[m - 1]) == (if ch == LFE then 1.0 else 0.5)
            && Driver(GraphKey(c), Port(Bass, InAt(m))) == Port(Pre(ch), Out)
  {
    NumOfHundredths(100);
    NumOfHundredths(50);
    hide Num;
  }

  // ---------- the downmix ----------

  function At(v: Signals, ch: Channel, t: nat): real { v(Port(Pre(ch), In), t) }

  /** An ear's share of 7.1 in the A/B comparison: its front whole, the center and its side and rear at 0.71. */
  lemma DownmixIs(v: Signals, ear: Ear, t: nat)
    ensures MixedDown(v, DownmixChannels(ear), ear, t)
         == if ear == LeftEar then At(v, L, t) + 0.71 * (At(v, C, t) + At(v, RL, t) + At(v, SL, t))
            else At(v, R, t) + 0.71 * (At(v, C, t) + At(v, RR, t) + At(v, SR, t))
  {
    var s := DownmixChannels(ear);
    assert s == if ear == LeftEar then [L, C, RL, SL] else [R, C, RR, SR];
    assert s[..4] == s && s[..0] == [] && MixedDown(v, [], ear, t) == 0.0;
    hide *;
    DownmixTexts(s, ear);
    MixedMore(v, s, ear, 1, t);
    MixedMore(v, s, ear, 2, t);
    MixedMore(v, s, ear, 3, t);
    MixedMore(v, s, ear, 4, t);
  }

  lemma MixedMore(v: Signals, s: seq<Channel>, ear: Ear, m: nat, t: nat)
    requires 0 < m <= |s|
    ensures MixedDown(v, s[..m], ear, t)
         == MixedDown(v, s[..m - 1], ear, t) + Num(Downmix(s[m - 1], ear)) * At(v, s[m - 1], t)
  {
    hide Num, Downmix;
    assert s[..m][..m - 1] == s[..m - 1];
  }

  lemma DownmixTexts(s: seq<Channel>, ear: Ear)
    requires s == DownmixChannels(ear)
    ensures Num(Downmix(s[0], ear)) == 1.0
    ensures Num(Downmix(s[1], ear)) == Num(Downmix(s[2], ear)) == Num(Downmix(s[3], ear)) == 0.71
  {
    NumOfHundredths(100);
    assert (HALF_ROOT * 100.0).Floor == 70;
  }

  // ---------- how the parts hang together ----------

  /** `from` puts out what `p` gets. */
  ghost predicate Joined(v: Signals, from: Port, p: Port) {
    forall t: nat :: v(p, t) == v(from, t)
  }

  lemma LinkJoins(n: Numerics, rate: real, sink: string, d: string, c: Config, yaw: real, v: Signals, p: Port)
    requires rate > 0.0 && Runs(n, rate, GraphOf(n, sink, d, c, yaw), v) && IsInput(GraphKey(c), p)
    ensures Joined(v, Driver(GraphKey(c), p), p)
  {
    hide Runs, GraphOf, IsInput, GraphKey, Driver;
    forall t: nat ensures v(p, t) == v(Driver(GraphKey(c), p), t) {
      RunsLink(n, rate, sink, d, c, yaw, v, p, t);
    }
  }

  /** A seated speaker plays its channel; with the KEMAR through the ten filters of its chain, one after the other. */
  lemma SpeakersAreFed(n: Numerics, rate: real, sink: string, d: string, c: Config, yaw: real, v: Signals, ch: Channel, i: nat)
    requires rate > 0.0 && Runs(n, rate, GraphOf(n, sink, d, c, yaw), v) && Spatial(c)
    requires ch == L || ch == R || (c.surround && ch != LFE)
    ensures !DefaultSofa(c.sofa) ==> Joined(v, Port(Pre(ch), Out), Port(Sp(ch), In))
    ensures DefaultSofa(c.sofa) ==> Joined(v, Port(Sc(ch, 9), Out), Port(Sp(ch), In))
    ensures DefaultSofa(c.sofa) && i < 10 ==>
              Joined(v, if i == 0 then Port(Pre(ch), Out) else Port(Sc(ch, i - 1), Out), Port(Sc(ch, i), In))
  {
    hide *;
    SpeakerDrivers(c, ch, i);
    LinkJoins(n, rate, sink, d, c, yaw, v, Port(Sp(ch), In));
    if DefaultSofa(c.sofa) && i < 10 {
      LinkJoins(n, rate, sink, d, c, yaw, v, Port(Sc(ch, i), In));
    }
  }

  lemma SpeakerDrivers(c: Config, ch: Channel, i: nat)
    requires Spatial(c) && (ch == L || ch == R || (c.surround && ch != LFE))
    ensures var k := GraphKey(c);
            && IsInput(k, Port(Sp(ch), In))
            && Driver(k, Port(Sp(ch), In)) == Port(if DefaultSofa(c.sofa) then Sc(ch, 9) else Pre(ch), Out)
            && (DefaultSofa(c.sofa) && i < 10 ==>
                  IsInput(k, Port(Sc(ch, i), In))
                  && Driver(k, Port(Sc(ch, i), In)) == Port(if i == 0 then Pre(ch) else Sc(ch, i - 1), Out))
  {
    assert |HIGHS| == 10;
    SeatIsThere(c, ch);
    hide HIGHS, Speakers;
    assert In in [In];
  }

  lemma SeatIsThere(c: Config, ch: Channel)
    requires Spatial(c) && (ch == L || ch == R || (c.surround && ch != LFE))
    ensures ch in Speakers(GraphKey(c)) && Seated(ch)
  {
    assert L in STEREO && R in STEREO;
    assert SURROUND == [L, R, C, LFE] + [RL, RR, SL, SR];
    match ch case L => case R => case C => case LFE => case RL => case RR => case SL => case SR =>
  }

  /** The bass goes through two low-passes, which have the corner and the quality of the two high-passes each speaker
      begins with: no frequency is left out, none is heard twice. */
  lemma CrossoverMatches(n: Numerics, rate: real, sink: string, d: string, c: Config, yaw: real, v: Signals, ch: Channel, i: nat)
    requires rate > 0.0 && Runs(n, rate, GraphOf(n, sink, d, c, yaw), v)
    requires Spatial(c) && (DefaultSofa(c.sofa) || c.surround) && i < 2
    ensures Joined(v, Port(Bass, Out), Port(Lp(0), In)) && Joined(v, Port(Lp(0), Out), Port(Lp(1), In))
    ensures var low, high := NodeOf(n, c, yaw, Lp(i)), NodeOf(n, c, yaw, Sc(ch, i));
            low.kind == Builtin(LowPass) && high.kind == Builtin(HighPass) && low.settings == high.settings
  {
    hide *;
    CrossoverNodes(n, c, yaw, ch, i);
    BassDrivers(c);
    LinkJoins(n, rate, sink, d, c, yaw, v, Port(Lp(0), In));
    LinkJoins(n, rate, sink, d, c, yaw, v, Port(Lp(1), In));
  }

  lemma CrossoverNodes(n: Numerics, c: Config, yaw: real, ch: Channel, i: nat)
    requires i < 2
    ensures var low, high := NodeOf(n, c, yaw, Lp(i)), NodeOf(n, c, yaw, Sc(ch, i));
            low.kind == Builtin(LowPass) && high.kind == Builtin(HighPass) && low.settings == high.settings
  {
    HighsBegin(i);
    hide Num, High;
  }

  lemma HighsBegin(i: nat)
    requires i < 2
    ensures High(i) == KEMAR_HIGHPASS
  {
    if i == 0 {
      assert High(0) == HIGHS[0] == KEMAR_HIGHPASS;
    } else {
      assert i == 1 && High(1) == HIGHS[1] == KEMAR_HIGHPASS;
    }
  }

  lemma BassDrivers(c: Config)
    requires Spatial(c) && (DefaultSofa(c.sofa) || c.surround)
    ensures var k := GraphKey(c);
            && IsInput(k, Port(Lp(0), In)) && Driver(k, Port(Lp(0), In)) == Port(Bass, Out)
            && IsInput(k, Port(Lp(1), In)) && Driver(k, Port(Lp(1), In)) == Port(Lp(0), Out)
  {
  }

  /** The crossfeed's low-passes get their own channel. */
  lemma LowPassesAreFed(n: Numerics, rate: real, sink: string, d: string, c: Config, yaw: real, v: Signals, ear: Ear)
    requires rate > 0.0 && Runs(n, rate, GraphOf(n, sink, d, c, yaw), v) && !Spatial(c)
    ensures Joined(v, Port(Pre(if ear == LeftEar then L else R), Out), Port(Xl(ear), In))
  {
    hide Runs, GraphOf, Joined;
    LinkJoins(n, rate, sink, d, c, yaw, v, Port(Xl(ear), In));
  }

  /** What comes in goes to the pre-gains channel by channel, and what goes out is, left before right, the end of each
      ear's filters, through the limiter if there is one. */
  lemma EndsAre(n: Numerics, rate: real, sink: string, d: string, c: Config, yaw: real, v: Signals)
    requires rate > 0.0 && Runs(n, rate, GraphOf(n, sink, d, c, yaw), v)
    ensures var g := GraphOf(n, sink, d, c, yaw);
            && g.positions == (if Spatial(c) && c.surround then [L, R, C, LFE, RL, RR, SL, SR] else [L, R])
            && |g.inputs| == |g.positions|
            && (forall i | 0 <= i < |g.positions| :: g.inputs[i] == Port(Pre(g.positions[i]), In))
            && (c.limiter == "" ==> g.outputs == [Port(Band(Loudness, LeftEar), Out), Port(Band(Loudness, RightEar), Out)])
            && (c.limiter != "" ==> g.outputs == [Port(Lim, OutAt(LeftEar)), Port(Lim, OutAt(RightEar))])
    ensures c.limiter != "" ==> Joined(v, Port(Band(Loudness, LeftEar), Out), Port(Lim, InAt(1)))
                                && Joined(v, Port(Band(Loudness, RightEar), Out), Port(Lim, InAt(2)))
  {
    EndPorts(n, sink, d, c, yaw);
    hide *;
    if c.limiter != "" {
      LinkJoins(n, rate, sink, d, c, yaw, v, Port(Lim, InAt(1)));
      LinkJoins(n, rate, sink, d, c, yaw, v, Port(Lim, InAt(2)));
    }
  }

  lemma EndPorts(n: Numerics, sink: string, d: string, c: Config, yaw: real)
    ensures var g, k := GraphOf(n, sink, d, c, yaw), GraphKey(c);
            && g.positions == (if Spatial(c) && c.surround then [L, R, C, LFE, RL, RR, SL, SR] else [L, R])
            && |g.inputs| == |g.positions|
            && (forall i | 0 <= i < |g.positions| :: g.inputs[i] == Port(Pre(g.positions[i]), In))
            && (c.limiter == "" ==> g.outputs == [Port(Band(Loudness, LeftEar), Out), Port(Band(Loudness, RightEar), Out)])
            && (c.limiter != "" ==> g.outputs == [Port(Lim, OutAt(LeftEar)), Port(Lim, OutAt(RightEar))])
            && (c.limiter != "" ==>
                  && IsInput(k, Port(Lim, InAt(1))) && Driver(k, Port(Lim, InAt(1))) == Port(Band(Loudness, LeftEar), Out)
                  && IsInput(k, Port(Lim, InAt(2))) && Driver(k, Port(Lim, InAt(2))) == Port(Band(Loudness, RightEar), Out))
  {
    NumberedName(InAt(1), 2);
    NumberedName(InAt(2), 2);
    hide Numbered, NodesOf, LinksTo, Names, DrivenPorts, Clean;
  }

  // ---------- the filters, as set ----------

  predicate IsSet(node: Node, kind: FilterType, freq: real, q: real, gain: real) {
    node.kind == Builtin(kind) && node.settings == [Setting(Freq, Num(freq)), Setting(Q, Num(q)), Setting(Gain, Num(gain))]
  }

  /** Every filter of an ear has the frequency, quality and gain that were asked for, and 0 dB in the bypass or when what
      it belongs to is off. */
  lemma FiltersAreSet(n: Numerics, c: Config, yaw: real, ear: Ear, i: nat)
    ensures var node := (tag: Tag) => NodeOf(n, c, yaw, Band(tag, ear));
            var on := (gain: real) => if c.bypass then 0.0 else gain;
            var hearing := if ear == LeftEar then c.hearingLeft else c.hearingRight;
            && (i < 10 ==> IsSet(node(Eq(i)), Peaking, [32.0, 64.0, 125.0, 250.0, 500.0, 1000.0, 2000.0, 4000.0, 8000.0, 16000.0][i],
                                 1.41, on(c.eq[i])))
            && IsSet(node(Tilt(0)), LowShelf, 1000.0, 0.4, on(-c.tilt)) && IsSet(node(Tilt(1)), HighShelf, 1000.0, 0.4, on(c.tilt))
            && (i < |c.correction| ==>
                  IsSet(node(Correction(i)), c.correction[i].kind, c.correction[i].freq, c.correction[i].q,
                        if c.corrected then on(c.correction[i].gain) else 0.0))
            && (i < 6 ==> IsSet(node(Hearing(i)), Peaking, [250.0, 500.0, 1000.0, 2000.0, 4000.0, 8000.0][i], 1.41, on(hearing[i])))
            && IsSet(node(Loudness), LowShelf, 140.0, 0.55, if c.loudness then on(n.loudnessDb(c.volume, c.loudnessReference)) else 0.0)
  {
    hide Num;
  }

  /** The pre-gain takes off the peak of the filters that are on, and what the virtual speakers may add: nothing without
      them, more if they turn with the head, much less with a limiter behind, 3 dB more for 7.1. */
  lemma PreGainIsSet(n: Numerics, c: Config, yaw: real, ch: Channel)
    ensures var on := c.(bypass := false);
            var spatial := if !Spatial(c) then 0.0
                           else (if c.limiter != "" then 3.0 else if c.spatial == HeadTracked then 12.2 else 10.4)
                                + if c.surround then 3.0 else 0.0;
            IsSet(NodeOf(n, c, yaw, Pre(ch)), HighShelf, 0.0, 1.0,
                  -(n.peakDb(Filters(n, on, LeftEar), Filters(n, on, RightEar), c.crossfeed && !Spatial(c)) + spatial))
  {
    hide Num, Filters;
  }

  /** The speakers stand as on the ITU circle, turned by the yaw: an angle in 0 to 360 degrees counter-clockwise. */
  lemma SpeakersStand(n: Numerics, c: Config, yaw: real, ch: Channel)
    ensures var base := match ch case L => 30.0 case R => -30.0 case C => 0.0 case LFE => 0.0 case RL => 135.0 case RR => -135.0
                                 case SL => 90.0 case SR => -90.0;
            var node := NodeOf(n, c, yaw, Sp(ch));
            && node.settings == [Setting(AzimuthOf, Num(Azimuth(base, yaw))), Setting(Elevation, 0.0), Setting(Radius, 1.0)]
            && node.kind == Spatializer(Clean(if DefaultSofa(c.sofa) then SOFA_FILE else c.sofa))
  {
    hide Num, Azimuth, Clean;
  }
}
