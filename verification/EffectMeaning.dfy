/** What the graph does to sound: signals are sequences of samples, a biquad is its difference equation from silence,
    a mixer a weighted sum. A spatializer and the limiter may do anything. */
module EffectMeaning {
  import opened Effects
  import opened EffectGraph
  import opened EffectShape

  /** What is at every port at every sample. */
  type Signals = (Port, nat) -> real

  datatype Coefficients = Coefficients(b0: real, b1: real, b2: real, a0: real, a1: real, a2: real)

  /** Of PipeWire's biquad at a sample rate. */
  function CoefficientsOf(n: Numerics, rate: real, kind: FilterType, freq: real, q: real, gain: real): Coefficients
    requires rate > 0.0 && q != 0.0 && n.power(gain / 40.0) != 0.0
  {
    var A := n.power(gain / 40.0);
    Cookbook(kind, A, n.cos(freq / rate), n.sin(freq / rate) / (2.0 * q), n.root(A))
  }

  function Cookbook(kind: FilterType, A: real, k: real, alpha: real, root: real): Coefficients
    requires A != 0.0
  {
    var k2 := 2.0 * root * alpha;
    match kind
    case Peaking => Coefficients(1.0 + alpha * A, -2.0 * k, 1.0 - alpha * A, 1.0 + alpha / A, -2.0 * k, 1.0 - alpha / A)
    case LowShelf =>
      Coefficients(A * ((A + 1.0) - (A - 1.0) * k + k2), 2.0 * A * ((A - 1.0) - (A + 1.0) * k),
                   A * ((A + 1.0) - (A - 1.0) * k - k2), (A + 1.0) + (A - 1.0) * k + k2,
                   -2.0 * ((A - 1.0) + (A + 1.0) * k), (A + 1.0) + (A - 1.0) * k - k2)
    case HighShelf =>
      Coefficients(A * ((A + 1.0) + (A - 1.0) * k + k2), -2.0 * A * ((A - 1.0) + (A + 1.0) * k),
                   A * ((A + 1.0) + (A - 1.0) * k - k2), (A + 1.0) - (A - 1.0) * k + k2,
                   2.0 * ((A - 1.0) - (A + 1.0) * k), (A + 1.0) - (A - 1.0) * k - k2)
    case LowPass => Coefficients((1.0 - k) / 2.0, 1.0 - k, (1.0 - k) / 2.0, 1.0 + alpha, -2.0 * k, 1.0 - alpha)
    case HighPass => Coefficients((1.0 + k) / 2.0, -(1.0 + k), (1.0 + k) / 2.0, 1.0 + alpha, -2.0 * k, 1.0 - alpha)
  }

  /** `k` samples ago; silence before the first. */
  function Ago(v: Signals, p: Port, t: nat, k: nat): real { if k <= t then v(p, t - k) else 0.0 }

  function Weighted(v: Signals, p: Port, t: nat, c0: real, c1: real, c2: real): real {
    c0 * v(p, t) + c1 * Ago(v, p, t, 1) + c2 * Ago(v, p, t, 2)
  }

  ghost predicate Equation(co: Coefficients, v: Signals, x: Port, y: Port) {
    forall t: nat :: Weighted(v, y, t, co.a0, co.a1, co.a2) == Weighted(v, x, t, co.b0, co.b1, co.b2)
  }

  function Mixed(settings: seq<Setting>, v: Signals, id: NodeId, t: nat): real {
    if settings == [] then 0.0
    else
      var i := |settings| - 1;
      Mixed(settings[..i], v, id, t) + settings[i].value * v(Port(id, InAt(i + 1)), t)
  }

  ghost predicate NodeRuns(n: Numerics, rate: real, node: Node, v: Signals)
    requires rate > 0.0
  {
    match node.kind
    case Builtin(kind) =>
      |node.settings| == 3 && node.settings[1].value != 0.0 && n.power(node.settings[2].value / 40.0) != 0.0 ==>
        Equation(CoefficientsOf(n, rate, kind, node.settings[0].value, node.settings[1].value, node.settings[2].value), v,
                Port(node.id, In), Port(node.id, Out))
    case Mixer => forall t: nat :: v(Port(node.id, Out), t) == Mixed(node.settings, v, node.id, t)
    case Spatializer(_) => true
    case Limiter(_) => true
  }

  /** The graph runs: every node does its work and every link carries. */
  ghost predicate Runs(n: Numerics, rate: real, g: Graph, v: Signals)
    requires rate > 0.0
  {
    && (forall node | node in g.nodes :: NodeRuns(n, rate, node, v))
    && (forall l | l in g.links :: Carries(v, l))
  }

  ghost predicate Carries(v: Signals, l: Link) {
    forall t: nat :: v(l.input, t) == v(l.output, t)
  }

  // ---------- single filters ----------

  lemma Cancel(a: real, x: real, y: real)
    requires a != 0.0 && a * x == a * y
    ensures x == y
  {
  }

  /** Equal numerator and denominator: the filter passes everything. */
  lemma {:induction false} EqualSidesPass(co: Coefficients, v: Signals, x: Port, y: Port, t: nat)
    requires Equation(co, v, x, y) && co.b0 == co.a0 != 0.0 && co.b1 == co.a1 && co.b2 == co.a2
    ensures v(y, t) == v(x, t)
    decreases t
  {
    if t >= 1 {
      EqualSidesPass(co, v, x, y, t - 1);
    }
    if t >= 2 {
      EqualSidesPass(co, v, x, y, t - 2);
    }
    assert Weighted(v, y, t, co.a0, co.a1, co.a2) == Weighted(v, x, t, co.b0, co.b1, co.b2);
    assert Ago(v, y, t, 1) == Ago(v, x, t, 1) && Ago(v, y, t, 2) == Ago(v, x, t, 2);
    Cancel(co.a0, v(y, t), v(x, t));
  }

  predicate Pass(kind: FilterType) { kind == LowPass || kind == HighPass }

  lemma PowerOfNothing(n: Numerics)
    requires Sane(n)
    ensures n.power(0.0 / 40.0) == 1.0
  {
    assert 0.0 / 40.0 == 0.0;
  }

  /** 0 dB: peaking and shelf filters have equal sides; the passes do not even let the first sample through. */
  lemma NoGainSides(n: Numerics, rate: real, kind: FilterType, freq: real, q: real)
    requires Sane(n) && 0.0 < freq < rate / 2.0 && q > 0.0 && n.power(0.0 / 40.0) != 0.0
    ensures var co := CoefficientsOf(n, rate, kind, freq, q, 0.0);
            && co.a0 > 0.0
            && (!Pass(kind) ==> co.b0 == co.a0 && co.b1 == co.a1 && co.b2 == co.a2)
            && (Pass(kind) ==> 0.0 <= co.b0 < co.a0)
  {
    PowerOfNothing(n);
    Ratio(freq, rate);
    Quotient(n.sin(freq / rate), 2.0 * q);
    var alpha, k := n.sin(freq / rate) / (2.0 * q), n.cos(freq / rate);
    assert CoefficientsOf(n, rate, kind, freq, q, 0.0) == Cookbook(kind, 1.0, k, alpha, 1.0);
    CookbookAtNoGain(kind, k, alpha);
  }

  lemma CookbookAtNoGain(kind: FilterType, k: real, alpha: real)
    requires alpha > 0.0 && -1.0 <= k <= 1.0
    ensures var co := Cookbook(kind, 1.0, k, alpha, 1.0);
            && co.a0 > 0.0
            && (!Pass(kind) ==> co.b0 == co.a0 && co.b1 == co.a1 && co.b2 == co.a2)
            && (Pass(kind) ==> 0.0 <= co.b0 < co.a0)
  {
    match kind case Peaking => case LowShelf => case HighShelf => case LowPass => case HighPass =>
  }

  lemma Ratio(freq: real, rate: real)
    requires 0.0 < freq < rate / 2.0
    ensures 0.0 < freq / rate < 0.5
  {
    Smaller(freq / rate * rate, freq / rate, rate);
  }

  lemma Smaller(product: real, x: real, rate: real)
    requires rate > 0.0 && product == x * rate && 0.0 < product < rate / 2.0
    ensures 0.0 < x < 0.5
  {
    assert (0.5 - x) * rate == rate / 2.0 - product;
    Positive(0.5 - x, rate);
    Positive(x, rate);
  }

  lemma Positive(x: real, y: real)
    requires y > 0.0 && x * y > 0.0
    ensures x > 0.0
  {
  }

  lemma Quotient(a: real, b: real)
    requires a > 0.0 && b > 0.0
    ensures a / b > 0.0
  {
    assert a / b * b == a;
    Positive(a / b, b);
  }

  /** A high shelf at 0 Hz is the same gain for everything. */
  lemma ShelfAtZero(n: Numerics, rate: real, gain: real)
    requires Sane(n) && rate > 0.0 && n.power(gain / 40.0) != 0.0
    ensures var co, g := CoefficientsOf(n, rate, HighShelf, 0.0, 1.0, gain), n.power(gain / 20.0);
            co == Coefficients(2.0 * g, -4.0 * g, 2.0 * g, 2.0, -4.0, 2.0)
  {
    var A := n.power(gain / 40.0);
    assert PowerAdds(n, gain / 40.0, gain / 40.0);
    assert gain / 40.0 + gain / 40.0 == gain / 20.0;
    assert 0.0 / rate == 0.0;
    assert 0.0 / 2.0 == 0.0;
    var k2 := 2.0 * n.root(A) * 0.0;
    assert k2 == 0.0;
  }

  lemma {:induction false} ShelfAtZeroGains(n: Numerics, g: real, v: Signals, x: Port, y: Port, t: nat)
    requires Equation(Coefficients(2.0 * g, -4.0 * g, 2.0 * g, 2.0, -4.0, 2.0), v, x, y)
    ensures v(y, t) == g * v(x, t)
    decreases t
  {
    if t >= 1 {
      ShelfAtZeroGains(n, g, v, x, y, t - 1);
    }
    if t >= 2 {
      ShelfAtZeroGains(n, g, v, x, y, t - 2);
    }
    assert Weighted(v, y, t, 2.0, -4.0, 2.0) == Weighted(v, x, t, 2.0 * g, -4.0 * g, 2.0 * g);
    assert Ago(v, y, t, 1) == g * Ago(v, x, t, 1) && Ago(v, y, t, 2) == g * Ago(v, x, t, 2);
  }

  /** A filter gives the same for the same: two of them with equal inputs have equal outputs. */
  lemma {:induction false} SameInSameOut(co: Coefficients, v: Signals, x1: Port, y1: Port, x2: Port, y2: Port, t: nat)
    requires Equation(co, v, x1, y1) && Equation(co, v, x2, y2) && co.a0 != 0.0
    requires forall s: nat :: v(x1, s) == v(x2, s)
    ensures v(y1, t) == v(y2, t)
    decreases t
  {
    if t >= 1 {
      SameInSameOut(co, v, x1, y1, x2, y2, t - 1);
    }
    if t >= 2 {
      SameInSameOut(co, v, x1, y1, x2, y2, t - 2);
    }
    assert Weighted(v, y1, t, co.a0, co.a1, co.a2) == Weighted(v, x1, t, co.b0, co.b1, co.b2);
    assert Weighted(v, y2, t, co.a0, co.a1, co.a2) == Weighted(v, x2, t, co.b0, co.b1, co.b2);
    assert Ago(v, y1, t, 1) == Ago(v, y2, t, 1) && Ago(v, y1, t, 2) == Ago(v, y2, t, 2);
    assert Ago(v, x1, t, 1) == Ago(v, x2, t, 1) && Ago(v, x1, t, 2) == Ago(v, x2, t, 2);
    Cancel(co.a0, v(y1, t), v(y2, t));
  }

  // ---------- the nodes and links of a running graph ----------

  lemma RunsNode(n: Numerics, rate: real, sink: string, d: string, c: Config, yaw: real, v: Signals, id: NodeId)
    requires rate > 0.0 && Runs(n, rate, GraphOf(n, sink, d, c, yaw), v) && Exists(GraphKey(c), id)
    ensures NodeRuns(n, rate, NodeOf(n, c, yaw, id), v) && NodeOf(n, c, yaw, id).id == id
  {
    NodeIsThere(n, sink, d, c, yaw, id);
    hide GraphOf, NodeOf, NodeRuns, Exists, GraphKey;
  }

  lemma RunsLink(n: Numerics, rate: real, sink: string, d: string, c: Config, yaw: real, v: Signals, p: Port, t: nat)
    requires rate > 0.0 && Runs(n, rate, GraphOf(n, sink, d, c, yaw), v) && IsInput(GraphKey(c), p)
    ensures v(p, t) == v(Driver(GraphKey(c), p), t)
  {
    LinkIsThere(n, sink, d, c, yaw, p);
    hide GraphOf, NodeRuns, IsInput, GraphKey, Driver;
    assert Carries(v, Link(Driver(GraphKey(c), p), p));
  }

  lemma PowerIsNotZero(n: Numerics, x: real)
    requires Sane(n)
    ensures n.power(x) != 0.0
  {
    assert PowerAdds(n, x, -x) && x + -x == 0.0;
    NotZero(n.power(x), n.power(-x));
  }

  lemma NotZero(a: real, b: real)
    requires a * b == 1.0
    ensures a != 0.0
  {
  }

  lemma BiquadRuns(n: Numerics, rate: real, id: NodeId, bq: Biquad, v: Signals)
    requires Sane(n) && rate > 0.0 && NodeRuns(n, rate, BiquadNode(id, bq), v) && Num(bq.q) != 0.0
    ensures n.power(Num(bq.gain) / 40.0) != 0.0
    ensures Equation(CoefficientsOf(n, rate, bq.kind, Num(bq.freq), Num(bq.q), Num(bq.gain)), v, Port(id, In),
        Port(id, Out))
  {
    PowerIsNotZero(n, Num(bq.gain) / 40.0);
    hide Equation, Num, Sane;
    var node := BiquadNode(id, bq);
    assert node.kind == Builtin(bq.kind) && node.settings[0].value == Num(bq.freq) && node.settings[1].value == Num(bq.q)
      && node.settings[2].value == Num(bq.gain);
  }

  /** What the pre-gain does to its channel. */
  function PreFactor(n: Numerics, c: Config): real { n.power(Num(-HeadroomDb(n, c)) / 20.0) }

  lemma PreGains(n: Numerics, rate: real, sink: string, d: string, c: Config, yaw: real, v: Signals, ch: Channel, t: nat)
    requires Sane(n) && rate > 0.0 && Runs(n, rate, GraphOf(n, sink, d, c, yaw), v) && ch in Speakers(GraphKey(c))
    ensures v(Port(Pre(ch), Out), t) == PreFactor(n, c) * v(Port(Pre(ch), In), t)
  {
    hide *;
    PreGainNode(n, c, yaw, ch);
    RunsNode(n, rate, sink, d, c, yaw, v, Pre(ch));
    var bq := PreGain(n, c);
    BiquadRuns(n, rate, Pre(ch), bq, v);
    ShelfAtZero(n, rate, Num(bq.gain));
    ShelfAtZeroGains(n, PreFactor(n, c), v, Port(Pre(ch), In), Port(Pre(ch), Out), t);
  }

  lemma PreGainNode(n: Numerics, c: Config, yaw: real, ch: Channel)
    ensures ch in Speakers(GraphKey(c)) ==> Exists(GraphKey(c), Pre(ch))
    ensures PreFactor(n, c) == n.power(Num(PreGain(n, c).gain) / 20.0)
    ensures var bq := PreGain(n, c);
            && NodeOf(n, c, yaw, Pre(ch)) == BiquadNode(Pre(ch), bq)
            && bq.kind == HighShelf && Num(bq.q) == 1.0 && Num(bq.freq) == 0.0
  {
    NumOfHundredths(0);
    NumOfHundredths(100);
    hide Num, HeadroomDb, Speakers, GraphKey;
  }

  // ---------- an ear's filters at 0 dB ----------

  /** What a correction file may ask for. */
  predicate InRange(bq: Biquad) { 10.0 <= bq.freq <= 22000.0 && 0.05 <= bq.q <= 20.0 }

  predicate CorrectionInRange(c: Config) { forall bq | bq in c.correction :: InRange(bq) }

  predicate NoPass(c: Config) { forall bq | bq in c.correction :: !Pass(bq.kind) }

  lemma TagInRange(n: Numerics, c: Config, ear: Ear, tag: Tag)
    requires CorrectionInRange(c) && tag in Tags(|c.correction|)
    ensures InRange(InEffect(n, c, ear, tag))
    ensures Pass(InEffect(n, c, ear, tag).kind)
       <==> tag.Correction? && tag.i < |c.correction| && Pass(c.correction[tag.i].kind)
  {
    TagIsOne(|c.correction|, tag);
    hide Tags;
    match tag
    case Eq(i) => assert 10.0 <= EQ_FREQS[i] <= 22000.0;
    case Tilt(_) =>
    case Correction(i) => assert c.correction[i] in c.correction;
    case Hearing(i) => assert 10.0 <= HEARING_FREQS[i] <= 22000.0;
    case Loudness =>
  }

  lemma TagIsOne(count: nat, tag: Tag)
    requires tag in Tags(count)
    ensures match tag
            case Eq(i) => i < 10
            case Tilt(i) => i < 2
            case Correction(i) => i < count
            case Hearing(i) => i < 6
            case Loudness => true
  {
  }

  /** The ear's filter `tag` is set to 0 dB. */
  predicate AtNoGain(n: Numerics, c: Config, ear: Ear, tag: Tag) { Num(InEffect(n, c, ear, tag).gain) == 0.0 }

  predicate AllAtNoGain(n: Numerics, c: Config, ear: Ear) {
    forall tag | tag in Tags(|c.correction|) :: AtNoGain(n, c, ear, tag)
  }

  lemma BypassIsAtNoGain(n: Numerics, c: Config, ear: Ear)
    requires c.bypass
    ensures AllAtNoGain(n, c, ear)
  {
    NumOfHundredths(0);
    hide Num, Tags, Effect;
  }

  /** The setting of a filter at 0 dB, and what its sides are. */
  lemma BandAtNoGain(n: Numerics, rate: real, sink: string, d: string, c: Config, yaw: real, v: Signals, ear: Ear, tag: Tag)
    returns (co: Coefficients)
    requires Sane(n) && rate >= 44100.0 && Runs(n, rate, GraphOf(n, sink, d, c, yaw), v)
    requires CorrectionInRange(c) && tag in TagsOf(GraphKey(c)) && AtNoGain(n, c, ear, tag)
    ensures Equation(co, v, Port(Band(tag, ear), In), Port(Band(tag, ear), Out)) && co.a0 > 0.0
    ensures !Pass(InEffect(n, c, ear, tag).kind) ==> co.b0 == co.a0 && co.b1 == co.a1 && co.b2 == co.a2
    ensures Pass(InEffect(n, c, ear, tag).kind) ==> 0.0 <= co.b0 < co.a0
  {
    hide *;
    var id, bq := Band(tag, ear), InEffect(n, c, ear, tag);
    BandNode(n, c, yaw, ear, tag);
    RunsNode(n, rate, sink, d, c, yaw, v, id);
    BiquadRuns(n, rate, id, bq, v);
    NoGainSides(n, rate, bq.kind, Num(bq.freq), Num(bq.q));
    co := CoefficientsOf(n, rate, bq.kind, Num(bq.freq), Num(bq.q), 0.0);
  }

  lemma BandNode(n: Numerics, c: Config, yaw: real, ear: Ear, tag: Tag)
    requires CorrectionInRange(c) && tag in TagsOf(GraphKey(c)) && AtNoGain(n, c, ear, tag)
    ensures Exists(GraphKey(c), Band(tag, ear))
    ensures var bq := InEffect(n, c, ear, tag);
            && NodeOf(n, c, yaw, Band(tag, ear)) == BiquadNode(Band(tag, ear), bq)
            && 0.0 < Num(bq.freq) < 22050.0 && Num(bq.q) > 0.0 && Num(bq.gain) == 0.0
  {
    TagInRange(n, c, ear, tag);
    NumIsNear(InEffect(n, c, ear, tag).freq);
    NumIsNear(InEffect(n, c, ear, tag).q);
    hide Num, InEffect, Tags;
  }

  /** What comes in to the filter at position `p` of the ear. */
  lemma BandIsFed(n: Numerics, rate: real, sink: string, d: string, c: Config, yaw: real, v: Signals, ear: Ear, p: nat,
      t: nat)
    requires rate > 0.0 && Runs(n, rate, GraphOf(n, sink, d, c, yaw), v)
    requires p < |TagsOf(GraphKey(c))|
    ensures var tags := TagsOf(GraphKey(c));
            v(Port(Band(tags[p], ear), In), t)
            == v(Port(if p == 0 then Head(GraphKey(c), ear) else Band(tags[p - 1], ear), Out), t)
  {
    hide *;
    BandFeed(GraphKey(c), ear, p);
    RunsLink(n, rate, sink, d, c, yaw, v, Port(Band(TagsOf(GraphKey(c))[p], ear), In), t);
  }

  lemma BandFeed(k: Key, ear: Ear, p: nat)
    requires p < |TagsOf(k)|
    ensures IsInput(k, Port(Band(TagsOf(k)[p], ear), In))
    ensures Driver(k, Port(Band(TagsOf(k)[p], ear), In))
         == Port(if p == 0 then Head(k, ear) else Band(TagsOf(k)[p - 1], ear), Out)
  {
    TagPosition(|k.correction|, p);
    hide Tags, Position, Head;
  }

  /** An ear's filters, all at 0 dB and none of them a pass, leave the sound as it is. */
  lemma {:induction false} ChainPasses(n: Numerics, rate: real, sink: string, d: string, c: Config, yaw: real,
      v: Signals, ear: Ear, p: nat, t: nat)
    requires Sane(n) && rate >= 44100.0 && Runs(n, rate, GraphOf(n, sink, d, c, yaw), v)
    requires CorrectionInRange(c) && NoPass(c) && AllAtNoGain(n, c, ear) && p < |TagsOf(GraphKey(c))|
    ensures v(Port(Band(TagsOf(GraphKey(c))[p], ear), Out), t) == v(Port(Head(GraphKey(c), ear), Out), t)
    decreases p
  {
    hide *;
    var tags := TagsOf(GraphKey(c));
    TagIsFlat(n, c, ear, p);
    var co := BandAtNoGain(n, rate, sink, d, c, yaw, v, ear, tags[p]);
    EqualSidesPass(co, v, Port(Band(tags[p], ear), In), Port(Band(tags[p], ear), Out), t);
    BandIsFed(n, rate, sink, d, c, yaw, v, ear, p, t);
    if p > 0 {
      ChainPasses(n, rate, sink, d, c, yaw, v, ear, p - 1, t);
    }
  }

  lemma TagIsFlat(n: Numerics, c: Config, ear: Ear, p: nat)
    requires CorrectionInRange(c) && NoPass(c) && AllAtNoGain(n, c, ear) && p < |TagsOf(GraphKey(c))|
    ensures AtNoGain(n, c, ear, TagsOf(GraphKey(c))[p]) && !Pass(InEffect(n, c, ear, TagsOf(GraphKey(c))[p]).kind)
  {
    TagInRange(n, c, ear, TagsOf(GraphKey(c))[p]);
    hide AtNoGain, InEffect, Tags, Pass;
  }

  // ---------- the head of an ear in the bypass ----------

  lemma MixerRuns(n: Numerics, rate: real, sink: string, d: string, c: Config, yaw: real, v: Signals, id: NodeId,
      gains: seq<real>, t: nat)
    requires rate > 0.0 && Runs(n, rate, GraphOf(n, sink, d, c, yaw), v)
    requires Exists(GraphKey(c), id) && NodeOf(n, c, yaw, id) == MixerNode(id, gains)
    ensures v(Port(id, Out), t) == Mixed(MixerNode(id, gains).settings, v, id, t)
  {
    hide Runs, GraphOf, Exists, GraphKey, NodeOf, Mixed;
    RunsNode(n, rate, sink, d, c, yaw, v, id);
    assert MixerNode(id, gains).kind.Mixer? && MixerNode(id, gains).id == id;
  }

  lemma MixedOfThree(gains: seq<real>, v: Signals, id: NodeId, t: nat)
    requires |gains| == 3
    ensures Mixed(MixerNode(id, gains).settings, v, id, t)
         == Num(gains[0]) * v(Port(id, InAt(1)), t) + Num(gains[1]) * v(Port(id, InAt(2)), t)
            + Num(gains[2]) * v(Port(id, InAt(3)), t)
  {
    hide Num;
    var s := MixerNode(id, gains).settings;
    assert s[..3] == s && s[..3][..2] == s[..2] && s[..2][..1] == s[..1] && s[..1][..0] == [];
    assert Mixed(s[..1], v, id, t) == Num(gains[0]) * v(Port(id, InAt(1)), t);
    assert Mixed(s[..2], v, id, t) == Mixed(s[..1], v, id, t) + Num(gains[1]) * v(Port(id, InAt(2)), t);
  }

  lemma ThreeRun(n: Numerics, rate: real, sink: string, d: string, c: Config, yaw: real, v: Signals, id: NodeId,
      gains: seq<real>, t: nat)
    requires rate > 0.0 && Runs(n, rate, GraphOf(n, sink, d, c, yaw), v)
    requires Exists(GraphKey(c), id) && NodeOf(n, c, yaw, id) == MixerNode(id, gains) && (id.Xm? || id.Mix?) && |gains| == 3
    ensures v(Port(id, Out), t)
         == Num(gains[0]) * v(Driver(GraphKey(c), Port(id, InAt(1))), t)
            + Num(gains[1]) * v(Driver(GraphKey(c), Port(id, InAt(2))), t)
            + Num(gains[2]) * v(Driver(GraphKey(c), Port(id, InAt(3))), t)
  {
    hide *;
    ThreeInputs(GraphKey(c), id);
    MixerRuns(n, rate, sink, d, c, yaw, v, id, gains, t);
    MixedOfThree(gains, v, id, t);
    RunsLink(n, rate, sink, d, c, yaw, v, Port(id, InAt(1)), t);
    RunsLink(n, rate, sink, d, c, yaw, v, Port(id, InAt(2)), t);
    RunsLink(n, rate, sink, d, c, yaw, v, Port(id, InAt(3)), t);
  }

  lemma ThreeInputs(k: Key, id: NodeId)
    requires Exists(k, id) && (id.Xm? || id.Mix?)
    ensures IsInput(k, Port(id, InAt(1))) && IsInput(k, Port(id, InAt(2))) && IsInput(k, Port(id, InAt(3)))
  {
    NumberedName(InAt(1), 3);
    NumberedName(InAt(2), 3);
    NumberedName(InAt(3), 3);
    hide Numbered;
  }

  /** A 7.1 input mixed down for an ear. */
  function MixedDown(v: Signals, s: seq<Channel>, ear: Ear, t: nat): real {
    if s == [] then 0.0
    else
      var ch := s[|s| - 1];
      MixedDown(v, s[..|s| - 1], ear, t) + Num(Downmix(ch, ear)) * v(Port(Pre(ch), In), t)
  }

  /** What comes in for an ear, unprocessed. */
  function Unprocessed(c: Config, v: Signals, ear: Ear, t: nat): real {
    if Spatial(c) && c.surround then MixedDown(v, DownmixChannels(ear), ear, t) else v(Port(Pre(Own(ear)), In), t)
  }

  lemma {:induction false} DownmixedPrefix(n: Numerics, rate: real, sink: string, d: string, c: Config, yaw: real,
      v: Signals, ear: Ear, m: nat, t: nat)
    requires Sane(n) && rate > 0.0 && Runs(n, rate, GraphOf(n, sink, d, c, yaw), v)
    requires Spatial(c) && c.surround && m <= |DownmixChannels(ear)|
    ensures var s := DownmixChannels(ear);
            Mixed(MixerNode(Dm(ear), DownmixGains(s, ear)).settings[..m], v, Dm(ear), t)
                == PreFactor(n, c) * MixedDown(v, s[..m], ear, t)
    decreases m
  {
    hide Runs, GraphOf, Sane, PreFactor, Num, Downmix;
    var s := DownmixChannels(ear);
    var settings := MixerNode(Dm(ear), DownmixGains(s, ear)).settings;
    if m == 0 {
      assert settings[..0] == [] && s[..0] == [];
    } else {
      DownmixedPrefix(n, rate, sink, d, c, yaw, v, ear, m - 1, t);
      assert settings[..m][..m - 1] == settings[..m - 1] && s[..m][..m - 1] == s[..m - 1];
      var ch := s[m - 1];
      DownmixInput(n, rate, sink, d, c, yaw, v, ear, m, t);
      assert settings[..m][m - 1].value == Num(Downmix(ch, ear)) && s[..m][m - 1] == ch;
      Distribute(PreFactor(n, c), MixedDown(v, s[..m - 1], ear, t), Num(Downmix(ch, ear)), v(Port(Pre(ch), In), t));
    }
  }

  lemma Distribute(g: real, sum: real, a: real, x: real)
    ensures g * sum + a * (g * x) == g * (sum + a * x)
  {
  }

  lemma DownmixInput(n: Numerics, rate: real, sink: string, d: string, c: Config, yaw: real, v: Signals, ear: Ear,
      m: nat, t: nat)
    requires Sane(n) && rate > 0.0 && Runs(n, rate, GraphOf(n, sink, d, c, yaw), v)
    requires Spatial(c) && c.surround && 0 < m <= |DownmixChannels(ear)|
    ensures v(Port(Dm(ear), InAt(m)), t) == PreFactor(n, c) * v(Port(Pre(DownmixChannels(ear)[m - 1]), In), t)
  {
    hide *;
    DownmixFeed(c, ear, m);
    RunsLink(n, rate, sink, d, c, yaw, v, Port(Dm(ear), InAt(m)), t);
    PreGains(n, rate, sink, d, c, yaw, v, DownmixChannels(ear)[m - 1], t);
  }

  lemma DownmixFeed(c: Config, ear: Ear, m: nat)
    requires Spatial(c) && c.surround && 0 < m <= |DownmixChannels(ear)|
    ensures var k, ch := GraphKey(c), DownmixChannels(ear)[m - 1];
            IsInput(k, Port(Dm(ear), InAt(m))) && Driver(k, Port(Dm(ear), InAt(m))) == Port(Pre(ch), Out)
                && ch in Speakers(k)
  {
    NumberedName(InAt(m), |DownmixChannels(ear)|);
    hide Numbered;
  }

  /** Neither virtual speakers nor crossfeed have a part in the sound. */
  predicate HeadsAreStraight(c: Config) { c.bypass || (!Spatial(c) && !c.crossfeed) }

  /** In the bypass the ear's filters start from the unprocessed input, at the pre-gain. */
  lemma BypassHead(n: Numerics, rate: real, sink: string, d: string, c: Config, yaw: real, v: Signals, ear: Ear, t: nat)
    requires Sane(n) && rate > 0.0 && Runs(n, rate, GraphOf(n, sink, d, c, yaw), v) && c.bypass
    ensures v(Port(Head(GraphKey(c), ear), Out), t) == PreFactor(n, c) * Unprocessed(c, v, ear, t)
  {
    hide *;
    BypassIsStraight(c);
    StraightHead(n, rate, sink, d, c, yaw, v, ear, t);
  }

  lemma BypassIsStraight(c: Config)
    ensures c.bypass ==> HeadsAreStraight(c)
  {
  }

  lemma StraightHead(n: Numerics, rate: real, sink: string, d: string, c: Config, yaw: real, v: Signals, ear: Ear, t: nat)
    requires Sane(n) && rate > 0.0 && Runs(n, rate, GraphOf(n, sink, d, c, yaw), v) && HeadsAreStraight(c)
    ensures v(Port(Head(GraphKey(c), ear), Out), t) == PreFactor(n, c) * Unprocessed(c, v, ear, t)
  {
    hide *;
    StraightGains(n, c, yaw, ear);
    var k, head := GraphKey(c), Head(GraphKey(c), ear);
    var gains := if Spatial(c) then MixGains(c) else CrossfeedGains(n, c);
    DirectFeed(c, ear);
    UnprocessedIs(c, v, ear, t);
    ThreeRun(n, rate, sink, d, c, yaw, v, head, gains, t);
    if Spatial(c) && c.surround {
      DownmixRuns(n, rate, sink, d, c, yaw, v, ear, t);
    } else {
      PreGains(n, rate, sink, d, c, yaw, v, Own(ear), t);
    }
  }

  /** Where the head gets the unprocessed input from. */
  lemma DirectFeed(c: Config, ear: Ear)
    ensures var k := GraphKey(c);
            && Own(ear) in Speakers(k)
            && Driver(k, Port(Head(k, ear), InAt(if Spatial(c) then 3 else 1)))
               == Port(if Spatial(c) && c.surround then Dm(ear) else Pre(Own(ear)), Out)
  {
  }

  lemma DownmixRuns(n: Numerics, rate: real, sink: string, d: string, c: Config, yaw: real, v: Signals, ear: Ear, t: nat)
    requires Sane(n) && rate > 0.0 && Runs(n, rate, GraphOf(n, sink, d, c, yaw), v) && Spatial(c) && c.surround
    ensures v(Port(Dm(ear), Out), t) == PreFactor(n, c) * MixedDown(v, DownmixChannels(ear), ear, t)
  {
    hide *;
    var s := DownmixChannels(ear);
    DownmixNode(n, c, yaw, ear);
    MixerRuns(n, rate, sink, d, c, yaw, v, Dm(ear), DownmixGains(s, ear), t);
    DownmixedPrefix(n, rate, sink, d, c, yaw, v, ear, |s|, t);
    Wholes(MixerNode(Dm(ear), DownmixGains(s, ear)).settings, s);
  }

  lemma UnprocessedIs(c: Config, v: Signals, ear: Ear, t: nat)
    ensures Unprocessed(c, v, ear, t)
         == if Spatial(c) && c.surround then MixedDown(v, DownmixChannels(ear), ear, t) else v(Port(Pre(Own(ear)), In), t)
  {
  }

  lemma Wholes(a: seq<Setting>, s: seq<Channel>)
    requires |a| == |s|
    ensures a[..|s|] == a && s[..|s|] == s
  {
  }

  lemma DownmixNode(n: Numerics, c: Config, yaw: real, ear: Ear)
    requires Spatial(c) && c.surround
    ensures Exists(GraphKey(c), Dm(ear))
    ensures NodeOf(n, c, yaw, Dm(ear)) == MixerNode(Dm(ear), DownmixGains(DownmixChannels(ear), ear))
    ensures |MixerNode(Dm(ear), DownmixGains(DownmixChannels(ear), ear)).settings| == |DownmixChannels(ear)|
  {
    hide Num;
  }

  lemma StraightGains(n: Numerics, c: Config, yaw: real, ear: Ear)
    requires HeadsAreStraight(c)
    ensures var head, gains := Head(GraphKey(c), ear), if Spatial(c) then MixGains(c) else CrossfeedGains(n, c);
            && Exists(GraphKey(c), head) && (head.Xm? || head.Mix?) && |gains| == 3
            && NodeOf(n, c, yaw, head) == MixerNode(head, gains)
            && Num(gains[0]) == (if Spatial(c) then 0.0 else 1.0) && Num(gains[1]) == 0.0
                && Num(gains[2]) == (if Spatial(c) then 1.0 else 0.0)
  {
    NumOfHundredths(0);
    NumOfHundredths(100);
    hide Num, MixerNode;
  }

  /** Straight heads, and filters at 0 dB of which none is a pass: an ear gets its unprocessed input at the pre-gain. */
  lemma FlatIsPreGain(n: Numerics, rate: real, sink: string, d: string, c: Config, yaw: real, v: Signals, ear: Ear, t: nat)
    requires Sane(n) && rate >= 44100.0 && Runs(n, rate, GraphOf(n, sink, d, c, yaw), v)
    requires HeadsAreStraight(c) && AllAtNoGain(n, c, ear) && CorrectionInRange(c) && NoPass(c)
    ensures v(Port(Band(Loudness, ear), Out), t) == PreFactor(n, c) * Unprocessed(c, v, ear, t)
  {
    hide *;
    LastTag(c);
    ChainPasses(n, rate, sink, d, c, yaw, v, ear, |TagsOf(GraphKey(c))| - 1, t);
    StraightHead(n, rate, sink, d, c, yaw, v, ear, t);
  }

  /** For any correction of peaking and shelf filters: in the bypass an ear gets the unprocessed input at the
      pre-gain, sample for sample, before the limiter. */
  lemma BypassIsPreGain(n: Numerics, rate: real, sink: string, d: string, c: Config, yaw: real, v: Signals, ear: Ear, t: nat)
    requires Sane(n) && rate >= 44100.0 && Runs(n, rate, GraphOf(n, sink, d, c, yaw), v)
    requires c.bypass && CorrectionInRange(c) && NoPass(c)
    ensures v(Port(Band(Loudness, ear), Out), t) == PreFactor(n, c) * Unprocessed(c, v, ear, t)
    ensures PreFactor(n, c) == PreFactor(n, c.(bypass := false))
  {
    hide *;
    BypassIsAtNoGain(n, c, ear);
    BypassIsStraight(c);
    FlatIsPreGain(n, rate, sink, d, c, yaw, v, ear, t);
    SamePreFactor(n, c);
  }

  lemma LastTag(c: Config)
    ensures var tags := TagsOf(GraphKey(c)); |tags| > 0 && tags[|tags| - 1] == Loudness
  {
  }

  lemma SamePreFactor(n: Numerics, c: Config)
    requires c.bypass
    ensures PreFactor(n, c) == PreFactor(n, c.(bypass := false))
  {
    BypassKeepsHeadroom(n, c);
    assert c.(bypass := true) == c;
    hide HeadroomDb, Num;
  }

  // ---------- and only then ----------

  lemma ScaleDown(a: real, b: real, x: real, y: real)
    requires a * y == b * x && 0.0 <= b <= a && a > 0.0
    ensures Size(y) <= Size(x) && (b < a && x != 0.0 ==> Size(y) < Size(x))
  {
    if x == 0.0 {
      Cancel(a, y, 0.0);
    } else {
      var s := Size(x);
      assert Size(a * y) == a * Size(y) && Size(b * x) == b * s;
      assert (a - b) * s >= 0.0;
      if Size(y) >= s {
        assert a * Size(y) >= a * s;
        assert (a - b) * s == a * s - b * s;
      }
    }
  }

  function Size(x: real): real { if x < 0.0 then -x else x }

  lemma FirstSample(co: Coefficients, v: Signals, x: Port, y: Port)
    requires Equation(co, v, x, y)
    ensures co.a0 * v(y, 0) == co.b0 * v(x, 0)
  {
    assert Weighted(v, y, 0, co.a0, co.a1, co.a2) == Weighted(v, x, 0, co.b0, co.b1, co.b2);
  }

  predicate PassAt(n: Numerics, c: Config, ear: Ear, p: nat)
    requires p < |TagsOf(GraphKey(c))|
  {
    Pass(InEffect(n, c, ear, TagsOf(GraphKey(c))[p]).kind)
  }

  /** Filters at 0 dB never make the first sample larger, and a pass makes it smaller. */
  lemma {:induction false} FirstSampleShrinks(n: Numerics, rate: real, sink: string, d: string, c: Config, yaw: real,
      v: Signals, ear: Ear, p: nat)
    requires Sane(n) && rate >= 44100.0 && Runs(n, rate, GraphOf(n, sink, d, c, yaw), v)
    requires CorrectionInRange(c) && AllAtNoGain(n, c, ear) && p < |TagsOf(GraphKey(c))|
    ensures var last, head := v(Port(Band(TagsOf(GraphKey(c))[p], ear), Out), 0), v(Port(Head(GraphKey(c), ear), Out), 0);
            && Size(last) <= Size(head)
            && ((exists i | 0 <= i <= p :: PassAt(n, c, ear, i)) && head != 0.0 ==> Size(last) < Size(head))
    decreases p
  {
    hide *;
    var tags := TagsOf(GraphKey(c));
    TagIsAtNoGain(n, c, ear, p);
    var co := BandAtNoGain(n, rate, sink, d, c, yaw, v, ear, tags[p]);
    FirstSample(co, v, Port(Band(tags[p], ear), In), Port(Band(tags[p], ear), Out));
    BandIsFed(n, rate, sink, d, c, yaw, v, ear, p, 0);
    ScaleDown(co.a0, co.b0, v(Port(Band(tags[p], ear), In), 0), v(Port(Band(tags[p], ear), Out), 0));
    SizeOfNothing();
    if p > 0 {
      FirstSampleShrinks(n, rate, sink, d, c, yaw, v, ear, p - 1);
    }
  }

  lemma SizeOfNothing()
    ensures forall x: real :: Size(x) >= 0.0 && (Size(x) == 0.0 <==> x == 0.0)
  {
  }

  lemma TagIsAtNoGain(n: Numerics, c: Config, ear: Ear, p: nat)
    requires AllAtNoGain(n, c, ear) && p < |TagsOf(GraphKey(c))|
    ensures AtNoGain(n, c, ear, TagsOf(GraphKey(c))[p])
    ensures PassAt(n, c, ear, p) <==> Pass(InEffect(n, c, ear, TagsOf(GraphKey(c))[p]).kind)
  {
    hide AtNoGain, Tags;
  }

  lemma APassIsSomewhere(n: Numerics, c: Config, ear: Ear)
    requires CorrectionInRange(c) && !NoPass(c)
    ensures exists i | 0 <= i < |TagsOf(GraphKey(c))| :: PassAt(n, c, ear, i)
  {
    var bq :| bq in c.correction && Pass(bq.kind);
    var j :| 0 <= j < |c.correction| && c.correction[j] == bq;
    var tags := TagsOf(GraphKey(c));
    assert tags[12 + j] == Correction(j);
    TagInRange(n, c, ear, tags[12 + j]);
    hide InEffect, Tags;
    assert PassAt(n, c, ear, 12 + j);
  }

  lemma FlatIsPreGainIff(n: Numerics, rate: real, sink: string, d: string, c: Config, yaw: real, v: Signals, ear: Ear)
    requires Sane(n) && rate >= 44100.0 && Runs(n, rate, GraphOf(n, sink, d, c, yaw), v)
    requires HeadsAreStraight(c) && AllAtNoGain(n, c, ear) && CorrectionInRange(c) && Unprocessed(c, v, ear, 0) != 0.0
    ensures (forall t: nat ::
               v(Port(Band(Loudness, ear), Out), t) == PreFactor(n, c) * Unprocessed(c, v, ear, t)) <==> NoPass(c)
  {
    hide *;
    if NoPass(c) {
      forall t: nat ensures v(Port(Band(Loudness, ear), Out), t) == PreFactor(n, c) * Unprocessed(c, v, ear, t) {
        FlatIsPreGain(n, rate, sink, d, c, yaw, v, ear, t);
      }
    } else {
      LastTag(c);
      APassIsSomewhere(n, c, ear);
      FirstSampleShrinks(n, rate, sink, d, c, yaw, v, ear, |TagsOf(GraphKey(c))| - 1);
      StraightHead(n, rate, sink, d, c, yaw, v, ear, 0);
      PreFactorIsNotZero(n, c);
      NonZero(PreFactor(n, c), Unprocessed(c, v, ear, 0));
    }
  }

  /** Zeroing the gains bypasses the effects if and only if the correction has no low-pass and no high-pass: with one,
      whatever sound starts at the first sample comes out changed. */
  lemma BypassIsPreGainIff(n: Numerics, rate: real, sink: string, d: string, c: Config, yaw: real, v: Signals, ear: Ear)
    requires Sane(n) && rate >= 44100.0 && Runs(n, rate, GraphOf(n, sink, d, c, yaw), v)
    requires c.bypass && CorrectionInRange(c) && Unprocessed(c, v, ear, 0) != 0.0
    ensures (forall t: nat ::
               v(Port(Band(Loudness, ear), Out), t) == PreFactor(n, c) * Unprocessed(c, v, ear, t)) <==> NoPass(c)
  {
    hide *;
    BypassIsAtNoGain(n, c, ear);
    BypassIsStraight(c);
    FlatIsPreGainIff(n, rate, sink, d, c, yaw, v, ear);
  }

  lemma PreFactorIsNotZero(n: Numerics, c: Config)
    requires Sane(n)
    ensures PreFactor(n, c) != 0.0
  {
    PowerIsNotZero(n, Num(-HeadroomDb(n, c)) / 20.0);
    hide Num, HeadroomDb, Sane;
  }

  lemma NonZero(a: real, b: real)
    requires a != 0.0 && b != 0.0
    ensures a * b != 0.0
  {
  }

  // ---------- crossfeed ----------

  /** A mono input passes the crossfeed untouched, whatever its setting. */
  lemma CrossfeedLeavesMono(n: Numerics, rate: real, sink: string, d: string, c: Config, yaw: real, v: Signals,
      ear: Ear, t: nat)
    requires Sane(n) && rate >= 44100.0 && Runs(n, rate, GraphOf(n, sink, d, c, yaw), v) && !Spatial(c)
    requires forall s: nat :: v(Port(Pre(L), In), s) == v(Port(Pre(R), In), s)
    ensures v(Port(Xm(ear), Out), t) == v(Port(Pre(Own(ear)), Out), t) == PreFactor(n, c) * v(Port(Pre(L), In), t)
  {
    hide *;
    CrossfeedNodes(n, c, yaw, ear);
    forall s: nat ensures v(Port(Xl(LeftEar), In), s) == v(Port(Xl(RightEar), In), s)
                  ensures v(Port(Pre(L), Out), s) == v(Port(Pre(R), Out), s) == PreFactor(n, c) * v(Port(Pre(L), In), s)
    {
      PreGains(n, rate, sink, d, c, yaw, v, L, s);
      PreGains(n, rate, sink, d, c, yaw, v, R, s);
      RunsLink(n, rate, sink, d, c, yaw, v, Port(Xl(LeftEar), In), s);
      RunsLink(n, rate, sink, d, c, yaw, v, Port(Xl(RightEar), In), s);
    }
    LowPassesAgree(n, rate, sink, d, c, yaw, v, t);
    var gains := CrossfeedGains(n, c);
    ThreeRun(n, rate, sink, d, c, yaw, v, Xm(ear), gains, t);
    Opposed(Num(gains[2]), v(Port(Xl(LeftEar), Out), t), v(Port(Xl(RightEar), Out), t));
  }

  lemma Opposed(g: real, x: real, y: real)
    requires x == y
    ensures -g * x + g * y == 0.0
  {
  }

  lemma CrossfeedNodes(n: Numerics, c: Config, yaw: real, ear: Ear)
    requires !Spatial(c)
    ensures var k := GraphKey(c);
            && L in Speakers(k) && R in Speakers(k) && Own(ear) in {L, R}
            && IsInput(k, Port(Xl(LeftEar), In)) && Driver(k, Port(Xl(LeftEar), In)) == Port(Pre(L), Out)
            && IsInput(k, Port(Xl(RightEar), In)) && Driver(k, Port(Xl(RightEar), In)) == Port(Pre(R), Out)
            && Exists(k, Xm(ear)) && NodeOf(n, c, yaw, Xm(ear)) == MixerNode(Xm(ear), CrossfeedGains(n, c))
            && Driver(k, Port(Xm(ear), InAt(1))) == Port(Pre(Own(ear)), Out)
            && Driver(k, Port(Xm(ear), InAt(2))) == Port(Xl(ear), Out)
            && Driver(k, Port(Xm(ear), InAt(3))) == Port(Xl(Opposite(ear)), Out)
            && {ear, Opposite(ear)} == {LeftEar, RightEar}
    ensures var gains := CrossfeedGains(n, c);
            |gains| == 3 && Num(gains[0]) == 1.0 && Num(gains[1]) == -Num(gains[2])
  {
    NumOfHundredths(100);
    NumIsOdd(CrossfeedGain(n, c));
    hide Num, CrossfeedGain, MixerNode;
  }

  lemma LowPassesAgree(n: Numerics, rate: real, sink: string, d: string, c: Config, yaw: real, v: Signals, t: nat)
    requires Sane(n) && rate >= 44100.0 && Runs(n, rate, GraphOf(n, sink, d, c, yaw), v) && !Spatial(c)
    requires forall s: nat :: v(Port(Xl(LeftEar), In), s) == v(Port(Xl(RightEar), In), s)
    ensures v(Port(Xl(LeftEar), Out), t) == v(Port(Xl(RightEar), Out), t)
  {
    hide *;
    var bq := CROSSFEED_LOWPASS;
    LowPassNode(n, c, yaw, LeftEar);
    LowPassNode(n, c, yaw, RightEar);
    RunsNode(n, rate, sink, d, c, yaw, v, Xl(LeftEar));
    RunsNode(n, rate, sink, d, c, yaw, v, Xl(RightEar));
    BiquadRuns(n, rate, Xl(LeftEar), bq, v);
    BiquadRuns(n, rate, Xl(RightEar), bq, v);
    NoGainSides(n, rate, bq.kind, Num(bq.freq), Num(bq.q));
    SameInSameOut(CoefficientsOf(n, rate, bq.kind, Num(bq.freq), Num(bq.q), Num(bq.gain)), v,
                  Port(Xl(LeftEar), In), Port(Xl(LeftEar), Out), Port(Xl(RightEar), In), Port(Xl(RightEar), Out), t);
  }

  lemma LowPassNode(n: Numerics, c: Config, yaw: real, ear: Ear)
    requires !Spatial(c)
    ensures Exists(GraphKey(c), Xl(ear)) && NodeOf(n, c, yaw, Xl(ear)) == BiquadNode(Xl(ear), CROSSFEED_LOWPASS)
    ensures Num(CROSSFEED_LOWPASS.freq) == 700.0 && Num(CROSSFEED_LOWPASS.q) == 0.5 && Num(CROSSFEED_LOWPASS.gain) == 0.0
  {
    NumOfHundredths(70000);
    NumOfHundredths(50);
    NumOfHundredths(0);
    hide Num;
  }
}
