/** The graph is a machine: for every input, and whatever the spatializers and the limiter make of theirs, there is
    exactly one sound at every port. */
module EffectSound {
  import opened Wrappers
  import opened Effects
  import opened EffectGraph
  import opened EffectShape
  import opened EffectMeaning

  /** `input` comes in at the channels; `foreign` is what the spatializers and the limiter put out. */
  datatype Setup = Setup(n: Numerics, rate: real, c: Config, yaw: real, input: (Channel, nat) -> real, foreign: Signals)

  predicate Playable(s: Setup) { s.rate >= 44100.0 && CorrectionInRange(s.c) }

  function GraphIn(s: Setup, sink: string, d: string): Graph { GraphOf(s.n, sink, d, s.c, s.yaw) }

  predicate IsIn(name: PortName) { name.In? || name.InAt? }

  // ---------- every biquad can be solved for its output ----------

  lemma PowerIsPositive(n: Numerics, x: real)
    requires Sane(n)
    ensures n.power(x) > 0.0
  {
    var half := x / 2.0;
    PowerIsNotZero(n, half);
    var a := n.power(half);
    assert PowerAdds(n, half, half);
    assert n.power(half + half) == a * a;
    assert half + half == x;
    assert n.power(x) == a * a;
    SquareIsPositive(a, n.power(x));
  }

  lemma SquareIsPositive(a: real, square: real)
    requires a != 0.0 && square == a * a
    ensures square > 0.0
  {
    if a > 0.0 {
      ProductIsPositive(a, a, square);
    } else {
      ProductIsPositive(-a, -a, square);
    }
  }

  lemma ProductIsPositive(a: real, b: real, product: real)
    requires a > 0.0 && b > 0.0 && product == a * b
    ensures product > 0.0
  {
  }

  lemma CookbookLeads(kind: FilterType, A: real, k: real, alpha: real, root: real)
    requires A > 0.0 && -1.0 <= k <= 1.0 && alpha >= 0.0 && root >= 0.0
    ensures Cookbook(kind, A, k, alpha, root).a0 > 0.0
  {
    Product(root, alpha);
    Between(A, k);
    Share(alpha, A);
    match kind case Peaking => case LowShelf => case HighShelf => case LowPass => case HighPass =>
  }

  lemma Product(a: real, b: real)
    requires a >= 0.0 && b >= 0.0
    ensures 2.0 * a * b >= 0.0
  {
  }

  lemma Share(a: real, b: real)
    requires a >= 0.0 && b > 0.0
    ensures a / b >= 0.0
  {
    assert a / b * b == a;
  }

  lemma Between(A: real, k: real)
    requires A > 0.0 && -1.0 <= k <= 1.0
    ensures (A + 1.0) + (A - 1.0) * k > 0.0 && (A + 1.0) - (A - 1.0) * k > 0.0
  {
    assert (A + 1.0) + (A - 1.0) * k == A * (1.0 + k) + (1.0 - k);
    assert (A + 1.0) - (A - 1.0) * k == A * (1.0 - k) + (1.0 + k);
    Product(A, 1.0 + k);
    Product(A, 1.0 - k);
    if k < 1.0 {
      Positives(A, 1.0 - k);
    } else {
      Positives(A, 1.0 + k);
    }
  }

  lemma Positives(a: real, b: real)
    requires a > 0.0 && b > 0.0
    ensures a * b > 0.0
  {
  }

  predicate Usable(bq: Biquad) { 0.0 <= Num(bq.freq) < 22050.0 && Num(bq.q) > 0.0 }

  lemma BiquadLeads(n: Numerics, rate: real, kind: FilterType, freq: real, q: real, gain: real)
    requires Sane(n) && rate >= 44100.0 && 0.0 <= freq < 22050.0 && q > 0.0
    ensures n.power(gain / 40.0) != 0.0 && CoefficientsOf(n, rate, kind, freq, q, gain).a0 > 0.0
  {
    PowerIsPositive(n, gain / 40.0);
    var sine := n.sin(freq / rate);
    assert sine >= 0.0 by {
      if freq > 0.0 {
        Ratio(freq, rate);
      } else {
        assert freq / rate == 0.0;
      }
    }
    Share(sine, 2.0 * q);
    CookbookLeads(kind, n.power(gain / 40.0), n.cos(freq / rate), sine / (2.0 * q), n.root(n.power(gain / 40.0)));
  }

  function BiquadAt(n: Numerics, c: Config, id: NodeId): Biquad {
    match id
    case Pre(_) => PreGain(n, c)
    case Xl(_) => CROSSFEED_LOWPASS
    case Sc(_, i) => High(i)
    case Lp(_) => KEMAR_LOWPASS
    case Band(tag, ear) => InEffect(n, c, ear, tag)
    case _ => KEMAR_LOWPASS
  }

  predicate IsBiquad(id: NodeId) { id.Pre? || id.Xl? || id.Sc? || id.Lp? || id.Band? }

  lemma NodeOfBiquad(n: Numerics, c: Config, yaw: real, id: NodeId)
    ensures IsBiquad(id) ==> NodeOf(n, c, yaw, id) == BiquadNode(id, BiquadAt(n, c, id))
    ensures !IsBiquad(id) ==> !NodeOf(n, c, yaw, id).kind.Builtin?
  {
    hide HIGHS, High, HeadroomDb, InEffect, Num, Clean, Azimuth, MixGains, GraphKey, Downmix, BassChannels, SeatedChannels,
      DownmixChannels;
    match id case Pre(_) => case Xl(_) => case Xm(_) => case Sc(_, _) => case Sp(_) => case Bass => case Lp(_) =>
    case Hrtf(_) => case Dm(_) => case Mix(_) => case Band(_, _) => case Lim =>
  }

  lemma BiquadIsUsable(n: Numerics, c: Config, id: NodeId)
    requires CorrectionInRange(c) && Exists(GraphKey(c), id) && IsBiquad(id)
    ensures Usable(BiquadAt(n, c, id))
  {
    var bq := BiquadAt(n, c, id);
    NumIsNear(bq.freq);
    NumIsNear(bq.q);
    if id.Band? {
      TagInRange(n, c, id.ear, id.tag);
    } else if id.Sc? {
      HighIsUsable(id.i);
    } else if id.Pre? {
      NumOfHundredths(0);
    }
    hide Num, InEffect, Tags, Exists, HIGHS, HeadroomDb;
  }

  lemma HighIsUsable(i: nat)
    ensures 100.0 <= High(i).freq <= 10000.0 && 0.1 <= High(i).q <= 10.0
  {
    assert forall j | 0 <= j < |HIGHS| :: 100.0 <= HIGHS[j].freq <= 10000.0 && 0.1 <= HIGHS[j].q <= 10.0;
  }

  // ---------- there is a sound ----------

  function Coefficient(s: Setup, id: NodeId): Option<Coefficients>
    requires s.rate > 0.0
  {
    var bq := BiquadAt(s.n, s.c, id);
    if Num(bq.q) != 0.0 && s.n.power(Num(bq.gain) / 40.0) != 0.0 then
      Some(CoefficientsOf(s.n, s.rate, bq.kind, Num(bq.freq), Num(bq.q), Num(bq.gain)))
    else None
  }

  /** The output that makes the difference equation hold. */
  function Solved(co: Coefficients, x0: real, x1: real, x2: real, y1: real, y2: real): real {
    if co.a0 == 0.0 then 0.0 else (co.b0 * x0 + co.b1 * x1 + co.b2 * x2 - co.a1 * y1 - co.a2 * y2) / co.a0
  }

  /** What is at a port at a sample, from the samples before and the ports before. */
  function Sound(s: Setup, p: Port, t: nat): real
    requires s.rate > 0.0
    decreases t, Rank(GraphKey(s.c), p.node), if IsIn(p.name) then 0 else 2, 0
  {
    var k, id := GraphKey(s.c), p.node;
    if IsIn(p.name) then
      if id.Pre? then s.input(id.channel, t)
      else if IsInput(k, p) then
        assert Rank(k, Driver(k, p).node) < Rank(k, id) by { DriverExists(k, p); }
        Sound(s, Driver(k, p), t)
      else 0.0
    else if p.name.OutAt? then s.foreign(p, t)
    else if IsBiquad(id) then
      match Coefficient(s, id) {
        case None => 0.0
        case Some(co) =>
          Solved(co, Sound(s, Port(id, In), t), if t >= 1 then Sound(s, Port(id, In), t - 1) else 0.0,
                 if t >= 2 then Sound(s, Port(id, In), t - 2) else 0.0, if t >= 1 then Sound(s, p, t - 1) else 0.0,
                 if t >= 2 then Sound(s, p, t - 2) else 0.0)
      }
    else
      var settings := NodeOf(s.n, s.c, s.yaw, id).settings;
      MixedSound(s, settings, id, |settings|, t)
  }

  function MixedSound(s: Setup, settings: seq<Setting>, id: NodeId, m: nat, t: nat): real
    requires s.rate > 0.0 && m <= |settings|
    decreases t, Rank(GraphKey(s.c), id), 1, m
  {
    if m == 0 then 0.0
    else MixedSound(s, settings, id, m - 1, t) + settings[m - 1].value * Sound(s, Port(id, InAt(m)), t)
  }

  function Played(s: Setup): Signals
    requires s.rate > 0.0
  {
    (p: Port, t: nat) => Sound(s, p, t)
  }

  lemma SolvedHolds(co: Coefficients, x0: real, x1: real, x2: real, y1: real, y2: real)
    requires co.a0 != 0.0
    ensures co.a0 * Solved(co, x0, x1, x2, y1, y2) + co.a1 * y1 + co.a2 * y2 == co.b0 * x0 + co.b1 * x1 + co.b2 * x2
  {
    var sum := co.b0 * x0 + co.b1 * x1 + co.b2 * x2 - co.a1 * y1 - co.a2 * y2;
    assert co.a0 * (sum / co.a0) == sum;
  }

  lemma BiquadCoefficient(s: Setup, id: NodeId) returns (co: Coefficients)
    requires Playable(s) && Sane(s.n) && Exists(GraphKey(s.c), id) && IsBiquad(id)
    ensures Coefficient(s, id) == Some(co) && co.a0 > 0.0
    ensures forall v: Signals :: NodeRuns(s.n, s.rate, NodeOf(s.n, s.c, s.yaw, id), v) <==> Equation(co, v, Port(id, In), Port(id, Out))
  {
    hide *;
    var bq := BiquadAt(s.n, s.c, id);
    PlayableRate(s, id);
    NodeOfBiquad(s.n, s.c, s.yaw, id);
    BiquadLeads(s.n, s.rate, bq.kind, Num(bq.freq), Num(bq.q), Num(bq.gain));
    co := CoefficientsOf(s.n, s.rate, bq.kind, Num(bq.freq), Num(bq.q), Num(bq.gain));
    CoefficientIs(s, id, bq, co);
    forall v: Signals
      ensures NodeRuns(s.n, s.rate, NodeOf(s.n, s.c, s.yaw, id), v) <==> Equation(co, v, Port(id, In), Port(id, Out))
    {
      BiquadRunsIff(s.n, s.rate, id, bq, v);
    }
  }

  lemma PlayableRate(s: Setup, id: NodeId)
    requires Playable(s) && Exists(GraphKey(s.c), id) && IsBiquad(id)
    ensures s.rate >= 44100.0
    ensures var bq := BiquadAt(s.n, s.c, id); 0.0 <= Num(bq.freq) < 22050.0 && Num(bq.q) > 0.0
  {
    hide Num, BiquadAt, Exists, CorrectionInRange;
    BiquadIsUsable(s.n, s.c, id);
  }

  lemma CoefficientIs(s: Setup, id: NodeId, bq: Biquad, co: Coefficients)
    requires s.rate > 0.0 && bq == BiquadAt(s.n, s.c, id) && Num(bq.q) != 0.0 && s.n.power(Num(bq.gain) / 40.0) != 0.0
    requires co == CoefficientsOf(s.n, s.rate, bq.kind, Num(bq.freq), Num(bq.q), Num(bq.gain))
    ensures Coefficient(s, id) == Some(co)
  {
    hide Num, BiquadAt, CoefficientsOf;
  }

  lemma BiquadRunsIff(n: Numerics, rate: real, id: NodeId, bq: Biquad, v: Signals)
    requires rate > 0.0 && Num(bq.q) != 0.0 && n.power(Num(bq.gain) / 40.0) != 0.0
    ensures NodeRuns(n, rate, BiquadNode(id, bq), v)
       <==> Equation(CoefficientsOf(n, rate, bq.kind, Num(bq.freq), Num(bq.q), Num(bq.gain)), v, Port(id, In), Port(id, Out))
  {
    hide Num, CoefficientsOf, Equation;
    var node := BiquadNode(id, bq);
    assert node.kind == Builtin(bq.kind) && node.settings[0].value == Num(bq.freq)
        && node.settings[1].value == Num(bq.q) && node.settings[2].value == Num(bq.gain);
  }

  lemma BiquadPlays(s: Setup, id: NodeId)
    requires Playable(s) && Sane(s.n) && Exists(GraphKey(s.c), id) && IsBiquad(id)
    ensures NodeRuns(s.n, s.rate, NodeOf(s.n, s.c, s.yaw, id), Played(s))
  {
    hide NodeRuns, NodeOf, Exists, Sane, Coefficient, GraphKey, IsInput, Driver, Solved;
    var co := BiquadCoefficient(s, id);
    var x, y, v := Port(id, In), Port(id, Out), Played(s);
    forall t: nat ensures Weighted(v, y, t, co.a0, co.a1, co.a2) == Weighted(v, x, t, co.b0, co.b1, co.b2) {
      SolvedHolds(co, v(x, t), Ago(v, x, t, 1), Ago(v, x, t, 2), Ago(v, y, t, 1), Ago(v, y, t, 2));
      SoundOfBiquad(s, id, co, t);
    }
  }

  lemma SoundOfBiquad(s: Setup, id: NodeId, co: Coefficients, t: nat)
    requires s.rate > 0.0 && IsBiquad(id) && Coefficient(s, id) == Some(co)
    ensures var x, y, v := Port(id, In), Port(id, Out), Played(s);
            v(y, t) == Solved(co, v(x, t), Ago(v, x, t, 1), Ago(v, x, t, 2), Ago(v, y, t, 1), Ago(v, y, t, 2))
  {
    hide Coefficient, GraphKey, IsInput, Driver, Solved, NodeOf;
  }

  lemma {:induction false} MixedIsMixedSound(s: Setup, settings: seq<Setting>, id: NodeId, m: nat, t: nat)
    requires s.rate > 0.0 && m <= |settings|
    ensures Mixed(settings[..m], Played(s), id, t) == MixedSound(s, settings, id, m, t)
    decreases m
  {
    hide Sound;
    if m > 0 {
      MixedIsMixedSound(s, settings, id, m - 1, t);
      assert settings[..m][..m - 1] == settings[..m - 1];
    }
  }

  lemma MixerPlays(s: Setup, id: NodeId)
    requires Playable(s) && !IsBiquad(id)
    ensures NodeRuns(s.n, s.rate, NodeOf(s.n, s.c, s.yaw, id), Played(s))
  {
    NodeOfBiquad(s.n, s.c, s.yaw, id);
    NodeHasId(s.n, s.c, s.yaw, id);
    var node, v := NodeOf(s.n, s.c, s.yaw, id), Played(s);
    hide NodeOf, GraphKey, IsInput, Driver, CorrectionInRange, Mixed, MixedSound;
    forall t: nat ensures v(Port(id, Out), t) == Mixed(node.settings, v, id, t) {
      MixedIsMixedSound(s, node.settings, id, |node.settings|, t);
      assert node.settings[..|node.settings|] == node.settings;
    }
  }

  lemma LinkPlays(s: Setup, sink: string, d: string, l: Link)
    requires s.rate > 0.0 && l in GraphIn(s, sink, d).links
    ensures Carries(Played(s), l)
  {
    LinkIsFromOutput(s.n, sink, d, s.c, s.yaw, l);
    LinksEndAtInputs(GraphKey(s.c), l.input);
    hide IsInput, Driver, GraphKey, GraphIn, NodeOf, Coefficient, Solved, IsBiquad, Rank;
  }

  lemma LinksEndAtInputs(k: Key, p: Port)
    requires IsInput(k, p)
    ensures IsIn(p.name) && !p.node.Pre?
  {
    NumberedName(p.name, |InputsOf(k, p.node)|);
    hide Numbered, Exists, Speakers;
  }

  /** Whatever comes in, and whatever the spatializers and the limiter put out, the graph has a sound. */
  lemma GraphPlays(s: Setup, sink: string, d: string)
    requires Playable(s) && Sane(s.n)
    ensures Runs(s.n, s.rate, GraphIn(s, sink, d), Played(s))
    ensures forall ch: Channel, t: nat :: Played(s)(Port(Pre(ch), In), t) == s.input(ch, t)
    ensures forall id: NodeId, ear: Ear, t: nat :: Played(s)(Port(id, OutAt(ear)), t) == s.foreign(Port(id, OutAt(ear)), t)
  {
    var g := GraphIn(s, sink, d);
    forall node | node in g.nodes ensures NodeRuns(s.n, s.rate, node, Played(s)) {
      NodeIsOf(s.n, sink, d, s.c, s.yaw, node);
      if IsBiquad(node.id) {
        BiquadPlays(s, node.id);
      } else {
        MixerPlays(s, node.id);
      }
    }
    forall l | l in g.links ensures Carries(Played(s), l) {
      LinkPlays(s, sink, d, l);
    }
    hide NodeRuns, Carries, GraphOf, GraphKey, NodeOf, Coefficient, Solved, IsBiquad, Rank, IsInput, Driver;
  }

  // ---------- and only one ----------

  /** The ports of the graph: what comes in, what links drive, and what nodes put out. */
  predicate IsPort(k: Key, p: Port) {
    if IsIn(p.name) then IsInput(k, p) || (Exists(k, p.node) && p.node.Pre? && p.name == In)
    else Exists(k, p.node) && (p.name.OutAt? <==> p.node.Sp? || p.node.Lim?)
  }

  /** `v` is a sound of the graph for this input. */
  ghost predicate Plays(s: Setup, sink: string, d: string, v: Signals)
    requires s.rate > 0.0
  {
    && Runs(s.n, s.rate, GraphIn(s, sink, d), v)
    && (forall ch: Channel, t: nat :: v(Port(Pre(ch), In), t) == s.input(ch, t))
    && (forall id: NodeId, ear: Ear, t: nat :: v(Port(id, OutAt(ear)), t) == s.foreign(Port(id, OutAt(ear)), t))
  }

  /** Any sound of the graph is the one. */
  lemma {:induction false} OnlyOneSound(s: Setup, sink: string, d: string, v: Signals, p: Port, t: nat)
    requires Playable(s) && Sane(s.n) && Plays(s, sink, d, v) && IsPort(GraphKey(s.c), p)
    ensures v(p, t) == Played(s)(p, t)
    decreases t, Rank(GraphKey(s.c), p.node), if IsIn(p.name) then 0 else 2
  {
    hide *;
    RateIsPositive(s);
    var k, id := GraphKey(s.c), p.node;
    if IsInput(k, p) {
      DriverIsPort(s, p);
      OnlyOneSound(s, sink, d, v, Driver(k, p), t);
      SameThroughLink(s, sink, d, v, p, t);
    } else if IsIn(p.name) || p.name.OutAt? {
      SameAtTheEnds(s, sink, d, v, p, t);
    } else if IsBiquad(id) {
      InIsPort(k, p);
      OnlyOneSound(s, sink, d, v, Port(id, In), t);
      if t >= 1 {
        OnlyOneSound(s, sink, d, v, Port(id, In), t - 1);
        OnlyOneSound(s, sink, d, v, p, t - 1);
      }
      if t >= 2 {
        OnlyOneSound(s, sink, d, v, Port(id, In), t - 2);
        OnlyOneSound(s, sink, d, v, p, t - 2);
      }
      SameBefore(v, Played(s), Port(id, In), t);
      SameBefore(v, Played(s), p, t);
      SameThroughBiquad(s, sink, d, v, id, t);
    } else {
      forall i: nat | 1 <= i <= |NodeOf(s.n, s.c, s.yaw, id).settings|
        ensures v(Port(id, InAt(i)), t) == Played(s)(Port(id, InAt(i)), t)
      {
        MixerIn(s, p, i);
        OnlyOneSound(s, sink, d, v, Port(id, InAt(i)), t);
      }
      SameThroughMixer(s, sink, d, v, p, t);
    }
  }

  lemma RateIsPositive(s: Setup)
    requires Playable(s)
    ensures s.rate > 0.0
  {
  }

  lemma SameBefore(v: Signals, w: Signals, p: Port, t: nat)
    requires (t >= 1 ==> v(p, t - 1) == w(p, t - 1)) && (t >= 2 ==> v(p, t - 2) == w(p, t - 2))
    ensures Ago(v, p, t, 1) == Ago(w, p, t, 1) && Ago(v, p, t, 2) == Ago(w, p, t, 2)
  {
  }

  lemma DriverIsPort(s: Setup, p: Port)
    requires IsInput(GraphKey(s.c), p)
    ensures IsPort(GraphKey(s.c), Driver(GraphKey(s.c), p)) && IsIn(p.name)
    ensures Rank(GraphKey(s.c), Driver(GraphKey(s.c), p).node) < Rank(GraphKey(s.c), p.node)
  {
    hide IsInput, Exists, GraphKey, Driver, NodeOf, HasOutput, Rank;
    var from := Driver(GraphKey(s.c), p);
    DriverExists(GraphKey(s.c), p);
    LinksEndAtInputs(GraphKey(s.c), p);
    DriverIsOutput(s.n, s.c, s.yaw, p);
    OutputKind(s.n, s.c, s.yaw, from.node, from.name);
  }

  lemma InIsPort(k: Key, p: Port)
    requires IsPort(k, p) && IsBiquad(p.node)
    ensures IsPort(k, Port(p.node, In)) && IsIn(In)
    ensures Exists(k, p.node) && (!IsIn(p.name) && !p.name.OutAt? ==> p == Port(p.node, Out))
  {
    hide Speakers, TagsOf, HIGHS, Kemar, BassPath;
  }

  lemma MixerIn(s: Setup, p: Port, i: nat)
    requires IsPort(GraphKey(s.c), p) && !IsIn(p.name) && !p.name.OutAt? && !IsBiquad(p.node)
    requires 1 <= i <= |NodeOf(s.n, s.c, s.yaw, p.node).settings|
    ensures IsPort(GraphKey(s.c), Port(p.node, InAt(i))) && IsIn(InAt(i))
  {
    InputsMatch(s.n, s.c, s.yaw, p.node, InAt(i));
    MixerKind(s.n, s.c, s.yaw, p.node);
    hide NodeOf, InputsOf, Exists, GraphKey;
  }

  lemma MixerKind(n: Numerics, c: Config, yaw: real, id: NodeId)
    ensures !IsBiquad(id) && !id.Sp? && !id.Lim? ==> NodeOf(n, c, yaw, id).kind.Mixer?
  {
    hide HIGHS, High, HeadroomDb, InEffect, Num, Clean, Azimuth, MixGains, GraphKey, Downmix, BassChannels, SeatedChannels,
      DownmixChannels;
  }

  lemma SameThroughLink(s: Setup, sink: string, d: string, v: Signals, p: Port, t: nat)
    requires s.rate > 0.0 && Plays(s, sink, d, v) && IsInput(GraphKey(s.c), p)
    requires var from := Driver(GraphKey(s.c), p); v(from, t) == Played(s)(from, t)
    ensures v(p, t) == Played(s)(p, t)
  {
    hide Runs, Rank;
    RunsLink(s.n, s.rate, sink, d, s.c, s.yaw, v, p, t);
    LinksEndAtInputs(GraphKey(s.c), p);
    hide IsInput, Driver, GraphKey, NodeOf, Coefficient, Solved, IsBiquad;
  }

  lemma SameAtTheEnds(s: Setup, sink: string, d: string, v: Signals, p: Port, t: nat)
    requires s.rate > 0.0 && Plays(s, sink, d, v) && IsPort(GraphKey(s.c), p)
    requires !IsInput(GraphKey(s.c), p) && (IsIn(p.name) || p.name.OutAt?)
    ensures v(p, t) == Played(s)(p, t)
  {
    hide Runs, Rank, IsInput, Driver, GraphKey, NodeOf, Coefficient, Solved, IsBiquad, Exists;
  }

  lemma SameThroughBiquad(s: Setup, sink: string, d: string, v: Signals, id: NodeId, t: nat)
    requires Playable(s) && Sane(s.n) && Plays(s, sink, d, v) && Exists(GraphKey(s.c), id) && IsBiquad(id)
    requires var x, y, w := Port(id, In), Port(id, Out), Played(s);
             && v(x, t) == w(x, t) && Ago(v, x, t, 1) == Ago(w, x, t, 1) && Ago(v, x, t, 2) == Ago(w, x, t, 2)
             && Ago(v, y, t, 1) == Ago(w, y, t, 1) && Ago(v, y, t, 2) == Ago(w, y, t, 2)
    ensures v(Port(id, Out), t) == Played(s)(Port(id, Out), t)
  {
    hide Runs, Sane, Exists, GraphKey, NodeOf, NodeRuns, Coefficient, Played, Sound, IsBiquad, CorrectionInRange;
    var x, y, w := Port(id, In), Port(id, Out), Played(s);
    var co := BiquadCoefficient(s, id);
    BiquadPlays(s, id);
    RunsNode(s.n, s.rate, sink, d, s.c, s.yaw, v, id);
    assert Equation(co, v, x, y) && Equation(co, w, x, y);
    assert Weighted(v, y, t, co.a0, co.a1, co.a2) == Weighted(v, x, t, co.b0, co.b1, co.b2);
    assert Weighted(w, y, t, co.a0, co.a1, co.a2) == Weighted(w, x, t, co.b0, co.b1, co.b2);
    Cancel(co.a0, v(y, t), w(y, t));
  }

  lemma SameThroughMixer(s: Setup, sink: string, d: string, v: Signals, p: Port, t: nat)
    requires Playable(s) && Plays(s, sink, d, v) && IsPort(GraphKey(s.c), p)
    requires !IsIn(p.name) && !p.name.OutAt? && !IsBiquad(p.node)
    requires forall i: nat | 1 <= i <= |NodeOf(s.n, s.c, s.yaw, p.node).settings| ::
               v(Port(p.node, InAt(i)), t) == Played(s)(Port(p.node, InAt(i)), t)
    ensures v(p, t) == Played(s)(p, t)
  {
    var id, node := p.node, NodeOf(s.n, s.c, s.yaw, p.node);
    MixerKind(s.n, s.c, s.yaw, id);
    MixerPlays(s, id);
    hide Runs, NodeOf, GraphKey, Exists, Played, Sound, IsBiquad, CorrectionInRange, Mixed;
    RunsNode(s.n, s.rate, sink, d, s.c, s.yaw, v, id);
    SameMix(node.settings, v, Played(s), id, |node.settings|, t);
    assert node.settings[..|node.settings|] == node.settings;
  }

  lemma {:induction false} SameMix(settings: seq<Setting>, v: Signals, w: Signals, id: NodeId, m: nat, t: nat)
    requires m <= |settings|
    requires forall i: nat | 1 <= i <= |settings| :: v(Port(id, InAt(i)), t) == w(Port(id, InAt(i)), t)
    ensures Mixed(settings[..m], v, id, t) == Mixed(settings[..m], w, id, t)
    decreases m
  {
    if m > 0 {
      SameMix(settings, v, w, id, m - 1, t);
      assert settings[..m][..m - 1] == settings[..m - 1];
    }
  }

  // ---------- the bypass, for all that may come in ----------

  /** The ear gets its unprocessed input at the pre-gain. */
  ghost predicate Straight(s: Setup, ear: Ear)
    requires s.rate > 0.0
  {
    forall t: nat ::
      Played(s)(Port(Band(Loudness, ear), Out), t) == PreFactor(s.n, s.c) * Unprocessed(s.c, Played(s), ear, t)
  }

  function Impulse(at: Channel): (Channel, nat) -> real { (ch: Channel, t: nat) => if ch == at && t == 0 then 1.0 else 0.0 }

  /** Straight heads and filters at 0 dB leave every input straight if and only if the correction, in range, has no
      low-pass and no high-pass. */
  lemma FlatIsStraightIff(s: Setup, sink: string, d: string, ear: Ear)
    requires Playable(s) && Sane(s.n) && HeadsAreStraight(s.c) && AllAtNoGain(s.n, s.c, ear)
    ensures NoPass(s.c) <==> forall input :: Straight(s.(input := input), ear)
  {
    hide AllAtNoGain, HeadsAreStraight, NoPass, Straight, Sane, CorrectionInRange;
    if NoPass(s.c) {
      forall input ensures Straight(s.(input := input), ear) {
        StraightWithoutPass(s.(input := input), sink, d, ear);
      }
    } else {
      BentWithPass(s.(input := Impulse(Own(ear))), sink, d, ear);
    }
  }

  /** For a correction in range: the bypass leaves every input straight if and only if the correction has no low-pass
      and no high-pass. */
  lemma BypassIsStraightIff(s: Setup, sink: string, d: string, ear: Ear)
    requires Playable(s) && Sane(s.n) && s.c.bypass
    ensures NoPass(s.c) <==> forall input :: Straight(s.(input := input), ear)
  {
    hide *;
    BypassIsAtNoGain(s.n, s.c, ear);
    BypassIsStraight(s.c);
    FlatIsStraightIff(s, sink, d, ear);
  }

  lemma StraightWithoutPass(s: Setup, sink: string, d: string, ear: Ear)
    requires Playable(s) && Sane(s.n) && HeadsAreStraight(s.c) && AllAtNoGain(s.n, s.c, ear) && NoPass(s.c)
    ensures Straight(s, ear)
  {
    hide *;
    WhatIsPlayed(s, sink, d, ear);
    GraphPlays(s, sink, d);
    forall t: nat
      ensures Played(s)(Port(Band(Loudness, ear), Out), t) == PreFactor(s.n, s.c) * Unprocessed(s.c, Played(s), ear, t)
    {
      FlatIsPreGain(s.n, s.rate, sink, d, s.c, s.yaw, Played(s), ear, t);
    }
  }

  lemma BentWithPass(s: Setup, sink: string, d: string, ear: Ear)
    requires Playable(s) && Sane(s.n) && HeadsAreStraight(s.c) && AllAtNoGain(s.n, s.c, ear) && !NoPass(s.c)
    requires s.input == Impulse(Own(ear))
    ensures !Straight(s, ear)
  {
    hide *;
    WhatIsPlayed(s, sink, d, ear);
    GraphPlays(s, sink, d);
    ImpulseIsHeard(s, Played(s), ear);
    FlatIsPreGainIff(s.n, s.rate, sink, d, s.c, s.yaw, Played(s), ear);
  }

  lemma WhatIsPlayed(s: Setup, sink: string, d: string, ear: Ear)
    requires Playable(s)
    ensures s.rate >= 44100.0 && CorrectionInRange(s.c) && GraphIn(s, sink, d) == GraphOf(s.n, sink, d, s.c, s.yaw)
    ensures Straight(s, ear) <==> forall t: nat ::
              Played(s)(Port(Band(Loudness, ear), Out), t) == PreFactor(s.n, s.c) * Unprocessed(s.c, Played(s), ear, t)
  {
    hide Played, PreFactor, Unprocessed, CorrectionInRange;
  }

  lemma ImpulseIsHeard(s: Setup, v: Signals, ear: Ear)
    requires forall ch: Channel, t: nat :: v(Port(Pre(ch), In), t) == Impulse(Own(ear))(ch, t)
    ensures Unprocessed(s.c, v, ear, 0) == 1.0
  {
    if Spatial(s.c) && s.c.surround {
      var channels := DownmixChannels(ear);
      var own := channels[..1];
      assert channels[..4] == channels && channels[..4][..3] == channels[..3];
      assert channels[..3][..2] == channels[..2] && channels[..2][..1] == own && own[..0] == [];
      NumOfHundredths(100);
      hide Num;
      assert MixedDown(v, own, ear, 0) == Num(1.0);
      assert MixedDown(v, channels[..2], ear, 0) == Num(1.0);
      assert MixedDown(v, channels[..3], ear, 0) == Num(1.0);
    }
  }
}
