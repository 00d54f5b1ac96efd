/** The effects a user sets for a pair of headphones, and the filters of each ear they come to.
    Numbers are reals; what the effects take from measured tables or from transcendental functions is in `Numerics`. */
module Effects {

  // ---------- settings ----------

  datatype FilterType = Peaking | LowShelf | HighShelf | LowPass | HighPass

  datatype Biquad = Biquad(kind: FilterType, freq: real, gain: real, q: real)

  datatype SpatialMode = Off | Fixed | HeadTracked

  datatype Ear = LeftEar | RightEar

  type EqBands = s: seq<real> | |s| == 10 witness [0.0, 0.0, 0.0, 0.0, 0.0, 0.0, 0.0, 0.0, 0.0, 0.0]

  type Audiogram = s: seq<real> | |s| == 6 witness [0.0, 0.0, 0.0, 0.0, 0.0, 0.0]

  datatype Config = Config(
    spatial: SpatialMode,
    surround: bool,
    eq: EqBands,
    tilt: real,
    correction: seq<Biquad>,
    corrected: bool,
    crossfeed: bool,
    loudness: bool,
    volume: real,
    loudnessReference: real,
    hearingLeft: Audiogram,
    hearingRight: Audiogram,
    bypass: bool,
    sofa: string,
    limiter: string
  )

  const NO_EQ: EqBands := [0.0, 0.0, 0.0, 0.0, 0.0, 0.0, 0.0, 0.0, 0.0, 0.0]
  const NO_HEARING: Audiogram := [0.0, 0.0, 0.0, 0.0, 0.0, 0.0]
  const NOTHING := Config(Off, false, NO_EQ, 0.0, [], false, false, false, 1.0, 90.0, NO_HEARING, NO_HEARING, false, "", "")
  const SOFA_FILE := "/usr/share/libmysofa/default.sofa"

  predicate Spatial(c: Config) { c.spatial != Off }

  predicate DefaultSofa(sofa: string) { sofa == "" || sofa == SOFA_FILE }

  predicate HasBass(c: Config) { Spatial(c) && (DefaultSofa(c.sofa) || c.surround) }

  predicate IsNeutral(c: Config) {
    c.spatial == Off && c.eq == NO_EQ && c.tilt == 0.0 && !(c.corrected && c.correction != []) && !c.crossfeed
    && !c.loudness && c.hearingLeft == NO_HEARING && c.hearingRight == NO_HEARING
  }

  // ---------- numbers ----------

  datatype Numerics = Numerics(
    peakDb: (seq<Filter>, seq<Filter>, bool) -> real,  // peak of both ears' curves, with the crossfeed's worst case if on
    loudnessDb: (real, real) -> real,                  // the loudness shelf at a volume and reference
    crossfeedGain: real,
    power: real -> real,                               // 10 to the x
    root: real -> real,
    sin: real -> real,                                 // of an angle in turns
    cos: real -> real
  )

  predicate PowerAdds(n: Numerics, x: real, y: real) { n.power(x + y) == n.power(x) * n.power(y) }

  /** What the proofs use of them. */
  ghost predicate Sane(n: Numerics) {
    && n.power(0.0) == 1.0 && (forall x: real, y: real :: PowerAdds(n, x, y))
    && n.root(1.0) == 1.0 && (forall x: real | x >= 0.0 :: n.root(x) >= 0.0)
    && n.sin(0.0) == 0.0 && n.cos(0.0) == 1.0
    && (forall x: real | 0.0 < x < 0.5 :: n.sin(x) > 0.0)
    && (forall x: real :: -1.0 <= n.cos(x) <= 1.0)
  }

  /** The value of a number as the text of the graph and its commands has it: two decimals, ties to even. */
  function Num(v: real): real {
    Hundredths(v * 100.0) as real / 100.0
  }

  function Hundredths(h: real): int {
    var below := h.Floor;
    if h - below as real < 0.5 || (h - below as real == 0.5 && below % 2 == 0) then below else below + 1
  }

  lemma NumIsNear(v: real)
    ensures v - 0.005 <= Num(v) <= v + 0.005
  {
  }

  lemma NumOfHundredths(k: int)
    ensures Num(k as real / 100.0) == k as real / 100.0
  {
    var h := k as real / 100.0 * 100.0;
    assert h == k as real && h.Floor == k;
  }

  lemma NumIsOdd(v: real)
    ensures Num(-v) == -Num(v)
  {
    var h := v * 100.0;
    assert -v * 100.0 == -h;
    var below := h.Floor;
    if h == below as real {
      assert (-h).Floor == -below;
    } else {
      assert (-h).Floor == -below - 1;
    }
  }

  /** The angle of a speaker against the turned head, in degrees. */
  function Azimuth(base: real, yaw: real): real {
    Remainder(Remainder(base + yaw) + 360.0)
  }

  /** `fmod(x, 360)`: the remainder has the sign of `x`. */
  function Remainder(x: real): real {
    if x >= 0.0 then x - (x / 360.0).Floor as real * 360.0 else x + (-x / 360.0).Floor as real * 360.0
  }

  predicate IsTurned(angle: real, base: real, yaw: real, turns: int) { angle == base + yaw + turns as real * 360.0 }

  lemma AzimuthIsTheAngle(base: real, yaw: real)
    ensures 0.0 <= Azimuth(base, yaw) < 360.0
    ensures exists turns: int :: IsTurned(Azimuth(base, yaw), base, yaw, turns)
  {
    var x := base + yaw;
    var whole := if x >= 0.0 then -(x / 360.0).Floor else (-x / 360.0).Floor;
    var r := Remainder(x);
    assert r == x + whole as real * 360.0 && -360.0 < r < 360.0;
    var more := ((r + 360.0) / 360.0).Floor;
    assert IsTurned(Azimuth(base, yaw), base, yaw, whole + 1 - more);
  }

  // ---------- the filters of an ear ----------

  datatype Tag = Eq(i: nat) | Tilt(i: nat) | Correction(i: nat) | Hearing(i: nat) | Loudness

  datatype Filter = Filter(tag: Tag, bq: Biquad)

  const EQ_FREQS: seq<real> := [32.0, 64.0, 125.0, 250.0, 500.0, 1000.0, 2000.0, 4000.0, 8000.0, 16000.0]
  const HEARING_FREQS: seq<real> := [250.0, 500.0, 1000.0, 2000.0, 4000.0, 8000.0]
  const EQ_TAGS: seq<Tag> := [Eq(0), Eq(1), Eq(2), Eq(3), Eq(4), Eq(5), Eq(6), Eq(7), Eq(8), Eq(9)]
  const TILT_TAGS: seq<Tag> := [Tilt(0), Tilt(1)]
  const HEARING_TAGS: seq<Tag> := [Hearing(0), Hearing(1), Hearing(2), Hearing(3), Hearing(4), Hearing(5)]

  function CorrectionTags(count: nat): seq<Tag> { seq(count, (i: nat) => Correction(i)) }

  /** In signal order. */
  function Tags(count: nat): (tags: seq<Tag>)
    ensures |tags| == 19 + count
  {
    EQ_TAGS + TILT_TAGS + CorrectionTags(count) + HEARING_TAGS + [Loudness]
  }

  function At(s: seq<real>, i: nat): real { if i < |s| then s[i] else 0.0 }

  function Thresholds(c: Config, ear: Ear): Audiogram { if ear == LeftEar then c.hearingLeft else c.hearingRight }

  function LoudnessShelf(n: Numerics, c: Config): Biquad {
    Biquad(LowShelf, 140.0, if c.loudness then n.loudnessDb(c.volume, c.loudnessReference) else 0.0, 0.55)
  }

  function Silenced(bq: Biquad): Biquad { bq.(gain := 0.0) }

  function Effect(n: Numerics, c: Config, ear: Ear, tag: Tag): Biquad {
    match tag
    case Eq(i) => Biquad(Peaking, At(EQ_FREQS, i), At(c.eq, i), 1.41)
    case Tilt(i) => if i == 0 then Biquad(LowShelf, 1000.0, -c.tilt, 0.4) else Biquad(HighShelf, 1000.0, c.tilt, 0.4)
    case Correction(i) =>
      var bq := if i < |c.correction| then c.correction[i] else Biquad(Peaking, 1000.0, 0.0, 1.0);
      if c.corrected then bq else Silenced(bq)
    case Hearing(i) => Biquad(Peaking, At(HEARING_FREQS, i), At(Thresholds(c, ear), i), 1.41)
    case Loudness => LoudnessShelf(n, c)
  }

  /** With the gain in effect: 0 dB in the bypass. */
  function InEffect(n: Numerics, c: Config, ear: Ear, tag: Tag): Biquad {
    if c.bypass then Silenced(Effect(n, c, ear, tag)) else Effect(n, c, ear, tag)
  }

  function FiltersOf(n: Numerics, c: Config, ear: Ear, tags: seq<Tag>): seq<Filter> {
    seq(|tags|, p requires 0 <= p < |tags| => Filter(tags[p], InEffect(n, c, ear, tags[p])))
  }

  function Filters(n: Numerics, c: Config, ear: Ear): seq<Filter> {
    FiltersOf(n, c, ear, Tags(|c.correction|))
  }

  function Unsilenced(n: Numerics, c: Config, ear: Ear, tags: seq<Tag>): seq<Filter> {
    seq(|tags|, p requires 0 <= p < |tags| => Filter(tags[p], Effect(n, c, ear, tags[p])))
  }

  /** The filters as the loops collect them. */
  method CollectFilters(n: Numerics, c: Config, ear: Ear) returns (filters: seq<Filter>)
    ensures filters == Filters(n, c, ear)
  {
    hide Effect, Tags;
    filters := CollectEqAndTilt(n, c, ear);
    ghost var before := EQ_TAGS + TILT_TAGS;
    for i := 0 to |c.correction|
      invariant filters == Unsilenced(n, c, ear, before + CorrectionTags(i))
    {
      var bq := c.correction[i];
      if !c.corrected {
        bq := bq.(gain := 0.0);
      }
      assert bq == Effect(n, c, ear, Correction(i)) by { CorrectionInEffect(n, c, ear, i); }
      UnsilencedNext(n, c, ear, before + CorrectionTags(i), Correction(i));
      assert before + CorrectionTags(i) + [Correction(i)] == before + CorrectionTags(i + 1);
      filters := filters + [Filter(Correction(i), bq)];
    }
    before := before + CorrectionTags(|c.correction|);
    var hearing := CollectHearing(n, c, ear);
    UnsilencedConcat(n, c, ear, before, HEARING_TAGS + [Loudness]);
    filters := filters + hearing;
    TagsAre(|c.correction|);
    if c.bypass {
      filters := ZeroGains(filters);
    }
  }

  method CollectEqAndTilt(n: Numerics, c: Config, ear: Ear) returns (filters: seq<Filter>)
    ensures filters == Unsilenced(n, c, ear, EQ_TAGS + TILT_TAGS)
  {
    filters := [];
    for b := 0 to |EQ_FREQS|
      invariant filters == Unsilenced(n, c, ear, EQ_TAGS[..b])
    {
      UnsilencedNext(n, c, ear, EQ_TAGS[..b], Eq(b));
      assert EQ_TAGS[..b] + [Eq(b)] == EQ_TAGS[..b + 1];
      filters := filters + [Filter(Eq(b), Biquad(Peaking, EQ_FREQS[b], c.eq[b], 1.41))];
    }
    filters := filters + [Filter(Tilt(0), Biquad(LowShelf, 1000.0, -c.tilt, 0.4))];
    filters := filters + [Filter(Tilt(1), Biquad(HighShelf, 1000.0, c.tilt, 0.4))];
    assert EQ_TAGS[..10] == EQ_TAGS;
    UnsilencedConcat(n, c, ear, EQ_TAGS, TILT_TAGS);
    assert Unsilenced(n, c, ear, TILT_TAGS)
        == [Filter(Tilt(0), Effect(n, c, ear, Tilt(0))), Filter(Tilt(1), Effect(n, c, ear, Tilt(1)))];
  }

  method CollectHearing(n: Numerics, c: Config, ear: Ear) returns (filters: seq<Filter>)
    ensures filters == Unsilenced(n, c, ear, HEARING_TAGS + [Loudness])
  {
    filters := [];
    var thresholds := Thresholds(c, ear);
    for i := 0 to |HEARING_FREQS|
      invariant filters == Unsilenced(n, c, ear, HEARING_TAGS[..i])
    {
      UnsilencedNext(n, c, ear, HEARING_TAGS[..i], Hearing(i));
      assert HEARING_TAGS[..i] + [Hearing(i)] == HEARING_TAGS[..i + 1];
      filters := filters + [Filter(Hearing(i), Biquad(Peaking, HEARING_FREQS[i], thresholds[i], 1.41))];
    }
    UnsilencedNext(n, c, ear, HEARING_TAGS, Loudness);
    assert HEARING_TAGS[..6] == HEARING_TAGS;
    filters := filters + [Filter(Loudness, LoudnessShelf(n, c))];
  }

  lemma CorrectionInEffect(n: Numerics, c: Config, ear: Ear, i: nat)
    requires i < |c.correction|
    ensures Effect(n, c, ear, Correction(i)) == if c.corrected then c.correction[i] else c.correction[i].(gain := 0.0)
  {
  }

  lemma TagsAre(count: nat)
    ensures Tags(count) == EQ_TAGS + TILT_TAGS + CorrectionTags(count) + (HEARING_TAGS + [Loudness])
  {
  }

  lemma UnsilencedNext(n: Numerics, c: Config, ear: Ear, tags: seq<Tag>, tag: Tag)
    ensures Unsilenced(n, c, ear, tags + [tag]) == Unsilenced(n, c, ear, tags) + [Filter(tag, Effect(n, c, ear, tag))]
  {
    hide Effect;
  }

  lemma UnsilencedConcat(n: Numerics, c: Config, ear: Ear, a: seq<Tag>, b: seq<Tag>)
    ensures Unsilenced(n, c, ear, a + b) == Unsilenced(n, c, ear, a) + Unsilenced(n, c, ear, b)
  {
    hide Effect;
  }

  method ZeroGains(filters: seq<Filter>) returns (zeroed: seq<Filter>)
    ensures |zeroed| == |filters|
    ensures forall p | 0 <= p < |filters| :: zeroed[p] == Filter(filters[p].tag, Silenced(filters[p].bq))
  {
    zeroed := filters;
    for p := 0 to |filters|
      invariant |zeroed| == |filters|
      invariant forall k | 0 <= k < p :: zeroed[k] == Filter(filters[k].tag, Silenced(filters[k].bq))
      invariant forall k | p <= k < |filters| :: zeroed[k] == filters[k]
    {
      zeroed := zeroed[p := Filter(filters[p].tag, filters[p].bq.(gain := 0.0))];
    }
  }

  // ---------- the pre-gain ----------

  function SpatialDb(c: Config): real {
    if !Spatial(c) then 0.0
    else (if c.limiter != "" then 3.0 else if c.spatial == Fixed then 10.4 else 12.2) + if c.surround then 3.0 else 0.0
  }

  /** How far the chain lifts an input; the A/B side keeps the effects' value. */
  function HeadroomDb(n: Numerics, c: Config): real {
    var effects := c.(bypass := false);
    n.peakDb(Filters(n, effects, LeftEar), Filters(n, effects, RightEar), c.crossfeed && !Spatial(c)) + SpatialDb(c)
  }

  /** The A/B switch changes no pre-gain, so both sides play equally loud. */
  lemma BypassKeepsHeadroom(n: Numerics, c: Config)
    ensures HeadroomDb(n, c.(bypass := true)) == HeadroomDb(n, c.(bypass := false))
  {
    assert c.(bypass := true).(bypass := false) == c.(bypass := false).(bypass := false);
  }

  // ---------- gains of the mixers ----------

  function CrossfeedGain(n: Numerics, c: Config): real {
    if c.crossfeed && !c.bypass then n.crossfeedGain else 0.0
  }

  /** Of an ear's final mixer: the virtual speakers, the bass path, the unprocessed input. */
  function MixGains(c: Config): (gains: seq<real>)
    ensures |gains| == 3
  {
    if c.bypass then [0.0, 0.0, 1.0] else [1.0, if HasBass(c) then 1.0 else 0.0, 0.0]
  }
}
