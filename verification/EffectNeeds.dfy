/** What the calls come to: whether a chain is started at all, that what plays is what was asked for, and that leaving
    out the chain changes nothing one could hear. */
module EffectNeeds {
  import opened Wrappers
  import opened Effects
  import opened EffectGraph
  import opened EffectShape
  import opened EffectMeaning
  import opened EffectSound
  import opened EffectPatch
  import EffectChain

  // ---------- whether there is anything to do ----------

  /** The filters a user sets by gains: equalizer, tilt and hearing profile. */
  predicate SetByGain(tag: Tag) { (tag.Eq? && tag.i < 10) || (tag.Tilt? && tag.i < 2) || (tag.Hearing? && tag.i < 6) }

  ghost predicate SomeGain(n: Numerics, c: Config) {
    exists ear: Ear, tag: Tag :: SetByGain(tag) && InEffect(n, c.(bypass := false), ear, tag).gain != 0.0
  }

  /** The graph of these settings would do something, the A/B switch apart. */
  ghost predicate AsksForSomething(n: Numerics, c: Config) {
    Spatial(c) || c.crossfeed || c.loudness || (c.corrected && c.correction != []) || SomeGain(n, c)
  }

  lemma NeutralIff(n: Numerics, c: Config)
    ensures IsNeutral(c) <==> !AsksForSomething(n, c)
  {
    if c.eq == NO_EQ && c.tilt == 0.0 && c.hearingLeft == NO_HEARING && c.hearingRight == NO_HEARING {
      forall ear: Ear, tag: Tag | SetByGain(tag) ensures InEffect(n, c.(bypass := false), ear, tag).gain == 0.0 {
        match tag case Eq(_) => case Tilt(_) => case Hearing(_) => case Correction(_) => case Loudness =>
      }
    } else {
      SomeGainIsSet(n, c);
    }
  }

  lemma SomeGainIsSet(n: Numerics, c: Config)
    requires c.eq != NO_EQ || c.tilt != 0.0 || c.hearingLeft != NO_HEARING || c.hearingRight != NO_HEARING
    ensures SomeGain(n, c)
  {
    var on := c.(bypass := false);
    if c.eq != NO_EQ {
      var i: nat :| i < 10 && c.eq[i] != 0.0;
      assert InEffect(n, on, LeftEar, Eq(i)).gain != 0.0;
    } else if c.tilt != 0.0 {
      assert InEffect(n, on, LeftEar, Tilt(1)).gain != 0.0;
    } else if c.hearingLeft != NO_HEARING {
      var i: nat :| i < 6 && c.hearingLeft[i] != 0.0;
      assert InEffect(n, on, LeftEar, Hearing(i)).gain != 0.0;
    } else {
      var i: nat :| i < 6 && c.hearingRight[i] != 0.0;
      assert InEffect(n, on, RightEar, Hearing(i)).gain != 0.0;
    }
  }

  /** With nothing running, and a chain that starts when told to: `Apply` plays to the chain if and only if what can be
      had of the settings asks for something, and then the chain runs their graph, straight ahead. */
  lemma ApplyStartsIff(n: Numerics, s: EffectChain.State, sink: string, d: string, c: Config, disk: EffectChain.Disk,
      written: bool, start: EffectChain.Start)
    requires s.running == None && start.chainStarts
    ensures var e := EffectChain.Effective(c, disk);
            var t := EffectChain.Next(n, s, EffectChain.Apply(sink, d, c, disk, written, start));
            && (EffectChain.Alive(t) <==> AsksForSomething(n, e))
            && (EffectChain.Alive(t) ==> t.running == Some(GraphOf(n, sink, d, e, 0.0)) && t.config == e && t.sink == sink)
            && (!EffectChain.Alive(t) ==> !t.chain && t.running == None)
  {
    NeutralIff(n, EffectChain.Effective(c, disk));
    hide EffectChain.Effective, GraphOf, Commands, IsNeutral, AsksForSomething, Patched, GraphKey;
  }

  /** The settings differ in nothing a running graph could not take over: spatial audio on or off, 7.1, the correction's
      filters, the HRTF file and the limiter are the same. */
  predicate SameShape(c: Config, e: Config) {
    && (c.spatial == Off <==> e.spatial == Off) && c.surround == e.surround && c.correction == e.correction
    && c.limiter == e.limiter && (if DefaultSofa(c.sofa) then DefaultSofa(e.sofa) else e.sofa == c.sofa)
  }

  predicate IsLive(s: EffectChain.State, sink: string, e: Config) {
    s.chain && s.running.Some? && s.ctl && s.sink == sink && SameShape(s.config, e)
  }

  lemma LiveIsUpdatable(s: EffectChain.State, sink: string, e: Config)
    ensures EffectChain.Updatable(s, sink, e) <==> IsLive(s, sink, e)
  {
  }

  ghost predicate RunsGraphOf(n: Numerics, s: EffectChain.State, sink: string, e: Config) {
    s.running.Some? && exists d, y :: s.running.value == GraphOf(n, sink, d, e, y)
  }

  /** In every run whose writes arrive: after an `Apply`, if the chain starts when told to, what can be had of the
      settings is what plays, in front of the sink asked for; the chain keeps running, and its graph its nodes and links,
      when only gains or angles differ; and nothing runs exactly if nothing is asked for and nothing could be kept. */
  lemma ApplyTakesEffect(n: Numerics, states: seq<EffectChain.State>, actions: seq<EffectChain.Action>, i: nat)
    requires EffectChain.Run(n, states, actions) && i < |actions| && actions[i].Apply? && actions[i].start.chainStarts
    requires forall k | 0 <= k <= i :: EffectChain.Delivered(actions[k])
    ensures |states| == |actions| + 1
    ensures var s, t, a := states[i], states[i + 1], actions[i];
            var e := EffectChain.Effective(a.config, a.disk);
            && (t.running.Some? <==> IsLive(s, a.target, e) || AsksForSomething(n, e))
            && (t.running.Some? ==> RunsGraphOf(n, t, a.target, e) && t.config == e && t.sink == a.target && t.yaw == 0.0)
            && (IsLive(s, a.target, e) ==> t.running.Some? && t.running.value.links == s.running.value.links
                                           && t.running.value.description == s.running.value.description)
  {
    hide *;
    RunStep(n, states, actions, i);
    EffectChain.RunGains(n, states, actions, i);
    StepTakesEffect(n, states[i], actions[i]);
  }

  lemma RunStep(n: Numerics, states: seq<EffectChain.State>, actions: seq<EffectChain.Action>, i: nat)
    requires EffectChain.Run(n, states, actions) && i < |actions|
    ensures |states| == |actions| + 1 && states[i + 1] == EffectChain.Next(n, states[i], actions[i])
  {
    hide EffectChain.Next;
  }

  lemma StepTakesEffect(n: Numerics, s: EffectChain.State, a: EffectChain.Action)
    requires EffectChain.GainsInStep(n, s) && a.Apply? && a.start.chainStarts && EffectChain.Delivered(a)
    ensures var t, e := EffectChain.Next(n, s, a), EffectChain.Effective(a.config, a.disk);
            && (t.running.Some? <==> IsLive(s, a.target, e) || AsksForSomething(n, e))
            && (t.running.Some? ==> RunsGraphOf(n, t, a.target, e) && t.config == e && t.sink == a.target && t.yaw == 0.0)
            && (IsLive(s, a.target, e) ==> t.running.Some? && t.running.value.links == s.running.value.links
                                           && t.running.value.description == s.running.value.description)
  {
    var t, e := EffectChain.Next(n, s, a), EffectChain.Effective(a.config, a.disk);
    LiveIsUpdatable(s, a.target, e);
    NeutralIff(n, e);
    EffectChain.StepGains(n, s, a);
    PatchKeepsLinks(s.running, Commands(n, e, 0.0));
    StepRecords(n, s, a);
    hide *;
    GainsAreThere(n, t);
  }

  lemma PatchKeepsLinks(running: Option<Graph>, cmds: seq<Command>)
    ensures running.Some? ==> Patched(running.value, cmds).links == running.value.links
                              && Patched(running.value, cmds).description == running.value.description
  {
    if running.Some? {
      PatchedNodeByNode(running.value, cmds);
      hide Patched;
    }
  }

  lemma StepRecords(n: Numerics, s: EffectChain.State, a: EffectChain.Action)
    requires a.Apply? && a.start.chainStarts && EffectChain.Delivered(a)
    ensures var t, e := EffectChain.Next(n, s, a), EffectChain.Effective(a.config, a.disk);
            && (t.running.Some? <==> EffectChain.Updatable(s, a.target, e) || !IsNeutral(e))
            && (t.running.Some? ==> t.config == e && t.sink == a.target && t.yaw == 0.0)
            && (EffectChain.Updatable(s, a.target, e) ==>
                  s.running.Some?
                  && (t.running == s.running || t.running == Some(Patched(s.running.value, Commands(n, e, 0.0)))))
  {
    hide EffectChain.Effective, GraphOf, Commands, IsNeutral, Patched, GraphKey;
  }

  lemma GainsAreThere(n: Numerics, t: EffectChain.State)
    requires EffectChain.GainsInStep(n, t)
    ensures t.running.Some? ==> RunsGraphOf(n, t, t.sink, t.config)
  {
    hide GraphOf;
  }

  // ---------- the head and the volume are followed ----------

  /** With head tracking the recorded yaw follows the head up to a degree and a half, unless the last turn was sent less
      than 50 ms ago; without it nothing turns. */
  lemma YawFollows(n: Numerics, s: EffectChain.State, degrees: real, now: int, written: bool)
    ensures var t := EffectChain.Next(n, s, EffectChain.SetYaw(degrees, now, written));
            && (s.ctl && s.config.spatial == HeadTracked ==> -1.5 < degrees - t.yaw < 1.5 || now - s.yawSentAt < 50)
            && (!(s.ctl && s.config.spatial == HeadTracked) ==> t == s)
            && t.config == s.config && t.sink == s.sink && t.chain == s.chain && t.ctl == s.ctl
            && (t != s ==> t.yaw == degrees && t.yawSentAt == now && now - s.yawSentAt >= 50
                           && (degrees - s.yaw >= 1.5 || s.yaw - degrees >= 1.5))
  {
    hide AzimuthCommands, Patched, GraphKey;
  }

  /** With the loudness compensation on, the recorded volume of the headphones the chain plays into follows theirs up to
      half a percent; other headphones' volume, or without it, changes nothing. */
  lemma VolumeFollows(n: Numerics, s: EffectChain.State, playsInto: bool, volume: real, written: bool)
    ensures var t := EffectChain.Next(n, s, EffectChain.SetVolume(playsInto, volume, written));
            && (s.ctl && s.config.loudness && playsInto ==> -0.005 < volume - t.config.volume < 0.005)
            && (!(s.ctl && s.config.loudness && playsInto) ==> t == s)
            && t.config.(volume := s.config.volume) == s.config && t.yaw == s.yaw
            && (t != s ==> t.config.volume == volume
                           && (volume - s.config.volume >= 0.005 || s.config.volume - volume >= 0.005))
  {
    hide Commands, Patched, GraphKey;
  }

  // ---------- what is left when it stops ----------

  /** With a chain its sink is recorded, and without one nothing is. */
  predicate Recorded(s: EffectChain.State) {
    && (s.chain <==> s.sink != "")
    && (!s.chain ==> !s.ctl && s.config == NOTHING && s.running == None)
  }

  /** In every run, as long as a chain is only asked for in front of a named sink. */
  lemma {:induction false} NothingIsLeft(n: Numerics, states: seq<EffectChain.State>, actions: seq<EffectChain.Action>,
      i: nat)
    requires EffectChain.Run(n, states, actions) && i <= |actions|
    requires forall k | 0 <= k < i :: actions[k].Apply? ==> actions[k].target != ""
    ensures Recorded(states[i])
  {
    if i > 0 {
      NothingIsLeft(n, states, actions, i - 1);
      RunStep(n, states, actions, i - 1);
      hide EffectChain.Effective, GraphOf, Commands, AzimuthCommands, IsNeutral, Patched, GraphKey;
    }
  }

  /** So headphones that go away take down the chain if and only if it plays into them, and with it all that was
      recorded of it; a chain in front of others goes on as it was. */
  lemma StopForIff(n: Numerics, states: seq<EffectChain.State>, actions: seq<EffectChain.Action>, i: nat)
    requires EffectChain.Run(n, states, actions) && i < |actions| && actions[i].StopFor?
    requires forall k | 0 <= k < i :: actions[k].Apply? ==> actions[k].target != ""
    ensures |states| == |actions| + 1
    ensures states[i].chain ==> (!states[i + 1].chain <==> actions[i].playsInto)
    ensures states[i + 1] == states[i] || (states[i].chain && actions[i].playsInto)
    ensures Recorded(states[i + 1])
  {
    NothingIsLeft(n, states, actions, i);
    NothingIsLeft(n, states, actions, i + 1);
    RunStep(n, states, actions, i);
  }

  /** Nor is anything left of a chain whose replacement does not start. */
  lemma FailedStart(n: Numerics, s: EffectChain.State, a: EffectChain.Action)
    requires a.Apply? && !a.start.chainStarts && Recorded(s) && a.target != ""
    ensures var t, e := EffectChain.Next(n, s, a), EffectChain.Effective(a.config, a.disk);
            && (t.chain <==> IsLive(s, a.target, e) && (e == s.config || a.written))
            && (t.chain ==> t.sink == s.sink && t.config == e && t.running.Some?) && Recorded(t)
  {
    LiveIsUpdatable(s, a.target, EffectChain.Effective(a.config, a.disk));
    hide EffectChain.Effective, GraphOf, Commands, IsNeutral, Patched, GraphKey, IsLive;
  }

  // ---------- what one misses without a chain ----------

  lemma NothingAskedIsFlat(n: Numerics, c: Config, ear: Ear)
    requires !AsksForSomething(n, c)
    ensures AllAtNoGain(n, c, ear) && HeadsAreStraight(c) && !(Spatial(c) && c.surround)
  {
    NeutralIff(n, c);
    forall tag | tag in Tags(|c.correction|) ensures AtNoGain(n, c, ear, tag) {
      TagIsOne(|c.correction|, tag);
      FlatTag(n, c, ear, tag);
    }
    hide Tags, AtNoGain, AsksForSomething;
  }

  lemma FlatTag(n: Numerics, c: Config, ear: Ear, tag: Tag)
    requires IsNeutral(c)
    requires match tag
             case Eq(i) => i < 10
             case Tilt(i) => i < 2
             case Correction(i) => i < |c.correction|
             case Hearing(i) => i < 6
             case Loudness => true
    ensures AtNoGain(n, c, ear, tag)
  {
    NumOfHundredths(0);
    hide Num;
    match tag case Eq(_) => case Tilt(_) => case Correction(_) => case Hearing(_) => case Loudness =>
  }

  /** Settings that ask for nothing: had their graph a chain, each ear would get its own channel at the pre-gain, for every
      input, if and only if the correction, though off, holds no low-pass and no high-pass; then nothing is missed
      without the chain but the pre-gain. */
  lemma NothingIsMissedIff(s: Setup, sink: string, d: string, ear: Ear)
    requires Playable(s) && Sane(s.n) && !AsksForSomething(s.n, s.c)
    ensures NoPass(s.c) <==> forall input :: Straight(s.(input := input), ear)
    ensures forall t: nat :: Unprocessed(s.c, Played(s), ear, t) == s.input(if ear == LeftEar then L else R, t)
  {
    NothingAskedIsFlat(s.n, s.c, ear);
    UnprocessedIsOwn(s, sink, d, ear);
    hide *;
    FlatIsStraightIff(s, sink, d, ear);
  }

  lemma UnprocessedIsOwn(s: Setup, sink: string, d: string, ear: Ear)
    requires Playable(s) && Sane(s.n) && !(Spatial(s.c) && s.c.surround)
    ensures forall t: nat :: Unprocessed(s.c, Played(s), ear, t) == s.input(if ear == LeftEar then L else R, t)
  {
    GraphPlays(s, sink, d);
    hide Played, Runs, Sane, GraphIn;
  }

  /** No HRTF file and the path of the default one are the same to the graph: the KEMAR's, with its crossover. */
  lemma NoSofaIsTheDefault(n: Numerics, sink: string, d: string, c: Config, yaw: real)
    ensures var none, named := c.(sofa := ""), c.(sofa := "/usr/share/libmysofa/default.sofa");
            GraphOf(n, sink, d, none, yaw) == GraphOf(n, sink, d, named, yaw) && Kemar(GraphKey(none))
  {
    var none, named := c.(sofa := ""), c.(sofa := "/usr/share/libmysofa/default.sofa");
    assert GraphKey(none) == GraphKey(named);
    var names := Names(GraphKey(none));
    forall i | 0 <= i < |names| ensures NodeOf(n, none, yaw, names[i]) == NodeOf(n, named, yaw, names[i]) {
      SameNodes(n, c, yaw, names[i]);
    }
    hide NodeOf, Names, LinksTo, DrivenPorts, GraphInputs, GraphKey, EarOutput, Speakers, Clean;
  }

  lemma SameNodes(n: Numerics, c: Config, yaw: real, id: NodeId)
    ensures NodeOf(n, c.(sofa := ""), yaw, id) == NodeOf(n, c.(sofa := "/usr/share/libmysofa/default.sofa"), yaw, id)
  {
    var none, named := c.(sofa := ""), c.(sofa := "/usr/share/libmysofa/default.sofa");
    assert GraphKey(none) == GraphKey(named) && MixGains(none) == MixGains(named);
    SameHeadroom(n, c);
    hide GraphKey, MixGains, HeadroomDb, Num, Clean, Azimuth, High, HIGHS, Downmix;
    match id case Pre(_) => case Xl(_) => case Xm(_) => case Sc(_, _) => case Sp(_) => case Bass => case Lp(_) =>
    case Hrtf(_) => case Dm(_) => case Mix(_) => case Band(_, _) => case Lim =>
  }

  lemma SameHeadroom(n: Numerics, c: Config)
    ensures HeadroomDb(n, c.(sofa := "")) == HeadroomDb(n, c.(sofa := "/usr/share/libmysofa/default.sofa"))
  {
    var none, named := c.(sofa := "", bypass := false), c.(sofa := "/usr/share/libmysofa/default.sofa", bypass := false);
    assert Filters(n, none, LeftEar) == Filters(n, named, LeftEar) && Filters(n, none, RightEar) == Filters(n, named, RightEar);
    assert c.(sofa := "").(bypass := false) == none && c.(sofa := "/usr/share/libmysofa/default.sofa").(bypass := false) == named;
    hide Filters;
  }
}
