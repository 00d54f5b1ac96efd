/** The chain in front of the headphones: a child process runs a graph, and what is set is either sent to it or
    starts it anew. `running` is the child's graph; a write that is not delivered leaves it as it is. */
module EffectChain {
  import opened Wrappers
  import opened Effects
  import opened EffectGraph
  import opened EffectBuild
  import opened EffectPatch
  import opened EffectShape

  datatype State = State(
    chain: bool,          // a child was started, not yet found gone
    ctl: bool,            // there is a pipe for commands
    sink: string,
    config: Config,
    yaw: real,
    yawSentAt: int,
    running: Option<Graph>
  )

  const FRESH := State(false, false, "", NOTHING, 0.0, 0, None)

  /** Which HRTF files exist, and the limiter found. */
  datatype Disk = Disk(sofa: bool, defaultSofa: bool, limiter: string)

  datatype Start = Start(chainStarts: bool, ctlStarts: bool)

  /** The HRTF file of the settings' own is there. */
  predicate HasOwnSofa(c: Config, disk: Disk) { !DefaultSofa(c.sofa) && disk.sofa }

  /** Spatial audio is wanted and some HRTF file can be had. */
  predicate StaysSpatial(c: Config, disk: Disk) { Spatial(c) && (HasOwnSofa(c, disk) || disk.defaultSofa) }

  /** What of the settings can be had: spatial audio as long as there is a file for it, 7.1 only with spatial audio,
      the limiter found, and all else as wanted. */
  function Effective(c: Config, disk: Disk): Config {
    c.(spatial := if StaysSpatial(c, disk) then c.spatial else Off,
       surround := c.surround && StaysSpatial(c, disk),
       sofa := if Spatial(c) && !disk.sofa && !DefaultSofa(c.sofa) then "" else c.sofa,
       limiter := disk.limiter)
  }

  /** Whoever sets it up finds what it names: the wanted HRTF file if it is there, else the default one; and nothing
      is lost by setting the same up once more. */
  lemma EffectiveCanBeHad(c: Config, disk: Disk)
    ensures var e := Effective(c, disk);
            && (Spatial(e) <==> StaysSpatial(c, disk))
            && (Spatial(e) ==> if DefaultSofa(e.sofa) then disk.defaultSofa else disk.sofa && e.sofa == c.sofa)
            && (e.surround ==> Spatial(e)) && e.limiter == disk.limiter
            && (e.sofa == c.sofa || (e.sofa == "" && Spatial(c) && !DefaultSofa(c.sofa) && !disk.sofa))
            && e.(spatial := c.spatial, surround := c.surround, sofa := c.sofa, limiter := c.limiter) == c
            && (Spatial(e) ==> e.spatial == c.spatial && e.surround == c.surround)
            && Effective(e, disk) == e
  {
    var e := Effective(c, disk);
    assert StaysSpatial(e, disk) <==> StaysSpatial(c, disk);
  }

  function Stopped(s: State): State {
    s.(chain := false, ctl := false, sink := "", config := NOTHING, running := None)
  }

  predicate Alive(s: State) { s.chain && s.running.Some? }

  /** The running chain can be updated to the settings. */
  predicate Updatable(s: State, sink: string, e: Config) {
    Alive(s) && s.ctl && sink == s.sink && GraphKey(e) == GraphKey(s.config)
  }

  function Sent(s: State, cmds: seq<Command>, delivered: bool): Option<Graph> {
    if delivered && s.running.Some? then Some(Patched(s.running.value, cmds)) else s.running
  }

  datatype Action =
    | Apply(target: string, description: string, config: Config, disk: Disk, written: bool, start: Start)
    | SetYaw(degrees: real, now: int, written: bool)
    | SetVolume(playsInto: bool, volume: real, written: bool)
    | StopFor(playsInto: bool)
    | Dies                       // the child ends

  function Abs(x: real): real { if x < 0.0 then -x else x }

  function Next(n: Numerics, s: State, a: Action): State {
    match a
    case Apply(sink, d, c, disk, written, start) =>
      var e := Effective(c, disk);
      if Updatable(s, sink, e) && (e == s.config || written) then
        s.(config := e, yaw := 0.0, running := if e == s.config then s.running else Sent(s, Commands(n, e, 0.0), true))
      else if IsNeutral(e) || !start.chainStarts then Stopped(s)
      else State(true, start.ctlStarts, sink, e, 0.0, s.yawSentAt, Some(GraphOf(n, sink, d, e, 0.0)))
    case SetYaw(degrees, now, written) =>
      if Turns(s, degrees, now) then
        s.(yaw := degrees, yawSentAt := now, running := Sent(s, AzimuthCommands(GraphKey(s.config), degrees), written))
      else s
    case SetVolume(playsInto, volume, written) =>
      if MovesVolume(s, playsInto, volume) then
        s.(config := s.config.(volume := volume),
            running := Sent(s, Commands(n, s.config.(volume := volume), s.yaw), written))
      else s
    case StopFor(playsInto) => if s.sink != "" && playsInto then Stopped(s) else s
    case Dies => s.(running := None)
  }

  predicate Turns(s: State, degrees: real, now: int) {
    s.ctl && s.config.spatial == HeadTracked && Abs(degrees - s.yaw) >= 1.5 && now - s.yawSentAt >= 50
  }

  predicate MovesVolume(s: State, playsInto: bool, volume: real) {
    s.ctl && s.config.loudness && playsInto && Abs(volume - s.config.volume) >= 0.005
  }

  // ---------- as the methods update it ----------

  class AudioEffects {
    const n: Numerics
    var chain: bool
    var ctl: bool
    var sink: string
    var config: Config
    var yaw: real
    var yawSentAt: int
    var running: Option<Graph>
    var hold: bool

    function Now(): State reads this {
      State(chain, ctl, sink, config, yaw, yawSentAt, running)
    }

    constructor (numerics: Numerics)
      ensures Now() == FRESH && n == numerics && !hold
    {
      n := numerics;
      chain, ctl, sink, config, yaw, yawSentAt, running, hold := false, false, "", NOTHING, 0.0, 0, None, false;
    }

    /** Returns the sink to play to: the chain's (`None`), or the headphones' own. */
    method Apply(target: string, description: string, wanted: Config, disk: Disk, written: bool, start: Start)
      returns (playTo: Option<string>)
      modifies this`chain, this`ctl, this`sink, this`config, this`yaw, this`running
      ensures Now() == Next(n, old(Now()), Action.Apply(target, description, wanted, disk, written, start))
      ensures playTo == if Alive(Now()) then None else Some(target)
    {
      var c := Available(wanted, disk);
      hide Effective, GraphKey, GraphOf, Commands, IsNeutral, Patched;
      if chain && running.Some? && ctl && target == sink && GraphKey(c) == GraphKey(config) {
        var cmds := ControlCommand(n, c, 0.0);
        if c == config || written {
          running := if c == config then running else Some(Patched(running.value, cmds));
          config := c;
          yaw := 0.0;
          return None;
        }
      }
      var started := StartChain(target, description, c, start);
      return if started then None else Some(target);
    }

    /** What of the settings is there to be had. */
    method Available(wanted: Config, disk: Disk) returns (c: Config)
      ensures c == Effective(wanted, disk)
      ensures Spatial(c) <==> StaysSpatial(wanted, disk)
      ensures Spatial(c) ==> if DefaultSofa(c.sofa) then disk.defaultSofa else disk.sofa && c.sofa == wanted.sofa
      ensures (c.surround ==> Spatial(c)) && c.limiter == disk.limiter
    {
      EffectiveCanBeHad(wanted, disk);
      var sofa, spatial := wanted.sofa, wanted.spatial;
      if spatial != Off && !DefaultSofa(sofa) && !disk.sofa {
        sofa := "";
      }
      if spatial != Off && DefaultSofa(sofa) && !disk.defaultSofa {
        spatial := Off;
      }
      var surround := wanted.surround;
      if spatial == Off {
        surround := false;
      }
      c := wanted.(spatial := spatial, surround := surround, sofa := sofa, limiter := disk.limiter);
    }

    method StartChain(target: string, description: string, c: Config, start: Start) returns (started: bool)
      modifies this`chain, this`ctl, this`sink, this`config, this`yaw, this`running
      ensures started == (!IsNeutral(c) && start.chainStarts)
      ensures Now() == if started then State(true, start.ctlStarts, target, c, 0.0, old(yawSentAt),
          Some(GraphOf(n, target, description, c, 0.0)))
                       else Stopped(old(Now()))
    {
      hide GraphOf, IsNeutral;
      Stop();
      if IsNeutral(c) || !start.chainStarts {
        return false;
      }
      var graph := BuildConfig(n, target, description, c, 0.0);
      chain := true;
      ctl := start.ctlStarts;
      running := Some(graph);
      sink := target;
      config := c;
      yaw := 0.0;
      return true;
    }

    method Stop()
      modifies this`chain, this`ctl, this`sink, this`config, this`running
      ensures Now() == Stopped(old(Now()))
    {
      ctl := false;
      chain := false;
      running := None;
      sink := "";
      config := NOTHING;
    }

    /** One pair going away does not take the chain from another. */
    method StopFor(playsInto: bool)
      modifies this`chain, this`ctl, this`sink, this`config, this`running
      ensures Now() == Next(n, old(Now()), Action.StopFor(playsInto))
    {
      if sink != "" && playsInto {
        Stop();
      }
    }

    method SetYaw(degrees: real, now: int, written: bool)
      modifies this`yaw, this`yawSentAt, this`running
      ensures Now() == Next(n, old(Now()), Action.SetYaw(degrees, now, written))
    {
      hide GraphKey, AzimuthCommands, Patched;
      if !ctl || config.spatial != HeadTracked || Abs(degrees - yaw) < 1.5 || now - yawSentAt < 50 {
        return;
      }
      yaw := degrees;
      yawSentAt := now;
      var cmds := AzimuthParams(config, degrees);
      running := if written && running.Some? then Some(Patched(running.value, cmds)) else running;
    }

    method SetVolume(playsInto: bool, volume: real, written: bool)
      modifies this`config, this`running
      ensures Now() == Next(n, old(Now()), Action.SetVolume(playsInto, volume, written))
    {
      hide GraphKey, Commands, Patched;
      if !ctl || !config.loudness || !playsInto || Abs(volume - config.volume) < 0.005 {
        return;
      }
      config := config.(volume := volume);
      var cmds := ControlCommand(n, config, yaw);
      running := if written && running.Some? then Some(Patched(running.value, cmds)) else running;
    }

    /** The silent output lives as long as its process. */
    method HoldSink(on: bool, starts: bool, written: bool)
      modifies this`hold
      ensures hold == (on && (old(hold) || (starts && written)))
    {
      if on == hold {
        return;
      }
      if !on {
        hold := false;
        return;
      }
      hold := starts;
      if !(hold && written) {
        hold := false;
      }
    }
  }

  // ---------- in step over every run ----------

  ghost predicate Run(n: Numerics, states: seq<State>, actions: seq<Action>) {
    && |states| == |actions| + 1 && states[0] == FRESH
    && forall i | 0 <= i < |actions| :: states[i + 1] == Next(n, states[i], actions[i])
  }

  /** The running graph is that of some config with the recorded key, at some yaw. */
  ghost predicate Related(n: Numerics, s: State) {
    s.running.Some? ==>
      s.chain && exists d, c, y :: GraphKey(c) == GraphKey(s.config) && s.running.value == GraphOf(n, s.sink, d, c, y)
  }

  /** The running gains are those of the recorded config. */
  ghost predicate GainsInStep(n: Numerics, s: State) {
    s.running.Some? ==> s.chain && exists d, y :: s.running.value == GraphOf(n, s.sink, d, s.config, y)
  }

  /** And the running angles those of the recorded yaw. */
  ghost predicate InStep(n: Numerics, s: State) {
    s.running.Some? ==> s.chain && exists d :: s.running.value == GraphOf(n, s.sink, d, s.config, s.yaw)
  }

  predicate Delivered(a: Action) {
    match a
    case Apply(_, _, _, _, written, _) => written
    case SetYaw(_, _, written) => written
    case SetVolume(_, _, written) => written
    case StopFor(_) => true
    case Dies => true
  }

  /** The chain runs already with just these settings: nothing is sent, but the recorded yaw is 0 again. */
  predicate Unchanged(s: State, a: Action) {
    a.Apply? && Updatable(s, a.target, Effective(a.config, a.disk)) && Effective(a.config, a.disk) == s.config
  }

  /** The angles are sent, or the chain starts with them. */
  predicate Sends(s: State, a: Action) {
    (a.Apply? && !Unchanged(s, a)) || (a.SetYaw? && Turns(s, a.degrees, a.now))
    || (a.SetVolume? && MovesVolume(s, a.playsInto, a.volume))
  }

  lemma StepRelated(n: Numerics, s: State, a: Action)
    requires Related(n, s)
    ensures Related(n, Next(n, s, a))
  {
    hide GraphKey, GraphOf, Commands, AzimuthCommands, Patched, IsNeutral, Effective, Turns, MovesVolume;
    if s.running.Some? {
      var d, c, y :| GraphKey(c) == GraphKey(s.config) && s.running.value == GraphOf(n, s.sink, d, c, y);
      match a
      case Apply(sink, _, c', disk, _, _) =>
        if GraphKey(Effective(c', disk)) == GraphKey(s.config) {
          PatchIsRebuild(n, s.sink, d, c, y, Effective(c', disk), 0.0);
        }
      case SetYaw(degrees, _, _) => TurnIsRebuild(n, s.sink, d, c, y, degrees);
      case SetVolume(_, volume, _) =>
        VolumeKeepsKey(s.config, volume);
        PatchIsRebuild(n, s.sink, d, c, y, s.config.(volume := volume), s.yaw);
      case StopFor(_) =>
      case Dies =>
    }
  }

  lemma VolumeKeepsKey(c: Config, volume: real)
    ensures GraphKey(c.(volume := volume)) == GraphKey(c)
  {
  }

  /** Whatever is lost on the way: in every run the running graph has the recorded key, so the next update fits it. */
  lemma {:induction false} RunRelated(n: Numerics, states: seq<State>, actions: seq<Action>, i: nat)
    requires Run(n, states, actions) && i < |states|
    ensures Related(n, states[i])
    decreases i
  {
    if i > 0 {
      hide Next, Related;
      RunRelated(n, states, actions, i - 1);
      StepRelated(n, states[i - 1], actions[i - 1]);
    }
  }

  lemma StepGains(n: Numerics, s: State, a: Action)
    requires GainsInStep(n, s) && Delivered(a)
    ensures GainsInStep(n, Next(n, s, a))
    ensures Sends(s, a) ==> InStep(n, Next(n, s, a))
  {
    hide GraphKey, GraphOf, Commands, AzimuthCommands, Patched, IsNeutral, Effective, Turns, MovesVolume;
    if s.running.Some? {
      var d, y :| s.running.value == GraphOf(n, s.sink, d, s.config, y);
      match a
      case Apply(sink, _, c', disk, _, _) =>
        if GraphKey(Effective(c', disk)) == GraphKey(s.config) {
          PatchIsRebuild(n, s.sink, d, s.config, y, Effective(c', disk), 0.0);
        }
      case SetYaw(degrees, _, _) => TurnIsRebuild(n, s.sink, d, s.config, y, degrees);
      case SetVolume(_, volume, _) =>
        VolumeKeepsKey(s.config, volume);
        PatchIsRebuild(n, s.sink, d, s.config, y, s.config.(volume := volume), s.yaw);
      case StopFor(_) =>
      case Dies =>
    }
  }

  lemma StepKeepsInStep(n: Numerics, s: State, a: Action)
    requires InStep(n, s) && Delivered(a) && !Sends(s, a) && !Unchanged(s, a)
    ensures InStep(n, Next(n, s, a))
  {
    hide GraphKey, GraphOf, Commands, AzimuthCommands, Patched, IsNeutral, Effective, Turns, MovesVolume;
  }

  /** When every write arrives, the running gains are those of the recorded config in every state of every run. */
  lemma {:induction false} RunGains(n: Numerics, states: seq<State>, actions: seq<Action>, i: nat)
    requires Run(n, states, actions) && i < |states|
    requires forall k | 0 <= k < i :: Delivered(actions[k])
    ensures GainsInStep(n, states[i])
    decreases i
  {
    if i > 0 {
      hide Next, GainsInStep, Delivered, Sends, InStep;
      RunGains(n, states, actions, i - 1);
      StepGains(n, states[i - 1], actions[i - 1]);
    }
  }

  /** Since some `Apply` with unchanged settings nothing was sent. */
  ghost predicate Stale(states: seq<State>, actions: seq<Action>, i: nat)
    requires i < |states| == |actions| + 1
  {
    exists j | 0 <= j < i :: Unchanged(states[j], actions[j]) && forall k | j < k < i :: !Sends(states[k], actions[k])
  }

  lemma {:induction false} RunInStep(n: Numerics, states: seq<State>, actions: seq<Action>, i: nat)
    requires Run(n, states, actions) && i < |states|
    requires forall k | 0 <= k < i :: Delivered(actions[k])
    ensures InStep(n, states[i]) || Stale(states, actions, i)
    decreases i
  {
    if i > 0 {
      hide Next, GainsInStep, Delivered, Sends, InStep, Unchanged;
      var s, a := states[i - 1], actions[i - 1];
      RunInStep(n, states, actions, i - 1);
      RunGains(n, states, actions, i - 1);
      if Sends(s, a) {
        StepGains(n, s, a);
      } else if !Unchanged(s, a) && InStep(n, s) {
        StepKeepsInStep(n, s, a);
      } else {
        hide Run;
        StaysStale(states, actions, i);
      }
    }
  }

  lemma StaysStale(states: seq<State>, actions: seq<Action>, i: nat)
    requires 0 < i < |states| == |actions| + 1
    requires Unchanged(states[i - 1], actions[i - 1]) || Stale(states, actions, i - 1)
    requires !Sends(states[i - 1], actions[i - 1])
    ensures Stale(states, actions, i)
  {
    hide Unchanged, Sends;
    if !Unchanged(states[i - 1], actions[i - 1]) {
      var j :| 0 <= j < i - 1 && Unchanged(states[j], actions[j])
          && forall k | j < k < i - 1 :: !Sends(states[k], actions[k]);
      assert forall k | j < k < i :: !Sends(states[k], actions[k]);
    }
  }

  // ---------- when the unchanged settings leave the angles behind ----------

  predicate SameAngles(k: Key, y1: real, y2: real) {
    k.spatial ==> forall ch | ch in SeatedChannels(k) :: Num(Azimuth(Base(ch), y1)) == Num(Azimuth(Base(ch), y2))
  }

  lemma SameAnglesSameNodes(n: Numerics, c: Config, y1: real, y2: real)
    ensures NodesOf(n, c, y1, Names(GraphKey(c))) == NodesOf(n, c, y2, Names(GraphKey(c)))
       <==> SameAngles(GraphKey(c), y1, y2)
  {
    var k, names := GraphKey(c), Names(GraphKey(c));
    if NodesOf(n, c, y1, names) == NodesOf(n, c, y2, names) && k.spatial {
      forall ch | ch in SeatedChannels(k) ensures Num(Azimuth(Base(ch), y1)) == Num(Azimuth(Base(ch), y2)) {
        SeatIsNamed(k, ch);
        SameNode(n, c, y1, y2, names, Sp(ch));
        AngleOf(n, c, y1, y2, ch);
      }
    }
    if SameAngles(k, y1, y2) {
      forall i | 0 <= i < |names| ensures NodeOf(n, c, y1, names[i]) == NodeOf(n, c, y2, names[i]) {
        NamesAre(k, names[i]);
        OnlySpeakersTurn(n, c, y1, y2, names[i]);
      }
      hide NodeOf, Names, SameAngles;
    }
  }

  lemma SeatIsNamed(k: Key, ch: Channel)
    requires k.spatial && ch in SeatedChannels(k)
    ensures Sp(ch) in Names(k)
  {
    ChannelsExist(k);
    NamesAre(k, Sp(ch));
    hide Names, SeatedChannels;
  }

  lemma SameNode(n: Numerics, c: Config, y1: real, y2: real, names: seq<NodeId>, id: NodeId)
    requires NodesOf(n, c, y1, names) == NodesOf(n, c, y2, names) && id in names
    ensures NodeOf(n, c, y1, id) == NodeOf(n, c, y2, id)
  {
    hide NodeOf;
    var i :| 0 <= i < |names| && names[i] == id;
    assert NodesOf(n, c, y1, names)[i] == NodeOf(n, c, y1, id) && NodesOf(n, c, y2, names)[i] == NodeOf(n, c, y2, id);
  }

  lemma AngleOf(n: Numerics, c: Config, y1: real, y2: real, ch: Channel)
    requires NodeOf(n, c, y1, Sp(ch)) == NodeOf(n, c, y2, Sp(ch))
    ensures Num(Azimuth(Base(ch), y1)) == Num(Azimuth(Base(ch), y2))
  {
    hide Num, Azimuth, Clean;
    assert NodeOf(n, c, y1, Sp(ch)).settings[0] == NodeOf(n, c, y2, Sp(ch)).settings[0];
  }

  lemma OnlySpeakersTurn(n: Numerics, c: Config, y1: real, y2: real, id: NodeId)
    requires Exists(GraphKey(c), id) && SameAngles(GraphKey(c), y1, y2)
    ensures NodeOf(n, c, y1, id) == NodeOf(n, c, y2, id)
  {
    hide Num, Azimuth, Clean, InEffect, HeadroomDb, MixGains, HIGHS, High;
    if id.Sp? {
      assert id.channel in SeatedChannels(GraphKey(c));
    }
  }

  /** An `Apply` of the settings the chain has already keeps its angles in step exactly when the recorded yaw comes
      to the same angles as straight ahead. */
  lemma UnchangedStaysInStepIff(n: Numerics, s: State, a: Action)
    requires InStep(n, s) && Unchanged(s, a)
    ensures InStep(n, Next(n, s, a)) <==> SameAngles(GraphKey(s.config), s.yaw, 0.0)
  {
    var c, s' := s.config, Next(n, s, a);
    assert s'.running == s.running && s'.chain && s'.sink == s.sink && s'.config == c
        && s'.yaw == 0.0 by { hide Effective, GraphKey; }
    SameAnglesSameNodes(n, c, s.yaw, 0.0);
    hide Next, Unchanged, SameAngles, GraphKey, NodesOf, Names, LinksTo, DrivenPorts, GraphInputs, Speakers, EarOutput,
        Clean;
    var d :| s.running.value == GraphOf(n, s.sink, d, c, s.yaw);
    if SameAngles(GraphKey(c), s.yaw, 0.0) {
      assert s'.running.value == GraphOf(n, s.sink, d, c, 0.0);
    }
  }

  /** Head tracking: the head turned by 90 degrees, then the same settings once more: the speakers stay turned while
      the recorded yaw says they are not. */
  lemma AnglesLeftBehind(n: Numerics)
    ensures var c := NOTHING.(spatial := HeadTracked);
            var apply := Apply("sink", "AirPods", c, Disk(true, true, ""), true, Start(true, true));
            var s1 := Next(n, FRESH, apply);
            var s2 := Next(n, s1, SetYaw(90.0, 100, true));
            var s3 := Next(n, s2, apply);
            InStep(n, s1) && InStep(n, s2) && !InStep(n, s3)
  {
    var c := NOTHING.(spatial := HeadTracked);
    var apply := Apply("sink", "AirPods", c, Disk(true, true, ""), true, Start(true, true));
    var s1 := State(true, true, "sink", c, 0.0, 0, Some(GraphOf(n, "sink", "AirPods", c, 0.0)));
    assert Effective(c, Disk(true, true, "")) == c && Next(n, FRESH, apply) == s1 by { hide GraphOf, Commands, Patched; }
    hide GraphOf;
    assert InStep(n, s1) && GainsInStep(n, s1);
    var turn := SetYaw(90.0, 100, true);
    var s2 := Next(n, s1, turn);
    assert Turns(s1, 90.0, 100);
    StepGains(n, s1, turn);
    assert Updatable(s2, "sink", c) && s2.config == c && s2.yaw == 90.0 by { hide AzimuthCommands, Patched; }
    assert SeatedChannels(GraphKey(c))[0] == L;
    hide Next, InStep, GainsInStep, Effective, Updatable, SeatedChannels;
    assert Unchanged(s2, apply);
    UnchangedStaysInStepIff(n, s2, apply);
    LeftSpeakerTurns(GraphKey(c));
  }

  lemma LeftSpeakerTurns(k: Key)
    requires k.spatial
    ensures !SameAngles(k, 90.0, 0.0)
  {
    NumOfHundredths(12000);
    NumOfHundredths(3000);
    assert SeatedChannels(k)[0] == L;
    assert Azimuth(Base(L), 90.0) == 120.0 && Azimuth(Base(L), 0.0) == 30.0;
    hide Num, Azimuth, SeatedChannels;
  }
}
