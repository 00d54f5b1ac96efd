/** Live updates: the command line that sets a running graph's gains and angles, and why it is as good as a restart. */
module EffectPatch {
  import opened Effects
  import opened EffectGraph
  import opened EffectBuild
  import opened EffectShape

  datatype Command = Command(node: NodeId, control: Control, value: real)

  // ---------- the command line ----------

  function PreCommands(s: seq<Channel>, gain: real): seq<Command> {
    seq(|s|, i requires 0 <= i < |s| => Command(Pre(s[i]), Gain, gain))
  }

  function BandCommands(n: Numerics, c: Config, ear: Ear, tags: seq<Tag>): seq<Command> {
    seq(|tags|, i requires 0 <= i < |tags| => Command(Band(tags[i], ear), Gain, Num(InEffect(n, c, ear, tags[i]).gain)))
  }

  function MixCommands(n: Numerics, c: Config, ear: Ear): seq<Command> {
    if Spatial(c) then
      [Command(Mix(ear), GainAt(1), Num(MixGains(c)[0])), Command(Mix(ear), GainAt(2), Num(MixGains(c)[1])),
       Command(Mix(ear), GainAt(3), Num(MixGains(c)[2]))]
    else
      [Command(Xm(ear), GainAt(2), Num(-CrossfeedGain(n, c))), Command(Xm(ear), GainAt(3), Num(CrossfeedGain(n, c)))]
  }

  function EarCommands(n: Numerics, c: Config, ear: Ear): seq<Command> {
    BandCommands(n, c, ear, TagsOf(GraphKey(c))) + MixCommands(n, c, ear)
  }

  /** Turns the virtual speakers. */
  function AzimuthCommands(k: Key, yaw: real): seq<Command> {
    if k.spatial then SpeakerCommands(SeatedChannels(k), yaw) else []
  }

  function SpeakerCommand(ch: Channel, yaw: real): Command { Command(Sp(ch), AzimuthOf, Num(Azimuth(Base(ch), yaw))) }

  function SpeakerCommands(s: seq<Channel>, yaw: real): seq<Command> {
    seq(|s|, i requires 0 <= i < |s| => SpeakerCommand(s[i], yaw))
  }

  function Commands(n: Numerics, c: Config, yaw: real): seq<Command> {
    PreCommands(Speakers(GraphKey(c)), Num(-HeadroomDb(n, c)))
    + EarCommands(n, c, LeftEar) + EarCommands(n, c, RightEar) + AzimuthCommands(GraphKey(c), yaw)
  }

  method AzimuthParams(c: Config, yaw: real) returns (params: seq<Command>)
    ensures params == AzimuthCommands(GraphKey(c), yaw)
  {
    hide SpeakerCommands, SeatedChannels, Speakers;
    params := [];
    if Spatial(c) {
      SeatedAreKept(GraphKey(c));
      params := SpeakerParams(Speakers(GraphKey(c)), yaw);
    }
  }

  method SpeakerParams(speakers: seq<Channel>, yaw: real) returns (params: seq<Command>)
    ensures params == SpeakerCommands(Kept(SEATS, speakers), yaw)
  {
    params := [];
    ghost var seated := [];
    assert Kept(SEATS, speakers[..0]) == [];
    assert params == SpeakerCommands(seated, yaw);
    hide *;
    for i := 0 to |speakers|
      invariant seated == Kept(SEATS, speakers[..i]) && params == SpeakerCommands(seated, yaw)
    {
      KeptNext(SEATS, speakers, i);
      SeatsAreSeated();
      if speakers[i] != LFE {
        SpeakerCommandsNext(seated, speakers[i], yaw);
        params := params + [SpeakerCommand(speakers[i], yaw)];
        seated := seated + [speakers[i]];
      }
    }
    assert speakers[..|speakers|] == speakers;
  }

  lemma SpeakerCommandsNext(s: seq<Channel>, ch: Channel, yaw: real)
    ensures SpeakerCommands(s + [ch], yaw) == SpeakerCommands(s, yaw) + [SpeakerCommand(ch, yaw)]
  {
    hide SpeakerCommand;
  }

  /** Every gain, and the angles, for a running chain. */
  method ControlCommand(n: Numerics, c: Config, yaw: real) returns (params: seq<Command>)
    ensures params == Commands(n, c, yaw)
  {
    var headroom := Num(-HeadroomDb(n, c));
    var speakers := Speakers(GraphKey(c));
    params := [];
    assert PreCommands(speakers[..0], headroom) == [];
    for i := 0 to |speakers|
      invariant params == PreCommands(speakers[..i], headroom)
    {
      hide HeadroomDb, Num, GraphKey, Speakers;
      assert PreCommands(speakers[..i + 1], headroom) == PreCommands(speakers[..i], headroom)
          + [Command(Pre(speakers[i]), Gain, headroom)];
      params := params + [Command(Pre(speakers[i]), Gain, headroom)];
    }
    assert speakers[..|speakers|] == speakers;
    var left := EarParams(n, c, LeftEar);
    var right := EarParams(n, c, RightEar);
    var azimuths := AzimuthParams(c, yaw);
    hide HeadroomDb, Num, GraphKey, Speakers, PreCommands, EarCommands, AzimuthCommands;
    params := params + left + right + azimuths;
  }

  method EarParams(n: Numerics, c: Config, ear: Ear) returns (params: seq<Command>)
    ensures params == EarCommands(n, c, ear)
  {
    var filters := CollectFilters(n, c, ear);
    ghost var tags := TagsOf(GraphKey(c));
    assert forall i | 0 <= i < |tags| :: filters[i] == Filter(tags[i], InEffect(n, c, ear, tags[i]));
    params := [];
    assert BandCommands(n, c, ear, tags[..0]) == [];
    for i := 0 to |filters|
      invariant params == BandCommands(n, c, ear, tags[..i])
    {
      hide InEffect, Num, TagsOf, GraphKey, Filters;
      BandCommandsNext(n, c, ear, tags, i);
      params := params + [Command(Band(filters[i].tag, ear), Gain, Num(filters[i].bq.gain))];
    }
    assert tags[..|tags|] == tags;
    hide InEffect, Num, TagsOf, GraphKey, Filters, BandCommands;
    if !Spatial(c) {
      var g := if c.crossfeed && !c.bypass then n.crossfeedGain else 0.0;
      assert (if g != 0.0 then -g else 0.0) == -CrossfeedGain(n, c);
      params := params + ([Command(Xm(ear), GainAt(2), Num(if g != 0.0 then -g else 0.0))]
          + [Command(Xm(ear), GainAt(3), Num(g))]);
    } else {
      var gains := MixGains(c);
      var mix: seq<Command> := [];
      for i := 0 to 3
        invariant |mix| == i
        invariant forall j | 0 <= j < i :: mix[j] == Command(Mix(ear), GainAt(j + 1), Num(gains[j]))
      {
        mix := mix + [Command(Mix(ear), GainAt(i + 1), Num(gains[i]))];
      }
      hide MixGains;
      assert mix == MixCommands(n, c, ear);
      params := params + mix;
    }
  }

  lemma BandCommandsNext(n: Numerics, c: Config, ear: Ear, tags: seq<Tag>, i: nat)
    requires i < |tags|
    ensures BandCommands(n, c, ear, tags[..i + 1])
         == BandCommands(n, c, ear, tags[..i]) + [Command(Band(tags[i], ear), Gain, Num(InEffect(n, c, ear, tags[i]).gain))]
  {
    hide InEffect, Num;
  }

  // ---------- what a command does to a running graph ----------

  function PatchedNode(node: Node, cmd: Command): Node {
    if node.id != cmd.node then node
    else
      Node(node.id, node.kind, seq(|node.settings|, j requires 0 <= j < |node.settings| =>
        if node.settings[j].control == cmd.control then Setting(cmd.control, cmd.value) else node.settings[j]))
  }

  function PatchedBy(node: Node, cmds: seq<Command>): Node
    decreases |cmds|
  {
    if cmds == [] then node else PatchedBy(PatchedNode(node, cmds[0]), cmds[1..])
  }

  function PatchedOnce(g: Graph, cmd: Command): Graph {
    g.(nodes := seq(|g.nodes|, i requires 0 <= i < |g.nodes| => PatchedNode(g.nodes[i], cmd)))
  }

  /** The commands of a line take effect one after the other. */
  function Patched(g: Graph, cmds: seq<Command>): Graph
    decreases |cmds|
  {
    if cmds == [] then g else Patched(PatchedOnce(g, cmds[0]), cmds[1..])
  }

  lemma {:induction false} PatchedNodeByNode(g: Graph, cmds: seq<Command>)
    ensures Patched(g, cmds) == g.(nodes := Patched(g, cmds).nodes) && |Patched(g, cmds).nodes| == |g.nodes|
    ensures forall i | 0 <= i < |g.nodes| :: Patched(g, cmds).nodes[i] == PatchedBy(g.nodes[i], cmds)
    decreases |cmds|
  {
    hide PatchedNode;
    if cmds != [] {
      PatchedNodeByNode(PatchedOnce(g, cmds[0]), cmds[1..]);
    }
  }

  ghost predicate SameControls(a: Node, b: Node) {
    && a.id == b.id && a.kind == b.kind && |a.settings| == |b.settings|
    && forall j | 0 <= j < |a.settings| :: a.settings[j].control == b.settings[j].control
  }

  /** The command sets what `target` has anyway. */
  ghost predicate Tells(cmd: Command, target: Node) {
    cmd.node == target.id ==>
      forall j | 0 <= j < |target.settings| ::
        target.settings[j].control == cmd.control ==> target.settings[j].value == cmd.value
  }

  predicate Sets(cmds: seq<Command>, id: NodeId, control: Control)
    decreases |cmds|
  {
    cmds != [] && ((cmds[0].node == id && cmds[0].control == control) || Sets(cmds[1..], id, control))
  }

  lemma {:induction false} SetsConcat(a: seq<Command>, b: seq<Command>, id: NodeId, control: Control)
    ensures Sets(a + b, id, control) <==> Sets(a, id, control) || Sets(b, id, control)
    decreases |a|
  {
    if a == [] {
      assert a + b == b;
    } else {
      assert (a + b)[1..] == a[1..] + b;
      SetsConcat(a[1..], b, id, control);
    }
  }

  lemma {:induction false} SetsAt(cmds: seq<Command>, i: nat)
    requires i < |cmds|
    ensures Sets(cmds, cmds[i].node, cmds[i].control)
    decreases i
  {
    if i > 0 {
      SetsAt(cmds[1..], i - 1);
    }
  }

  lemma PatchTowards(node: Node, target: Node, cmd: Command)
    requires SameControls(node, target) && Tells(cmd, target)
    ensures SameControls(PatchedNode(node, cmd), target)
    ensures forall j | 0 <= j < |target.settings| :: PatchedNode(node, cmd).settings[j] ==
              if cmd.node == node.id && cmd.control == target.settings[j].control then target.settings[j]
                  else node.settings[j]
  {
  }

  /** Commands that tell nothing but the target, and everything that differs, make the node the target. */
  lemma {:induction false} PatchedToTarget(node: Node, target: Node, cmds: seq<Command>)
    requires SameControls(node, target)
    requires forall cmd | cmd in cmds :: Tells(cmd, target)
    requires forall j | 0 <= j < |target.settings| ::
               node.settings[j] == target.settings[j] || Sets(cmds, target.id, target.settings[j].control)
    ensures PatchedBy(node, cmds) == target
    decreases |cmds|
  {
    if cmds == [] {
      assert node.settings == target.settings;
    } else {
      var cmd, rest := cmds[0], cmds[1..];
      assert cmds == [cmd] + rest;
      PatchTowards(node, target, cmd);
      var next := PatchedNode(node, cmd);
      hide PatchedNode, Tells;
      PatchedToTarget(next, target, rest);
    }
  }

  // ---------- the patch is the rebuild ----------

  ghost predicate Told(n: Numerics, c: Config, yaw: real, cmd: Command) {
    Tells(cmd, NodeOf(n, c, yaw, cmd.node))
  }

  ghost predicate Covered(node: Node, target: Node, cmds: seq<Command>) {
    forall j | 0 <= j < |target.settings| && j < |node.settings| ::
      node.settings[j] == target.settings[j] || Sets(cmds, target.id, target.settings[j].control)
  }

  lemma NodesShareControls(n: Numerics, c1: Config, y1: real, c2: Config, y2: real, id: NodeId)
    requires GraphKey(c1) == GraphKey(c2)
    requires Exists(GraphKey(c1), id)
    ensures SameControls(NodeOf(n, c1, y1, id), NodeOf(n, c2, y2, id))
  {
    if id.Band? {
      FilterKinds(n, c1, c2, id.ear, id.tag);
    }
    hide Num, HIGHS, High, Azimuth, Clean, HeadroomDb, GraphKey, InEffect, Exists, MixGains, BassChannels,
        SeatedChannels, DownmixChannels;
    match id case Pre(_) => case Xl(_) => case Xm(_) => case Sc(_, _) => case Sp(_) => case Bass => case Lp(_) =>
    case Hrtf(_) => case Dm(_) => case Mix(_) => case Band(_, _) => case Lim =>
  }

  /** The key keeps all of a filter but its gain. */
  lemma FilterKinds(n: Numerics, c1: Config, c2: Config, ear: Ear, tag: Tag)
    requires c1.correction == c2.correction
    ensures InEffect(n, c1, ear, tag).(gain := 0.0) == InEffect(n, c2, ear, tag).(gain := 0.0)
  {
  }

  lemma PatchedTo(n: Numerics, sink: string, d: string, c1: Config, y1: real, c2: Config, y2: real, cmds: seq<Command>)
    requires GraphKey(c1) == GraphKey(c2)
    requires forall cmd | cmd in cmds :: Told(n, c2, y2, cmd)
    requires forall id | Exists(GraphKey(c2), id) :: Covered(NodeOf(n, c1, y1, id), NodeOf(n, c2, y2, id), cmds)
    ensures Patched(GraphOf(n, sink, d, c1, y1), cmds) == GraphOf(n, sink, d, c2, y2)
  {
    var g := GraphOf(n, sink, d, c1, y1);
    var names := Names(GraphKey(c2));
    PatchedNodeByNode(g, cmds);
    hide NodeOf, Names, Exists, Covered, Told, Tells, PatchedBy, Patched, LinksTo, DrivenPorts, GraphInputs, GraphKey,
        EarOutput, Speakers;
    forall i | 0 <= i < |names| ensures PatchedBy(NodeOf(n, c1, y1, names[i]), cmds) == NodeOf(n, c2, y2, names[i]) {
      NamesAre(GraphKey(c2), names[i]);
      NodePatchedTo(n, c1, y1, c2, y2, names[i], cmds);
    }
    assert Patched(g, cmds).nodes == NodesOf(n, c2, y2, names);
  }

  lemma NodePatchedTo(n: Numerics, c1: Config, y1: real, c2: Config, y2: real, id: NodeId, cmds: seq<Command>)
    requires GraphKey(c1) == GraphKey(c2) && Exists(GraphKey(c2), id)
    requires forall cmd | cmd in cmds :: Told(n, c2, y2, cmd)
    requires Covered(NodeOf(n, c1, y1, id), NodeOf(n, c2, y2, id), cmds)
    ensures PatchedBy(NodeOf(n, c1, y1, id), cmds) == NodeOf(n, c2, y2, id)
  {
    NodesShareControls(n, c1, y1, c2, y2, id);
    NodeHasId(n, c2, y2, id);
    hide NodeOf, GraphKey, Exists, PatchedBy, Sets;
    forall cmd | cmd in cmds ensures Tells(cmd, NodeOf(n, c2, y2, id)) {
      assert Told(n, c2, y2, cmd);
      if cmd.node != id {
        assert Tells(cmd, NodeOf(n, c2, y2, id));
      }
    }
    hide Tells, Told;
    PatchedToTarget(NodeOf(n, c1, y1, id), NodeOf(n, c2, y2, id), cmds);
  }

  // ---------- what the line tells ----------

  /** A command for a setting the node has. */
  ghost predicate Addresses(cmd: Command, node: Node) {
    cmd.node == node.id && exists j :: 0 <= j < |node.settings| && node.settings[j].control == cmd.control
  }

  /** A command for a node that is there, which sets what the config asks for. */
  ghost predicate Fits(n: Numerics, c: Config, yaw: real, cmd: Command) {
    Exists(GraphKey(c), cmd.node) && Addresses(cmd, NodeOf(n, c, yaw, cmd.node)) && Told(n, c, yaw, cmd)
  }

  lemma GainFits(id: NodeId, bq: Biquad)
    ensures Tells(Command(id, Gain, Num(bq.gain)), BiquadNode(id, bq))
        && Addresses(Command(id, Gain, Num(bq.gain)), BiquadNode(id, bq))
  {
    assert BiquadNode(id, bq).settings[2].control == Gain;
  }

  lemma MixerGainFits(id: NodeId, gains: seq<real>, i: nat)
    requires i < |gains|
    ensures Tells(Command(id, GainAt(i + 1), Num(gains[i])), MixerNode(id, gains))
    ensures Addresses(Command(id, GainAt(i + 1), Num(gains[i])), MixerNode(id, gains))
  {
    assert MixerNode(id, gains).settings[i].control == GainAt(i + 1);
  }

  lemma PreFits(n: Numerics, c: Config, yaw: real, cmd: Command)
    requires cmd in PreCommands(Speakers(GraphKey(c)), Num(-HeadroomDb(n, c)))
    ensures Fits(n, c, yaw, cmd)
  {
    GainFits(cmd.node, PreGain(n, c));
    hide Num, HeadroomDb, Tells, Addresses, BiquadNode, GraphKey, Speakers;
  }

  lemma BandFitsNode(n: Numerics, c: Config, yaw: real, ear: Ear, cmd: Command)
    requires cmd in BandCommands(n, c, ear, TagsOf(GraphKey(c)))
    ensures Fits(n, c, yaw, cmd)
  {
    hide Num, InEffect, Tells, Addresses, BiquadNode, GraphKey, TagsOf;
    GainFits(cmd.node, InEffect(n, c, ear, cmd.node.tag));
  }

  lemma MixFits(n: Numerics, c: Config, yaw: real, ear: Ear, cmd: Command)
    requires cmd in MixCommands(n, c, ear)
    ensures Fits(n, c, yaw, cmd)
  {
    var gains := if Spatial(c) then MixGains(c) else CrossfeedGains(n, c);
    var i := cmd.control.i - 1;
    assert 0 <= i < |gains| && cmd.value == Num(gains[i]);
    MixerGainFits(cmd.node, gains, i);
    hide Num, Tells, Addresses, MixerNode, MixGains;
  }

  lemma AzimuthFits(n: Numerics, c: Config, yaw: real, cmd: Command)
    requires cmd in AzimuthCommands(GraphKey(c), yaw)
    ensures Fits(n, c, yaw, cmd)
  {
    ChannelsExist(GraphKey(c));
    hide Num, Clean, Azimuth, SeatedChannels, Speakers;
    assert NodeOf(n, c, yaw, cmd.node).settings[0].control == AzimuthOf;
  }

  /** Every command of the line is for a setting of a node that is there, and sets it as a rebuild would. */
  lemma CommandsFit(n: Numerics, c: Config, yaw: real, cmd: Command)
    requires cmd in Commands(n, c, yaw)
    ensures Fits(n, c, yaw, cmd)
  {
    hide PreCommands, BandCommands, MixCommands, AzimuthCommands, Fits, TagsOf, GraphKey;
    if cmd in PreCommands(Speakers(GraphKey(c)), Num(-HeadroomDb(n, c))) {
      PreFits(n, c, yaw, cmd);
    } else if cmd in AzimuthCommands(GraphKey(c), yaw) {
      AzimuthFits(n, c, yaw, cmd);
    } else {
      var ear := if cmd in EarCommands(n, c, LeftEar) then LeftEar else RightEar;
      if cmd in MixCommands(n, c, ear) {
        MixFits(n, c, yaw, ear, cmd);
      } else {
        BandFitsNode(n, c, yaw, ear, cmd);
      }
    }
  }

  // ---------- the line leaves nothing out ----------

  lemma PreIsSet(s: seq<Channel>, gain: real, ch: Channel)
    requires ch in s
    ensures Sets(PreCommands(s, gain), Pre(ch), Gain)
  {
    var i :| 0 <= i < |s| && s[i] == ch;
    SetsAt(PreCommands(s, gain), i);
  }

  lemma BandIsSet(n: Numerics, c: Config, ear: Ear, tags: seq<Tag>, tag: Tag)
    requires tag in tags
    ensures Sets(BandCommands(n, c, ear, tags), Band(tag, ear), Gain)
  {
    hide InEffect, Num;
    var i :| 0 <= i < |tags| && tags[i] == tag;
    SetsAt(BandCommands(n, c, ear, tags), i);
  }

  lemma AzimuthIsSet(k: Key, yaw: real, ch: Channel)
    requires k.spatial && ch in Speakers(k) && Seated(ch)
    ensures Sets(AzimuthCommands(k, yaw), Sp(ch), AzimuthOf)
  {
    hide Num, Azimuth;
    var s := SeatedChannels(k);
    assert ch in s;
    var i :| 0 <= i < |s| && s[i] == ch;
    SetsAt(AzimuthCommands(k, yaw), i);
  }

  lemma MixIsSet(n: Numerics, c: Config, ear: Ear, i: nat)
    requires 1 <= i <= 3
    ensures Spatial(c) ==> Sets(MixCommands(n, c, ear), Mix(ear), GainAt(i))
    ensures !Spatial(c) && i != 1 ==> Sets(MixCommands(n, c, ear), Xm(ear), GainAt(i))
  {
    hide Num, MixGains;
    var cmds := MixCommands(n, c, ear);
    var p := if Spatial(c) then i - 1 else i - 2;
    if p >= 0 {
      SetsAt(cmds, p);
    }
  }

  lemma PartsAreSet(n: Numerics, c: Config, yaw: real, ear: Ear, id: NodeId, control: Control)
    requires Sets(PreCommands(Speakers(GraphKey(c)), Num(-HeadroomDb(n, c))), id, control)
          || Sets(BandCommands(n, c, ear, TagsOf(GraphKey(c))), id, control)
          || Sets(MixCommands(n, c, ear), id, control)
          || Sets(AzimuthCommands(GraphKey(c), yaw), id, control)
    ensures Sets(Commands(n, c, yaw), id, control)
  {
    hide PreCommands, BandCommands, MixCommands, AzimuthCommands, Sets, TagsOf, GraphKey, HeadroomDb, Num;
    var pre, azimuths := PreCommands(Speakers(GraphKey(c)), Num(-HeadroomDb(n, c))), AzimuthCommands(GraphKey(c), yaw);
    var l, r := EarCommands(n, c, LeftEar), EarCommands(n, c, RightEar);
    SetsConcat(BandCommands(n, c, ear, TagsOf(GraphKey(c))), MixCommands(n, c, ear), id, control);
    assert EarCommands(n, c, ear) == if ear == LeftEar then l else r;
    hide EarCommands;
    SetsConcat(pre, l, id, control);
    SetsConcat(pre + l, r, id, control);
    SetsConcat(pre + l + r, azimuths, id, control);
  }

  /** What two configs with the same key set differently is in the line. */
  lemma CommandsCover(n: Numerics, c1: Config, y1: real, c2: Config, y2: real, id: NodeId)
    requires GraphKey(c1) == GraphKey(c2) && Exists(GraphKey(c2), id)
    ensures Covered(NodeOf(n, c1, y1, id), NodeOf(n, c2, y2, id), Commands(n, c2, y2))
  {
    hide Commands, Num, Clean, Azimuth, HeadroomDb, InEffect, MixGains, TagsOf, Speakers, SeatedChannels, BassChannels,
      HIGHS, High, DownmixGains, Downmix, DownmixChannels, Sets, PreCommands, BandCommands, MixCommands, AzimuthCommands;
    var k := GraphKey(c2);
    match id
    case Pre(ch) =>
      PreIsSet(Speakers(k), Num(-HeadroomDb(n, c2)), ch);
      PartsAreSet(n, c2, y2, LeftEar, id, Gain);
    case Xl(_) =>
    case Xm(ear) =>
      MixIsSet(n, c2, ear, 2);
      MixIsSet(n, c2, ear, 3);
      PartsAreSet(n, c2, y2, ear, id, GainAt(2));
      PartsAreSet(n, c2, y2, ear, id, GainAt(3));
    case Sc(_, _) =>
    case Sp(ch) =>
      AzimuthIsSet(k, y2, ch);
      PartsAreSet(n, c2, y2, LeftEar, id, AzimuthOf);
    case Bass =>
    case Lp(_) =>
    case Hrtf(_) =>
    case Dm(_) =>
    case Mix(ear) =>
      MixIsSet(n, c2, ear, 1);
      MixIsSet(n, c2, ear, 2);
      MixIsSet(n, c2, ear, 3);
      PartsAreSet(n, c2, y2, ear, id, GainAt(1));
      PartsAreSet(n, c2, y2, ear, id, GainAt(2));
      PartsAreSet(n, c2, y2, ear, id, GainAt(3));
    case Band(tag, ear) =>
      FilterKinds(n, c1, c2, ear, tag);
      BandIsSet(n, c2, ear, TagsOf(k), tag);
      PartsAreSet(n, c2, y2, ear, id, Gain);
    case Lim =>
  }

  /** For any two configs with the same key, the line for the second makes a running graph of the first exactly what
      a restart with the second would: node by node, setting by setting, link by link. */
  lemma PatchIsRebuild(n: Numerics, sink: string, d: string, c1: Config, y1: real, c2: Config, y2: real)
    requires GraphKey(c1) == GraphKey(c2)
    ensures Patched(GraphOf(n, sink, d, c1, y1), Commands(n, c2, y2)) == GraphOf(n, sink, d, c2, y2)
  {
    var cmds := Commands(n, c2, y2);
    forall cmd | cmd in cmds ensures Told(n, c2, y2, cmd) {
      CommandsFit(n, c2, y2, cmd);
    }
    forall id | Exists(GraphKey(c2), id) ensures Covered(NodeOf(n, c1, y1, id), NodeOf(n, c2, y2, id), cmds) {
      CommandsCover(n, c1, y1, c2, y2, id);
    }
    hide *;
    PatchedTo(n, sink, d, c1, y1, c2, y2, cmds);
  }

  /** The angles alone turn a running graph to the new yaw and change nothing else. */
  lemma TurnIsRebuild(n: Numerics, sink: string, d: string, c: Config, y1: real, y2: real)
    ensures Patched(GraphOf(n, sink, d, c, y1), AzimuthCommands(GraphKey(c), y2)) == GraphOf(n, sink, d, c, y2)
  {
    var k := GraphKey(c);
    var cmds := AzimuthCommands(k, y2);
    forall cmd | cmd in cmds ensures Told(n, c, y2, cmd) {
      AzimuthFits(n, c, y2, cmd);
    }
    forall id | Exists(k, id) ensures Covered(NodeOf(n, c, y1, id), NodeOf(n, c, y2, id), cmds) {
      if id.Sp? {
        AzimuthIsSet(k, y2, id.channel);
        hide Num, Azimuth, Clean, Sets, AzimuthCommands, GraphKey, Speakers;
      } else {
        hide Covered;
        assert NodeOf(n, c, y1, id) == NodeOf(n, c, y2, id);
        SameIsCovered(NodeOf(n, c, y1, id), cmds);
      }
    }
    hide *;
    PatchedTo(n, sink, d, c, y1, c, y2, cmds);
  }

  lemma SameIsCovered(node: Node, cmds: seq<Command>)
    ensures Covered(node, node, cmds)
  {
  }
}
