/** What has to happen in the audio switching: when this computer lets go of the AirPods and when it never does, whom it
    remembers and introduces itself to, what a takeover comes to, and when the silent output comes and goes. */
module AudioSwitchRuns {
  import opened AudioSwitch

  // ---------- letting go ----------

  /** Another device's word that it has them, or wants them. */
  predicate TakesThem(s: State, p: Packet) {
    || p == OwnsReport(false)
    || (p.AudioSource? && p.kind != 0 && s.devices.localMac != NO_ADDRESS && p.from != s.devices.localMac)
    || (p.Relayed? && p.setsOwnershipToFalse)
  }

  /** No takeover under way, nor ended less than three seconds ago. */
  predicate OutsideGrace(s: State) { !s.take.busy && s.now - s.take.at >= 3000 }

  /** In every run: outside the grace such a packet makes this computer let go, with one "owns connection 0" for an
      answer unless the packet was one itself. No other packet, and none in the grace, changes who owns them. */
  lemma PacketLetsGoIff(states: seq<State>, actions: seq<Action>, n: nat, p: Packet)
    requires Run(states, actions) && n < |actions| && actions[n] == Receive(p)
    ensures var s, t := states[n], states[n + 1];
            && (TakesThem(s, p) && OutsideGrace(s) ==>
                  t.own.released && !t.own.owns && !t.own.claimed
                  && t.sent == if p.OwnsReport? then s.sent else s.sent + [OwnsConnection(false)])
            && (!(TakesThem(s, p) && OutsideGrace(s)) ==>
                  t.own.owns == s.own.owns && t.own.released == s.own.released && t.own.claimed == s.own.claimed
                  && (!p.DeviceList? ==> t.sent == s.sent))
  {
    ReceivedLetsGoIff(states[n], p);
    assert states[n + 1] == Apply(states[n], actions[n]);
    hide Received, Start, Enabled, TakesThem, OutsideGrace;
  }

  lemma ReceivedLetsGoIff(s: State, p: Packet)
    ensures var t := Received(s, p);
            && (TakesThem(s, p) && OutsideGrace(s) ==>
                  t.own.released && !t.own.owns && !t.own.claimed
                  && t.sent == if p.OwnsReport? then s.sent else s.sent + [OwnsConnection(false)])
            && (!(TakesThem(s, p) && OutsideGrace(s)) ==>
                  t.own.owns == s.own.owns && t.own.released == s.own.released && t.own.claimed == s.own.claimed
                  && (!p.DeviceList? ==> t.sent == s.sent))
  {
    hide Talked, Introducing, Added;
    match p
    case OwnsReport(_) =>
    case AudioSource(_, _) =>
    case DeviceList(_) =>
    case Relayed(_, _) =>
    case Other =>
  }

  /** A look lets go of them: an "owns connection 0" put aside is due, no takeover is begun instead, and they do not play
      here or were claimed once more already. */
  predicate LookLetsGo(s: State, v: View) {
    && s.own.owns && s.own.claimed && s.own.report == 0 && OutsideGrace(s)
    && !(v.worn && v.connected && s.routeWhenWorn)
    && (!v.intoThem || s.own.reclaimed)
  }

  /** In every run, this computer stops owning them in a step if and only if another device takes them outside the
      grace, or a look lets go. */
  lemma LetsGoIff(states: seq<State>, actions: seq<Action>, n: nat)
    requires Run(states, actions) && n < |actions| && states[n].own.owns
    ensures var s, a := states[n], actions[n];
            !states[n + 1].own.owns
            <==> (a.Receive? && TakesThem(s, a.packet) && OutsideGrace(s)) || (IsLook(a) && LookLetsGo(s, a.view))
  {
    assert states[n + 1] == Apply(states[n], actions[n]);
    StepLetsGoIff(states[n], actions[n]);
    hide *;
  }

  lemma StepLetsGoIff(s: State, a: Action)
    requires s.own.owns
    ensures !Apply(s, a).own.owns
            <==> (a.Receive? && TakesThem(s, a.packet) && OutsideGrace(s)) || (IsLook(a) && LookLetsGo(s, a.view))
  {
    if a.Receive? {
      hide TakesThem, OutsideGrace, Received;
      ReceivedLetsGoIff(s, a.packet);
    } else if IsLook(a) {
      LookedLetsGoIff(if a.Look? then s else Blocked(s), a.view);
      hide Looked;
    } else if a.TakeOverMoves? {
      hide ClaimMessages;
      match s.take.phase
      case Idle => case Deciding(_) => case Connecting => case Ready => case Claiming => case Owning => case Finishing =>
    } else {
      match a
      case Reset => case Playback => case MoveHere => case CardInCase => case SetMode(_) => case UserPicks(_) => case Tick(_) =>
    }
  }

  lemma LookedLetsGoIff(s: State, v: View)
    requires s.own.owns
    ensures !Looked(s, v).own.owns <==> LookLetsGo(s, v)
  {
    hide ClaimMessages, HoldNext;
  }

  // ---------- whom it knows ----------

  /** Nothing forgets who talked but a new connection. */
  lemma StepRemembers(s: State, a: Action, m: Mac)
    requires a != Reset && m in s.devices.talking
    ensures m in Apply(s, a).devices.talking && Apply(s, a).devices.localMac == s.devices.localMac
  {
    hide Introducing, Added, ClaimMessages, HoldNext, InGrace;
    match a
    case Receive(p) =>
      match p {
        case OwnsReport(_) => case AudioSource(_, _) => case DeviceList(_) => case Relayed(_, _) => case Other =>
      }
    case Reset =>
    case Playback => case MoveHere =>
    case TakeOverMoves(o) =>
      match s.take.phase {
        case Idle => case Deciding(_) => case Connecting => case Ready => case Claiming => case Owning => case Finishing =>
      }
    case CardInCase => case SetMode(_) => case UserPicks(_) => case Tick(_) => case Look(_) => case WorkerExits(_) =>
  }

  /** Who spoke up in a packet. */
  predicate Speaks(p: Packet, m: Mac) {
    (p.AudioSource? && p.from == m && m != NOBODY) || (p.Relayed? && p.from == m)
  }

  /** In every run: whoever streamed or sent a message through the AirPods is asked by every claim until the next
      connection, each time once. */
  lemma {:induction false} TalkerIsAsked(states: seq<State>, actions: seq<Action>, i: nat, j: nat, m: Message)
    requires Run(states, actions) && i < j < |states| && AsksOnly(m)
    requires actions[i].Receive? && Speaks(actions[i].packet, m.to) && m.to != states[i].devices.localMac
    requires forall k | i < k < j :: actions[k] != Reset
    ensures Count(ClaimMessages(states[j].devices), m) == 1
  {
    TalkerStays(states, actions, i, j, m.to);
    hide *;
    ClaimAsksEachOnce(states[j].devices, m);
  }

  lemma {:induction false} TalkerStays(states: seq<State>, actions: seq<Action>, i: nat, j: nat, m: Mac)
    requires Run(states, actions) && i < j < |states|
    requires actions[i].Receive? && Speaks(actions[i].packet, m) && m != states[i].devices.localMac
    requires forall k | i < k < j :: actions[k] != Reset
    ensures m in states[j].devices.talking && states[j].devices.localMac == states[i].devices.localMac
    decreases j
  {
    assert states[j] == Apply(states[j - 1], actions[j - 1]);
    if i + 1 < j {
      hide Apply, Enabled, Start, Speaks;
      TalkerStays(states, actions, i, j - 1, m);
      StepRemembers(states[j - 1], actions[j - 1], m);
    } else {
      hide Enabled, Start, Run;
      SpeakerIsNoted(states[i], actions[i].packet, m);
      hide Received;
    }
  }

  lemma SpeakerIsNoted(s: State, p: Packet, m: Mac)
    requires Speaks(p, m) && m != s.devices.localMac
    ensures m in Received(s, p).devices.talking && Received(s, p).devices.localMac == s.devices.localMac
  {
    hide InGrace;
    match p
    case OwnsReport(_) => case AudioSource(_, _) => case DeviceList(_) => case Relayed(_, _) => case Other =>
  }

  /** A `Reset` did not come since `m` spoke up. */
  ghost predicate SpokeBefore(states: seq<State>, actions: seq<Action>, j: nat, m: Mac) {
    exists i: nat :: SpeaksAt(states, actions, i, m) && i < j && forall k | i < k < j && k < |actions| :: actions[k] != Reset
  }

  ghost predicate SpeaksAt(states: seq<State>, actions: seq<Action>, i: nat, m: Mac) {
    i < |actions| && i < |states| && actions[i].Receive? && Speaks(actions[i].packet, m) && m != states[i].devices.localMac
  }

  /** In every run: this computer remembers exactly who spoke up since the last connection. */
  lemma {:induction false} TalkersAre(states: seq<State>, actions: seq<Action>, j: nat, m: Mac)
    requires Run(states, actions) && j < |states|
    ensures m in states[j].devices.talking <==> SpokeBefore(states, actions, j, m)
    decreases j
  {
    hide *;
    if j == 0 {
      RunStart(states, actions);
      NobodySpoke(states, actions, m);
    } else {
      RunStep(states, actions, j - 1);
      TalkersAre(states, actions, j - 1, m);
      StepTalkers(states[j - 1], actions[j - 1], m);
      SpokeOneMore(states, actions, j, m);
      SpeaksAtMeans(states, actions, j - 1, m);
    }
  }

  lemma SpeaksAtMeans(states: seq<State>, actions: seq<Action>, i: nat, m: Mac)
    requires i < |actions| && i < |states|
    ensures SpeaksAt(states, actions, i, m)
       <==> actions[i].Receive? && Speaks(actions[i].packet, m) && m != states[i].devices.localMac
  {
  }

  lemma RunStart(states: seq<State>, actions: seq<Action>)
    requires Run(states, actions)
    ensures |states| == |actions| + 1 && states[0].devices.talking == []
  {
    hide Apply, Enabled;
  }

  lemma NobodySpoke(states: seq<State>, actions: seq<Action>, m: Mac)
    ensures !SpokeBefore(states, actions, 0, m)
  {
  }

  lemma SpokeOneMore(states: seq<State>, actions: seq<Action>, j: nat, m: Mac)
    requires 0 < j < |states| == |actions| + 1
    ensures SpokeBefore(states, actions, j, m)
       <==> SpeaksAt(states, actions, j - 1, m) || (actions[j - 1] != Reset && SpokeBefore(states, actions, j - 1, m))
  {
    hide SpeaksAt;
    if SpeaksAt(states, actions, j - 1, m) {
      assert SpokeBefore(states, actions, j, m);
    }
    if SpokeBefore(states, actions, j, m) {
      var i: nat :| SpeaksAt(states, actions, i, m) && i < j && forall k | i < k < j && k < |actions| :: actions[k] != Reset;
      assert i < j - 1 ==> SpokeBefore(states, actions, j - 1, m);
    }
    if actions[j - 1] != Reset && SpokeBefore(states, actions, j - 1, m) {
      var i: nat :| SpeaksAt(states, actions, i, m) && i < j - 1
                    && forall k | i < k < j - 1 && k < |actions| :: actions[k] != Reset;
      assert forall k | i < k < j && k < |actions| :: actions[k] != Reset;
    }
  }

  lemma StepTalkers(s: State, a: Action, m: Mac)
    ensures m in Apply(s, a).devices.talking
       <==> (a.Receive? && Speaks(a.packet, m) && m != s.devices.localMac) || (a != Reset && m in s.devices.talking)
  {
    hide Introducing, Added, ClaimMessages, HoldNext, InGrace;
    match a
    case Receive(p) =>
      match p {
        case OwnsReport(_) => case AudioSource(_, _) => case DeviceList(_) => case Relayed(_, _) => case Other =>
      }
    case Reset =>
    case Playback => case MoveHere =>
    case TakeOverMoves(o) =>
      match s.take.phase {
        case Idle => case Deciding(_) => case Connecting => case Ready => case Claiming => case Owning => case Finishing =>
      }
    case CardInCase => case SetMode(_) => case UserPicks(_) => case Tick(_) => case Look(_) => case WorkerExits(_) =>
  }

  /** In every run: nobody is remembered twice. */
  lemma {:induction false} TalkersAreDistinct(states: seq<State>, actions: seq<Action>, j: nat)
    requires Run(states, actions) && j < |states|
    ensures Distinct(states[j].devices.talking)
    decreases j
  {
    hide *;
    if j == 0 {
      RunStart(states, actions);
      assert Distinct(states[0].devices.talking) by { NobodyIsDistinct(); }
    } else {
      RunStep(states, actions, j - 1);
      TalkersAreDistinct(states, actions, j - 1);
      StepKeepsDistinct(states[j - 1], actions[j - 1]);
    }
  }

  lemma NobodyIsDistinct()
    ensures Distinct([])
  {
  }

  lemma TalkedIsDistinct(d: Devices, m: Mac)
    requires Distinct(d.talking)
    ensures Distinct(Talked(d, m).talking)
  {
  }

  lemma StepKeepsDistinct(s: State, a: Action)
    requires Distinct(s.devices.talking)
    ensures Distinct(Apply(s, a).devices.talking)
  {
    hide Introducing, Added, ClaimMessages, HoldNext, InGrace, Talked, Distinct;
    match a
    case Receive(p) =>
      match p {
        case OwnsReport(_) => case AudioSource(from, _) => TalkedIsDistinct(s.devices, from);
        case DeviceList(_) => case Relayed(from, _) => TalkedIsDistinct(s.devices, from);
        case Other =>
      }
    case Reset => NobodyIsDistinct();
    case Playback => case MoveHere =>
    case TakeOverMoves(o) =>
      match s.take.phase {
        case Idle => case Deciding(_) => case Connecting => case Ready => case Claiming => case Owning => case Finishing =>
      }
    case CardInCase => case SetMode(_) => case UserPicks(_) => case Tick(_) => case Look(_) => case WorkerExits(_) =>
  }

  /** A new connection starts with this computer owning them, as yet unclaimed, and knowing nobody. */
  lemma ResetStartsAnew(s: State)
    ensures var t := Apply(s, Reset);
            && t.devices == s.devices.(connected := [], talking := [])
            && t.own == Ownership(owns := true, released := false, claimed := false, reclaimed := false, report := -1)
            && t.sourceType == 0 && !t.routeWhenWorn
            && t.take == s.take && t.hold == s.hold && t.sent == s.sent && t.mode == s.mode && t.now == s.now
  {
  }

  function Times(macs: seq<Mac>, m: Mac): nat { multiset(macs)[m] }

  /** In every run: a list of the connected devices is the one that counts from then on, and every device on it that was
      not on the last one, this computer apart, is told once, in both messages, of this computer. */
  lemma NewcomersAreIntroduced(states: seq<State>, actions: seq<Action>, n: nat, macs: seq<Mac>, m: Mac)
    requires Run(states, actions) && n < |actions| && actions[n] == Receive(DeviceList(macs))
    ensures var s, t := states[n], states[n + 1];
            var told := if s.devices.localMac != NO_ADDRESS && m != s.devices.localMac && m !in s.devices.connected then Times(macs, m)
                        else 0;
            && t.devices.connected == macs && t.devices.talking == s.devices.talking
            && Count(t.sent, NewDeviceInformation(m)) == Count(s.sent, NewDeviceInformation(m)) + told
            && Count(t.sent, AddTiPiDevice(m)) == Count(s.sent, AddTiPiDevice(m)) + told
  {
    var s, t := states[n], states[n + 1];
    var d := s.devices;
    assert t == Received(s, DeviceList(macs));
    hide Added, Introducing, Count, Times, Run;
    AddedTimes(macs, d.connected, d.localMac, m);
    IntroducedTimes(Added(macs, d.connected, d.localMac), m);
    CountConcat(s.sent, Introducing(Added(macs, d.connected, d.localMac)), NewDeviceInformation(m));
    CountConcat(s.sent, Introducing(Added(macs, d.connected, d.localMac)), AddTiPiDevice(m));
  }

  lemma {:induction false} AddedTimes(macs: seq<Mac>, known: seq<Mac>, localMac: Mac, m: Mac)
    ensures Times(Added(macs, known, localMac), m) == if m != localMac && m !in known then Times(macs, m) else 0
    decreases |macs|
  {
    if macs != [] {
      var n := |macs| - 1;
      AddedTimes(macs[..n], known, localMac, m);
      assert macs == macs[..n] + [macs[n]];
    }
  }

  lemma {:induction false} IntroducedTimes(added: seq<Mac>, m: Mac)
    ensures Count(Introducing(added), NewDeviceInformation(m)) == Count(Introducing(added), AddTiPiDevice(m)) == Times(added, m)
    decreases |added|
  {
    if added == [] {
      assert Introducing(added) == [];
    } else {
      var n := |added| - 1;
      IntroducedTimes(added[..n], m);
      assert Introducing(added) == Introducing(added[..n]) + [NewDeviceInformation(added[n]), AddTiPiDevice(added[n])];
      TimesMore(added, m);
      hide *;
      ToldInBoth(added[n], m);
      var two := [NewDeviceInformation(added[n]), AddTiPiDevice(added[n])];
      CountConcat(Introducing(added[..n]), two, NewDeviceInformation(m));
      CountConcat(Introducing(added[..n]), two, AddTiPiDevice(m));
    }
  }

  lemma TimesMore(macs: seq<Mac>, m: Mac)
    requires macs != []
    ensures var n := |macs| - 1; Times(macs, m) == Times(macs[..n], m) + if macs[n] == m then 1 else 0
  {
    assert macs == macs[..|macs| - 1] + [macs[|macs| - 1]];
  }

  lemma ToldInBoth(x: Mac, m: Mac)
    ensures var two := [NewDeviceInformation(x), AddTiPiDevice(x)]; var times := if x == m then 1 else 0;
            Count(two, NewDeviceInformation(m)) == times && Count(two, AddTiPiDevice(m)) == times
  {
    assert [NewDeviceInformation(x), AddTiPiDevice(x)] == [NewDeviceInformation(x)] + [AddTiPiDevice(x)];
  }

  // ---------- what a takeover comes to ----------

  /** Worn again after a connection in the case. */
  predicate WakesUp(s: State, v: View) { v.worn && v.connected && s.own.owns && s.routeWhenWorn }

  /** In every run, a takeover begins, where there is none, exactly when something starts to play here, the user asks for
      them, or they are worn again after a connection in the case; the last two by the user's will. */
  lemma TakeoverBeginsIff(states: seq<State>, actions: seq<Action>, n: nat)
    requires Run(states, actions) && n < |actions| && !states[n].take.busy
    ensures var s, t, a := states[n], states[n + 1], actions[n];
            && (t.take.busy <==> a.Playback? || a.MoveHere? || (IsLook(a) && WakesUp(s, a.view)))
            && (t.take.busy ==> t.take.phase == Deciding(!a.Playback?))
  {
    RunKeepsInv(states, actions, n);
    assert states[n + 1] == Apply(states[n], actions[n]);
    hide Run;
    StepBeginsIff(states[n], actions[n]);
  }

  lemma StepBeginsIff(s: State, a: Action)
    requires Inv(s) && !s.take.busy
    ensures var t := Apply(s, a);
            && (t.take.busy <==> a.Playback? || a.MoveHere? || (IsLook(a) && WakesUp(s, a.view)))
            && (t.take.busy ==> t.take.phase == Deciding(!a.Playback?))
  {
    hide ClaimMessages, HoldNext, Introducing, Added, Talked, HoldOk;
    match a
    case Receive(p) =>
      match p {
        case OwnsReport(_) => case AudioSource(_, _) => case DeviceList(_) => case Relayed(_, _) => case Other =>
      }
    case Reset =>
    case Playback => case MoveHere =>
    case TakeOverMoves(o) =>
    case CardInCase => case SetMode(_) => case UserPicks(_) => case Tick(_) => case Look(_) => case WorkerExits(_) =>
  }

  /** A takeover that was begun goes on: the user wants it, or playback wants it, automatically, for AirPods that are
      worn, not in another device's call, and not playing here under a claim the AirPods confirmed. */
  predicate GoesOn(s: State, manual: bool, o: Outside) {
    || manual
    || (s.mode == 0 && o.worn && !(s.sourceType == 1 && !s.own.owns)
        && !(s.own.owns && o.streaming && s.own.claimed && s.own.report == 1))
  }

  lemma TakeoverGoesOnIff(s: State, manual: bool, o: Outside)
    requires s.take.phase == Deciding(manual)
    ensures var t := TakeOverStep(s, o);
            && (t.take.phase != Idle <==> GoesOn(s, manual, o))
            && t.own == s.own && t.sent == s.sent && t.hold == s.hold && t.devices == s.devices
            && (t.take.phase != Idle ==> t.take.phase == if o.connected then Ready else Connecting)
  {
  }

  /** In move `k` the takeover sends its claim. */
  ghost predicate ClaimsAt(states: seq<State>, actions: seq<Action>, k: nat) {
    && k < |actions| && k + 1 < |states| && actions[k].TakeOverMoves? && states[k].take.phase == Claiming
    && states[k + 1].sent == states[k].sent + ClaimMessages(states[k].devices)
  }

  ghost predicate ClaimsBetween(states: seq<State>, actions: seq<Action>, i: nat, j: nat) {
    exists k: nat :: ClaimsAt(states, actions, k) && i < k < j
  }

  /** How far the takeover that went on in move `i` has come in state `j`. */
  ghost predicate HasComeTo(states: seq<State>, actions: seq<Action>, i: nat, j: nat)
    requires i < j < |states| && |states| == |actions| + 1
  {
    var s := states[j];
    match s.take.phase
    case Connecting => true
    case Ready => true
    case Claiming => true
    case Owning => ClaimsBetween(states, actions, i, j) && (Reset !in actions[i..j] ==> s.own.claimed)
    case Finishing =>
      ClaimsBetween(states, actions, i, j) && s.own.owns && (Reset !in actions[i..j] ==> s.own.claimed)
    case Idle => false
    case Deciding(_) => false
  }

  /** Only its own thread moves a takeover on, and while it lasts nothing takes what it got. */
  lemma OthersLeaveTakeover(s: State, a: Action)
    requires Inv(s) && s.take.busy && !a.TakeOverMoves?
    ensures var t := Apply(s, a);
            && t.take.phase == s.take.phase && t.take.busy
            && (s.own.owns ==> t.own.owns) && (s.own.claimed && a != Reset ==> t.own.claimed)
  {
    hide ClaimMessages, HoldNext, Introducing, Added, Talked, HoldOk;
    match a
    case Receive(p) =>
      match p {
        case OwnsReport(_) => case AudioSource(_, _) => case DeviceList(_) => case Relayed(_, _) => case Other =>
      }
    case Reset =>
    case Playback => case MoveHere =>
    case CardInCase => case SetMode(_) => case UserPicks(_) => case Tick(_) => case Look(_) => case WorkerExits(_) =>
  }

  ghost predicate StaysBusy(states: seq<State>, i: nat, j: nat)
    requires j < |states|
  {
    forall k | i < k <= j :: states[k].take.phase != Idle
  }

  lemma {:induction false} TakeoverProgress(states: seq<State>, actions: seq<Action>, i: nat, j: nat)
    requires Run(states, actions) && i < j < |states| && StaysBusy(states, i, j)
    requires actions[i].TakeOverMoves? && states[i].take.phase.Deciding?
    ensures HasComeTo(states, actions, i, j)
    decreases j
  {
    hide *;
    RunStep(states, actions, j - 1);
    RunKeepsInv(states, actions, j - 1);
    var s, a := states[j - 1], actions[j - 1];
    if i + 1 == j {
      BusyAt(states, i, j, j);
      FirstMove(states, actions, i);
    } else {
      BusyAt(states, i, j, j - 1);
      TakeoverProgress(states, actions, i, j - 1);
      if a.TakeOverMoves? {
        MoveIsStep(s, a);
        TakeoverMovesOn(states, actions, i, j);
      } else {
        BusyMeans(s);
        OthersLeaveTakeover(s, a);
        StaysAsItWas(states, actions, i, j);
      }
    }
  }

  lemma BusyAt(states: seq<State>, i: nat, j: nat, k: nat)
    requires i < k <= j < |states| && StaysBusy(states, i, j)
    ensures states[k].take.phase != Idle && StaysBusy(states, i, k)
  {
  }

  lemma BusyMeans(s: State)
    requires Inv(s)
    ensures s.take.busy <==> s.take.phase != Idle
  {
  }

  lemma MoveIsStep(s: State, a: Action)
    requires a.TakeOverMoves?
    ensures Apply(s, a) == TakeOverStep(s, a.outside)
  {
    hide TakeOverStep;
  }

  lemma FirstMove(states: seq<State>, actions: seq<Action>, i: nat)
    requires i + 1 < |states| == |actions| + 1 && actions[i].TakeOverMoves? && states[i].take.phase.Deciding?
    requires states[i + 1] == Apply(states[i], actions[i]) && states[i + 1].take.phase != Idle
    ensures HasComeTo(states, actions, i, i + 1)
  {
    hide ClaimMessages;
    TakeoverGoesOnIff(states[i], states[i].take.phase.manual, actions[i].outside);
  }

  lemma StaysAsItWas(states: seq<State>, actions: seq<Action>, i: nat, j: nat)
    requires i + 1 < j < |states| == |actions| + 1 && HasComeTo(states, actions, i, j - 1)
    requires var s, t := states[j - 1], states[j];
             && t.take.phase == s.take.phase && (s.own.owns ==> t.own.owns)
             && (s.own.claimed && actions[j - 1] != Reset ==> t.own.claimed)
    ensures HasComeTo(states, actions, i, j)
  {
    hide ClaimsAt;
    assert actions[i..j] == actions[i..j - 1] + [actions[j - 1]];
  }

  lemma TakeoverMovesOn(states: seq<State>, actions: seq<Action>, i: nat, j: nat)
    requires |states| == |actions| + 1 && i + 1 < j < |states| && StaysBusy(states, i, j)
    requires actions[j - 1].TakeOverMoves? && states[j] == TakeOverStep(states[j - 1], actions[j - 1].outside)
    requires HasComeTo(states, actions, i, j - 1)
    ensures HasComeTo(states, actions, i, j)
  {
    hide ClaimMessages;
    var s := states[j - 1];
    assert actions[i..j] == actions[i..j - 1] + [actions[j - 1]];
    match s.take.phase
    case Claiming => assert ClaimsAt(states, actions, j - 1);
    case Owning => hide ClaimsAt;
    case Idle => case Deciding(_) => case Connecting => case Ready => case Finishing =>
  }

  /** In every run, a takeover that went on ends in one of two ways: the connection failed and nothing was claimed by it
      at that point, or it sent one claim and this computer owns the AirPods at its end, and still claims them unless
      they reconnected meanwhile. */
  lemma TakeoverEnds(states: seq<State>, actions: seq<Action>, i: nat, e: nat)
    requires Run(states, actions) && i < e < |actions| && StaysBusy(states, i, e) && states[e + 1].take.phase == Idle
    requires actions[i].TakeOverMoves? && states[i].take.phase.Deciding?
    ensures actions[e].TakeOverMoves?
    ensures var t := states[e + 1];
            || (states[e].take.phase == Connecting && !actions[e].outside.connects && t.hold.blocked && t.own == states[e].own)
            || (ClaimsBetween(states, actions, i, e) && t.own.owns && !t.own.released && t.take.at == t.now
                && (Reset !in actions[i..e] ==> t.own.claimed))
  {
    TakeoverProgress(states, actions, i, e);
    RunKeepsInv(states, actions, e);
    assert states[e + 1] == Apply(states[e], actions[e]);
    hide Run, ClaimMessages, ClaimsBetween;
    if !actions[e].TakeOverMoves? {
      OthersLeaveTakeover(states[e], actions[e]);
      assert false;
    }
  }

  /** In every run, what a takeover took this computer keeps while the grace lasts, whatever comes in. */
  lemma {:induction false} KeptInGrace(states: seq<State>, actions: seq<Action>, i: nat, j: nat)
    requires Run(states, actions) && i <= j < |states| && states[i].own.owns
    requires forall k | i <= k < j :: !OutsideGrace(states[k])
    ensures states[j].own.owns
    decreases j
  {
    if i < j {
      assert states[j] == Apply(states[j - 1], actions[j - 1]);
      hide Run, Apply, OutsideGrace, TakesThem;
      KeptInGrace(states, actions, i, j - 1);
      StepLetsGoIff(states[j - 1], actions[j - 1]);
    }
  }

  // ---------- the silent output ----------

  /** In every run, and for every look: without a hold, one begins exactly if, automatically, the AirPods are worn,
      another device has them, nothing plays into them from here, the user picked no other output, no takeover is under
      way, and the speakers' place can be taken by the silent output; a hold goes on exactly during a takeover, or as
      long as the AirPods are worn, another device has them and the silent output is still the default. */
  lemma HoldsIff(states: seq<State>, actions: seq<Action>, n: nat)
    requires Run(states, actions) && n < |actions| && IsLook(actions[n])
    ensures var s, a, v := states[n], actions[n], actions[n].view;
            var busy := s.take.busy || WakesUp(s, v);
            var blocked := s.hold.blocked || a.WorkerExits?;
            var theirs := s.mode == 0 && v.worn && (!s.own.owns || !v.connected) && !(s.own.owns && v.intoThem) && !blocked;
            states[n + 1].hold.holding
            <==> if s.hold.holding then busy || (theirs && s.hold.defaultSink == HOLD_SINK)
                 else !busy && theirs && s.hold.defaultSink != NO_SINK && v.speakers && v.comesUp && v.settable
  {
    assert states[n + 1] == Apply(states[n], actions[n]);
    hide Run;
    LookHoldsIff(AtLook(states[n], actions[n]), actions[n].view);
    hide Looked, HOLD_SINK, NO_SINK;
  }

  lemma LookHoldsIff(s: State, v: View)
    ensures var busy := s.take.busy || WakesUp(s, v);
            var theirs := s.mode == 0 && v.worn && (!s.own.owns || !v.connected) && !(s.own.owns && v.intoThem) && !s.hold.blocked;
            Looked(s, v).hold.holding
            <==> if s.hold.holding then busy || (theirs && s.hold.defaultSink == HOLD_SINK)
                 else !busy && theirs && s.hold.defaultSink != NO_SINK && v.speakers && v.comesUp && v.settable
  {
    hide ClaimMessages;
  }

  // ---------- what is kept for later ----------

  lemma StepKeepsRoute(s: State, a: Action)
    requires Inv(s) && s.routeWhenWorn && a != Reset && !(IsLook(a) && WakesUp(s, a.view) && !s.take.busy)
    ensures Apply(s, a).routeWhenWorn
  {
    hide ClaimMessages, HoldNext, Introducing, Added, Talked, InGrace, HoldOk;
    match a
    case Receive(p) =>
      match p {
        case OwnsReport(_) => case AudioSource(_, _) => case DeviceList(_) => case Relayed(_, _) => case Other =>
      }
    case Reset =>
    case Playback => case MoveHere =>
    case TakeOverMoves(o) =>
      match s.take.phase {
        case Idle => case Deciding(_) => case Connecting => case Ready => case Claiming => case Owning => case Finishing =>
      }
    case CardInCase => case SetMode(_) => case UserPicks(_) => case Tick(_) => case Look(_) => case WorkerExits(_) =>
  }

  /** In every run: AirPods that this computer has and that connected in their case are taken over once they are worn:
      the wish waits for the first look that can fulfil it, or for another connection. */
  lemma {:induction false} CaseIsRemembered(states: seq<State>, actions: seq<Action>, i: nat, j: nat)
    requires Run(states, actions) && i < j < |states|
    requires actions[i].CardInCase? && states[i].own.owns && !states[i].take.busy
    requires |states| == |actions| + 1
    requires forall k | i < k < j ::
               actions[k] != Reset && !(IsLook(actions[k]) && WakesUp(states[k], actions[k].view) && !states[k].take.busy)
    ensures states[j].routeWhenWorn
    decreases j
  {
    hide *;
    RunStep(states, actions, j - 1);
    if i + 1 < j {
      RunKeepsInv(states, actions, j - 1);
      CaseIsRemembered(states, actions, i, j - 1);
      StepKeepsRoute(states[j - 1], actions[j - 1]);
    } else {
      CaseIsNoted(states[i]);
    }
  }

  lemma RunStep(states: seq<State>, actions: seq<Action>, k: nat)
    requires Run(states, actions) && k + 1 < |states|
    ensures |states| == |actions| + 1 && states[k + 1] == Apply(states[k], actions[k])
  {
    hide Apply, Enabled, Start;
  }

  lemma CaseIsNoted(s: State)
    requires s.own.owns && !s.take.busy
    ensures Apply(s, CardInCase).routeWhenWorn
  {
  }

  /** The AirPods' last word on the ownership, and the other device's stream, are noted whenever they come. */
  lemma WordsAreNoted(s: State, p: Packet)
    ensures var t := Received(s, p);
            && t.own.report == (if p.OwnsReport? then (if p.owns then 1 else 0) else s.own.report)
            && t.sourceType == (if p.AudioSource? then p.kind else s.sourceType)
            && t.take == s.take && t.hold == s.hold && t.own.reclaimed == s.own.reclaimed
  {
    hide Talked, Introducing, Added, InGrace;
    match p
    case OwnsReport(_) => case AudioSource(_, _) => case DeviceList(_) => case Relayed(_, _) => case Other =>
  }

  /** A look claims them once more, to every other device, exactly if an "owns connection 0" put aside is due, no
      takeover is begun instead, they play here, and that was not done since the last takeover. */
  lemma LookClaimsIff(s: State, v: View)
    ensures var t := Looked(s, v);
            var claims := s.own.owns && s.own.claimed && s.own.report == 0 && OutsideGrace(s) && !WakesUp(s, v)
                          && v.intoThem && !s.own.reclaimed;
            && t.sent == (if claims then s.sent + ClaimMessages(s.devices) else s.sent)
            && t.own.reclaimed == (s.own.reclaimed || claims)
            && (claims ==> t.own.owns && t.own.claimed && t.own.report == -1)
  {
    hide ClaimMessages, HoldNext;
  }

  /** A takeover may claim them once more later. */
  lemma TakeoverRearms(s: State, o: Outside)
    requires s.take.phase == Ready
    ensures !TakeOverStep(s, o).own.reclaimed && TakeOverStep(s, o).take == Takeover(s.take.busy, Claiming, s.now)
  {
  }

  // ---------- nothing stays behind ----------

  function StepsLeft(p: Phase): nat {
    match p
    case Deciding(_) => 6
    case Connecting => 5
    case Ready => 4
    case Claiming => 3
    case Owning => 2
    case Finishing => 1
    case Idle => 0
  }

  /** A takeover never stalls: its thread can always move, every move brings it nearer to its end, and with its end
      another one may begin. The other device's stream counts no more once this computer owns them. */
  lemma TakeoverAdvances(s: State, o: Outside)
    requires Inv(s) && s.take.busy
    ensures Enabled(s, TakeOverMoves(o))
    ensures var t := Apply(s, TakeOverMoves(o));
            && StepsLeft(t.take.phase) < StepsLeft(s.take.phase)
            && (t.take.busy <==> StepsLeft(t.take.phase) > 0)
            && t.sourceType == (if s.take.phase == Owning then 0 else s.sourceType)
  {
    hide ClaimMessages;
    match s.take.phase
    case Idle => case Deciding(_) => case Connecting => case Ready => case Claiming => case Owning => case Finishing =>
  }

  /** A wish is fulfilled once. */
  lemma WishIsFulfilledOnce(s: State, v: View)
    requires Inv(s) && !s.take.busy
    ensures Looked(s, v).routeWhenWorn <==> s.routeWhenWorn && !WakesUp(s, v)
  {
    hide ClaimMessages, HoldNext;
  }

  /** AirPods in their case are kept for later exactly if this computer has them and no takeover is under way. */
  lemma CaseIsNotedIff(s: State)
    ensures Apply(s, CardInCase).routeWhenWorn <==> s.routeWhenWorn || (s.own.owns && !s.take.busy)
  {
  }

  /** After a look no hold is to begin exactly if that was so and they are still worn, or the look finds that the user
      picked another output during a hold, or a hold that was to begin could not. */
  lemma BlocksIff(s: State, v: View)
    ensures var busy := s.take.busy || WakesUp(s, v);
            var playsHere := s.own.owns && v.intoThem;
            var theirs := s.mode == 0 && v.worn && (!s.own.owns || !v.connected) && !playsHere && !s.hold.blocked;
            Looked(s, v).hold.blocked
            <==> || (v.worn && s.hold.blocked)
                 || (s.hold.holding && !busy && s.hold.defaultSink != HOLD_SINK && !playsHere)
                 || (!s.hold.holding && !busy && theirs && s.hold.defaultSink != NO_SINK && v.speakers && !(v.comesUp && v.settable))
  {
    hide ClaimMessages;
  }

  /** The worker's exit is its last look. */
  lemma {:induction false} ExitIsLast(states: seq<State>, actions: seq<Action>, i: nat, j: nat)
    requires Run(states, actions) && i < j < |actions| && actions[i].WorkerExits?
    ensures states[j].exited && !IsLook(actions[j])
    decreases j
  {
    hide *;
    CanLook(states, actions, j);
    RunStep(states, actions, j - 1);
    if i + 1 < j {
      ExitIsLast(states, actions, i, j - 1);
    }
    StaysExited(states[j - 1], actions[j - 1]);
  }

  lemma StaysExited(s: State, a: Action)
    ensures Apply(s, a).exited <==> s.exited || a.WorkerExits?
  {
    hide Introducing, Added, ClaimMessages, HoldNext, InGrace, Talked;
    match a
    case Receive(p) =>
      match p {
        case OwnsReport(_) => case AudioSource(_, _) => case DeviceList(_) => case Relayed(_, _) => case Other =>
      }
    case Reset =>
    case Playback => case MoveHere =>
    case TakeOverMoves(o) =>
      match s.take.phase {
        case Idle => case Deciding(_) => case Connecting => case Ready => case Claiming => case Owning => case Finishing =>
      }
    case CardInCase => case SetMode(_) => case UserPicks(_) => case Tick(_) => case Look(_) => case WorkerExits(_) =>
  }

  lemma CanLook(states: seq<State>, actions: seq<Action>, j: nat)
    requires Run(states, actions) && j < |actions|
    ensures |states| == |actions| + 1 && (IsLook(actions[j]) ==> !states[j].exited)
  {
    hide Apply, Start;
  }
}
