/** Who plays to a pair of AirPods: this computer takes them over, lets go, claims them once more, and keeps its own
    output silent while they are worn and another device has them. Packets come parsed; every handler is one step,
    a takeover is several, the worker's look is one. */
module AudioSwitch {

  datatype Mac = Mac(address: string)
  datatype Sink = Sink(name: string)

  const HOLD_SINK := Sink("mypods_hold")
  const NO_SINK := Sink("")
  const NOBODY := Mac("00:00:00:00:00:00")
  const NO_ADDRESS := Mac("")
  const GRACE := 3000

  datatype Message = OwnsConnection(owns: bool) | MediaInformation(to: Mac) | ShowNearbyUI(to: Mac) | HijackRequest(to: Mac)
                   | NewDeviceInformation(to: Mac) | AddTiPiDevice(to: Mac)

  datatype Packet =
    | OwnsReport(owns: bool)
    | AudioSource(from: Mac, kind: int)
    | DeviceList(devices: seq<Mac>)
    | Relayed(from: Mac, setsOwnershipToFalse: bool)
    | Other

  datatype Devices = Devices(localMac: Mac, connected: seq<Mac>, talking: seq<Mac>)

  datatype Ownership = Ownership(
    owns: bool,
    released: bool,
    claimed: bool,
    reclaimed: bool,
    report: int      // the last "owns connection" since the claim: 1, 0, -1 for none
  )

  /** Where the takeover thread is; `Idle` when there is none. */
  datatype Phase =
    | Idle
    | Deciding(manual: bool)
    | Connecting
    | Ready        // the channel is up, or waited for long enough
    | Claiming
    | Owning
    | Finishing

  datatype Takeover = Takeover(busy: bool, phase: Phase, at: int)

  datatype Hold = Hold(
    holding: bool,
    heldOutput: Sink,
    blocked: bool,
    silentSink: bool,   // the silent output exists
    defaultSink: Sink   // the empty name if there is none
  )

  datatype State = State(
    mode: int,          // 0: automatically
    devices: Devices,
    sent: seq<Message>,
    sourceType: int,
    own: Ownership,
    take: Takeover,
    now: int,
    routeWhenWorn: bool,
    hold: Hold,
    exited: bool        // the worker is gone
  )

  // ---------- letting go and claiming ----------

  function LetGo(o: Ownership): Ownership {
    o.(owns := false, claimed := false, released := true)
  }

  function Released(s: State, answerRequest: bool): State {
    s.(sent := if answerRequest then s.sent + [OwnsConnection(false)] else s.sent, own := LetGo(s.own))
  }

  function Talked(d: Devices, mac: Mac): Devices {
    if mac != d.localMac && mac !in d.talking then d.(talking := d.talking + [mac]) else d
  }

  /** `others`, and of `macs` what is neither this computer nor among them. */
  function Gathered(macs: seq<Mac>, localMac: Mac, others: seq<Mac>): seq<Mac>
    decreases |macs|
  {
    if macs == [] then others
    else Gathered(macs[1..], localMac, if macs[0] != localMac && macs[0] !in others then others + [macs[0]] else others)
  }

  function Others(d: Devices): seq<Mac> {
    Gathered(d.talking, d.localMac, Gathered(d.connected, d.localMac, []))
  }

  function Asks(mac: Mac): seq<Message> {
    [MediaInformation(mac), ShowNearbyUI(mac), HijackRequest(mac)]
  }

  function Asking(others: seq<Mac>): seq<Message> {
    if others == [] then [] else Asking(others[..|others| - 1]) + Asks(others[|others| - 1])
  }

  function ClaimMessages(d: Devices): seq<Message> {
    [OwnsConnection(true)] + Asking(Others(d))
  }

  function Claim(o: Ownership): Ownership {
    o.(claimed := true, report := -1)
  }

  // ---------- packets ----------

  predicate InGrace(s: State) { s.take.busy || s.now - s.take.at < GRACE }

  function Added(devices: seq<Mac>, known: seq<Mac>, localMac: Mac): seq<Mac> {
    if devices == [] then []
    else
      var n := |devices| - 1;
      Added(devices[..n], known, localMac) + if devices[n] != localMac && devices[n] !in known then [devices[n]] else []
  }

  function Introducing(added: seq<Mac>): seq<Message> {
    if added == [] then []
    else
      var n := |added| - 1;
      Introducing(added[..n]) + [NewDeviceInformation(added[n]), AddTiPiDevice(added[n])]
  }

  function Received(s: State, p: Packet): State {
    match p
    case OwnsReport(owns) =>
      var s' := s.(own := s.own.(report := if owns then 1 else 0));
      if !owns && !InGrace(s) then Released(s', false) else s'
    case AudioSource(from, kind) =>
      var s' := s.(sourceType := kind, devices := if from != NOBODY then Talked(s.devices, from) else s.devices);
      if kind != 0 && s.devices.localMac != NO_ADDRESS && from != s.devices.localMac && !InGrace(s)
      then Released(s', true) else s'
    case DeviceList(devices) =>
      s.(devices := s.devices.(connected := devices),
         sent := if s.devices.localMac != NO_ADDRESS
                 then s.sent + Introducing(Added(devices, s.devices.connected, s.devices.localMac)) else s.sent)
    case Relayed(from, setsOwnershipToFalse) =>
      var s' := s.(devices := Talked(s.devices, from));
      if setsOwnershipToFalse && !InGrace(s) then Released(s', true) else s'
    case Other => s
  }

  function AfterReset(s: State): State {
    s.(devices := s.devices.(connected := [], talking := []), sourceType := 0, routeWhenWorn := false,
       own := Ownership(true, false, false, false, -1))
  }

  // ---------- taking over ----------

  function Begun(t: Takeover, manual: bool): Takeover {
    if t.busy then t else t.(busy := true, phase := Deciding(manual))
  }

  function Ended(t: Takeover): Takeover {
    t.(busy := false, phase := Idle)
  }

  /** What a step of the takeover finds outside. */
  datatype Outside = Outside(streaming: bool, connected: bool, worn: bool, connects: bool)

  function TakeOverStep(s: State, o: Outside): State {
    match s.take.phase
    case Idle => s
    case Deciding(manual) =>
      if !manual && s.own.owns && o.streaming && s.own.claimed && s.own.report == 1 then s.(take := Ended(s.take))  // already ours
      else if !manual && (s.mode != 0 || !o.worn || (s.sourceType == 1 && !s.own.owns)) then s.(take := Ended(s.take))
      else s.(take := s.take.(phase := if o.connected then Ready else Connecting))
    case Connecting =>
      if o.connects then s.(take := s.take.(phase := Ready))
      else s.(take := Ended(s.take), hold := s.hold.(blocked := true))
    case Ready => s.(take := s.take.(at := s.now, phase := Claiming), own := s.own.(reclaimed := false))
    case Claiming => s.(take := s.take.(phase := Owning), own := Claim(s.own), sent := s.sent + ClaimMessages(s.devices))
    case Owning => s.(take := s.take.(phase := Finishing), own := s.own.(owns := true, released := false), sourceType := 0)
    case Finishing => s.(take := Ended(s.take.(at := s.now)))
  }

  // ---------- the worker's look ----------

  /** What a look finds: in the ears, connected, the default output plays into them, it is speakers; the held output
      is still there; the silent output comes up and can be made the default. */
  datatype View = View(worn: bool, connected: bool, intoThem: bool, speakers: bool, heldExists: bool, comesUp: bool,
      settable: bool)

  predicate PlaysHere(s: State, v: View) { s.own.owns && v.intoThem }

  predicate OtherHasThem(s: State, v: View) { !s.own.owns || !v.connected }

  /** Worn again after a connection in the case: routed by a takeover. */
  function Woken(s: State, v: View): State {
    var route := v.worn && v.connected && s.own.owns && !s.take.busy && s.routeWhenWorn;
    s.(hold := s.hold.(blocked := v.worn && s.hold.blocked),
       routeWhenWorn := s.routeWhenWorn && !route,
       take := if route then Begun(s.take, true) else s.take)
  }

  /** An "owns connection 0" put aside is due. */
  predicate Due(s: State) {
    s.own.owns && s.own.claimed && !s.take.busy && s.own.report == 0 && s.now - s.take.at >= GRACE
  }

  function Answered(s: State, playsHere: bool): State {
    if !Due(s) then s
    else if playsHere && !s.own.reclaimed then
      s.(own := Claim(s.own.(reclaimed := true)), sent := s.sent + ClaimMessages(s.devices))
    else Released(s.(own := s.own.(report := -1)), false)
  }

  function HoldEnded(h: Hold, heldExists: bool): Hold {
    h.(defaultSink := if h.defaultSink == HOLD_SINK && heldExists then h.heldOutput else h.defaultSink,
       silentSink := false, holding := false)
  }

  function HoldNext(h: Hold, mode: int, busy: bool, v: View, playsHere: bool, otherHasThem: bool): Hold {
    if h.holding then
      if busy then h
      else
        var h' := h.(blocked := h.blocked || (h.defaultSink != HOLD_SINK && !playsHere));
        if mode == 0 && v.worn && otherHasThem && !h'.blocked && !playsHere then h' else HoldEnded(h', v.heldExists)
    else if mode != 0 || !v.worn || !otherHasThem || h.blocked || playsHere
            || h.defaultSink == NO_SINK || !v.speakers || busy then h
    else if v.comesUp && v.settable then
      h.(silentSink := true, heldOutput := h.defaultSink, defaultSink := HOLD_SINK, holding := true)
    else h.(silentSink := false, blocked := true)
  }

  function Looked(s: State, v: View): State {
    var s1 := Woken(s, v);
    var s2 := Answered(s1, PlaysHere(s1, v));
    s2.(hold := HoldNext(s2.hold, s2.mode, s2.take.busy, v, PlaysHere(s1, v), OtherHasThem(s1, v)))
  }

  // ---------- the machine ----------

  datatype Action =
    | Receive(packet: Packet)
    | Reset
    | Playback                       // something starts to play here
    | MoveHere                       // the user asks for them
    | TakeOverMoves(outside: Outside)
    | CardInCase                     // their card came up while they lie in the case
    | SetMode(mode: int)
    | UserPicks(sink: Sink)
    | Tick(ms: nat)
    | Look(view: View)
    | WorkerExits(view: View)

  predicate Enabled(s: State, a: Action) {
    match a
    case TakeOverMoves(_) => s.take.phase != Idle
    case Look(_) => !s.exited
    case WorkerExits(_) => !s.exited
    case SetMode(mode) => mode == 0 || mode == 1
    case _ => true
  }

  function Blocked(s: State): State { s.(hold := s.hold.(blocked := true)) }

  function Apply(s: State, a: Action): State {
    match a
    case Receive(p) => Received(s, p)
    case Reset => AfterReset(s)
    case Playback => s.(take := Begun(s.take, false))
    case MoveHere => s.(take := Begun(s.take, true))
    case TakeOverMoves(o) => TakeOverStep(s, o)
    case CardInCase => if s.own.owns && !s.take.busy then s.(routeWhenWorn := true) else s
    case SetMode(mode) => s.(mode := mode)
    case UserPicks(sink) => s.(hold := s.hold.(defaultSink := sink))
    case Tick(ms) => s.(now := s.now + ms)
    case Look(v) => Looked(s, v)
    case WorkerExits(v) => Looked(Blocked(s), v).(exited := true)
  }

  predicate Start(s: State) {
    && s.own == Ownership(true, false, false, false, -1)
    && s.take == Takeover(false, Idle, 0)
    && s.sent == [] && s.devices.connected == [] && s.devices.talking == []
    && !s.hold.holding && !s.hold.silentSink && !s.hold.blocked && !s.routeWhenWorn && !s.exited
  }

  ghost predicate Run(states: seq<State>, actions: seq<Action>) {
    && |states| == |actions| + 1
    && Start(states[0])
    && forall k | 0 <= k < |actions| :: Enabled(states[k], actions[k]) && states[k + 1] == Apply(states[k], actions[k])
  }

  // ---------- ownership over every run ----------

  ghost predicate OwnOk(o: Ownership, t: Takeover) {
    && (o.released <==> !o.owns)
    && (o.claimed ==> o.owns || t.phase == Owning)
    && (t.busy <==> t.phase != Idle)
  }

  ghost predicate HoldOk(h: Hold) { h.silentSink <==> h.holding }

  ghost predicate Inv(s: State) { OwnOk(s.own, s.take) && HoldOk(s.hold) }

  lemma HoldNextOk(h: Hold, mode: int, busy: bool, v: View, playsHere: bool, otherHasThem: bool)
    requires HoldOk(h)
    ensures HoldOk(HoldNext(h, mode, busy, v, playsHere, otherHasThem))
  {
  }

  lemma ReceivedKeepsInv(s: State, p: Packet)
    requires Inv(s)
    ensures Inv(Received(s, p))
  {
    hide Talked, Introducing, Added, InGrace;
    match p
    case OwnsReport(owns) =>
    case AudioSource(from, kind) =>
    case DeviceList(devices) =>
    case Relayed(from, setsOwnershipToFalse) =>
    case Other =>
  }

  lemma TakeOverKeepsInv(s: State, o: Outside)
    requires Inv(s)
    ensures Inv(TakeOverStep(s, o))
  {
    hide ClaimMessages;
    match s.take.phase
    case Idle =>
    case Deciding(manual) =>
    case Connecting =>
    case Ready =>
    case Claiming =>
    case Owning =>
    case Finishing =>
  }

  lemma LookedKeepsInv(s: State, v: View)
    requires Inv(s)
    ensures Inv(Looked(s, v))
  {
    hide ClaimMessages, HoldNext;
    var s1 := Woken(s, v);
    var s2 := Answered(s1, PlaysHere(s1, v));
    HoldNextOk(s2.hold, s2.mode, s2.take.busy, v, PlaysHere(s1, v), OtherHasThem(s1, v));
  }

  lemma StepKeepsInv(s: State, a: Action)
    requires Inv(s)
    ensures Inv(Apply(s, a))
  {
    hide Received, TakeOverStep, Looked;
    match a
    case Receive(p) => ReceivedKeepsInv(s, p);
    case Reset =>
    case Playback =>
    case MoveHere =>
    case TakeOverMoves(o) => TakeOverKeepsInv(s, o);
    case CardInCase =>
    case SetMode(mode) =>
    case UserPicks(sink) =>
    case Tick(ms) =>
    case Look(v) => LookedKeepsInv(s, v);
    case WorkerExits(v) => LookedKeepsInv(Blocked(s), v);
  }

  /** In every run: `released` is the negation of owning, a claim is held only while owning or taking over,
      and the silent output exists exactly while a hold is on. */
  lemma {:induction false} RunKeepsInv(states: seq<State>, actions: seq<Action>, n: nat)
    requires Run(states, actions) && n < |states|
    ensures Inv(states[n])
    decreases n
  {
    hide Inv, Apply, Enabled;
    if n == 0 {
      StartIsOk(states[0]);
    } else {
      RunKeepsInv(states, actions, n - 1);
      StepKeepsInv(states[n - 1], actions[n - 1]);
    }
  }

  lemma StartIsOk(s: State)
    requires Start(s)
    ensures Inv(s)
  {
  }

  // ---------- who is asked ----------

  ghost predicate Distinct(macs: seq<Mac>) {
    forall i, j | 0 <= i < j < |macs| :: macs[i] != macs[j]
  }

  lemma {:induction false} GatheredIsExact(macs: seq<Mac>, localMac: Mac, others: seq<Mac>, m: Mac)
    requires Distinct(others)
    ensures Distinct(Gathered(macs, localMac, others))
    ensures m in Gathered(macs, localMac, others) <==> m in others || (m in macs && m != localMac)
    decreases |macs|
  {
    if macs != [] {
      var next := if macs[0] != localMac && macs[0] !in others then others + [macs[0]] else others;
      assert Distinct(next);
      hide Distinct;
      GatheredIsExact(macs[1..], localMac, next, m);
      assert m in macs <==> m == macs[0] || m in macs[1..] by {
        assert macs == [macs[0]] + macs[1..];
      }
    }
  }

  function Count(messages: seq<Message>, m: Message): nat {
    multiset(messages)[m]
  }

  lemma CountConcat(a: seq<Message>, b: seq<Message>, m: Message)
    ensures Count(a + b, m) == Count(a, m) + Count(b, m)
  {
  }

  predicate AsksOnly(m: Message) { m.HijackRequest? || m.MediaInformation? || m.ShowNearbyUI? }

  lemma CountAsks(m: Message, other: Mac)
    requires AsksOnly(m)
    ensures Count(Asks(other), m) == if m.to == other then 1 else 0
  {
    var a, b, c := MediaInformation(other), ShowNearbyUI(other), HijackRequest(other);
    assert Asks(other) == [a] + [b] + [c];
  }

  lemma {:induction false} AskingCounts(others: seq<Mac>, m: Message)
    requires Distinct(others) && AsksOnly(m)
    ensures Count(Asking(others), m) == if m.to in others then 1 else 0
    decreases |others|
  {
    hide Asks, Count;
    if others == [] {
      assert Count([], m) == 0 by { NoMessages(m); }
    } else {
      var n := |others| - 1;
      AskingCounts(others[..n], m);
      CountAsks(m, others[n]);
      CountConcat(Asking(others[..n]), Asks(others[n]), m);
      assert others == others[..n] + [others[n]];
    }
  }

  lemma NoMessages(m: Message)
    ensures Count([], m) == 0
  {
  }

  /** A claim asks every listed or talking device except this computer, each exactly once, and no one else. */
  lemma ClaimAsksEachOnce(d: Devices, m: Message)
    requires AsksOnly(m)
    ensures Count(ClaimMessages(d), m) == if m.to != d.localMac && (m.to in d.connected || m.to in d.talking) then 1 else 0
  {
    var listed := Gathered(d.connected, d.localMac, []);
    GatheredIsExact(d.connected, d.localMac, [], m.to);
    GatheredIsExact(d.talking, d.localMac, listed, m.to);
    hide Distinct, Gathered;
    AskingCounts(Others(d), m);
    CountConcat([OwnsConnection(true)], Asking(Others(d)), m);
  }

  // ---------- at most one more claim ----------

  predicate IsLook(a: Action) { a.Look? || a.WorkerExits? }

  /** The state a look of the worker starts from. */
  function AtLook(s: State, a: Action): State
    requires IsLook(a)
  {
    if a.Look? then s else Blocked(s)
  }

  /** The look claims them once more. */
  predicate Reclaims(s: State, a: Action) {
    && IsLook(a)
    && var s1 := Woken(AtLook(s, a), a.view);
       Due(s1) && PlaysHere(s1, a.view) && !s1.own.reclaimed
  }

  /** The takeover, or a new connection, lets this computer claim once more again. */
  predicate Rearms(s: State, a: Action) {
    a.Reset? || (a.TakeOverMoves? && s.take.phase == Ready)
  }

  function Reclaimings(states: seq<State>, actions: seq<Action>, i: nat, j: nat): nat
    requires i <= j <= |actions| <= |states|
  {
    if i == j then 0 else Reclaimings(states, actions, i, j - 1) + if Reclaims(states[j - 1], actions[j - 1]) then 1 else 0
  }

  lemma ReclaimIsRemembered(s: State, a: Action)
    requires !Rearms(s, a)
    ensures Reclaims(s, a) ==> !s.own.reclaimed
    ensures Apply(s, a).own.reclaimed <==> s.own.reclaimed || Reclaims(s, a)
  {
    hide Talked, Introducing, Added, InGrace, ClaimMessages, HoldNext;
    match a
    case Receive(p) =>
      match p {
        case OwnsReport(owns) =>
        case AudioSource(from, kind) =>
        case DeviceList(devices) =>
        case Relayed(from, setsOwnershipToFalse) =>
        case Other =>
      }
    case Reset =>
    case Playback =>
    case MoveHere =>
    case TakeOverMoves(o) =>
      match s.take.phase {
        case Idle =>
        case Deciding(manual) =>
        case Connecting =>
        case Ready =>
        case Claiming =>
        case Owning =>
        case Finishing =>
      }
    case CardInCase =>
    case SetMode(mode) =>
    case UserPicks(sink) =>
    case Tick(ms) =>
    case Look(v) =>
    case WorkerExits(v) =>
  }

  lemma {:induction false} ReclaimingsAreRemembered(states: seq<State>, actions: seq<Action>, i: nat, j: nat)
    requires Run(states, actions) && i <= j <= |actions|
    requires forall k | i <= k < j :: !Rearms(states[k], actions[k])
    ensures Reclaimings(states, actions, i, j) + (if states[i].own.reclaimed then 1 else 0)
        == if states[j].own.reclaimed then 1 else 0
    decreases j
  {
    hide Apply, Reclaims, Rearms, Enabled, Start;
    if i < j {
      ReclaimingsAreRemembered(states, actions, i, j - 1);
      ReclaimIsRemembered(states[j - 1], actions[j - 1]);
    }
  }

  /** Between two takeovers or reconnections, in every run, they are claimed once more at most once. */
  lemma AtMostOneReclaim(states: seq<State>, actions: seq<Action>, i: nat, j: nat)
    requires Run(states, actions) && i <= j <= |actions|
    requires forall k | i <= k < j :: !Rearms(states[k], actions[k])
    ensures Reclaimings(states, actions, i, j) <= 1
  {
    hide Rearms, Run;
    ReclaimingsAreRemembered(states, actions, i, j);
  }

  // ---------- a report put aside is answered ----------

  predicate StaysOpen(s: State, a: Action) { LeavesReport(s, a) && !Apply(s, a).own.released }

  /** Nothing settles the report: no other report, reconnection or claim, and no look that finds it due. */
  predicate LeavesReport(s: State, a: Action) {
    && !(a.Receive? && a.packet.OwnsReport?) && !a.Reset?
    && !(a.TakeOverMoves? && s.take.phase == Claiming)
    && (IsLook(a) ==> !Due(Woken(AtLook(s, a), a.view)))
  }

  predicate Parked(o: Ownership) {
    o.owns && o.claimed && o.report == 0
  }

  lemma StaysParked(s: State, a: Action)
    requires Parked(s.own) && LeavesReport(s, a)
    ensures Parked(Apply(s, a).own) || Apply(s, a).own.released
  {
    hide Talked, Introducing, Added, InGrace, ClaimMessages, HoldNext;
    match a
    case Receive(p) =>
      match p {
        case OwnsReport(owns) =>
        case AudioSource(from, kind) =>
        case DeviceList(devices) =>
        case Relayed(from, setsOwnershipToFalse) =>
        case Other =>
      }
    case Reset =>
    case Playback =>
    case MoveHere =>
    case TakeOverMoves(o) =>
      match s.take.phase {
        case Idle =>
        case Deciding(manual) =>
        case Connecting =>
        case Ready =>
        case Claiming =>
        case Owning =>
        case Finishing =>
      }
    case CardInCase =>
    case SetMode(mode) =>
    case UserPicks(sink) =>
    case Tick(ms) =>
    case Look(v) =>
    case WorkerExits(v) =>
  }

  /** How a due report was answered: a takeover is on its way, let go, or claimed once more. */
  predicate IsAnswered(s: State, t: State) {
    || t.take.busy
    || (t.own.released && !t.own.owns && !t.own.claimed && t.own.report == -1)
    || (t.own.owns && t.own.claimed && t.own.report == -1 && !s.own.reclaimed && t.own.reclaimed
        && t.sent == s.sent + ClaimMessages(s.devices))
  }

  lemma LookAnswers(s: State, v: View)
    requires Parked(s.own) && !s.take.busy && s.now - s.take.at >= GRACE
    ensures IsAnswered(s, Looked(s, v))
  {
    hide HoldNext, ClaimMessages;
  }

  /** In every run: an "owns connection 0" for a live claim was put aside in the grace, and if it is still the last
      word when the grace is over, the next look answers it: by one more claim, by letting go, or by a takeover. */
  lemma ParkedReportIsAnswered(states: seq<State>, actions: seq<Action>, i: nat, j: nat)
    requires Run(states, actions) && i < j < |actions|
    requires actions[i] == Receive(OwnsReport(false)) && states[i + 1].own.owns && states[i + 1].own.claimed
    requires forall k | i < k < j :: StaysOpen(states[k], actions[k])
    requires IsLook(actions[j]) && !states[j].take.busy && states[j].now - states[j].take.at >= GRACE
    ensures InGrace(states[i]) && IsAnswered(AtLook(states[j], actions[j]), states[j + 1])
  {
    ParkedUntil(states, actions, i, j);
    hide Looked, LeavesReport, Start;
    LookAnswers(AtLook(states[j], actions[j]), actions[j].view);
  }

  lemma {:induction false} ParkedUntil(states: seq<State>, actions: seq<Action>, i: nat, j: nat)
    requires Run(states, actions) && i < j < |states|
    requires actions[i] == Receive(OwnsReport(false)) && states[i + 1].own.owns && states[i + 1].own.claimed
    requires forall k | i < k < j :: StaysOpen(states[k], actions[k])
    ensures Parked(states[j].own) && InGrace(states[i])
    decreases j
  {
    hide LeavesReport, Looked, TakeOverStep, InGrace, Start;
    if i + 1 < j {
      hide Apply, Received, Enabled;
      ParkedUntil(states, actions, i, j - 1);
      StaysParked(states[j - 1], actions[j - 1]);
    } else {
      assert states[j] == Received(states[i], OwnsReport(false));
    }
  }

  // ---------- the hold ----------

  /** Nothing but a look touches the hold; the user's picks change the default output. */
  lemma OnlyLooksHold(s: State, a: Action)
    requires !IsLook(a)
    ensures var h, h' := s.hold, Apply(s, a).hold;
            h'.holding == h.holding && h'.heldOutput == h.heldOutput && (h.blocked ==> h'.blocked)
  {
    hide Talked, Introducing, Added, InGrace, ClaimMessages, LetGo;
    match a
    case Receive(p) =>
      match p {
        case OwnsReport(owns) =>
        case AudioSource(from, kind) =>
        case DeviceList(devices) =>
        case Relayed(from, setsOwnershipToFalse) =>
        case Other =>
      }
    case Reset =>
    case Playback =>
    case MoveHere =>
    case TakeOverMoves(o) =>
      match s.take.phase {
        case Idle =>
        case Deciding(manual) =>
        case Connecting =>
        case Ready =>
        case Claiming =>
        case Owning =>
        case Finishing =>
      }
    case CardInCase =>
    case SetMode(mode) =>
    case UserPicks(sink) =>
    case Tick(ms) =>
  }

  /** What a look does to the hold. */
  ghost predicate HoldStep(h: Hold, h': Hold, v: View) {
    && (h.holding && h'.holding ==> h'.heldOutput == h.heldOutput && h'.defaultSink == h.defaultSink)
    && (!h.holding && h'.holding ==> h'.heldOutput == h.defaultSink && h'.defaultSink == HOLD_SINK && v.worn && !h.blocked)
    && (h.holding && !h'.holding ==>
          h'.defaultSink == if h.defaultSink == HOLD_SINK && v.heldExists then h.heldOutput else h.defaultSink)
    && (!h.holding && !h'.holding ==> h'.defaultSink == h.defaultSink)
    && (h.blocked && v.worn ==> h'.blocked)
  }

  lemma LookHolds(s: State, v: View)
    ensures HoldStep(s.hold, Looked(s, v).hold, v)
  {
    hide ClaimMessages;
    var s1 := Woken(s, v);
    var s2 := Answered(s1, PlaysHere(s1, v));
    assert s2.hold == s1.hold;
    NextHolds(s1.hold, s2.mode, s2.take.busy, v, PlaysHere(s1, v), OtherHasThem(s1, v));
    hide HoldNext;
  }

  lemma NextHolds(h: Hold, mode: int, busy: bool, v: View, playsHere: bool, otherHasThem: bool)
    ensures HoldStep(h, HoldNext(h, mode, busy, v, playsHere, otherHasThem), v)
  {
  }

  predicate StartsHold(s: State, a: Action) { IsLook(a) && !s.hold.holding && Apply(s, a).hold.holding }

  predicate EndsHold(s: State, a: Action) { IsLook(a) && s.hold.holding && !Apply(s, a).hold.holding }

  lemma StepHolds(s: State, a: Action)
    ensures var h, h' := s.hold, Apply(s, a).hold;
            && (h.holding && h'.holding ==> h'.heldOutput == h.heldOutput)
            && (!h.holding && h'.holding ==> StartsHold(s, a) && h'.heldOutput == h.defaultSink && !h.blocked)
            && (h.holding && !h'.holding ==>
                EndsHold(s, a)
                && h'.defaultSink ==
                   if h.defaultSink == HOLD_SINK && a.view.heldExists then h.heldOutput else h.defaultSink)
            && (h.blocked && (IsLook(a) ==> a.view.worn) ==> h'.blocked)
  {
    hide Looked;
    if IsLook(a) {
      LookHolds(AtLook(s, a), a.view);
    } else {
      hide Apply;
      OnlyLooksHold(s, a);
    }
  }

  lemma {:induction false} HeldOutputStays(states: seq<State>, actions: seq<Action>, i: nat, j: nat)
    requires Run(states, actions) && i < j < |states| && StartsHold(states[i], actions[i])
    requires forall k | i < k < j :: !EndsHold(states[k], actions[k])
    ensures states[j].hold.holding && states[j].hold.heldOutput == states[i].hold.defaultSink
    decreases j
  {
    hide Apply, Enabled, Start;
    StepHolds(states[j - 1], actions[j - 1]);
    if i + 1 < j {
      HeldOutputStays(states, actions, i, j - 1);
    }
  }

  /** A hold that ends gives back the output that was the default when it began, if that still exists and the silent
      output is still the default; another pick is left alone. */
  lemma HoldGivesBack(states: seq<State>, actions: seq<Action>, i: nat, j: nat)
    requires Run(states, actions) && i < j < |actions|
    requires StartsHold(states[i], actions[i]) && EndsHold(states[j], actions[j])
    requires forall k | i < k < j :: !EndsHold(states[k], actions[k])
    ensures states[j + 1].hold.defaultSink ==
            if states[j].hold.defaultSink == HOLD_SINK && actions[j].view.heldExists then states[i].hold.defaultSink
            else states[j].hold.defaultSink
  {
    hide Apply, Enabled, Start;
    HeldOutputStays(states, actions, i, j);
    StepHolds(states[j], actions[j]);
  }

  /** A look, with no takeover under way, that finds the user picked another output during a hold. */
  predicate SeesPick(s: State, a: Action) {
    && IsLook(a) && s.hold.holding
    && var s1 := Woken(AtLook(s, a), a.view);
       !s1.take.busy && s1.hold.defaultSink != HOLD_SINK && !PlaysHere(s1, a.view)
  }

  lemma PickBlocks(s: State, a: Action)
    requires SeesPick(s, a)
    ensures Apply(s, a).hold.blocked && !Apply(s, a).hold.holding && Apply(s, a).hold.defaultSink == s.hold.defaultSink
  {
    hide ClaimMessages;
  }

  /** After the user's pick was seen, no hold starts before a look has seen them not worn. */
  lemma {:induction false} PickIsRespected(states: seq<State>, actions: seq<Action>, i: nat, j: nat)
    requires Run(states, actions) && i < j < |actions| && SeesPick(states[i], actions[i])
    requires forall k | i < k < j && IsLook(actions[k]) :: actions[k].view.worn
    ensures states[j].hold.blocked && !states[j].hold.holding && !StartsHold(states[j], actions[j])
    decreases j
  {
    hide Apply, SeesPick, Enabled, Start;
    if i + 1 < j {
      PickIsRespected(states, actions, i, j - 1);
      StepHolds(states[j - 1], actions[j - 1]);
    } else {
      PickBlocks(states[i], actions[i]);
    }
    StepHolds(states[j], actions[j]);
  }

  lemma ExitEndsHold(s: State, v: View)
    requires s.hold.blocked
    ensures Looked(s, v).take.busy || !Looked(s, v).hold.holding
  {
    hide ClaimMessages;
  }

  /** The worker gone with the device leaves no hold, unless a takeover is under way. */
  lemma ExitLeavesNoHold(states: seq<State>, actions: seq<Action>, n: nat)
    requires Run(states, actions) && n < |actions| && actions[n].WorkerExits?
    ensures states[n + 1].take.busy || (!states[n + 1].hold.holding && !states[n + 1].hold.silentSink)
  {
    hide Looked, Start;
    RunKeepsInv(states, actions, n + 1);
    ExitEndsHold(Blocked(states[n]), actions[n].view);
  }
}
