/** The worker that opens and closes a device's control channel: connection reports, closures by the headphones and
    disconnect requests only leave requests behind, the worker carries them out. */
module DeviceWorker {

  const MAX_RESTARTS := 5

  /** The client's channel: closed, open, or closed from the other side and not yet cleaned up. */
  datatype Channel = Down | Up | Ended

  datatype WorkerPc =
    | Waiting      // for a request
    | Stopping     // inside the client's Stop
    | Delaying     // the moment before a reopening; the lock is free meanwhile
    | Checking     // about to look whether the device is connected
    | Opening      // inside the client's Start, connecting
    | Greeting     // connected, sends the first packets; the headphones may close again already
    | Exited

  datatype State = State(
    connected: bool,
    restarts: nat,
    startRequested: bool,
    startDelayed: bool,
    stopRequested: bool,
    exit: bool,
    pc: WorkerPc,
    channel: Channel,
    // history
    accepted: nat,       // closures answered by a reopening since the last connected report
    disconnecting: bool  // a disconnect was requested and no connected report came since
  )

  const Start0 := State(false, 0, false, false, false, false, Waiting, Down, 0, false)

  datatype Action =
    | Report(connected: bool)
    | ChannelClosed                  // by the headphones: the closed event's handler
    | RequestDisconnect
    | Exit
    | TakeRequest                    // the worker wakes up
    | StopDone
    | DelayOver
    | LookConnected
    | OpenDone(ok: bool)
    | GreetingDone

  predicate Enabled(s: State, a: Action) {
    match a
    case Report(_) => true
    case ChannelClosed => s.channel == Up
    case RequestDisconnect => true
    case Exit => true
    case TakeRequest => s.pc == Waiting && (s.startRequested || s.stopRequested || s.exit)
    case StopDone => s.pc == Stopping
    case DelayOver => s.pc == Delaying
    case LookConnected => s.pc == Checking
    case OpenDone(_) => s.pc == Opening
    case GreetingDone => s.pc == Greeting
  }

  // ---------- the handlers, under the worker's lock ----------

  function Reported(s: State, connected: bool): State {
    var s' := s.(connected := connected);
    if connected then s'.(restarts := 0, startRequested := true, startDelayed := false, accepted := 0,
        disconnecting := false)
    else s'.(stopRequested := true)
  }

  function Closed(s: State): State {
    if s.restarts > MAX_RESTARTS then s
    else if s.restarts + 1 > MAX_RESTARTS then s.(restarts := s.restarts + 1)
    else s.(restarts := s.restarts + 1, startRequested := true, startDelayed := true, accepted := s.accepted + 1)
  }

  function DisconnectRequested(s: State): State {
    s.(restarts := MAX_RESTARTS + 1, startRequested := false, stopRequested := true, disconnecting := true)
  }

  function Apply(s: State, a: Action): State
    requires Enabled(s, a)
  {
    match a
    case Report(connected) => Reported(s, connected)
    case ChannelClosed => Closed(s.(channel := Ended))
    case RequestDisconnect => DisconnectRequested(s)
    case Exit => s.(exit := true)
    case TakeRequest =>
      if s.exit then s.(pc := Exited)
      else if s.stopRequested then s.(stopRequested := false, pc := Stopping)
      else s.(startDelayed := false, startRequested := false, pc := if s.startDelayed then Delaying else Checking)
    case StopDone => s.(channel := Down, pc := Waiting)
    case DelayOver => s.(pc := if s.exit then Exited else Checking)
    case LookConnected => s.(pc := if s.connected then Opening else Waiting)
    case OpenDone(ok) =>
      if s.channel == Up then s.(pc := Waiting)
      else if ok then s.(channel := Up, pc := Greeting)
      else s.(channel := Down, pc := Waiting)
    case GreetingDone => s.(pc := Waiting)
  }

  /** The fields a device's handlers change, as they change them. */
  class Device {
    var connected: bool
    var restarts: nat
    var startRequested: bool
    var startDelayed: bool
    var stopRequested: bool
    ghost var exit: bool
    ghost var pc: WorkerPc
    ghost var channel: Channel
    ghost var accepted: nat
    ghost var disconnecting: bool

    ghost function Snapshot(): State
      reads this
    {
      State(connected, restarts, startRequested, startDelayed, stopRequested, exit, pc, channel, accepted, disconnecting)
    }

    constructor ()
      ensures Snapshot() == Start0
    {
      connected, restarts, startRequested, startDelayed, stopRequested := false, 0, false, false, false;
      exit, pc, channel, accepted, disconnecting := false, Waiting, Down, 0, false;
    }

    method OnConnectionReport(newConnected: bool)
      modifies this
      ensures Snapshot() == Reported(old(Snapshot()), newConnected)
    {
      if connected != newConnected {
        connected := newConnected;
      }
      if connected {
        RequestClientStart(false);
        accepted, disconnecting := 0, false;
      } else {
        stopRequested := true;
      }
    }

    method RequestClientStart(delayed: bool)
      modifies this
      ensures Snapshot() == old(Snapshot()).(restarts := if delayed then old(restarts) else 0, startRequested := true,
          startDelayed := delayed)
    {
      if !delayed {
        restarts := 0;
      }
      startRequested := true;
      startDelayed := delayed;
    }

    method OnChannelClosed()
      modifies this
      ensures Snapshot() == Closed(old(Snapshot()))
    {
      if restarts > MAX_RESTARTS {
        return;
      }
      restarts := restarts + 1;
      if restarts > MAX_RESTARTS {
        return;
      }
      startRequested := true;
      startDelayed := true;
      accepted := accepted + 1;
    }

    method RequestClientStopForDisconnect()
      modifies this
      ensures Snapshot() == DisconnectRequested(old(Snapshot()))
    {
      restarts := MAX_RESTARTS + 1;
      startRequested := false;
      stopRequested := true;
      disconnecting := true;
    }
  }

  // ---------- every run ----------

  ghost predicate Run(states: seq<State>, actions: seq<Action>) {
    && |states| == |actions| + 1
    && states[0] == Start0
    && forall k | 0 <= k < |actions| :: Enabled(states[k], actions[k]) && states[k + 1] == Apply(states[k], actions[k])
  }

  ghost predicate Inv(s: State) {
    && s.accepted <= s.restarts <= MAX_RESTARTS + 1 && s.accepted <= MAX_RESTARTS
    && (s.disconnecting ==> s.restarts == MAX_RESTARTS + 1 && !s.startRequested)
    // a requested disconnect: the stop is still to come, runs, or is done
    && (s.disconnecting && !s.stopRequested ==>
          s.pc == Stopping || s.pc == Exited || (s.pc == Waiting && s.channel == Down))
  }

  lemma StepKeepsInv(s: State, a: Action)
    requires Inv(s) && Enabled(s, a)
    ensures Inv(Apply(s, a))
  {
  }

  lemma {:induction false} RunKeepsInv(states: seq<State>, actions: seq<Action>, n: nat)
    requires Run(states, actions) && n < |states|
    ensures Inv(states[n])
    decreases n
  {
    if n > 0 {
      RunKeepsInv(states, actions, n - 1);
      StepKeepsInv(states[n - 1], actions[n - 1]);
    }
  }

  /** How many closures of `actions[i..j]` are answered by a reopening. */
  function Reopenings(states: seq<State>, actions: seq<Action>, i: nat, j: nat): nat
    requires i <= j <= |actions| <= |states|
  {
    if i == j then 0
    else Reopenings(states, actions, i, j - 1)
         + if actions[j - 1].ChannelClosed? && states[j - 1].restarts < MAX_RESTARTS then 1 else 0
  }

  lemma {:induction false} ReopeningsAreCounted(states: seq<State>, actions: seq<Action>, i: nat, j: nat)
    requires Run(states, actions) && i <= j <= |actions|
    requires forall k | i <= k < j :: actions[k] != Report(true)
    ensures Reopenings(states, actions, i, j) + states[i].accepted == states[j].accepted
    decreases j
  {
    hide Apply, Enabled;
    if i < j {
      ReopeningsAreCounted(states, actions, i, j - 1);
      StepCounts(states[j - 1], actions[j - 1]);
    }
  }

  lemma StepCounts(s: State, a: Action)
    requires Enabled(s, a) && !(a.Report? && a.connected)
    ensures Apply(s, a).accepted == s.accepted + if a.ChannelClosed? && s.restarts < MAX_RESTARTS then 1 else 0
  {
    match a
    case ChannelClosed => assert Apply(s, a) == Closed(s.(channel := Ended));
    case Report(_) => assert Apply(s, a) == Reported(s, false);
    case RequestDisconnect =>
    case Exit =>
    case TakeRequest =>
    case StopDone =>
    case DelayOver =>
    case LookConnected =>
    case OpenDone(ok) =>
    case GreetingDone =>
  }

  /** Between two connected reports, in every run, at most five closures of the channel are answered by a reopening. */
  lemma AtMostFiveReopenings(states: seq<State>, actions: seq<Action>, i: nat, j: nat)
    requires Run(states, actions) && i <= j <= |actions|
    requires forall k | i <= k < j :: actions[k] != Report(true)
    ensures Reopenings(states, actions, i, j) <= MAX_RESTARTS
  {
    ReopeningsAreCounted(states, actions, i, j);
    RunKeepsInv(states, actions, j);
  }

  /** A stop pending while the worker waits is what the worker does next, whatever start is pending with it. */
  lemma {:induction false} StopRunsFirst(states: seq<State>, actions: seq<Action>, i: nat, j: nat)
    requires Run(states, actions) && i <= j < |actions|
    requires states[i].stopRequested && states[i].pc == Waiting
    requires forall k | i <= k < j :: actions[k] != TakeRequest
    ensures states[j].stopRequested && states[j].pc == Waiting
    ensures actions[j] == TakeRequest && !states[j].exit ==> states[j + 1].pc == Stopping
    decreases j
  {
    if i < j {
      StopRunsFirst(states, actions, i, j - 1);
    }
  }

  /** From a requested disconnect on, until the next connected report: whenever the worker idles with nothing
      requested the channel is closed, also when the request came during the delay of a reopening or a running start. */
  lemma DisconnectKeepsChannelClosed(states: seq<State>, actions: seq<Action>, i: nat, j: nat)
    requires Run(states, actions) && i < j < |states| && actions[i] == RequestDisconnect
    requires forall k | i < k < j :: actions[k] != Report(true)
    ensures states[j].pc == Waiting && !states[j].stopRequested ==> states[j].channel == Down && !states[j].startRequested
  {
    StaysDisconnecting(states, actions, i, j);
    RunKeepsInv(states, actions, j);
  }

  lemma {:induction false} StaysDisconnecting(states: seq<State>, actions: seq<Action>, i: nat, j: nat)
    requires Run(states, actions) && i < j < |states| && actions[i] == RequestDisconnect
    requires forall k | i < k < j :: actions[k] != Report(true)
    ensures states[j].disconnecting
    decreases j
  {
    if i + 1 < j {
      StaysDisconnecting(states, actions, i, j - 1);
    }
  }

  // ---------- what is asked for is done ----------

  predicate Idle(s: State) { s.pc == Waiting && !s.startRequested && !s.stopRequested }

  ghost predicate ReachesBetween(states: seq<State>, i: nat, j: nat, pc: WorkerPc) {
    exists k: nat :: i < k <= j && k < |states| && states[k].pc == pc
  }

  /** A pending start is not forgotten: it still waits, or the worker is at it, or the channel was being opened since. */
  lemma {:induction false} StartIsServed(states: seq<State>, actions: seq<Action>, i: nat, j: nat)
    requires Run(states, actions) && i < j < |states| && states[i + 1].startRequested
    requires forall k | i < k < j :: actions[k] != RequestDisconnect && actions[k] != Report(false) && actions[k] != Exit
    requires states[i + 1].connected && !states[i + 1].exit
    ensures states[j].connected && !states[j].exit
    ensures states[j].startRequested || states[j].pc == Delaying || states[j].pc == Checking || ReachesBetween(states, i, j, Opening)
    decreases j
  {
    hide *;
    RunStep(states, actions, j - 1);
    if i + 1 < j {
      StartIsServed(states, actions, i, j - 1);
      StepServes(states[j - 1], actions[j - 1]);
      ReachedLater(states, i, j, Opening);
    }
  }

  lemma RunStep(states: seq<State>, actions: seq<Action>, k: nat)
    requires Run(states, actions) && k + 1 < |states|
    ensures |states| == |actions| + 1 && Enabled(states[k], actions[k]) && states[k + 1] == Apply(states[k], actions[k])
  {
    hide Apply, Enabled;
  }

  lemma RunStart(states: seq<State>, actions: seq<Action>)
    requires Run(states, actions)
    ensures |states| == |actions| + 1 && states[0] == Start0
  {
    hide Apply, Enabled;
  }

  lemma ReachedLater(states: seq<State>, i: nat, j: nat, pc: WorkerPc)
    requires i < j < |states|
    ensures ReachesBetween(states, i, j, pc) <==> ReachesBetween(states, i, j - 1, pc) || states[j].pc == pc
  {
    if states[j].pc == pc {
      assert i < j && states[j].pc == pc;
    }
  }

  lemma StepServes(s: State, a: Action)
    requires Enabled(s, a) && s.connected && !s.exit && a != RequestDisconnect && a != Report(false) && a != Exit
    ensures Apply(s, a).connected && !Apply(s, a).exit
    ensures s.startRequested || s.pc == Delaying || s.pc == Checking ==>
              var t := Apply(s, a); t.startRequested || t.pc == Delaying || t.pc == Checking || t.pc == Opening
  {
    match a
    case Report(connected) => assert connected;
    case ChannelClosed => case RequestDisconnect => case Exit => case TakeRequest => case StopDone => case DelayOver =>
    case LookConnected => case OpenDone(_) => case GreetingDone =>
  }

  /** In every run: after a connected report, unless the headphones disconnect again or are asked to, the worker does not
      idle before it has opened the channel, or tried to, anew. */
  lemma ConnectedReportOpens(states: seq<State>, actions: seq<Action>, i: nat, j: nat)
    requires Run(states, actions) && i < j < |states| && actions[i] == Report(true) && !states[i].exit
    requires forall k | i < k < j :: actions[k] != RequestDisconnect && actions[k] != Report(false) && actions[k] != Exit
    requires Idle(states[j])
    ensures ReachesBetween(states, i, j, Opening)
  {
    assert states[i + 1] == Reported(states[i], true);
    hide Run;
    StartIsServed(states, actions, i, j);
  }

  /** While nobody asked for a disconnect, the count of reopenings is that of the closures answered, until it gives up. */
  ghost predicate Counts(s: State) {
    !s.disconnecting ==> s.restarts == s.accepted || (s.restarts == MAX_RESTARTS + 1 && s.accepted == MAX_RESTARTS)
  }

  lemma {:induction false} RunCounts(states: seq<State>, actions: seq<Action>, n: nat)
    requires Run(states, actions) && n < |states|
    ensures Counts(states[n])
    decreases n
  {
    hide *;
    RunStart(states, actions);
    if n == 0 {
      StartCounts();
    } else {
      RunStep(states, actions, n - 1);
      RunCounts(states, actions, n - 1);
      RunKeepsInv(states, actions, n - 1);
      InvBounds(states[n - 1]);
      StepKeepsCounts(states[n - 1], actions[n - 1]);
    }
  }

  lemma InvBounds(s: State)
    requires Inv(s)
    ensures s.accepted <= s.restarts <= MAX_RESTARTS + 1 && s.accepted <= MAX_RESTARTS
  {
  }

  lemma StartCounts()
    ensures Counts(Start0)
  {
  }

  lemma StepKeepsCounts(s: State, a: Action)
    requires s.accepted <= s.restarts <= MAX_RESTARTS + 1 && s.accepted <= MAX_RESTARTS && Counts(s) && Enabled(s, a)
    ensures Counts(Apply(s, a))
  {
    hide *;
    if a.Report? || a.ChannelClosed? || a.RequestDisconnect? {
      HandlersKeepCounts(s, a);
    } else {
      WorkerKeepsCounts(s, a);
    }
  }

  lemma HandlersKeepCounts(s: State, a: Action)
    requires s.accepted <= s.restarts <= MAX_RESTARTS + 1 && s.accepted <= MAX_RESTARTS && Counts(s) && Enabled(s, a)
    requires a.Report? || a.ChannelClosed? || a.RequestDisconnect?
    ensures Counts(Apply(s, a))
  {
    hide Enabled;
    if a.ChannelClosed? {
      var t := s.(channel := Ended);
      assert Apply(s, a) == Closed(t) && t.restarts == s.restarts && t.accepted == s.accepted && t.disconnecting == s.disconnecting;
    }
  }

  lemma WorkerKeepsCounts(s: State, a: Action)
    requires Enabled(s, a) && !a.Report? && !a.ChannelClosed? && !a.RequestDisconnect?
    ensures Counts(s) <==> Counts(Apply(s, a))
  {
    hide Enabled, Counts;
    assert Apply(s, a).restarts == s.restarts && Apply(s, a).accepted == s.accepted && Apply(s, a).disconnecting == s.disconnecting;
    CountsMean(s);
    CountsMean(Apply(s, a));
  }

  lemma CountsMean(s: State)
    ensures Counts(s) <==> s.disconnecting || s.restarts == s.accepted || (s.restarts == 6 && s.accepted == 5)
  {
  }

  /** In every run: a closure by the headphones is answered by a delayed reopening if and only if fewer than five were
      answered since the last connected report and no disconnect was asked for since. */
  lemma ClosureIsAnsweredIff(states: seq<State>, actions: seq<Action>, n: nat)
    requires Run(states, actions) && n < |actions| && actions[n] == ChannelClosed
    ensures var s, t := states[n], states[n + 1];
            && (t.accepted == s.accepted + 1 <==> s.accepted < 5 && !s.disconnecting)
            && (t.accepted == s.accepted + 1 ==> t.startRequested && t.startDelayed)
            && (t.accepted != s.accepted + 1 ==> t.startRequested == s.startRequested && t.accepted == s.accepted)
  {
    RunCounts(states, actions, n);
    RunKeepsInv(states, actions, n);
    assert states[n + 1] == Closed(states[n].(channel := Ended));
    hide Run;
  }

  /** And then the worker does not idle before it has opened the channel, or tried to, unless the headphones disconnect. */
  lemma ClosureReopens(states: seq<State>, actions: seq<Action>, i: nat, j: nat)
    requires Run(states, actions) && i < j < |states| && actions[i] == ChannelClosed
    requires states[i].accepted < 5 && !states[i].disconnecting && states[i].connected && !states[i].exit
    requires forall k | i < k < j :: actions[k] != RequestDisconnect && actions[k] != Report(false) && actions[k] != Exit
    requires Idle(states[j])
    ensures ReachesBetween(states, i, j, Opening)
  {
    ClosureIsAnsweredIff(states, actions, i);
    assert states[i + 1] == Closed(states[i].(channel := Ended));
    hide Run;
    StartIsServed(states, actions, i, j);
  }

  /** A pending stop is not forgotten: the worker does not wait without it before it has stopped the client. */
  lemma {:induction false} StopIsServed(states: seq<State>, actions: seq<Action>, i: nat, j: nat)
    requires Run(states, actions) && i < j < |states| && (actions[i] == Report(false) || actions[i] == RequestDisconnect)
    requires forall k | i < k < j :: actions[k] != Exit
    requires !states[i].exit
    ensures !states[j].exit && (states[j].stopRequested || ReachesBetween(states, i, j, Stopping))
    decreases j
  {
    hide *;
    RunStep(states, actions, j - 1);
    StepStops(states[j - 1], actions[j - 1]);
    if i + 1 < j {
      StopIsServed(states, actions, i, j - 1);
      ReachedLater(states, i, j, Stopping);
    }
  }

  lemma StepStops(s: State, a: Action)
    requires Enabled(s, a)
    ensures var t := Apply(s, a);
            && (a == Report(false) || a == RequestDisconnect ==> t.stopRequested)
            && (s.stopRequested && !s.exit ==> t.stopRequested || t.pc == Stopping)
            && (a != Exit ==> t.exit == s.exit)
  {
    match a
    case Report(_) => case ChannelClosed => case RequestDisconnect => case Exit => case TakeRequest => case StopDone =>
    case DelayOver => case LookConnected => case OpenDone(_) => case GreetingDone =>
  }

  // ---------- what the worker does with a request, left alone ----------

  /** The worker takes one request at a time: the exit before a stop, a stop before a start; the one it takes is gone, and
      a start waits first exactly if it is a delayed one. */
  lemma WorkerTakes(states: seq<State>, actions: seq<Action>, n: nat)
    requires Run(states, actions) && n < |actions| && actions[n] == TakeRequest
    ensures var s, t := states[n], states[n + 1];
            && (s.exit ==> t.pc == Exited)
            && (!s.exit && s.stopRequested ==> t == s.(pc := Stopping, stopRequested := false))
            && (!s.exit && !s.stopRequested ==>
                  t == s.(pc := if s.startDelayed then Delaying else Checking, startRequested := false, startDelayed := false))
  {
    RunStep(states, actions, n);
    hide Run;
  }

  /** A stop, left alone, leaves the channel closed and the worker waiting for the next request. */
  lemma StopCloses(s: State)
    requires s.pc == Waiting && s.stopRequested && !s.exit
    ensures var t := Apply(Apply(s, TakeRequest), StopDone);
            t == s.(stopRequested := false, channel := Down)
  {
  }

  function Checked(s: State): State
    requires s.pc == Waiting && s.startRequested && !s.stopRequested && !s.exit
  {
    var taken := Apply(s, TakeRequest);
    if taken.pc == Delaying then Apply(taken, DelayOver) else taken
  }

  /** A start, left alone, opens the channel of connected headphones, if it can be opened, and leaves an open one open; it
      leaves headphones that are not connected alone; the worker waits for the next request. */
  lemma StartOpens(s: State, ok: bool)
    requires s.pc == Waiting && s.startRequested && !s.stopRequested && !s.exit
    ensures Checked(s).pc == Checking
    ensures var looked := Apply(Checked(s), LookConnected);
            if !s.connected then looked == s.(startRequested := false, startDelayed := false)
            else
              && looked.pc == Opening
              && var tried := Apply(looked, OpenDone(ok));
                 var done := if tried.pc == Greeting then Apply(tried, GreetingDone) else tried;
                 done == s.(startRequested := false, startDelayed := false, channel := if s.channel == Up || ok then Up else Down)
                 && (tried.pc == Greeting <==> s.channel != Up && ok)
  {
  }

  /** After a connected report the start is not a delayed one, unless the headphones closed the channel since. */
  lemma {:induction false} ReportIsNotDelayed(states: seq<State>, actions: seq<Action>, i: nat, j: nat)
    requires Run(states, actions) && i < j < |states| && actions[i] == Report(true)
    requires forall k | i < k < j :: actions[k] != ChannelClosed
    ensures !states[j].startDelayed
    decreases j
  {
    hide *;
    RunStep(states, actions, j - 1);
    if i + 1 < j {
      ReportIsNotDelayed(states, actions, i, j - 1);
    }
    StepDelays(states[j - 1], actions[j - 1]);
  }

  lemma StepDelays(s: State, a: Action)
    requires Enabled(s, a)
    ensures a == Report(true) ==> !Apply(s, a).startDelayed
    ensures !s.startDelayed && a != ChannelClosed ==> !Apply(s, a).startDelayed
  {
    match a
    case Report(_) => case ChannelClosed => case RequestDisconnect => case Exit => case TakeRequest => case StopDone =>
    case DelayOver => case LookConnected => case OpenDone(_) => case GreetingDone =>
  }

  /** An exit is not forgotten: the worker never takes another request. */
  lemma {:induction false} ExitEndsWorker(states: seq<State>, actions: seq<Action>, i: nat, j: nat)
    requires Run(states, actions) && i < j < |states| && actions[i] == Exit
    ensures states[j].exit
    ensures j < |actions| && (actions[j] == TakeRequest || actions[j] == DelayOver) ==> states[j + 1].pc == Exited
    decreases j
  {
    hide *;
    RunStep(states, actions, j - 1);
    StepKeepsExit(states[j - 1], actions[j - 1]);
    if i + 1 < j {
      ExitEndsWorker(states, actions, i, j - 1);
    }
    if j < |actions| {
      RunStep(states, actions, j);
      StepKeepsExit(states[j], actions[j]);
    }
  }

  lemma StepKeepsExit(s: State, a: Action)
    requires Enabled(s, a)
    ensures s.exit || a == Exit ==> Apply(s, a).exit
    ensures s.exit && (a == TakeRequest || a == DelayOver) ==> Apply(s, a).pc == Exited
  {
    match a
    case Report(_) => case ChannelClosed => case RequestDisconnect => case Exit => case TakeRequest => case StopDone =>
    case DelayOver => case LookConnected => case OpenDone(_) => case GreetingDone =>
  }
}
