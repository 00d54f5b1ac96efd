/** The BLE discovery and the thread that pauses it now and then. `_scanMutex` keeps the wish to scan and the
    discovery session in step; the pause stops the session without it. D-Bus calls take effect in the order they
    are made and do not fail. */
module BleScan {

  /** Who holds `_scanMutex`, and where. */
  datatype Holder =
    | Nobody
    | StartSession     // StartScan: to start the session
    | StartWish        // StartScan: session started, to note the wish
    | StopWish         // StopScan: to drop the wish
    | StopSession      // StopScan: wish dropped, to stop the session
    | PauseLook        // the pause thread: to look whether the scan is still wished
    | PauseResume      // the pause thread: to resume the session

  /** The pause thread. */
  datatype PausePc =
    | Sleeping         // between pauses
    | Deciding         // saw the wish, to stop the session
    | Paused           // stopped it, waits
    | Resuming         // has the mutex, see `Holder`

  datatype State = State(desired: bool, session: bool, holder: Holder, pause: PausePc)

  const Start0 := State(false, false, Nobody, Sleeping)

  datatype Action =
    | EnterStart | SessionStarts | WishNoted
    | EnterStop | WishDropped | SessionStops
    | PauseWakes            // the pause's 15 seconds are over: looks at the wish without the mutex
    | PauseStops
    | PauseLocks            // its 1.5 seconds are over and the mutex is free
    | PauseLooks
    | PauseResumes

  predicate Enabled(s: State, a: Action) {
    match a
    case EnterStart => s.holder == Nobody
    case SessionStarts => s.holder == StartSession
    case WishNoted => s.holder == StartWish
    case EnterStop => s.holder == Nobody
    case WishDropped => s.holder == StopWish
    case SessionStops => s.holder == StopSession
    case PauseWakes => s.pause == Sleeping
    case PauseStops => s.pause == Deciding
    case PauseLocks => s.pause == Paused && s.holder == Nobody
    case PauseLooks => s.holder == PauseLook
    case PauseResumes => s.holder == PauseResume
  }

  function Apply(s: State, a: Action): State
    requires Enabled(s, a)
  {
    match a
    case EnterStart => s.(holder := StartSession)
    case SessionStarts => s.(session := true, holder := StartWish)
    case WishNoted => s.(desired := true, holder := Nobody)
    case EnterStop => s.(holder := StopWish)
    case WishDropped => s.(desired := false, holder := StopSession)
    case SessionStops => s.(session := false, holder := Nobody)
    case PauseWakes => if s.desired then s.(pause := Deciding) else s
    case PauseStops => s.(session := false, pause := Paused)
    case PauseLocks => s.(holder := PauseLook, pause := Resuming)
    case PauseLooks => if s.desired then s.(holder := PauseResume) else s.(holder := Nobody, pause := Sleeping)
    case PauseResumes => s.(session := true, holder := Nobody, pause := Sleeping)
  }

  /** The service's fields, as its two calls and the pause thread change them. `mutex` and `pause` say who is where. */
  class Scanner {
    var scanDesired: bool
    var session: bool
    ghost var mutex: Holder
    ghost var pause: PausePc

    ghost function Now(): State reads this { State(scanDesired, session, mutex, pause) }

    constructor ()
      ensures Now() == Start0
    {
      scanDesired, session, mutex, pause := false, false, Nobody, Sleeping;
    }

    method StartScan()
      requires mutex == Nobody
      modifies this
      ensures Now() == Apply(Apply(Apply(old(Now()), EnterStart), SessionStarts), WishNoted)
    {
      session := true;
      scanDesired := true;
    }

    method StopScan()
      requires mutex == Nobody
      modifies this
      ensures Now() == Apply(Apply(Apply(old(Now()), EnterStop), WishDropped), SessionStops)
    {
      scanDesired := false;
      session := false;
    }

    /** The pause's time has come: stops the session, if the scan is wished. Looks without the mutex. */
    method PauseBegins()
      requires pause == Sleeping
      modifies this
      ensures Now() == if old(scanDesired) then Apply(Apply(old(Now()), PauseWakes), PauseStops)
          else Apply(old(Now()), PauseWakes)
    {
      if !scanDesired {
        return;
      }
      session := false;
      pause := Paused;
    }

    /** The pause is over: resumes the session, unless StopScan ran meanwhile. */
    method PauseEnds()
      requires pause == Paused && mutex == Nobody
      modifies this
      ensures var looked := Apply(Apply(old(Now()), PauseLocks), PauseLooks);
              Now() == if old(scanDesired) then Apply(looked, PauseResumes) else looked
    {
      pause := Sleeping;
      if !scanDesired {
        return;
      }
      session := true;
    }
  }

  /** The pause thread is between its stop of the session and its resume. */
  predicate InGap(s: State) { s.pause == Paused || s.pause == Resuming }

  ghost predicate Inv(s: State) {
    && (s.holder == Nobody && s.session ==> s.desired)
    && (s.desired && !s.session ==> InGap(s))
    && (s.pause == Resuming <==> s.holder == PauseLook || s.holder == PauseResume)
    && (s.holder == PauseResume ==> s.desired)
    && (s.holder == PauseLook && s.session ==> s.desired)
    && (s.holder == StopWish && s.session ==> s.desired)
    && (s.holder == StartWish && !s.session ==> InGap(s))
    && (s.holder == StopSession ==> !s.desired)
  }

  lemma StepKeepsInv(s: State, a: Action)
    requires Inv(s) && Enabled(s, a)
    ensures Inv(Apply(s, a))
  {
  }

  ghost predicate Run(states: seq<State>, actions: seq<Action>) {
    && |states| == |actions| + 1
    && states[0] == Start0
    && forall k | 0 <= k < |actions| :: Enabled(states[k], actions[k]) && states[k + 1] == Apply(states[k], actions[k])
  }

  lemma {:induction false} RunKeepsInv(states: seq<State>, actions: seq<Action>, n: nat)
    requires Run(states, actions) && n < |states|
    ensures Inv(states[n])
    decreases n
  {
    if n > 0 {
      RunKeepsInv(states, actions, n - 1);
      StepKeepsInv(states[n - 1], actions[n - 1]);
    }
  }

  /** In every interleaving, whenever the mutex is free: a running session is a wished one, and a wished scan is
      without its session only inside a pause. */
  lemma SessionFollowsWish(states: seq<State>, actions: seq<Action>, n: nat)
    requires Run(states, actions) && n < |states| && states[n].holder == Nobody
    ensures states[n].session ==> states[n].desired
    ensures states[n].desired && !states[n].session ==> states[n].pause == Paused
  {
    RunKeepsInv(states, actions, n);
  }

  /** A scan stopped for good is not resumed by a pause that was under way: from the end of StopScan on, the session
      stays stopped until someone calls StartScan. */
  lemma {:induction false} PauseNeverResumesStopped(states: seq<State>, actions: seq<Action>, i: nat, j: nat)
    requires Run(states, actions) && i < j < |states| && actions[i] == SessionStops
    requires forall k | i < k < j :: actions[k] != EnterStart
    ensures !states[j].session && !states[j].desired && states[j].holder != StartSession && states[j].holder != StartWish
    decreases j
  {
    RunKeepsInv(states, actions, j - 1);
    if i + 1 < j {
      PauseNeverResumesStopped(states, actions, i, j - 1);
    }
  }

  /** A pause does stop the session, and it stays stopped until the pause resumes it or someone starts a scan. */
  lemma {:induction false} PauseSilences(states: seq<State>, actions: seq<Action>, i: nat, j: nat)
    requires Run(states, actions) && i < j < |states| && actions[i] == PauseStops
    requires forall k | i < k < j :: actions[k] != SessionStarts && actions[k] != PauseResumes
    ensures !states[j].session
    decreases j
  {
    assert states[j] == Apply(states[j - 1], actions[j - 1]);
    if i + 1 < j {
      PauseSilences(states, actions, i, j - 1);
    }
  }

  /** A pause begins exactly when a scan is wished. */
  lemma PauseBeginsIff(states: seq<State>, actions: seq<Action>, n: nat)
    requires Run(states, actions) && n < |actions| && actions[n] == PauseWakes
    ensures states[n + 1].pause == Deciding <==> states[n].desired
  {
    assert Enabled(states[n], actions[n]) && states[n + 1] == Apply(states[n], actions[n]);
  }

  /** A scan that was started goes on until someone stops it: whenever the mutex is free, the session runs, a pause
      apart. */
  lemma StartedScanGoesOn(states: seq<State>, actions: seq<Action>, i: nat, j: nat)
    requires Run(states, actions) && i < j < |states| && actions[i] == WishNoted
    requires forall k | i < k < j :: actions[k] != EnterStop
    ensures states[j].desired && (states[j].holder == Nobody ==> states[j].session || states[j].pause == Paused)
  {
    WishStays(states, actions, i, j);
    RunKeepsInv(states, actions, j);
  }

  lemma {:induction false} WishStays(states: seq<State>, actions: seq<Action>, i: nat, j: nat)
    requires Run(states, actions) && i < j < |states| && actions[i] == WishNoted
    requires forall k | i < k < j :: actions[k] != EnterStop
    ensures states[j].desired && states[j].holder != StopWish && states[j].holder != StopSession
    decreases j
  {
    assert Enabled(states[j - 1], actions[j - 1]) && states[j] == Apply(states[j - 1], actions[j - 1]);
    if i + 1 < j {
      WishStays(states, actions, i, j - 1);
    }
  }

  /** Who holds the mutex gives it back, after what it came for. */
  lemma MutexIsFreed(s: State)
    ensures s.holder == StartSession ==> Apply(Apply(s, SessionStarts), WishNoted) == s.(session := true, desired := true, holder := Nobody)
    ensures s.holder == StopWish ==> Apply(Apply(s, WishDropped), SessionStops) == s.(desired := false, session := false, holder := Nobody)
    ensures s.holder == PauseLook && !s.desired ==> Apply(s, PauseLooks) == s.(holder := Nobody, pause := Sleeping)
    ensures s.holder == PauseLook && s.desired ==>
              Apply(Apply(s, PauseLooks), PauseResumes) == s.(holder := Nobody, pause := Sleeping, session := true)
  {
  }
}
