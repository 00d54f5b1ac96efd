/** Whom a fire calls, over every interleaving and from the threads' own moves: who is subscribed when it begins and
    stays so to its end is called once; who is not subscribed when it begins is not called. */
module EventFires {
  import opened Event

  /** In move `b` thread `t` begins a fire, on top of `h` other things it is in the middle of, and in move `e` that fire
      ends: in between it is never popped. */
  ghost predicate FireFromTo(states: seq<State>, moves: seq<Move>, b: nat, e: nat, t: Thread, h: nat) {
    && b < e < |moves| && |states| == |moves| + 1
    && moves[b].thread == t && moves[b].action.DoFireBegin? && |Stack(states[b], t)| == h
    && moves[e].thread == t && moves[e].action.DoFireEnd? && |Stack(states[e], t)| == h + 1
    && forall j | b < j <= e :: |Stack(states[j], t)| > h
  }

  /** In move `k` that fire calls `id`. */
  ghost predicate CallsInFire(states: seq<State>, moves: seq<Move>, k: nat, t: Thread, h: nat, id: Id) {
    && k < |moves| && k < |states|
    && moves[k].thread == t && moves[k].action.DoFireCall? && |Stack(states[k], t)| == h + 1
    && Top(states[k], t).Fire? && |Top(states[k], t).turns| < |Top(states[k], t).snapshot| && Turn(Top(states[k], t)) == id
  }

  /** A `Subscribe` in one of the first `n` moves returned `id`. */
  ghost predicate SubscribedBefore(states: seq<State>, moves: seq<Move>, n: nat, id: Id) {
    exists a: nat :: SubscribesAt(states, moves, a, id) && a < n
  }

  ghost predicate SubscribesAt(states: seq<State>, moves: seq<Move>, a: nat, id: Id) {
    a < |moves| && a + 1 < |states| && moves[a].action.DoSubscribe? && states[a + 1].nextId == id
  }

  /** An `Unsubscribe` of `id` that found it took it out in one of the first `n` moves. */
  ghost predicate RemovedBefore(moves: seq<Move>, n: nat, id: Id) {
    exists a: nat :: a < n && a < |moves| && moves[a].action == DoUnsubscribeBegin(id)
  }

  // ---------- who is in the map ----------

  /** What one move does to the map. */
  lemma MoveChangesListeners(s: State, s': State, t: Thread, a: Action, id: Id)
    requires Inv(s) && Step(s, s', t, a)
    ensures id in s'.listeners
       <==> (id in s.listeners && a != DoUnsubscribeBegin(id)) || (a.DoSubscribe? && id == s'.nextId)
    ensures a.DoSubscribe? && id == s'.nextId ==> id !in s.listeners && id !in s.removedBy && id !in s.entries
    ensures id in s'.removedBy <==> id in s.removedBy || a == DoUnsubscribeBegin(id)
    ensures a.DoUnsubscribeBegin? ==> a.id in s.listeners
  {
    hide StacksOk, LocksOk, CallsOk, Stack;
    match a
    case DoSubscribe => case DoUnsubscribeUnknown(_) => case DoUnsubscribeBegin(_) => case DoUnsubscribeEnd =>
    case DoFireBegin(_) => case DoFireLock => case DoFireCall => case DoFireSkip => case DoCallReturns => case DoFireEnd =>
  }

  /** In every run the map holds exactly who subscribed and was not taken out since. */
  lemma {:induction false} ListenersAre(states: seq<State>, moves: seq<Move>, n: nat, id: Id)
    requires Run(states, moves) && n < |states|
    ensures id in states[n].listeners <==> SubscribedBefore(states, moves, n, id) && !RemovedBefore(moves, n, id)
    ensures id in states[n].removedBy <==> RemovedBefore(moves, n, id)
    decreases n
  {
    if n == 0 {
      hide Run;
      assert states[0].listeners == {} && states[0].removedBy == map[] by { StartsEmpty(states, moves); }
    } else {
      hide *;
      RunLength(states, moves);
      ListenersAre(states, moves, n - 1, id);
      StepOfRun(states, moves, n - 1);
      RunKeepsInv(states, moves, n - 1);
      MoveChangesListeners(states[n - 1], states[n], moves[n - 1].thread, moves[n - 1].action, id);
      OneMoveMore(states, moves, n, id);
      NotTwice(states, moves, n, id);
    }
  }

  lemma RunLength(states: seq<State>, moves: seq<Move>)
    requires Run(states, moves)
    ensures |states| == |moves| + 1
  {
    hide Step, Init;
  }

  lemma StartsEmpty(states: seq<State>, moves: seq<Move>)
    requires Run(states, moves)
    ensures |states| == |moves| + 1 && states[0].listeners == {} && states[0].removedBy == map[] && Inv(states[0])
    ensures forall t :: Stack(states[0], t) == []
  {
    RunKeepsInv(states, moves, 0);
    hide Step, Inv;
  }

  lemma OneMoveMore(states: seq<State>, moves: seq<Move>, n: nat, id: Id)
    requires 0 < n < |states| == |moves| + 1
    ensures SubscribedBefore(states, moves, n, id)
       <==> SubscribedBefore(states, moves, n - 1, id) || (moves[n - 1].action.DoSubscribe? && states[n].nextId == id)
    ensures RemovedBefore(moves, n, id) <==> RemovedBefore(moves, n - 1, id) || moves[n - 1].action == DoUnsubscribeBegin(id)
  {
    if SubscribedBefore(states, moves, n, id) {
      var a: nat :| SubscribesAt(states, moves, a, id) && a < n;
      assert a < n - 1 || a == n - 1;
    }
    if moves[n - 1].action.DoSubscribe? && states[n].nextId == id {
      assert SubscribesAt(states, moves, n - 1, id);
    }
  }

  /** An id that was taken out, or is being taken out, was given by a `Subscribe` before. */
  lemma NotTwice(states: seq<State>, moves: seq<Move>, n: nat, id: Id)
    requires Run(states, moves) && 0 < n < |states|
    ensures moves[n - 1].action.DoSubscribe? && states[n].nextId == id ==>
              id !in states[n - 1].removedBy && id !in states[n - 1].listeners
  {
    hide *;
    RunLength(states, moves);
    StepOfRun(states, moves, n - 1);
    RunKeepsInv(states, moves, n - 1);
    MoveChangesListeners(states[n - 1], states[n], moves[n - 1].thread, moves[n - 1].action, id);
  }

  // ---------- the fire's snapshot ----------

  lemma FireBegins(states: seq<State>, moves: seq<Move>, b: nat, e: nat, t: Thread, h: nat)
    requires Run(states, moves) && FireFromTo(states, moves, b, e, t, h)
    ensures |Stack(states[b + 1], t)| == h + 1 && Stack(states[b + 1], t)[h].Fire?
    ensures forall id :: id in Stack(states[b + 1], t)[h].snapshot <==> id in states[b].listeners
  {
    StepOfRun(states, moves, b);
    hide Run;
  }

  /** The frame of the fire keeps the snapshot it began with. */
  lemma {:induction false} SnapshotStays(states: seq<State>, moves: seq<Move>, b: nat, n: nat, t: Thread, h: nat)
    requires Run(states, moves) && b < n < |states|
    requires |Stack(states[b + 1], t)| == h + 1 && Stack(states[b + 1], t)[h].Fire?
    requires forall j | b < j <= n :: |Stack(states[j], t)| > h
    ensures Stack(states[n], t)[h].Fire? && Stack(states[n], t)[h].snapshot == Stack(states[b + 1], t)[h].snapshot
    decreases n
  {
    if n > b + 1 {
      hide *;
      RunLength(states, moves);
      SnapshotStays(states, moves, b, n - 1, t, h);
      var s, m := states[n - 1], moves[n - 1];
      StepOfRun(states, moves, n - 1);
      FrameComesFrom(s, states[n], m.thread, m.action, t, h);
      if Stack(states[n], t)[h] != Stack(s, t)[h] {
        TopOf(s, t);
        MovingRemembers(Top(s, t), Stack(states[n], t)[h], m.action, 0, true);
      }
    }
  }

  /** A call in the fire is of someone in the map when it began. */
  lemma CalledWereListening(states: seq<State>, moves: seq<Move>, b: nat, e: nat, t: Thread, h: nat, k: nat, id: Id)
    requires Run(states, moves) && FireFromTo(states, moves, b, e, t, h) && b < k < e && CallsInFire(states, moves, k, t, h, id)
    ensures id in states[b].listeners
  {
    hide Run, Stack;
    FireBegins(states, moves, b, e, t, h);
    SnapshotStays(states, moves, b, k, t, h);
    var f := Top(states[k], t);
    assert f.snapshot[|f.turns|] == id;
  }

  /** A fire calls no one twice. */
  lemma CalledOnce(states: seq<State>, moves: seq<Move>, b: nat, e: nat, t: Thread, h: nat, k: nat, l: nat, id: Id)
    requires Run(states, moves) && FireFromTo(states, moves, b, e, t, h) && b < k < e && b < l < e
    requires CallsInFire(states, moves, k, t, h, id) && CallsInFire(states, moves, l, t, h, id)
    ensures k == l
  {
    hide Run, Stack;
    if k < l {
      NotAgain(states, moves, b, e, t, h, k, l, id);
    } else if l < k {
      NotAgain(states, moves, b, e, t, h, l, k, id);
    }
  }

  lemma NotAgain(states: seq<State>, moves: seq<Move>, b: nat, e: nat, t: Thread, h: nat, k: nat, l: nat, id: Id)
    requires Run(states, moves) && FireFromTo(states, moves, b, e, t, h) && b < k < l < e
    requires CallsInFire(states, moves, k, t, h, id)
    ensures !CallsInFire(states, moves, l, t, h, id)
  {
    hide Run, Stack, Remembers;
    if CallsInFire(states, moves, l, t, h, id) {
      var f, g := Top(states[k], t), Top(states[l], t);
      var i, j := |f.turns|, |g.turns|;
      assert DecidesTurn(states, moves, k, l, t, h, i);
      TurnIsRemembered(states, moves, k, l, t, h, i);
      TopIsAscending(states, moves, l, t);
      assert f.snapshot[i] == id && g.snapshot[j] == id && f.snapshot == g.snapshot;
      SamePlace(f.snapshot, i, j);
      CallingIsNotChecking(g, i);
      assert false;
    }
  }

  lemma SamePlace(ids: seq<Id>, i: nat, j: nat)
    requires Ascending(ids) && i < |ids| && j < |ids| && ids[i] == ids[j]
    ensures i == j
  {
  }

  lemma CallingIsNotChecking(f: Frame, i: nat)
    requires Remembers(f, i, true) && |f.turns| == i
    ensures f.phase == Calling
  {
  }

  lemma TopIsAscending(states: seq<State>, moves: seq<Move>, k: nat, t: Thread)
    requires Run(states, moves) && k < |moves| && moves[k].thread == t && moves[k].action.DoFireCall?
    ensures |states| == |moves| + 1 && Stack(states[k], t) != [] && Top(states[k], t).Fire?
    ensures Ascending(Top(states[k], t).snapshot) && Top(states[k], t).phase == Checking
  {
    StepOfRun(states, moves, k);
    RunKeepsInv(states, moves, k);
    TopFrame(states[k], t);
    hide Run, LocksOk, CallsOk, TablesOk;
  }

  // ---------- whom a fire calls ----------

  /** The fire calls `id` once. */
  ghost predicate CallsOnce(states: seq<State>, moves: seq<Move>, b: nat, e: nat, t: Thread, h: nat, id: Id) {
    exists k: nat ::
      b < k < e && CallsInFire(states, moves, k, t, h, id)
      && forall l: nat | b < l < e && CallsInFire(states, moves, l, t, h, id) :: l == k
  }

  /** In every interleaving: whoever subscribed before a fire began, and is not being taken out before it ends, is called
      by it exactly once. */
  lemma SubscriberIsCalledOnce(states: seq<State>, moves: seq<Move>, b: nat, e: nat, t: Thread, h: nat, id: Id)
    requires Run(states, moves) && FireFromTo(states, moves, b, e, t, h)
    requires SubscribedBefore(states, moves, b, id) && !RemovedBefore(moves, e, id)
    ensures CallsOnce(states, moves, b, e, t, h, id)
  {
    hide Run, Stack, IsPast, TablesOk, SubscribedBefore;
    assert !RemovedBefore(moves, b, id);
    ListenersAre(states, moves, b, id);
    FireBegins(states, moves, b, e, t, h);
    SnapshotStays(states, moves, b, e, t, h);
    FireIsDone(states, moves, e, t);
    var f := Stack(states[e], t)[h];
    assert id in f.snapshot;
    var i: nat :| i < |f.snapshot| && f.snapshot[i] == id;
    IsPastDone(f, i);
    var k := TurnWasDecided(states, moves, e, t, h, i);
    DecidesNow(states, moves, k, e, t, h, i);
    assert b < k;
    SnapshotStays(states, moves, b, k, t, h);
    TurnIsDecided(states, moves, k, e, t, h, i);
    NotReturned(states, moves, k, e, id);
    assert CallsInFire(states, moves, k, t, h, id);
    forall l: nat | b < l < e && CallsInFire(states, moves, l, t, h, id) ensures l == k {
      CalledOnce(states, moves, b, e, t, h, k, l, id);
    }
  }

  lemma FireIsDone(states: seq<State>, moves: seq<Move>, e: nat, t: Thread)
    requires Run(states, moves) && e < |moves| && moves[e] == Move(t, DoFireEnd)
    ensures |states| == |moves| + 1 && Stack(states[e], t) != []
    ensures var f := Top(states[e], t);
            Top(states[e], t) == Stack(states[e], t)[|Stack(states[e], t)| - 1] && f.Fire? && |f.turns| == |f.snapshot|
  {
    StepOfRun(states, moves, e);
    hide Run, Stack;
  }

  lemma IsPastDone(f: Frame, i: nat)
    requires f.Fire? && i < |f.turns|
    ensures IsPast(f, i)
  {
  }

  lemma NotReturned(states: seq<State>, moves: seq<Move>, k: nat, e: nat, id: Id)
    requires Run(states, moves) && k <= e <= |moves| && !RemovedBefore(moves, e, id)
    ensures |states| == |moves| + 1 && id !in states[k].returned
  {
    RunLength(states, moves);
    ListenersAre(states, moves, k, id);
    RunKeepsInv(states, moves, k);
    hide Run, StacksOk, LocksOk, CallsOk;
  }

  /** In every interleaving: a fire calls only who had subscribed before it began and was not being taken out by then. */
  lemma OnlySubscribersAreCalled(states: seq<State>, moves: seq<Move>, b: nat, e: nat, t: Thread, h: nat, k: nat, id: Id)
    requires Run(states, moves) && FireFromTo(states, moves, b, e, t, h) && b < k < e && CallsInFire(states, moves, k, t, h, id)
    ensures SubscribedBefore(states, moves, b, id) && !RemovedBefore(moves, b, id)
  {
    hide *;
    CalledWereListening(states, moves, b, e, t, h, k, id);
    FireIsInside(states, moves, b, e, t, h);
    ListenersAre(states, moves, b, id);
  }

  lemma FireIsInside(states: seq<State>, moves: seq<Move>, b: nat, e: nat, t: Thread, h: nat)
    requires FireFromTo(states, moves, b, e, t, h)
    ensures b < e < |moves| && |states| == |moves| + 1
  {
    hide Stack;
  }

  // ---------- no thread is stuck but behind another ----------

  /** The lock the thread waits for. */
  function Awaited(s: State, t: Thread): Id
    requires Stack(s, t) != [] && (Top(s, t).Unsub? || (Top(s, t).Fire? && |Top(s, t).turns| < |Top(s, t).snapshot|))
  {
    if Top(s, t).Unsub? then Top(s, t).id else Turn(Top(s, t))
  }

  /** The thread waits for a lock that another thread holds, inside a call or about to call. */
  ghost predicate WaitsForAnother(s: State, t: Thread) {
    && Stack(s, t) != []
    && (Top(s, t).Unsub? || (Top(s, t).Fire? && Top(s, t).phase == Locking && |Top(s, t).turns| < |Top(s, t).snapshot|))
    && var id := Awaited(s, t);
       id in s.entries && s.entries[id].depth > 0 && s.entries[id].owner != t
  }

  ghost predicate CanMove(s: State, t: Thread) {
    exists s': State, a: Action :: Step(s, s', t, a)
  }

  /** In every reachable state a thread in the middle of something can go on, unless it waits for a lock that another
      thread holds: no thread locks itself out, however it nests its calls. */
  lemma NoThreadLocksItselfOut(states: seq<State>, moves: seq<Move>, n: nat, t: Thread)
    requires Run(states, moves) && n < |states| && Stack(states[n], t) != [] && !WaitsForAnother(states[n], t)
    ensures CanMove(states[n], t)
  {
    RunKeepsInv(states, moves, n);
    hide Run;
    CanGoOn(states[n], t);
  }

  lemma CanGoOn(s: State, t: Thread)
    requires Inv(s) && Stack(s, t) != [] && !WaitsForAnother(s, t)
    ensures CanMove(s, t)
  {
    TopFrame(s, t);
    var f := Top(s, t);
    if f.Unsub? {
      var s' := Pop(s, t).(entries := s.entries[f.id := s.entries[f.id].(alive := false)], returned := s.returned + {f.id});
      assert Step(s, s', t, DoUnsubscribeEnd);
    } else if |f.turns| == |f.snapshot| {
      assert Step(s, Pop(s, t), t, DoFireEnd);
    } else {
      TurnGoesOn(s, t, f);
    }
  }

  lemma TurnGoesOn(s: State, t: Thread, f: Frame)
    requires Inv(s) && Stack(s, t) != [] && !WaitsForAnother(s, t)
    requires f == Top(s, t) && f.Fire? && |f.turns| < |f.snapshot| && Turn(f) in s.entries
    ensures CanMove(s, t)
  {
    var id := Turn(f);
    var l := s.entries[id];
    match f.phase
    case Locking =>
      var s' := WithTop(s, t, f.(phase := Checking)).(entries := s.entries[id := l.(owner := t, depth := l.depth + 1)]);
      assert Step(s, s', t, DoFireLock);
    case Checking =>
      if l.alive {
        assert Step(s, WithTop(s, t, f.(phase := Calling, called := f.called + [id])), t, DoFireCall);
      } else {
        OwnerOf(s, t);
        var s' := WithTop(s, t, f.(phase := Locking, turns := f.turns + [false])).(entries := s.entries[id := l.(depth := l.depth - 1)]);
        assert Step(s, s', t, DoFireSkip);
      }
    case Calling =>
      OwnerOf(s, t);
      var s' := WithTop(s, t, f.(phase := Locking, turns := f.turns + [true])).(entries := s.entries[id := l.(depth := l.depth - 1)]);
      assert Step(s, s', t, DoCallReturns);
  }
}
