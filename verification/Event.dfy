/** `Event`: listeners called from several threads. A fire walks a snapshot of the listeners and holds each one's
    recursive lock during its call; listeners may subscribe, unsubscribe and fire from inside their calls.
    Every thread is a stack of what it is doing, every lock has an owner and a depth, and a step of the system is a
    step of one thread. */
module Event {

  type Thread = nat
  type Id = nat

  /** A listener's lock and flag; entries outlive their place in the map, like the shared pointers do. */
  datatype Listener = Listener(alive: bool, owner: Thread, depth: nat)

  datatype Phase =
    | Locking        // waits for the lock of the listener at `at`
    | Checking       // holds it, about to look at `alive`
    | Calling        // inside the listener's function

  /** What a thread is in the middle of. A fire keeps the snapshot, for every turn behind it whether the listener
      was alive, and the calls it made so far. */
  datatype Frame =
    | Fire(snapshot: seq<Id>, turns: seq<bool>, phase: Phase, called: seq<Id>)
    | Unsub(id: Id)  // took the entry out of the map, waits for its lock

  datatype State = State(
    listeners: set<Id>,
    nextId: Id,                          // the id given last
    entries: map<Id, Listener>,
    stacks: map<Thread, seq<Frame>>,     // innermost last
    removedBy: map<Id, Thread>,          // the thread whose Unsubscribe took the entry out
    returned: set<Id>                    // ids whose removing Unsubscribe has returned
  )

  ghost predicate Init(s: State) {
    s == State({}, 0, map[], map[], map[], {})
  }

  function Stack(s: State, t: Thread): seq<Frame> {
    if t in s.stacks then s.stacks[t] else []
  }

  /** A thread may begin an operation outside any other, or from inside a listener's call. */
  predicate MayBegin(stack: seq<Frame>) {
    stack == [] || (stack[|stack| - 1].Fire? && stack[|stack| - 1].phase == Calling)
  }

  function Turn(f: Frame): Id
    requires f.Fire? && |f.turns| < |f.snapshot|
  {
    f.snapshot[|f.turns|]
  }

  predicate Lockable(l: Listener, t: Thread) {
    l.depth == 0 || l.owner == t
  }

  function Top(s: State, t: Thread): Frame
    requires Stack(s, t) != []
  {
    Stack(s, t)[|Stack(s, t)| - 1]
  }

  function WithTop(s: State, t: Thread, f: Frame): State
    requires Stack(s, t) != []
  {
    s.(stacks := s.stacks[t := Stack(s, t)[..|Stack(s, t)| - 1] + [f]])
  }

  function Push(s: State, t: Thread, f: Frame): State {
    s.(stacks := s.stacks[t := Stack(s, t) + [f]])
  }

  function Pop(s: State, t: Thread): State
    requires Stack(s, t) != []
  {
    s.(stacks := s.stacks[t := Stack(s, t)[..|Stack(s, t)| - 1]])
  }

  // ---------- the steps ----------

  ghost predicate Subscribe(s: State, s': State, t: Thread) {
    && MayBegin(Stack(s, t))
    && var id := s.nextId + 1;
       s' == s.(nextId := id, listeners := s.listeners + {id}, entries := s.entries[id := Listener(true, 0, 0)])
  }

  /** The id is not in the map: returns at once. */
  ghost predicate UnsubscribeUnknown(s: State, s': State, t: Thread, id: Id) {
    MayBegin(Stack(s, t)) && id !in s.listeners && s' == s
  }

  ghost predicate UnsubscribeBegin(s: State, s': State, t: Thread, id: Id) {
    && MayBegin(Stack(s, t)) && id in s.listeners
    && s' == Push(s, t, Unsub(id)).(listeners := s.listeners - {id}, removedBy := s.removedBy[id := t])
  }

  /** Gets the lock, clears the flag, releases the lock and returns. */
  ghost predicate UnsubscribeEnd(s: State, s': State, t: Thread) {
    && Stack(s, t) != [] && Top(s, t).Unsub?
    && var id := Top(s, t).id;
       && id in s.entries && Lockable(s.entries[id], t)
       && s' == Pop(s, t).(entries := s.entries[id := s.entries[id].(alive := false)], returned := s.returned + {id})
  }

  /** The snapshot of an ordered map: the ids in the order they were given. */
  ghost predicate IsSnapshot(snapshot: seq<Id>, listeners: set<Id>) {
    && (forall i, j | 0 <= i < j < |snapshot| :: snapshot[i] < snapshot[j])
    && (forall id :: id in snapshot <==> id in listeners)
  }

  ghost predicate FireBegin(s: State, s': State, t: Thread, snapshot: seq<Id>) {
    MayBegin(Stack(s, t)) && IsSnapshot(snapshot, s.listeners) && s' == Push(s, t, Fire(snapshot, [], Locking, []))
  }

  ghost predicate OnTurn(s: State, t: Thread, phase: Phase) {
    && Stack(s, t) != [] && Top(s, t).Fire? && Top(s, t).phase == phase
    && |Top(s, t).turns| < |Top(s, t).snapshot| && Turn(Top(s, t)) in s.entries
  }

  ghost predicate FireLock(s: State, s': State, t: Thread) {
    && OnTurn(s, t, Locking)
    && var f := Top(s, t); var id := Turn(f); var l := s.entries[id];
       && Lockable(l, t)
       && s' == WithTop(s, t, f.(phase := Checking)).(entries := s.entries[id := l.(owner := t, depth := l.depth + 1)])
  }

  /** Alive: the call starts. */
  ghost predicate FireCall(s: State, s': State, t: Thread) {
    && OnTurn(s, t, Checking)
    && s.entries[Turn(Top(s, t))].alive
    && s' == WithTop(s, t, Top(s, t).(phase := Calling, called := Top(s, t).called + [Turn(Top(s, t))]))
  }

  /** Not alive: skips the listener and releases its lock. */
  ghost predicate FireSkip(s: State, s': State, t: Thread) {
    && OnTurn(s, t, Checking)
    && var f := Top(s, t); var id := Turn(f); var l := s.entries[id];
       && !l.alive && l.depth > 0
       && s' == WithTop(s, t, f.(phase := Locking, turns := f.turns + [false])).(entries := s.entries[id := l.(depth := l.depth - 1)])
  }

  /** The listener's function returns: the lock is released and the next turn begins. */
  ghost predicate CallReturns(s: State, s': State, t: Thread) {
    && OnTurn(s, t, Calling)
    && var f := Top(s, t); var id := Turn(f); var l := s.entries[id];
       && l.depth > 0
       && s' == WithTop(s, t, f.(phase := Locking, turns := f.turns + [true])).(entries := s.entries[id := l.(depth := l.depth - 1)])
  }

  ghost predicate FireEnd(s: State, s': State, t: Thread) {
    && Stack(s, t) != [] && Top(s, t).Fire? && |Top(s, t).turns| == |Top(s, t).snapshot|
    && s' == Pop(s, t)
  }

  datatype Action =
    | DoSubscribe | DoUnsubscribeUnknown(id: Id) | DoUnsubscribeBegin(id: Id) | DoUnsubscribeEnd
    | DoFireBegin(snapshot: seq<Id>) | DoFireLock | DoFireCall | DoFireSkip | DoCallReturns | DoFireEnd

  ghost predicate Step(s: State, s': State, t: Thread, a: Action) {
    match a
    case DoSubscribe => Subscribe(s, s', t)
    case DoUnsubscribeUnknown(id) => UnsubscribeUnknown(s, s', t, id)
    case DoUnsubscribeBegin(id) => UnsubscribeBegin(s, s', t, id)
    case DoUnsubscribeEnd => UnsubscribeEnd(s, s', t)
    case DoFireBegin(snapshot) => FireBegin(s, s', t, snapshot)
    case DoFireLock => FireLock(s, s', t)
    case DoFireCall => FireCall(s, s', t)
    case DoFireSkip => FireSkip(s, s', t)
    case DoCallReturns => CallReturns(s, s', t)
    case DoFireEnd => FireEnd(s, s', t)
  }

  // ---------- the event's own fields ----------

  /** What each thread changes between two points where others may come in. */
  class EventListeners {
    var listeners: set<Id>
    var idForNewListener: Id
    var entries: map<Id, Listener>
    ghost var stacks: map<Thread, seq<Frame>>
    ghost var removedBy: map<Id, Thread>
    ghost var returned: set<Id>

    ghost function Now(): State reads this {
      State(listeners, idForNewListener, entries, stacks, removedBy, returned)
    }

    constructor ()
      ensures Init(Now())
    {
      listeners, idForNewListener, entries := {}, 0, map[];
      stacks, removedBy, returned := map[], map[], {};
    }

    method DoSubscribe(ghost t: Thread) returns (id: Id)
      requires MayBegin(Stack(Now(), t))
      modifies this
      ensures Subscribe(old(Now()), Now(), t) && id == idForNewListener && id in listeners
    {
      idForNewListener := idForNewListener + 1;
      entries := entries[idForNewListener := Listener(true, 0, 0)];
      listeners := listeners + {idForNewListener};
      id := idForNewListener;
    }

    /** Takes the entry out of the map; false if there is none. */
    method Remove(t: Thread, id: Id) returns (found: bool)
      requires MayBegin(Stack(Now(), t))
      modifies this
      ensures found == (id in old(listeners))
      ensures if found then UnsubscribeBegin(old(Now()), Now(), t, id) else UnsubscribeUnknown(old(Now()), Now(), t, id)
    {
      if id !in listeners {
        return false;
      }
      listeners := listeners - {id};
      stacks := stacks[t := Stack(Now(), t) + [Unsub(id)]];
      removedBy := removedBy[id := t];
      return true;
    }

    /** Has the entry's lock: from here on no call starts. */
    method MarkDead(t: Thread, id: Id)
      requires Stack(Now(), t) != [] && Top(Now(), t) == Unsub(id) && id in entries && Lockable(entries[id], t)
      modifies this
      ensures UnsubscribeEnd(old(Now()), Now(), t)
    {
      entries := entries[id := entries[id].(alive := false)];
      stacks := stacks[t := Stack(Now(), t)[..|Stack(Now(), t)| - 1]];
      returned := returned + {id};
    }

    /** The copy of the map a fire walks. */
    method Snapshot(ghost t: Thread) returns (snapshot: seq<Id>)
      requires MayBegin(Stack(Now(), t)) && forall id | id in listeners :: id <= idForNewListener
      modifies this
      ensures FireBegin(old(Now()), Now(), t, snapshot)
    {
      snapshot := [];
      var id := 0;
      while id <= idForNewListener
        invariant 0 <= id <= idForNewListener + 1
        invariant forall i, j | 0 <= i < j < |snapshot| :: snapshot[i] < snapshot[j]
        invariant forall i | 0 <= i < |snapshot| :: snapshot[i] < id
        invariant forall k :: k in snapshot <==> k in listeners && k < id
        invariant Now() == old(Now())
      {
        if id in listeners {
          assert forall k :: k in snapshot + [id] <==> k in snapshot || k == id;
          snapshot := snapshot + [id];
        }
        id := id + 1;
      }
      stacks := stacks[t := Stack(Now(), t) + [Fire(snapshot, [], Locking, [])]];
    }

    /** A turn of a fire, with the listener's lock just taken; `calls` if its function is called. */
    method Look(t: Thread, id: Id) returns (calls: bool)
      requires OnTurn(Now(), t, Checking) && Turn(Top(Now(), t)) == id && entries[id].depth > 0
      modifies this
      ensures if calls then FireCall(old(Now()), Now(), t) else FireSkip(old(Now()), Now(), t)
    {
      ghost var f := Top(Now(), t);
      ghost var below := Stack(Now(), t)[..|Stack(Now(), t)| - 1];
      calls := entries[id].alive;
      if calls {
        stacks := stacks[t := below + [f.(phase := Calling, called := f.called + [id])]];
      } else {
        entries := entries[id := entries[id].(depth := entries[id].depth - 1)];
        stacks := stacks[t := below + [f.(phase := Locking, turns := f.turns + [false])]];
      }
    }
  }

  // ---------- the invariant ----------

  predicate Holding(f: Frame, id: Id) {
    f.Fire? && f.phase != Locking && |f.turns| < |f.snapshot| && Turn(f) == id
  }

  /** How often a thread holds the lock of `id`. */
  function Held(stack: seq<Frame>, id: Id): nat {
    if stack == [] then 0
    else Held(stack[..|stack| - 1], id) + if Holding(stack[|stack| - 1], id) then 1 else 0
  }

  function HeldBy(l: Listener, t: Thread): nat {
    if l.depth > 0 && l.owner == t then l.depth else 0
  }

  /** The calls of the turns so far: the listeners found alive, in order. */
  function CallsOf(snapshot: seq<Id>, turns: seq<bool>): seq<Id>
    requires |turns| <= |snapshot|
  {
    if turns == [] then []
    else
      var n := |turns| - 1;
      CallsOf(snapshot, turns[..n]) + if turns[n] then [snapshot[n]] else []
  }

  ghost predicate Ascending(ids: seq<Id>) {
    forall i, j | 0 <= i < j < |ids| :: ids[i] < ids[j]
  }

  ghost predicate TurnsOk(snapshot: seq<Id>, turns: seq<bool>, returned: set<Id>) {
    |turns| <= |snapshot| && forall i | 0 <= i < |turns| :: turns[i] || snapshot[i] in returned
  }

  ghost predicate FrameOk(s: State, t: Thread, f: Frame) {
    match f
    case Unsub(id) => id in s.entries && id in s.removedBy && s.removedBy[id] == t
    case Fire(snapshot, turns, phase, called) =>
      && (forall id | id in snapshot :: id in s.entries)
      && Ascending(snapshot)
      && TurnsOk(snapshot, turns, s.returned)
      && (phase != Locking ==> |turns| < |snapshot|)
      && called == CallsOf(snapshot, turns) + if phase == Calling then [snapshot[|turns|]] else []
  }

  predicate InCall(f: Frame) { f.Fire? && f.phase == Calling }

  ghost predicate StackOk(s: State, t: Thread, stack: seq<Frame>) {
    forall i | 0 <= i < |stack| :: FrameOk(s, t, stack[i]) && (i < |stack| - 1 ==> InCall(stack[i]))
  }

  ghost predicate StacksOk(s: State) {
    forall t :: StackOk(s, t, Stack(s, t))
  }

  ghost predicate TablesOk(s: State) {
    && (forall id | id in s.listeners :: id in s.entries && id !in s.removedBy)
    && (forall id | id in s.entries :: id <= s.nextId)
    && (forall id | id in s.removedBy :: id in s.entries)
    && (forall id | id in s.returned :: id in s.removedBy)
    && (forall id | id in s.entries :: s.entries[id].alive <==> id !in s.returned)
  }

  ghost predicate LocksOk(s: State) {
    forall t, id | id in s.entries :: Held(Stack(s, t), id) == HeldBy(s.entries[id], t)
  }

  /** A call of a listener whose Unsubscribe has returned is on the thread that unsubscribed it. */
  ghost predicate CallsOk(s: State) {
    forall t, i | 0 <= i < |Stack(s, t)| :: CallOk(s, t, Stack(s, t)[i])
  }

  ghost predicate CallOk(s: State, t: Thread, f: Frame) {
    InCall(f) && |f.turns| < |f.snapshot| && Turn(f) in s.returned ==> Turn(f) in s.removedBy && s.removedBy[Turn(f)] == t
  }

  ghost predicate Inv(s: State) {
    TablesOk(s) && StacksOk(s) && LocksOk(s) && CallsOk(s)
  }

  // ---------- what a step changes of the stacks ----------

  lemma HeldPush(stack: seq<Frame>, f: Frame, id: Id)
    ensures Held(stack + [f], id) == Held(stack, id) + if Holding(f, id) then 1 else 0
  {
    assert (stack + [f])[..|stack|] == stack;
  }

  lemma {:induction false} NotHeldNotHolding(stack: seq<Frame>, id: Id, i: nat)
    requires Held(stack, id) == 0 && i < |stack|
    ensures !Holding(stack[i], id)
    decreases |stack|
  {
    if i < |stack| - 1 {
      NotHeldNotHolding(stack[..|stack| - 1], id, i);
    }
  }

  /** The tables only grow. */
  ghost predicate Grows(s: State, s': State) {
    && (forall id | id in s.entries :: id in s'.entries)
    && (forall id | id in s.removedBy :: id in s'.removedBy && s'.removedBy[id] == s.removedBy[id])
    && s.returned <= s'.returned
  }

  lemma FrameStaysOk(s: State, s': State, t: Thread, f: Frame)
    requires FrameOk(s, t, f) && Grows(s, s')
    ensures FrameOk(s', t, f)
  {
    hide CallsOf, Ascending;
  }

  lemma StackStaysOk(s: State, s': State, t: Thread, stack: seq<Frame>)
    requires StackOk(s, t, stack) && Grows(s, s')
    ensures StackOk(s', t, stack)
  {
    hide FrameOk, Grows;
    forall i | 0 <= i < |stack|
      ensures FrameOk(s', t, stack[i])
    {
      FrameStaysOk(s, s', t, stack[i]);
    }
  }

  /** Only thread `t` moved, and its stack is still in order. */
  lemma StacksStayOk(s: State, s': State, t: Thread)
    requires StacksOk(s) && Grows(s, s')
    requires forall u | u != t :: Stack(s', u) == Stack(s, u)
    requires StackOk(s', t, Stack(s', t))
    ensures StacksOk(s')
  {
    hide StackOk, Grows, Stack;
    forall u
      ensures StackOk(s', u, Stack(s', u))
    {
      if u != t {
        StackStaysOk(s, s', u, Stack(s, u));
      }
    }
  }

  lemma TopReplaced(s: State, s': State, t: Thread, f: Frame)
    requires StacksOk(s) && Grows(s, s') && Stack(s, t) != []
    requires Stack(s', t) == Stack(s, t)[..|Stack(s, t)| - 1] + [f] && FrameOk(s', t, f)
    ensures StackOk(s', t, Stack(s', t))
  {
    hide FrameOk, Grows, Stack;
    assert StackOk(s, t, Stack(s, t));
    StackStaysOk(s, s', t, Stack(s, t));
  }

  lemma Popped(s: State, s': State, t: Thread)
    requires StacksOk(s) && Grows(s, s') && Stack(s, t) != []
    requires Stack(s', t) == Stack(s, t)[..|Stack(s, t)| - 1]
    ensures StackOk(s', t, Stack(s', t))
  {
    hide FrameOk, Grows, Stack;
    assert StackOk(s, t, Stack(s, t));
    StackStaysOk(s, s', t, Stack(s, t));
  }

  lemma Pushed(s: State, s': State, t: Thread, f: Frame)
    requires StacksOk(s) && Grows(s, s') && MayBegin(Stack(s, t))
    requires Stack(s', t) == Stack(s, t) + [f] && FrameOk(s', t, f)
    ensures StackOk(s', t, Stack(s', t))
  {
    hide FrameOk, Grows, Stack;
    assert StackOk(s, t, Stack(s, t));
    StackStaysOk(s, s', t, Stack(s, t));
  }

  // ---------- every step keeps it ----------

  lemma SubscribeKeepsInv(s: State, s': State, t: Thread)
    requires Inv(s) && Subscribe(s, s', t)
    ensures Inv(s')
  {
    hide Held, StackOk, FrameOk;
    var id := s.nextId + 1;
    assert id !in s.entries;
    StackStaysOk(s, s', t, Stack(s, t));
    StacksStayOk(s, s', t);
    forall u
      ensures Held(Stack(s', u), id) == 0
    {
      assert StackOk(s, u, Stack(s, u));
      UnknownIsNotHeld(s, u, Stack(s, u), id);
    }
  }

  lemma {:induction false} UnknownIsNotHeld(s: State, t: Thread, stack: seq<Frame>, id: Id)
    requires StackOk(s, t, stack) && id !in s.entries
    ensures Held(stack, id) == 0
    decreases |stack|
  {
    if stack != [] {
      var n := |stack| - 1;
      UnknownIsNotHeld(s, t, stack[..n], id);
      assert FrameOk(s, t, stack[n]);
    }
  }

  lemma UnsubscribeBeginKeepsInv(s: State, s': State, t: Thread, id: Id)
    requires Inv(s) && UnsubscribeBegin(s, s', t, id)
    ensures Inv(s')
  {
    hide Held, StackOk;
    Pushed(s, s', t, Unsub(id));
    StacksStayOk(s, s', t);
    forall x
      ensures Held(Stack(s', t), x) == Held(Stack(s, t), x)
    {
      HeldPush(Stack(s, t), Unsub(id), x);
    }
  }

  lemma UnsubscribeEndKeepsInv(s: State, s': State, t: Thread)
    requires Inv(s) && UnsubscribeEnd(s, s', t)
    ensures Inv(s')
  {
    hide Held, FrameOk, CallOk;
    var stack, id := Stack(s, t), Top(s, t).id;
    assert FrameOk(s, t, stack[|stack| - 1]) by { assert StackOk(s, t, stack); }
    UnsubFrame(s, t, stack[|stack| - 1]);
    Popped(s, s', t);
    StacksStayOk(s, s', t) by { hide StackOk; }
    UnsubscribeEndKeepsLocks(s, s', t);
    UnsubscribeEndKeepsCalls(s, s', t);
  }

  lemma UnsubscribeEndKeepsLocks(s: State, s': State, t: Thread)
    requires LocksOk(s) && UnsubscribeEnd(s, s', t)
    ensures LocksOk(s')
  {
    hide Held;
    var stack := Stack(s, t);
    forall u, x | x in s'.entries
      ensures Held(Stack(s', u), x) == HeldBy(s'.entries[x], u)
    {
      assert Held(Stack(s, u), x) == HeldBy(s.entries[x], u);
      if u == t {
        assert stack == stack[..|stack| - 1] + [stack[|stack| - 1]];
        HeldPush(stack[..|stack| - 1], stack[|stack| - 1], x);
      }
    }
  }

  /** Another thread cannot be inside a call of a listener whose lock `t` just took. */
  lemma UnsubscribeEndKeepsCalls(s: State, s': State, t: Thread)
    requires LocksOk(s) && CallsOk(s) && UnsubscribeEnd(s, s', t)
    requires Top(s, t).id in s.removedBy && s.removedBy[Top(s, t).id] == t
    ensures CallsOk(s')
  {
    hide Held;
    var id := Top(s, t).id;
    forall u, i | 0 <= i < |Stack(s', u)|
      ensures CallOk(s', u, Stack(s', u)[i])
    {
      assert Stack(s', u)[i] == Stack(s, u)[i];
      assert CallOk(s, u, Stack(s, u)[i]);
      if u != t {
        assert Held(Stack(s, u), id) == 0;
        NotHeldNotHolding(Stack(s, u), id, i);
      }
    }
  }

  lemma UnsubFrame(s: State, t: Thread, f: Frame)
    requires FrameOk(s, t, f) && f.Unsub?
    ensures f.id in s.entries && f.id in s.removedBy && s.removedBy[f.id] == t
  {
  }

  lemma FireBeginKeepsInv(s: State, s': State, t: Thread, snapshot: seq<Id>)
    requires Inv(s) && FireBegin(s, s', t, snapshot)
    ensures Inv(s')
  {
    hide Held, StackOk;
    var f := Fire(snapshot, [], Locking, []);
    assert FrameOk(s', t, f);
    Pushed(s, s', t, f);
    StacksStayOk(s, s', t);
    forall x
      ensures Held(Stack(s', t), x) == Held(Stack(s, t), x)
    {
      HeldPush(Stack(s, t), f, x);
    }
  }

  /** A step that only replaces the top frame of `t`, and the lock entry the frames speak of. */
  lemma TopStepKeepsInv(s: State, s': State, t: Thread, f: Frame, id: Id, l: Listener)
    requires Inv(s) && Stack(s, t) != [] && id in s.entries
    requires s' == WithTop(s, t, f).(entries := s.entries[id := l])
    requires l.alive == s.entries[id].alive
    requires FrameOk(s', t, f) && CallOk(s', t, f)
    requires forall x | x != id :: Holding(f, x) == Holding(Top(s, t), x)
    requires HeldBy(l, t) + (if Holding(Top(s, t), id) then 1 else 0)
          == HeldBy(s.entries[id], t) + (if Holding(f, id) then 1 else 0)
    requires forall u | u != t :: HeldBy(l, u) == HeldBy(s.entries[id], u)
    ensures Inv(s')
  {
    hide Held, StackOk, FrameOk, Holding, HeldBy, CallOk;
    var stack := Stack(s, t);
    var below := stack[..|stack| - 1];
    assert stack == below + [Top(s, t)];
    TopReplaced(s, s', t, f);
    StacksStayOk(s, s', t);
    forall u, x | x in s'.entries
      ensures Held(Stack(s', u), x) == HeldBy(s'.entries[x], u)
    {
      assert Held(Stack(s, u), x) == HeldBy(s.entries[x], u);
      if u == t {
        HeldPush(below, f, x);
        HeldPush(below, Top(s, t), x);
      }
    }
    forall u, i | 0 <= i < |Stack(s', u)|
      ensures CallOk(s', u, Stack(s', u)[i])
    {
      if u != t || i < |below| {
        assert Stack(s', u)[i] == Stack(s, u)[i];
        assert CallOk(s, u, Stack(s, u)[i]);
        SameCall(s, s', u, Stack(s, u)[i]);
      }
    }
  }

  lemma SameCall(s: State, s': State, t: Thread, f: Frame)
    requires CallOk(s, t, f) && s'.returned == s.returned && s'.removedBy == s.removedBy
    ensures CallOk(s', t, f)
  {
  }

  lemma TopFrame(s: State, t: Thread)
    requires Inv(s) && Stack(s, t) != []
    ensures FrameOk(s, t, Top(s, t)) && CallOk(s, t, Top(s, t))
  {
    hide FrameOk, CallOk;
    assert StackOk(s, t, Stack(s, t));
  }

  lemma FireLockKeepsInv(s: State, s': State, t: Thread)
    requires Inv(s) && FireLock(s, s', t)
    ensures Inv(s')
  {
    hide StackOk, TablesOk, LocksOk, CallsOk, CallsOf, Ascending, TurnsOk;
    TopFrame(s, t);
    var f, id := Top(s, t), Turn(Top(s, t));
    var l := s.entries[id];
    TopStepKeepsInv(s, s', t, f.(phase := Checking), id, l.(owner := t, depth := l.depth + 1));
  }

  lemma FireCallKeepsInv(s: State, s': State, t: Thread)
    requires Inv(s) && FireCall(s, s', t)
    ensures Inv(s')
  {
    hide StackOk, LocksOk, CallsOk, CallsOf, Ascending, TurnsOk;
    TopFrame(s, t);
    var f, id := Top(s, t), Turn(Top(s, t));
    assert id !in s.returned;
    assert s.entries[id := s.entries[id]] == s.entries;
    assert s' == WithTop(s, t, f.(phase := Calling, called := f.called + [id])).(entries := s.entries[id := s.entries[id]]);
    TopStepKeepsInv(s, s', t, f.(phase := Calling, called := f.called + [id]), id, s.entries[id]);
  }

  lemma FireSkipKeepsInv(s: State, s': State, t: Thread)
    requires Inv(s) && FireSkip(s, s', t)
    ensures Inv(s')
  {
    hide StackOk, CallsOk, Ascending;
    TopFrame(s, t);
    var f, id := Top(s, t), Turn(Top(s, t));
    var l := s.entries[id];
    OwnerOf(s, t);
    assert id in s.returned;
    assert (f.turns + [false])[..|f.turns|] == f.turns;
    TopStepKeepsInv(s, s', t, f.(phase := Locking, turns := f.turns + [false]), id, l.(depth := l.depth - 1));
  }

  lemma CallReturnsKeepsInv(s: State, s': State, t: Thread)
    requires Inv(s) && CallReturns(s, s', t)
    ensures Inv(s')
  {
    hide StackOk, CallsOk, Ascending;
    TopFrame(s, t);
    var f, id := Top(s, t), Turn(Top(s, t));
    var l := s.entries[id];
    OwnerOf(s, t);
    assert (f.turns + [true])[..|f.turns|] == f.turns;
    TopStepKeepsInv(s, s', t, f.(phase := Locking, turns := f.turns + [true]), id, l.(depth := l.depth - 1));
  }

  /** A thread on its turn behind the lock owns it. */
  lemma OwnerOf(s: State, t: Thread)
    requires LocksOk(s) && Stack(s, t) != [] && Top(s, t).Fire? && Top(s, t).phase != Locking
    requires |Top(s, t).turns| < |Top(s, t).snapshot| && Turn(Top(s, t)) in s.entries
    ensures s.entries[Turn(Top(s, t))].owner == t && s.entries[Turn(Top(s, t))].depth > 0
  {
    assert Held(Stack(s, t), Turn(Top(s, t))) == HeldBy(s.entries[Turn(Top(s, t))], t);
  }

  lemma FireEndKeepsInv(s: State, s': State, t: Thread)
    requires Inv(s) && FireEnd(s, s', t)
    ensures Inv(s')
  {
    hide Held, FrameOk, CallOk;
    var stack := Stack(s, t);
    var below, top := stack[..|stack| - 1], stack[|stack| - 1];
    Popped(s, s', t);
    StacksStayOk(s, s', t) by { hide StackOk; }
    assert LocksOk(s') by {
      forall u, x | x in s'.entries
        ensures Held(Stack(s', u), x) == HeldBy(s'.entries[x], u)
      {
        assert Held(Stack(s, u), x) == HeldBy(s.entries[x], u);
        assert stack == below + [top];
        HeldPush(below, top, x);
      }
    }
    assert CallsOk(s') by {
      forall u, i | 0 <= i < |Stack(s', u)|
        ensures CallOk(s', u, Stack(s', u)[i])
      {
        assert Stack(s', u)[i] == Stack(s, u)[i];
        SameCall(s, s', u, Stack(s, u)[i]);
      }
    }
  }

  lemma StepKeepsInv(s: State, s': State, t: Thread, a: Action)
    requires Inv(s) && Step(s, s', t, a)
    ensures Inv(s')
  {
    hide Inv, Subscribe, UnsubscribeBegin, UnsubscribeEnd, FireBegin, FireLock, FireCall, FireSkip, CallReturns, FireEnd;
    match a
    case DoSubscribe => SubscribeKeepsInv(s, s', t);
    case DoUnsubscribeUnknown(id) =>
    case DoUnsubscribeBegin(id) => UnsubscribeBeginKeepsInv(s, s', t, id);
    case DoUnsubscribeEnd => UnsubscribeEndKeepsInv(s, s', t);
    case DoFireBegin(snapshot) => FireBeginKeepsInv(s, s', t, snapshot);
    case DoFireLock => FireLockKeepsInv(s, s', t);
    case DoFireCall => FireCallKeepsInv(s, s', t);
    case DoFireSkip => FireSkipKeepsInv(s, s', t);
    case DoCallReturns => CallReturnsKeepsInv(s, s', t);
    case DoFireEnd => FireEndKeepsInv(s, s', t);
  }

  // ---------- runs ----------

  datatype Move = Move(thread: Thread, action: Action)

  /** An interleaving: states from an event without listeners on, one move between neighbours. */
  ghost predicate Run(states: seq<State>, moves: seq<Move>) {
    && |states| == |moves| + 1
    && Init(states[0])
    && forall k | 0 <= k < |moves| :: Step(states[k], states[k + 1], moves[k].thread, moves[k].action)
  }

  lemma RunKeepsInv(states: seq<State>, moves: seq<Move>, n: nat)
    requires Run(states, moves) && n < |states|
    ensures Inv(states[n])
  {
    if n == 0 {
    } else {
      RunKeepsInv(states, moves, n - 1);
      hide Inv, Init;
      StepKeepsInv(states[n - 1], states[n], moves[n - 1].thread, moves[n - 1].action);
    }
  }

  lemma StepGrows(s: State, s': State, t: Thread, a: Action)
    requires Inv(s) && Step(s, s', t, a)
    ensures Grows(s, s')
  {
  }

  lemma {:induction false} RunGrows(states: seq<State>, moves: seq<Move>, i: nat, j: nat)
    requires Run(states, moves) && i <= j < |states|
    ensures Grows(states[i], states[j])
    decreases j
  {
    if i < j {
      RunGrows(states, moves, i, j - 1);
      RunKeepsInv(states, moves, j - 1);
      StepGrows(states[j - 1], states[j], moves[j - 1].thread, moves[j - 1].action);
    }
  }

  /** The call of `id` starts in this move. */
  ghost predicate StartsCall(s: State, m: Move, id: Id) {
    m.action.DoFireCall? && OnTurn(s, m.thread, Checking) && Turn(Top(s, m.thread)) == id
  }

  /** Frame `f` is a running call of `id`. */
  ghost predicate IsCallOf(f: Frame, id: Id) {
    InCall(f) && |f.turns| < |f.snapshot| && Turn(f) == id
  }

  /** In every interleaving, once the Unsubscribe that removed a listener has returned, no call of it starts
      again, and a call of it still running is on the thread that unsubscribed it. */
  lemma NoCallAfterUnsubscribe(states: seq<State>, moves: seq<Move>, id: Id, i: nat, j: nat)
    requires Run(states, moves) && i <= j < |states|
    requires id in states[i].returned
    ensures j < |moves| ==> !StartsCall(states[j], moves[j], id)
    ensures id in states[i].removedBy
    ensures forall t, k | 0 <= k < |Stack(states[j], t)| && IsCallOf(Stack(states[j], t)[k], id) :: t == states[i].removedBy[id]
  {
    RunGrows(states, moves, i, j);
    RunKeepsInv(states, moves, i);
    RunKeepsInv(states, moves, j);
    var s := states[j];
    assert id in s.returned && s.removedBy[id] == states[i].removedBy[id];
    forall t, k | 0 <= k < |Stack(s, t)| && IsCallOf(Stack(s, t)[k], id)
      ensures t == s.removedBy[id]
    {
      assert CallOk(s, t, Stack(s, t)[k]);
    }
    if j < |moves| && moves[j].action.DoFireCall? {
      assert FireCall(s, states[j + 1], moves[j].thread);
    }
  }

  // ---------- what a fire calls ----------

  /** The frame goes through one step of its fire. */
  ghost predicate FrameMoves(f: Frame, g: Frame, a: Action) {
    f.Fire? && g.Fire? && g.snapshot == f.snapshot && |f.turns| < |f.snapshot|
    && match a
       case DoFireLock => f.phase == Locking && g.phase == Checking && g.turns == f.turns
       case DoFireCall => f.phase == Checking && g.phase == Calling && g.turns == f.turns
       case DoFireSkip => f.phase == Checking && g.phase == Locking && g.turns == f.turns + [false]
       case DoCallReturns => f.phase == Calling && g.phase == Locking && g.turns == f.turns + [true]
       case _ => false
  }

  predicate Begins(f: Frame) { f.Unsub? || (f.turns == [] && f.phase == Locking) }

  /** Where the frame at depth `h` of thread `u` comes from: it was there, or its thread moved it on, or began it. */
  lemma FrameComesFrom(s: State, s': State, t: Thread, a: Action, u: Thread, h: nat)
    requires Step(s, s', t, a) && h < |Stack(s', u)|
    ensures || (h < |Stack(s, u)| && Stack(s', u)[h] == Stack(s, u)[h])
            || (u == t && |Stack(s, t)| == |Stack(s', t)| == h + 1 && FrameMoves(Top(s, t), Stack(s', t)[h], a))
            || (u == t && |Stack(s, t)| == h && Begins(Stack(s', t)[h]))
    ensures u == t && h < |Stack(s, t)| && (a.DoFireCall? || a.DoFireSkip?) && h + 1 == |Stack(s, t)| ==>
              |Stack(s', t)| == h + 1 && FrameMoves(Top(s, t), Stack(s', t)[h], a)
  {
    match a
    case DoSubscribe => case DoUnsubscribeUnknown(_) => case DoUnsubscribeBegin(_) => case DoUnsubscribeEnd =>
    case DoFireBegin(_) => case DoFireLock => case DoFireCall => case DoFireSkip => case DoCallReturns => case DoFireEnd =>
  }

  /** In move `k` the fire at depth `h` of thread `t` decides turn `i`, and it still goes on in state `n`. */
  ghost predicate DecidesTurn(states: seq<State>, moves: seq<Move>, k: nat, n: nat, t: Thread, h: nat, i: nat) {
    && k < n < |states| == |moves| + 1
    && moves[k].thread == t && (moves[k].action.DoFireCall? || moves[k].action.DoFireSkip?)
    && |Stack(states[k], t)| == h + 1 && Top(states[k], t).Fire? && |Top(states[k], t).turns| == i
    && forall j | k <= j <= n :: |Stack(states[j], t)| > h
  }

  ghost predicate TurnDecided(states: seq<State>, moves: seq<Move>, n: nat, t: Thread, h: nat, i: nat) {
    exists k: nat :: DecidesTurn(states, moves, k, n, t, h, i)
  }

  /** The fire knows that it called, or passed over, the listener at turn `i`. */
  predicate Remembers(f: Frame, i: nat, called: bool) {
    f.Fire? && if i < |f.turns| then f.turns[i] == called else i == |f.turns| && f.phase == Calling && called
  }

  /** The listener is called if and only if it is alive at that very move: no Unsubscribe that removed it has returned. */
  lemma TurnIsDecided(states: seq<State>, moves: seq<Move>, k: nat, n: nat, t: Thread, h: nat, i: nat)
    requires Run(states, moves) && DecidesTurn(states, moves, k, n, t, h, i)
    ensures var f := Top(states[k], t);
            && i < |f.snapshot| && (moves[k].action.DoFireCall? <==> f.snapshot[i] !in states[k].returned)
            && f.snapshot[i] in states[k].entries
            && (states[k].entries[f.snapshot[i]].alive <==> f.snapshot[i] !in states[k].returned)
  {
    hide *;
    DecidesNow(states, moves, k, n, t, h, i);
    RunKeepsInv(states, moves, k);
    StepOfRun(states, moves, k);
    StepDecides(states[k], states[k + 1], t, moves[k].action);
  }

  lemma StepOfRun(states: seq<State>, moves: seq<Move>, k: nat)
    requires Run(states, moves) && k < |moves|
    ensures |states| == |moves| + 1 && Step(states[k], states[k + 1], moves[k].thread, moves[k].action)
  {
    hide Step, Init;
  }

  lemma DecidesNow(states: seq<State>, moves: seq<Move>, k: nat, n: nat, t: Thread, h: nat, i: nat)
    requires DecidesTurn(states, moves, k, n, t, h, i)
    ensures k < n < |states| == |moves| + 1
    ensures moves[k].thread == t && (moves[k].action.DoFireCall? || moves[k].action.DoFireSkip?)
    ensures |Stack(states[k], t)| == h + 1 && Top(states[k], t) == Stack(states[k], t)[h]
    ensures Top(states[k], t).Fire? && |Top(states[k], t).turns| == i
    ensures forall j | k <= j <= n :: |Stack(states[j], t)| > h
    ensures k + 1 < n ==> DecidesTurn(states, moves, k, n - 1, t, h, i)
  {
    hide Stack;
  }

  lemma StepDecides(s: State, s': State, t: Thread, a: Action)
    requires Inv(s) && Step(s, s', t, a) && (a.DoFireCall? || a.DoFireSkip?)
    ensures Stack(s, t) != []
    ensures var f := Top(s, t);
            && f.Fire? && |f.turns| < |f.snapshot|
            && var id := f.snapshot[|f.turns|];
               && id in s.entries && (a.DoFireCall? <==> s.entries[id].alive)
               && (s.entries[id].alive <==> id !in s.returned)
  {
    hide StacksOk, LocksOk, CallsOk;
  }

  lemma MovingRemembers(f: Frame, g: Frame, a: Action, i: nat, called: bool)
    requires FrameMoves(f, g, a)
    ensures Remembers(f, i, called) ==> Remembers(g, i, called)
    ensures |f.turns| == i && (a.DoFireCall? || a.DoFireSkip?) ==> Remembers(g, i, a.DoFireCall?)
    ensures g.snapshot == f.snapshot
  {
  }

  lemma {:induction false} TurnIsRemembered(states: seq<State>, moves: seq<Move>, k: nat, n: nat, t: Thread, h: nat, i: nat)
    requires Run(states, moves) && DecidesTurn(states, moves, k, n, t, h, i)
    ensures var f := Stack(states[n], t)[h];
            Remembers(f, i, moves[k].action.DoFireCall?) && f.snapshot == Top(states[k], t).snapshot
    decreases n
  {
    hide *;
    DecidesNow(states, moves, k, n, t, h, i);
    var s, m := states[n - 1], moves[n - 1];
    StepOfRun(states, moves, n - 1);
    FrameComesFrom(s, states[n], m.thread, m.action, t, h);
    if k + 1 < n {
      TurnIsRemembered(states, moves, k, n - 1, t, h, i);
    }
    if Stack(states[n], t)[h] != Stack(s, t)[h] || k + 1 == n {
      TopOf(s, t);
      MovingRemembers(Top(s, t), Stack(states[n], t)[h], m.action, i, moves[k].action.DoFireCall?);
    }
  }

  lemma TopOf(s: State, t: Thread)
    requires Stack(s, t) != []
    ensures Top(s, t) == Stack(s, t)[|Stack(s, t)| - 1]
  {
    hide Stack;
  }

  /** The fire has called, or passed over, the listener at turn `i`. */
  predicate IsPast(f: Frame, i: nat) { f.Fire? && (i < |f.turns| || (i == |f.turns| && f.phase == Calling)) }

  /** Every turn a fire is past was decided in some move of it. */
  lemma {:induction false} TurnWasDecided(states: seq<State>, moves: seq<Move>, n: nat, t: Thread, h: nat, i: nat)
    returns (k: nat)
    requires Run(states, moves) && n < |states| && h < |Stack(states[n], t)|
    requires IsPast(Stack(states[n], t)[h], i)
    ensures DecidesTurn(states, moves, k, n, t, h, i)
    decreases n
  {
    var s, m := states[n - 1], moves[n - 1];
    assert Step(s, states[n], m.thread, m.action);
    FrameComesFrom(s, states[n], m.thread, m.action, t, h);
    hide Step, Stack, Run;
    var g := Stack(s, t)[h];
    if IsPast(g, i) {
      k := TurnWasDecided(states, moves, n - 1, t, h, i);
      DecidesLonger(states, moves, k, n - 1, t, h, i);
    } else {
      k := n - 1;
    }
  }

  lemma DecidesLonger(states: seq<State>, moves: seq<Move>, k: nat, n: nat, t: Thread, h: nat, i: nat)
    requires DecidesTurn(states, moves, k, n, t, h, i) && n + 1 < |states| && |Stack(states[n + 1], t)| > h
    ensures DecidesTurn(states, moves, k, n + 1, t, h, i)
  {
    hide Stack;
  }

  /** The fire has called, in the order they subscribed and once each, exactly the listeners of its true turns. */
  ghost predicate Exact(f: Frame, returned: set<Id>) {
    && f.Fire? && |f.turns| == |f.snapshot|
    && Ascending(f.called)
    && (forall i | 0 <= i < |f.snapshot| :: f.turns[i] <==> f.snapshot[i] in f.called)
    && (forall id | id in f.called :: id in f.snapshot)
    && (forall id | id in f.snapshot && id !in f.called :: id in returned)
  }

  /** In every interleaving, a fire that ends has decided every turn of its snapshot in a move of its own, and called
      the listener, in the order they subscribed and once, if and only if it was alive in the state of that move: no
      Unsubscribe that removed it had returned. */
  lemma FireIsExact(states: seq<State>, moves: seq<Move>, n: nat)
    requires Run(states, moves) && n < |moves| && moves[n].action == DoFireEnd
    ensures var t := moves[n].thread;
            Stack(states[n], t) != [] && Exact(Top(states[n], t), states[n].returned)
    ensures var t := moves[n].thread; var f, h := Top(states[n], t), |Stack(states[n], t)| - 1;
            forall i: nat | i < |f.snapshot| :: TurnDecided(states, moves, n, t, h, i)
    ensures var t := moves[n].thread; var f, h := Top(states[n], t), |Stack(states[n], t)| - 1;
            forall i: nat, k: nat | DecidesTurn(states, moves, k, n, t, h, i) ::
              i < |f.snapshot| && (f.snapshot[i] in f.called <==> f.snapshot[i] !in states[k].returned)
  {
    var s, t := states[n], moves[n].thread;
    assert FireEnd(s, states[n + 1], t);
    CallsAreExact(states, moves, n);
    var f, h := Top(s, t), |Stack(s, t)| - 1;
    assert f == Stack(s, t)[h];
    hide Run, Step, Stack, FireEnd, DecidesTurn;
    forall i: nat | i < |f.snapshot| ensures TurnDecided(states, moves, n, t, h, i) {
      var k := TurnWasDecided(states, moves, n, t, h, i);
      assert DecidesTurn(states, moves, k, n, t, h, i);
    }
    forall i: nat, k: nat | DecidesTurn(states, moves, k, n, t, h, i)
      ensures i < |f.snapshot| && (f.snapshot[i] in f.called <==> f.snapshot[i] !in states[k].returned)
    {
      TurnIsDecided(states, moves, k, n, t, h, i);
      TurnIsRemembered(states, moves, k, n, t, h, i);
    }
  }

  lemma CallsAreExact(states: seq<State>, moves: seq<Move>, n: nat)
    requires Run(states, moves) && n < |moves| && moves[n].action == DoFireEnd
    ensures Stack(states[n], moves[n].thread) != [] && Exact(Top(states[n], moves[n].thread), states[n].returned)
  {
    var s, t := states[n], moves[n].thread;
    assert FireEnd(s, states[n + 1], t);
    RunKeepsInv(states, moves, n);
    TopFrame(s, t);
    var f := Top(s, t);
    CallsAreTheTrueTurns(f.snapshot, f.turns);
    forall id | id in f.snapshot && id !in f.called
      ensures id in s.returned
    {
      var i :| 0 <= i < |f.snapshot| && f.snapshot[i] == id;
      assert !f.turns[i];
    }
  }

  lemma {:induction false} CallsAreTurns(snapshot: seq<Id>, turns: seq<bool>)
    requires |turns| <= |snapshot|
    ensures forall id | id in CallsOf(snapshot, turns) :: exists i | 0 <= i < |turns| :: snapshot[i] == id && turns[i]
    decreases |turns|
  {
    if turns != [] {
      var n := |turns| - 1;
      CallsAreTurns(snapshot, turns[..n]);
      forall id | id in CallsOf(snapshot, turns)
        ensures exists i | 0 <= i < |turns| :: snapshot[i] == id && turns[i]
      {
        if id in CallsOf(snapshot, turns[..n]) {
          var i :| 0 <= i < n && snapshot[i] == id && turns[..n][i];
          assert turns[i];
        } else {
          assert snapshot[n] == id && turns[n];
        }
      }
    }
  }

  lemma {:induction false} CallsAscend(snapshot: seq<Id>, turns: seq<bool>)
    requires |turns| <= |snapshot| && Ascending(snapshot)
    ensures Ascending(CallsOf(snapshot, turns))
    decreases |turns|
  {
    if turns != [] {
      var n := |turns| - 1;
      CallsAscend(snapshot, turns[..n]);
      var before := CallsOf(snapshot, turns[..n]);
      CallsAreTurns(snapshot, turns[..n]);
      forall k | 0 <= k < |before|
        ensures before[k] < snapshot[n]
      {
        assert before[k] in before;
      }
    }
  }

  lemma {:induction false} TrueTurnsAreCalled(snapshot: seq<Id>, turns: seq<bool>, i: nat)
    requires i < |turns| <= |snapshot| && turns[i]
    ensures snapshot[i] in CallsOf(snapshot, turns)
    decreases |turns|
  {
    var n := |turns| - 1;
    if i < n {
      TrueTurnsAreCalled(snapshot, turns[..n], i);
    }
  }

  lemma CallsAreTheTrueTurns(snapshot: seq<Id>, turns: seq<bool>)
    requires |turns| <= |snapshot| && Ascending(snapshot)
    ensures var called := CallsOf(snapshot, turns);
            && Ascending(called)
            && (forall i | 0 <= i < |turns| :: turns[i] <==> snapshot[i] in called)
            && (forall id | id in called :: exists i | 0 <= i < |turns| :: snapshot[i] == id)
  {
    hide CallsOf;
    CallsAreTurns(snapshot, turns);
    CallsAscend(snapshot, turns);
    forall i | 0 <= i < |turns|
      ensures turns[i] <==> snapshot[i] in CallsOf(snapshot, turns)
    {
      if turns[i] {
        TrueTurnsAreCalled(snapshot, turns, i);
      }
      if snapshot[i] in CallsOf(snapshot, turns) {
        var k :| 0 <= k < |turns| && snapshot[k] == snapshot[i] && turns[k];
        assert k == i;
      }
    }
  }
}
