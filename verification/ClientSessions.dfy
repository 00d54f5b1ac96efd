/** The blocking queue of outgoing packets, and a client's sessions over it: one reading and one writing thread per
    session, started and stopped under a mutex by threads other than these two. */
module ClientSessions {
  import opened Wrappers

  datatype Packet = Packet(bytes: seq<bv8>)

  // ---------- the queue ----------

  function Appended<T>(queue: seq<T>, x: T): seq<T> { queue + [x] }

  /** What a thread takes: the oldest element, or nothing from a closed queue, which keeps what it holds. */
  function TakenFrom<T>(queue: seq<T>, closed: bool): Option<T>
    requires queue != [] || closed
  {
    if closed then None else Some(queue[0])
  }

  function LeftIn<T>(queue: seq<T>, closed: bool): seq<T>
    requires queue != [] || closed
  {
    if closed then queue else queue[1..]
  }

  class BlockingQueue<T> {
    var queue: seq<T>
    var isClosed: bool

    constructor ()
      ensures queue == [] && !isClosed
    {
      queue, isClosed := [], false;
    }

    method Put(newValue: T)
      modifies this
      ensures queue == Appended(old(queue), newValue) && isClosed == old(isClosed)
    {
      queue := queue + [newValue];
    }

    /** Woken: there is something to take, or the queue is closed. */
    method Take() returns (value: Option<T>)
      requires queue != [] || isClosed
      modifies this
      ensures isClosed == old(isClosed)
      ensures value == TakenFrom(old(queue), old(isClosed)) && queue == LeftIn(old(queue), old(isClosed))
    {
      if isClosed {
        return None;
      }
      value := Some(queue[0]);
      queue := queue[1..];
    }

    method Close()
      modifies this
      ensures isClosed && queue == old(queue)
    {
      isClosed := true;
    }

    method Reopen()
      modifies this
      ensures queue == [] && !isClosed
    {
      queue := [];
      isClosed := false;
    }
  }

  // ---------- sessions ----------

  type SocketId = nat

  datatype WriterPc = WCheck | WTake | WSend(data: Packet) | WDone
  datatype ReaderPc = RCheck | RReceive | RFire | RLeave | REnded | RClosedEvent | RDone

  /** A thread of the session that opened `own`. */
  datatype Writer = Writer(own: SocketId, pc: WriterPc)
  datatype Reader = Reader(own: SocketId, pc: ReaderPc)

  /** Where the holder of the start/stop mutex is; `thenStart` marks the clean-up Start itself does. */
  datatype Control =
    | Free
    | Starting                       // to set the started flag
    | Connecting(left: int)          // attempts left
    | Connected                      // to join, reopen the queue and start the threads
    | Reopened
    | WriterStarted
    | Stopping(thenStart: bool)      // started flag cleared, to shut the socket down
    | ShutDown(thenStart: bool)      // to close the queue
    | QueueClosed(thenStart: bool)   // to join the writer
    | WriterJoined(thenStart: bool)  // to join the reader
    | ReaderJoined(thenStart: bool)  // to close the socket

  datatype State = State(
    started: bool,
    ended: bool,
    socket: Option<SocketId>,
    control: Control,
    writer: Option<Writer>,
    reader: Option<Reader>,
    queue: seq<Packet>,
    closed: bool,
    // history
    open: set<SocketId>,
    nextSocket: SocketId,
    puts: seq<Packet>,               // put since the queue was last reopened
    wire: seq<Packet>                // sent since then
  )

  const Start0 := State(false, false, None, Free, None, None, [], false, {}, 0, [], [])

  const ATTEMPTS := 3

  datatype Action =
    | Put(data: Packet)
    | CallStart(supported: bool)
    | SetStarted
    | Attempt(opens: bool, connects: bool)  // the attempt gets a socket; it connects
    | JoinAndReopen
    | StartWriter
    | StartReader
    | CallStop
    | DoShutdown
    | DoCloseQueue
    | JoinWriter
    | JoinReader
    | CloseSocket
    | WriterCheck
    | WriterTake
    | WriterSend
    | ReaderCheck
    | ReaderReceived(more: bool)            // recv returned bytes; false: closed, or an error
    | ReaderFired
    | ReaderLeaves
    | ReaderEnds
    | ReaderTells

  predicate WriterAt(s: State, pc: WriterPc) { s.writer.Some? && s.writer.value.pc == pc }

  predicate ReaderAt(s: State, pc: ReaderPc) { s.reader.Some? && s.reader.value.pc == pc }

  predicate Enabled(s: State, a: Action) {
    match a
    case Put(_) => true
    case CallStart(_) => s.control == Free
    case SetStarted => s.control == Starting
    case Attempt(opens, connects) => s.control.Connecting? && (connects ==> opens)
    case JoinAndReopen => s.control == Connected && (s.writer.Some? ==> WriterAt(s, WDone)) && (s.reader.Some? ==> ReaderAt(s, RDone))
    case StartWriter => s.control == Reopened && s.socket.Some?
    case StartReader => s.control == WriterStarted && s.socket.Some?
    case CallStop => s.control == Free
    case DoShutdown => s.control.Stopping?
    case DoCloseQueue => s.control.ShutDown?
    case JoinWriter => s.control.QueueClosed? && (s.writer.Some? ==> WriterAt(s, WDone))
    case JoinReader => s.control.WriterJoined? && (s.reader.Some? ==> ReaderAt(s, RDone))
    case CloseSocket => s.control.ReaderJoined?
    case WriterCheck => WriterAt(s, WCheck)
    case WriterTake => WriterAt(s, WTake) && (s.queue != [] || s.closed)
    case WriterSend => s.writer.Some? && s.writer.value.pc.WSend?
    case ReaderCheck => ReaderAt(s, RCheck)
    case ReaderReceived(_) => ReaderAt(s, RReceive)
    case ReaderFired => ReaderAt(s, RFire)
    case ReaderLeaves => ReaderAt(s, RLeave)
    case ReaderEnds => ReaderAt(s, REnded)
    case ReaderTells => ReaderAt(s, RClosedEvent)
  }

  function WriterTo(s: State, pc: WriterPc): State
    requires s.writer.Some?
  {
    s.(writer := Some(s.writer.value.(pc := pc)))
  }

  function ReaderTo(s: State, pc: ReaderPc): State
    requires s.reader.Some?
  {
    s.(reader := Some(s.reader.value.(pc := pc)))
  }

  function Apply(s: State, a: Action): State
    requires Enabled(s, a)
  {
    match a
    case Put(data) => s.(queue := Appended(s.queue, data), puts := s.puts + [data])
    case CallStart(supported) =>
      if s.started && !s.ended then s
      else if s.started then s.(started := false, control := Stopping(supported))
      else if supported then s.(control := Starting)
      else s
    case SetStarted => s.(started := true, control := Connecting(ATTEMPTS))
    case Attempt(opens, connects) =>
      var left := s.control.left - 1;
      var tried := if opens then s.(socket := Some(s.nextSocket), nextSocket := s.nextSocket + 1, open := s.open + {s.nextSocket})
                    else s.(socket := None);
      if connects then tried.(control := Connected)
      else
        // every failed attempt closes its socket
        var shut := tried.(socket := None, open := if tried.socket.Some? then tried.open - {tried.socket.value} else tried.open);
        if left <= 0 then shut.(started := false, control := Free) else shut.(control := Connecting(left))
    case JoinAndReopen => s.(writer := None, reader := None, queue := [], closed := false, puts := [], wire := [], control := Reopened)
    case StartWriter => s.(writer := Some(Writer(s.socket.value, WCheck)), control := WriterStarted)
    case StartReader => s.(reader := Some(Reader(s.socket.value, RCheck)), control := Free)
    case CallStop => if s.started then s.(started := false, control := Stopping(false)) else s
    case DoShutdown => s.(control := ShutDown(s.control.thenStart))
    case DoCloseQueue => s.(closed := true, control := QueueClosed(s.control.thenStart))
    case JoinWriter => s.(writer := None, control := WriterJoined(s.control.thenStart))
    case JoinReader => s.(reader := None, control := ReaderJoined(s.control.thenStart))
    case CloseSocket =>
      s.(socket := None, open := if s.socket.Some? then s.open - {s.socket.value} else s.open, ended := false,
         control := if s.control.thenStart then Starting else Free)
    case WriterCheck => WriterTo(s, if s.started then WTake else WDone)
    case WriterTake =>
      var left := s.(queue := LeftIn(s.queue, s.closed));
      match TakenFrom(s.queue, s.closed)
      {
        case None => WriterTo(left, WDone)
        case Some(data) => WriterTo(left, WSend(data))
      }
    case WriterSend => WriterTo(s, WCheck).(wire := s.wire + [s.writer.value.pc.data])
    case ReaderCheck => ReaderTo(s, if s.started then RReceive else RLeave)
    case ReaderReceived(more) => ReaderTo(s, if more then RFire else RLeave)
    case ReaderFired => ReaderTo(s, RCheck)
    case ReaderLeaves => ReaderTo(s, if s.started then REnded else RDone)
    case ReaderEnds => ReaderTo(s, RClosedEvent).(ended := true)
    case ReaderTells => ReaderTo(s, RDone)
  }

  /** The socket this action uses, if it uses one: what `_socket` holds at that moment. */
  function Touches(s: State, a: Action): Option<Option<SocketId>>
    requires Enabled(s, a)
  {
    match a
    case WriterSend => Some(s.socket)
    case ReaderCheck => if s.started then Some(s.socket) else None  // goes into recv
    case ReaderReceived(_) => Some(s.socket)
    case _ => None
  }

  /** The session's own socket of the thread that does it. */
  function Own(s: State, a: Action): Option<SocketId>
    requires Enabled(s, a)
  {
    match a
    case WriterSend => Some(s.writer.value.own)
    case ReaderCheck => Some(s.reader.value.own)
    case ReaderReceived(_) => Some(s.reader.value.own)
    case _ => None
  }

  // ---------- the invariant ----------

  /** The control steps between which threads may be about. */
  predicate ThreadsMayLive(c: Control) {
    c.Free? || c.WriterStarted? || c.Stopping? || c.ShutDown? || c.QueueClosed? || c.WriterJoined?
  }

  predicate StopsSession(c: Control) {
    c.Starting? || c.Stopping? || c.ShutDown? || c.QueueClosed? || c.WriterJoined? || c.ReaderJoined?
  }

  ghost predicate ThreadsOk(s: State) {
    && (s.writer.Some? ==> ThreadsMayLive(s.control) && s.socket == Some(s.writer.value.own) && s.writer.value.own in s.open)
    && (s.reader.Some? ==> ThreadsMayLive(s.control) && s.socket == Some(s.reader.value.own) && s.reader.value.own in s.open)
    && (s.control.WriterJoined? ==> s.writer == None)
    && (s.control.Free? && !s.started ==> s.writer == None && s.reader == None && s.socket == None)
    && (s.control.Free? && s.started ==> s.writer.Some? && s.reader.Some?)
    && (s.control.Connected? || s.control.Reopened? || s.control.WriterStarted? ==> s.socket.Some? && s.socket.value in s.open)
    && (s.control.Starting? || s.control.Connecting? ==> s.socket == None)
    && (s.control.WriterStarted? ==> s.writer.Some?)
    && (!s.control.Free? ==> (s.started <==> !StopsSession(s.control)))
    && (forall k | k in s.open :: k < s.nextSocket)
  }

  function InHand(s: State): seq<Packet> {
    if s.writer.Some? && s.writer.value.pc.WSend? then [s.writer.value.pc.data] else []
  }

  /** Nothing put since the last reopening is lost or reordered: sent, in the writer's hand, or queued. */
  ghost predicate PacketsOk(s: State) {
    s.wire + InHand(s) + s.queue == s.puts
  }

  ghost predicate Inv(s: State) {
    ThreadsOk(s) && PacketsOk(s)
  }

  predicate StartAction(a: Action) {
    a.CallStart? || a.SetStarted? || a.Attempt? || a.JoinAndReopen? || a.StartWriter? || a.StartReader?
  }

  predicate StopAction(a: Action) {
    a.CallStop? || a.DoShutdown? || a.DoCloseQueue? || a.JoinWriter? || a.JoinReader? || a.CloseSocket?
  }

  lemma StartKeepsThreads(s: State, a: Action)
    requires ThreadsOk(s) && Enabled(s, a) && StartAction(a)
    ensures ThreadsOk(Apply(s, a))
  {
  }

  lemma StopKeepsThreads(s: State, a: Action)
    requires ThreadsOk(s) && Enabled(s, a) && StopAction(a)
    ensures ThreadsOk(Apply(s, a))
  {
  }

  lemma ThreadsKeepThreads(s: State, a: Action)
    requires ThreadsOk(s) && Enabled(s, a) && !StartAction(a) && !StopAction(a)
    ensures ThreadsOk(Apply(s, a))
  {
  }

  lemma StepKeepsThreads(s: State, a: Action)
    requires ThreadsOk(s) && Enabled(s, a)
    ensures ThreadsOk(Apply(s, a))
  {
    hide ThreadsOk, Apply, Enabled;
    if StartAction(a) {
      StartKeepsThreads(s, a);
    } else if StopAction(a) {
      StopKeepsThreads(s, a);
    } else {
      ThreadsKeepThreads(s, a);
    }
  }

  lemma StepKeepsPackets(s: State, a: Action)
    requires Inv(s) && Enabled(s, a)
    ensures PacketsOk(Apply(s, a))
  {
    var s' := Apply(s, a);
    match a
    case Put(data) =>
      assert s.wire + InHand(s) + (s.queue + [data]) == s.wire + InHand(s) + s.queue + [data];
    case JoinAndReopen =>
    case StartWriter => assert InHand(s) == [] == InHand(s');
    case JoinWriter => assert InHand(s) == [] == InHand(s');
    case WriterTake =>
      if !s.closed {
        assert s.wire + [] + s.queue == s.wire + [s.queue[0]] + s.queue[1..];
      }
    case WriterSend =>
      assert s.wire + [s.writer.value.pc.data] + [] + s.queue == s.wire + [s.writer.value.pc.data] + s.queue;
    case _ => assert InHand(s') == InHand(s) && s'.queue == s.queue && s'.puts == s.puts && s'.wire == s.wire;
  }

  /** A run from an unused client. */
  ghost predicate Run(states: seq<State>, actions: seq<Action>) {
    && |states| == |actions| + 1
    && states[0] == Start0
    && forall k | 0 <= k < |actions| :: Enabled(states[k], actions[k]) && states[k + 1] == Apply(states[k], actions[k])
  }

  lemma {:induction false} RunKeepsInv(states: seq<State>, actions: seq<Action>, n: nat)
    requires Run(states, actions) && n < |states|
    ensures Inv(states[n])
    decreases n
  {
    if n > 0 {
      RunKeepsInv(states, actions, n - 1);
      StepKeepsThreads(states[n - 1], actions[n - 1]);
      StepKeepsPackets(states[n - 1], actions[n - 1]);
    }
  }

  /** In every run, a reader or writer only uses the socket its own session opened, and never after its close. */
  lemma ThreadsUseTheirOwnOpenSocket(states: seq<State>, actions: seq<Action>, n: nat)
    requires Run(states, actions) && n < |actions|
    ensures var s, a := states[n], actions[n];
            Touches(s, a).Some? ==> Touches(s, a) == Some(Own(s, a)) && Own(s, a).Some? && Own(s, a).value in s.open
  {
    RunKeepsInv(states, actions, n);
  }

  /** What a session sends is, in order, a prefix of what was put since its queue was reopened. */
  lemma SentIsAPrefixOfPut(states: seq<State>, actions: seq<Action>, n: nat)
    requires Run(states, actions) && n < |states|
    ensures states[n].wire + InHand(states[n]) <= states[n].puts
  {
    RunKeepsInv(states, actions, n);
  }

  /** The puts and the wire of a session only grow until the next reopening. */
  lemma {:induction false} SessionsLogGrows(states: seq<State>, actions: seq<Action>, i: nat, j: nat)
    requires Run(states, actions) && i <= j < |states|
    requires forall k | i <= k < j :: actions[k] != JoinAndReopen
    ensures states[i].puts <= states[j].puts && states[i].wire <= states[j].wire
    decreases j
  {
    if i < j {
      SessionsLogGrows(states, actions, i, j - 1);
      StepKeepsLog(states[j - 1], actions[j - 1]);
    }
  }

  lemma StepKeepsLog(s: State, a: Action)
    requires Enabled(s, a) && a != JoinAndReopen
    ensures s.puts <= Apply(s, a).puts && s.wire <= Apply(s, a).wire
  {
    match a
    case Put(_) =>
    case WriterSend =>
    case _ =>
  }

  // ---------- what a start comes to ----------

  /** A session the other side closed is marked so before its reader is done. */
  ghost predicate EndIsMarked(s: State) {
    s.started && (ReaderAt(s, RClosedEvent) || ReaderAt(s, RDone)) ==> s.ended
  }

  lemma StepMarksEnd(s: State, a: Action)
    requires Inv(s) && EndIsMarked(s) && Enabled(s, a)
    ensures EndIsMarked(Apply(s, a))
  {
    hide PacketsOk;
    match a
    case Put(_) => case CallStart(_) => case SetStarted => case Attempt(_, _) => case JoinAndReopen => case StartWriter =>
    case StartReader => case CallStop => case DoShutdown => case DoCloseQueue => case JoinWriter => case JoinReader =>
    case CloseSocket => case WriterCheck => case WriterTake => case WriterSend => case ReaderCheck =>
    case ReaderReceived(_) => case ReaderFired => case ReaderLeaves => case ReaderEnds => case ReaderTells =>
  }

  lemma {:induction false} RunMarksEnd(states: seq<State>, actions: seq<Action>, n: nat)
    requires Run(states, actions) && n < |states|
    ensures EndIsMarked(states[n])
    decreases n
  {
    if n > 0 {
      RunStep(states, actions, n - 1);
      hide Run, Apply, Enabled, Inv, EndIsMarked;
      RunMarksEnd(states, actions, n - 1);
      RunKeepsInv(states, actions, n - 1);
      StepMarksEnd(states[n - 1], actions[n - 1]);
    } else {
      assert states[0] == Start0 by { hide Apply, Enabled; }
      hide Run;
    }
  }

  lemma RunStep(states: seq<State>, actions: seq<Action>, k: nat)
    requires Run(states, actions) && k + 1 < |states|
    ensures |states| == |actions| + 1 && Enabled(states[k], actions[k]) && states[k + 1] == Apply(states[k], actions[k])
  {
    hide Apply, Enabled;
  }

  /** In every run: a start finds a living session and leaves it alone, or it finds one whose reader is done, or none, and
      sets out for a new one. */
  lemma StartSetsOutIff(states: seq<State>, actions: seq<Action>, n: nat)
    requires Run(states, actions) && n < |actions| && actions[n] == CallStart(true)
    ensures var s, t := states[n], states[n + 1];
            && (!s.started || ReaderAt(s, RDone) ==> t.control == Stopping(true) || t.control == Starting)
            && (s.started && !s.ended ==> t == s && s.socket.Some? && s.reader.Some? && s.writer.Some?)
  {
    RunStep(states, actions, n);
    RunMarksEnd(states, actions, n);
    RunKeepsInv(states, actions, n);
    hide Run, PacketsOk;
  }

  /** How many attempts to connect `actions[i..j]` holds. */
  function Attempts(actions: seq<Action>, i: nat, j: nat): nat
    requires i <= j <= |actions|
  {
    if i == j then 0 else Attempts(actions, i, j - 1) + if actions[j - 1].Attempt? then 1 else 0
  }

  /** How far the start that set out in move `i` has come in state `s`, after so many attempts. */
  predicate StartHasComeTo(s: State, attempts: nat) {
    match s.control
    case Stopping(again) => again && attempts == 0
    case ShutDown(again) => again && attempts == 0
    case QueueClosed(again) => again && attempts == 0
    case WriterJoined(again) => again && attempts == 0
    case ReaderJoined(again) => again && attempts == 0
    case Starting => attempts == 0
    case Connecting(left) => s.started && attempts + left == 3 && left > 0
    case Connected => s.started && 1 <= attempts <= 3
    case Reopened => s.started && 1 <= attempts <= 3
    case WriterStarted => s.started && 1 <= attempts <= 3
    case Free => false
  }

  /** The start is over: a session runs after at most three attempts, or three attempts failed. */
  predicate StartIsOver(s: State, attempts: nat) {
    s.control == Free && if s.started then s.reader.Some? && s.writer.Some? && 1 <= attempts <= 3 else attempts == 3 && s.socket == None
  }

  lemma StartMovesOn(s: State, a: Action, attempts: nat)
    requires Inv(s) && Enabled(s, a) && StartHasComeTo(s, attempts)
    ensures var t, more := Apply(s, a), attempts + if a.Attempt? then 1 else 0;
            StartHasComeTo(t, more) || StartIsOver(t, more)
  {
    hide PacketsOk;
    match a
    case Put(_) => case CallStart(_) => case SetStarted => case Attempt(_, _) => case JoinAndReopen => case StartWriter =>
    case StartReader => case CallStop => case DoShutdown => case DoCloseQueue => case JoinWriter => case JoinReader =>
    case CloseSocket => case WriterCheck => case WriterTake => case WriterSend => case ReaderCheck =>
    case ReaderReceived(_) => case ReaderFired => case ReaderLeaves => case ReaderEnds => case ReaderTells =>
  }

  /** In every run: a start that set out ends with a new session, after one to three attempts to connect, or without one
      after three. */
  lemma {:induction false} StartComesTo(states: seq<State>, actions: seq<Action>, i: nat, j: nat)
    requires Run(states, actions) && i < j < |states| && actions[i] == CallStart(true)
    requires forall k | i < k < j :: states[k].control != Free
    requires states[i + 1].control != Free
    ensures var attempts := Attempts(actions, i + 1, j);
            if states[j].control == Free then StartIsOver(states[j], attempts) else StartHasComeTo(states[j], attempts)
    decreases j
  {
    hide *;
    RunStep(states, actions, j - 1);
    if i + 1 < j {
      StartComesTo(states, actions, i, j - 1);
      RunKeepsInv(states, actions, j - 1);
      StartMovesOn(states[j - 1], actions[j - 1], Attempts(actions, i + 1, j - 1));
      OneMoreAttempt(actions, i + 1, j);
    } else {
      NoAttempt(actions, j);
      StartSetsOut(states[i], states[j]);
    }
    OverIsFree(states[j], Attempts(actions, i + 1, j));
  }

  lemma OneMoreAttempt(actions: seq<Action>, i: nat, j: nat)
    requires i < j <= |actions|
    ensures Attempts(actions, i, j) == Attempts(actions, i, j - 1) + if actions[j - 1].Attempt? then 1 else 0
  {
  }

  lemma NoAttempt(actions: seq<Action>, j: nat)
    requires j <= |actions|
    ensures Attempts(actions, j, j) == 0
  {
  }

  lemma StartSetsOut(s: State, t: State)
    requires Enabled(s, CallStart(true)) && t == Apply(s, CallStart(true)) && t.control != Free
    ensures StartHasComeTo(t, 0)
  {
  }

  lemma OverIsFree(s: State, attempts: nat)
    ensures StartIsOver(s, attempts) ==> s.control == Free
    ensures StartHasComeTo(s, attempts) ==> s.control != Free
  {
  }

  // ---------- no socket leaks ----------

  ghost predicate OneSocket(s: State) {
    s.open == if s.socket.Some? then {s.socket.value} else {}
  }

  lemma StepKeepsOneSocket(s: State, a: Action)
    requires Inv(s) && OneSocket(s) && Enabled(s, a)
    ensures OneSocket(Apply(s, a))
  {
    hide PacketsOk;
    match a
    case Put(_) => case CallStart(_) => case SetStarted => case Attempt(_, _) => case JoinAndReopen => case StartWriter =>
    case StartReader => case CallStop => case DoShutdown => case DoCloseQueue => case JoinWriter => case JoinReader =>
    case CloseSocket => case WriterCheck => case WriterTake => case WriterSend => case ReaderCheck =>
    case ReaderReceived(_) => case ReaderFired => case ReaderLeaves => case ReaderEnds => case ReaderTells =>
  }

  /** In every run, the client's one socket, if it has one, is the only one open: whatever was opened before, for a failed
      attempt or another session, was closed. */
  lemma {:induction false} OnlyItsSocketIsOpen(states: seq<State>, actions: seq<Action>, n: nat)
    requires Run(states, actions) && n < |states|
    ensures OneSocket(states[n])
    decreases n
  {
    if n > 0 {
      hide *;
      RunStep(states, actions, n - 1);
      OnlyItsSocketIsOpen(states, actions, n - 1);
      RunKeepsInv(states, actions, n - 1);
      StepKeepsOneSocket(states[n - 1], actions[n - 1]);
    } else {
      assert states[0] == Start0 by { hide Apply, Enabled; }
      hide Run;
    }
  }

  // ---------- nobody is stuck ----------

  /** What is left to do for the holder of the start/stop mutex. */
  function StepsLeft(c: Control): int {
    match c
    case Stopping(again) => if again then 25 else 5
    case ShutDown(again) => if again then 24 else 4
    case QueueClosed(again) => if again then 23 else 3
    case WriterJoined(again) => if again then 22 else 2
    case ReaderJoined(again) => if again then 21 else 1
    case Starting => 20
    case Connecting(left) => 10 + left
    case Connected => 9
    case Reopened => 8
    case WriterStarted => 7
    case Free => 0
  }

  /** A move of the holder of the mutex, once it holds it. */
  predicate ControlAction(a: Action) {
    a.SetStarted? || a.Attempt? || a.JoinAndReopen? || a.StartWriter? || a.StartReader?
    || a.DoShutdown? || a.DoCloseQueue? || a.JoinWriter? || a.JoinReader? || a.CloseSocket?
  }

  predicate ThreadAction(a: Action) {
    a.WriterCheck? || a.WriterTake? || a.WriterSend?
    || a.ReaderCheck? || a.ReaderReceived? || a.ReaderFired? || a.ReaderLeaves? || a.ReaderEnds? || a.ReaderTells?
  }

  /** Every move of a start or stop brings it nearer to its end. */
  lemma ControlAdvances(s: State, a: Action)
    requires Enabled(s, a) && ControlAction(a) && (s.control.Connecting? ==> s.control.left > 0)
    ensures 0 <= StepsLeft(Apply(s, a).control) < StepsLeft(s.control)
  {
  }

  ghost predicate ClosedWhileJoining(s: State) { s.control.QueueClosed? || s.control.WriterJoined? ==> s.closed }

  lemma {:induction false} RunClosesFirst(states: seq<State>, actions: seq<Action>, n: nat)
    requires Run(states, actions) && n < |states|
    ensures ClosedWhileJoining(states[n])
    decreases n
  {
    if n > 0 {
      hide *;
      RunStep(states, actions, n - 1);
      RunClosesFirst(states, actions, n - 1);
      StepClosesFirst(states[n - 1], actions[n - 1]);
    } else {
      assert states[0] == Start0 by { hide Apply, Enabled; }
      hide Run;
    }
  }

  lemma StepClosesFirst(s: State, a: Action)
    requires ClosedWhileJoining(s) && Enabled(s, a)
    ensures ClosedWhileJoining(Apply(s, a))
  {
    match a
    case Put(_) => case CallStart(_) => case SetStarted => case Attempt(_, _) => case JoinAndReopen => case StartWriter =>
    case StartReader => case CallStop => case DoShutdown => case DoCloseQueue => case JoinWriter => case JoinReader =>
    case CloseSocket => case WriterCheck => case WriterTake => case WriterSend => case ReaderCheck =>
    case ReaderReceived(_) => case ReaderFired => case ReaderLeaves => case ReaderEnds => case ReaderTells =>
  }

  ghost predicate SomethingMoves(s: State) {
    exists a: Action :: Enabled(s, a) && (ControlAction(a) || ThreadAction(a))
  }

  /** In every reachable state in which a start or stop is under way, it can go on, or a thread it waits for can. */
  lemma NobodyIsStuck(states: seq<State>, actions: seq<Action>, n: nat)
    requires Run(states, actions) && n < |states| && states[n].control != Free
    ensures SomethingMoves(states[n])
  {
    RunKeepsInv(states, actions, n);
    RunClosesFirst(states, actions, n);
    hide Run, PacketsOk;
    ControlOrThreadMoves(states[n]);
  }

  lemma ControlOrThreadMoves(s: State)
    requires Inv(s) && ClosedWhileJoining(s) && s.control != Free
    ensures SomethingMoves(s)
  {
    hide PacketsOk;
    match s.control
    case Starting => assert Enabled(s, SetStarted);
    case Connecting(_) => assert Enabled(s, Attempt(false, false));
    case Connected => assert Enabled(s, JoinAndReopen);
    case Reopened => assert Enabled(s, StartWriter);
    case WriterStarted => assert Enabled(s, StartReader);
    case Stopping(_) => assert Enabled(s, DoShutdown);
    case ShutDown(_) => assert Enabled(s, DoCloseQueue);
    case ReaderJoined(_) => assert Enabled(s, CloseSocket);
    case QueueClosed(_) =>
      if s.writer == None || WriterAt(s, WDone) {
        assert Enabled(s, JoinWriter);
      } else {
        WriterMoves(s);
      }
    case WriterJoined(_) =>
      if s.reader == None || ReaderAt(s, RDone) {
        assert Enabled(s, JoinReader);
      } else {
        ReaderMoves(s);
      }
  }

  lemma WriterMoves(s: State)
    requires s.writer.Some? && !WriterAt(s, WDone) && s.closed
    ensures SomethingMoves(s)
  {
    match s.writer.value.pc
    case WCheck => assert Enabled(s, WriterCheck);
    case WTake => assert Enabled(s, WriterTake);
    case WSend(_) => assert Enabled(s, WriterSend);
    case WDone =>
  }

  lemma ReaderMoves(s: State)
    requires s.reader.Some? && !ReaderAt(s, RDone)
    ensures SomethingMoves(s)
  {
    match s.reader.value.pc
    case RCheck => assert Enabled(s, ReaderCheck);
    case RReceive => assert Enabled(s, ReaderReceived(false));
    case RFire => assert Enabled(s, ReaderFired);
    case RLeave => assert Enabled(s, ReaderLeaves);
    case REnded => assert Enabled(s, ReaderEnds);
    case RClosedEvent => assert Enabled(s, ReaderTells);
    case RDone =>
  }

  // ---------- what a stop comes to ----------

  predicate StopHasComeTo(s: State) {
    !s.started
    && match s.control
       case Stopping(again) => !again
       case ShutDown(again) => !again
       case QueueClosed(again) => !again
       case WriterJoined(again) => !again
       case ReaderJoined(again) => !again
       case _ => false
  }

  lemma StopMovesOn(s: State, a: Action)
    requires Inv(s) && Enabled(s, a) && StopHasComeTo(s)
    ensures var t := Apply(s, a); !t.started && (t.control == Free || StopHasComeTo(t))
  {
    hide PacketsOk;
    match a
    case Put(_) => case CallStart(_) => case SetStarted => case Attempt(_, _) => case JoinAndReopen => case StartWriter =>
    case StartReader => case CallStop => case DoShutdown => case DoCloseQueue => case JoinWriter => case JoinReader =>
    case CloseSocket => case WriterCheck => case WriterTake => case WriterSend => case ReaderCheck =>
    case ReaderReceived(_) => case ReaderFired => case ReaderLeaves => case ReaderEnds => case ReaderTells =>
  }

  /** In every run: a stop of what is started ends with threads, session and socket gone; else it does nothing. */
  lemma {:induction false} StopComesTo(states: seq<State>, actions: seq<Action>, i: nat, j: nat)
    requires Run(states, actions) && i < j < |states| && actions[i] == CallStop
    requires forall k | i < k < j :: states[k].control != Free
    ensures !states[i].started ==> states[i + 1] == states[i]
    ensures states[i].started ==>
              !states[j].started
              && (states[j].control == Free ==> states[j].socket == None && states[j].reader == None && states[j].writer == None)
              && (states[j].control != Free ==> StopHasComeTo(states[j]))
    decreases j
  {
    hide *;
    RunStep(states, actions, j - 1);
    RunStep(states, actions, i);
    StopSetsOut(states[i]);
    RunKeepsInv(states, actions, j);
    if states[i].started {
      if i + 1 < j {
        StopComesTo(states, actions, i, j - 1);
        RunKeepsInv(states, actions, j - 1);
        StopMovesOn(states[j - 1], actions[j - 1]);
      }
      StoppedIsEmpty(states[j]);
    }
  }

  lemma StopSetsOut(s: State)
    requires Enabled(s, CallStop)
    ensures var t := Apply(s, CallStop); if s.started then StopHasComeTo(t) && t.control != Free && !t.started else t == s
  {
  }

  lemma StoppedIsEmpty(s: State)
    requires Inv(s)
    ensures s.control == Free && !s.started ==> s.socket == None && s.reader == None && s.writer == None
  {
    hide PacketsOk;
  }
}
