/** One request at a time: the ATT queue of AirPods settings and the query queue of the Zik. */
module RequestQueues {
  import opened Wrappers
  import opened Zik

  // ---------- ATT ----------

  type Pdu = seq<Byte>

  datatype Job = Job(pdu: Pdu, handle: Byte)

  /** How a request that was sent ended. */
  datatype Outcome = Answered | GivenUp

  /** A request queue with its history since the last clear: the requests sent, how the finished ones ended,
      and the handles their answers returned. */
  datatype AttState = AttState(queue: seq<Job>, busy: bool, reading: Byte, sentAt: int,
                               sent: seq<Job>, ended: seq<Outcome>, returned: seq<Byte>)

  const TwoSeconds := 2000
  const AttStart := AttState([], false, 0, 0, [], [], [])

  function AttNext(s: AttState, now: int): AttState {
    if s.busy || s.queue == [] then s
    else s.(queue := s.queue[1..], busy := true, reading := s.queue[0].handle, sentAt := now, sent := s.sent + [s.queue[0]])
  }

  function AttPush(s: AttState, job: Job, now: int): AttState {
    var late := s.busy && now - s.sentAt > TwoSeconds;
    var s' := if late then s.(busy := false, ended := s.ended + [GivenUp]) else s;
    AttNext(s'.(queue := s'.queue + [job]), now)
  }

  function AttAnswer(s: AttState, now: int): AttState {
    AttNext(if s.busy then s.(busy := false, ended := s.ended + [Answered], returned := s.returned + [s.reading]) else s, now)
  }

  class RequestQueue {
    var queue: seq<Job>
    var busy: bool
    var reading: Byte
    var sentAt: int
    ghost var sent: seq<Job>
    ghost var ended: seq<Outcome>
    ghost var returned: seq<Byte>

    ghost function State(): AttState
      reads this
    {
      AttState(queue, busy, reading, sentAt, sent, ended, returned)
    }

    constructor ()
      ensures State() == AttStart
    {
      queue, busy, reading, sentAt := [], false, 0, 0;
      sent, ended, returned := [], [], [];
    }

    /** Queues `pdu` (`readHandle`: the handle it reads, 0 for writes); the PDU to send now, if any. */
    method Push(pdu: Pdu, readHandle: Byte, now: int) returns (send: Option<Pdu>)
      modifies this
      ensures State() == AttPush(old(State()), Job(pdu, readHandle), now)
      ensures send == if |sent| > |old(sent)| then Some(sent[|sent| - 1].pdu) else None
    {
      if busy && now - sentAt > TwoSeconds {
        busy := false;
        ended := ended + [GivenUp];
      }
      queue := queue + [Job(pdu, readHandle)];
      send := Next(now);
    }

    /** A response came in: the handle the answered request read (0 for a write), and what to send next. */
    method Answered(now: int) returns (handle: Byte, send: Option<Pdu>)
      modifies this
      ensures State() == AttAnswer(old(State()), now)
      ensures handle == if old(busy) then old(reading) else 0
      ensures send == if |sent| > |old(sent)| then Some(sent[|sent| - 1].pdu) else None
    {
      handle := if busy then reading else 0;
      if busy {
        ended, returned := ended + [Outcome.Answered], returned + [reading];
      }
      busy := false;
      send := Next(now);
    }

    method Clear()
      modifies this
      ensures State() == AttStart.(reading := old(reading), sentAt := old(sentAt))
    {
      queue := [];
      busy := false;
      sent, ended, returned := [], [], [];
    }

    method Next(now: int) returns (send: Option<Pdu>)
      modifies this
      ensures State() == AttNext(old(State()), now)
      ensures send == if |sent| > |old(sent)| then Some(sent[|sent| - 1].pdu) else None
    {
      if busy || queue == [] {
        return None;
      }
      var job := queue[0];
      queue := queue[1..];
      busy := true;
      reading := job.handle;
      sentAt := now;
      sent := sent + [job];
      send := Some(job.pdu);
    }
  }

  /** What happens to a queue. A response is to the `request`-th request sent since the last clear, which opens a new
      channel; the queue does not see that number. */
  datatype AttEvent = Push(job: Job, now: int) | Response(now: int, request: nat) | Clear

  function AttStep(s: AttState, e: AttEvent): AttState {
    match e
    case Push(job, now) => AttPush(s, job, now)
    case Response(now, _) => AttAnswer(s, now)
    case Clear => AttStart.(reading := s.reading, sentAt := s.sentAt)
  }

  function AttRun(s: AttState, es: seq<AttEvent>): AttState
    decreases |es|
  {
    if es == [] then s else AttRun(AttStep(s, es[0]), es[1..])
  }

  /** The requests accepted since the last clear. */
  function Accepted(acc: seq<Job>, es: seq<AttEvent>): seq<Job>
    decreases |es|
  {
    if es == [] then acc
    else Accepted(match es[0] case Push(job, _) => acc + [job] case Response(_, _) => acc case Clear => [], es[1..])
  }

  /** The handles of the answered requests, in order. */
  function AnsweredHandles(sent: seq<Job>, ended: seq<Outcome>): seq<Byte>
    requires |ended| <= |sent|
  {
    if ended == [] then []
    else
      var n := |ended| - 1;
      AnsweredHandles(sent, ended[..n]) + if ended[n] == Answered then [sent[n].handle] else []
  }

  ghost predicate AttInv(s: AttState, acc: seq<Job>) {
    && (!s.busy ==> s.queue == [])
    && s.sent + s.queue == acc
    && |s.sent| == |s.ended| + (if s.busy then 1 else 0)
    && (s.busy ==> s.reading == s.sent[|s.sent| - 1].handle)
    && s.returned == AnsweredHandles(s.sent, s.ended)
  }

  lemma {:induction false} MoreSentSameAnswers(sent: seq<Job>, more: seq<Job>, ended: seq<Outcome>)
    requires |ended| <= |sent|
    ensures AnsweredHandles(sent + more, ended) == AnsweredHandles(sent, ended)
    decreases |ended|
  {
    if ended != [] {
      MoreSentSameAnswers(sent, more, ended[..|ended| - 1]);
    }
  }

  lemma NextKeepsInv(s: AttState, acc: seq<Job>, now: int)
    requires AttInv(s.(queue := []), s.sent)
    requires s.sent + s.queue == acc
    ensures AttInv(AttNext(s, now), acc)
  {
    if !s.busy && s.queue != [] {
      MoreSentSameAnswers(s.sent, [s.queue[0]], s.ended);
      assert s.sent + [s.queue[0]] + s.queue[1..] == s.sent + s.queue;
    }
    assert s.sent + [] == s.sent;
  }

  lemma EndedKeepsInv(s: AttState, o: Outcome)
    requires s.busy && AttInv(s.(queue := []), s.sent)
    ensures var s' := s.(queue := [], busy := false, ended := s.ended + [o],
                         returned := if o == Answered then s.returned + [s.reading] else s.returned);
            AttInv(s', s.sent)
  {
    assert (s.ended + [o])[..|s.ended|] == s.ended;
    assert s.sent + [] == s.sent;
  }

  lemma StepKeepsAttInv(s: AttState, acc: seq<Job>, e: AttEvent)
    requires AttInv(s, acc)
    ensures AttInv(AttStep(s, e), Accepted(acc, [e]))
  {
    hide AttNext, AnsweredHandles;
    assert [e][1..] == [];
    assert s.sent + [] == s.sent;
    match e
    case Push(job, now) =>
      var late := s.busy && now - s.sentAt > TwoSeconds;
      if late {
        EndedKeepsInv(s, GivenUp);
      }
      var s' := if late then s.(busy := false, ended := s.ended + [GivenUp]) else s;
      assert s'.sent + (s'.queue + [job]) == acc + [job];
      NextKeepsInv(s'.(queue := s'.queue + [job]), acc + [job], now);
    case Response(now, _) =>
      if s.busy {
        EndedKeepsInv(s, Answered);
      }
      NextKeepsInv(if s.busy then s.(busy := false, ended := s.ended + [Answered], returned := s.returned + [s.reading]) else s,
                   acc, now);
    case Clear =>
      assert AnsweredHandles([], []) == [] by { NoAnswers(); }
  }

  lemma NoAnswers()
    ensures AnsweredHandles([], []) == []
  {
  }

  /** Over every run: idle means nothing waits, what was sent and what waits are what was accepted, and the
      answers returned are the handles of the requests not given up, in the order they were pushed. */
  lemma {:induction false} AttRunKeepsInv(s: AttState, acc: seq<Job>, es: seq<AttEvent>)
    requires AttInv(s, acc)
    ensures AttInv(AttRun(s, es), Accepted(acc, es))
    decreases |es|
  {
    hide AttInv, AttStep;
    if es != [] {
      StepKeepsAttInv(s, acc, es[0]);
      assert [es[0]][1..] == [];
      AttRunKeepsInv(AttStep(s, es[0]), Accepted(acc, [es[0]]), es[1..]);
    }
  }

  /** Without a request given up, the k-th answer returns the k-th handle pushed. */
  lemma KthAnswerIsKthPush(es: seq<AttEvent>, k: nat)
    requires var s := AttRun(AttStart, es); k < |s.returned| && GivenUp !in s.ended
    ensures k < |Accepted([], es)| && AttRun(AttStart, es).returned[k] == Accepted([], es)[k].handle
  {
    assert AttInv(AttStart, []) by { NoAnswers(); }
    AttRunKeepsInv(AttStart, [], es);
    var s := AttRun(AttStart, es);
    AllAnswered(s.sent, s.ended);
    assert Accepted([], es)[k] == s.sent[k];
  }

  lemma {:induction false} AllAnswered(sent: seq<Job>, ended: seq<Outcome>)
    requires |ended| <= |sent| && GivenUp !in ended
    ensures |AnsweredHandles(sent, ended)| == |ended|
    ensures forall k | 0 <= k < |ended| :: AnsweredHandles(sent, ended)[k] == sent[k].handle
    decreases |ended|
  {
    if ended != [] {
      var n := |ended| - 1;
      assert ended[n] == Answered;
      AllAnswered(sent, ended[..n]);
    }
  }

  // ---------- whose answer it is ----------

  /** The other side answers a request at most once, and only after it was sent. */
  ghost predicate Admissible(s: AttState, answered: set<nat>, es: seq<AttEvent>)
    decreases |es|
  {
    es == []
    || ((es[0].Response? ==> es[0].request < |s.sent| && es[0].request !in answered)
        && Admissible(AttStep(s, es[0]), AnsweredAfter(answered, es[0]), es[1..]))
  }

  function AnsweredAfter(answered: set<nat>, e: AttEvent): set<nat> {
    match e
    case Push(_, _) => answered
    case Response(_, request) => answered + {request}
    case Clear => {}
  }

  /** The queue takes the response for an answer to the request it answers. */
  predicate TakenForItsOwn(s: AttState, request: nat) {
    s.busy && request == |s.sent| - 1
  }

  /** A push more than two seconds after its sending gave the request up before. */
  predicate WasGivenUp(s: AttState, request: nat) {
    request < |s.ended| && s.ended[request] == GivenUp
  }

  ghost predicate AllTakenForTheirOwn(s: AttState, es: seq<AttEvent>)
    decreases |es|
  {
    es == []
    || ((es[0].Response? ==> TakenForItsOwn(s, es[0].request)) && AllTakenForTheirOwn(AttStep(s, es[0]), es[1..]))
  }

  ghost predicate NoneAfterGivingUp(s: AttState, es: seq<AttEvent>)
    decreases |es|
  {
    es == [] || ((es[0].Response? ==> !WasGivenUp(s, es[0].request)) && NoneAfterGivingUp(AttStep(s, es[0]), es[1..]))
  }

  /** The history knows exactly the requests the other side answered. */
  ghost predicate KnowsAnswered(s: AttState, answered: set<nat>) {
    && |s.sent| == |s.ended| + (if s.busy then 1 else 0)
    && forall r: nat :: r in answered <==> r < |s.ended| && s.ended[r] == Answered
  }

  lemma StepKnowsAnswered(s: AttState, answered: set<nat>, e: AttEvent)
    requires KnowsAnswered(s, answered) && (e.Response? ==> TakenForItsOwn(s, e.request))
    ensures KnowsAnswered(AttStep(s, e), AnsweredAfter(answered, e))
  {
  }

  /** A request is given up by nothing but a push that comes more than two seconds after its sending, unanswered. */
  lemma OnlyALatePushGivesUp(s: AttState, answered: set<nat>, e: AttEvent, request: nat)
    requires KnowsAnswered(s, answered) && !WasGivenUp(s, request)
    ensures WasGivenUp(AttStep(s, e), request)
       <==> e.Push? && s.busy && request == |s.sent| - 1 && e.now - s.sentAt > TwoSeconds
  {
  }

  /** In every admissible run, every response is taken for the request it answers if and only if none comes for a
      request that was given up before. */
  lemma {:induction false} AnswersPairUpFrom(s: AttState, answered: set<nat>, es: seq<AttEvent>)
    requires KnowsAnswered(s, answered) && Admissible(s, answered, es)
    ensures AllTakenForTheirOwn(s, es) <==> NoneAfterGivingUp(s, es)
    decreases |es|
  {
    hide AttStep, KnowsAnswered, AnsweredAfter, TakenForItsOwn, WasGivenUp;
    if es != [] {
      var e := es[0];
      if e.Response? {
        FirstMistake(s, answered, e.request);
      }
      if e.Response? ==> TakenForItsOwn(s, e.request) {
        StepKnowsAnswered(s, answered, e);
        AnswersPairUpFrom(AttStep(s, e), AnsweredAfter(answered, e), es[1..]);
      }
    }
  }

  lemma FirstMistake(s: AttState, answered: set<nat>, request: nat)
    requires KnowsAnswered(s, answered) && request < |s.sent| && request !in answered
    ensures TakenForItsOwn(s, request) <==> !WasGivenUp(s, request)
  {
  }

  lemma AnswersPairUp(es: seq<AttEvent>)
    requires Admissible(AttStart, {}, es)
    ensures AllTakenForTheirOwn(AttStart, es) <==> NoneAfterGivingUp(AttStart, es)
  {
    AnswersPairUpFrom(AttStart, {}, es);
  }

  /** A response taken for its own returns the handle of the request it answers: of the `request`-th pushed since the
      last clear. */
  lemma TakenReturnsItsHandle(s: AttState, acc: seq<Job>, now: int, request: nat)
    requires AttInv(s, acc) && TakenForItsOwn(s, request)
    ensures request < |acc| && AttStep(s, Response(now, request)).returned == s.returned + [acc[request].handle]
  {
    assert acc[request] == s.sent[request];
    hide AnsweredHandles;
  }

  /** For one: the answer to the first request comes when a second push has given it up, and returns the second's
      handle. */
  lemma LateAnswerIsMistaken(a: Job, b: Job)
    ensures var es := [Push(a, 0), Push(b, 3000), Response(3001, 0)];
            && Admissible(AttStart, {}, es) && !AllTakenForTheirOwn(AttStart, es)
            && AttRun(AttStart, es).sent == [a, b] && AttRun(AttStart, es).returned == [b.handle]
  {
    var s1 := AttState([], true, a.handle, 0, [a], [], []);
    var s2 := AttState([], true, b.handle, 3000, [a, b], [GivenUp], []);
    var e3 := Response(3001, 0);
    var es := [Push(a, 0), Push(b, 3000), e3];
    assert AttStep(AttStart, es[0]) == s1;
    assert AttStep(s1, es[1]) == s2;
    assert es[1..] == [Push(b, 3000), e3] && es[1..][1..] == [e3] && [e3][1..] == [];
    var s3 := AttStep(s2, e3);
    assert s3.returned == [b.handle] && s3.sent == [a, b];
    assert AttRun(s2, [e3]) == AttRun(s3, []) == s3;
    hide AttStep;
    assert AttRun(s1, es[1..]) == AttRun(s2, [e3]) == s3;
    assert Admissible(s2, {}, [e3]) && !AllTakenForTheirOwn(s2, [e3]);
    assert Admissible(s1, {}, es[1..]) && !AllTakenForTheirOwn(s1, es[1..]);
  }

  // ---------- Zik ----------

  /** The queries waiting, whether one is in flight, and the queries handed to the client since the last reset. */
  datatype ZikState = ZikState(pending: seq<string>, inFlight: bool, sent: seq<string>)

  const ZikStart := ZikState([], false, [])
  const FiveSeconds := 5000

  function ZikSend(s: ZikState): ZikState {
    if s.pending == [] then s else ZikState(s.pending[1..], true, s.sent + [s.pending[0]])
  }

  function ZikQuery(s: ZikState, query: string): ZikState {
    var s' := if query in s.pending then s else s.(pending := s.pending + [query]);
    if s'.inFlight then s' else ZikSend(s')
  }

  /** An answer, or giving up on one. */
  function ZikDone(s: ZikState): ZikState {
    ZikSend(s.(inFlight := false))
  }

  function GetQuery(path: string): string { path + "/get" }

  const BATTERY_QUERY := GetQuery("/api/system/battery")

  function SetQuery(path: string, arg: string): string { path + "/set?arg=" + arg }

  /** A message with what its XML was found to hold: the path of a notification, and whether it answers the request. */
  datatype ZikMessage = Opened | Xml(notify: Option<string>, answer: bool) | OtherMessage

  function ZikQueries(s: ZikState, queries: seq<string>): ZikState
    decreases |queries|
  {
    if queries == [] then s else ZikQueries(ZikQuery(s, queries[0]), queries[1..])
  }

  function ZikReceive(s: ZikState, m: ZikMessage, initialQueries: seq<string>): ZikState {
    match m
    case Opened => ZikQueries(s, initialQueries)
    case OtherMessage => s
    case Xml(notify, answer) =>
      var s' := if notify.Some? then ZikQuery(s, GetQuery(notify.value)) else s;
      if answer then ZikDone(s') else s'
  }

  class ZikDevice {
    var pending: seq<string>
    var inFlight: bool
    var sentAt: int
    const initialQueries: seq<string>
    ghost var sent: seq<string>  // what the client was given since the last reset

    ghost function State(): ZikState
      reads this
    {
      ZikState(pending, inFlight, sent)
    }

    constructor (initialQueries: seq<string>)
      ensures State() == ZikStart && this.initialQueries == initialQueries
    {
      pending, inFlight, sentAt, sent := [], false, 0, [];
      this.initialQueries := initialQueries;
    }

    method ResetSession()
      modifies this
      ensures State() == ZikStart
    {
      pending := [];
      inFlight := false;
      sent := [];
    }

    method SendNextLocked(now: int)
      modifies this
      ensures State() == ZikSend(old(State()))
      ensures pending == old(pending) ==> sentAt == old(sentAt)
      ensures pending != old(pending) ==> sentAt == now
    {
      if pending == [] {
        return;
      }
      sent := sent + [pending[0]];
      pending := pending[1..];
      inFlight := true;
      sentAt := now;
    }

    method Query(query: string, now: int)
      modifies this
      ensures State() == ZikQuery(old(State()), query)
    {
      if query !in pending {
        pending := pending + [query];
      }
      if !inFlight {
        SendNextLocked(now);
      }
    }

    method Get(path: string, now: int)
      modifies this
      ensures State() == ZikQuery(old(State()), GetQuery(path))
    {
      Query(path + "/get", now);
    }

    method Set(path: string, arg: string, now: int)
      modifies this
      ensures State() == ZikQuery(ZikQuery(old(State()), SetQuery(path, arg)), GetQuery(path))
    {
      Query(path + "/set?arg=" + arg, now);
      Get(path, now);
    }

    method OnMessage(m: ZikMessage, now: int)
      modifies this
      ensures State() == ZikReceive(old(State()), m, initialQueries)
    {
      match m
      case Opened =>
        var i := 0;
        assert initialQueries[0..] == initialQueries;
        while i < |initialQueries|
          invariant 0 <= i <= |initialQueries|
          invariant ZikQueries(State(), initialQueries[i..]) == ZikQueries(old(State()), initialQueries)
        {
          assert initialQueries[i..][1..] == initialQueries[i + 1..];
          Query(initialQueries[i], now);
          i := i + 1;
        }
      case OtherMessage =>
      case Xml(notify, answer) =>
        if notify.Some? {
          Get(notify.value, now);
        }
        if !answer {
          return;
        }
        inFlight := false;
        SendNextLocked(now);
    }

    /** The poller's look: frees the queue if the Zik swallowed a request, then asks for the battery. */
    method Poll(now: int)
      modifies this
      ensures State() == ZikQuery(if old(inFlight) && now - old(sentAt) > FiveSeconds then ZikDone(old(State())) else old(State()),
                                  BATTERY_QUERY)
    {
      if inFlight && now - sentAt > FiveSeconds {
        inFlight := false;
        SendNextLocked(now);
      }
      Get("/api/system/battery", now);
    }
  }

  /** What happens to the queue. */
  datatype ZikEvent = Ask(query: string) | Done | Reset

  function ZikStep(s: ZikState, e: ZikEvent): ZikState {
    match e
    case Ask(query) => ZikQuery(s, query)
    case Done => ZikDone(s)
    case Reset => ZikStart
  }

  function ZikRun(s: ZikState, es: seq<ZikEvent>): ZikState
    decreases |es|
  {
    if es == [] then s else ZikRun(ZikStep(s, es[0]), es[1..])
  }

  function Asks(queries: seq<string>): seq<ZikEvent> {
    seq(|queries|, i requires 0 <= i < |queries| => Ask(queries[i]))
  }

  /** What a received message does to the queue: an opened session asks all there is to ask first, a notification asks
      for what it is about, and an answer, with a notification or without, frees the queue. */
  lemma ReceiveIsARun(s: ZikState, m: ZikMessage, initialQueries: seq<string>)
    ensures ZikReceive(s, m, initialQueries)
         == ZikRun(s, match m
                      case Opened => Asks(initialQueries)
                      case OtherMessage => []
                      case Xml(notify, answer) =>
                        (if notify.Some? then [Ask(notify.value + "/get")] else []) + if answer then [Done] else [])
  {
    hide ZikQuery, ZikDone;
    match m
    case Opened => QueriesAreARun(s, initialQueries);
    case OtherMessage =>
    case Xml(notify, answer) =>
      var ask := if notify.Some? then [Ask(GetQuery(notify.value))] else [];
      var done := if answer then [Done] else [];
      var es := ask + done;
      assert notify.Some? ==> GetQuery(notify.value) == notify.value + "/get";
      var s' := if notify.Some? then ZikQuery(s, GetQuery(notify.value)) else s;
      assert ZikRun(s', done) == if answer then ZikDone(s') else s' by {
        assert [Done][1..] == [];
      }
      if notify.Some? {
        assert es[1..] == done;
      } else {
        assert es == done;
      }
  }

  /** So is a set, */
  lemma SetIsARun(s: ZikState, path: string, arg: string)
    ensures ZikQuery(ZikQuery(s, SetQuery(path, arg)), GetQuery(path))
         == ZikRun(s, [Ask(SetQuery(path, arg)), Ask(GetQuery(path))])
  {
    hide ZikQuery, SetQuery, GetQuery;
    TwoStepsAreARun(s, Ask(SetQuery(path, arg)), Ask(GetQuery(path)));
  }

  /** and a look of the poller. */
  lemma PollIsARun(s: ZikState, givesUp: bool)
    ensures ZikQuery(if givesUp then ZikDone(s) else s, BATTERY_QUERY)
         == ZikRun(s, if givesUp then [Done, Ask(BATTERY_QUERY)] else [Ask(BATTERY_QUERY)])
  {
    hide ZikQuery, ZikDone;
    if givesUp {
      TwoStepsAreARun(s, Done, Ask(BATTERY_QUERY));
    } else {
      OneStepIsARun(s, Ask(BATTERY_QUERY));
    }
  }

  lemma OneStepIsARun(s: ZikState, e: ZikEvent)
    ensures ZikRun(s, [e]) == ZikStep(s, e)
  {
    hide ZikStep;
    assert [e][1..] == [];
  }

  lemma TwoStepsAreARun(s: ZikState, e: ZikEvent, f: ZikEvent)
    ensures ZikRun(s, [e, f]) == ZikStep(ZikStep(s, e), f)
  {
    hide ZikStep;
    OneStepIsARun(ZikStep(s, e), f);
    assert [e, f][1..] == [f];
  }

  lemma {:induction false} QueriesAreARun(s: ZikState, queries: seq<string>)
    ensures ZikQueries(s, queries) == ZikRun(s, Asks(queries))
    decreases |queries|
  {
    hide ZikQuery;
    if queries != [] {
      assert Asks(queries)[1..] == Asks(queries[1..]) && Asks(queries)[0] == Ask(queries[0]);
      QueriesAreARun(ZikQuery(s, queries[0]), queries[1..]);
    }
  }

  ghost predicate Distinct(s: seq<string>) {
    forall i, j | 0 <= i < j < |s| :: s[i] != s[j]
  }

  ghost predicate ZikInv(s: ZikState) {
    (!s.inFlight ==> s.pending == []) && Distinct(s.pending)
  }

  /** Everything accepted, in order: what was sent and what waits. */
  function Taken(s: ZikState): seq<string> { s.sent + s.pending }

  lemma SendKeepsTaken(s: ZikState)
    ensures Taken(ZikSend(s)) == Taken(s) && s.sent <= ZikSend(s).sent
  {
    if s.pending != [] {
      assert s.sent + [s.pending[0]] + s.pending[1..] == s.sent + s.pending;
    }
  }

  lemma ZikStepKeepsInv(s: ZikState, e: ZikEvent)
    requires ZikInv(s)
    ensures ZikInv(ZikStep(s, e)) && Taken(ZikStep(s, e)) == TakenAfter(Taken(s), s, e)
    ensures !e.Reset? ==> s.sent <= ZikStep(s, e).sent
    ensures e.Ask? ==> ZikStep(s, e).inFlight && (e.query in ZikStep(s, e).pending || ZikStep(s, e).sent == s.sent + [e.query])
  {
    match e
    case Done => SendKeepsTaken(s.(inFlight := false));
    case Reset =>
    case Ask(query) =>
      var s' := if query in s.pending then s else s.(pending := s.pending + [query]);
      SendKeepsTaken(s');
      assert query !in s.pending ==> s.sent + (s.pending + [query]) == s.sent + s.pending + [query];
  }

  /** An ask is accepted unless the query waits already; a reset forgets. */
  function TakenAfter(acc: seq<string>, s: ZikState, e: ZikEvent): seq<string> {
    match e
    case Ask(query) => if query in s.pending then acc else acc + [query]
    case Done => acc
    case Reset => []
  }

  /** The queries accepted since the last reset, in the order they were asked. */
  function ZikAccepted(acc: seq<string>, s: ZikState, es: seq<ZikEvent>): seq<string>
    decreases |es|
  {
    if es == [] then acc else ZikAccepted(TakenAfter(acc, s, es[0]), ZikStep(s, es[0]), es[1..])
  }

  /** Over every run: idle means nothing waits, the waiting queries are distinct, and what was sent followed by what
      waits is what was accepted since the last reset. */
  lemma {:induction false} ZikRunKeepsInv(s: ZikState, es: seq<ZikEvent>)
    requires ZikInv(s)
    ensures ZikInv(ZikRun(s, es)) && Taken(ZikRun(s, es)) == ZikAccepted(Taken(s), s, es)
    decreases |es|
  {
    hide ZikInv, ZikStep, Taken, TakenAfter;
    if es != [] {
      ZikStepKeepsInv(s, es[0]);
      ZikRunKeepsInv(ZikStep(s, es[0]), es[1..]);
    }
  }

  /** From the start of a session: sent, then waiting, is all that was accepted. */
  lemma SentThenWaitingIsAccepted(es: seq<ZikEvent>)
    ensures var t := ZikRun(ZikStart, es); ZikInv(t) && t.sent + t.pending == ZikAccepted([], ZikStart, es)
  {
    ZikRunKeepsInv(ZikStart, es);
    assert Taken(ZikStart) == [];
  }

  /** Until the next reset, what was accepted before stays in front. */
  lemma {:induction false} SessionGrows(s: ZikState, es: seq<ZikEvent>)
    requires ZikInv(s) && Reset !in es
    ensures Taken(s) <= Taken(ZikRun(s, es)) && s.sent <= ZikRun(s, es).sent
    decreases |es|
  {
    hide ZikInv, ZikStep, Taken;
    if es != [] {
      ZikStepKeepsInv(s, es[0]);
      SessionGrows(ZikStep(s, es[0]), es[1..]);
    }
  }

  /** A query asked for, dropped as a duplicate or not, is sent by that call or later: at every point until the next
      reset it either still waits or was handed to the client since the call. */
  lemma AskedIsSentOrWaits(s: ZikState, query: string, es: seq<ZikEvent>)
    requires ZikInv(s) && Reset !in es
    ensures var t := ZikRun(ZikQuery(s, query), es);
            && s.sent <= t.sent
            && (query in t.pending || query in t.sent[|s.sent|..])
  {
    ZikStepKeepsInv(s, Ask(query));
    var a := ZikStep(s, Ask(query));
    SessionGrows(a, es);
    var t := ZikRun(a, es);
    if query in a.pending {
      var i :| 0 <= i < |a.pending| && a.pending[i] == query;
      var n := |a.sent| + i;
      assert Taken(t)[n] == Taken(a)[n] == query;
      if n < |t.sent| {
        assert t.sent[|s.sent|..][n - |s.sent|] == query;
      } else {
        assert t.pending[n - |t.sent|] == query;
      }
    } else {
      assert t.sent[|s.sent|..][0] == query;
    }
  }

  /** The queue drains: after as many answers as queries waited, each of them was sent. */
  lemma {:induction false} AnswersDrain(s: ZikState)
    requires ZikInv(s)
    ensures var t := ZikRun(s, seq(|s.pending| + 1, i => Done)); t.sent == Taken(s) && t.pending == [] && !t.inFlight
    decreases |s.pending|
  {
    var es := seq(|s.pending| + 1, i => Done);
    if s.pending == [] {
      assert es == [Done] && es[1..] == [];
      assert s.sent + s.pending == s.sent;
      assert ZikRun(s, es) == ZikRun(ZikDone(s), []) == ZikDone(s);
    } else {
      var s' := ZikDone(s);
      ZikStepKeepsInv(s, Done);
      assert es[1..] == seq(|s'.pending| + 1, i => Done);
      AnswersDrain(s');
    }
  }

  /** Where `x` last occurs, -1 if it does not. */
  function LastIndex(list: seq<string>, x: string): (i: int)
    ensures -1 <= i < |list|
    ensures i >= 0 ==> list[i] == x
    ensures forall k | i < k < |list| :: list[k] != x
  {
    if list == [] then -1
    else if list[|list| - 1] == x then |list| - 1
    else LastIndex(list[..|list| - 1], x)
  }

  /** The last `setter` of the list has a `getter` behind it. */
  ghost predicate Followed(list: seq<string>, setter: string, getter: string) {
    var i := LastIndex(list, setter);
    i >= 0 && exists j | i < j < |list| :: list[j] == getter
  }

  ghost predicate WaitsBefore(pending: seq<string>, setter: string, getter: string) {
    exists i, j :: 0 <= i < j < |pending| && pending[i] == setter && pending[j] == getter
  }

  lemma SetAndGetDiffer(path: string, arg: string)
    ensures SetQuery(path, arg) != GetQuery(path)
  {
    assert SetQuery(path, arg)[|path| + 1] == 's';
    assert GetQuery(path)[|path| + 1] == 'g';
  }

  /** A set is followed by a get in the order queries go out, unless the get already waits ahead of it: then
      it is dropped as a duplicate. */
  lemma SetIsFollowedByGetIff(s: ZikState, path: string, arg: string)
    requires ZikInv(s)
    ensures var setter, getter := SetQuery(path, arg), GetQuery(path);
            (Followed(Taken(ZikQuery(ZikQuery(s, setter), getter)), setter, getter)
             <==> getter !in s.pending || WaitsBefore(s.pending, setter, getter))
  {
    hide SetQuery, GetQuery;
    var setter, getter := SetQuery(path, arg), GetQuery(path);
    SetAndGetDiffer(path, arg);
    ZikStepKeepsInv(s, Ask(setter));
    var s1 := ZikQuery(s, setter);
    ZikStepKeepsInv(s1, Ask(getter));
    var list := Taken(ZikQuery(s1, getter));
    var n := |s.sent|;
    assert getter in s1.pending <==> getter in s.pending;
    if getter !in s.pending {
      FollowedWhenGetIsNew(s, setter, getter, list);
    } else if setter !in s.pending {
      assert list == Taken(s) + [setter];
      assert LastIndex(list, setter) == |list| - 1;
    } else {
      assert list == Taken(s);
      WaitingOrder(s, setter, getter);
    }
  }

  lemma FollowedWhenGetIsNew(s: ZikState, setter: string, getter: string, list: seq<string>)
    requires ZikInv(s) && setter != getter
    requires list == Taken(s) + (if setter in s.pending then [] else [setter]) + [getter]
    ensures Followed(list, setter, getter)
  {
    hide LastIndex;
    var n := |list| - 1;
    if setter in s.pending {
      var k :| 0 <= k < |s.pending| && s.pending[k] == setter;
      assert list[|s.sent| + k] == setter;
    } else {
      assert list[n - 1] == setter;
    }
    assert list[n] == getter;
  }

  lemma WaitingOrder(s: ZikState, setter: string, getter: string)
    requires ZikInv(s) && setter in s.pending
    ensures Followed(Taken(s), setter, getter) <==> WaitsBefore(s.pending, setter, getter)
  {
    var k :| 0 <= k < |s.pending| && s.pending[k] == setter;
    LastIndexWaits(s, setter, k);
    hide LastIndex, Distinct;
    if Followed(Taken(s), setter, getter) {
      FollowedWaits(s, setter, getter, k);
    }
    if WaitsBefore(s.pending, setter, getter) {
      var i, j :| 0 <= i < j < |s.pending| && s.pending[i] == setter && s.pending[j] == getter;
      SameIndex(s.pending, i, k);
      assert Taken(s)[|s.sent| + j] == getter;
    }
  }

  lemma FollowedWaits(s: ZikState, setter: string, getter: string, k: nat)
    requires k < |s.pending| && s.pending[k] == setter && LastIndex(Taken(s), setter) == |s.sent| + k
    requires Followed(Taken(s), setter, getter)
    ensures WaitsBefore(s.pending, setter, getter)
  {
    hide LastIndex;
    var n := |s.sent|;
    var j :| n + k < j < |Taken(s)| && Taken(s)[j] == getter;
    assert s.pending[j - n] == getter;
  }

  lemma SameIndex(list: seq<string>, i: nat, j: nat)
    requires Distinct(list) && i < |list| && j < |list| && list[i] == list[j]
    ensures i == j
  {
  }

  lemma LastIndexWaits(s: ZikState, x: string, k: nat)
    requires Distinct(s.pending) && k < |s.pending| && s.pending[k] == x
    ensures LastIndex(Taken(s), x) == |s.sent| + k
  {
    hide LastIndex;
    var n, i := |s.sent|, LastIndex(Taken(s), x);
    assert Taken(s)[n + k] == x;
    assert s.pending[i - n] == x;
  }

  /** For one, from the start of a session: a first query is in flight, a get waits, a set comes behind it, and the
      set's own get is dropped. */
  lemma SetWithoutGet(first: string, path: string, arg: string)
    ensures var setter, getter := SetQuery(path, arg), GetQuery(path);
            var t := ZikRun(ZikStart, [Ask(first), Ask(getter), Ask(setter), Ask(getter)]);
            Taken(t) == [first, getter, setter] && !Followed(Taken(t), setter, getter)
  {
    hide SetQuery, GetQuery;
    var setter, getter := SetQuery(path, arg), GetQuery(path);
    SetAndGetDiffer(path, arg);
    var es := [Ask(first), Ask(getter), Ask(setter), Ask(getter)];
    var s1, s2 := ZikState([], true, [first]), ZikState([getter], true, [first]);
    var s3 := ZikState([getter, setter], true, [first]);
    assert ZikStep(ZikStart, es[0]) == s1 && ZikStep(s1, es[1]) == s2;
    assert ZikStep(s2, es[2]) == s3 && ZikStep(s3, es[3]) == s3;
    hide ZikStep;
    assert es[1..] == [es[1], es[2], es[3]] && es[1..][1..] == [es[2], es[3]];
    TwoStepsAreARun(s2, es[2], es[3]);
    assert ZikRun(s1, es[1..]) == ZikRun(s2, es[1..][1..]);
    var list := Taken(s3);
    assert list == [first, getter, setter] && LastIndex(list, setter) == 2;
  }
}
