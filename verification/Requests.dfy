/** RPC requests over one transport: ids, futures, and the flag that says whether bytes may have left. */
module Requests {
  import opened Options

  datatype Id = Id(n: int)
  datatype Socket = Socket(n: int)

  datatype Future =
    | Pending
    | Answered(ok: bool)              // a response, with a result or an RPC error
    | Failed(mayHaveBeenSent: bool)   // `_fail_requests`
    | Cancelled

  /** Where the `_request` coroutine of an id stands. */
  datatype Phase = Queueing | Awaiting | TimedOut(mayHaveBeenSent: bool) | Finished

  datatype Link = Down | Up | Closed

  /** `phases` and `futures` hold every id ever issued. `entered` and `cutOff` are history: the ids whose send was
      begun, and those for which it was begun before the last time all requests were failed. */
  datatype State = State(
    link: Link,
    socket: Option<Socket>,
    nextId: int,
    outstanding: set<Id>,
    sent: set<Id>,
    futures: map<Id, Future>,
    phases: map<Id, Phase>,
    entered: set<Id>,
    cutOff: set<Id>)

  datatype Event =
    | Connect(socket: Socket)
    | LoseLink                        // a cancelled reconnect: the state is reset and nothing else
    | Begin
    | EnterSend(id: Id)
    | Response(id: Id, ok: bool)
    | Disconnect(socket: Socket)      // the cleanup of one socket
    | StartClose
    | CloseFails
    | Timeout(id: Id)
    | Abandon(id: Id)                 // the caller is cancelled
    | Finish(id: Id)

  const FRESH := State(Down, None, 1, {}, {}, map[], map[], {}, {})

  predicate Running(s: State, id: Id) {
    id in s.phases && id in s.futures && s.phases[id] != Finished
  }

  predicate CanDo(s: State, e: Event) {
    match e
    case Connect(_) => s.link == Down
    case LoseLink => s.link == Up
    case Begin => s.link == Up && s.socket.Some?
    case EnterSend(id) => Running(s, id) && s.phases[id] == Queueing
    case Response(_, _) => true
    case Disconnect(_) => true
    case StartClose => true
    case CloseFails => s.link == Closed
    case Timeout(id) => Running(s, id) && !s.phases[id].TimedOut?
    case Abandon(id) => Running(s, id)
    case Finish(id) =>
      Running(s, id) && (s.phases[id].TimedOut? || (s.phases[id] == Awaiting && s.futures[id] != Pending))
  }

  function Settle(s: State, id: Id, f: Future): map<Id, Future> {
    if id in s.futures && s.futures[id] == Pending then s.futures[id := f] else s.futures
  }

  /** `_fail_requests`: both tables are swapped for empty ones and every unsettled future in them fails. */
  function FailAll(s: State): State {
    s.(outstanding := {}, sent := {}, cutOff := s.entered,
       futures := map id | id in s.futures ::
         if id in s.outstanding && s.futures[id] == Pending then Failed(id in s.sent) else s.futures[id])
  }

  /** The `finally` of `_request`. */
  function Forget(s: State, id: Id): State {
    s.(outstanding := s.outstanding - {id}, sent := s.sent - {id}, phases := s.phases[id := Finished])
  }

  function Do(s: State, e: Event): State
    requires CanDo(s, e)
  {
    match e
    case Connect(socket) => s.(link := Up, socket := Some(socket))
    case LoseLink => s.(link := Down)
    case Begin =>
      var id := Id(s.nextId);
      s.(nextId := s.nextId + 1, outstanding := s.outstanding + {id}, futures := s.futures[id := Pending],
         phases := s.phases[id := Queueing])
    case EnterSend(id) =>
      if s.futures[id] != Pending || s.link != Up then s.(phases := s.phases[id := Awaiting])
      else s.(sent := s.sent + {id}, entered := s.entered + {id}, phases := s.phases[id := Awaiting])
    case Response(id, ok) =>
      if id !in s.outstanding || id !in s.futures || s.futures[id] != Pending then s
      else s.(outstanding := s.outstanding - {id}, futures := s.futures[id := Answered(ok)])
    case Disconnect(socket) =>
      if s.link == Closed || s.socket != Some(socket) then s else FailAll(s).(link := Down)
    case StartClose => s.(link := Closed)
    case CloseFails => FailAll(s)
    case Timeout(id) => s.(futures := Settle(s, id, Cancelled), phases := s.phases[id := TimedOut(id in s.sent)])
    case Abandon(id) => Forget(s.(futures := Settle(s, id, Cancelled)), id)
    case Finish(id) => Forget(s, id)
  }

  // ---------- the invariant ----------

  /** One id: its flag is exact while it is outstanding, no unsettled future is out of reach, and a failure once
      given says exactly whether its send was begun. */
  ghost predicate IdSound(s: State, id: Id) {
    && id.n < s.nextId
    && (id in s.futures <==> id in s.phases)
    && (id in s.outstanding || id in s.sent ==> Running(s, id))
    && (Running(s, id) && s.futures[id] == Pending ==> id in s.outstanding && !s.phases[id].TimedOut?)
    && (id in s.phases && s.phases[id] == Finished ==> s.futures[id] != Pending)
    && (id in s.futures && s.futures[id].Failed? ==>
          id !in s.outstanding && (s.futures[id].mayHaveBeenSent <==> id in s.entered))
    && (id in s.outstanding ==> (id in s.sent <==> id in s.entered))
    && (id in s.sent ==> id in s.entered)
    && (Running(s, id) && s.phases[id] == Queueing ==> id !in s.entered)
    && (Running(s, id) && id in s.entered ==> (id in s.sent <==> id !in s.cutOff))
    && (id in s.cutOff ==> id in s.entered && id in s.futures && s.futures[id] != Pending)
  }

  predicate Known(s: State, id: Id) {
    id in s.futures || id in s.phases || id in s.outstanding || id in s.sent || id in s.entered || id in s.cutOff
  }

  ghost predicate Sound(s: State) {
    forall id | Known(s, id) :: id in s.futures && IdSound(s, id)
  }

  lemma IdsAreBelow(s: State)
    requires Sound(s)
    ensures forall id | Known(s, id) :: id.n < s.nextId
  {
    forall id | Known(s, id) ensures id.n < s.nextId { assert IdSound(s, id); }
  }

  lemma BeginKeepsSound(s: State, d: State)
    requires Sound(s) && CanDo(s, Begin) && d == Do(s, Begin)
    ensures Sound(d)
  {
    var next := Id(s.nextId);
    IdsAreBelow(s);
    assert !Known(s, next);
    forall id | id in d.futures ensures IdSound(d, id) {
      if id != next { assert Known(s, id) && IdSound(s, id); }
    }
  }

  lemma FailKeepsSound(s: State, d: State)
    requires Sound(s) && d == FailAll(s).(link := d.link)
    ensures Sound(d)
  {
    forall id | id in d.futures ensures IdSound(d, id) { assert IdSound(s, id); }
  }

  /** Steps that concern one id. */
  lemma OneIdKeepsSound(s: State, e: Event, d: State)
    requires e.EnterSend? || e.Response? || e.Timeout? || e.Abandon? || e.Finish?
    requires Sound(s) && CanDo(s, e) && d == Do(s, e)
    ensures Sound(d)
  {
    forall id | id in d.futures ensures IdSound(d, id) { assert IdSound(s, id); }
  }

  lemma StepKeepsSound(s: State, e: Event, d: State)
    requires Sound(s) && CanDo(s, e) && d == Do(s, e)
    ensures Sound(d)
  {
    match e
    case Begin => BeginKeepsSound(s, d);
    case Disconnect(_) => if d != s { FailKeepsSound(s, d); }
    case CloseFails => FailKeepsSound(s, d);
    case Connect(_) => forall id | id in d.futures ensures IdSound(d, id) { assert IdSound(s, id); }
    case LoseLink => forall id | id in d.futures ensures IdSound(d, id) { assert IdSound(s, id); }
    case StartClose => forall id | id in d.futures ensures IdSound(d, id) { assert IdSound(s, id); }
    case _ => OneIdKeepsSound(s, e, d);
  }

  ghost predicate Run(s: State, es: seq<Event>)
    decreases |es|
  {
    es == [] || (CanDo(s, es[0]) && Run(Do(s, es[0]), es[1..]))
  }

  ghost function After(s: State, es: seq<Event>): State
    requires Run(s, es)
    decreases |es|
  {
    if es == [] then s else After(Do(s, es[0]), es[1..])
  }

  lemma {:induction false} RunKeepsSound(s: State, es: seq<Event>)
    requires Sound(s) && Run(s, es)
    ensures Sound(After(s, es))
    decreases |es|
  {
    if es != [] {
      StepKeepsSound(s, es[0], Do(s, es[0]));
      RunKeepsSound(Do(s, es[0]), es[1..]);
    }
  }

  // ---------- what it means ----------

  /** A settled future keeps its outcome for ever. */
  lemma {:induction false} SettledOnce(s: State, es: seq<Event>, id: Id)
    requires Sound(s) && Run(s, es) && id in s.futures && s.futures[id] != Pending
    ensures id in After(s, es).futures && After(s, es).futures[id] == s.futures[id]
    decreases |es|
  {
    if es != [] {
      var d := Do(s, es[0]);
      IdsAreBelow(s);
      assert Known(s, id);
      StepKeepsSound(s, es[0], d);
      SettledOnce(d, es[1..], id);
    }
  }

  /** In every run: a new request gets an id no request had before, */
  lemma IdsAreFresh(es: seq<Event>)
    requires Run(FRESH, es) && CanDo(After(FRESH, es), Begin)
    ensures var s := After(FRESH, es); !Known(s, Id(s.nextId))
  {
    RunKeepsSound(FRESH, es);
    IdsAreBelow(After(FRESH, es));
  }

  /** a disconnect of the current socket, or a close, leaves no request unsettled, */
  lemma DisconnectSettlesAll(es: seq<Event>, e: Event, id: Id)
    requires Run(FRESH, es) && CanDo(After(FRESH, es), e)
    requires var s := After(FRESH, es);
             e == CloseFails || (e.Disconnect? && s.socket == Some(e.socket) && s.link != Closed)
    ensures var d := Do(After(FRESH, es), e); id in d.futures ==> d.futures[id] != Pending
  {
    RunKeepsSound(FRESH, es);
    var s := After(FRESH, es);
    if id in s.futures { assert IdSound(s, id); }
  }

  /** and a failure given by it says that bytes may have left exactly when the send was begun. */
  lemma FailureFlagIsExact(es: seq<Event>, id: Id)
    requires Run(FRESH, es)
    requires id in After(FRESH, es).futures && After(FRESH, es).futures[id].Failed?
    ensures After(FRESH, es).futures[id].mayHaveBeenSent <==> id in After(FRESH, es).entered
  {
    RunKeepsSound(FRESH, es);
    assert IdSound(After(FRESH, es), id);
  }

  /** What settles an unsettled request, and how: a response with its own outcome, the loss of the current socket or a
      failed close with a failure, its timer or the cancellation of its caller by cancellation; nothing else. */
  lemma SettledExactlyBy(es: seq<Event>, s: State, e: Event, d: State, id: Id)
    requires Run(FRESH, es) && s == After(FRESH, es) && CanDo(s, e) && d == Do(s, e)
    requires id in s.futures && s.futures[id] == Pending
    ensures id in d.futures
    ensures forall ok :: d.futures[id] == Answered(ok) <==> e == Response(id, ok)
    ensures d.futures[id].Failed? <==>
              e == CloseFails || (e.Disconnect? && s.socket == Some(e.socket) && s.link != Closed)
    ensures d.futures[id] == Cancelled <==> e in {Timeout(id), Abandon(id)}
  {
    RunKeepsSound(FRESH, es);
    assert Known(s, id) && IdSound(s, id);
    IdsAreBelow(s);
  }

  /** Bytes of a request may leave only by its own send, and then only if it is unsettled and the link is up. */
  lemma SendIsBegunExactlyBy(es: seq<Event>, s: State, e: Event, d: State, id: Id)
    requires Run(FRESH, es) && s == After(FRESH, es) && CanDo(s, e) && d == Do(s, e)
    ensures id in d.entered <==>
              id in s.entered || (e == EnterSend(id) && id in s.futures && s.futures[id] == Pending && s.link == Up)
    ensures id in d.entered && id !in s.entered ==> id in d.sent
  {}

  /** The link follows the connection: a cleanup of another socket, or one after a close, changes nothing at all. */
  lemma LinkFollowsSocket(s: State, e: Event, d: State)
    requires CanDo(s, e) && d == Do(s, e)
    ensures e.Connect? ==> d == s.(link := Up, socket := Some(e.socket))
    ensures e.Disconnect? && (s.link == Closed || s.socket != Some(e.socket)) ==> d == s
    ensures e.Disconnect? && s.link != Closed && s.socket == Some(e.socket) ==> d.link == Down
    ensures e == StartClose ==> d == s.(link := Closed)
    ensures e == LoseLink ==> d == s.(link := Down)
    ensures !e.Connect? && d.link != s.link ==> (e.LoseLink? || e.Disconnect? || e.StartClose?) && d.socket == s.socket
  {}

  /** The flag of a timeout is read from the live table: it is right exactly unless a disconnect or close came between
      this request's send and its timer; so it is right for every request not settled by then. */
  lemma TimeoutFlagIff(es: seq<Event>, s: State, id: Id)
    requires Run(FRESH, es) && s == After(FRESH, es) && CanDo(s, Timeout(id))
    ensures (Do(s, Timeout(id)).phases[id].mayHaveBeenSent <==> id in s.entered) <==> id !in s.cutOff
    ensures s.futures[id] == Pending ==> id !in s.cutOff
  {
    RunKeepsSound(FRESH, es);
    assert IdSound(s, id);
  }

  /** Such a run: the request was sent, the socket was lost, and the timer fired before the caller resumed. The caller
      is told that nothing was sent. */
  lemma TimeoutCanDenyASend() returns (es: seq<Event>, s: State)
    ensures Run(FRESH, es) && s == After(FRESH, es)
    ensures Id(1) in s.entered && Id(1) in s.phases && s.phases[Id(1)] == TimedOut(false)
  {
    var s1 := Do(FRESH, Connect(Socket(0)));
    var s2 := Do(s1, Begin);
    var s3 := Do(s2, EnterSend(Id(1)));
    var s4 := Do(s3, Disconnect(Socket(0)));
    s := Do(s4, Timeout(Id(1)));
    var e5 := [Timeout(Id(1))];
    var e4 := [Disconnect(Socket(0))] + e5;
    var e3 := [EnterSend(Id(1))] + e4;
    var e2 := [Begin] + e3;
    es := [Connect(Socket(0))] + e2;
    assert e5[1..] == [] && e4[1..] == e5 && e3[1..] == e4 && e2[1..] == e3 && es[1..] == e2;
    assert Run(s4, e5) && After(s4, e5) == s;
    assert Run(s3, e4) && After(s3, e4) == s;
    assert Run(s2, e3) && After(s2, e3) == s;
    assert Run(s1, e2) && After(s1, e2) == s;
  }

  // ---------- the object ----------

  /** `futures` are the future objects, which outlive the tables; `phases`, `entered` and `cutOff` are history. */
  class AsyncRpcTransport {
    var link: Link
    var socket: Option<Socket>
    var nextRequestId: int
    var requests: set<Id>
    var requestMayHaveBeenSent: set<Id>
    var futures: map<Id, Future>
    ghost var phases: map<Id, Phase>
    ghost var entered: set<Id>
    ghost var cutOff: set<Id>

    ghost function Contents(): State
      reads this
    {
      State(link, socket, nextRequestId, requests, requestMayHaveBeenSent, futures, phases, entered, cutOff)
    }

    constructor ()
      ensures Contents() == FRESH
    {
      link, socket, nextRequestId := Down, None, 1;
      requests, requestMayHaveBeenSent, futures := {}, {}, map[];
      phases, entered, cutOff := map[], {}, {};
    }

    /** The head of `_request`: refuses without a link, and then nothing was sent. */
    method StartRequest() returns (id: Option<Id>)
      modifies this
      ensures id.None? <==> !CanDo(old(Contents()), Begin)
      ensures id.None? ==> Contents() == old(Contents())
      ensures id.Some? ==> Contents() == Do(old(Contents()), Begin) && id.value == Id(old(nextRequestId))
    {
      if link != Up || socket.None? { return None; }
      var next := Id(nextRequestId);
      nextRequestId := nextRequestId + 1;
      requests := requests + {next};
      futures := futures[next := Pending];
      phases := phases[next := Queueing];
      return Some(next);
    }

    /** Under the send lock, up to the send itself. */
    method BeginSend(id: Id) returns (sending: bool)
      requires CanDo(Contents(), EnterSend(id))
      modifies this
      ensures Contents() == Do(old(Contents()), EnterSend(id))
      ensures sending ==> id in entered
    {
      sending := futures[id] == Pending && link == Up;
      if sending {
        requestMayHaveBeenSent := requestMayHaveBeenSent + {id};
        entered := entered + {id};
      }
      phases := phases[id := Awaiting];
    }

    method DispatchResponse(id: Id, ok: bool)
      modifies this
      ensures Contents() == Do(old(Contents()), Response(id, ok))
    {
      if id !in requests || id !in futures || futures[id] != Pending { return; }
      requests := requests - {id};
      futures := futures[id := Answered(ok)];
    }

    method FailRequests()
      modifies this
      ensures Contents() == FailAll(old(Contents()))
    {
      var listed, flags := requests, requestMayHaveBeenSent;
      requests, requestMayHaveBeenSent, cutOff := {}, {}, entered;
      ghost var before := Contents();
      var rest := listed;
      while rest != {}
        invariant rest <= listed && Contents() == before.(futures := futures) && futures.Keys == before.futures.Keys
        invariant forall id | id in futures :: futures[id] ==
                    if id in listed - rest && before.futures[id] == Pending then Failed(id in flags)
                    else before.futures[id]
      {
        var id :| id in rest;
        rest := rest - {id};
        if id in futures && futures[id] == Pending { futures := futures[id := Failed(id in flags)]; }
      }
      assert futures == FailAll(old(Contents())).futures;
    }

    method DisconnectCleanup(source: Socket)
      modifies this
      ensures Contents() == Do(old(Contents()), Disconnect(source))
    {
      if link == Closed || socket != Some(source) { return; }
      link := Down;
      FailRequests();
    }

    /** The timeout branch of `_request`, up to its disconnect. */
    method TimeOut(id: Id) returns (mayHaveBeenSent: bool)
      requires CanDo(Contents(), Timeout(id))
      modifies this
      ensures Contents() == Do(old(Contents()), Timeout(id)) && phases[id] == TimedOut(mayHaveBeenSent)
    {
      mayHaveBeenSent := id in requestMayHaveBeenSent;
      if futures[id] == Pending { futures := futures[id := Cancelled]; }
      phases := phases[id := TimedOut(mayHaveBeenSent)];
    }

    method FinishRequest(id: Id)
      requires CanDo(Contents(), Finish(id))
      modifies this
      ensures Contents() == Do(old(Contents()), Finish(id))
    {
      requests := requests - {id};
      requestMayHaveBeenSent := requestMayHaveBeenSent - {id};
      phases := phases[id := Finished];
    }
  }
}
