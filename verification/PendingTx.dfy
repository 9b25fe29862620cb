/** The ticket handle: one transaction's status, its update stream, its three waiter futures, and status
    callbacks that may call back into the ticket while a transition is still being announced. */
module PendingTx {
  import opened Options
  import opened TxLifecycle

  /** `Woken` is a future settled with the terminal error; `Resolved(None)` is the ticket itself. */
  datatype Future = Absent | Waiting | Resolved(result: Option<int>) | Woken

  datatype Item = Update(previous: TxStatus, status: TxStatus) | End

  datatype Ticket = Ticket(
    status: TxStatus,
    result: Option<int>,
    failed: bool,
    submitted: Future,
    inBlock: Future,
    finalized: Future,
    updates: seq<Item>)

  const FRESH := Ticket(Created, None, false, Absent, Absent, Absent, [])

  /** What a caller, or a callback, may ask of the ticket. `Fail(s)` covers the seven marks that carry an error. */
  datatype Op =
    | MarkSubmitting
    | MarkSubmitted
    | MarkInBlockSuccess(result: int)
    | MarkFinalized
    | MarkRetracted
    | Fail(status: TxStatus)
    | WaitSubmitted
    | WaitInBlock
    | WaitFinalized

  /** One call together with the calls the status callbacks make, in order, while the call announces its
      transition. A callback that raises simply makes no further calls. */
  datatype Call = Call(op: Op, nested: seq<Call>)

  function Resolve(f: Future, result: Option<int>): Future {
    if f.Waiting? then Resolved(result) else f
  }

  function Reject(f: Future): Future {
    if f.Waiting? then Woken else f
  }

  function Await(f: Future): Future {
    if f.Absent? then Waiting else f
  }

  function Renew(f: Future): Future {
    if f.Resolved? || f.Woken? then Waiting else f
  }

  predicate IsWait(op: Op) {
    op.WaitSubmitted? || op.WaitInBlock? || op.WaitFinalized?
  }

  function Target(op: Op): TxStatus
    requires !IsWait(op)
  {
    match op
    case MarkSubmitting => Submitting
    case MarkSubmitted => Submitted
    case MarkInBlockSuccess(_) => InBlockSuccess
    case MarkFinalized => Finalized
    case MarkRetracted => Retracted
    case Fail(s) => s
  }

  /** A mark that is not accepted raises, or in the case of a repeated `mark_submitted` only notes the node status. */
  predicate Accepts(t: Ticket, op: Op)
    requires !IsWait(op)
  {
    && Legal(t.status, Target(op))
    && (op.MarkFinalized? ==> t.result.Some?)
    && (op.Fail? ==> Failure(op.status))
  }

  /** The status is set and the update queued before any callback runs; an error is stored even earlier. */
  function Announced(t: Ticket, op: Op): Ticket
    requires !IsWait(op)
  {
    t.(failed := t.failed || op.Fail?,
       status := Target(op),
       updates := t.updates + [Update(t.status, Target(op))])
  }

  /** After the callbacks: the stream is closed if the target is terminal, then the mark settles the futures. */
  function Settled(op: Op, u: Ticket): Ticket
    requires !IsWait(op)
  {
    var closed := if Terminal(Target(op)) then u.(updates := u.updates + [End]) else u;
    match op
    case MarkSubmitting => closed
    case MarkSubmitted => closed.(submitted := Resolve(u.submitted, None))
    case MarkInBlockSuccess(r) =>
      closed.(result := Some(r), submitted := Resolve(u.submitted, None), inBlock := Resolve(u.inBlock, Some(r)))
    case MarkFinalized => closed.(finalized := Resolve(u.finalized, u.result))
    case MarkRetracted => closed.(result := None, inBlock := Renew(u.inBlock), finalized := Renew(u.finalized))
    case Fail(_) =>
      closed.(submitted := Reject(u.submitted), inBlock := Reject(u.inBlock), finalized := Reject(u.finalized))
  }

  /** A wait creates its future unless the ticket can already answer. */
  function Waited(t: Ticket, op: Op): Ticket
    requires IsWait(op)
  {
    if t.failed then t
    else match op
      case WaitSubmitted =>
        if t.status in {Submitted, InBlockSuccess, Finalized, Retracted} then t
        else t.(submitted := Await(t.submitted))
      case WaitInBlock =>
        if t.status in {InBlockSuccess, Finalized} then t else t.(inBlock := Await(t.inBlock))
      case WaitFinalized =>
        if t.status == Finalized then t else t.(finalized := Await(t.finalized))
  }

  function Perform(t: Ticket, c: Call): Ticket
    decreases c, 1
  {
    if IsWait(c.op) then Waited(t, c.op)
    else if Accepts(t, c.op) then Settled(c.op, PerformAll(Announced(t, c.op), c.nested))
    else t
  }

  function PerformAll(t: Ticket, calls: seq<Call>): Ticket
    decreases calls, 0
  {
    if calls == [] then t else PerformAll(Perform(t, calls[0]), calls[1..])
  }

  // ---------- the update stream ----------

  /** The items are legal transitions leading from Created to `last`, each from where the one before it ended. */
  predicate Chain(items: seq<Item>, last: TxStatus) {
    if items == [] then last == Created
    else
      var item := items[|items| - 1];
      && item.Update?
      && item.status == last
      && Legal(item.previous, last)
      && Chain(items[..|items| - 1], item.previous)
  }

  /** The same read item by item. */
  lemma {:induction false} ChainReads(items: seq<Item>, last: TxStatus, i: nat)
    requires Chain(items, last) && i < |items|
    ensures items[i].Update? && Legal(items[i].previous, items[i].status)
    ensures if i == 0 then items[i].previous == Created
            else items[i - 1].Update? && items[i].previous == items[i - 1].status
    decreases |items|
  {
    var init := items[..|items| - 1];
    if i < |init| {
      ChainReads(init, items[|items| - 1].previous, i);
      if 0 < i { assert init[i - 1] == items[i - 1]; }
    } else if 0 < i {
      ChainReads(init, items[|items| - 1].previous, i - 1);
    }
  }

  /** A chain up to the current status, closed by one end marker exactly when that status is terminal. */
  predicate StreamOk(t: Ticket) {
    if Terminal(t.status) then
      |t.updates| > 0 && t.updates[|t.updates| - 1] == End && Chain(t.updates[..|t.updates| - 1], t.status)
    else Chain(t.updates, t.status)
  }

  predicate FailedOk(t: Ticket) {
    t.failed <==> Failure(t.status)
  }

  lemma {:induction false} Frozen(t: Ticket, calls: seq<Call>)
    requires Terminal(t.status) && FailedOk(t)
    ensures PerformAll(t, calls) == t
  {
    if calls != [] {
      assert Perform(t, calls[0]) == t;
      Frozen(t, calls[1..]);
    }
  }

  lemma ChainExtends(items: seq<Item>, last: TxStatus, target: TxStatus)
    requires Chain(items, last) && Legal(last, target)
    ensures Chain(items + [Update(last, target)], target)
  {
    assert (items + [Update(last, target)])[..|items|] == items;
  }

  lemma SettledKeepsStream(op: Op, u: Ticket)
    requires !IsWait(op)
    ensures var v := Settled(op, u);
            && v.status == u.status && v.failed == u.failed
            && v.updates == if Terminal(Target(op)) then u.updates + [End] else u.updates
  {}

  lemma StreamOkAfterTerminal(t: Ticket, u: Ticket)
    requires StreamOk(t) && !Terminal(t.status) && Legal(t.status, u.status) && Terminal(u.status)
    requires u.updates == t.updates + [Update(t.status, u.status)] + [End]
    ensures StreamOk(u)
  {
    ChainExtends(t.updates, t.status, u.status);
    assert u.updates[..|u.updates| - 1] == t.updates + [Update(t.status, u.status)];
  }

  lemma AnnouncedStream(t: Ticket, op: Op)
    requires !IsWait(op) && Accepts(t, op) && StreamOk(t) && FailedOk(t)
    ensures var a := Announced(t, op);
            && !Terminal(t.status) && a.updates == t.updates + [Update(t.status, a.status)]
            && Chain(a.updates, a.status) && FailedOk(a)
  {
    ChainExtends(t.updates, t.status, Target(op));
  }

  lemma TerminalMarkEndsStream(t: Ticket, c: Call)
    requires !IsWait(c.op) && Accepts(t, c.op) && Terminal(Target(c.op)) && StreamOk(t) && FailedOk(t)
    ensures StreamOk(Perform(t, c)) && FailedOk(Perform(t, c))
  {
    var a := Announced(t, c.op);
    AnnouncedStream(t, c.op);
    Frozen(a, c.nested);
    SettledKeepsStream(c.op, a);
    StreamOkAfterTerminal(t, Perform(t, c));
  }

  /** Whatever the callbacks do, each call leaves a legal chain behind it. */
  lemma {:induction false} StreamKept(t: Ticket, c: Call)
    requires StreamOk(t) && FailedOk(t)
    ensures StreamOk(Perform(t, c)) && FailedOk(Perform(t, c))
    decreases c, 1
  {
    if !IsWait(c.op) && Accepts(t, c.op) {
      if Terminal(Target(c.op)) {
        TerminalMarkEndsStream(t, c);
      } else {
        var a := Announced(t, c.op);
        AnnouncedStream(t, c.op);
        StreamKeptByAll(a, c.nested);
        SettledKeepsStream(c.op, PerformAll(a, c.nested));
        SameStream(PerformAll(a, c.nested), Perform(t, c));
      }
    }
  }

  lemma SameStream(u: Ticket, v: Ticket)
    requires StreamOk(u) && FailedOk(u) && v.status == u.status && v.failed == u.failed && v.updates == u.updates
    ensures StreamOk(v) && FailedOk(v)
  {}

  lemma {:induction false} StreamKeptByAll(t: Ticket, calls: seq<Call>)
    requires StreamOk(t) && FailedOk(t)
    ensures StreamOk(PerformAll(t, calls)) && FailedOk(PerformAll(t, calls))
    decreases calls, 0
  {
    if calls != [] {
      StreamKept(t, calls[0]);
      StreamKeptByAll(Perform(t, calls[0]), calls[1..]);
    }
  }

  /** For every history of a ticket, re-entrant or not, the queued updates tell its life without a gap. */
  lemma StreamAlwaysOk(history: seq<Call>)
    ensures StreamOk(PerformAll(FRESH, history))
  {
    StreamKeptByAll(FRESH, history);
  }

  // ---------- the waiter futures ----------

  /** Two promises of a ticket: it leaves no waiter behind when it ends, and it has its result while it is executed. */
  datatype Promise = Waiters | Result | Both

  /** Nobody is left waiting for something the ticket can already answer. `owesS` and `owesI` excuse what an enclosing
      `mark_submitted` or `mark_in_block_success` will still settle once its callbacks return. */
  predicate WaitersUpTo(t: Ticket, owesS: bool, owesI: bool) {
    && (!owesS && t.status in {Submitted, InBlockSuccess, Retracted, Finalized} ==> !t.submitted.Waiting?)
    && (!owesI && (t.status == Finalized || (t.status == InBlockSuccess && t.result.Some?)) ==> !t.inBlock.Waiting?)
    && (t.status == Finalized ==> !t.finalized.Waiting?)
    && (Failure(t.status) ==> AllSettled(t))
  }

  predicate AllSettled(t: Ticket) {
    !t.submitted.Waiting? && !t.inBlock.Waiting? && !t.finalized.Waiting?
  }

  predicate ResultUpTo(t: Ticket, owesI: bool) {
    !owesI && t.status in {InBlockSuccess, Finalized} ==> t.result.Some?
  }

  predicate CalmUpTo(t: Ticket, p: Promise, owesS: bool, owesI: bool) {
    (p != Result ==> WaitersUpTo(t, owesS, owesI)) && (p != Waiters ==> ResultUpTo(t, owesI))
  }

  predicate Calm(t: Ticket, p: Promise) {
    CalmUpTo(t, p, false, false)
  }

  /** What the callbacks of a retraction must have left for its clean-up to break no promise: if they ended the ticket,
      nobody had ever waited for a result; and it is not executed. */
  predicate Harmless(u: Ticket, p: Promise) {
    && (p != Result && Terminal(u.status) ==> u.inBlock.Absent? && u.finalized.Absent?)
    && (p != Waiters ==> u.status !in {InBlockSuccess, Finalized})
  }

  /** Every retraction accepted in the course of this call, at any depth, is harmless. */
  predicate Clean(t: Ticket, c: Call, p: Promise)
    decreases c, 1
  {
    IsWait(c.op) || !Accepts(t, c.op)
    || (CleanAll(Announced(t, c.op), c.nested, p)
        && (c.op.MarkRetracted? ==> Harmless(PerformAll(Announced(t, c.op), c.nested), p)))
  }

  predicate CleanAll(t: Ticket, calls: seq<Call>, p: Promise)
    decreases calls, 0
  {
    calls == [] || (Clean(t, calls[0], p) && CleanAll(Perform(t, calls[0]), calls[1..], p))
  }

  lemma {:induction false} CalmKept(t: Ticket, c: Call, p: Promise, owesS: bool, owesI: bool)
    requires CalmUpTo(t, p, owesS, owesI) && FailedOk(t) && Clean(t, c, p)
    ensures CalmUpTo(Perform(t, c), p, owesS, owesI) && FailedOk(Perform(t, c))
    decreases c, 1
  {
    if !IsWait(c.op) && Accepts(t, c.op) {
      var announced := Announced(t, c.op);
      match c.op
      case MarkSubmitting => CalmKeptByAll(announced, c.nested, p, owesS, owesI);
      case MarkSubmitted => CalmKeptByAll(announced, c.nested, p, true, owesI);
      case MarkInBlockSuccess(_) => CalmKeptByAll(announced, c.nested, p, true, true);
      case MarkRetracted => CalmKeptByAll(announced, c.nested, p, owesS, owesI);
      case _ => Frozen(announced, c.nested);
    }
  }

  lemma {:induction false} CalmKeptByAll(t: Ticket, calls: seq<Call>, p: Promise, owesS: bool, owesI: bool)
    requires CalmUpTo(t, p, owesS, owesI) && FailedOk(t) && CleanAll(t, calls, p)
    ensures var u := PerformAll(t, calls); CalmUpTo(u, p, owesS, owesI) && FailedOk(u)
    decreases calls, 0
  {
    if calls != [] {
      CalmKept(t, calls[0], p, owesS, owesI);
      CalmKeptByAll(Perform(t, calls[0]), calls[1..], p, owesS, owesI);
    }
  }

  /** As long as no retraction of its history, at any depth, is ended by its own callbacks after somebody waited for a
      result, a terminal ticket leaves no waiter behind. */
  lemma TerminalSettlesEveryWaiter(history: seq<Call>)
    requires CleanAll(FRESH, history, Waiters)
    ensures var t := PerformAll(FRESH, history); Terminal(t.status) ==> AllSettled(t)
  {
    CalmKeptByAll(FRESH, history, Waiters, false, false);
  }

  /** As long as no retraction of its history, at any depth, is executed again by its own callbacks, an executed ticket
      has its result. */
  lemma ExecutedKeepsResult(history: seq<Call>)
    requires CleanAll(FRESH, history, Result)
    ensures var t := PerformAll(FRESH, history); t.status in {InBlockSuccess, Finalized} ==> t.result.Some?
  {
    CalmKeptByAll(FRESH, history, Result, false, false);
  }

  lemma {:induction false} NeverBackToSubmitting(t: Ticket, calls: seq<Call>)
    requires t.status !in {Created, Submitting}
    ensures PerformAll(t, calls).status !in {Created, Submitting}
    decreases calls, 0
  {
    if calls != [] {
      NeverBackOnce(t, calls[0]);
      NeverBackToSubmitting(Perform(t, calls[0]), calls[1..]);
    }
  }

  lemma {:induction false} NeverBackOnce(t: Ticket, c: Call)
    requires t.status !in {Created, Submitting}
    ensures Perform(t, c).status !in {Created, Submitting}
    decreases c, 1
  {
    if !IsWait(c.op) && Accepts(t, c.op) {
      NeverBackToSubmitting(Announced(t, c.op), c.nested);
    }
  }

  /** And harmless is exactly what it takes: one retraction of an executed ticket keeps either promise, or both, if and
      only if it is harmless for it; and one that ends the ticket settles every waiter if and only if nobody had waited
      for a result. */
  lemma RetractionHarmlessIff(t: Ticket, nested: seq<Call>, p: Promise)
    requires t.status == InBlockSuccess && Calm(t, p) && FailedOk(t) && CleanAll(Announced(t, MarkRetracted), nested, p)
    ensures var u, d := PerformAll(Announced(t, MarkRetracted), nested), Perform(t, Call(MarkRetracted, nested));
            && (Calm(d, p) <==> Harmless(u, p))
            && (p != Result && Terminal(d.status) ==> (AllSettled(d) <==> u.inBlock.Absent? && u.finalized.Absent?))
  {
    CalmKeptByAll(Announced(t, MarkRetracted), nested, p, false, false);
    NeverBackToSubmitting(Announced(t, MarkRetracted), nested);
  }

  /** Calm after every call of a history. */
  predicate CalmThroughout(t: Ticket, calls: seq<Call>, p: Promise)
    decreases |calls|
  {
    calls == [] || (Calm(Perform(t, calls[0]), p) && CalmThroughout(Perform(t, calls[0]), calls[1..], p))
  }

  /** The retractions made by callbacks, as opposed to those of the history's own calls, are harmless. */
  predicate CallbacksClean(t: Ticket, calls: seq<Call>, p: Promise)
    decreases |calls|
  {
    calls == []
    || ((IsWait(calls[0].op) || !Accepts(t, calls[0].op) || CleanAll(Announced(t, calls[0].op), calls[0].nested, p))
        && CallbacksClean(Perform(t, calls[0]), calls[1..], p))
  }

  /** Over whole histories: the ticket keeps a promise after each call if and only if each retraction is harmless. */
  lemma {:induction false} CalmThroughoutIff(t: Ticket, calls: seq<Call>, p: Promise)
    requires Calm(t, p) && FailedOk(t) && CallbacksClean(t, calls, p)
    ensures CalmThroughout(t, calls, p) <==> CleanAll(t, calls, p)
    decreases |calls|
  {
    if calls != [] {
      var c := calls[0];
      if Clean(t, c, p) {
        CalmKept(t, c, p, false, false);
        CalmThroughoutIff(Perform(t, c), calls[1..], p);
      } else {
        assert c == Call(MarkRetracted, c.nested);
        RetractionHarmlessIff(t, c.nested, p);
      }
    }
  }

  // ---------- what the waiters are told ----------

  /** The ticket a mark announces to its callbacks: its new status is set and its update queued. */
  function AnnouncedAs(t: Ticket, s: TxStatus): Ticket {
    t.(status := s, updates := t.updates + [Update(t.status, s)])
  }

  /** A mark that ends the ticket with an error tells every waiter of that error and nothing else, whatever the
      callbacks do; futures settled before keep their answer. */
  lemma FailureWakesEveryWaiter(t: Ticket, s: TxStatus, nested: seq<Call>)
    requires FailedOk(t) && Legal(t.status, s)
    requires s in {InBlockFailed, Invalid, Dropped, NotIncluded, Usurped, ReconciliationRequired, ClientClosed}
    ensures var d := Perform(t, Call(Fail(s), nested));
            && d.status == s && d.failed && d.result == t.result
            && d.submitted == (if t.submitted == Waiting then Woken else t.submitted)
            && d.inBlock == (if t.inBlock == Waiting then Woken else t.inBlock)
            && d.finalized == (if t.finalized == Waiting then Woken else t.finalized)
            && d.updates == t.updates + [Update(t.status, s), End]
  {
    var a := AnnouncedAs(t, s).(failed := true);
    Frozen(a, nested);
    assert t.updates + [Update(t.status, s)] + [End] == t.updates + [Update(t.status, s), End];
  }

  /** Acceptance by the node answers those still waiting for submission with the ticket, and nobody else. */
  lemma SubmissionAnswersItsWaiters(t: Ticket, nested: seq<Call>)
    requires Legal(t.status, Submitted)
    ensures var u, d := PerformAll(AnnouncedAs(t, Submitted), nested), Perform(t, Call(MarkSubmitted, nested));
            && d.submitted == (if u.submitted == Waiting then Resolved(None) else u.submitted)
            && d == u.(submitted := d.submitted)
  {}

  /** Execution records its result and answers those still waiting for it with that result. */
  lemma ExecutionAnswersItsWaiters(t: Ticket, r: int, nested: seq<Call>)
    requires Legal(t.status, InBlockSuccess)
    ensures var u := PerformAll(AnnouncedAs(t, InBlockSuccess), nested);
            var d := Perform(t, Call(MarkInBlockSuccess(r), nested));
            && d.result == Some(r)
            && d.submitted == (if u.submitted == Waiting then Resolved(None) else u.submitted)
            && d.inBlock == (if u.inBlock == Waiting then Resolved(Some(r)) else u.inBlock)
            && d == u.(result := d.result, submitted := d.submitted, inBlock := d.inBlock)
  {}

  /** Finalization is accepted only with a result, ends the ticket and answers with that result, whatever the callbacks
      do. */
  lemma FinalizationAnswersItsWaiters(t: Ticket, nested: seq<Call>)
    requires FailedOk(t) && t.status == InBlockSuccess
    ensures var d := Perform(t, Call(MarkFinalized, nested));
            if t.result == None then d == t
            else
              && d.status == Finalized && d.result == t.result
              && d.finalized == (if t.finalized == Waiting then Resolved(t.result) else t.finalized)
              && d.submitted == t.submitted && d.inBlock == t.inBlock && !d.failed
  {
    Frozen(AnnouncedAs(t, Finalized), nested);
  }

  /** A retraction forgets the result and opens the two result futures anew for those who had been answered. */
  lemma RetractionReopensAnswers(t: Ticket, nested: seq<Call>)
    requires t.status == InBlockSuccess
    ensures var u, d := PerformAll(AnnouncedAs(t, Retracted), nested), Perform(t, Call(MarkRetracted, nested));
            && d.result == None
            && d.inBlock == (if u.inBlock == Absent then Absent else Waiting)
            && d.finalized == (if u.finalized == Absent then Absent else Waiting)
            && d == u.(result := None, inBlock := d.inBlock, finalized := d.finalized)
  {}

  /** A mark is refused, and then changes nothing, exactly when its transition is not in the table, a failure status is
      asked for as if it were none, or finalization has no result to give. */
  lemma RefusedMarksChangeNothing(t: Ticket, c: Call)
    requires !IsWait(c.op)
    ensures !Legal(t.status, Target(c.op)) ==> Perform(t, c) == t
    ensures c.op == MarkFinalized && t.result == None ==> Perform(t, c) == t
  {}

  /** Waiting creates a future exactly when the ticket cannot answer yet and nobody waited before. */
  lemma WaitingAsksOnce(t: Ticket, op: Op, nested: seq<Call>)
    requires op in {WaitSubmitted, WaitInBlock, WaitFinalized}
    ensures var d := Perform(t, Call(op, nested));
            && (op == WaitSubmitted && t.submitted == Absent && !t.failed && t.status in {Created, Submitting}
                ==> d == t.(submitted := Waiting))
            && (op == WaitInBlock && t.inBlock == Absent && !t.failed && t.status !in {InBlockSuccess, Finalized}
                ==> d == t.(inBlock := Waiting))
            && (op == WaitFinalized && t.finalized == Absent && !t.failed && t.status != Finalized
                ==> d == t.(finalized := Waiting))
            && (t.failed || t.status == Finalized ==> d == t)
  {}

  /** The status was reached at some point. */
  predicate Reached(items: seq<Item>, s: TxStatus) {
    exists i | 0 <= i < |items| :: items[i].Update? && items[i].status == s
  }

  /** An answer is true: submission is confirmed only after acceptance or execution, a result given only after
      execution, finality only of a finalized ticket; and an error is told only of a ticket that ended with one. */
  predicate AnswersTrue(t: Ticket) {
    && (t.submitted.Resolved? ==> Reached(t.updates, Submitted) || Reached(t.updates, InBlockSuccess))
    && (t.inBlock.Resolved? ==> Reached(t.updates, InBlockSuccess))
    && (t.finalized.Resolved? ==> Reached(t.updates, Finalized))
    && (t.submitted.Woken? || t.inBlock.Woken? || t.finalized.Woken? ==> t.failed)
  }

  lemma ReachedStays(items: seq<Item>, more: seq<Item>, s: TxStatus)
    requires items <= more && Reached(items, s)
    ensures Reached(more, s)
  {
    var i :| 0 <= i < |items| && items[i].Update? && items[i].status == s;
    assert more[i] == items[i];
  }

  /** The stream only grows, and a failure is never forgotten. */
  ghost predicate Grows(t: Ticket, u: Ticket) {
    t.updates <= u.updates && (t.failed ==> u.failed)
  }

  lemma {:induction false} CallGrows(t: Ticket, c: Call)
    ensures Grows(t, Perform(t, c))
    decreases c, 1
  {
    if !IsWait(c.op) && Accepts(t, c.op) { CallsGrow(Announced(t, c.op), c.nested); }
  }

  lemma {:induction false} CallsGrow(t: Ticket, calls: seq<Call>)
    ensures Grows(t, PerformAll(t, calls))
    decreases calls, 0
  {
    if calls != [] {
      CallGrows(t, calls[0]);
      CallsGrow(Perform(t, calls[0]), calls[1..]);
    }
  }

  lemma AnnouncedStaysTrue(t: Ticket, op: Op)
    requires !IsWait(op) && AnswersTrue(t)
    ensures AnswersTrue(Announced(t, op)) && Reached(Announced(t, op).updates, Target(op))
    ensures op.Fail? ==> Announced(t, op).failed
  {
    var a := Announced(t, op);
    assert a.updates[|t.updates|] == Update(t.status, Target(op));
    forall s | Reached(t.updates, s) ensures Reached(a.updates, s) { ReachedStays(t.updates, a.updates, s); }
  }

  lemma SettledStaysTrue(op: Op, a: Ticket, u: Ticket)
    requires !IsWait(op) && AnswersTrue(u) && Grows(a, u) && Reached(a.updates, Target(op)) && (op.Fail? ==> a.failed)
    ensures AnswersTrue(Settled(op, u))
  {
    var d := Settled(op, u);
    ReachedStays(a.updates, u.updates, Target(op));
    assert u.updates <= d.updates;
    forall s | Reached(u.updates, s) ensures Reached(d.updates, s) { ReachedStays(u.updates, d.updates, s); }
  }

  lemma {:induction false} CallStaysTrue(t: Ticket, c: Call)
    requires AnswersTrue(t)
    ensures AnswersTrue(Perform(t, c))
    decreases c, 1
  {
    if !IsWait(c.op) && Accepts(t, c.op) {
      var a := Announced(t, c.op);
      AnnouncedStaysTrue(t, c.op);
      CallsStayTrue(a, c.nested);
      CallsGrow(a, c.nested);
      SettledStaysTrue(c.op, a, PerformAll(a, c.nested));
    }
  }

  lemma {:induction false} CallsStayTrue(t: Ticket, calls: seq<Call>)
    requires AnswersTrue(t)
    ensures AnswersTrue(PerformAll(t, calls))
    decreases calls, 0
  {
    if calls != [] {
      CallStaysTrue(t, calls[0]);
      CallsStayTrue(Perform(t, calls[0]), calls[1..]);
    }
  }

  /** For every history, re-entrant to any depth: whoever waited was told the truth. So a ticket that failed before it
      was ever accepted has no resolved future at all. */
  lemma WaitersAreToldTheTruth(history: seq<Call>)
    ensures var t := PerformAll(FRESH, history);
            && AnswersTrue(t)
            && (t.submitted == Woken || t.inBlock == Woken || t.finalized == Woken ==> Failure(t.status))
  {
    CallsStayTrue(FRESH, history);
    StreamKeptByAll(FRESH, history);
  }

  lemma {:induction false} PerformAllAppends(t: Ticket, calls: seq<Call>, c: Call)
    ensures PerformAll(t, calls + [c]) == Perform(PerformAll(t, calls), c)
    decreases calls
  {
    if calls == [] {
      assert PerformAll(Perform(t, c), []) == Perform(t, c);
    } else {
      assert (calls + [c])[1..] == calls[1..] + [c];
      PerformAllAppends(Perform(t, calls[0]), calls[1..], c);
    }
  }

  /** A waiter saw the result, the block is retracted, and a callback closes the ticket while the retraction is
      being announced. */
  predicate Stranding(h: seq<Call>) {
    && |h| == 4
    && h[0].op == WaitInBlock
    && h[1] == Call(MarkSubmitted, [])
    && h[2] == Call(MarkInBlockSuccess(7), [])
    && h[3].op == MarkRetracted && h[3].nested == [Call(Fail(ClientClosed), [])]
  }

  /** Without it the waiter property is false: such a ticket ends terminal with a future nobody settles. */
  lemma RetractionCanStrandWaiter(h: seq<Call>)
    requires Stranding(h)
    ensures Terminal(PerformAll(FRESH, h).status) && PerformAll(FRESH, h).inBlock.Waiting?
  {
    var t0 := Perform(FRESH, h[0]);
    var t1 := Perform(t0, h[1]);
    var t2 := Perform(t1, h[2]);
    assert t1.status == Submitted && t1.inBlock.Waiting? && !t1.failed;
    assert t2.status == InBlockSuccess && t2.inBlock.Resolved?;
    RetractThenClose(t2, h[3]);
    Unroll4(FRESH, h);
  }

  lemma RetractThenClose(t: Ticket, c: Call)
    requires t.status == InBlockSuccess && t.inBlock.Resolved?
    requires c.op == MarkRetracted && c.nested == [Call(Fail(ClientClosed), [])]
    ensures Perform(t, c).status == ClientClosed && Perform(t, c).inBlock.Waiting?
  {
    var announced := Announced(t, MarkRetracted);
    var inner := Perform(announced, c.nested[0]);
    assert inner.status == ClientClosed && inner.inBlock.Resolved?;
    assert c.nested[1..] == [];
    assert PerformAll(announced, c.nested) == inner;
  }

  lemma Unroll4(t: Ticket, h: seq<Call>)
    requires |h| == 4
    ensures PerformAll(t, h) == Perform(Perform(Perform(Perform(t, h[0]), h[1]), h[2]), h[3])
  {
    var t1 := Perform(t, h[0]);
    var t2 := Perform(t1, h[1]);
    var t3 := Perform(t2, h[2]);
    assert h[1..][1..] == h[2..] && h[2..][1..] == h[3..] && h[3..][1..] == [];
    assert PerformAll(t, h) == PerformAll(t1, h[1..]);
    assert PerformAll(t1, h[1..]) == PerformAll(t2, h[2..]);
    assert PerformAll(t2, h[2..]) == PerformAll(t3, h[3..]);
    assert PerformAll(t3, h[3..]) == PerformAll(Perform(t3, h[3]), []);
  }

  // ---------- the handle itself ----------

  /** The object whose fields the marks assign. What the registered callbacks do during a transition is the
      input `nested`. */
  class PendingTransaction {
    var status: TxStatus
    var result: Option<int>
    var failed: bool
    var submittedFuture: Future
    var inBlockFuture: Future
    var finalizedFuture: Future
    var updates: seq<Item>

    ghost function State(): Ticket
      reads this
    {
      Ticket(status, result, failed, submittedFuture, inBlockFuture, finalizedFuture, updates)
    }

    constructor ()
      ensures State() == FRESH
    {
      status, result, failed := Created, None, false;
      submittedFuture, inBlockFuture, finalizedFuture := Absent, Absent, Absent;
      updates := [];
    }

    method NotifyCallbacks(nested: seq<Call>)
      modifies this
      ensures State() == PerformAll(old(State()), nested)
      decreases nested, 0
    {
      var i := 0;
      assert nested[..0] == [];
      while i < |nested|
        invariant 0 <= i <= |nested|
        invariant State() == PerformAll(old(State()), nested[..i])
      {
        PerformAllAppends(old(State()), nested[..i], nested[i]);
        assert nested[..i + 1] == nested[..i] + [nested[i]];
        Handle(nested[i]);
        i := i + 1;
      }
      assert nested[..i] == nested;
    }

    /** The common part of every accepted mark: status, queue, callbacks, end marker. */
    method Transition(target: TxStatus, nested: seq<Call>)
      modifies this
      requires Legal(status, target)
      ensures var announced := old(State()).(status := target, updates := old(updates) + [Update(old(status), target)]);
              var after := PerformAll(announced, nested);
              State() == if Terminal(target) then after.(updates := after.updates + [End]) else after
      decreases nested, 1
    {
      updates := updates + [Update(status, target)];
      status := target;
      NotifyCallbacks(nested);
      if target in TERMINAL {
        updates := updates + [End];
      }
    }

    method FinishWithError(s: TxStatus, nested: seq<Call>)
      modifies this
      requires Failure(s) && Legal(status, s)
      ensures State() == Settled(Fail(s), PerformAll(Announced(old(State()), Fail(s)), nested))
      decreases nested, 2
    {
      failed := true;
      Transition(s, nested);
      submittedFuture, inBlockFuture := Reject(submittedFuture), Reject(inBlockFuture);
      finalizedFuture := Reject(finalizedFuture);
    }

    /** Every public entry point of the handle, dispatched on the call. */
    method Handle(c: Call)
      modifies this
      ensures State() == Perform(old(State()), c)
      decreases c, 1
    {
      match c.op {
        case MarkSubmitting =>
          if Legal(status, Submitting) { Transition(Submitting, c.nested); }
        case MarkSubmitted =>
          if Legal(status, Submitted) {
            Transition(Submitted, c.nested);
            submittedFuture := Resolve(submittedFuture, None);
          }
        case MarkInBlockSuccess(r) =>
          if Legal(status, InBlockSuccess) {
            Transition(InBlockSuccess, c.nested);
            result := Some(r);
            submittedFuture := Resolve(submittedFuture, None);
            inBlockFuture := Resolve(inBlockFuture, result);
          }
        case MarkFinalized =>
          if result.Some? && Legal(status, Finalized) {
            Transition(Finalized, c.nested);
            finalizedFuture := Resolve(finalizedFuture, result);
          }
        case MarkRetracted =>
          if Legal(status, Retracted) {
            Transition(Retracted, c.nested);
            result := None;
            inBlockFuture, finalizedFuture := Renew(inBlockFuture), Renew(finalizedFuture);
          }
        case Fail(s) =>
          if Failure(s) && Legal(status, s) { FinishWithError(s, c.nested); }
        case WaitSubmitted =>
          if status !in {Submitted, InBlockSuccess, Finalized, Retracted} && !failed {
            submittedFuture := Await(submittedFuture);
          }
        case WaitInBlock =>
          if status !in {InBlockSuccess, Finalized} && !failed { inBlockFuture := Await(inBlockFuture); }
        case WaitFinalized =>
          if status != Finalized && !failed { finalizedFuture := Await(finalizedFuture); }
      }
    }
  }
}
