/** NOT_INCLUDED is always evidenced: which step can give that verdict, and what the ticket's record then shows. */
module Evidence {
  import opened Shared
  import opened TxLifecycle
  import opened TrackerModel
  import opened Engine
  import opened Acceptance
  import opened Coverage

  predicate EndpointOk(x: Tx) {
    x.submissionEndpoint.Some? ==> x.status !in {Created, Submitting}
  }

  predicate OldEnough(w: World, s: State, h: TxHash) {
    h in s.tracker.txs && s.now - s.tracker.txs[h].createdAt >= w.staleMs
  }

  function Rest(scan: Scan): seq<TxHash> {
    if scan.AskingPool? || scan.Judging? then scan.rest else []
  }

  /** The submission endpoint is recorded only on paths that also leave SUBMITTING, and the tickets handed to the pool
      check are past the stale age. */
  ghost predicate EvidenceInv(w: World, s: State) {
    && (forall h | h in s.tracker.txs :: EndpointOk(s.tracker.txs[h]))
    && (forall h | h in Rest(s.scan) :: OldEnough(w, s, h))
  }

  /** A step that keeps every ticket's birth and sends none back to SUBMITTING. */
  ghost predicate TicketsAge(t: Tracker, u: Tracker) {
    && t.txs.Keys <= u.txs.Keys
    && forall h | h in u.txs ::
         if h in t.txs
         then u.txs[h].createdAt == t.txs[h].createdAt && (EndpointOk(t.txs[h]) ==> EndpointOk(u.txs[h]))
         else EndpointOk(u.txs[h])
  }

  lemma AgeKeeps(w: World, s: State, d: State)
    requires EvidenceInv(w, s) && TicketsAge(s.tracker, d.tracker) && d.now >= s.now
    requires forall h | h in Rest(d.scan) :: h in Rest(s.scan)
    ensures EvidenceInv(w, d)
  {
    forall h | h in Rest(d.scan) ensures OldEnough(w, d, h) { assert OldEnough(w, s, h); }
  }

  lemma MatchAges(w: World, s: State, e: Event, d: State)
    requires w.concurrency >= 1 && CanDo(w, s, e) && IsResolveEvent(e) && d == Do(w, s, e)
    ensures TicketsAge(s.tracker, d.tracker) && d.scan == s.scan && d.now == s.now
  {
    if Matched(s, e).Some? { MatchShape(w, s, e, d); } else { PlainShape(w, s, e, d); }
  }

  lemma BeginAges(w: World, s: State, f: int, d: State)
    requires w.concurrency >= 1 && d == DoScanBegin(w, s, f)
    ensures TicketsAge(s.tracker, d.tracker) && d.now == s.now && (Rest(d.scan) == [] || d.scan == s.scan)
  {}

  lemma BatchAges(w: World, s: State, d: State)
    requires w.concurrency >= 1 && CanDo(w, s, BatchEnd) && d == DoBatchEnd(w, s)
    ensures TicketsAge(s.tracker, d.tracker) && d.now == s.now && Rest(d.scan) == []
  {}

  lemma JudgeAges(w: World, s: State, d: State)
    requires CanDo(w, s, JudgeOne) && d == DoJudge(w, s)
    ensures TicketsAge(s.tracker, d.tracker) && d.now == s.now
    ensures forall h | h in Rest(d.scan) :: h in Rest(s.scan)
  {}

  lemma BestDoneAges(w: World, s: State, order: seq<TxHash>, endpoint: Endpoint, d: State)
    requires w.concurrency >= 1 && EvidenceInv(w, s) && CanDo(w, s, BestDone(order, endpoint))
    requires d == DoScan(w, s, BestDone(order, endpoint))
    ensures EvidenceInv(w, d)
  {
    forall h | h in Rest(d.scan) ensures OldEnough(w, d, h) { assert h in Members(order); }
  }

  lemma ScanEvidence(w: World, s: State, e: Event, d: State)
    requires w.concurrency >= 1 && EvidenceInv(w, s) && CanDo(w, s, e) && IsScanEvent(e) && d == DoScan(w, s, e)
    ensures EvidenceInv(w, d)
  {
    match e
    case ScanBegin(f) => BeginAges(w, s, f, d); AgeKeeps(w, s, d);
    case BatchEnd => BatchAges(w, s, d); AgeKeeps(w, s, d);
    case JudgeOne => JudgeAges(w, s, d); AgeKeeps(w, s, d);
    case BestDone(order, ep) => BestDoneAges(w, s, order, ep, d);
    case _ => TurnEvidence(w, s, e, d);
  }

  lemma TurnEvidence(w: World, s: State, e: Event, d: State)
    requires e.KidHash? || e.KidRefused? || e.ScanAbort? || e.BestFailed? || e.PoolAnswered? || e.JudgeEnd?
    requires w.concurrency >= 1 && EvidenceInv(w, s) && CanDo(w, s, e) && d == DoScan(w, s, e)
    ensures EvidenceInv(w, d)
  {
    AgeKeeps(w, s, d);
  }

  lemma StepEvidence(w: World, s: State, e: Event, d: State)
    requires w.concurrency >= 1 && EvidenceInv(w, s) && CanDo(w, s, e) && d == Do(w, s, e)
    ensures EvidenceInv(w, d)
  {
    if IsResolveEvent(e) {
      MatchAges(w, s, e, d);
      AgeKeeps(w, s, d);
    } else if IsScanEvent(e) {
      ScanEvidence(w, s, e, d);
    } else {
      AgeKeeps(w, s, d);
    }
  }

  lemma {:induction false} RunEvidence(w: World, s: State, es: seq<Event>)
    requires w.concurrency >= 1 && EvidenceInv(w, s) && Run(w, s, es)
    ensures EvidenceInv(w, After(w, s, es))
    decreases |es|
  {
    if es != [] {
      StepEvidence(w, s, es[0], Do(w, s, es[0]));
      RunEvidence(w, Do(w, s, es[0]), es[1..]);
    }
  }

  // ---------- which step gives the verdict ----------

  predicate TurnsNotIncluded(s: State, d: State, h: TxHash) {
    && h in d.tracker.txs && d.tracker.txs[h].status == NotIncluded
    && (h in s.tracker.txs ==> s.tracker.txs[h].status != NotIncluded)
  }

  lemma ScanVerdict(w: World, s: State, e: Event, d: State, h: TxHash)
    requires w.concurrency >= 1 && CanDo(w, s, e) && IsScanEvent(e) && !e.JudgeOne? && d == DoScan(w, s, e)
    ensures !TurnsNotIncluded(s, d, h)
  {
    match e
    case ScanBegin(f) =>
    case BatchEnd => BatchVerdict(w, s, d, h);
    case _ =>
  }

  lemma BatchVerdict(w: World, s: State, d: State, h: TxHash)
    requires w.concurrency >= 1 && CanDo(w, s, BatchEnd) && d == DoBatchEnd(w, s)
    ensures !TurnsNotIncluded(s, d, h)
  {}

  lemma OnlyJudging(w: World, s: State, e: Event, d: State, h: TxHash)
    requires w.concurrency >= 1 && CanDo(w, s, e) && d == Do(w, s, e) && TurnsNotIncluded(s, d, h)
    ensures e == JudgeOne && s.scan.rest[0] == h
  {
    if IsResolveEvent(e) {
      if Matched(s, e).Some? {
        MatchShape(w, s, e, d);
        ResolveVerdict(s, e, d, h);
      }
    } else if IsScanEvent(e) && !e.JudgeOne? {
      ScanVerdict(w, s, e, d, h);
    }
  }

  /** A block never yields NOT_INCLUDED. */
  lemma ResolveVerdict(s: State, e: Event, d: State, h: TxHash)
    requires e.ApplyOne? || e.FailOne?
    requires e.id in s.resolves && Matched(s, e).Some?
    requires var b, g := s.resolves[e.id].block, Matched(s, e).value;
             d.tracker == if e.ApplyOne? then ApplyMatch(s.tracker, b, g, e.verdict).0 else FailMatch(s.tracker, b, g).0
    ensures !TurnsNotIncluded(s, d, h)
  {}

  /** What the ticket's record shows once it is ended as NOT_INCLUDED: it had been accepted; it is past the stale age;
      the scan is complete, from the height recorded first to the last, and every height between was resolved; and
      the pool that answered was that of the node it was submitted to, and does not hold it. */
  ghost predicate Evidenced(w: World, s: State, d: State, h: TxHash) {
    && h in s.tracker.txs && h in d.tracker.txs && s.scan.Judging?
    && var before, x := s.tracker.txs[h], d.tracker.txs[h];
       && before.status in {Submitted, Retracted}
       && d.now - x.createdAt >= w.staleMs
       && x.recovery.complete && x.recovery.missing == [] && x.recovery.scanEnd == s.scan.last
       && x.recovery.scanStart.Some?
       && Covered(d.scanned, x.recovery.scanStart.value, x.recovery.scanEnd)
       && x.submissionEndpoint.Some? && x.recovery.poolEndpoint == x.submissionEndpoint
       && x.recovery.poolResult == Absent
       && s.scan.pool.Listing? && h !in s.scan.pool.hashes
  }

  lemma VerdictShows(w: World, s: State, d: State, h: TxHash)
    requires w.concurrency >= 1 && EvidenceInv(w, s) && CoverInv(s) && CanDo(w, s, JudgeOne) && d == Do(w, s, JudgeOne)
    requires s.scan.rest[0] == h && TurnsNotIncluded(s, d, h)
    ensures Evidenced(w, s, d, h)
  {
    assert OldEnough(w, s, h);
    assert EndpointOk(s.tracker.txs[h]);
    var Judging(first, last, endpoint, pool, rest) := s.scan;
    JudgedCovered(s.tracker.txs[h], first, last, endpoint, pool, h, s.scanned);
  }

  lemma ReachedFacts(w: World, init: State, es: seq<Event>, s: State)
    requires w.concurrency >= 1 && Initial(init) && Run(w, init, es) && s == After(w, init, es)
    ensures EvidenceInv(w, s) && CoverInv(s)
  {
    RunEvidence(w, init, es);
    RunCovers(w, init, es);
  }

  lemma VerdictIsEvidenced(w: World, s: State, e: Event, d: State, h: TxHash)
    requires w.concurrency >= 1 && EvidenceInv(w, s) && CoverInv(s)
    requires CanDo(w, s, e) && d == Do(w, s, e) && TurnsNotIncluded(s, d, h)
    ensures e == JudgeOne && Evidenced(w, s, d, h)
  {
    OnlyJudging(w, s, e, d, h);
    VerdictShows(w, s, d, h);
  }

  /** In every run, whatever step ends a ticket as NOT_INCLUDED is a pool verdict, and the record proves it. */
  lemma NotIncludedIsEvidenced(w: World, init: State, es: seq<Event>, s: State, e: Event, d: State, h: TxHash)
    requires w.concurrency >= 1 && Initial(init) && Run(w, init, es) && s == After(w, init, es)
    requires CanDo(w, s, e) && d == Do(w, s, e) && TurnsNotIncluded(s, d, h)
    ensures e == JudgeOne && Evidenced(w, s, d, h)
  {
    ReachedFacts(w, init, es, s);
    VerdictIsEvidenced(w, s, e, d, h);
  }

  /** The mark is never even attempted on a ticket no node has accepted. */
  lemma NeverAttemptedBeforeAcceptance(w: World, init: State, es: seq<Event>, h: TxHash)
    requires w.concurrency >= 1 && Initial(init) && Run(w, init, es) && CanDo(w, After(w, init, es), JudgeOne)
    requires var s := After(w, init, es);
             s.scan.rest[0] == h && JudgedAbsent(s.tracker.txs[h], s.scan.endpoint, s.scan.pool, h)
    ensures After(w, init, es).tracker.txs[h].status !in {Created, Submitting}
  {
    RunEvidence(w, init, es);
    assert EndpointOk(After(w, init, es).tracker.txs[h]);
  }
}
