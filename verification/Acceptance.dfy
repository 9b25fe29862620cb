/** The NOT_INCLUDED theorem in terms of matches alone, and in terms a caller can observe: accepted before matched,
    never executed before. */
module Acceptance {
  import opened Options
  import opened Shared
  import opened TxLifecycle
  import opened TrackerModel
  import opened Engine
  import opened Soundness

  /** Block resolution only ever handles transactions that were submitted. */
  ghost predicate Known(s: State) {
    && (forall b | b in s.tracker.blocks :: s.tracker.blocks[b].candidates <= s.tracker.txs.Keys)
    && (forall id, h | id in s.resolves && h in Todo(s.resolves[id].pc) :: h in s.tracker.txs)
  }

  /** The transaction a step matches against a block, if any. */
  function Matched(s: State, e: Event): Option<TxHash> {
    if (e.ApplyOne? || e.FailOne?) && e.id in s.resolves && Todo(s.resolves[e.id].pc) != []
    then Some(Todo(s.resolves[e.id].pc)[0]) else None
  }

  lemma MatchShape(w: World, s: State, e: Event, d: State)
    requires w.concurrency >= 1 && CanDo(w, s, e) && (e.ApplyOne? || e.FailOne?) && d == Do(w, s, e)
    requires Matched(s, e).Some?
    ensures var b, h := s.resolves[e.id].block, Matched(s, e).value;
      && OneChange(s.tracker, d.tracker, b, h)
      && d.seen == s.seen + {Hit(b, h)}
      && d == s.(tracker := d.tracker, seen := d.seen, resolves := d.resolves)
      && d.resolves == s.resolves[e.id := Resolve(b, d.resolves[e.id].pc)]
      && (Todo(d.resolves[e.id].pc) == [] || Todo(d.resolves[e.id].pc) == Todo(s.resolves[e.id].pc)[1..])
      && d.tracker == if e.ApplyOne? then ApplyMatch(s.tracker, b, h, e.verdict).0 else FailMatch(s.tracker, b, h).0
  {
    if e.ApplyOne? {
      ApplyChangesOne(s.tracker, s.resolves[e.id].block, Matched(s, e).value, e.verdict);
    } else {
      FailChangesOne(s.tracker, s.resolves[e.id].block, Matched(s, e).value);
    }
  }

  /** Every other step of a resolution leaves the tickets and the scan alone. */
  lemma PlainShape(w: World, s: State, e: Event, d: State)
    requires w.concurrency >= 1 && CanDo(w, s, e) && IsResolveEvent(e) && d == Do(w, s, e) && Matched(s, e).None?
    ensures d == s.(tracker := s.tracker.(blocks := d.tracker.blocks), resolves := d.resolves)
  {}

  lemma MatchKeepsKnown(w: World, s: State, e: Event, d: State)
    requires w.concurrency >= 1 && CanDo(w, s, e) && (e.ApplyOne? || e.FailOne?) && d == Do(w, s, e) && Known(s)
    ensures Known(d) && d.tracker.txs.Keys == s.tracker.txs.Keys
  {
    if Matched(s, e).Some? {
      MatchShape(w, s, e, d);
      var b := s.resolves[e.id].block;
      forall c | c in d.tracker.blocks ensures d.tracker.blocks[c].candidates <= d.tracker.txs.Keys {
        assert c in s.tracker.blocks || c == b;
      }
    }
  }

  lemma ResolveKeepsKnown(w: World, s: State, e: Event, d: State)
    requires w.concurrency >= 1 && CanDo(w, s, e) && IsResolveEvent(e) && d == Do(w, s, e) && Known(s)
    ensures Known(d)
  {
    if e.ApplyOne? || e.FailOne? {
      MatchKeepsKnown(w, s, e, d);
    } else if e.ResumeIndex? {
      assert forall h | h in e.matches :: h in Members(e.matches);
    }
  }

  lemma BeginSameTickets(w: World, s: State, f: int, d: State)
    requires w.concurrency >= 1 && d == DoScanBegin(w, s, f)
    ensures d.tracker == s.tracker.(txs := d.tracker.txs) && d.resolves == s.resolves
    ensures d.tracker.txs.Keys == s.tracker.txs.Keys && d.seen == s.seen && d.skipped == s.skipped
  {}

  lemma BatchSameTickets(w: World, s: State, d: State)
    requires w.concurrency >= 1 && CanDo(w, s, BatchEnd) && d == DoBatchEnd(w, s)
    ensures d.tracker == s.tracker.(txs := d.tracker.txs) && d.resolves == s.resolves
    ensures d.tracker.txs.Keys == s.tracker.txs.Keys && d.seen == s.seen && d.skipped == s.skipped
  {}

  lemma ScanKeepsKnown(w: World, s: State, e: Event, d: State)
    requires w.concurrency >= 1 && CanDo(w, s, e) && IsScanEvent(e) && d == DoScan(w, s, e) && Known(s)
    ensures Known(d)
  {
    match e
    case ScanBegin(f) => BeginSameTickets(w, s, f, d);
    case BatchEnd => BatchSameTickets(w, s, d);
    case _ =>
  }

  lemma StepKeepsKnown(w: World, s: State, e: Event, d: State)
    requires w.concurrency >= 1 && CanDo(w, s, e) && d == Do(w, s, e) && Known(s)
    ensures Known(d)
  {
    if IsResolveEvent(e) {
      ResolveKeepsKnown(w, s, e, d);
    } else if IsScanEvent(e) {
      ScanKeepsKnown(w, s, e, d);
    }
  }

  ghost predicate Unmatched(s: State, h: TxHash) {
    forall b :: Hit(b, h) !in s.seen
  }

  /** Once matched, h is no longer open. */
  ghost predicate SeenIsClosed(s: State, h: TxHash) {
    Unmatched(s, h) || (h in s.tracker.txs && Terminal(s.tracker.txs[h].status))
  }

  /** Retention drops only closed tickets. */
  ghost predicate EvictedClosed(s: State) {
    forall h | h in s.tracker.evicted :: h in s.tracker.txs && Terminal(s.tracker.txs[h].status)
  }

  /** One step as the theorem asks for it: h is not still SUBMITTING when a block containing it is applied, and is
      not IN_BLOCK_SUCCESS afterwards. */
  predicate AcceptedFirst(s: State, e: Event, d: State, h: TxHash) {
    && (Matched(s, e) == Some(h) && h in s.tracker.txs ==> s.tracker.txs[h].status != Submitting)
    && (h in d.tracker.txs ==> d.tracker.txs[h].status != InBlockSuccess)
  }

  /** A match of an accepted, unseen ticket always takes effect. */
  lemma MatchCloses(w: World, s: State, e: Event, d: State, h: TxHash)
    requires w.concurrency >= 1 && Inv(w, s) && Known(s) && CanDo(w, s, e) && d == Do(w, s, e)
    requires Matched(s, e) == Some(h) && SeenIsClosed(s, h) && AcceptedFirst(s, e, d, h) && EvictedClosed(s)
    requires s.tracker.txs[h].status != InBlockSuccess
    ensures SeenIsClosed(d, h)
  {
    MatchShape(w, s, e, d);
    var b := s.resolves[e.id].block;
    assert h in Todo(s.resolves[e.id].pc) && h in w.body(b) && h in s.tracker.txs;
    if !Terminal(s.tracker.txs[h].status) {
      assert Hit(b, h) !in s.seen;
      assert h !in EntryOf(s.tracker, b).applied && Stored(s.tracker, h);
      assert Settle(s.tracker, b, h).txs == s.tracker.txs;
    }
  }

  /** Tickets keep their hash, and a closed one its status. */
  predicate KeepsClosed(s: State, d: State, h: TxHash) {
    h in s.tracker.txs && Terminal(s.tracker.txs[h].status) ==>
      h in d.tracker.txs && d.tracker.txs[h].status == s.tracker.txs[h].status
  }

  lemma BeginKeepsClosed(w: World, s: State, f: int, h: TxHash)
    requires w.concurrency >= 1
    ensures KeepsClosed(s, DoScanBegin(w, s, f), h)
  {}

  lemma BatchKeepsClosed(w: World, s: State, h: TxHash)
    requires w.concurrency >= 1 && CanDo(w, s, BatchEnd)
    ensures KeepsClosed(s, DoBatchEnd(w, s), h)
  {}

  lemma JudgeKeepsClosed(w: World, s: State, h: TxHash)
    requires CanDo(w, s, JudgeOne)
    ensures KeepsClosed(s, DoJudge(w, s), h)
  {}

  lemma ScanKeepsClosed(w: World, s: State, e: Event, d: State, h: TxHash)
    requires w.concurrency >= 1 && CanDo(w, s, e) && IsScanEvent(e) && d == DoScan(w, s, e)
    ensures KeepsClosed(s, d, h)
  {
    match e
    case ScanBegin(f) => BeginKeepsClosed(w, s, f, h);
    case BatchEnd => BatchKeepsClosed(w, s, h);
    case JudgeOne => JudgeKeepsClosed(w, s, h);
    case _ =>
  }

  lemma ResolveKeepsOthers(w: World, s: State, e: Event, d: State, h: TxHash)
    requires w.concurrency >= 1 && CanDo(w, s, e) && IsResolveEvent(e) && d == Do(w, s, e) && Matched(s, e) != Some(h)
    requires h in s.tracker.txs
    ensures h in d.tracker.txs && d.tracker.txs[h] == s.tracker.txs[h]
  {
    if Matched(s, e).Some? { MatchShape(w, s, e, d); }
  }

  /** A closed ticket stays closed, whatever happens to the others. */
  lemma OthersStayClosed(w: World, s: State, e: Event, d: State, h: TxHash)
    requires w.concurrency >= 1 && CanDo(w, s, e) && d == Do(w, s, e) && Matched(s, e) != Some(h)
    requires h in s.tracker.txs && Terminal(s.tracker.txs[h].status)
    ensures h in d.tracker.txs && Terminal(d.tracker.txs[h].status)
  {
    if IsResolveEvent(e) {
      ResolveKeepsOthers(w, s, e, d, h);
    } else if IsScanEvent(e) {
      ScanKeepsClosed(w, s, e, d, h);
    }
  }

  lemma ClosedStaysClosed(w: World, s: State, e: Event, d: State, h: TxHash)
    requires w.concurrency >= 1 && CanDo(w, s, e) && d == Do(w, s, e)
    requires h in s.tracker.txs && Terminal(s.tracker.txs[h].status)
    ensures h in d.tracker.txs && Terminal(d.tracker.txs[h].status)
  {
    if Matched(s, e) == Some(h) { MatchShape(w, s, e, d); } else { OthersStayClosed(w, s, e, d, h); }
  }

  lemma ScanEvictsNone(w: World, s: State, e: Event, d: State)
    requires w.concurrency >= 1 && CanDo(w, s, e) && IsScanEvent(e) && d == DoScan(w, s, e)
    ensures d.tracker.evicted == s.tracker.evicted
  {
    match e
    case ScanBegin(f) => BeginSameTickets(w, s, f, d);
    case BatchEnd => BatchSameTickets(w, s, d);
    case _ =>
  }

  lemma WhoIsEvicted(w: World, s: State, e: Event, d: State)
    requires w.concurrency >= 1 && CanDo(w, s, e) && d == Do(w, s, e)
    ensures d.tracker.evicted == s.tracker.evicted + if e.Evict? then {e.h} else {}
  {
    if IsResolveEvent(e) {
      if Matched(s, e).Some? { MatchShape(w, s, e, d); } else { PlainShape(w, s, e, d); }
    } else if IsScanEvent(e) {
      ScanEvictsNone(w, s, e, d);
    }
  }

  lemma StepKeepsEvictedClosed(w: World, s: State, e: Event, d: State)
    requires w.concurrency >= 1 && EvictedClosed(s) && CanDo(w, s, e) && d == Do(w, s, e)
    ensures EvictedClosed(d)
  {
    WhoIsEvicted(w, s, e, d);
    forall h | h in d.tracker.evicted ensures h in d.tracker.txs && Terminal(d.tracker.txs[h].status) {
      ClosedStaysClosed(w, s, e, d, h);
    }
  }

  lemma SeenComesFromMatch(w: World, s: State, e: Event, d: State, h: TxHash)
    requires w.concurrency >= 1 && CanDo(w, s, e) && d == Do(w, s, e)
    ensures s.seen <= d.seen
    ensures Matched(s, e) != Some(h) ==> forall b :: Hit(b, h) in d.seen <==> Hit(b, h) in s.seen
    ensures Matched(s, e) == Some(h) ==> d.seen == s.seen + {Hit(s.resolves[e.id].block, h)}
  {
    if Matched(s, e).Some? {
      MatchShape(w, s, e, d);
    } else if IsResolveEvent(e) {
      PlainShape(w, s, e, d);
    } else if e.ScanBegin? {
      BeginSameTickets(w, s, e.finalized, d);
    } else if e.BatchEnd? {
      BatchSameTickets(w, s, d);
    }
  }

  // ---------- the verdict in terms of matches alone ----------

  /** When the scan takes up a block that contains h, the ticket is not executed, unless it was matched there. */
  ghost predicate TakenUpClear(w: World, s: State, e: Event, h: TxHash)
    requires CanDo(w, s, e)
  {
    e.KidHash? ==>
      var b := s.chain[s.scan.lo + e.k];
      Hit(b, h) in Skips(w, s, b) ==> Hit(b, h) in s.seen
  }

  ghost predicate TakenUpRun(w: World, s: State, es: seq<Event>, h: TxHash)
    requires w.concurrency >= 1 && Run(w, s, es)
    decreases |es|
  {
    es == [] || (TakenUpClear(w, s, es[0], h) && TakenUpRun(w, Do(w, s, es[0]), es[1..], h))
  }

  /** Every block that was taken up while h was executed was matched with h. */
  ghost predicate NonePassedOver(s: State, h: TxHash) {
    forall b :: Hit(b, h) in s.skipped ==> Hit(b, h) in s.seen
  }

  lemma SkippedComesFromTakeUp(w: World, s: State, e: Event, d: State)
    requires w.concurrency >= 1 && CanDo(w, s, e) && d == Do(w, s, e)
    ensures d.skipped == if e.KidHash? then s.skipped + Skips(w, s, s.chain[s.scan.lo + e.k]) else s.skipped
  {
    if Matched(s, e).Some? {
      MatchShape(w, s, e, d);
    } else if IsResolveEvent(e) {
      PlainShape(w, s, e, d);
    } else if e.ScanBegin? {
      BeginSameTickets(w, s, e.finalized, d);
    } else if e.BatchEnd? {
      BatchSameTickets(w, s, d);
    }
  }

  lemma StepPassesNoneOver(w: World, s: State, e: Event, d: State, h: TxHash)
    requires w.concurrency >= 1 && CanDo(w, s, e) && d == Do(w, s, e)
    requires NonePassedOver(s, h) && TakenUpClear(w, s, e, h)
    ensures NonePassedOver(d, h)
  {
    SkippedComesFromTakeUp(w, s, e, d);
    SeenComesFromMatch(w, s, e, d, h);
  }

  lemma {:induction false} RunPassesNoneOver(w: World, s: State, es: seq<Event>, h: TxHash)
    requires w.concurrency >= 1 && Run(w, s, es) && NonePassedOver(s, h) && TakenUpRun(w, s, es, h)
    ensures NonePassedOver(After(w, s, es), h)
    decreases |es|
  {
    if es != [] {
      StepPassesNoneOver(w, s, es[0], Do(w, s, es[0]), h);
      RunPassesNoneOver(w, Do(w, s, es[0]), es[1..], h);
    }
  }

  /** When no block containing h was taken up while h was executed elsewhere, matches alone decide: h is in a canonical
      block up to the head exactly when it was matched there, executed, retracted or not. */
  lemma NotIncludedIffUnmatched(w: World, init: State, es: seq<Event>, s: State, h: TxHash, n: int)
    requires w.concurrency >= 1 && Initial(init) && Run(w, init, es) && s == After(w, init, es)
    requires TakenUpRun(w, init, es, h) && RulesNotIncluded(w, s, h) && 0 <= n <= s.scan.last
    ensures n < |s.chain| && (h in w.body(s.chain[n]) <==> Hit(s.chain[n], h) in s.seen)
  {
    NotIncludedExactly(w, init, es, s, h, n);
    RunPassesNoneOver(w, init, es, h);
  }

  /** In particular, having been matched or executed in blocks that are not canonical never makes the verdict wrong. */
  lemma ForkMatchesAreHarmless(w: World, init: State, es: seq<Event>, s: State, h: TxHash, n: int)
    requires w.concurrency >= 1 && Initial(init) && Run(w, init, es) && s == After(w, init, es)
    requires TakenUpRun(w, init, es, h) && RulesNotIncluded(w, s, h) && 0 <= n <= s.scan.last < |s.chain|
    requires forall b | Hit(b, h) in s.seen :: b !in s.chain[..s.scan.last + 1]
    ensures h !in w.body(s.chain[n])
  {
    NotIncludedIffUnmatched(w, init, es, s, h, n);
    assert s.chain[n] == s.chain[..s.scan.last + 1][n];
  }

  predicate NotExecuted(s: State, h: TxHash) {
    h in s.tracker.txs ==> s.tracker.txs[h].status != InBlockSuccess
  }

  // ---------- never matched ----------

  lemma ScanExecutesNone(w: World, s: State, e: Event, d: State, h: TxHash)
    requires w.concurrency >= 1 && CanDo(w, s, e) && IsScanEvent(e) && d == DoScan(w, s, e) && NotExecuted(s, h)
    ensures NotExecuted(d, h)
  {
    match e
    case ScanBegin(f) =>
    case BatchEnd => BatchExecutesNone(w, s, d, h);
    case _ =>
  }

  lemma BatchExecutesNone(w: World, s: State, d: State, h: TxHash)
    requires w.concurrency >= 1 && CanDo(w, s, BatchEnd) && d == DoBatchEnd(w, s) && NotExecuted(s, h)
    ensures NotExecuted(d, h)
  {}

  lemma UnmatchedStep(w: World, s: State, e: Event, d: State, h: TxHash)
    requires w.concurrency >= 1 && CanDo(w, s, e) && d == Do(w, s, e) && Matched(s, e) != Some(h) && NotExecuted(s, h)
    ensures NotExecuted(d, h)
  {
    if IsResolveEvent(e) {
      if Matched(s, e).Some? { MatchShape(w, s, e, d); } else { PlainShape(w, s, e, d); }
    } else if IsScanEvent(e) {
      ScanExecutesNone(w, s, e, d, h);
    }
  }

  /** A ticket no block was ever matched with was never executed. */
  lemma {:induction false} UnmatchedRun(w: World, s: State, es: seq<Event>, h: TxHash)
    requires w.concurrency >= 1 && Run(w, s, es) && NotExecuted(s, h) && Unmatched(After(w, s, es), h)
    ensures Unmatched(s, h) && TakenUpRun(w, s, es, h)
    decreases |es|
  {
    if es != [] {
      var d := Do(w, s, es[0]);
      SeenComesFromMatch(w, s, es[0], d, h);
      if Matched(s, es[0]) == Some(h) {
        SeenStays(w, d, es[1..], Hit(s.resolves[es[0].id].block, h));
        assert false;
      } else {
        UnmatchedStep(w, s, es[0], d, h);
        UnmatchedRun(w, d, es[1..], h);
      }
    }
  }

  lemma {:induction false} SeenStays(w: World, s: State, es: seq<Event>, hit: Hit)
    requires w.concurrency >= 1 && Run(w, s, es) && hit in s.seen
    ensures hit in After(w, s, es).seen
    decreases |es|
  {
    if es != [] {
      SeenComesFromMatch(w, s, es[0], Do(w, s, es[0]), hit.h);
      SeenStays(w, Do(w, s, es[0]), es[1..], hit);
    }
  }

  /** In every honest run: a transaction that no block resolution has matched and that is ruled NOT_INCLUDED at
      finalized head F is in no canonical block at height F or below. */
  lemma NotIncludedIsRight(w: World, init: State, es: seq<Event>, s: State, h: TxHash, n: int)
    requires w.concurrency >= 1 && Initial(init) && Run(w, init, es) && s == After(w, init, es)
    requires RulesNotIncluded(w, s, h) && Unmatched(s, h) && 0 <= n <= s.scan.last
    ensures n < |s.chain| && h !in w.body(s.chain[n])
  {
    UnmatchedRun(w, init, es, h);
    NotIncludedIffUnmatched(w, init, es, s, h, n);
  }

  // ---------- accepted first, never executed ----------

  ghost predicate AcceptedRun(w: World, s: State, es: seq<Event>, h: TxHash)
    requires w.concurrency >= 1 && Run(w, s, es)
    decreases |es|
  {
    es == [] || (AcceptedFirst(s, es[0], Do(w, s, es[0]), h) && AcceptedRun(w, Do(w, s, es[0]), es[1..], h))
  }

  lemma AcceptedStep(w: World, s: State, e: Event, d: State, h: TxHash)
    requires w.concurrency >= 1 && Inv(w, s) && Known(s) && CanDo(w, s, e) && d == Do(w, s, e)
    requires SeenIsClosed(s, h) && NotExecuted(s, h) && AcceptedFirst(s, e, d, h) && EvictedClosed(s)
    ensures SeenIsClosed(d, h) && NotExecuted(d, h)
  {
    SeenComesFromMatch(w, s, e, d, h);
    if Matched(s, e) == Some(h) {
      assert h in Todo(s.resolves[e.id].pc);
      MatchCloses(w, s, e, d, h);
    } else if !Unmatched(s, h) {
      OthersStayClosed(w, s, e, d, h);
    }
  }

  lemma {:induction false} AcceptedRunKeeps(w: World, s: State, es: seq<Event>, h: TxHash)
    requires w.concurrency >= 1 && Inv(w, s) && Known(s) && SeenIsClosed(s, h) && NotExecuted(s, h) && EvictedClosed(s)
    requires Run(w, s, es) && AcceptedRun(w, s, es, h)
    ensures SeenIsClosed(After(w, s, es), h) && TakenUpRun(w, s, es, h)
    decreases |es|
  {
    if es != [] {
      var d := Do(w, s, es[0]);
      AcceptedStep(w, s, es[0], d, h);
      StepKeeps(w, s, es[0], d);
      StepKeepsKnown(w, s, es[0], d);
      StepKeepsEvictedClosed(w, s, es[0], d);
      AcceptedRunKeeps(w, d, es[1..], h);
    }
  }

  /** NOT_INCLUDED is sound over every run: if h was accepted before a block containing it was applied, was never
      executed in a block before, and is ruled NOT_INCLUDED at finalized head F, then no canonical block at a height
      of at most F contains it. */
  lemma NotIncludedIsSound(w: World, init: State, es: seq<Event>, s: State, h: TxHash, n: int)
    requires w.concurrency >= 1 && Initial(init) && Run(w, init, es) && s == After(w, init, es)
    requires AcceptedRun(w, init, es, h) && RulesNotIncluded(w, s, h) && 0 <= n <= s.scan.last
    ensures n < |s.chain| && h !in w.body(s.chain[n])
  {
    InitialIsSound(w, init);
    AcceptedRunKeeps(w, init, es, h);
    NotIncludedIffUnmatched(w, init, es, s, h, n);
  }
}
