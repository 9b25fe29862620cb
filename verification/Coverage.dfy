/** The finalized-scan cursor: it never goes back, passes a height only for a reason, and a range recorded as
    completely scanned has no hole. */
module Coverage {
  import opened Options
  import opened Shared
  import opened TxLifecycle
  import opened TrackerModel
  import opened Engine
  import opened Soundness
  import opened Acceptance

  /** Every height from `from` to `to` has been resolved by a finalized scan. */
  ghost predicate Covered(scanned: set<int>, from: int, to: int) {
    forall n | from <= n <= to :: n in scanned
  }

  function CursorValue(s: State): int {
    if s.cursor.Some? then s.cursor.value else -1
  }

  /** An open ticket's recorded start has been covered ever since. */
  ghost predicate OpenCovered(x: Tx, scanned: set<int>, cursor: int) {
    !Terminal(x.status) && x.recovery.scanStart.Some? ==> Covered(scanned, x.recovery.scanStart.value, cursor)
  }

  /** A record that says "complete" has no hole. */
  ghost predicate DoneCovered(x: Tx, scanned: set<int>) {
    x.recovery.complete ==>
      x.recovery.scanStart.Some? && Covered(scanned, x.recovery.scanStart.value, x.recovery.scanEnd)
  }

  ghost predicate TxsCovered(t: Tracker, scanned: set<int>, cursor: int) {
    forall h | h in t.txs :: OpenCovered(t.txs[h], scanned, cursor) && DoneCovered(t.txs[h], scanned)
  }

  ghost predicate RestCovered(t: Tracker, scanned: set<int>, rest: seq<TxHash>, last: int) {
    forall h | h in rest && h in t.txs && t.txs[h].recovery.scanStart.Some? ::
      Covered(scanned, t.txs[h].recovery.scanStart.value, last)
  }

  ghost predicate ScanCovered(s: State) {
    match s.scan
    case Idle => true
    case Batch(first, last, lo, kids) =>
      && s.cursor == Some(lo - 1) && lo + |kids| - 1 <= last && 0 < |kids|
      && Covered(s.scanned, first, lo - 1)
    case Settling(first, last, _) => s.cursor == Some(last) && Covered(s.scanned, first, last)
    case AskingPool(first, last, _, rest) =>
      s.cursor == Some(last) && Covered(s.scanned, first, last) && RestCovered(s.tracker, s.scanned, rest, last)
    case Judging(first, last, _, _, rest) =>
      s.cursor == Some(last) && Covered(s.scanned, first, last) && RestCovered(s.tracker, s.scanned, rest, last)
  }

  ghost predicate CoverInv(s: State) {
    && TxsCovered(s.tracker, s.scanned, CursorValue(s))
    && ScanCovered(s)
    && (s.cursor.None? ==> s.tracker.txs.Keys == {})
  }

  /** A step that leaves every recovery record alone and reopens no ticket. */
  ghost predicate RecordsKept(t: Tracker, u: Tracker) {
    forall h | h in u.txs ::
      if h in t.txs
      then (u.txs[h].recovery == t.txs[h].recovery && (Terminal(t.txs[h].status) ==> Terminal(u.txs[h].status)))
      else (u.txs[h].recovery.scanStart.None? && !u.txs[h].recovery.complete)
  }

  lemma RecordsKeptCovers(s: State, d: State)
    requires CoverInv(s) && RecordsKept(s.tracker, d.tracker)
    requires d.scan == s.scan && d.cursor == s.cursor && d.scanned == s.scanned
    requires s.cursor.None? ==> d.tracker.txs.Keys == s.tracker.txs.Keys
    ensures CoverInv(d)
  {
    forall h | h in d.tracker.txs && h in s.tracker.txs
      ensures OpenCovered(d.tracker.txs[h], d.scanned, CursorValue(d)) && DoneCovered(d.tracker.txs[h], d.scanned)
    {
      assert OpenCovered(s.tracker.txs[h], s.scanned, CursorValue(s));
    }
  }

  lemma MoreCovered(t: Tracker, scanned: set<int>, more: set<int>, cursor: int, further: int)
    requires TxsCovered(t, scanned, cursor) && scanned <= more && Covered(more, cursor + 1, further)
    ensures TxsCovered(t, more, further)
  {
    forall h | h in t.txs ensures OpenCovered(t.txs[h], more, further) && DoneCovered(t.txs[h], more) {
      assert OpenCovered(t.txs[h], scanned, cursor) && DoneCovered(t.txs[h], scanned);
    }
  }

  lemma CompleteCovers(t: Tracker, scanned: set<int>, first: int, last: int)
    requires TxsCovered(t, scanned, last) && Covered(scanned, first, last)
    ensures TxsCovered(AllTxs(t, x => RecordComplete(x, first, last)), scanned, last)
  {
    var u := AllTxs(t, x => RecordComplete(x, first, last));
    forall h | h in u.txs ensures OpenCovered(u.txs[h], scanned, last) && DoneCovered(u.txs[h], scanned) {
      assert OpenCovered(t.txs[h], scanned, last) && DoneCovered(t.txs[h], scanned);
    }
  }

  lemma IncompleteCovers(w: World, s: State, start: int, end: int)
    requires TxsCovered(s.tracker, s.scanned, CursorValue(s)) && CursorValue(s) < start
    requires s.cursor.None? ==> s.tracker.txs.Keys == {}
    ensures CoverInv(Incomplete(w, s, start, end))
  {
    var d := Incomplete(w, s, start, end);
    forall h | h in d.tracker.txs
      ensures OpenCovered(d.tracker.txs[h], d.scanned, CursorValue(d)) && DoneCovered(d.tracker.txs[h], d.scanned)
    {
      assert OpenCovered(s.tracker.txs[h], s.scanned, CursorValue(s)) && DoneCovered(s.tracker.txs[h], s.scanned);
    }
  }

  lemma AdvanceCovers(s: State, first: int, lo: int, good: nat, s1: State)
    requires CoverInv(s) && s.cursor == Some(lo - 1) && Covered(s.scanned, first, lo - 1)
    requires s1 == s.(cursor := Some(lo + good - 1), scanned := s.scanned + Heights(lo, good))
    ensures TxsCovered(s1.tracker, s1.scanned, CursorValue(s1))
    ensures Covered(s1.scanned, first, lo + good - 1)
  {
    assert Covered(s1.scanned, lo, lo + good - 1);
    MoreCovered(s.tracker, s.scanned, s1.scanned, lo - 1, lo + good - 1);
  }

  lemma BatchEndCovers(w: World, s: State, d: State)
    requires w.concurrency >= 1 && CoverInv(s) && CanDo(w, s, BatchEnd) && d == DoBatchEnd(w, s)
    ensures CoverInv(d)
  {
    var Batch(first, last, lo, kids) := s.scan;
    var outs := Outcomes(s, kids);
    var good := GoodPrefix(outs);
    var s1 := s.(cursor := Some(lo + good - 1), scanned := s.scanned + Heights(lo, good));
    AdvanceCovers(s, first, lo, good, s1);
    if good < |kids| {
      if outs[good] != Cancelled { IncompleteCovers(w, s1, lo + good, last); }
    } else if lo + good > last {
      CompleteCovers(s.tracker, s1.scanned, first, last);
    }
  }

  lemma BeginCovers(w: World, s: State, f: int, d: State)
    requires w.concurrency >= 1 && CoverInv(s) && CanDo(w, s, ScanBegin(f)) && d == DoScanBegin(w, s, f)
    ensures CoverInv(d)
  {
    if s.cursor.Some? && f > s.cursor.value {
      if Active(s.tracker) == {} {
        forall h | h in d.tracker.txs ensures OpenCovered(d.tracker.txs[h], d.scanned, CursorValue(d)) {
          assert h !in Active(s.tracker);
        }
        assert forall h | h in d.tracker.txs :: DoneCovered(s.tracker.txs[h], s.scanned);
      } else if f - s.cursor.value > w.maxBlocks {
        IncompleteCovers(w, s, s.cursor.value + 1, f);
      }
    }
  }

  lemma BestFailedCovers(w: World, s: State, d: State)
    requires w.concurrency >= 1 && CoverInv(s) && CanDo(w, s, BestFailed) && d == DoScan(w, s, BestFailed)
    ensures CoverInv(d)
  {
    forall h | h in d.tracker.txs
      ensures OpenCovered(d.tracker.txs[h], d.scanned, CursorValue(d)) && DoneCovered(d.tracker.txs[h], d.scanned)
    {
      assert OpenCovered(s.tracker.txs[h], s.scanned, CursorValue(s)) && DoneCovered(s.tracker.txs[h], s.scanned);
    }
  }

  /** The tickets handed to the pool check are still open, so their starts are covered up to the cursor. */
  lemma BestDoneCovers(w: World, s: State, order: seq<TxHash>, endpoint: Endpoint, d: State)
    requires w.concurrency >= 1 && CoverInv(s) && CanDo(w, s, BestDone(order, endpoint))
    requires d == DoScan(w, s, BestDone(order, endpoint))
    ensures CoverInv(d)
  {
    forall h | h in order && h in s.tracker.txs && s.tracker.txs[h].recovery.scanStart.Some?
      ensures Covered(s.scanned, s.tracker.txs[h].recovery.scanStart.value, s.scan.last)
    {
      assert h in Members(order);
      assert OpenCovered(s.tracker.txs[h], s.scanned, CursorValue(s));
    }
  }

  lemma JudgedCovered(x: Tx, first: int, last: int, endpoint: Endpoint, pool: PoolAnswer, h: TxHash, scanned: set<int>)
    requires Covered(scanned, first, last)
    requires x.recovery.scanStart.Some? ==> Covered(scanned, x.recovery.scanStart.value, last)
    ensures var y := Judge(x, first, last, endpoint, pool, h);
            OpenCovered(y, scanned, last) && DoneCovered(y, scanned)
            && y.recovery.scanStart.Some? && Covered(scanned, y.recovery.scanStart.value, last)
  {}

  lemma JudgeCovers(w: World, s: State, d: State)
    requires CoverInv(s) && CanDo(w, s, JudgeOne) && d == DoJudge(w, s)
    ensures CoverInv(d)
  {
    var Judging(first, last, endpoint, pool, rest) := s.scan;
    JudgedCovered(s.tracker.txs[rest[0]], first, last, endpoint, pool, rest[0], s.scanned);
    forall h | h in d.tracker.txs
      ensures OpenCovered(d.tracker.txs[h], d.scanned, CursorValue(d)) && DoneCovered(d.tracker.txs[h], d.scanned)
    {
      if h != rest[0] {
        assert OpenCovered(s.tracker.txs[h], s.scanned, CursorValue(s)) && DoneCovered(s.tracker.txs[h], s.scanned);
      }
    }
  }

  lemma ScanCovers(w: World, s: State, e: Event, d: State)
    requires w.concurrency >= 1 && CoverInv(s) && CanDo(w, s, e) && IsScanEvent(e) && d == DoScan(w, s, e)
    ensures CoverInv(d)
  {
    match e
    case ScanBegin(f) => BeginCovers(w, s, f, d);
    case BatchEnd => BatchEndCovers(w, s, d);
    case JudgeOne => JudgeCovers(w, s, d);
    case _ => LaterScanCovers(w, s, e, d);
  }

  lemma LaterScanCovers(w: World, s: State, e: Event, d: State)
    requires w.concurrency >= 1 && CoverInv(s) && CanDo(w, s, e) && IsScanEvent(e) && d == DoScan(w, s, e)
    requires !e.ScanBegin? && !e.BatchEnd? && !e.JudgeOne?
    ensures CoverInv(d)
  {
    match e
    case BestFailed => BestFailedCovers(w, s, d);
    case BestDone(order, ep) => BestDoneCovers(w, s, order, ep, d);
    case _ => TurnCovers(w, s, e, d);
  }

  lemma TurnCovers(w: World, s: State, e: Event, d: State)
    requires e.KidHash? || e.KidRefused? || e.ScanAbort? || e.PoolAnswered? || e.JudgeEnd?
    requires w.concurrency >= 1 && CoverInv(s) && CanDo(w, s, e) && d == DoScan(w, s, e)
    ensures CoverInv(d)
  {
    TurnKeepsTickets(w, s, e, d);
    RecordsKeptCovers(s, d.(scan := s.scan));
  }

  lemma TurnKeepsTickets(w: World, s: State, e: Event, d: State)
    requires e.KidHash? || e.KidRefused? || e.ScanAbort? || e.PoolAnswered? || e.JudgeEnd?
    requires w.concurrency >= 1 && CanDo(w, s, e) && d == DoScan(w, s, e)
    ensures d.tracker.txs == s.tracker.txs && d.cursor == s.cursor && d.scanned == s.scanned
    ensures d.scan.Batch? ==> s.scan.Batch? && d.scan == s.scan.(kids := d.scan.kids)
    ensures d.scan.Batch? || d.scan.Judging? || d.scan.Idle?
  {}

  lemma ResolveCovers(w: World, s: State, e: Event, d: State)
    requires w.concurrency >= 1 && CoverInv(s) && CanDo(w, s, e) && IsResolveEvent(e) && d == Do(w, s, e)
    ensures CoverInv(d)
  {
    if Matched(s, e).Some? { MatchShape(w, s, e, d); } else { PlainShape(w, s, e, d); }
    RecordsKeptCovers(s, d);
  }

  lemma MarkCovers(s: State, h: TxHash, status: TxStatus, d: State)
    requires CoverInv(s) && h in s.tracker.txs && Legal(s.tracker.txs[h].status, status)
    requires var x := s.tracker.txs[h];
             d == s.(tracker := PutTx(s.tracker, h, x.(status := status,
                       recovery := if status == ReconciliationRequired then x.recovery.(complete := false)
                                   else x.recovery)))
    ensures CoverInv(d)
  {
    forall g | g in d.tracker.txs
      ensures OpenCovered(d.tracker.txs[g], d.scanned, CursorValue(d)) && DoneCovered(d.tracker.txs[g], d.scanned)
    {
      assert OpenCovered(s.tracker.txs[g], s.scanned, CursorValue(s)) && DoneCovered(s.tracker.txs[g], s.scanned);
    }
  }

  lemma StepCovers(w: World, s: State, e: Event, d: State)
    requires w.concurrency >= 1 && CoverInv(s) && CanDo(w, s, e) && d == Do(w, s, e)
    ensures CoverInv(d)
  {
    if IsResolveEvent(e) {
      ResolveCovers(w, s, e, d);
    } else if IsScanEvent(e) {
      ScanCovers(w, s, e, d);
    } else if e.Mark? {
      MarkCovers(s, e.h, e.status, d);
    } else {
      RecordsKeptCovers(s, d);
    }
  }

  lemma {:induction false} RunCovers(w: World, s: State, es: seq<Event>)
    requires w.concurrency >= 1 && CoverInv(s) && Run(w, s, es)
    ensures CoverInv(After(w, s, es))
    decreases |es|
  {
    if es != [] {
      StepCovers(w, s, es[0], Do(w, s, es[0]));
      RunCovers(w, Do(w, s, es[0]), es[1..]);
    }
  }

  /** In every run, whatever fails, is cancelled or arrives: a range recorded as completely scanned was. */
  lemma CompleteMeansNoHole(w: World, init: State, es: seq<Event>, h: TxHash, n: int)
    requires w.concurrency >= 1 && Initial(init) && Run(w, init, es)
    requires h in After(w, init, es).tracker.txs && After(w, init, es).tracker.txs[h].recovery.complete
    ensures var s := After(w, init, es);
            var r := s.tracker.txs[h].recovery;
            r.scanStart.Some? && (r.scanStart.value <= n <= r.scanEnd ==> n in s.scanned)
  {
    RunCovers(w, init, es);
    var s := After(w, init, es);
    assert DoneCovered(s.tracker.txs[h], s.scanned);
  }

  lemma BatchMoves(w: World, s: State, d: State, n: int)
    requires w.concurrency >= 1 && CoverInv(s) && CanDo(w, s, BatchEnd) && d == DoBatchEnd(w, s)
    ensures d.cursor.Some? && s.cursor.Some? && s.cursor.value <= d.cursor.value && s.scanned <= d.scanned
    ensures s.cursor.value < n <= d.cursor.value ==> n in d.scanned
  {
    BatchEndShape(w, s, d);
  }

  lemma BeginMoves(w: World, s: State, f: int, d: State, n: int)
    requires w.concurrency >= 1 && s.cursor.Some? && d == DoScanBegin(w, s, f)
    ensures d.cursor.Some? && s.cursor.value <= d.cursor.value && s.scanned == d.scanned
    ensures s.cursor.value < n <= d.cursor.value ==> Active(s.tracker) == {}
  {}

  lemma CursorStays(w: World, s: State, e: Event, d: State)
    requires w.concurrency >= 1 && CanDo(w, s, e) && d == Do(w, s, e) && !e.BatchEnd? && !e.ScanBegin?
    ensures d.cursor == s.cursor && d.scanned == s.scanned
  {
    if Matched(s, e).Some? { MatchShape(w, s, e, d); }
  }

  /** Why the cursor moved: up, and past heights that were resolved or while no ticket was open. */
  lemma CursorMovesForAReason(w: World, s: State, e: Event, d: State, n: int)
    requires w.concurrency >= 1 && CoverInv(s) && CanDo(w, s, e) && d == Do(w, s, e) && s.cursor.Some?
    ensures d.cursor.Some? && s.cursor.value <= d.cursor.value && s.scanned <= d.scanned
    ensures s.cursor.value < n <= d.cursor.value ==> n in d.scanned || Active(s.tracker) == {}
  {
    match e
    case BatchEnd => BatchMoves(w, s, d, n);
    case ScanBegin(f) => BeginMoves(w, s, f, d, n);
    case _ => CursorStays(w, s, e, d);
  }

  /** Step i of the run, taken from m while no ticket was open, moved the cursor over height n. */
  ghost predicate PassesIdle(w: World, s: State, es: seq<Event>, i: nat, m: State, n: int)
    requires w.concurrency >= 1
  {
    && i < |es| && Run(w, s, es[..i]) && m == After(w, s, es[..i]) && CanDo(w, m, es[i])
    && Active(m.tracker) == {} && m.cursor.Some? && m.cursor.value < n
    && Do(w, m, es[i]).cursor.Some? && n <= Do(w, m, es[i]).cursor.value
  }

  lemma PassesFirst(w: World, s: State, es: seq<Event>, d: State, n: int)
    requires w.concurrency >= 1 && es != [] && CanDo(w, s, es[0]) && d == Do(w, s, es[0])
    requires Active(s.tracker) == {} && s.cursor.Some? && s.cursor.value < n && d.cursor.Some? && n <= d.cursor.value
    ensures PassesIdle(w, s, es, 0, s, n)
  {
    assert es[..0] == [];
  }

  lemma PassesLater(w: World, s: State, es: seq<Event>, d: State, i: nat, m: State, n: int)
    requires w.concurrency >= 1 && es != [] && CanDo(w, s, es[0]) && Honest(w, s, es[0]) && d == Do(w, s, es[0])
    requires PassesIdle(w, d, es[1..], i, m, n)
    ensures PassesIdle(w, s, es, i + 1, m, n)
  {
    assert es[..i + 1][1..] == es[1..][..i] && es[..i + 1][0] == es[0] && es[1..][i] == es[i + 1];
  }

  /** Over whole runs: the cursor never goes back, and a height it passed was resolved, or the very step of the run that
      passed it was taken while no ticket was open. */
  lemma {:induction false} CursorOverRuns(w: World, s: State, es: seq<Event>, d: State, n: int)
    returns (i: nat, m: State)
    requires w.concurrency >= 1 && CoverInv(s) && Run(w, s, es) && d == After(w, s, es) && s.cursor.Some?
    ensures d.cursor.Some? && s.cursor.value <= d.cursor.value && s.scanned <= d.scanned
    ensures s.cursor.value < n <= d.cursor.value && n !in d.scanned ==> PassesIdle(w, s, es, i, m, n)
    decreases |es|
  {
    i, m := 0, s;
    if es != [] {
      var s1 := Do(w, s, es[0]);
      CursorMovesForAReason(w, s, es[0], s1, n);
      StepCovers(w, s, es[0], s1);
      var j, k := CursorOverRuns(w, s1, es[1..], d, n);
      if s.cursor.value < n <= d.cursor.value && n !in d.scanned {
        if n <= s1.cursor.value {
          PassesFirst(w, s, es, s1, n);
        } else {
          i, m := j + 1, k;
          PassesLater(w, s, es, s1, j, k, n);
        }
      }
    }
  }

  /** A batch stops just below its first height that failed or was cancelled. */
  lemma BatchStopsBelowFailure(w: World, s: State, d: State, i: nat)
    requires w.concurrency >= 1 && CoverInv(s) && CanDo(w, s, BatchEnd) && d == Do(w, s, BatchEnd)
    requires i < |s.scan.kids| && Outcomes(s, s.scan.kids)[i] != Resolved
    requires forall k | 0 <= k < i :: Outcomes(s, s.scan.kids)[k] == Resolved
    ensures d.cursor == Some(s.scan.lo + i - 1) && d.scan == Idle
  {
    BatchEndShape(w, s, d);
    var good := GoodPrefix(Outcomes(s, s.scan.kids));
    assert good == i;
  }

  /** The failure is on record, from the failing height to the end of the range, in every ticket open at the time; those
      past the stale age are handed over to the caller, and no closed ticket is touched. */
  lemma FailureIsRecorded(w: World, s: State, d: State, i: nat, h: TxHash)
    requires w.concurrency >= 1 && CanDo(w, s, BatchEnd) && d == Do(w, s, BatchEnd)
    requires i < |s.scan.kids| && Outcomes(s, s.scan.kids)[i] == Failed
    requires forall k | 0 <= k < i :: Outcomes(s, s.scan.kids)[k] == Resolved
    requires h in s.tracker.txs
    ensures h in d.tracker.txs
    ensures var x, y := s.tracker.txs[h], d.tracker.txs[h];
            if Terminal(x.status) then y == x
            else !y.recovery.complete && y.recovery.missing == [(s.scan.lo + i, s.scan.last)]
                 && y.status == if s.now - x.createdAt >= w.staleMs && x.status != Created then ReconciliationRequired
                                else x.status
  {
    assert GoodPrefix(Outcomes(s, s.scan.kids)) == i;
  }
}
