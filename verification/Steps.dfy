/** What single events of the recovery engine leave behind, outcome by outcome. */
module Steps {
  import opened Options
  import opened Shared
  import opened TxLifecycle
  import opened TrackerModel
  import opened Engine

  /** Some ticket is still open. */
  predicate SomeOpen(s: State) {
    exists h | h in s.tracker.txs :: !Terminal(s.tracker.txs[h].status)
  }

  /** A batch of height requests that has just been sent: as many as the concurrency and the range allow. */
  predicate JustSent(w: World, scan: Scan, first: int, last: int, lo: int) {
    && scan.Batch? && scan.first == first && scan.last == last && scan.lo == lo
    && |scan.kids| == Min(w.concurrency, last - lo + 1)
    && forall k | k in scan.kids :: k == Asking
  }

  /** The heights from `start` to `end` are on record as missing in an open ticket, which is handed over to its
      caller if it is past the stale age and was ever sent; a closed ticket is left alone. */
  predicate MissingRecorded(w: World, now: int, x: Tx, y: Tx, start: int, end: int) {
    if Terminal(x.status) then y == x
    else
      && !y.recovery.complete && y.recovery.missing == [(start, end)] && y.recovery.scanEnd == end
      && y.recovery.poolResult == x.recovery.poolResult
      && y == x.(status := y.status, recovery := y.recovery)
      && y.status == (if now - x.createdAt >= w.staleMs && x.status != Created then ReconciliationRequired
                      else x.status)
  }

  /** The whole range is on record as scanned in an open ticket; a closed ticket is left alone. */
  predicate RangeRecorded(x: Tx, y: Tx, first: int, last: int) {
    if Terminal(x.status) then y == x
    else
      && y.recovery.complete && y.recovery.missing == [] && y.recovery.scanEnd == last
      && y.recovery.scanStart == (if x.recovery.scanStart == None then Some(first) else x.recovery.scanStart)
      && y == x.(recovery := y.recovery) && y.recovery.poolResult == x.recovery.poolResult
  }

  lemma SomeOpenIff(s: State)
    ensures SomeOpen(s) <==> Active(s.tracker) != {}
  {
    if forall h | h in s.tracker.txs :: Terminal(s.tracker.txs[h].status) {
      assert Active(s.tracker) == {};
    } else {
      var h :| h in s.tracker.txs && !Terminal(s.tracker.txs[h].status);
      assert h in Active(s.tracker);
    }
  }

  /** The first finalized head sets the cursor, an old one changes nothing, and without open tickets a new one only
      moves the cursor; otherwise the heights above the cursor are asked for, if they are not too many. */
  lemma ScanBeginsExactly(w: World, s: State, f: int, d: State)
    requires w.concurrency >= 1 && CanDo(w, s, ScanBegin(f)) && d == Do(w, s, ScanBegin(f))
    ensures s.cursor == None ==> d == s.(cursor := Some(f))
    ensures s.cursor.Some? && f <= s.cursor.value ==> d == s
    ensures s.cursor.Some? && f > s.cursor.value && !SomeOpen(s) ==> d == s.(cursor := Some(f))
    ensures s.cursor.Some? && f > s.cursor.value && SomeOpen(s) && f - s.cursor.value <= w.maxBlocks ==>
              d == s.(scan := d.scan) && JustSent(w, d.scan, s.cursor.value + 1, f, s.cursor.value + 1)
  {
    SomeOpenIff(s);
  }

  /** A gap wider than the scan limit is not scanned: cursor and scan stay, and every height of it is on record as
      missing in every open ticket, the stale ones handed over. */
  lemma GapIsRecorded(w: World, s: State, f: int, d: State)
    requires w.concurrency >= 1 && CanDo(w, s, ScanBegin(f)) && d == Do(w, s, ScanBegin(f))
    requires s.cursor.Some? && SomeOpen(s) && f > s.cursor.value && f - s.cursor.value > w.maxBlocks
    ensures d == s.(tracker := d.tracker) && d.tracker == s.tracker.(txs := d.tracker.txs)
    ensures d.tracker.txs.Keys == s.tracker.txs.Keys
    ensures forall h | h in s.tracker.txs ::
              MissingRecorded(w, s.now, s.tracker.txs[h], d.tracker.txs[h], s.cursor.value + 1, f)
  {
    SomeOpenIff(s);
  }

  lemma AllGood(outs: seq<Outcome>)
    requires forall i | 0 <= i < |outs| :: outs[i] == Resolved
    ensures GoodPrefix(outs) == |outs|
  {}

  /** A batch that succeeded throughout is followed by the next one until the range is covered. */
  lemma BatchGoesOn(w: World, s: State, d: State)
    requires w.concurrency >= 1 && CanDo(w, s, BatchEnd) && d == Do(w, s, BatchEnd)
    requires forall i | 0 <= i < |s.scan.kids| :: Outcomes(s, s.scan.kids)[i] == Resolved
    requires s.scan.kids != [] && s.scan.lo + |s.scan.kids| <= s.scan.last
    ensures d.tracker == s.tracker && d.cursor == Some(s.scan.lo + |s.scan.kids| - 1)
    ensures JustSent(w, d.scan, s.scan.first, s.scan.last, s.scan.lo + |s.scan.kids|)
  {
    AllGood(Outcomes(s, s.scan.kids));
  }

  /** Past the stale age and possibly in a block nobody has seen: what the end of a scan classifies. */
  predicate PastStaleAge(w: World, now: int, x: Tx) {
    x.status in {Submitting, Submitted, Retracted} && x.createdAt <= now - w.staleMs
  }

  /** When the last batch succeeds, every open ticket gets the complete record, and exactly the tickets past the
      stale age are classified next. */
  lemma CompletionIsRecorded(w: World, s: State, d: State)
    requires w.concurrency >= 1 && CanDo(w, s, BatchEnd) && d == Do(w, s, BatchEnd)
    requires forall i | 0 <= i < |s.scan.kids| :: Outcomes(s, s.scan.kids)[i] == Resolved
    requires s.scan.kids != [] && s.scan.lo + |s.scan.kids| > s.scan.last
    ensures d.cursor == Some(s.scan.lo + |s.scan.kids| - 1) && d.tracker.txs.Keys == s.tracker.txs.Keys
    ensures forall h | h in s.tracker.txs ::
              RangeRecorded(s.tracker.txs[h], d.tracker.txs[h], s.scan.first, s.scan.last)
    ensures d.scan.Idle? || (d.scan.Settling? && d.scan.first == s.scan.first && d.scan.last == s.scan.last)
    ensures d.scan.Idle? ==> forall h | h in s.tracker.txs :: !PastStaleAge(w, s.now, s.tracker.txs[h])
    ensures d.scan.Settling? ==>
              forall h :: h in d.scan.stale <==> h in s.tracker.txs && PastStaleAge(w, s.now, s.tracker.txs[h])
  {
    var outs := Outcomes(s, s.scan.kids);
    AllGood(outs);
    var (first, last) := (s.scan.first, s.scan.last);
    var s2 := s.(cursor := d.cursor, scanned := d.scanned,
                 tracker := AllTxs(s.tracker, x => RecordComplete(x, first, last)));
    forall h ensures h in Stale(w, s2) <==> h in s.tracker.txs && PastStaleAge(w, s.now, s.tracker.txs[h]) {}
  }

  /** A cancelled height ends the scan without a record. */
  lemma CancelledBatchRecordsNothing(w: World, s: State, i: nat, d: State)
    requires w.concurrency >= 1 && CanDo(w, s, BatchEnd) && d == Do(w, s, BatchEnd)
    requires i < |s.scan.kids| && Outcomes(s, s.scan.kids)[i] == Cancelled
    requires forall k | 0 <= k < i :: Outcomes(s, s.scan.kids)[k] == Resolved
    ensures d.tracker == s.tracker && d.scan == Idle
  {
    assert GoodPrefix(Outcomes(s, s.scan.kids)) == i;
  }

  /** If the best chain could not be scanned, the stale tickets are handed over with an empty, incomplete record: those
      still open and sent. Nobody else is touched. */
  lemma BestFailureHandsOver(w: World, s: State, d: State)
    requires w.concurrency >= 1 && CanDo(w, s, BestFailed) && d == Do(w, s, BestFailed)
    ensures d == s.(tracker := d.tracker, scan := Idle) && d.tracker == s.tracker.(txs := d.tracker.txs)
    ensures d.tracker.txs.Keys == s.tracker.txs.Keys
    ensures forall h | h in s.tracker.txs ::
              var x, y := s.tracker.txs[h], d.tracker.txs[h];
              if h in s.scan.stale && x.status in {Submitting, Submitted, Retracted, InBlockSuccess}
              then y == x.(status := ReconciliationRequired, recovery := y.recovery)
                   && y.recovery == x.recovery.(complete := false, missing := [])
              else y == x
  {}

  /** After the best chain was scanned, the pool is asked about exactly the tickets past the stale age at that time. */
  lemma PoolIsAskedAboutStale(w: World, s: State, order: seq<TxHash>, endpoint: Endpoint, d: State)
    requires w.concurrency >= 1 && CanDo(w, s, BestDone(order, endpoint)) && d == Do(w, s, BestDone(order, endpoint))
    ensures d == s.(scan := d.scan)
    ensures forall h :: h in order <==> h in s.tracker.txs && PastStaleAge(w, s.now, s.tracker.txs[h])
    ensures d.scan == if order == [] then Idle else AskingPool(s.scan.first, s.scan.last, endpoint, order)
  {
    forall h ensures h in order <==> h in s.tracker.txs && PastStaleAge(w, s.now, s.tracker.txs[h]) {
      assert h in Members(order) <==> h in Stale(w, s);
    }
  }

  // ---------- messages of the node ----------

  /** The first endpoint known to have the transaction is kept. */
  predicate Reported(x: Tx, y: Tx, endpoint: Endpoint, moves: bool) {
    && y.submissionEndpoint == (if x.submissionEndpoint == None then Some(endpoint) else x.submissionEndpoint)
    && y.status == (if moves then Submitted else x.status)
    && y == x.(status := y.status, submissionEndpoint := y.submissionEndpoint)
  }

  /** `ready` confirms the submission of a ticket that has not been confirmed, and of a retracted one. */
  lemma ReadyConfirms(w: World, s: State, h: TxHash, endpoint: Endpoint, d: State)
    requires w.concurrency >= 1 && CanDo(w, s, NodeReady(h, endpoint)) && d == Do(w, s, NodeReady(h, endpoint))
    ensures d == s.(tracker := d.tracker) && d.tracker == s.tracker.(txs := s.tracker.txs[h := d.tracker.txs[h]])
    ensures var x := s.tracker.txs[h];
            Reported(x, d.tracker.txs[h], endpoint, x.status in {Created, Submitting, Retracted})
  {}

  /** An in-block message confirms a submission that has not been confirmed, makes the transaction a candidate of its
      block, and has the block resolved. */
  lemma InBlockConfirms(w: World, s: State, h: TxHash, b: BlockHash, endpoint: Endpoint, id: int, d: State)
    requires w.concurrency >= 1 && CanDo(w, s, NodeInBlock(h, b, endpoint, id))
    requires d == Do(w, s, NodeInBlock(h, b, endpoint, id))
    ensures d == s.(tracker := d.tracker, resolves := s.resolves[id := Resolve(b, Queued)])
    ensures d.tracker.txs == s.tracker.txs[h := d.tracker.txs[h]]
    ensures var x := s.tracker.txs[h]; Reported(x, d.tracker.txs[h], endpoint, x.status in {Created, Submitting})
    ensures EntryOf(d.tracker, b).candidates == EntryOf(s.tracker, b).candidates + {h}
    ensures EntryOf(d.tracker, b) == EntryOf(s.tracker, b).(candidates := EntryOf(d.tracker, b).candidates)
    ensures forall c | c != b :: EntryOf(d.tracker, c) == EntryOf(s.tracker, c)
  {}

  // ---------- resolving a block ----------

  predicate OutAndUnexecuted(t: Tracker, h: TxHash) {
    h in t.txs && t.txs[h].status in {Submitting, Submitted, Retracted}
  }

  /** A block newly followed has as candidates, besides those it had, exactly the open tickets that were sent and are
      not executed; its index is asked for unless it was before. */
  lemma FollowingIsExact(s: State, b: BlockHash, id: int, d: State)
    requires d == Follow(s, b, id)
    ensures var e, f := EntryOf(s.tracker, b), EntryOf(d.tracker, b);
            && (forall h :: h in f.candidates <==> h in e.candidates || OutAndUnexecuted(s.tracker, h))
            && f.index == (if e.index == Unstarted then Running else e.index)
            && f.indexFetches == e.indexFetches + Bit(e.index == Unstarted)
            && f == e.(candidates := f.candidates, index := f.index, indexFetches := f.indexFetches)
    ensures d.tracker.txs == s.tracker.txs && forall c | c != b :: EntryOf(d.tracker, c) == EntryOf(s.tracker, c)
    ensures d.resolves == s.resolves[id := Resolve(b, AwaitIndex)]
  {}

  /** With the index at hand, each candidate the block had not settled is either found in the block, and taken up
      next, or settled for good; the events are asked for once, and only if something was found. */
  lemma IndexDecidesEveryCandidate(w: World, s: State, id: int, matches: seq<TxHash>, d: State)
    requires w.concurrency >= 1 && CanDo(w, s, ResumeIndex(id, matches)) && d == Do(w, s, ResumeIndex(id, matches))
    requires EntryOf(s.tracker, s.resolves[id].block).index == Ready
    ensures var b := s.resolves[id].block;
            var e, f := EntryOf(s.tracker, b), EntryOf(d.tracker, b);
            && (forall h :: h in matches <==> h in e.candidates && h in w.body(b) && h !in e.applied)
            && (forall h :: h in f.applied <==> h in e.applied || (h in e.candidates && h !in w.body(b)))
            && f.events == (if matches != [] && e.events == Unstarted then Running else e.events)
            && f.eventFetches == e.eventFetches + Bit(matches != [] && e.events == Unstarted)
            && f == e.(applied := f.applied, events := f.events, eventFetches := f.eventFetches)
            && d.resolves[id].pc == (if matches == [] then Returned else AwaitEvents(matches))
    ensures d.tracker.txs == s.tracker.txs
  {
    var b := s.resolves[id].block;
    var e := EntryOf(s.tracker, b);
    forall h ensures h in matches <==> h in e.candidates && h in w.body(b) && h !in e.applied {
      assert h in Members(matches) <==> h in Matches(e, w.body(b));
    }
    if matches != [] { assert matches[0] in Members(matches); }
  }

  /** Where a resolution goes from each of its awaits: an unusable index ends it with the tickets and the block's
      entry as they were, the events decide between the two loops over all matches, and a cancellation ends it at
      once. */
  lemma ResolutionGoesOn(w: World, s: State, e: Event, d: State)
    requires w.concurrency >= 1 && CanDo(w, s, e) && d == Do(w, s, e)
    requires e.ResumeIndex? || e.ResumeEvents? || e.Cancel?
    requires e.ResumeIndex? ==> EntryOf(s.tracker, s.resolves[e.id].block).index != Ready
    ensures d == s.(resolves := s.resolves[e.id := Resolve(s.resolves[e.id].block, d.resolves[e.id].pc)])
    ensures e.ResumeIndex? ==> d.resolves[e.id].pc == Raised(false)
    ensures e.Cancel? ==> d.resolves[e.id].pc == Raised(true)
    ensures e.ResumeEvents? ==>
              var ms := s.resolves[e.id].pc.matches;
              d.resolves[e.id].pc == if ms == [] then Returned
                                     else if EntryOf(s.tracker, s.resolves[e.id].block).events == Ready
                                     then Applying(ms) else Failing(ms)
  {}

  /** How a height of a batch counts: as resolved when its resolution returned, as cancelled when it or the request for
      its hash was cancelled, and else as failed. */
  lemma HeightsCountExactly(s: State, kids: seq<Kid>, i: nat)
    requires i < |kids| && forall k | k in kids :: KidDone(s, k)
    ensures var o := Outcomes(s, kids)[i];
            && (o == Resolved <==> kids[i].Following? && PcIs(s, kids[i].id, (pc: Pc) => pc == Returned))
            && (o == Cancelled <==>
                  || kids[i] == Refused(true)
                  || (kids[i].Following? && PcIs(s, kids[i].id, (pc: Pc) => pc == Raised(true))))
  {
    assert KidDone(s, kids[i]);
  }

  /** A submission starts a fresh ticket: sent but not confirmed, dated now, with nothing on record. */
  lemma SubmissionIsFresh(w: World, s: State, h: TxHash, d: State)
    requires w.concurrency >= 1 && CanDo(w, s, Submit(h)) && d == Do(w, s, Submit(h))
    ensures d == s.(tracker := d.tracker) && d.tracker == s.tracker.(txs := s.tracker.txs[h := d.tracker.txs[h]])
    ensures d.tracker.txs[h] == Tx(Submitting, s.now, None, Recovery(None, 0, false, [], None, Unchecked))
  {}

  /** A fetch that ends is ready or broken as it succeeded or not, and a pruned block is as if never seen; no ticket
      and no other block is touched. */
  lemma EntriesChangeExactly(w: World, s: State, e: Event, d: State)
    requires e.IndexDone? || e.EventsDone? || e.Prune?
    requires w.concurrency >= 1 && CanDo(w, s, e) && d == Do(w, s, e)
    ensures d == s.(tracker := d.tracker) && d.tracker == s.tracker.(blocks := d.tracker.blocks)
    ensures forall c | c != e.block :: EntryOf(d.tracker, c) == EntryOf(s.tracker, c)
    ensures var x, y := EntryOf(s.tracker, e.block), EntryOf(d.tracker, e.block);
            match e
            case IndexDone(_, ok) => y == x.(index := if ok then Ready else Broken)
            case EventsDone(_, ok) => y == x.(events := if ok then Ready else Broken)
            case _ => y == NO_ENTRY
  {}

  /** The other moves of a scan: an abort ends it, a refused height notes whether it was cancelled, and the pool's
      answer is judged for every ticket it was asked about. Records and cursor stay. */
  lemma ScanMovesExactly(w: World, s: State, e: Event, d: State)
    requires e.ScanAbort? || e.KidRefused? || e.PoolAnswered?
    requires w.concurrency >= 1 && CanDo(w, s, e) && d == Do(w, s, e)
    ensures d == s.(scan := d.scan)
    ensures match e
            case KidRefused(k, cancelled) => d.scan == s.scan.(kids := s.scan.kids[k := Refused(cancelled)])
            case PoolAnswered(pool) =>
              d.scan == Judging(s.scan.first, s.scan.last, s.scan.endpoint, pool, s.scan.rest)
            case _ => d.scan == Idle
  {}
}
