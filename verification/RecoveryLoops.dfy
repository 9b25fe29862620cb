/** The finalized scan on mutable cursors and records: what runs between two of its awaits, proved to do one step of the
    engine, and the verdict loop proved to do a run of them. */
module RecoveryLoops {
  import opened Options
  import opened Shared
  import opened TxLifecycle
  import opened TrackerModel
  import opened Engine

  /** The loop over stale tickets once the pool has answered, until it ends or a mark raises. */
  function JudgeAll(ts: map<TxHash, Tx>, first: int, last: int, endpoint: Endpoint, pool: PoolAnswer, rest: seq<TxHash>)
    : (map<TxHash, Tx>, bool)
    requires forall i | 0 <= i < |rest| :: rest[i] in ts
    decreases |rest|
  {
    if rest == [] then (ts, false)
    else
      var h := rest[0];
      var us := ts[h := Judge(ts[h], first, last, endpoint, pool, h)];
      if JudgedAbsent(ts[h], endpoint, pool, h) && !Legal(ts[h].status, NotIncluded) then (us, true)
      else JudgeAll(us, first, last, endpoint, pool, rest[1..])
  }

  // ---------- what the pool's answer does ----------

  /** The pool that answered is the one the transaction was submitted to. */
  predicate PoolAnswers(x: Tx, endpoint: Endpoint, pool: PoolAnswer) {
    pool.Listing? && x.submissionEndpoint == Some(endpoint)
  }

  /** What y, the ticket h after its turn, owes to the answer: seen in the pool exactly when the pool it was
      submitted to lists it, absent exactly when that pool does not, otherwise unusable. Only an absent one is ruled
      out, and only an unusable answer hands the ticket over; the complete range and the pool are on record in every
      case. */
  predicate Classified(x: Tx, y: Tx, h: TxHash, first: int, last: int, endpoint: Endpoint, pool: PoolAnswer) {
    && (y.recovery.poolResult == Present <==> PoolAnswers(x, endpoint, pool) && h in pool.hashes)
    && (y.recovery.poolResult == Absent <==> PoolAnswers(x, endpoint, pool) && h !in pool.hashes)
    && (y.recovery.poolResult == Unusable <==> !PoolAnswers(x, endpoint, pool))
    && y.recovery.poolEndpoint == Some(endpoint)
    && y.recovery.scanStart == (if x.recovery.scanStart == None then Some(first) else x.recovery.scanStart)
    && y.recovery.scanEnd == last && y.recovery.complete && y.recovery.missing == []
    && y == x.(status := y.status, recovery := y.recovery)
    && y.status == (if y.recovery.poolResult == Absent && x.status in {Submitted, Retracted} then NotIncluded
                    else if y.recovery.poolResult == Unusable
                            && x.status in {Submitting, Submitted, Retracted, InBlockSuccess}
                    then ReconciliationRequired
                    else x.status)
  }

  lemma JudgedExactly(x: Tx, first: int, last: int, endpoint: Endpoint, pool: PoolAnswer, h: TxHash)
    ensures Classified(x, Judge(x, first, last, endpoint, pool, h), h, first, last, endpoint, pool)
    ensures JudgedAbsent(x, endpoint, pool, h) <==> PoolAnswers(x, endpoint, pool) && h !in pool.hashes
  {}

  /** The loop classifies each stale ticket in turn and raises exactly when it reaches one that its pool does not list
      and that cannot be ruled out; that one is recorded as absent and keeps its status, and nobody after it is touched.
      */
  lemma {:induction false} EveryStaleTicketIsClassified(ts: map<TxHash, Tx>, first: int, last: int, endpoint: Endpoint,
                                                        pool: PoolAnswer, rest: seq<TxHash>,
                                                        us: map<TxHash, Tx>, raised: bool) returns (n: nat)
    requires Distinct(rest) && forall i | 0 <= i < |rest| :: rest[i] in ts
    requires (us, raised) == JudgeAll(ts, first, last, endpoint, pool, rest)
    ensures n <= |rest| && us.Keys == ts.Keys
    ensures forall i | 0 <= i < n ::
              Classified(ts[rest[i]], us[rest[i]], rest[i], first, last, endpoint, pool)
    ensures forall h | h in ts && h !in rest[..n] :: us[h] == ts[h]
    ensures !raised ==> n == |rest|
    ensures raised ==> n > 0
    ensures forall i | 0 <= i < n ::
              (PoolAnswers(ts[rest[i]], endpoint, pool) && rest[i] !in pool.hashes
               && ts[rest[i]].status !in {Submitted, Retracted}) <==> raised && i == n - 1
    decreases |rest|
  {
    n := 0;
    if rest != [] {
      var h := rest[0];
      var ts1 := ts[h := Judge(ts[h], first, last, endpoint, pool, h)];
      JudgedExactly(ts[h], first, last, endpoint, pool, h);
      if JudgedAbsent(ts[h], endpoint, pool, h) && !Legal(ts[h].status, NotIncluded) {
        n := 1;
      } else {
        var m := EveryStaleTicketIsClassified(ts1, first, last, endpoint, pool, rest[1..], us, raised);
        n := m + 1;
        assert rest[..n] == [h] + rest[1..][..m];
        assert h !in rest[1..][..m];
      }
    }
  }

  /** What the verdict loop owes to a ticket it was handed: it is closed, or the pool it was submitted to lists it. */
  predicate Answered(x: Tx, h: TxHash, last: int, endpoint: Endpoint, pool: PoolAnswer) {
    && x.recovery.poolEndpoint == Some(endpoint) && x.recovery.poolResult != Unchecked
    && x.recovery.scanEnd == last && x.recovery.complete && x.recovery.missing == []
    && (x.recovery.poolResult == Present <==> PoolAnswers(x, endpoint, pool) && h in pool.hashes)
    && (Terminal(x.status) || (PoolAnswers(x, endpoint, pool) && h in pool.hashes))
  }

  lemma JudgedIsAnswered(x: Tx, first: int, last: int, endpoint: Endpoint, pool: PoolAnswer, h: TxHash)
    requires x.status != Created
    ensures var y := Judge(x, first, last, endpoint, pool, h);
            y.status != Created && (Answered(y, h, last, endpoint, pool)
                                    <==> !(JudgedAbsent(x, endpoint, pool, h) && !Terminal(x.status)
                                           && !Legal(x.status, NotIncluded)))
  {}

  /** Nobody is left hanging: unless a mark raised, every stale ticket handed to the loop ends closed or listed by the
      pool it was submitted to, with the complete range and the pool's endpoint on record; all other tickets are
      untouched. */
  lemma {:induction false} EveryStaleTicketIsAnswered(ts: map<TxHash, Tx>, first: int, last: int, endpoint: Endpoint,
                                                      pool: PoolAnswer, rest: seq<TxHash>,
                                                      us: map<TxHash, Tx>, h: TxHash)
    requires forall i | 0 <= i < |rest| :: rest[i] in ts && ts[rest[i]].status != Created
    requires (us, false) == JudgeAll(ts, first, last, endpoint, pool, rest) && h in ts
    ensures h in us && (h !in rest ==> us[h] == ts[h])
    ensures h in rest || Answered(ts[h], h, last, endpoint, pool) ==> Answered(us[h], h, last, endpoint, pool)
    decreases |rest|
  {
    if rest != [] {
      var g := rest[0];
      JudgedIsAnswered(ts[g], first, last, endpoint, pool, g);
      var ts1 := ts[g := Judge(ts[g], first, last, endpoint, pool, g)];
      EveryStaleTicketIsAnswered(ts1, first, last, endpoint, pool, rest[1..], us, h);
      assert rest == [g] + rest[1..];
    }
  }

  lemma {:induction false} JudgeLoopIsARun(w: World, s: State) returns (es: seq<Event>, d: State)
    requires w.concurrency >= 1 && s.scan.Judging?
    requires forall i | 0 <= i < |s.scan.rest| :: s.scan.rest[i] in s.tracker.txs
    ensures Run(w, s, es) && d == After(w, s, es) && d.scan == Idle
    ensures d.tracker.txs
         == JudgeAll(s.tracker.txs, s.scan.first, s.scan.last, s.scan.endpoint, s.scan.pool, s.scan.rest).0
    decreases |s.scan.rest|
  {
    var Judging(first, last, endpoint, pool, rest) := s.scan;
    if rest == [] {
      es, d := [JudgeEnd], Do(w, s, JudgeEnd);
      assert Run(w, d, es[1..]);
    } else {
      var s1 := Do(w, s, JudgeOne);
      JudgeTurn(w, s, s1);
      if s1.scan == Idle {
        es, d := [JudgeOne], s1;
        assert Run(w, s1, es[1..]);
      } else {
        var more;
        more, d := JudgeLoopIsARun(w, s1);
        es := [JudgeOne] + more;
        assert es[1..] == more;
      }
    }
  }

  lemma JudgeTurn(w: World, s: State, d: State)
    requires w.concurrency >= 1 && CanDo(w, s, JudgeOne) && d == Do(w, s, JudgeOne)
    ensures var Judging(first, last, endpoint, pool, rest) := s.scan;
            var h, x := rest[0], s.tracker.txs[rest[0]];
            && d.tracker.txs == s.tracker.txs[h := Judge(x, first, last, endpoint, pool, h)]
            && (d.scan == if JudgedAbsent(x, endpoint, pool, h) && !Legal(x.status, NotIncluded) then Idle
                          else Judging(first, last, endpoint, pool, rest[1..]))
  {}

  /** `order` lists the tickets as `pending_transactions` does. */
  class RecoveryTracker {
    const config: World
    var transactions: map<TxHash, Tx>
    var order: seq<TxHash>
    var lastFinalizedScanNumber: Option<int>
    var scan: Scan

    predicate Valid()
      reads this
    {
      && config.concurrency >= 1
      && (forall h | h in transactions :: h in order)
      && Distinct(order)
    }

    /** The part of the engine's state this object holds. */
    predicate Shows(s: State)
      reads this
    {
      transactions == s.tracker.txs && lastFinalizedScanNumber == s.cursor && scan == s.scan
    }

    constructor (config: World)
      requires config.concurrency >= 1
      ensures Valid() && this.config == config
      ensures transactions == map[] && lastFinalizedScanNumber == None && scan == Idle
    {
      this.config := config;
      transactions, order, lastFinalizedScanNumber, scan := map[], [], None, Idle;
    }

    method RecordCompleteFinalizedScan(first: int, last: int)
      requires Valid()
      modifies `transactions
      ensures transactions == map h | h in old(transactions) :: RecordComplete(old(transactions)[h], first, last)
    {
      ghost var before := transactions;
      var i := 0;
      while i < |order|
        invariant i <= |order| && transactions.Keys == before.Keys
        invariant forall h | h in before ::
                    transactions[h] == if h in order[..i] then RecordComplete(before[h], first, last) else before[h]
      {
        var h := order[i];
        assert order[..i + 1] == order[..i] + [h] && h !in order[..i];
        i := i + 1;
        if h !in transactions || Terminal(transactions[h].status) { continue; }
        var r := transactions[h].recovery;
        if r.scanStart.None? { r := r.(scanStart := Some(first)); }
        r := r.(scanEnd := last, complete := true, missing := []);
        transactions := transactions[h := transactions[h].(recovery := r)];
      }
      assert order[..|order|] == order;
      assert forall h | h in before :: h in order && transactions[h] == RecordComplete(before[h], first, last);
    }

    method MarkReconciliationRequired(h: TxHash, complete: bool, missing: seq<(int, int)>)
      requires h in transactions
      modifies `transactions
      ensures transactions == old(transactions)[h := Reconcile(old(transactions)[h], complete, missing)]
    {
      var x := transactions[h];
      if Reconcilable(x.status) {
        x := x.(recovery := x.recovery.(complete := complete, missing := missing), status := ReconciliationRequired);
      }
      transactions := transactions[h := x];
    }

    method RecordIncompleteFinalizedScan(start: int, end: int, now: int)
      requires Valid()
      modifies `transactions
      ensures transactions == map h | h in old(transactions) ::
                RecordIncomplete(old(transactions)[h], start, end, now, config.staleMs)
    {
      ghost var before := transactions;
      var i := 0;
      while i < |order|
        invariant i <= |order| && transactions.Keys == before.Keys
        invariant forall h | h in before :: transactions[h] ==
                    if h in order[..i] then RecordIncomplete(before[h], start, end, now, config.staleMs) else before[h]
      {
        var h := order[i];
        assert order[..i + 1] == order[..i] + [h] && h !in order[..i];
        i := i + 1;
        if h !in transactions || Terminal(transactions[h].status) { continue; }
        var r := transactions[h].recovery;
        if r.scanStart.None? { r := r.(scanStart := Some(start)); }
        r := r.(scanEnd := end, complete := false, missing := [(start, end)]);
        transactions := transactions[h := transactions[h].(recovery := r)];
        if now - transactions[h].createdAt >= config.staleMs {
          MarkReconciliationRequired(h, false, [(start, end)]);
        }
      }
      assert order[..|order|] == order;
      assert forall h | h in before ::
          h in order && transactions[h] == RecordIncomplete(before[h], start, end, now, config.staleMs);
    }

    /** Is any ticket still active? */
    method AnyPending() returns (any: bool)
      requires Valid()
      ensures any <==> exists h :: h in transactions && !Terminal(transactions[h].status)
    {
      var i := 0;
      while i < |order|
        invariant i <= |order|
        invariant forall h | h in order[..i] && h in transactions :: Terminal(transactions[h].status)
      {
        var h := order[i];
        assert order[..i + 1] == order[..i] + [h];
        if h in transactions && !Terminal(transactions[h].status) { return true; }
        i := i + 1;
      }
      assert order[..|order|] == order;
      return false;
    }

    /** `_scan_finalized_chain` up to its first await. */
    method BeginFinalizedScan(finalized: int, now: int, ghost s: State)
      requires Valid() && Shows(s) && s.now == now && scan == Idle
      modifies this
      ensures Shows(DoScanBegin(config, s, finalized))
    {
      if lastFinalizedScanNumber.None? {
        lastFinalizedScanNumber := Some(finalized);
        return;
      }
      var previous := lastFinalizedScanNumber.value;
      if finalized <= previous { return; }
      var pending := AnyPending();
      NoneActive(s);
      if !pending {
        lastFinalizedScanNumber := Some(finalized);
        return;
      }
      if finalized - previous > config.maxBlocks {
        RecordIncompleteFinalizedScan(previous + 1, finalized, now);
        return;
      }
      scan := Batch(previous + 1, finalized, previous + 1, Kids(config, previous + 1, finalized));
    }

    /** The cursor follows the results of one batch up to the first that is not a success. */
    method FollowResults(lo: int, results: seq<Outcome>) returns (good: nat)
      modifies `lastFinalizedScanNumber
      ensures good == GoodPrefix(results)
      ensures lastFinalizedScanNumber == if good == 0 then old(lastFinalizedScanNumber) else Some(lo + good - 1)
    {
      good := 0;
      while good < |results| && results[good] == Resolved
        invariant good <= |results| && forall i | 0 <= i < good :: results[i] == Resolved
        invariant lastFinalizedScanNumber == if good == 0 then old(lastFinalizedScanNumber) else Some(lo + good - 1)
      {
        lastFinalizedScanNumber := Some(lo + good);
        good := good + 1;
      }
      GoodPrefixIsFirstBad(results, good);
    }

    /** `_scan_finalized_chain` from the results of one batch to its next await. */
    method FinishBatch(results: seq<Outcome>, now: int, ghost s: State)
      requires Valid() && Shows(s) && s.now == now && CanDo(config, s, BatchEnd) && results == Outcomes(s, scan.kids)
      modifies this
      ensures Shows(DoBatchEnd(config, s))
    {
      var Batch(first, last, lo, kids) := scan;
      var good := FollowResults(lo, results);
      scan := Idle;
      if good < |results| {
        if results[good] != Cancelled { RecordIncompleteFinalizedScan(lo + good, last, now); }
        return;
      }
      if lo + good <= last {
        scan := Batch(first, last, lo + good, Kids(config, lo + good, last));
        return;
      }
      CompleteFinalizedScan(first, last, now);
    }

    /** The scan has covered its whole range: the record is written, and stale tickets are classified next. */
    method CompleteFinalizedScan(first: int, last: int, now: int)
      requires Valid() && scan == Idle
      modifies `transactions, `scan
      ensures transactions == map h | h in old(transactions) :: RecordComplete(old(transactions)[h], first, last)
      ensures var stale := StaleAmong(config, now, transactions);
              scan == if stale == {} then Idle else Settling(first, last, stale)
    {
      RecordCompleteFinalizedScan(first, last);
      var stale := StaleAmong(config, now, transactions);
      if stale != {} { scan := Settling(first, last, stale); }
    }

    /** `_classify_stale_pending` once the pool has answered. */
    method JudgeStale(first: int, last: int, endpoint: Endpoint, pool: PoolAnswer, stale: seq<TxHash>)
      returns (raised: bool)
      requires forall i | 0 <= i < |stale| :: stale[i] in transactions
      modifies `transactions
      ensures (transactions, raised) == JudgeAll(old(transactions), first, last, endpoint, pool, stale)
    {
      var i := 0;
      while i < |stale|
        invariant i <= |stale| && transactions.Keys == old(transactions).Keys
        invariant JudgeAll(old(transactions), first, last, endpoint, pool, stale)
               == JudgeAll(transactions, first, last, endpoint, pool, stale[i..])
      {
        var h := stale[i];
        assert stale[i..][1..] == stale[i + 1..];
        i := i + 1;
        raised := JudgeTicket(h, first, last, endpoint, pool);
        if raised { return; }
      }
      return false;
    }

    method RecordPoolDiagnostics(h: TxHash, first: int, last: int, endpoint: Endpoint, result: PoolResult)
      requires h in transactions
      modifies `transactions
      ensures transactions == old(transactions)[h := RecordPool(old(transactions)[h], first, last, endpoint, result)]
    {
      var r := transactions[h].recovery;
      if r.scanStart.None? { r := r.(scanStart := Some(first)); }
      r := r.(scanEnd := last, complete := true, missing := [], poolEndpoint := Some(endpoint), poolResult := result);
      transactions := transactions[h := transactions[h].(recovery := r)];
    }

    method JudgeTicket(h: TxHash, first: int, last: int, endpoint: Endpoint, pool: PoolAnswer) returns (raised: bool)
      requires h in transactions
      modifies `transactions
      ensures transactions == old(transactions)[h := Judge(old(transactions)[h], first, last, endpoint, pool, h)]
      ensures raised == (JudgedAbsent(old(transactions)[h], endpoint, pool, h)
                         && !Legal(old(transactions)[h].status, NotIncluded))
    {
      raised := false;
      if pool.Unavailable? || transactions[h].submissionEndpoint != Some(endpoint) || pool.NotAList? {
        RecordPoolDiagnostics(h, first, last, endpoint, Unusable);
        MarkReconciliationRequired(h, true, []);
        return;
      }
      if h in pool.hashes {
        RecordPoolDiagnostics(h, first, last, endpoint, Present);
        return;
      }
      RecordPoolDiagnostics(h, first, last, endpoint, Absent);
      if !Legal(transactions[h].status, NotIncluded) { return true; }
      transactions := transactions[h := transactions[h].(status := NotIncluded)];
    }
  }

  function StaleAmong(w: World, now: int, ts: map<TxHash, Tx>): set<TxHash> {
    set h | h in ts && IsStale(w, now, ts[h])
  }

  lemma NoneActive(s: State)
    ensures Active(s.tracker) == {} <==> !exists h :: h in s.tracker.txs && !Terminal(s.tracker.txs[h].status)
  {
    if forall h | h in s.tracker.txs :: Terminal(s.tracker.txs[h].status) {
      assert Active(s.tracker) == {};
    } else {
      var h :| h in s.tracker.txs && !Terminal(s.tracker.txs[h].status);
      assert h in Active(s.tracker);
    }
  }

  lemma GoodPrefixIsFirstBad(outs: seq<Outcome>, n: nat)
    requires n <= |outs| && (forall i | 0 <= i < n :: outs[i] == Resolved) && (n < |outs| ==> outs[n] != Resolved)
    ensures GoodPrefix(outs) == n
  {}
}
