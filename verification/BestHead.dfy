/** The best-head scan and the loop that drives it to a target. Best-head evidence is speculative, so heights may be
    skipped; every skip is accounted for. */
module BestHead {
  import opened Shared
  import opened TxLifecycle

  datatype Config = Config(maxBlocks: int, concurrency: int)

  /** An active ticket as the scan sees it. */
  datatype Ticket = Ticket(status: TxStatus, elapsedMs: int, inclusionMs: int, missing: seq<(int, int)>)

  /** `resolved` and `skips` are history: heights resolved, and the ranges passed without resolving them, with the
      tickets before and after. */
  datatype Skip = Skip(start: int, end: int, before: seq<Ticket>, after: seq<Ticket>)

  datatype State = State(cursor: int, tickets: seq<Ticket>, resolved: set<int>, skips: seq<Skip>)

  predicate Overdue(t: Ticket) { t.elapsedMs >= t.inclusionMs }

  /** `mark_reconciliation_required` for an overdue ticket. */
  function Flag(t: Ticket, start: int, end: int): Ticket {
    if Overdue(t) && Reconcilable(t.status)
    then t.(status := ReconciliationRequired, missing := [(start, end)]) else t
  }

  function FlagAll(ts: seq<Ticket>, start: int, end: int): seq<Ticket> {
    seq(|ts|, i requires 0 <= i < |ts| => Flag(ts[i], start, end))
  }

  function Passed(s: State, start: int, end: int): State {
    var after := if s.tickets == [] then [] else FlagAll(s.tickets, start, end);
    s.(cursor := end, tickets := after, skips := s.skips + [Skip(start, end, s.tickets, after)])
  }

  /** How many heights from lo on, at most n, resolve without failing. */
  function Good(lo: int, n: nat, ok: int -> bool): (g: nat)
    ensures g <= n && forall h | lo <= h < lo + g :: ok(h)
    ensures g < n ==> !ok(lo + g)
    decreases n
  {
    if n == 0 || !ok(lo) then 0 else 1 + Good(lo + 1, n - 1, ok)
  }

  function Resolvable(lo: int, n: nat, ok: int -> bool): set<int> {
    set h | lo <= h < lo + n && ok(h)
  }

  function AfterBatch(s: State, lo: int, n: nat, ok: int -> bool): State {
    var g := Good(lo, n, ok);
    s.(cursor := if g == 0 then s.cursor else lo + g - 1, resolved := s.resolved + Resolvable(lo, n, ok))
  }

  /** Batches from lo to end: all heights of a batch are tried, the cursor follows up to the first failure. */
  function ScanBatches(conc: int, s: State, lo: int, end: int, ok: int -> bool): (State, bool)
    requires conc >= 1 && lo <= end
    decreases end - lo
  {
    var n := Min(conc, end - lo + 1);
    var s1 := AfterBatch(s, lo, n, ok);
    if Good(lo, n, ok) < n then (s1, true)
    else if lo + n > end then (s1, false)
    else ScanBatches(conc, s1, lo + n, end, ok)
  }

  /** What the node answers: which heights can be resolved, and whose hash can be had. */
  datatype Node = Node(ok: int -> bool, hash: int -> bool)

  /** `_scan_best_chain`. A range that is passed has been passed even if reading the hash of its end then fails. */
  function ScanBest(c: Config, s: State, start: int, end: int, node: Node): (State, bool)
    requires c.concurrency >= 1 && start <= end
  {
    if s.tickets == [] || end - start + 1 > c.maxBlocks then (Passed(s, start, end), !node.hash(end))
    else ScanBatches(c.concurrency, s, start, end, node.ok)
  }

  /** How far one turn of the drain loop goes. */
  function TurnTarget(c: Config, cursor: int, target: int): int {
    if target - cursor > c.maxBlocks then target else Min(target, cursor + c.concurrency)
  }

  // ---------- accounting ----------

  predicate InSkip(skips: seq<Skip>, n: int) {
    exists k | 0 <= k < |skips| :: skips[k].start <= n <= skips[k].end
  }

  /** A ticket past its inclusion deadline is handed over with the range that was not looked at. */
  predicate Excuse(x: Ticket, y: Ticket, start: int, end: int) {
    if x.elapsedMs >= x.inclusionMs && x.status in {Submitting, Submitted, Retracted, InBlockSuccess}
    then y == x.(status := ReconciliationRequired, missing := [(start, end)])
    else y == x
  }

  /** A range was skipped while nothing was pending, or because the gap was too wide; then every ticket past its
      inclusion deadline was flagged with that range in the same step, and no other ticket was touched. */
  predicate Excused(c: Config, k: Skip) {
    || (k.before == [] && k.after == [])
    || (k.end - k.start + 1 > c.maxBlocks && |k.after| == |k.before|
        && forall i | 0 <= i < |k.before| ::
             Excuse(k.before[i], k.after[i], k.start, k.end))
  }

  /** From height `from` on, every height up to the cursor was resolved or skipped with an excuse. */
  ghost predicate Accounted(c: Config, s: State, from: int) {
    && from - 1 <= s.cursor
    && (forall n | from <= n <= s.cursor :: n in s.resolved || InSkip(s.skips, n))
    && (forall k | 0 <= k < |s.skips| :: Excused(c, s.skips[k]))
  }

  lemma {:induction false} BatchesAccounted(c: Config, s: State, lo: int, end: int, ok: int -> bool, from: int,
                                            r: (State, bool))
    requires c.concurrency >= 1 && lo <= end && s.cursor == lo - 1 && Accounted(c, s, from)
    requires r == ScanBatches(c.concurrency, s, lo, end, ok)
    ensures Accounted(c, r.0, from) && lo - 1 <= r.0.cursor <= end && r.0.skips == s.skips && r.0.tickets == s.tickets
    ensures if r.1 then r.0.cursor < end && !ok(r.0.cursor + 1) else r.0.cursor == end
    decreases end - lo
  {
    var n := Min(c.concurrency, end - lo + 1);
    var s1 := AfterBatch(s, lo, n, ok);
    assert Accounted(c, s1, from);
    if Good(lo, n, ok) == n && lo + n <= end { BatchesAccounted(c, s1, lo + n, end, ok, from, r); }
  }

  lemma PassedAccounted(c: Config, s: State, end: int, from: int)
    requires s.cursor < end && Accounted(c, s, from)
    requires s.tickets == [] || end - s.cursor > c.maxBlocks
    ensures Accounted(c, Passed(s, s.cursor + 1, end), from)
  {
    var d := Passed(s, s.cursor + 1, end);
    forall n | from <= n <= d.cursor ensures n in d.resolved || InSkip(d.skips, n) {
      if n > s.cursor {
        assert d.skips[|s.skips|].start <= n <= d.skips[|s.skips|].end;
      } else if n !in s.resolved {
        var k :| 0 <= k < |s.skips| && s.skips[k].start <= n <= s.skips[k].end;
        assert d.skips[k] == s.skips[k];
      }
    }
  }

  /** Why a scan raised: right above the cursor a height failed, or the cursor is at the end and its hash failed. */
  predicate Stopped(cursor: int, end: int, node: Node) {
    (cursor < end && !node.ok(cursor + 1)) || (cursor == end && !node.hash(end))
  }

  /** A scan that starts right above the cursor: it stops below a height that failed or reaches its end, and whatever it
      passes is accounted for. */
  lemma ScanAccounted(c: Config, s: State, end: int, node: Node, from: int, r: (State, bool))
    requires c.concurrency >= 1 && s.cursor < end && Accounted(c, s, from)
    requires r == ScanBest(c, s, s.cursor + 1, end, node)
    ensures Accounted(c, r.0, from) && s.cursor <= r.0.cursor <= end
    ensures if r.1 then Stopped(r.0.cursor, end, node) else r.0.cursor == end
  {
    if s.tickets == [] || end - s.cursor > c.maxBlocks {
      PassedAccounted(c, s, end, from);
    } else {
      BatchesAccounted(c, s, s.cursor + 1, end, node.ok, from, r);
    }
  }

  /** A range is skipped exactly when nothing is pending or it is wider than a scan may be; then nothing in it is
      resolved, the cursor is at its end, and only the request for the end's hash can fail. Otherwise the tickets are
      left alone. */
  lemma SkipsExactly(c: Config, s: State, end: int, node: Node, r: (State, bool))
    requires c.concurrency >= 1 && s.cursor < end && Accounted(c, s, s.cursor + 1)
    requires r == ScanBest(c, s, s.cursor + 1, end, node)
    ensures if s.tickets == [] || end - s.cursor > c.maxBlocks then
              && r.0.cursor == end && r.0.resolved == s.resolved && (r.1 <==> !node.hash(end))
              && r.0.skips == s.skips + [Skip(s.cursor + 1, end, s.tickets, r.0.tickets)]
            else r.0.skips == s.skips && r.0.tickets == s.tickets
  {
    if s.tickets != [] && end - s.cursor <= c.maxBlocks {
      BatchesAccounted(c, s, s.cursor + 1, end, node.ok, s.cursor + 1, r);
    }
  }

  // ---------- the drain ----------

  /** Scan batches from a gap to zero: one if the gap is too wide to scan, else as many as hold it. */
  function ScansNeeded(c: Config, gap: int): nat
    requires c.concurrency >= 1
    decreases gap
  {
    if gap <= 0 then 0 else if gap > c.maxBlocks then 1 else 1 + ScansNeeded(c, gap - Min(gap, c.concurrency))
  }

  /** That is the least number of batches that hold the gap. */
  lemma {:induction false} ScansNeededIsLeast(c: Config, gap: int, k: int)
    requires c.concurrency >= 1 && k == ScansNeeded(c, gap) && 0 < gap <= c.maxBlocks
    ensures (k - 1) * c.concurrency < gap <= k * c.concurrency
    decreases gap
  {
    if gap > c.concurrency {
      ScansNeededIsLeast(c, gap - c.concurrency, k - 1);
      assert (k - 1) * c.concurrency == (k - 2) * c.concurrency + c.concurrency;
      assert k * c.concurrency == (k - 1) * c.concurrency + c.concurrency;
    } else {
      assert k == 1;
    }
  }

  class RecoveryTracker {
    const config: Config
    var lastBestNumber: int
    var pendingTransactions: seq<Ticket>
    ghost var resolved: set<int>
    ghost var skips: seq<Skip>
    ghost var since: int

    /** Every height from `since` on is accounted for. */
    ghost predicate Valid()
      reads this
    {
      Accounted(config, Contents(), since)
    }

    ghost function Contents(): State
      reads this
    {
      State(lastBestNumber, pendingTransactions, resolved, skips)
    }

    constructor (config: Config, best: int)
      ensures Contents() == State(best, [], {}, []) && this.config == config && since == best + 1 && Valid()
    {
      this.config := config;
      lastBestNumber, pendingTransactions, resolved, skips, since := best, [], {}, [], best + 1;
    }

    /** Flags the overdue tickets, one after the other. */
    method FlagOverdue(start: int, end: int)
      modifies `pendingTransactions
      ensures pendingTransactions == FlagAll(old(pendingTransactions), start, end)
    {
      ghost var before := pendingTransactions;
      var i := 0;
      while i < |pendingTransactions|
        invariant i <= |pendingTransactions| == |before|
        invariant forall k | 0 <= k < |before| ::
                    pendingTransactions[k] == if k < i then Flag(before[k], start, end) else before[k]
      {
        var t := pendingTransactions[i];
        if Overdue(t) && Reconcilable(t.status) {
          t := t.(status := ReconciliationRequired, missing := [(start, end)]);
          pendingTransactions := pendingTransactions[i := t];
        }
        i := i + 1;
      }
    }

    /** The cursor follows the results of one batch until the first failure. */
    method FollowResults(lo: int, results: seq<bool>, ghost ok: int -> bool) returns (raised: bool)
      requires forall i | 0 <= i < |results| :: results[i] == ok(lo + i)
      modifies `lastBestNumber
      ensures var g := Good(lo, |results|, ok);
              raised == (g < |results|) && lastBestNumber == if g == 0 then old(lastBestNumber) else lo + g - 1
    {
      var i := 0;
      while i < |results|
        invariant i <= |results|
        invariant Good(lo, |results|, ok) == i + Good(lo + i, |results| - i, ok)
        invariant lastBestNumber == if i == 0 then old(lastBestNumber) else lo + i - 1
      {
        if !results[i] { return true; }
        lastBestNumber := lo + i;
        i := i + 1;
      }
      return false;
    }

    method ScanBatch(lo: int, n: nat, resolve: int -> bool) returns (raised: bool)
      modifies `lastBestNumber, `resolved
      ensures Contents() == AfterBatch(old(Contents()), lo, n, resolve)
      ensures raised == (Good(lo, n, resolve) < n)
    {
      var results := seq(n, i => resolve(lo + i));
      resolved := resolved + Resolvable(lo, n, resolve);
      raised := FollowResults(lo, results, resolve);
    }

    method ScanRange(start: int, end: int, resolve: int -> bool) returns (raised: bool)
      requires config.concurrency >= 1 && start <= end
      modifies `lastBestNumber, `resolved
      ensures (Contents(), raised) == ScanBatches(config.concurrency, old(Contents()), start, end, resolve)
    {
      ghost var wanted := ScanBatches(config.concurrency, Contents(), start, end, resolve);
      var lo := start;
      while lo <= end
        invariant wanted == if lo <= end then ScanBatches(config.concurrency, Contents(), lo, end, resolve)
                            else (Contents(), false)
        decreases end - lo
      {
        var n := Min(config.concurrency, end - lo + 1);
        var failed := ScanBatch(lo, n, resolve);
        if failed { return true; }
        lo := lo + n;
      }
      return false;
    }

    /** `_scan_best_chain`, up to its last await. */
    method ScanBestChain(start: int, end: int, node: Node) returns (raised: bool)
      requires config.concurrency >= 1 && start <= end
      modifies this
      ensures (Contents(), raised) == ScanBest(config, old(Contents()), start, end, node)
      ensures since == old(since)
    {
      ghost var before := pendingTransactions;
      if pendingTransactions == [] || end - start + 1 > config.maxBlocks {
        if pendingTransactions != [] { FlagOverdue(start, end); }
        skips := skips + [Skip(start, end, before, pendingTransactions)];
        lastBestNumber := end;
        return !node.hash(end);
      }
      raised := ScanRange(start, end, node.ok);
    }

    /** `_drain_best_scans` for one target: `others` is what the tickets look like when each turn takes the lock. */
    method DrainBestScans(target: int, others: nat -> seq<Ticket>, node: Node)
      returns (scans: nat, failed: bool)
      requires config.concurrency >= 1 && Valid()
      modifies this
      ensures Valid() && since == old(since) && old(lastBestNumber) <= lastBestNumber
      ensures !failed ==> lastBestNumber == if old(lastBestNumber) < target then target else old(lastBestNumber)
      ensures !failed ==> scans == ScansNeeded(config, target - old(lastBestNumber))
      ensures failed ==> !node.ok(lastBestNumber + 1) || !node.hash(lastBestNumber)
      ensures failed ==> scans <= ScansNeeded(config, target - old(lastBestNumber))
    {
      scans, failed := 0, false;
      ghost var first := lastBestNumber;
      while lastBestNumber < target
        invariant Valid() && since == old(since) && first <= lastBestNumber
        invariant lastBestNumber <= target || lastBestNumber == first
        invariant scans + ScansNeeded(config, target - lastBestNumber) == ScansNeeded(config, target - first)
        decreases target - lastBestNumber
      {
        pendingTransactions := others(scans);
        ghost var s := Contents();
        var end := TurnTarget(config, lastBestNumber, target);
        TurnAdvances(config, lastBestNumber, target, end);
        failed := ScanBestChain(lastBestNumber + 1, end, node);
        ScanAccounted(config, s, end, node, since, (Contents(), failed));
        scans := scans + 1;
        if failed { return; }
      }
    }
  }

  lemma TurnAdvances(c: Config, cursor: int, target: int, end: int)
    requires c.concurrency >= 1 && cursor < target && end == TurnTarget(c, cursor, target)
    ensures cursor < end <= target && ScansNeeded(c, target - cursor) == 1 + ScansNeeded(c, target - end)
  {}
}
