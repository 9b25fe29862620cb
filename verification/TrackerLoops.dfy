/** The loops of the tracker and of the finalized scan, on mutable tables, proved against the functions the engine's
    steps are made of. */
module TrackerLoops {
  import opened Options
  import opened Shared
  import opened TxLifecycle
  import opened TrackerModel
  import opened Engine

  // ---------- the loops, as functions ----------

  /** The loop over matches with the events known, until it ends or a mark raises. */
  function ApplyAll(t: Tracker, b: BlockHash, ms: seq<TxHash>, verdict: TxHash -> Verdict): (Tracker, bool)
    decreases |ms|
  {
    if ms == [] then (t, false)
    else
      var (u, raised) := ApplyMatch(t, b, ms[0], verdict(ms[0]));
      if raised then (u, true) else ApplyAll(u, b, ms[1..], verdict)
  }

  /** The loop over matches with the events missing. */
  function FailAll(t: Tracker, b: BlockHash, ms: seq<TxHash>): (Tracker, bool)
    decreases |ms|
  {
    if ms == [] then (t, false)
    else
      var (u, raised) := FailMatch(t, b, ms[0]);
      if raised then (u, true) else FailAll(u, b, ms[1..])
  }

  // ---------- what a block's verdict does ----------

  /** The status a verdict tells a ticket. */
  predicate Tells(v: Verdict, s: TxStatus) {
    && (s == InBlockSuccess <==> v == Executed)
    && (s == InBlockFailed <==> v == Reverted)
    && (s == ReconciliationRequired <==> v == Unresolved)
  }

  /** The statuses in which a ticket refuses to be told. */
  predicate Refuses(s: TxStatus, v: Verdict) {
    && s !in {Submitted, Retracted}
    && (v == Unresolved ==> s !in {Created, Submitting, InBlockSuccess})
  }

  /** The ticket is told the verdict; nothing else of it changes. */
  predicate Told(x: Tx, y: Tx, v: Verdict) {
    Tells(v, y.status) && y == x.(status := y.status)
  }

  /** One turn tells the ticket the block's verdict unless the block has settled it already or retention dropped it;
      a ticket that refuses stays as it was, and the loop raises. Either way the block has settled it. */
  lemma VerdictIsTold(t: Tracker, b: BlockHash, h: TxHash, v: Verdict, u: Tracker, raised: bool)
    requires (u, raised) == ApplyMatch(t, b, h, v)
    ensures var open := Stored(t, h) && h !in EntryOf(t, b).applied;
            && (raised <==> open && Refuses(t.txs[h].status, v))
            && (open && !raised ==> h in u.txs && Told(t.txs[h], u.txs[h], v))
            && (!open || raised ==> u.txs == t.txs)
    ensures u.txs.Keys == t.txs.Keys && u.evicted == t.evicted
    ensures forall g | g in t.txs && g != h :: u.txs[g] == t.txs[g]
    ensures EntryOf(u, b).applied == EntryOf(t, b).applied + {h}
    ensures forall c | c != b :: EntryOf(u, c) == EntryOf(t, c)
  {}

  /** Without the events, every stored ticket goes to its caller, settled by the block before or not. */
  lemma FailureIsTold(t: Tracker, b: BlockHash, h: TxHash, u: Tracker, raised: bool)
    requires (u, raised) == FailMatch(t, b, h)
    ensures raised <==> Stored(t, h) && Refuses(t.txs[h].status, Unresolved)
    ensures Stored(t, h) && !raised ==> h in u.txs && Told(t.txs[h], u.txs[h], Unresolved)
    ensures !Stored(t, h) || raised ==> u.txs == t.txs
    ensures u.txs.Keys == t.txs.Keys && u.evicted == t.evicted
    ensures forall g | g in t.txs && g != h :: u.txs[g] == t.txs[g]
    ensures EntryOf(u, b).applied == EntryOf(t, b).applied + {h}
    ensures forall c | c != b :: EntryOf(u, c) == EntryOf(t, c)
  {}

  /** The loop with the events known tells its verdict to each match that is stored and unsettled, up to the first that
      refuses; from there on, as for everybody who is no match, nothing changes. It raises exactly when one refuses. */
  lemma {:induction false} EveryMatchIsTold(t: Tracker, b: BlockHash, ms: seq<TxHash>, verdict: TxHash -> Verdict,
                                            u: Tracker, raised: bool) returns (n: nat)
    requires Distinct(ms) && (u, raised) == ApplyAll(t, b, ms, verdict)
    ensures n <= |ms| && (raised <==> n < |ms|)
    ensures u.txs.Keys == t.txs.Keys && u.evicted == t.evicted
    ensures forall i | 0 <= i < n && Stored(t, ms[i]) && ms[i] !in EntryOf(t, b).applied ::
              Told(t.txs[ms[i]], u.txs[ms[i]], verdict(ms[i]))
    ensures n < |ms| ==> Stored(t, ms[n]) && ms[n] !in EntryOf(t, b).applied
                         && Refuses(t.txs[ms[n]].status, verdict(ms[n]))
    ensures forall g | g in t.txs && (g !in ms[..n] || g in EntryOf(t, b).applied || !Stored(t, g)) ::
              u.txs[g] == t.txs[g]
    ensures forall i | 0 <= i < n :: ms[i] in EntryOf(u, b).applied
    decreases |ms|
  {
    n := 0;
    if ms != [] {
      var (t1, stop) := ApplyMatch(t, b, ms[0], verdict(ms[0]));
      VerdictIsTold(t, b, ms[0], verdict(ms[0]), t1, stop);
      if !stop {
        var m := EveryMatchIsTold(t1, b, ms[1..], verdict, u, raised);
        n := m + 1;
        AppliedStays(t1, b, ms[1..], verdict);
        assert ms[..n] == [ms[0]] + ms[1..][..m];
        assert ms[0] !in ms[1..][..m];
      }
    }
  }

  lemma {:induction false} AppliedStays(t: Tracker, b: BlockHash, ms: seq<TxHash>, verdict: TxHash -> Verdict)
    ensures EntryOf(t, b).applied <= EntryOf(ApplyAll(t, b, ms, verdict).0, b).applied
    decreases |ms|
  {
    if ms != [] {
      var (t1, stop) := ApplyMatch(t, b, ms[0], verdict(ms[0]));
      VerdictIsTold(t, b, ms[0], verdict(ms[0]), t1, stop);
      if !stop { AppliedStays(t1, b, ms[1..], verdict); }
    }
  }

  /** The loop without events hands every stored match to its caller, up to the first that is already closed. */
  lemma {:induction false} EveryMatchIsHandedOver(t: Tracker, b: BlockHash, ms: seq<TxHash>, u: Tracker, raised: bool)
    returns (n: nat)
    requires Distinct(ms) && (u, raised) == FailAll(t, b, ms)
    ensures n <= |ms| && (raised <==> n < |ms|)
    ensures u.txs.Keys == t.txs.Keys && u.evicted == t.evicted
    ensures forall i | 0 <= i < n && Stored(t, ms[i]) :: Told(t.txs[ms[i]], u.txs[ms[i]], Unresolved)
    ensures n < |ms| ==> Stored(t, ms[n]) && Refuses(t.txs[ms[n]].status, Unresolved)
    ensures forall g | g in t.txs && (g !in ms[..n] || !Stored(t, g)) :: u.txs[g] == t.txs[g]
    decreases |ms|
  {
    n := 0;
    if ms != [] {
      var (t1, stop) := FailMatch(t, b, ms[0]);
      FailureIsTold(t, b, ms[0], t1, stop);
      if !stop {
        var m := EveryMatchIsHandedOver(t1, b, ms[1..], u, raised);
        n := m + 1;
        assert ms[..n] == [ms[0]] + ms[1..][..m];
        assert ms[0] !in ms[1..][..m];
      }
    }
  }

  /** The loop is a run of the engine: one event per turn. */
  lemma {:induction false} ApplyLoopIsARun(w: World, s: State, id: int, ms: seq<TxHash>, verdict: TxHash -> Verdict)
    returns (es: seq<Event>, d: State)
    requires w.concurrency >= 1 && id in s.resolves && s.resolves[id].pc == Applying(ms) && ms != []
    ensures Run(w, s, es) && d == After(w, s, es) && |es| <= |ms|
    ensures id in d.resolves && d.tracker == ApplyAll(s.tracker, s.resolves[id].block, ms, verdict).0
    ensures d.resolves[id].pc
         == if ApplyAll(s.tracker, s.resolves[id].block, ms, verdict).1 then Raised(false) else Returned
    decreases |ms|
  {
    var e := ApplyOne(id, verdict(ms[0]));
    var s1 := Do(w, s, e);
    var raised := ApplyMatch(s.tracker, s.resolves[id].block, ms[0], verdict(ms[0])).1;
    if raised || ms[1..] == [] {
      es, d := [e], s1;
      assert Run(w, s1, es[1..]);
    } else {
      var rest;
      rest, d := ApplyLoopIsARun(w, s1, id, ms[1..], verdict);
      es := [e] + rest;
      assert es[1..] == rest;
    }
  }

  lemma {:induction false} FailLoopIsARun(w: World, s: State, id: int, ms: seq<TxHash>)
    returns (es: seq<Event>, d: State)
    requires w.concurrency >= 1 && id in s.resolves && s.resolves[id].pc == Failing(ms) && ms != []
    ensures Run(w, s, es) && d == After(w, s, es) && |es| <= |ms|
    ensures id in d.resolves && d.tracker == FailAll(s.tracker, s.resolves[id].block, ms).0
    ensures d.resolves[id].pc == if FailAll(s.tracker, s.resolves[id].block, ms).1 then Raised(false) else Returned
    decreases |ms|
  {
    var s1 := Do(w, s, FailOne(id));
    var raised := FailMatch(s.tracker, s.resolves[id].block, ms[0]).1;
    if raised || ms[1..] == [] {
      es, d := [FailOne(id)], s1;
      assert Run(w, s1, es[1..]);
    } else {
      var rest;
      rest, d := FailLoopIsARun(w, s1, id, ms[1..]);
      es := [FailOne(id)] + rest;
      assert es[1..] == rest;
    }
  }

  /** Which blocks stay cached: with more than `max` of them, finished ones go, oldest first. */
  function Pruned(order: seq<BlockHash>, done: BlockHash -> bool, max: nat): seq<BlockHash>
    decreases |order|
  {
    if |order| <= max then order
    else
      match FirstDone(order, done)
      case None => order
      case Some(i) => Pruned(order[..i] + order[i + 1..], done, max)
  }

  function FirstDone(order: seq<BlockHash>, done: BlockHash -> bool): (r: Option<nat>)
    ensures r.Some? ==> r.value < |order| && done(order[r.value]) && forall j | 0 <= j < r.value :: !done(order[j])
    ensures r.None? ==> forall j | 0 <= j < |order| :: !done(order[j])
  {
    if order == [] then None
    else if done(order[0]) then Some(0)
    else
      match FirstDone(order[1..], done)
      case None => None
      case Some(i) => Some(i + 1)
  }

  /** The order without its first k finished blocks. */
  function WithoutDone(order: seq<BlockHash>, done: BlockHash -> bool, k: nat): seq<BlockHash>
    decreases |order|
  {
    if order == [] || k == 0 then order
    else if done(order[0]) then WithoutDone(order[1..], done, k - 1)
    else [order[0]] + WithoutDone(order[1..], done, k)
  }

  lemma {:induction false} DropFirstDone(order: seq<BlockHash>, done: BlockHash -> bool, k: nat)
    requires FirstDone(order, done).Some?
    ensures var i := FirstDone(order, done).value;
            WithoutDone(order, done, k + 1) == WithoutDone(order[..i] + order[i + 1..], done, k)
    decreases |order|
  {
    var i := FirstDone(order, done).value;
    var less := order[..i] + order[i + 1..];
    if i == 0 {
      assert less == order[1..];
    } else {
      DropFirstDone(order[1..], done, k);
      assert less[1..] == order[1..][..i - 1] + order[1..][i..];
      assert less == [order[0]] + less[1..];
      if k == 0 { assert WithoutDone(order[1..], done, 1) == less[1..]; }
    }
  }

  lemma {:induction false} NothingDone(order: seq<BlockHash>, done: BlockHash -> bool, k: nat)
    requires forall j | 0 <= j < |order| :: !done(order[j])
    ensures WithoutDone(order, done, k) == order
    decreases |order|
  {
    if order != [] { NothingDone(order[1..], done, k); }
  }

  /** Pruning removes exactly as many of the oldest finished blocks as are over the limit, or all of them if they are
      fewer; a block still being fetched is never removed. */
  lemma {:induction false} PruningIsExact(order: seq<BlockHash>, done: BlockHash -> bool, max: nat)
    ensures Pruned(order, done, max) == WithoutDone(order, done, if |order| > max then |order| - max else 0)
    decreases |order|
  {
    if |order| > max {
      match FirstDone(order, done)
      case None => NothingDone(order, done, |order| - max);
      case Some(i) =>
        var less := order[..i] + order[i + 1..];
        DropFirstDone(order, done, |order| - max - 1);
        PruningIsExact(less, done, max);
    }
  }

  // ---------- the tracker's tables ----------

  /** `order` lists the tickets as `pending_transactions` does; `blockOrder` is the key order of the block cache. */
  class TransactionTracker {
    var transactions: map<TxHash, Tx>
    var evicted: set<TxHash>
    var order: seq<TxHash>
    var blocks: map<BlockHash, Entry>
    var blockOrder: seq<BlockHash>

    function Contents(): Tracker
      reads this
    {
      Tracker(transactions, blocks, evicted)
    }

    predicate Valid()
      reads this
    {
      (forall h | h in transactions :: h in order) && Distinct(blockOrder)
    }

    constructor ()
      ensures Valid() && Contents() == Tracker(map[], map[], {}) && blockOrder == []
    {
      transactions, evicted, order, blocks, blockOrder := map[], {}, [], map[], [];
    }

    method PrepareRecoveryBlock(b: BlockHash)
      requires Valid()
      modifies `blocks
      ensures Contents() == Prepare(old(Contents()), b)
    {
      ghost var e := EntryOf(Contents(), b);
      var entry := if b in blocks then blocks[b] else NO_ENTRY;
      var candidates := entry.candidates;
      var i := 0;
      while i < |order|
        invariant i <= |order|
        invariant forall h :: h in candidates <==>
                    h in e.candidates || (h in order[..i] && h in transactions && Recoverable(transactions[h].status))
      {
        var h := order[i];
        assert order[..i + 1] == order[..i] + [h];
        if h in transactions && Recoverable(transactions[h].status) { candidates := candidates + {h}; }
        i := i + 1;
      }
      assert order[..|order|] == order;
      ghost var open := set h | h in transactions && Recoverable(transactions[h].status);
      forall h ensures h in candidates <==> h in e.candidates + open {}
      assert candidates == e.candidates + open;
      blocks := blocks[b := entry.(candidates := candidates)];
    }

    /** `resolve_block` once the index is there: `candidates` is the candidate set as a tuple. */
    method UseBlockIndex(b: BlockHash, candidates: seq<TxHash>, index: set<TxHash>) returns (matches: seq<TxHash>)
      requires Members(candidates) == EntryOf(Contents(), b).candidates
      modifies `blocks
      ensures Contents() == UseIndex(old(Contents()), b, index)
      ensures Members(matches) == Matches(EntryOf(old(Contents()), b), index)
    {
      var entry := if b in blocks then blocks[b] else NO_ENTRY;
      matches := [];
      var i := 0;
      while i < |candidates|
        invariant i <= |candidates|
        invariant forall h :: h in matches <==> h in candidates[..i] && h !in entry.applied && h in index
      {
        var h := candidates[i];
        assert candidates[..i + 1] == candidates[..i] + [h];
        if h !in entry.applied && h in index { matches := matches + [h]; }
        i := i + 1;
      }
      assert candidates[..|candidates|] == candidates;
      forall h ensures h in Members(matches) <==> h in Matches(entry, index) {
        assert h in candidates <==> h in Members(candidates);
      }
      assert Members(matches) == Matches(entry, index);
      var applied := entry.applied;
      i := 0;
      while i < |candidates|
        invariant i <= |candidates|
        invariant forall h :: h in applied <==> h in entry.applied || (h in candidates[..i] && h !in index)
      {
        var h := candidates[i];
        assert candidates[..i + 1] == candidates[..i] + [h];
        if h !in index { applied := applied + {h}; }
        i := i + 1;
      }
      assert candidates[..|candidates|] == candidates;
      forall h ensures h in applied <==> h in entry.applied + (entry.candidates - index) {
        assert h in candidates <==> h in Members(candidates);
      }
      assert applied == entry.applied + (entry.candidates - index);
      entry := entry.(applied := applied);
      if matches != [] {
        assert matches[0] in Members(matches);
        if entry.events == Unstarted {
          entry := entry.(events := Running, eventFetches := entry.eventFetches + 1);
        }
      }
      blocks := blocks[b := entry];
    }

    method AddApplied(b: BlockHash, h: TxHash)
      modifies `blocks
      ensures Contents() == TrackerModel.Settle(old(Contents()), b, h)
    {
      var entry := if b in blocks then blocks[b] else NO_ENTRY;
      blocks := blocks[b := entry.(applied := entry.applied + {h})];
    }

    /** A mark made for a block; the count of changes is history. */
    method Mark(b: BlockHash, h: TxHash, status: TxStatus) returns (raised: bool)
      requires h in transactions
      modifies `transactions, `blocks
      ensures (Contents(), raised) == MarkFromBlock(old(Contents()), b, h, status)
    {
      if !Legal(transactions[h].status, status) { return true; }
      transactions := transactions[h := transactions[h].(status := status)];
      var entry := if b in blocks then blocks[b] else NO_ENTRY;
      blocks := blocks[b := entry.(changes := entry.changes + multiset{h})];
      return false;
    }

    method ApplyMatches(b: BlockHash, matches: seq<TxHash>, verdict: TxHash -> Verdict) returns (raised: bool)
      modifies `transactions, `blocks
      ensures (Contents(), raised) == ApplyAll(old(Contents()), b, matches, verdict)
    {
      var i := 0;
      while i < |matches|
        invariant i <= |matches|
        invariant ApplyAll(old(Contents()), b, matches, verdict) == ApplyAll(Contents(), b, matches[i..], verdict)
      {
        var h := matches[i];
        ghost var t := Contents();
        i := i + 1;
        assert matches[i - 1..][1..] == matches[i..];
        var entry := if b in blocks then blocks[b] else NO_ENTRY;
        if h in entry.applied { continue; }
        AddApplied(b, h);
        if h in transactions && h !in evicted {
          raised := Mark(b, h, VerdictStatus(verdict(h)));
          assert (Contents(), raised) == ApplyMatch(t, b, h, verdict(h));
          if raised { return; }
        }
      }
      return false;
    }

    method FailMatches(b: BlockHash, matches: seq<TxHash>) returns (raised: bool)
      modifies `transactions, `blocks
      ensures (Contents(), raised) == FailAll(old(Contents()), b, matches)
    {
      var i := 0;
      while i < |matches|
        invariant i <= |matches|
        invariant FailAll(old(Contents()), b, matches) == FailAll(Contents(), b, matches[i..])
      {
        var h := matches[i];
        i := i + 1;
        assert matches[i - 1..][1..] == matches[i..];
        AddApplied(b, h);
        if h in transactions && h !in evicted {
          raised := Mark(b, h, ReconciliationRequired);
          if raised { return; }
        }
      }
      return false;
    }

    /** The first finished block of the cache, in key order. */
    method FindDone(done: BlockHash -> bool) returns (at: Option<nat>)
      ensures at == FirstDone(blockOrder, done)
    {
      var i := 0;
      while i < |blockOrder|
        invariant i <= |blockOrder| && forall j | 0 <= j < i :: !done(blockOrder[j])
      {
        if done(blockOrder[i]) { return Some(i); }
        i := i + 1;
      }
      return None;
    }

    /** The evicted blocks leave the cache and every other entry stays as it was. */
    method PruneResolvedBlocks(done: BlockHash -> bool, maxResolvedBlocks: nat)
      requires Valid()
      modifies `blocks, `blockOrder
      ensures Valid() && blockOrder == Pruned(old(blockOrder), done, maxResolvedBlocks)
      ensures forall b | b in old(blocks) :: b in blocks <==> b in blockOrder || b !in old(blockOrder)
      ensures forall b | b in blocks :: b in old(blocks) && blocks[b] == old(blocks)[b]
      ensures forall b | b in old(blockOrder) && !done(b) :: b in blockOrder
    {
      while |blockOrder| > maxResolvedBlocks
        invariant Valid()
        invariant Pruned(blockOrder, done, maxResolvedBlocks) == Pruned(old(blockOrder), done, maxResolvedBlocks)
        invariant forall b | b in blockOrder :: b in old(blockOrder)
        invariant forall b | b in old(blocks) :: b in blocks <==> b in blockOrder || b !in old(blockOrder)
        invariant forall b | b in blocks :: b in old(blocks) && blocks[b] == old(blocks)[b]
        invariant forall b | b in old(blockOrder) && !done(b) :: b in blockOrder
        decreases |blockOrder|
      {
        var at := FindDone(done);
        if at.None? { return; }
        var expired := blockOrder[at.value];
        RemovedOne(blockOrder, at.value);
        blocks := blocks - {expired};
        blockOrder := blockOrder[..at.value] + blockOrder[at.value + 1..];
      }
    }
  }

  lemma RemovedOne(order: seq<BlockHash>, at: nat)
    requires Distinct(order) && at < |order|
    ensures Distinct(order[..at] + order[at + 1..])
    ensures forall b :: b in order[..at] + order[at + 1..] <==> b in order && b != order[at]
  {
    var less := order[..at] + order[at + 1..];
    forall b | b in order && b != order[at] ensures b in less {
      var i :| 0 <= i < |order| && order[i] == b;
      assert less[if i < at then i else i - 1] == b;
    }
  }
}
