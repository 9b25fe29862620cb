/** Concurrent resolutions of one block: for as long as the block stays cached its index and its events are fetched
    at most once, and each transaction's ticket is changed on its behalf at most once. */
module Once {
  import opened Shared
  import opened TxLifecycle
  import opened TrackerModel
  import opened Engine
  import opened Soundness
  import opened Acceptance

  ghost predicate EntryOnce(t: Tracker, e: Entry) {
    && e.indexFetches == Bit(e.index != Unstarted)
    && e.eventFetches == Bit(e.events != Unstarted)
    && (forall h :: e.changes[h] <= 1)
    && (forall h | e.changes[h] > 0 :: h in e.applied && e.events in {Ready, Broken})
    && (e.events == Broken ==> forall h | e.changes[h] > 0 :: h in t.txs && Terminal(t.txs[h].status))
  }

  /** Which event outcome a resolution past its second await has seen. */
  predicate PcMatches(e: Entry, pc: Pc) {
    && (pc.Applying? ==> e.events == Ready)
    && (pc.Failing? ==> e.events == Broken)
    && (pc.AwaitEvents? ==> e.events != Unstarted)
  }

  ghost predicate OnceInv(s: State) {
    && (forall b | b in s.tracker.blocks :: EntryOnce(s.tracker, s.tracker.blocks[b]))
    && (forall id | id in s.resolves :: PcMatches(EntryOf(s.tracker, s.resolves[id].block), s.resolves[id].pc))
  }

  /** Steps that leave the block entries alone and reopen no ticket. */
  lemma EntriesUntouched(s: State, d: State)
    requires OnceInv(s) && d.tracker.blocks == s.tracker.blocks && d.resolves == s.resolves
    requires forall h :: KeepsClosed(s, d, h)
    ensures OnceInv(d)
  {
    forall b | b in d.tracker.blocks ensures EntryOnce(d.tracker, d.tracker.blocks[b]) {
      assert EntryOnce(s.tracker, s.tracker.blocks[b]);
      forall h | d.tracker.blocks[b].events == Broken && d.tracker.blocks[b].changes[h] > 0
        ensures h in d.tracker.txs && Terminal(d.tracker.txs[h].status)
      {
        assert KeepsClosed(s, d, h);
      }
    }
  }

  /** Steps that rewrite one entry and at most add or move one resolution. */
  lemma OneEntry(s: State, d: State, b: BlockHash, e: Entry)
    requires OnceInv(s) && d.tracker == PutEntry(s.tracker, b, e) && EntryOnce(s.tracker, e)
    requires forall id | id in d.resolves :: PcMatches(EntryOf(d.tracker, d.resolves[id].block), d.resolves[id].pc)
    ensures OnceInv(d)
  {
    forall c | c in d.tracker.blocks ensures EntryOnce(d.tracker, d.tracker.blocks[c]) {
      if c != b { assert EntryOnce(s.tracker, s.tracker.blocks[c]); }
    }
  }

  lemma NoEntryOnce(t: Tracker, b: BlockHash)
    requires b in t.blocks ==> EntryOnce(t, t.blocks[b])
    ensures EntryOnce(t, EntryOf(t, b))
  {}

  lemma FollowOnce(s: State, b: BlockHash, id: int, d: State)
    requires OnceInv(s) && id !in s.resolves && d == Follow(s, b, id)
    ensures OnceInv(d)
  {
    NoEntryOnce(s.tracker, b);
    var e := EntryOf(d.tracker, b);
    assert d.tracker.blocks == s.tracker.blocks[b := e];
    OneEntry(s, d, b, e);
  }

  lemma BeginOnce(w: World, s: State, id: int, d: State)
    requires w.concurrency >= 1 && OnceInv(s) && CanDo(w, s, Begin(id)) && d == DoResolve(w, s, Begin(id))
    ensures OnceInv(d)
  {
    var b := s.resolves[id].block;
    NoEntryOnce(s.tracker, b);
    if d.tracker != s.tracker { OneEntry(s, d, b, d.tracker.blocks[b]); }
  }

  lemma FetchedOnce(w: World, s: State, e: Event, d: State)
    requires e.IndexDone? || e.EventsDone?
    requires w.concurrency >= 1 && OnceInv(s) && CanDo(w, s, e) && d == DoResolve(w, s, e)
    ensures OnceInv(d)
  {
    NoEntryOnce(s.tracker, e.block);
    OneEntry(s, d, e.block, d.tracker.blocks[e.block]);
  }

  lemma MovedOnce(w: World, s: State, e: Event, d: State)
    requires e.Cancel? || e.ResumeEvents?
    requires w.concurrency >= 1 && OnceInv(s) && CanDo(w, s, e) && d == DoResolve(w, s, e)
    ensures OnceInv(d)
  {
    assert d.tracker == s.tracker;
  }

  lemma PrunedOnce(w: World, s: State, b: BlockHash, d: State)
    requires w.concurrency >= 1 && OnceInv(s) && CanDo(w, s, Prune(b)) && Honest(w, s, Prune(b))
    requires d == DoResolve(w, s, Prune(b))
    ensures OnceInv(d)
  {}

  lemma ResumedOnce(w: World, s: State, id: int, matches: seq<TxHash>, d: State)
    requires w.concurrency >= 1 && OnceInv(s) && CanDo(w, s, ResumeIndex(id, matches))
    requires d == DoResolve(w, s, ResumeIndex(id, matches))
    ensures OnceInv(d)
  {
    var b := s.resolves[id].block;
    NoEntryOnce(s.tracker, b);
    if EntryOf(s.tracker, b).index != Broken {
      var e := EntryOf(d.tracker, b);
      if matches != [] { assert matches[0] in Members(matches); }
      OneEntry(s, d, b, e);
    }
  }

  lemma SettledOnce(t: Tracker, e: Entry, h: TxHash)
    requires EntryOnce(t, e)
    ensures EntryOnce(t, e.(applied := e.applied + {h}))
  {}

  lemma CountedOnce(t: Tracker, u: Tracker, e: Entry, h: TxHash)
    requires EntryOnce(t, e) && h in e.applied && e.changes[h] == 0 && e.events in {Ready, Broken}
    requires u.txs.Keys == t.txs.Keys && h in t.txs && forall g | g in t.txs && g != h :: u.txs[g] == t.txs[g]
    requires e.events == Broken ==> Terminal(u.txs[h].status)
    ensures EntryOnce(u, e.(changes := e.changes + multiset{h}))
  {
    var f := e.(changes := e.changes + multiset{h});
    forall g ensures f.changes[g] == if g == h then 1 else e.changes[g] {}
  }

  lemma MarkCountsOnce(t: Tracker, b: BlockHash, h: TxHash, s: TxStatus)
    requires b in t.blocks && EntryOnce(t, t.blocks[b]) && h in t.blocks[b].applied && h in t.txs
    requires t.blocks[b].events in {Ready, Broken}
    requires t.blocks[b].events == Broken ==> Terminal(s)
    requires Legal(t.txs[h].status, s) ==> t.blocks[b].changes[h] == 0
    ensures var u := MarkFromBlock(t, b, h, s).0;
      && u.blocks == t.blocks[b := EntryOf(u, b)]
      && EntryOnce(u, EntryOf(u, b))
      && EntryOf(u, b).events == t.blocks[b].events
  {
    var u := MarkFromBlock(t, b, h, s).0;
    if Legal(t.txs[h].status, s) {
      CountedOnce(t, u, t.blocks[b], h);
      assert EntryOf(u, b) == t.blocks[b].(changes := t.blocks[b].changes + multiset{h});
    } else {
      assert t.blocks == t.blocks[b := t.blocks[b]];
    }
  }

  /** What a turn of either loop owes to the entry of its block. */
  ghost predicate Counted(t: Tracker, u: Tracker, b: BlockHash)
    requires b in t.blocks
  {
    && u.blocks == t.blocks[b := EntryOf(u, b)]
    && EntryOnce(u, EntryOf(u, b))
    && EntryOf(u, b).events == t.blocks[b].events
  }

  lemma MarkAfterSettle(t: Tracker, b: BlockHash, h: TxHash, s: TxStatus, u: Tracker)
    requires b in t.blocks && EntryOnce(t, t.blocks[b]) && h in t.txs && t.blocks[b].events in {Ready, Broken}
    requires t.blocks[b].events == Broken ==> Terminal(s)
    requires Legal(t.txs[h].status, s) ==> t.blocks[b].changes[h] == 0
    requires u == MarkFromBlock(Settle(t, b, h), b, h, s).0
    ensures Counted(t, u, b)
  {
    var m := Settle(t, b, h);
    SettledOnce(t, t.blocks[b], h);
    assert m.blocks[b] == t.blocks[b].(applied := t.blocks[b].applied + {h});
    MarkCountsOnce(m, b, h, s);
    assert m.blocks[b := EntryOf(u, b)] == t.blocks[b := EntryOf(u, b)];
  }

  /** With the events known, `applied` prevents a second turn. */
  lemma ApplyCountsOnce(t: Tracker, b: BlockHash, h: TxHash, v: Verdict, u: Tracker)
    requires b in t.blocks && EntryOnce(t, t.blocks[b]) && t.blocks[b].events == Ready
    requires u == ApplyMatch(t, b, h, v).0
    ensures Counted(t, u, b)
  {
    if h !in t.blocks[b].applied && Stored(t, h) {
      MarkAfterSettle(t, b, h, VerdictStatus(v), u);
    } else {
      SettledOnce(t, t.blocks[b], h);
      assert t.blocks == t.blocks[b := t.blocks[b]];
    }
  }

  /** With the events missing, a ticket that was counted is already closed. */
  lemma FailCountsOnce(t: Tracker, b: BlockHash, h: TxHash, u: Tracker)
    requires b in t.blocks && EntryOnce(t, t.blocks[b]) && t.blocks[b].events == Broken
    requires u == FailMatch(t, b, h).0
    ensures Counted(t, u, b)
  {
    if Stored(t, h) {
      MarkAfterSettle(t, b, h, ReconciliationRequired, u);
    } else {
      SettledOnce(t, t.blocks[b], h);
    }
  }

  lemma MatchOnce(w: World, s: State, e: Event, d: State)
    requires w.concurrency >= 1 && OnceInv(s) && CanDo(w, s, e) && d == Do(w, s, e) && (e.ApplyOne? || e.FailOne?)
    ensures OnceInv(d)
  {
    if Matched(s, e).None? {
      assert d.tracker == s.tracker;
    } else {
      MatchShape(w, s, e, d);
      AfterMatch(s, e.id, Matched(s, e).value, if e.ApplyOne? then e.verdict else Executed, e.FailOne?, d);
    }
  }

  lemma AfterMatch(s: State, id: int, h: TxHash, v: Verdict, failing: bool, d: State)
    requires OnceInv(s) && id in s.resolves
    requires if failing then s.resolves[id].pc.Failing? else s.resolves[id].pc.Applying?
    requires d.tracker == if failing then FailMatch(s.tracker, s.resolves[id].block, h).0
                          else ApplyMatch(s.tracker, s.resolves[id].block, h, v).0
    requires id in d.resolves && d.resolves == s.resolves[id := Resolve(s.resolves[id].block, d.resolves[id].pc)]
    requires d.resolves[id].pc.Returned? || d.resolves[id].pc.Raised?
          || (d.resolves[id].pc.Failing? && failing) || (d.resolves[id].pc.Applying? && !failing)
    requires OneChange(s.tracker, d.tracker, s.resolves[id].block, h)
    ensures OnceInv(d)
  {
    var b := s.resolves[id].block;
    assert PcMatches(EntryOf(s.tracker, b), s.resolves[id].pc);
    if failing { FailCountsOnce(s.tracker, b, h, d.tracker); } else { ApplyCountsOnce(s.tracker, b, h, v, d.tracker); }
    forall c | c in d.tracker.blocks ensures EntryOnce(d.tracker, d.tracker.blocks[c]) {
      if c != b { OtherEntry(s.tracker, d.tracker, b, c, h); }
    }
  }

  lemma OtherEntry(t: Tracker, u: Tracker, b: BlockHash, c: BlockHash, h: TxHash)
    requires OneChange(t, u, b, h) && c in t.blocks && EntryOnce(t, t.blocks[c])
    ensures EntryOnce(u, t.blocks[c])
  {}

  // ---------- whole runs ----------

  lemma ScanOnce(w: World, s: State, e: Event, d: State)
    requires w.concurrency >= 1 && OnceInv(s) && CanDo(w, s, e) && IsScanEvent(e) && d == DoScan(w, s, e)
    ensures OnceInv(d)
  {
    if e.KidHash? {
      var m := Follow(s, s.chain[s.scan.lo + e.k], e.id);
      FollowOnce(s, s.chain[s.scan.lo + e.k], e.id, m);
      assert forall h :: KeepsClosed(m, d, h);
      EntriesUntouched(m, d);
    } else {
      forall h ensures KeepsClosed(s, d, h) { ScanKeepsClosed(w, s, e, d, h); }
      SameBlocks(w, s, e, d);
      EntriesUntouched(s, d);
    }
  }

  lemma SameBlocks(w: World, s: State, e: Event, d: State)
    requires w.concurrency >= 1 && CanDo(w, s, e) && IsScanEvent(e) && !e.KidHash? && d == DoScan(w, s, e)
    ensures d.tracker.blocks == s.tracker.blocks && d.resolves == s.resolves
  {}

  lemma ResolveOnce(w: World, s: State, e: Event, d: State)
    requires w.concurrency >= 1 && OnceInv(s) && CanDo(w, s, e) && Honest(w, s, e) && IsResolveEvent(e)
    requires d == DoResolve(w, s, e)
    ensures OnceInv(d)
  {
    match e
    case Begin(id) => BeginOnce(w, s, id, d);
    case Explore(b, id) => FollowOnce(s, b, id, d);
    case IndexDone(_, _) => FetchedOnce(w, s, e, d);
    case EventsDone(_, _) => FetchedOnce(w, s, e, d);
    case ResumeIndex(id, ms) => ResumedOnce(w, s, id, ms, d);
    case Prune(b) => PrunedOnce(w, s, b, d);
    case ApplyOne(_, _) => MatchOnce(w, s, e, d);
    case FailOne(_) => MatchOnce(w, s, e, d);
    case _ => MovedOnce(w, s, e, d);
  }

  lemma InBlockOnce(w: World, s: State, h: TxHash, b: BlockHash, endpoint: Endpoint, id: int, d: State)
    requires w.concurrency >= 1 && OnceInv(s) && CanDo(w, s, NodeInBlock(h, b, endpoint, id))
    requires d == Do(w, s, NodeInBlock(h, b, endpoint, id))
    ensures OnceInv(d)
  {
    var m := s.(tracker := PutTx(s.tracker, h, InBlock0(s.tracker.txs[h], endpoint)));
    EntriesUntouched(s, m);
    NoEntryOnce(m.tracker, b);
    OneEntry(m, d, b, d.tracker.blocks[b]);
  }

  lemma StepOnce(w: World, s: State, e: Event, d: State)
    requires w.concurrency >= 1 && OnceInv(s) && CanDo(w, s, e) && Honest(w, s, e) && d == Do(w, s, e)
    ensures OnceInv(d)
  {
    if IsResolveEvent(e) {
      ResolveOnce(w, s, e, d);
    } else if IsScanEvent(e) {
      ScanOnce(w, s, e, d);
    } else if e.NodeInBlock? {
      InBlockOnce(w, s, e.h, e.block, e.endpoint, e.id, d);
    } else {
      OtherStepsOnce(w, s, e, d);
    }
  }

  lemma OtherStepsOnce(w: World, s: State, e: Event, d: State)
    requires w.concurrency >= 1 && OnceInv(s) && CanDo(w, s, e) && d == Do(w, s, e)
    requires !IsResolveEvent(e) && !IsScanEvent(e) && !e.NodeInBlock?
    ensures OnceInv(d)
  {
    EntriesUntouched(s, d);
  }

  lemma {:induction false} RunOnce(w: World, s: State, es: seq<Event>)
    requires w.concurrency >= 1 && OnceInv(s) && Run(w, s, es)
    ensures OnceInv(After(w, s, es))
    decreases |es|
  {
    if es != [] {
      StepOnce(w, s, es[0], Do(w, s, es[0]));
      RunOnce(w, Do(w, s, es[0]), es[1..]);
    }
  }

  /** After any run, for any block still cached and any transaction. */
  lemma OncePerBlock(w: World, init: State, es: seq<Event>, b: BlockHash, h: TxHash)
    requires w.concurrency >= 1 && Initial(init) && Run(w, init, es)
    ensures var e := EntryOf(After(w, init, es).tracker, b);
            e.changes[h] <= 1 && e.indexFetches <= 1 && e.eventFetches <= 1
  {
    RunOnce(w, init, es);
    var t := After(w, init, es).tracker;
    if b in t.blocks { assert EntryOnce(t, t.blocks[b]); }
  }

  /** What the history counts are the real status changes. */
  lemma ChangesAreStatusChanges(t: Tracker, b: BlockHash, h: TxHash, v: Verdict, failing: bool)
    requires h in t.txs
    ensures var u := if failing then FailMatch(t, b, h).0 else ApplyMatch(t, b, h, v).0;
            h in u.txs && (u.txs[h].status != t.txs[h].status
                           <==> EntryOf(u, b).changes[h] == EntryOf(t, b).changes[h] + 1)
  {}
}
