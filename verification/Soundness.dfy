/** The main theorem of the engine: exactly when, in any run, a NOT_INCLUDED verdict is right. */
module Soundness {
  import opened Options
  import opened Shared
  import opened TxLifecycle
  import opened TrackerModel
  import opened Engine

  predicate IsOpen(s: State, h: TxHash) {
    h in s.tracker.txs && !Terminal(s.tracker.txs[h].status)
  }

  /** The ticket is open, and block b has neither been matched with it nor taken up while it was executed. */
  predicate Pending(s: State, b: BlockHash, h: TxHash) {
    IsOpen(s, h) && Hit(b, h) !in s.seen && Hit(b, h) !in s.skipped
  }

  ghost predicate StatusesOk(s: State) {
    forall h | IsOpen(s, h) :: Recoverable(s.tracker.txs[h].status) || s.tracker.txs[h].status == InBlockSuccess
  }

  /** A transaction is settled in a block that contains it only by having been matched there. */
  ghost predicate AppliedOk(w: World, s: State) {
    forall b, h | b in s.tracker.blocks && h in s.tracker.blocks[b].applied && h in w.body(b) :: Hit(b, h) in s.seen
  }

  /** Nothing is matched with, or passed over in, a block that does not contain it. */
  ghost predicate HitsOk(w: World, s: State) {
    forall b, h | Hit(b, h) in s.seen || Hit(b, h) in s.skipped :: h in w.body(b)
  }

  function Todo(pc: Pc): seq<TxHash> {
    match pc
    case AwaitEvents(ms) => ms
    case Applying(rest) => rest
    case Failing(rest) => rest
    case _ => []
  }

  ghost predicate TodoOk(w: World, s: State) {
    forall id, h | id in s.resolves && h in Todo(s.resolves[id].pc) :: h in w.body(s.resolves[id].block)
  }

  /** Whatever has to happen to h in block b is still ahead of this resolution. */
  predicate Ahead(s: State, b: BlockHash, pc: Pc, h: TxHash) {
    match pc
    case Queued => h in EntryOf(s.tracker, b).candidates
    case AwaitIndex => h in EntryOf(s.tracker, b).candidates
    case Returned => false
    case Raised(_) => true
    case _ => h in Todo(pc)
  }

  ghost predicate KidOk(w: World, s: State, height: int, k: Kid)
    requires 0 <= height < |s.chain|
  {
    k.Following? ==>
      && k.id in s.resolves
      && s.resolves[k.id].block == s.chain[height]
      && forall h | Pending(s, s.chain[height], h) && h in w.body(s.chain[height]) ::
           Ahead(s, s.chain[height], s.resolves[k.id].pc, h)
  }

  ghost predicate CursorOk(w: World, s: State) {
    if s.cursor.None? then s.tracker.txs.Keys == {}
    else
      && 0 <= s.cursor.value < |s.chain|
      && forall n, h | 0 <= n <= s.cursor.value && Pending(s, s.chain[n], h) :: h !in w.body(s.chain[n])
  }

  ghost predicate ScanOk(w: World, s: State) {
    match s.scan
    case Idle => true
    case Batch(first, last, lo, kids) =>
      && 0 < lo && last < |s.chain| && lo + |kids| - 1 <= last
      && s.cursor == Some(lo - 1)
      && forall i | 0 <= i < |kids| :: KidOk(w, s, lo + i, kids[i])
    case _ => s.cursor == Some(s.scan.last)
  }

  ghost predicate Inv(w: World, s: State) {
    StatusesOk(s) && AppliedOk(w, s) && HitsOk(w, s) && TodoOk(w, s) && CursorOk(w, s) && ScanOk(w, s)
  }

  /** What one step owes to the resolutions a scan is waiting for. */
  ghost predicate StaysAhead(w: World, s: State, d: State, id: int)
    requires id in s.resolves
  {
    && id in d.resolves && d.resolves[id].block == s.resolves[id].block
    && var b := s.resolves[id].block;
       forall h | Pending(d, b, h) && h in w.body(b) && Ahead(s, b, s.resolves[id].pc, h) ::
         Ahead(d, b, d.resolves[id].pc, h)
  }

  /** A step that leaves cursor and scan alone and opens no ticket that an old block contains. */
  ghost predicate Quiet(w: World, s: State, d: State) {
    && s.chain <= d.chain && d.cursor == s.cursor && d.scan == s.scan
    && (s.cursor.None? ==> d.tracker.txs.Keys == s.tracker.txs.Keys)
    && (forall n, h | 0 <= n < |s.chain| && Pending(d, s.chain[n], h) && !Pending(s, s.chain[n], h) ::
          h !in w.body(s.chain[n]))
    && forall id | id in s.resolves :: StaysAhead(w, s, d, id)
  }

  lemma QuietKeepsKid(w: World, s: State, d: State, height: int, k: Kid)
    requires Quiet(w, s, d) && 0 <= height < |s.chain| && KidOk(w, s, height, k)
    ensures KidOk(w, d, height, k)
  {
    if k.Following? { assert StaysAhead(w, s, d, k.id); }
  }

  lemma QuietKeepsScan(w: World, s: State, d: State)
    requires Quiet(w, s, d) && CursorOk(w, s) && ScanOk(w, s)
    ensures CursorOk(w, d) && ScanOk(w, d)
  {
    if s.scan.Batch? {
      forall i | 0 <= i < |s.scan.kids| ensures KidOk(w, d, s.scan.lo + i, s.scan.kids[i]) {
        QuietKeepsKid(w, s, d, s.scan.lo + i, s.scan.kids[i]);
      }
    }
    forall n, h | d.cursor.Some? && 0 <= n <= d.cursor.value && Pending(d, d.chain[n], h)
      ensures h !in w.body(d.chain[n])
    {
      assert d.chain[n] == s.chain[n];
    }
  }

  lemma WorldKeeps(w: World, s: State, e: Event, d: State)
    requires w.concurrency >= 1 && Inv(w, s) && CanDo(w, s, e) && Honest(w, s, e) && d == Do(w, s, e)
    requires e.Finalize? || e.Tick? || e.Submit? || e.Evict?
    ensures Inv(w, d)
  {
    QuietKeepsScan(w, s, d);
  }

  /** Steps that rewrite ticket records without opening a ticket or moving one to an unlisted open status. */
  lemma TxsKeep(w: World, s: State, t: Tracker, d: State)
    requires Inv(w, s) && d == s.(tracker := t) && t.blocks == s.tracker.blocks
    requires t.txs.Keys == s.tracker.txs.Keys
    requires forall h | h in t.txs :: t.txs[h].status == s.tracker.txs[h].status
               || Terminal(t.txs[h].status)
               || (Recoverable(t.txs[h].status) && !Terminal(s.tracker.txs[h].status))
    ensures Inv(w, d)
  {
    forall id | id in s.resolves ensures StaysAhead(w, s, d, id) {}
    QuietKeepsScan(w, s, d);
  }

  lemma ReadyKeeps(w: World, s: State, h: TxHash, endpoint: Endpoint, d: State)
    requires w.concurrency >= 1 && Inv(w, s) && CanDo(w, s, NodeReady(h, endpoint))
    requires d == Do(w, s, NodeReady(h, endpoint))
    ensures Inv(w, d)
  {
    TxsKeep(w, s, d.tracker, d);
  }

  lemma MarkKeeps(w: World, s: State, h: TxHash, status: TxStatus, d: State)
    requires w.concurrency >= 1 && Inv(w, s) && CanDo(w, s, Mark(h, status)) && d == Do(w, s, Mark(h, status))
    ensures Inv(w, d)
  {
    TxsKeep(w, s, d.tracker, d);
  }

  lemma CandidateKeeps(w: World, s: State, h: TxHash, b: BlockHash, id: int, d: State)
    requires Inv(w, s) && id !in s.resolves
    requires d == s.(tracker := AddCandidate(s.tracker, b, h), resolves := s.resolves[id := Resolve(b, Queued)])
    ensures Inv(w, d)
  {
    forall i | i in s.resolves ensures StaysAhead(w, s, d, i) {}
    QuietKeepsScan(w, s, d);
  }

  lemma InBlockKeeps(w: World, s: State, h: TxHash, b: BlockHash, endpoint: Endpoint, id: int, d: State)
    requires w.concurrency >= 1 && Inv(w, s) && CanDo(w, s, NodeInBlock(h, b, endpoint, id))
    requires d == Do(w, s, NodeInBlock(h, b, endpoint, id))
    ensures Inv(w, d)
  {
    var m := s.(tracker := PutTx(s.tracker, h, InBlock0(s.tracker.txs[h], endpoint)));
    TxsKeep(w, s, m.tracker, m);
    CandidateKeeps(w, m, h, b, id, d);
  }

  /** Steps that write only the task columns of one block entry. */
  lemma TasksKeep(w: World, s: State, b: BlockHash, e: Entry, d: State)
    requires Inv(w, s) && d == s.(tracker := PutEntry(s.tracker, b, e))
    requires e.candidates == EntryOf(s.tracker, b).candidates && e.applied == EntryOf(s.tracker, b).applied
    ensures Inv(w, d)
  {
    forall id | id in s.resolves ensures StaysAhead(w, s, d, id) {}
    QuietKeepsScan(w, s, d);
  }

  /** Moving one resolution to a place from which everything that was ahead of it still is. */
  lemma PcKeeps(w: World, s: State, id: int, pc: Pc, d: State)
    requires Inv(w, s) && id in s.resolves && d == SetPc(s, id, pc)
    requires forall h | h in Todo(pc) :: h in w.body(s.resolves[id].block)
    requires forall h | Pending(s, s.resolves[id].block, h) && h in w.body(s.resolves[id].block)
                        && Ahead(s, s.resolves[id].block, s.resolves[id].pc, h) :: Ahead(s, s.resolves[id].block, pc, h)
    ensures Inv(w, d)
  {
    forall i | i in s.resolves ensures StaysAhead(w, s, d, i) {}
    QuietKeepsScan(w, s, d);
  }

  lemma BeginKeeps(w: World, s: State, id: int, d: State)
    requires w.concurrency >= 1 && Inv(w, s) && CanDo(w, s, Begin(id)) && d == Do(w, s, Begin(id))
    ensures Inv(w, d)
  {
    var b := s.resolves[id].block;
    var t := StartIndex(s.tracker, b);
    var m := s.(tracker := t);
    if t != s.tracker { TasksKeep(w, s, b, t.blocks[b], m); }
    PcKeeps(w, m, id, AwaitIndex, d);
  }

  /** `Prepare` makes every open unseen ticket a candidate, so a resolution that starts now has them all ahead. */
  lemma FollowKeeps(w: World, s: State, b: BlockHash, id: int, d: State)
    requires Inv(w, s) && id !in s.resolves && d == Follow(s, b, id)
    ensures Inv(w, d)
    ensures forall h | IsOpen(s, h) && h !in ExecutedNow(s) :: Ahead(d, b, d.resolves[id].pc, h)
  {
    assert EntryOf(d.tracker, b).candidates
        == EntryOf(s.tracker, b).candidates + set h | h in s.tracker.txs && Recoverable(s.tracker.txs[h].status);
    forall i | i in s.resolves ensures StaysAhead(w, s, d, i) {}
    QuietKeepsScan(w, s, d);
  }

  lemma ResumeEventsKeeps(w: World, s: State, id: int, d: State)
    requires w.concurrency >= 1 && Inv(w, s) && CanDo(w, s, ResumeEvents(id)) && d == Do(w, s, ResumeEvents(id))
    ensures Inv(w, d)
  {
    PcKeeps(w, s, id, d.resolves[id].pc, d);
  }

  lemma PruneKeeps(w: World, s: State, b: BlockHash, d: State)
    requires w.concurrency >= 1 && Inv(w, s) && CanDo(w, s, Prune(b)) && Honest(w, s, Prune(b))
    requires d == Do(w, s, Prune(b))
    ensures Inv(w, d)
  {
    forall i | i in s.resolves ensures StaysAhead(w, s, d, i) {}
    QuietKeepsScan(w, s, d);
  }

  lemma ResumeIndexKeeps(w: World, s: State, id: int, matches: seq<TxHash>, d: State)
    requires w.concurrency >= 1 && Inv(w, s) && CanDo(w, s, ResumeIndex(id, matches))
    requires d == Do(w, s, ResumeIndex(id, matches))
    ensures Inv(w, d)
  {
    var b := s.resolves[id].block;
    if EntryOf(s.tracker, b).index == Broken {
      PcKeeps(w, s, id, Raised(false), d);
    } else {
      forall h | Pending(s, b, h) && h in w.body(b) && h in EntryOf(s.tracker, b).candidates ensures h in matches {
        assert h !in EntryOf(s.tracker, b).applied;
        assert h in Members(matches);
      }
      assert forall h | h in matches :: h in Members(matches);
      var m := SetPc(s, id, if matches == [] then Returned else AwaitEvents(matches));
      PcKeeps(w, s, id, if matches == [] then Returned else AwaitEvents(matches), m);
      SettledOutside(w, m, b, d);
    }
  }

  /** Settling candidates that are not in the block. */
  lemma SettledOutside(w: World, s: State, b: BlockHash, d: State)
    requires Inv(w, s) && d == s.(tracker := UseIndex(s.tracker, b, w.body(b)))
    ensures Inv(w, d)
  {
    forall i | i in s.resolves ensures StaysAhead(w, s, d, i) {}
    QuietKeepsScan(w, s, d);
  }

  /** Matching h in b: from here on h has been seen. */
  lemma MatchKeeps(w: World, s: State, id: int, t: Tracker, h: TxHash, pc: Pc, d: State)
    requires Inv(w, s) && id in s.resolves
    requires Todo(s.resolves[id].pc) != [] && h == Todo(s.resolves[id].pc)[0]
    requires Todo(pc) == Todo(s.resolves[id].pc)[1..] || Todo(pc) == []
    requires pc.Returned? ==> Todo(s.resolves[id].pc)[1..] == []
    requires pc.Applying? || pc.Failing? || pc.Returned? || pc.Raised?
    requires Todo(pc) == [] ==> pc.Returned? || pc.Raised?
    requires OneChange(s.tracker, t, s.resolves[id].block, h)
    requires d == SetPc(s.(tracker := t, seen := s.seen + {Hit(s.resolves[id].block, h)}), id, pc)
    ensures Inv(w, d)
  {
    forall i | i in s.resolves ensures StaysAhead(w, s, d, i) {
      if i == id { assert forall g | g in Todo(s.resolves[id].pc) && g != h :: g in Todo(s.resolves[id].pc)[1..]; }
    }
    QuietKeepsScan(w, s, d);
  }

  /** At most h's status changes, by a legal step into a block status, and at most h becomes settled in b. */
  ghost predicate OneChange(t: Tracker, u: Tracker, b: BlockHash, h: TxHash) {
    && u.txs.Keys == t.txs.Keys
    && (forall g | g in t.txs && g != h :: u.txs[g] == t.txs[g])
    && (h in t.txs && u.txs[h] != t.txs[h] ==>
          && u.txs[h] == t.txs[h].(status := u.txs[h].status) && Legal(t.txs[h].status, u.txs[h].status)
          && (u.txs[h].status == InBlockSuccess || Terminal(u.txs[h].status)))
    && (u == t.(txs := u.txs) || u == PutEntry(t, b, EntryOf(u, b)).(txs := u.txs))
    && EntryOf(u, b).candidates == EntryOf(t, b).candidates
    && EntryOf(u, b).applied <= EntryOf(t, b).applied + {h}
  }

  lemma MarkChangesOne(t: Tracker, b: BlockHash, h: TxHash, s: TxStatus)
    requires h in t.txs && (s == InBlockSuccess || Terminal(s))
    ensures OneChange(t, MarkFromBlock(Settle(t, b, h), b, h, s).0, b, h)
  {
    var m := Settle(t, b, h);
    var u := MarkFromBlock(m, b, h, s).0;
    assert u.blocks == t.blocks[b := EntryOf(u, b)];
    assert u.txs.Keys == t.txs.Keys;
  }

  lemma SettleChangesNone(t: Tracker, b: BlockHash, h: TxHash)
    ensures OneChange(t, Settle(t, b, h), b, h) && OneChange(t, t, b, h)
  {}

  lemma ApplyChangesOne(t: Tracker, b: BlockHash, h: TxHash, v: Verdict)
    ensures OneChange(t, ApplyMatch(t, b, h, v).0, b, h)
  {
    if Stored(t, h) && h !in EntryOf(t, b).applied {
      MarkChangesOne(t, b, h, VerdictStatus(v));
    } else {
      SettleChangesNone(t, b, h);
    }
  }

  lemma FailChangesOne(t: Tracker, b: BlockHash, h: TxHash)
    ensures OneChange(t, FailMatch(t, b, h).0, b, h)
  {
    if Stored(t, h) { MarkChangesOne(t, b, h, ReconciliationRequired); } else { SettleChangesNone(t, b, h); }
  }

  lemma ApplyOneKeeps(w: World, s: State, id: int, v: Verdict, d: State)
    requires w.concurrency >= 1 && Inv(w, s) && CanDo(w, s, ApplyOne(id, v)) && d == Do(w, s, ApplyOne(id, v))
    ensures Inv(w, d)
  {
    var rest := s.resolves[id].pc.rest;
    if rest == [] {
      PcKeeps(w, s, id, Returned, d);
    } else {
      ApplyChangesOne(s.tracker, s.resolves[id].block, rest[0], v);
      MatchKeeps(w, s, id, d.tracker, rest[0], d.resolves[id].pc, d);
    }
  }

  lemma FailOneKeeps(w: World, s: State, id: int, d: State)
    requires w.concurrency >= 1 && Inv(w, s) && CanDo(w, s, FailOne(id)) && d == Do(w, s, FailOne(id))
    ensures Inv(w, d)
  {
    var rest := s.resolves[id].pc.rest;
    if rest == [] {
      PcKeeps(w, s, id, Returned, d);
    } else {
      FailChangesOne(s.tracker, s.resolves[id].block, rest[0]);
      MatchKeeps(w, s, id, d.tracker, rest[0], d.resolves[id].pc, d);
    }
  }

  // ---------- the finalized scan ----------

  /** Passing a transaction over only takes it out of what is pending. */
  lemma SkipKeeps(w: World, s: State, b: BlockHash, skips: set<Hit>, d: State)
    requires Inv(w, s) && d == s.(skipped := s.skipped + skips)
    requires forall hit | hit in skips :: hit.h in w.body(hit.block)
    ensures Inv(w, d)
  {
    forall id | id in s.resolves ensures StaysAhead(w, s, d, id) {}
    QuietKeepsScan(w, s, d);
  }

  lemma KidHashKeeps(w: World, s: State, k: nat, id: int, d: State)
    requires w.concurrency >= 1 && Inv(w, s) && CanDo(w, s, KidHash(k, id)) && d == Do(w, s, KidHash(k, id))
    ensures Inv(w, d)
  {
    var b := s.chain[s.scan.lo + k];
    var m := Follow(s, b, id);
    FollowKeeps(w, s, b, id, m);
    var m' := m.(skipped := d.skipped);
    SkipKeeps(w, m, b, Skips(w, s, b), m');
    KidPlaced(w, m', k, id, d);
  }

  lemma KidPlaced(w: World, m: State, k: nat, id: int, d: State)
    requires Inv(w, m) && m.scan.Batch? && k < |m.scan.kids| && id in m.resolves
    requires d == m.(scan := m.scan.(kids := m.scan.kids[k := Following(id)]))
    requires KidOk(w, m, m.scan.lo + k, Following(id))
    ensures Inv(w, d)
  {
    SameButScan(m, d);
    forall i | 0 <= i < |d.scan.kids| ensures KidOk(w, d, d.scan.lo + i, d.scan.kids[i]) {
      if i != k { assert KidOk(w, m, m.scan.lo + i, m.scan.kids[i]); }
    }
  }

  lemma SameButScan(m: State, d: State)
    requires d == m.(scan := d.scan)
    ensures forall b, h :: Pending(d, b, h) == Pending(m, b, h)
    ensures forall b, pc, h :: Ahead(d, b, pc, h) == Ahead(m, b, pc, h)
  {}

  lemma KidRefusedKeeps(w: World, s: State, k: nat, cancelled: bool, d: State)
    requires w.concurrency >= 1 && Inv(w, s) && CanDo(w, s, KidRefused(k, cancelled))
    requires d == Do(w, s, KidRefused(k, cancelled))
    ensures Inv(w, d)
  {
    SameButScan(s, d);
    forall i | 0 <= i < |d.scan.kids| ensures KidOk(w, d, d.scan.lo + i, d.scan.kids[i]) {
      if i != k { assert KidOk(w, s, s.scan.lo + i, s.scan.kids[i]); }
    }
  }

  lemma BeginScanKeeps(w: World, s: State, f: int, d: State)
    requires w.concurrency >= 1 && Inv(w, s) && CanDo(w, s, ScanBegin(f)) && Honest(w, s, ScanBegin(f))
    requires d == Do(w, s, ScanBegin(f))
    ensures Inv(w, d)
  {
    assert forall h | IsOpen(s, h) :: h in Active(s.tracker);
    assert d.tracker == s.tracker ==> forall b, h :: Pending(d, b, h) == Pending(s, b, h);
    if s.cursor.Some? && f > s.cursor.value && Active(s.tracker) != {} && f - s.cursor.value > w.maxBlocks {
      var m := s.(tracker := d.tracker);
      TxsKeep(w, s, d.tracker, m);
    }
  }

  /** A resolved height contains no open unseen transaction. */
  lemma ResolvedMeansClear(w: World, s: State, i: nat, h: TxHash)
    requires ScanOk(w, s) && s.scan.Batch? && i < |s.scan.kids|
    requires KidDone(s, s.scan.kids[i]) && KidOutcome(s, s.scan.kids[i]) == Resolved
    requires 0 <= s.scan.lo + i < |s.chain| && Pending(s, s.chain[s.scan.lo + i], h)
    ensures h !in w.body(s.chain[s.scan.lo + i])
  {
    assert KidOk(w, s, s.scan.lo + i, s.scan.kids[i]);
  }

  /** Moving the cursor over the leading run of resolved heights. */
  lemma AdvanceKeeps(w: World, s: State, good: nat, d: State)
    requires Inv(w, s) && s.scan.Batch? && good <= |s.scan.kids|
    requires forall i | 0 <= i < good :: KidDone(s, s.scan.kids[i]) && KidOutcome(s, s.scan.kids[i]) == Resolved
    requires d.chain == s.chain && d.tracker == s.tracker && d.resolves == s.resolves
    requires d.seen == s.seen && d.skipped == s.skipped
    requires d.cursor == Some(s.scan.lo + good - 1) && d.scan == Idle
    ensures Inv(w, d)
  {
    forall n, h | 0 <= n <= d.cursor.value && Pending(d, d.chain[n], h) ensures h !in w.body(d.chain[n]) {
      assert Pending(s, s.chain[n], h);
      if n >= s.scan.lo { ResolvedMeansClear(w, s, n - s.scan.lo, h); }
    }
  }

  /** What the end of a batch does, as far as the invariant is concerned. */
  lemma BatchEndShape(w: World, s: State, d: State)
    requires w.concurrency >= 1 && CanDo(w, s, BatchEnd) && d == DoBatchEnd(w, s) && s.cursor == Some(s.scan.lo - 1)
    ensures var good := GoodPrefix(Outcomes(s, s.scan.kids));
      && d.cursor == Some(s.scan.lo + good - 1)
      && d == s.(cursor := d.cursor, tracker := d.tracker, scan := d.scan, scanned := d.scanned)
      && d.tracker.blocks == s.tracker.blocks && d.tracker.txs.Keys == s.tracker.txs.Keys
      && (forall h | h in s.tracker.txs ::
            d.tracker.txs[h].status == s.tracker.txs[h].status || Terminal(d.tracker.txs[h].status))
      && (good < |s.scan.kids| ==> d.scan == Idle)
      && (good == |s.scan.kids| && s.scan.lo + good <= s.scan.last ==>
            d.scan == Batch(s.scan.first, s.scan.last, s.scan.lo + good, Kids(w, s.scan.lo + good, s.scan.last)))
      && (good == |s.scan.kids| && s.scan.lo + good > s.scan.last ==>
            d.scan == Idle || (d.scan.Settling? && d.scan.last == s.scan.last))
  {}

  lemma BatchEndKeeps(w: World, s: State, d: State)
    requires w.concurrency >= 1 && Inv(w, s) && CanDo(w, s, BatchEnd) && d == DoBatchEnd(w, s)
    ensures Inv(w, d)
  {
    BatchEndShape(w, s, d);
    var outs := Outcomes(s, s.scan.kids);
    var good := GoodPrefix(outs);
    forall i | 0 <= i < good ensures KidDone(s, s.scan.kids[i]) && KidOutcome(s, s.scan.kids[i]) == Resolved {
      assert s.scan.kids[i] in s.scan.kids && outs[i] == KidOutcome(s, s.scan.kids[i]);
    }
    var m := d.(tracker := s.tracker, scan := Idle);
    AdvanceKeeps(w, s, good, m);
    var m' := d.(scan := Idle);
    TxsKeep(w, m, d.tracker, m');
    NextPage(w, s, good, m', d);
  }

  lemma NextPage(w: World, s: State, good: nat, m: State, d: State)
    requires w.concurrency >= 1 && ScanOk(w, s) && s.scan.Batch? && Inv(w, m) && m.scan == Idle
    requires d == m.(scan := d.scan) && d.cursor == Some(s.scan.lo + good - 1) && d.chain == s.chain
    requires good <= |s.scan.kids|
    requires d.scan == Idle
          || (s.scan.lo + good <= s.scan.last
              && d.scan == Batch(s.scan.first, s.scan.last, s.scan.lo + good, Kids(w, s.scan.lo + good, s.scan.last)))
          || (d.scan.Settling? && d.scan.last == s.scan.last && s.scan.lo + good > s.scan.last)
    ensures Inv(w, d)
  {
    SameButScan(m, d);
  }

  lemma BestFailedKeeps(w: World, s: State, d: State)
    requires w.concurrency >= 1 && Inv(w, s) && CanDo(w, s, BestFailed) && d == Do(w, s, BestFailed)
    ensures Inv(w, d)
  {
    var m := s.(tracker := d.tracker);
    TxsKeep(w, s, d.tracker, m);
    SameButScan(m, d);
  }

  lemma JudgeOneKeeps(w: World, s: State, d: State)
    requires w.concurrency >= 1 && Inv(w, s) && CanDo(w, s, JudgeOne) && d == Do(w, s, JudgeOne)
    ensures Inv(w, d)
  {
    var m := s.(tracker := d.tracker);
    TxsKeep(w, s, d.tracker, m);
    SameButScan(m, d);
  }

  lemma TurnPageKeeps(w: World, s: State, e: Event, d: State)
    requires w.concurrency >= 1 && Inv(w, s) && CanDo(w, s, e) && d == Do(w, s, e)
    requires e.ScanAbort? || e.BestDone? || e.PoolAnswered? || e.JudgeEnd?
    ensures Inv(w, d)
  {
    SameButScan(s, d);
  }

  // ---------- whole runs ----------

  lemma ResolveStepKeeps(w: World, s: State, e: Event, d: State)
    requires w.concurrency >= 1 && Inv(w, s) && CanDo(w, s, e) && Honest(w, s, e) && IsResolveEvent(e)
    requires d == Do(w, s, e)
    ensures Inv(w, d)
  {
    match e
    case Begin(id) => BeginKeeps(w, s, id, d);
    case Explore(b, id) => FollowKeeps(w, s, b, id, d);
    case IndexDone(b, ok) => TasksKeep(w, s, b, d.tracker.blocks[b], d);
    case ResumeIndex(id, ms) => ResumeIndexKeeps(w, s, id, ms, d);
    case EventsDone(b, ok) => TasksKeep(w, s, b, d.tracker.blocks[b], d);
    case ResumeEvents(id) => ResumeEventsKeeps(w, s, id, d);
    case ApplyOne(id, v) => ApplyOneKeeps(w, s, id, v, d);
    case FailOne(id) => FailOneKeeps(w, s, id, d);
    case Cancel(id) => PcKeeps(w, s, id, Raised(true), d);
    case Prune(b) => PruneKeeps(w, s, b, d);
  }

  lemma ScanStepKeeps(w: World, s: State, e: Event, d: State)
    requires w.concurrency >= 1 && Inv(w, s) && CanDo(w, s, e) && Honest(w, s, e) && IsScanEvent(e) && d == Do(w, s, e)
    ensures Inv(w, d)
  {
    match e
    case ScanBegin(f) => BeginScanKeeps(w, s, f, d);
    case KidHash(k, id) => KidHashKeeps(w, s, k, id, d);
    case KidRefused(k, c) => KidRefusedKeeps(w, s, k, c, d);
    case BatchEnd => BatchEndKeeps(w, s, d);
    case BestFailed => BestFailedKeeps(w, s, d);
    case JudgeOne => JudgeOneKeeps(w, s, d);
    case _ => TurnPageKeeps(w, s, e, d);
  }

  lemma TicketStepKeeps(w: World, s: State, e: Event, d: State)
    requires w.concurrency >= 1 && Inv(w, s) && CanDo(w, s, e) && Honest(w, s, e) && d == Do(w, s, e)
    requires !IsResolveEvent(e) && !IsScanEvent(e)
    ensures Inv(w, d)
  {
    match e
    case NodeReady(h, ep) => ReadyKeeps(w, s, h, ep, d);
    case NodeInBlock(h, b, ep, id) => InBlockKeeps(w, s, h, b, ep, id, d);
    case Mark(h, status) => MarkKeeps(w, s, h, status, d);
    case _ => WorldKeeps(w, s, e, d);
  }

  lemma StepKeeps(w: World, s: State, e: Event, d: State)
    requires w.concurrency >= 1 && Inv(w, s) && CanDo(w, s, e) && Honest(w, s, e) && d == Do(w, s, e)
    ensures Inv(w, d)
  {
    if IsResolveEvent(e) {
      ResolveStepKeeps(w, s, e, d);
    } else if IsScanEvent(e) {
      ScanStepKeeps(w, s, e, d);
    } else {
      TicketStepKeeps(w, s, e, d);
    }
  }

  lemma {:induction false} RunKeeps(w: World, s: State, es: seq<Event>)
    requires w.concurrency >= 1 && Inv(w, s) && Run(w, s, es)
    ensures Inv(w, After(w, s, es))
    decreases |es|
  {
    if es != [] {
      StepKeeps(w, s, es[0], Do(w, s, es[0]));
      RunKeeps(w, Do(w, s, es[0]), es[1..]);
    }
  }

  /** The step in which the recovery pass ends ticket h as NOT_INCLUDED, having scanned up to `s.scan.last`. */
  predicate RulesNotIncluded(w: World, s: State, h: TxHash) {
    && s.scan.Judging? && s.scan.rest != [] && s.scan.rest[0] == h && h in s.tracker.txs
    && JudgedAbsent(s.tracker.txs[h], s.scan.endpoint, s.scan.pool, h)
    && Legal(s.tracker.txs[h].status, NotIncluded)
  }

  /** In every honest run, when the recovery pass rules h NOT_INCLUDED at finalized head F: a canonical block at a
      height of at most F contains h exactly when that block was matched with it, or was taken up by a scan while its
      ticket was executed. */
  lemma NotIncludedExactly(w: World, init: State, es: seq<Event>, s: State, h: TxHash, n: int)
    requires w.concurrency >= 1 && Initial(init) && Run(w, init, es) && s == After(w, init, es)
    requires RulesNotIncluded(w, s, h) && 0 <= n <= s.scan.last
    ensures n < |s.chain|
    ensures h in w.body(s.chain[n]) <==> Hit(s.chain[n], h) in s.seen + s.skipped
  {
    InitialIsSound(w, init);
    RunKeeps(w, init, es);
    OpenAtVerdict(w, s, h, n);
  }

  lemma InitialIsSound(w: World, init: State)
    requires Initial(init)
    ensures Inv(w, init)
  {}

  lemma OpenAtVerdict(w: World, s: State, h: TxHash, n: int)
    requires Inv(w, s) && RulesNotIncluded(w, s, h) && 0 <= n <= s.scan.last
    ensures n < |s.chain| && (h in w.body(s.chain[n]) <==> Hit(s.chain[n], h) in s.seen + s.skipped)
  {
    assert IsOpen(s, h);
    if Hit(s.chain[n], h) !in s.seen + s.skipped { assert Pending(s, s.chain[n], h); }
  }

  /** So the verdict is right if and only if no canonical block up to the head was matched or so passed over. */
  lemma VerdictRightIff(w: World, init: State, es: seq<Event>, s: State, h: TxHash)
    requires w.concurrency >= 1 && Initial(init) && Run(w, init, es) && s == After(w, init, es)
    requires RulesNotIncluded(w, s, h)
    ensures (forall n | 0 <= n <= s.scan.last && n < |s.chain| :: h !in w.body(s.chain[n]))
            <==> (forall n | 0 <= n <= s.scan.last && n < |s.chain| :: Hit(s.chain[n], h) !in s.seen + s.skipped)
  {
    forall n | 0 <= n <= s.scan.last && n < |s.chain|
      ensures h in w.body(s.chain[n]) <==> Hit(s.chain[n], h) in s.seen + s.skipped
    {
      NotIncludedExactly(w, init, es, s, h, n);
    }
  }
}
