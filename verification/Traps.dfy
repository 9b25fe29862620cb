/** NOT_INCLUDED can be wrong: three honest runs of the engine that end with a ticket ruled so although a finalized
    block at or below the scanned head contains its transaction. In two of them that block was matched with it; in the
    third it never was, because a scan took the block up while the ticket was executed in another one. */
module Traps {
  import opened Options
  import opened Shared
  import opened TxLifecycle
  import opened TrackerModel
  import opened Engine
  import opened Soundness

  /** Block 1 contains transaction 7, block 0 nothing. */
  predicate Small(w: World) {
    w.concurrency == 1 && w.maxBlocks >= 1 && w.staleMs == 100 && w.body(0) == {} && w.body(1) == {7}
  }

  ghost predicate Reaches(w: World, s: State, es: seq<Event>, d: State)
    requires w.concurrency >= 1
  {
    Run(w, s, es) && After(w, s, es) == d
  }

  lemma {:induction false} Extend(w: World, s: State, es: seq<Event>, m: State, e: Event)
    requires w.concurrency >= 1 && Reaches(w, s, es, m) && CanDo(w, m, e) && Honest(w, m, e)
    ensures Reaches(w, s, es + [e], Do(w, m, e))
    decreases |es|
  {
    if es == [] {
      assert Run(w, Do(w, m, e), []);
    } else {
      assert (es + [e])[1..] == es[1..] + [e];
      Extend(w, Do(w, s, es[0]), es[1..], m, e);
    }
  }

  /** Transaction 7 is open, accepted by endpoint 5, and already settled in the cached block 1. */
  predicate Burnt(s: State) {
    && s.chain == [0] && s.now == 0 && s.cursor == Some(0) && s.scan == Idle && 2 !in s.resolves
    && (forall id | id in s.resolves :: !InFlight(s.resolves[id].pc))
    && s.tracker.txs.Keys == {7}
    && s.tracker.txs[7].status in {Submitted, Retracted}
    && s.tracker.txs[7].createdAt == 0 && s.tracker.txs[7].submissionEndpoint == Some(5)
    && 1 in s.tracker.blocks && s.tracker.blocks[1].index == Ready && 7 in s.tracker.blocks[1].applied
  }

  /** Block 1 is finalized now, and the ticket is still open. */
  predicate Aged(s: State) {
    && s.chain == [0, 1] && s.now == 100 && s.cursor == Some(0)
    && s.tracker.txs.Keys == {7} && s.tracker.txs[7].status in {Submitted, Retracted}
    && s.tracker.txs[7].createdAt == 0 && s.tracker.txs[7].submissionEndpoint == Some(5)
  }

  predicate Later(s: State) {
    && Aged(s)
    && 1 in s.tracker.blocks && s.tracker.blocks[1].index == Ready && 7 in s.tracker.blocks[1].applied
  }

  /** One more step at the end of a run. */
  lemma Then(w: World, init: State, es: seq<Event>, s: State, e: Event) returns (es': seq<Event>, d: State)
    requires w.concurrency >= 1 && Reaches(w, init, es, s) && CanDo(w, s, e) && Honest(w, s, e)
    ensures Reaches(w, init, es', d) && d == Do(w, s, e) && es' == es + [e]
  {
    Extend(w, init, es, s, e);
    es', d := es + [e], Do(w, s, e);
  }

  lemma TimePasses(w: World, init: State, es: seq<Event>, s: State) returns (es': seq<Event>, d: State)
    requires Small(w) && Reaches(w, init, es, s) && Burnt(s)
    ensures Reaches(w, init, es', d) && Later(d) && d.scan == Idle && 2 !in d.resolves
  {
    es', d := Then(w, init, es, s, Tick(100));
    es', d := Then(w, init, es', d, Finalize(1));
    assert d.chain == [0, 1];
  }

  /** A scan starts on block 1. */
  lemma ScanFromZero(w: World, init: State, es: seq<Event>, s: State) returns (es': seq<Event>, d: State)
    requires Small(w) && Reaches(w, init, es, s) && s.chain == [0, 1] && s.cursor == Some(0) && s.scan == Idle
    requires 7 in s.tracker.txs && !Terminal(s.tracker.txs[7].status)
    ensures Reaches(w, init, es', d) && d == s.(scan := Batch(1, 1, 1, [Asking]))
  {
    assert 7 in Active(s.tracker);
    es', d := Then(w, init, es, s, ScanBegin(1));
    assert d.scan == Batch(1, 1, 1, [Asking]);
  }

  lemma ScanBlockOne(w: World, init: State, es: seq<Event>, s: State) returns (es': seq<Event>, d: State)
    requires Small(w) && Reaches(w, init, es, s) && Later(s) && s.scan == Idle && 2 !in s.resolves
    ensures Reaches(w, init, es', d) && Later(d) && d.scan == Batch(1, 1, 1, [Following(2)])
    ensures 2 in d.resolves && d.resolves[2] == Resolve(1, AwaitIndex)
  {
    es', d := ScanFromZero(w, init, es, s);
    es', d := Then(w, init, es', d, KidHash(0, 2));
    assert [Asking][0 := Following(2)] == [Following(2)];
  }

  /** The cached index is there, transaction 7 is a candidate and is in the block, and still nothing matches. */
  lemma SkipMatch(w: World, init: State, es: seq<Event>, s: State) returns (es': seq<Event>, d: State)
    requires Small(w) && Reaches(w, init, es, s) && Later(s) && s.scan == Batch(1, 1, 1, [Following(2)])
    requires 2 in s.resolves && s.resolves[2] == Resolve(1, AwaitIndex)
    ensures Reaches(w, init, es', d) && Later(d) && d.scan == Batch(1, 1, 1, [Following(2)])
    ensures 2 in d.resolves && d.resolves[2] == Resolve(1, Returned)
  {
    assert Matches(EntryOf(s.tracker, 1), w.body(1)) == {} == Members([]);
    es', d := Then(w, init, es, s, ResumeIndex(2, []));
  }

  lemma FinishBatch(w: World, init: State, es: seq<Event>, s: State) returns (es': seq<Event>, d: State)
    requires Small(w) && Reaches(w, init, es, s) && Aged(s) && s.scan == Batch(1, 1, 1, [Following(2)])
    requires 2 in s.resolves && s.resolves[2] == Resolve(1, Returned)
    ensures Reaches(w, init, es', d) && d.scan == Settling(1, 1, {7}) && d.chain == [0, 1]
    ensures Stale(w, d) == {7} && d.tracker.txs.Keys == {7} && d.seen == s.seen
    ensures d.tracker.txs[7].status in {Submitted, Retracted} && d.tracker.txs[7].submissionEndpoint == Some(5)
  {
    es', d := Then(w, init, es, s, BatchEnd);
    assert Outcomes(s, s.scan.kids) == [Resolved];
    assert GoodPrefix([Resolved]) == 1;
    assert d.tracker.txs[7] == RecordComplete(s.tracker.txs[7], 1, 1);
    assert Stale(w, d) == {7};
  }

  lemma AskPool(w: World, init: State, es: seq<Event>, s: State) returns (es': seq<Event>, d: State)
    requires Small(w) && Reaches(w, init, es, s) && s.scan == Settling(1, 1, {7}) && s.chain == [0, 1]
    requires Stale(w, s) == {7} && s.tracker.txs.Keys == {7}
    requires s.tracker.txs[7].status in {Submitted, Retracted} && s.tracker.txs[7].submissionEndpoint == Some(5)
    ensures Reaches(w, init, es', d) && RulesNotIncluded(w, d, 7) && d.scan.last == 1
    ensures d.chain == [0, 1] && d.seen == s.seen
  {
    assert Members([7]) == {7};
    es', d := Then(w, init, es, s, BestDone([7], 5));
    es', d := Then(w, init, es', d, PoolAnswered(Listing({})));
  }

  /** From such a state the finalized scan sees nothing to do in block 1, and an honest pool answer does the rest. */
  lemma BurntEndsWrong(w: World, init: State, es: seq<Event>, s: State) returns (es': seq<Event>, d: State)
    requires Small(w) && Reaches(w, init, es, s) && Burnt(s)
    ensures Reaches(w, init, es', d) && RulesNotIncluded(w, d, 7) && d.scan.last == 1
    ensures d.chain == [0, 1] && 7 in w.body(d.chain[1])
  {
    es', d := TimePasses(w, init, es, s);
    es', d := ScanBlockOne(w, init, es', d);
    es', d := SkipMatch(w, init, es', d);
    es', d := FinishBatch(w, init, es', d);
    es', d := AskPool(w, init, es', d);
  }

  // ---------- the two ways to get there ----------

  predicate Start(s: State) {
    Initial(s) && s.chain == [0] && s.cursor == Some(0) && s.now == 0
  }

  /** A best-head scan has found transaction 7 in block b; its resolution has the events. */
  predicate Found(s: State, status: TxStatus, b: BlockHash) {
    && s.chain == [0] && s.now == 0 && s.cursor == Some(0) && s.scan == Idle && s.seen == {}
    && s.resolves == map[1 := Resolve(b, Applying([7]))]
    && s.tracker.evicted == {} && s.tracker.txs.Keys == {7}
    && s.tracker.txs[7].status == status && s.tracker.txs[7].createdAt == 0
    && (s.tracker.txs[7].submissionEndpoint == if status == Submitting then None else Some(5))
    && s.tracker.blocks.Keys == {b} && s.tracker.blocks[b].index == Ready && s.tracker.blocks[b].applied == {}
  }

  predicate Opened(s: State, status: TxStatus) {
    && s.chain == [0] && s.now == 0 && s.cursor == Some(0) && s.scan == Idle && s.seen == {} && s.resolves == map[]
    && s.tracker.evicted == {} && s.tracker.txs.Keys == {7}
    && s.tracker.txs[7].status == status && s.tracker.txs[7].createdAt == 0
    && (s.tracker.txs[7].submissionEndpoint == if status == Submitting then None else Some(5))
    && s.tracker.blocks == map[]
  }

  /** The resolution of block b waits for the events. */
  predicate Fetched(s: State, status: TxStatus, b: BlockHash) {
    && s.chain == [0] && s.now == 0 && s.cursor == Some(0) && s.scan == Idle && s.seen == {}
    && s.resolves == map[1 := Resolve(b, AwaitEvents([7]))]
    && s.tracker.evicted == {} && s.tracker.txs.Keys == {7}
    && s.tracker.txs[7].status == status && s.tracker.txs[7].createdAt == 0
    && (s.tracker.txs[7].submissionEndpoint == if status == Submitting then None else Some(5))
    && s.tracker.blocks.Keys == {b} && s.tracker.blocks[b].index == Ready && s.tracker.blocks[b].applied == {}
    && s.tracker.blocks[b].events == Running
  }

  lemma IndexBlock(w: World, init: State, es: seq<Event>, s: State, status: TxStatus, b: BlockHash)
    returns (es': seq<Event>, d: State)
    requires Small(w) && w.body(b) == {7} && Reaches(w, init, es, s) && Opened(s, status)
    requires status in {Submitting, Submitted}
    ensures Reaches(w, init, es', d) && Fetched(d, status, b)
  {
    es', d := Then(w, init, es, s, Explore(b, 1));
    assert EntryOf(d.tracker, b).candidates == {7};
    es', d := Then(w, init, es', d, IndexDone(b, true));
    assert Matches(EntryOf(d.tracker, b), w.body(b)) == {7} == Members([7]);
    es', d := Then(w, init, es', d, ResumeIndex(1, [7]));
  }

  lemma FindInBlock(w: World, init: State, es: seq<Event>, s: State, status: TxStatus, b: BlockHash)
    returns (es': seq<Event>, d: State)
    requires Small(w) && Reaches(w, init, es, s) && Fetched(s, status, b)
    ensures Reaches(w, init, es', d) && Found(d, status, b)
  {
    es', d := Then(w, init, es, s, EventsDone(b, true));
    es', d := Then(w, init, es', d, ResumeEvents(1));
  }

  /** Trap one: the block is applied while the ticket is still SUBMITTING. The mark raises, but the transaction stays
      settled in that block for ever. */
  lemma SubmittingTrap(w: World, init: State) returns (es: seq<Event>, d: State)
    requires Small(w) && Start(init)
    ensures Reaches(w, init, es, d) && RulesNotIncluded(w, d, 7) && d.scan.last == 1
    ensures d.chain == [0, 1] && 7 in w.body(d.chain[1])
  {
    es, d := Then(w, init, [], init, Submit(7));
    es, d := IndexBlock(w, init, es, d, Submitting, 1);
    es, d := FindInBlock(w, init, es, d, Submitting, 1);
    es, d := ApplyBlock(w, init, es, d, Submitting, 1);
    es, d := RaiseAndAccept(w, init, es, d);
    es, d := BurntEndsWrong(w, init, es, d);
  }

  /** Block b has been applied to transaction 7, which did or did not change its status. */
  predicate Applied(s: State, status: TxStatus, b: BlockHash) {
    && s.chain == [0] && s.now == 0 && s.cursor == Some(0) && s.scan == Idle && s.seen == {Hit(b, 7)}
    && s.resolves.Keys == {1} && !InFlight(s.resolves[1].pc)
    && s.tracker.txs.Keys == {7} && s.tracker.txs[7].status == status && s.tracker.txs[7].createdAt == 0
    && (s.tracker.txs[7].submissionEndpoint == if status == Submitting then None else Some(5))
    && s.tracker.blocks.Keys == {b} && s.tracker.blocks[b].index == Ready && 7 in s.tracker.blocks[b].applied
  }

  lemma ApplyFound(t: Tracker, b: BlockHash, u: Tracker)
    requires t.blocks.Keys == {b} && t.blocks[b].applied == {} && t.txs.Keys == {7} && t.evicted == {}
    requires t.txs[7].status in {Submitting, Submitted} && u == ApplyMatch(t, b, 7, Executed).0
    ensures u.txs.Keys == {7}
    ensures u.txs[7] == t.txs[7].(status := if t.txs[7].status == Submitting then Submitting else InBlockSuccess)
    ensures u.blocks.Keys == {b} && u.blocks[b].index == t.blocks[b].index && 7 in u.blocks[b].applied
  {}

  lemma ApplyBlock(w: World, init: State, es: seq<Event>, s: State, status: TxStatus, b: BlockHash)
    returns (es': seq<Event>, d: State)
    requires Small(w) && Reaches(w, init, es, s) && Found(s, status, b) && status in {Submitting, Submitted}
    ensures Reaches(w, init, es', d) && Applied(d, if status == Submitting then Submitting else InBlockSuccess, b)
  {
    es', d := Then(w, init, es, s, ApplyOne(1, Executed));
    ApplyFound(s.tracker, b, d.tracker);
    assert !InFlight(d.resolves[1].pc);
  }

  lemma RaiseAndAccept(w: World, init: State, es: seq<Event>, s: State) returns (es': seq<Event>, d: State)
    requires Small(w) && Reaches(w, init, es, s) && Applied(s, Submitting, 1)
    ensures Reaches(w, init, es', d) && Burnt(d)
  {
    es', d := Then(w, init, es, s, NodeReady(7, 5));
  }

  lemma OpenAccepted(w: World, init: State) returns (es: seq<Event>, d: State)
    requires Small(w) && Start(init)
    ensures Reaches(w, init, es, d) && Opened(d, Submitted)
  {
    es, d := Then(w, init, [], init, Submit(7));
    es, d := Then(w, init, es, d, NodeReady(7, 5));
  }

  /** The ticket is accepted, found in block b and executed there. */
  lemma ExecuteInBlock(w: World, init: State, b: BlockHash) returns (es: seq<Event>, d: State)
    requires Small(w) && w.body(b) == {7} && Start(init)
    ensures Reaches(w, init, es, d) && Applied(d, InBlockSuccess, b)
  {
    es, d := OpenAccepted(w, init);
    es, d := IndexBlock(w, init, es, d, Submitted, b);
    es, d := FindInBlock(w, init, es, d, Submitted, b);
    es, d := ApplyBlock(w, init, es, d, Submitted, b);
  }

  lemma Retract(w: World, init: State, es: seq<Event>, s: State) returns (es': seq<Event>, d: State)
    requires Small(w) && Reaches(w, init, es, s) && Applied(s, InBlockSuccess, 1)
    ensures Reaches(w, init, es', d) && Burnt(d)
  {
    es', d := Then(w, init, es, s, Mark(7, Retracted));
  }

  /** Trap two: the ticket was executed in block 1, block 1 was retracted, and then the same block was finalized. */
  lemma RetractionTrap(w: World, init: State) returns (es: seq<Event>, d: State)
    requires Small(w) && Start(init)
    ensures Reaches(w, init, es, d) && RulesNotIncluded(w, d, 7) && d.scan.last == 1
    ensures d.chain == [0, 1] && 7 in w.body(d.chain[1])
  {
    es, d := ExecuteInBlock(w, init, 1);
    es, d := Retract(w, init, es, d);
    es, d := BurntEndsWrong(w, init, es, d);
  }

  // ---------- taken up while executed elsewhere ----------

  /** The scan has taken up block 1 while the ticket was executed in block 2: it is no candidate of block 1. */
  predicate TakenUp(s: State, status: TxStatus) {
    && s.chain == [0, 1] && s.now == 100 && s.cursor == Some(0) && s.scan == Batch(1, 1, 1, [Following(2)])
    && 2 in s.resolves && s.resolves[2] == Resolve(1, AwaitIndex) && s.seen == {Hit(2, 7)}
    && s.tracker.txs.Keys == {7} && s.tracker.txs[7].status == status && s.tracker.txs[7].createdAt == 0
    && s.tracker.txs[7].submissionEndpoint == Some(5)
    && 1 in s.tracker.blocks && s.tracker.blocks[1].index == Running && s.tracker.blocks[1].candidates == {}
  }

  lemma FinalizeBlockOne(w: World, init: State, es: seq<Event>, s: State) returns (es': seq<Event>, d: State)
    requires Small(w) && Reaches(w, init, es, s) && Applied(s, InBlockSuccess, 2)
    ensures Reaches(w, init, es', d) && d == s.(now := 100, chain := [0, 1])
  {
    es', d := Then(w, init, es, s, Tick(100));
    es', d := Then(w, init, es', d, Finalize(1));
    assert d.chain == [0, 1];
  }

  lemma TakeUpBlockOne(w: World, init: State, es: seq<Event>, s: State) returns (es': seq<Event>, d: State)
    requires Small(w) && Reaches(w, init, es, s) && s.chain == [0, 1] && s.now == 100
    requires s.scan == Batch(1, 1, 1, [Asking]) && Applied(s.(now := 0, chain := [0], scan := Idle), InBlockSuccess, 2)
    ensures Reaches(w, init, es', d) && TakenUp(d, InBlockSuccess)
  {
    es', d := Then(w, init, es, s, KidHash(0, 2));
    assert [Asking][0 := Following(2)] == [Following(2)];
    assert EntryOf(d.tracker, 1).candidates == {};
  }

  /** The retraction comes before the index is used, which then finds no candidate. */
  lemma RetractBeforeIndex(w: World, init: State, es: seq<Event>, s: State) returns (es': seq<Event>, d: State)
    requires Small(w) && Reaches(w, init, es, s) && TakenUp(s, InBlockSuccess)
    ensures Reaches(w, init, es', d) && TakenUp(d, Retracted)
  {
    es', d := Then(w, init, es, s, Mark(7, Retracted));
  }

  lemma FindNothing(w: World, init: State, es: seq<Event>, s: State) returns (es': seq<Event>, d: State)
    requires Small(w) && Reaches(w, init, es, s) && TakenUp(s, Retracted)
    ensures Reaches(w, init, es', d) && Aged(d) && d.scan == Batch(1, 1, 1, [Following(2)]) && d.seen == s.seen
    ensures 2 in d.resolves && d.resolves[2] == Resolve(1, Returned)
  {
    es', d := Then(w, init, es, s, IndexDone(1, true));
    assert Matches(EntryOf(d.tracker, 1), w.body(1)) == {} == Members([]);
    es', d := Then(w, init, es', d, ResumeIndex(2, []));
  }

  lemma TakeUpWhileExecuted(w: World, init: State) returns (es: seq<Event>, d: State)
    requires Small(w) && w.body(2) == {7} && Start(init)
    ensures Reaches(w, init, es, d) && TakenUp(d, InBlockSuccess)
  {
    es, d := ExecuteInBlock(w, init, 2);
    es, d := FinalizeBlockOne(w, init, es, d);
    es, d := ScanFromZero(w, init, es, d);
    es, d := TakeUpBlockOne(w, init, es, d);
  }

  /** Trap three: block 1 was never matched with the transaction it contains, because the scan took it up while the
      ticket was executed in block 2, a fork that was retracted afterwards. */
  lemma PassedOverTrap(w: World, init: State) returns (es: seq<Event>, d: State)
    requires Small(w) && w.body(2) == {7} && Start(init)
    ensures Reaches(w, init, es, d) && RulesNotIncluded(w, d, 7) && d.scan.last == 1
    ensures d.chain == [0, 1] && 7 in w.body(d.chain[1]) && Hit(d.chain[1], 7) !in d.seen
  {
    es, d := TakeUpWhileExecuted(w, init);
    es, d := RetractBeforeIndex(w, init, es, d);
    es, d := FindNothing(w, init, es, d);
    es, d := FinishBatch(w, init, es, d);
    es, d := AskPool(w, init, es, d);
  }
}
