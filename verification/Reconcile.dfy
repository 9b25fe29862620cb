/** The finality pass of recovery: executed tickets are grouped by the block they were recorded in, each block is looked
    up, and its tickets are finalized or handed over. Between two batches anything may happen to the tickets. */
module Reconcile {
  import opened Options
  import opened Shared
  import opened TxLifecycle

  datatype Id = Id(n: int)
  datatype Block = Block(hash: int)

  /** `stored`: the tracker still holds this ticket under its hash. */
  datatype Ticket = Ticket(status: TxStatus, block: Option<Block>, stored: bool)

  type Tickets = map<Id, Ticket>

  datatype Header = HeaderFails | NoNumber | Numbered(number: int)
  datatype HashReply = HashFails | HashIs(block: Block)

  /** The inputs of one pass: the finalized head, what the node replies when asked for a block's header and then, for
      that block, for the hash at a height, and what happens to the tickets while batch k is being looked up. */
  datatype Inputs = Inputs(finalized: Block, number: int, concurrency: int, header: Block -> Header,
                           hashAt: (Block, int) -> HashReply, others: (nat, Tickets) -> Tickets)

  /** The lookup of one block: its height, and the canonical hash there if that is at or below the finalized head. */
  datatype Answer = Failure | Inspected(number: Option<int>, canonical: Option<Block>)

  function Inspect(w: Inputs, b: Block): Answer {
    match w.header(b)
    case HeaderFails => Failure
    case NoNumber => Inspected(None, None)
    case Numbered(n) =>
      if n > w.number then Inspected(Some(n), None)
      else
        match w.hashAt(b, n)
        case HashFails => Failure
        case HashIs(hash) => Inspected(Some(n), Some(hash))
  }

  predicate Executed(x: Ticket) {
    x.status == InBlockSuccess && x.block.Some?
  }

  /** Which executed ticket is recorded in which block when the pass starts. */
  function Snapshot(ts: Tickets): map<Id, Block> {
    map id | id in ts && Executed(ts[id]) :: ts[id].block.value
  }

  /** One ticket recorded in b, given the lookup of b. */
  function Settle(w: Inputs, x: Ticket, b: Block): Ticket {
    match Inspect(w, b)
    case Failure => x
    case Inspected(number, canonical) =>
      if number.None? || number.value > w.number then x
      else if canonical != Some(b) then
        if x.stored && Reconcilable(x.status) then x.(status := ReconciliationRequired) else x
      else if x.stored && x.status == InBlockSuccess then x.(status := Finalized, block := Some(w.finalized))
      else x
  }

  function SettleBlocks(w: Inputs, snap: map<Id, Block>, batch: set<Block>, ts: Tickets): Tickets {
    map id | id in ts :: if id in snap && snap[id] in batch then Settle(w, ts[id], snap[id]) else ts[id]
  }

  predicate AnyFailure(w: Inputs, bs: seq<Block>) {
    exists b | b in bs :: Inspect(w, b) == Failure
  }

  function BatchAt(w: Inputs, blocks: seq<Block>, lo: nat): (batch: seq<Block>)
    requires w.concurrency >= 1 && lo < |blocks|
    ensures batch != [] && |batch| == Min(w.concurrency, |blocks| - lo)
    ensures forall i | 0 <= i < |batch| :: batch[i] == blocks[lo + i]
  {
    blocks[lo..Min(|blocks|, lo + w.concurrency)]
  }

  /** The pass from some batch on: every block of a batch is settled before a failure in it ends the pass. */
  function Pass(w: Inputs, snap: map<Id, Block>, blocks: seq<Block>, lo: nat, k: nat, ts: Tickets): (Tickets, bool)
    requires w.concurrency >= 1
    decreases |blocks| - lo
  {
    if lo >= |blocks| then (ts, false)
    else
      var batch := BatchAt(w, blocks, lo);
      var settled := SettleBlocks(w, snap, Members(batch), w.others(k, ts));
      if AnyFailure(w, batch) then (settled, true) else Pass(w, snap, blocks, lo + |batch|, k + 1, settled)
  }

  // ---------- grouping ----------

  /** The blocks of the first n tickets, in the order their first ticket appears. */
  function FirstSeen(ts: Tickets, order: seq<Id>, n: nat): seq<Block>
    requires n <= |order|
  {
    if n == 0 then []
    else
      var before := FirstSeen(ts, order, n - 1);
      var id := order[n - 1];
      if id in ts && Executed(ts[id]) && ts[id].block.value !in before then before + [ts[id].block.value] else before
  }

  /** The tickets of the first n that are recorded in b, in order. */
  function InBlock(ts: Tickets, order: seq<Id>, n: nat, b: Block): seq<Id>
    requires n <= |order|
  {
    if n == 0 then []
    else
      var id := order[n - 1];
      InBlock(ts, order, n - 1, b) + if id in ts && Executed(ts[id]) && ts[id].block.value == b then [id] else []
  }

  lemma {:induction false} InBlockExactly(ts: Tickets, order: seq<Id>, n: nat, b: Block, id: Id)
    requires n <= |order|
    ensures id in InBlock(ts, order, n, b) <==>
              id in order[..n] && id in ts && Executed(ts[id]) && ts[id].block.value == b
  {
    if n > 0 {
      InBlockExactly(ts, order, n - 1, b, id);
      assert order[..n] == order[..n - 1] + [order[n - 1]];
    }
  }

  lemma {:induction false} FirstSeenExactly(ts: Tickets, order: seq<Id>, n: nat)
    requires n <= |order|
    ensures forall i, j | 0 <= i < j < |FirstSeen(ts, order, n)| ::
              FirstSeen(ts, order, n)[i] != FirstSeen(ts, order, n)[j]
    ensures forall id | id in order[..n] && id in ts && Executed(ts[id]) ::
              ts[id].block.value in FirstSeen(ts, order, n)
  {
    if n > 0 {
      FirstSeenExactly(ts, order, n - 1);
      assert order[..n] == order[..n - 1] + [order[n - 1]];
    }
  }

  /** The pass is about the executed tickets, each under the block it was recorded in, and looks up no other block. */
  lemma {:induction false} OnlyExecutedAreLookedUp(ts: Tickets, order: seq<Id>, n: nat, b: Block)
    requires n <= |order|
    ensures forall id :: id in Snapshot(ts) <==> id in ts && ts[id].status == InBlockSuccess && ts[id].block.Some?
    ensures forall id | id in Snapshot(ts) :: Some(Snapshot(ts)[id]) == ts[id].block
    ensures b in FirstSeen(ts, order, n) <==>
              exists i | 0 <= i < n :: order[i] in ts && ts[order[i]].status == InBlockSuccess
                                       && ts[order[i]].block == Some(b)
  {
    if n > 0 { OnlyExecutedAreLookedUp(ts, order, n - 1, b); }
  }

  /** The blocks of the first n tickets by first appearance, and under each the tickets recorded in it, in order. */
  ghost predicate Grouped(ts: Tickets, order: seq<Id>, n: nat, blocks: seq<Block>, byBlock: map<Block, seq<Id>>)
    requires n <= |order|
  {
    && blocks == FirstSeen(ts, order, n)
    && (forall b :: b in byBlock <==> b in blocks)
    && (forall b :: InBlock(ts, order, n, b) == if b in byBlock then byBlock[b] else [])
  }

  lemma GroupTurn(ts: Tickets, order: seq<Id>, i: nat, blocks: seq<Block>, byBlock: map<Block, seq<Id>>)
    requires i < |order| && Grouped(ts, order, i, blocks, byBlock)
    ensures var id := order[i];
            if id !in ts || !Executed(ts[id]) then Grouped(ts, order, i + 1, blocks, byBlock)
            else
              var b := ts[id].block.value;
              Grouped(ts, order, i + 1, if b in byBlock then blocks else blocks + [b],
                      byBlock[b := (if b in byBlock then byBlock[b] else []) + [id]])
  {}

  predicate Lists(order: seq<Id>, ts: Tickets) {
    forall id | id in ts :: id in order
  }

  // ---------- what a pass does ----------

  /** What the node replies is about its chain: `height` of a block, and the canonical block at a height. */
  ghost predicate Honest(w: Inputs, height: Block -> int, canonical: int -> Block) {
    && (forall b: Block :: w.header(b).Numbered? ==> w.header(b).number == height(b))
    && (forall b: Block, n: int :: w.hashAt(b, n).HashIs? ==> w.hashAt(b, n).block == canonical(n))
  }

  /** Nothing but the pass itself finalizes this ticket; whatever else happens to it, and to any other, is free. */
  ghost predicate OthersDoNotFinalize(w: Inputs, id: Id) {
    forall k: nat, ts: Tickets ::
      id in w.others(k, ts) && w.others(k, ts)[id].status == Finalized ==> id in ts && ts[id].status == Finalized
  }

  /** Recovery finalizes only real ancestors: whatever the batching, the failed requests and the concurrent changes, a
      ticket finalized in a pass was recorded, when the pass started, in the canonical block of its height, at or below
      the finalized head. */
  lemma {:induction false} FinalizesOnlyAncestors(w: Inputs, snap: map<Id, Block>, blocks: seq<Block>, lo: nat, k: nat,
                                                  ts: Tickets, id: Id, height: Block -> int, canonical: int -> Block)
    requires w.concurrency >= 1 && Honest(w, height, canonical) && OthersDoNotFinalize(w, id)
    requires id in ts ==> ts[id].status != Finalized
    requires var r := Pass(w, snap, blocks, lo, k, ts).0; id in r && r[id].status == Finalized
    ensures id in snap && canonical(height(snap[id])) == snap[id] && height(snap[id]) <= w.number
    decreases |blocks| - lo
  {
    if lo < |blocks| {
      var batch := BatchAt(w, blocks, lo);
      var t1 := w.others(k, ts);
      var settled := SettleBlocks(w, snap, Members(batch), t1);
      if id in settled && settled[id].status == Finalized {
        assert t1[id].status != Finalized;
        assert w.header(snap[id]).Numbered?;
      } else {
        FinalizesOnlyAncestors(w, snap, blocks, lo + |batch|, k + 1, settled, id, height, canonical);
      }
    }
  }

  // ---------- which tickets change, and how ----------

  /** The node replied that the canonical block at b's height, at or below the finalized head, is this one. */
  predicate CanonicalAt(w: Inputs, b: Block, hash: Block) {
    w.header(b).Numbered? && w.header(b).number <= w.number && w.hashAt(b, w.header(b).number) == HashIs(hash)
  }

  /** Only the ticket of a block that is answered changes, and it changes exactly as the answer says. */
  lemma SettlesExactly(w: Inputs, snap: map<Id, Block>, batch: seq<Block>, t1: Tickets, id: Id)
    requires id in t1
    ensures var d := SettleBlocks(w, snap, Members(batch), t1);
      && (d[id].status == Finalized && t1[id].status != Finalized <==>
            id in snap && snap[id] in batch && CanonicalAt(w, snap[id], snap[id])
            && t1[id].stored && t1[id].status == InBlockSuccess)
      && (d[id].status == ReconciliationRequired && t1[id].status != ReconciliationRequired <==>
            id in snap && snap[id] in batch && (exists c: Block :: c != snap[id] && CanonicalAt(w, snap[id], c))
            && t1[id].stored && Reconcilable(t1[id].status))
      && (d[id].status == t1[id].status ==> d[id] == t1[id])
      && (d[id].status != t1[id].status ==>
            d[id] == t1[id].(status := d[id].status,
                             block := if d[id].status == Finalized then Some(w.finalized) else t1[id].block))
  {
    if id in snap {
      var b := snap[id];
      if w.header(b).Numbered? && w.hashAt(b, w.header(b).number).HashIs? {
        assert CanonicalAt(w, b, w.hashAt(b, w.header(b).number).block) <==> w.header(b).number <= w.number;
      }
    }
  }

  /** One of the two requests for b fails; the second is made only for a height at or below the finalized head. */
  predicate LookupFails(w: Inputs, b: Block) {
    match w.header(b)
    case HeaderFails => true
    case NoNumber => false
    case Numbered(n) => n <= w.number && w.hashAt(b, n) == HashFails
  }

  /** A pass raises exactly when some request of a batch it reaches failed; no later batch is looked up then. */
  lemma {:induction false} RaisesIff(w: Inputs, snap: map<Id, Block>, blocks: seq<Block>, lo: nat, k: nat, ts: Tickets)
    requires w.concurrency >= 1
    ensures Pass(w, snap, blocks, lo, k, ts).1 <==> exists i | lo <= i < |blocks| :: LookupFails(w, blocks[i])
    decreases |blocks| - lo
  {
    if lo < |blocks| {
      var batch := BatchAt(w, blocks, lo);
      var settled := SettleBlocks(w, snap, Members(batch), w.others(k, ts));
      if AnyFailure(w, batch) {
        var b :| b in batch && Inspect(w, b) == Failure;
        var j :| 0 <= j < |batch| && batch[j] == b;
        assert blocks[lo + j] == b && LookupFails(w, blocks[lo + j]);
      } else {
        RaisesIff(w, snap, blocks, lo + |batch|, k + 1, settled);
        forall i | lo <= i < lo + |batch| ensures !LookupFails(w, blocks[i]) {
          assert blocks[i] == batch[i - lo] && batch[i - lo] in batch && Inspect(w, batch[i - lo]) != Failure;
        }
      }
    }
  }

  /** A failed request does not keep its neighbours waiting: before the pass raises, the batch it belongs to is settled,
      so an executed ticket whose canonical block was confirmed in that batch is finalized there. */
  lemma SettledBesideAFailure(w: Inputs, snap: map<Id, Block>, blocks: seq<Block>, lo: nat, k: nat, ts: Tickets,
                              id: Id, bad: nat)
    requires w.concurrency >= 1 && lo <= bad < Min(|blocks|, lo + w.concurrency) && LookupFails(w, blocks[bad])
    requires id in snap && snap[id] in blocks[lo..Min(|blocks|, lo + w.concurrency)]
    requires CanonicalAt(w, snap[id], snap[id])
    requires var t1 := w.others(k, ts); id in t1 && t1[id].stored && t1[id].status == InBlockSuccess
    ensures var (d, raised) := Pass(w, snap, blocks, lo, k, ts);
            raised && id in d && d[id] == w.others(k, ts)[id].(status := Finalized, block := Some(w.finalized))
  {
    var batch := BatchAt(w, blocks, lo);
    assert batch[bad - lo] == blocks[bad] && Inspect(w, blocks[bad]) == Failure;
    assert AnyFailure(w, batch);
    assert snap[id] in Members(batch);
  }

  lemma SettleMore(w: Inputs, snap: map<Id, Block>, done: set<Block>, more: set<Block>, ts: Tickets)
    requires done !! more
    ensures SettleBlocks(w, snap, more, SettleBlocks(w, snap, done, ts)) == SettleBlocks(w, snap, done + more, ts)
  {}

  lemma SplitBlocks(blocks: seq<Block>, lo: nat, mid: nat)
    requires Distinct(blocks) && lo <= mid <= |blocks|
    ensures Members(blocks[lo..mid]) !! Members(blocks[mid..])
    ensures Members(blocks[lo..mid]) + Members(blocks[mid..]) == Members(blocks[lo..])
  {
    assert blocks[lo..] == blocks[lo..mid] + blocks[mid..];
    forall b | b in blocks[lo..mid] ensures b !in blocks[mid..] {
      var i :| lo <= i < mid && blocks[i] == b;
      assert forall j | 0 <= j < |blocks| - mid :: blocks[mid..][j] == blocks[mid + j];
    }
  }

  /** When nothing else happens and no request fails, a pass settles every block, however it is cut into batches. */
  lemma {:induction false} QuietPassSettlesAll(w: Inputs, snap: map<Id, Block>, blocks: seq<Block>, lo: nat, k: nat,
                                               ts: Tickets)
    requires w.concurrency >= 1 && Distinct(blocks) && lo <= |blocks| && !AnyFailure(w, blocks)
    requires forall i: nat, t: Tickets :: w.others(i, t) == t
    ensures Pass(w, snap, blocks, lo, k, ts) == (SettleBlocks(w, snap, Members(blocks[lo..]), ts), false)
    decreases |blocks| - lo
  {
    if lo < |blocks| {
      var batch := BatchAt(w, blocks, lo);
      var settled := SettleBlocks(w, snap, Members(batch), ts);
      assert !AnyFailure(w, batch) by {
        assert forall b | b in batch :: b in blocks;
      }
      SplitBlocks(blocks, lo, lo + |batch|);
      assert batch == blocks[lo..lo + |batch|];
      SettleMore(w, snap, Members(batch), Members(blocks[lo + |batch|..]), ts);
      QuietPassSettlesAll(w, snap, blocks, lo + |batch|, k + 1, settled);
    } else {
      assert Members(blocks[lo..]) == {} && SettleBlocks(w, snap, {}, ts) == ts;
    }
  }

  // ---------- the method ----------

  class FinalityPass {
    var tickets: Tickets
    var order: seq<Id>

    constructor (tickets: Tickets, order: seq<Id>)
      ensures this.tickets == tickets && this.order == order
    {
      this.tickets, this.order := tickets, order;
    }

    /** The blocks to look up and the tickets of each. */
    method GroupByBlock() returns (blocks: seq<Block>, byBlock: map<Block, seq<Id>>)
      ensures Grouped(tickets, order, |order|, blocks, byBlock)
    {
      blocks, byBlock := [], map[];
      var i := 0;
      while i < |order|
        invariant i <= |order| && Grouped(tickets, order, i, blocks, byBlock)
      {
        var id := order[i];
        GroupTurn(tickets, order, i, blocks, byBlock);
        i := i + 1;
        if id !in tickets || !Executed(tickets[id]) { continue; }
        var b := tickets[id].block.value;
        if b !in byBlock {
          blocks := blocks + [b];
          byBlock := byBlock[b := []];
        }
        byBlock := byBlock[b := byBlock[b] + [id]];
      }
    }

    /** The tickets recorded in one block, one after the other. */
    method SettleBlock(w: Inputs, b: Block, ids: seq<Id>)
      modifies `tickets
      ensures tickets == map id | id in old(tickets) ::
                if id in ids then Settle(w, old(tickets)[id], b) else old(tickets)[id]
    {
      ghost var before := tickets;
      var i := 0;
      while i < |ids|
        invariant i <= |ids| && tickets.Keys == before.Keys
        invariant forall id | id in before ::
                    tickets[id] == if id in ids[..i] then Settle(w, before[id], b) else before[id]
      {
        var id := ids[i];
        assert ids[..i + 1] == ids[..i] + [id];
        if id in tickets && id !in ids[..i] { tickets := tickets[id := Settle(w, tickets[id], b)]; }
        i := i + 1;
      }
      assert ids[..|ids|] == ids;
    }

    /** The answers of one batch, in order; an error is remembered and the other blocks are still settled. */
    method SettleBatch(w: Inputs, batch: seq<Block>, byBlock: map<Block, seq<Id>>, ghost snap: map<Id, Block>)
      returns (failed: bool)
      requires Distinct(batch) && Indexes(byBlock, snap, batch)
      modifies `tickets
      ensures tickets == SettleBlocks(w, snap, Members(batch), old(tickets))
      ensures failed == AnyFailure(w, batch)
    {
      failed := false;
      ghost var before := tickets;
      var i := 0;
      while i < |batch|
        invariant i <= |batch|
        invariant tickets == SettleBlocks(w, snap, Members(batch[..i]), before)
        invariant failed == AnyFailure(w, batch[..i])
      {
        var b := batch[i];
        ghost var now := tickets;
        assert batch[..i + 1] == batch[..i] + [b];
        assert Members(batch[..i + 1]) == Members(batch[..i]) + {b};
        if Inspect(w, b) == Failure { failed := true; }
        SettleBlock(w, b, byBlock[b]);
        SettledOne(w, snap, b, byBlock[b], now, tickets);
        SettleMore(w, snap, Members(batch[..i]), {b}, before);
        i := i + 1;
      }
      assert batch[..|batch|] == batch;
    }

    /** `_reconcile_finalized`. */
    method ReconcileFinalized(w: Inputs) returns (raised: bool)
      requires w.concurrency >= 1 && Lists(order, tickets)
      modifies `tickets
      ensures (tickets, raised) == Pass(w, Snapshot(old(tickets)), FirstSeen(old(tickets), order, |order|), 0, 0,
                                        old(tickets))
    {
      ghost var start, snap := tickets, Snapshot(tickets);
      var blocks, byBlock := GroupByBlock();
      FirstSeenExactly(start, order, |order|);
      GroupedIndexes(start, order, blocks, byBlock);
      var lo, k := 0, 0;
      while lo < |blocks|
        invariant Pass(w, snap, blocks, 0, 0, start) == Pass(w, snap, blocks, lo, k, tickets)
        decreases |blocks| - lo
      {
        var batch := BatchAt(w, blocks, lo);
        tickets := w.others(k, tickets);
        var failed := SettleBatch(w, batch, byBlock, snap);
        if failed { return true; }
        lo, k := lo + |batch|, k + 1;
      }
      return false;
    }
  }

  /** The index built at the start lists, under each block, the tickets recorded in it. */
  ghost predicate Indexes(byBlock: map<Block, seq<Id>>, snap: map<Id, Block>, blocks: seq<Block>) {
    forall b | b in blocks :: b in byBlock && forall id :: id in byBlock[b] <==> id in snap && snap[id] == b
  }

  lemma GroupedIndexes(ts: Tickets, order: seq<Id>, blocks: seq<Block>, byBlock: map<Block, seq<Id>>)
    requires Lists(order, ts)
    requires Grouped(ts, order, |order|, blocks, byBlock)
    ensures Indexes(byBlock, Snapshot(ts), blocks)
  {
    assert order[..|order|] == order;
    forall b, id | b in byBlock ensures id in byBlock[b] <==> id in Snapshot(ts) && Snapshot(ts)[id] == b {
      InBlockExactly(ts, order, |order|, b, id);
    }
  }

  lemma SettledOne(w: Inputs, snap: map<Id, Block>, b: Block, ids: seq<Id>, before: Tickets, after: Tickets)
    requires forall id :: id in ids <==> id in snap && snap[id] == b
    requires after == map id | id in before :: if id in ids then Settle(w, before[id], b) else before[id]
    ensures after == SettleBlocks(w, snap, {b}, before)
  {}
}
