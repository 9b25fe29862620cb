/** The tracker's bookkeeping of transactions and blocks: one function for each stretch of code between two awaits. */
module TrackerModel {
  import opened Options
  import opened TxLifecycle

  type BlockHash = int
  type TxHash = int
  type Endpoint = int

  datatype PoolResult = Unchecked | Absent | Present | Unusable

  /** The recovery diagnostics that later decisions or promises depend on. */
  datatype Recovery = Recovery(
    scanStart: Option<int>,
    scanEnd: int,
    complete: bool,
    missing: seq<(int, int)>,
    poolEndpoint: Option<Endpoint>,
    poolResult: PoolResult)

  datatype Tx = Tx(status: TxStatus, createdAt: int, submissionEndpoint: Option<Endpoint>, recovery: Recovery)

  datatype Task = Unstarted | Running | Ready | Broken

  /** Everything cached for one block hash. `changes` and the two fetch counts are the entry's own history. */
  datatype Entry = Entry(
    candidates: set<TxHash>,
    index: Task,
    events: Task,
    applied: set<TxHash>,
    changes: multiset<TxHash>,
    indexFetches: nat,
    eventFetches: nat)

  const NO_ENTRY := Entry({}, Unstarted, Unstarted, {}, multiset{}, 0, 0)

  /** `txs` are the tickets themselves; the tracker no longer finds those in `evicted`, which retention has dropped. */
  datatype Tracker = Tracker(txs: map<TxHash, Tx>, blocks: map<BlockHash, Entry>, evicted: set<TxHash>)

  predicate Stored(t: Tracker, h: TxHash) {
    h in t.txs && h !in t.evicted
  }

  function EntryOf(t: Tracker, b: BlockHash): Entry {
    if b in t.blocks then t.blocks[b] else NO_ENTRY
  }

  function PutEntry(t: Tracker, b: BlockHash, e: Entry): Tracker {
    t.(blocks := t.blocks[b := e])
  }

  function SetStatus(t: Tracker, h: TxHash, s: TxStatus): Tracker
    requires h in t.txs
  {
    t.(txs := t.txs[h := t.txs[h].(status := s)])
  }

  function Active(t: Tracker): set<TxHash> {
    set h | h in t.txs && !Terminal(t.txs[h].status)
  }

  predicate Recoverable(s: TxStatus) {
    s in {Submitting, Submitted, Retracted}
  }

  // ---------- blocks ----------

  /** `prepare_recovery_block`. */
  function Prepare(t: Tracker, b: BlockHash): Tracker {
    var e := EntryOf(t, b);
    PutEntry(t, b, e.(candidates := e.candidates + set h | h in t.txs && Recoverable(t.txs[h].status)))
  }

  function AddCandidate(t: Tracker, b: BlockHash, h: TxHash): Tracker {
    var e := EntryOf(t, b);
    PutEntry(t, b, e.(candidates := e.candidates + {h}))
  }

  /** The first stretch of `resolve_block`: one index fetch per cached block. */
  function StartIndex(t: Tracker, b: BlockHash): Tracker {
    var e := EntryOf(t, b);
    if e.index == Unstarted then PutEntry(t, b, e.(index := Running, indexFetches := e.indexFetches + 1)) else t
  }

  function Matches(e: Entry, body: set<TxHash>): set<TxHash> {
    e.candidates * body - e.applied
  }

  /** The second stretch, once the index is there: candidates outside the block are settled for good, and if any
      candidate is inside, the events are fetched once. */
  function UseIndex(t: Tracker, b: BlockHash, body: set<TxHash>): Tracker {
    var e := EntryOf(t, b);
    var e1 := e.(applied := e.applied + (e.candidates - body));
    PutEntry(t, b,
      if Matches(e, body) == {} || e.events != Unstarted then e1
      else e1.(events := Running, eventFetches := e.eventFetches + 1))
  }

  datatype Verdict = Executed | Reverted | Unresolved

  function VerdictStatus(v: Verdict): TxStatus {
    match v
    case Executed => InBlockSuccess
    case Reverted => InBlockFailed
    case Unresolved => ReconciliationRequired
  }

  function Settle(t: Tracker, b: BlockHash, h: TxHash): Tracker {
    var e := EntryOf(t, b);
    PutEntry(t, b, e.(applied := e.applied + {h}))
  }

  function NoteChange(t: Tracker, b: BlockHash, h: TxHash): Tracker {
    var e := EntryOf(t, b);
    PutEntry(t, b, e.(changes := e.changes + multiset{h}))
  }

  /** One mark made on behalf of a block. An illegal one raises and changes no status. */
  function MarkFromBlock(t: Tracker, b: BlockHash, h: TxHash, s: TxStatus): (Tracker, bool)
    requires h in t.txs
  {
    if Legal(t.txs[h].status, s) then (NoteChange(SetStatus(t, h, s), b, h), false) else (t, true)
  }

  /** One turn of the loop over matches when the events are known. Also says whether the loop raised. */
  function ApplyMatch(t: Tracker, b: BlockHash, h: TxHash, v: Verdict): (Tracker, bool) {
    if h in EntryOf(t, b).applied then (t, false)
    else if !Stored(t, h) then (Settle(t, b, h), false)
    else MarkFromBlock(Settle(t, b, h), b, h, VerdictStatus(v))
  }

  /** One turn of the loop over matches when the events could not be fetched: `applied` is not consulted. */
  function FailMatch(t: Tracker, b: BlockHash, h: TxHash): (Tracker, bool) {
    if !Stored(t, h) then (Settle(t, b, h), false)
    else MarkFromBlock(Settle(t, b, h), b, h, ReconciliationRequired)
  }

  // ---------- diagnostics and forced reconciliation ----------

  function StartedAt(r: Recovery, start: int): Recovery {
    if r.scanStart.None? then r.(scanStart := Some(start)) else r
  }

  /** `mark_reconciliation_required`: ignored unless the ticket is still open. */
  function Reconcile(x: Tx, complete: bool, missing: seq<(int, int)>): Tx {
    if Reconcilable(x.status)
    then x.(status := ReconciliationRequired, recovery := x.recovery.(complete := complete, missing := missing))
    else x
  }

  function RecordComplete(x: Tx, first: int, last: int): Tx {
    if Terminal(x.status) then x
    else x.(recovery := StartedAt(x.recovery, first).(scanEnd := last, complete := true, missing := []))
  }

  function RecordIncomplete(x: Tx, start: int, end: int, now: int, staleMs: int): Tx {
    if Terminal(x.status) then x
    else
      var r := StartedAt(x.recovery, start).(scanEnd := end, complete := false, missing := [(start, end)]);
      var y := x.(recovery := r);
      if now - x.createdAt < staleMs then y else Reconcile(y, false, [(start, end)])
  }

  function RecordPool(x: Tx, first: int, last: int, endpoint: Endpoint, result: PoolResult): Tx {
    x.(recovery := StartedAt(x.recovery, first).(scanEnd := last, complete := true, missing := [],
                                                  poolEndpoint := Some(endpoint), poolResult := result))
  }

  function RecordEndpoint(x: Tx, endpoint: Endpoint): Tx {
    if x.submissionEndpoint.Some? then x else x.(submissionEndpoint := Some(endpoint))
  }

  function AllTxs(t: Tracker, f: Tx -> Tx): Tracker {
    t.(txs := map h | h in t.txs :: f(t.txs[h]))
  }
}
