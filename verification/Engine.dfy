/** The recovery engine as a step system: one event per stretch of code between two awaits, of any of its tasks.
    The node, the chain and the clock are arbitrary inputs; `Honest` lists what is assumed of them. */
module Engine {
  import opened Options
  import opened Shared
  import opened TxLifecycle
  import opened TrackerModel

  /** The extrinsic hashes in each block (a block hash determines its block), and the configuration. */
  datatype World = World(body: BlockHash -> set<TxHash>, maxBlocks: int, concurrency: int, staleMs: int)

  /** Where a running `resolve_block` stands. */
  datatype Pc =
    | Queued
    | AwaitIndex
    | AwaitEvents(matches: seq<TxHash>)
    | Applying(rest: seq<TxHash>)
    | Failing(rest: seq<TxHash>)
    | Returned
    | Raised(cancelled: bool)

  datatype Resolve = Resolve(block: BlockHash, pc: Pc)

  /** One height of a finalized-scan batch: its hash is being asked for, its block is being resolved, or it failed. */
  datatype Kid = Asking | Following(id: int) | Refused(cancelled: bool)

  datatype PoolAnswer = Unavailable | NotAList | Listing(hashes: set<TxHash>)

  /** The finalized scan that owns the recovery lock, if any. */
  datatype Scan =
    | Idle
    | Batch(first: int, last: int, lo: int, kids: seq<Kid>)
    | Settling(first: int, last: int, stale: set<TxHash>)
    | AskingPool(first: int, last: int, endpoint: Endpoint, rest: seq<TxHash>)
    | Judging(first: int, last: int, endpoint: Endpoint, pool: PoolAnswer, rest: seq<TxHash>)

  /** Transaction h and a block. */
  datatype Hit = Hit(block: BlockHash, h: TxHash)

  /** `chain[n]` is the finalized block at height n. The last three are history. `seen`: the matches taken, each a turn
      of a loop over the matches of a block. `skipped`: the transactions a finalized scan could not make candidates when
      it took up a block containing them, because their tickets were executed just then. `scanned`: the heights a
      finalized scan has resolved. */
  datatype State = State(
    chain: seq<BlockHash>,
    now: int,
    tracker: Tracker,
    resolves: map<int, Resolve>,
    cursor: Option<int>,
    scan: Scan,
    seen: set<Hit>,
    skipped: set<Hit>,
    scanned: set<int>)

  datatype Event =
    // the world
    | Finalize(block: BlockHash)
    | Tick(now: int)
    // submission and subscription messages
    | Submit(h: TxHash)
    | NodeReady(h: TxHash, endpoint: Endpoint)
    | NodeInBlock(h: TxHash, block: BlockHash, endpoint: Endpoint, id: int)
    | Mark(h: TxHash, status: TxStatus)
    | Evict(h: TxHash)                // retention drops a closed ticket's entry
    // block resolution
    | Begin(id: int)
    | Explore(block: BlockHash, id: int)
    | IndexDone(block: BlockHash, ok: bool)
    | ResumeIndex(id: int, matches: seq<TxHash>)
    | EventsDone(block: BlockHash, ok: bool)
    | ResumeEvents(id: int)
    | ApplyOne(id: int, verdict: Verdict)
    | FailOne(id: int)
    | Cancel(id: int)
    | Prune(block: BlockHash)
    // the finalized scan
    | ScanBegin(finalized: int)
    | KidHash(k: nat, id: int)
    | KidRefused(k: nat, cancelled: bool)
    | BatchEnd
    | ScanAbort
    | BestFailed
    | BestDone(order: seq<TxHash>, endpoint: Endpoint)
    | PoolAnswered(pool: PoolAnswer)
    | JudgeOne
    | JudgeEnd

  predicate InFlight(pc: Pc) { !pc.Returned? && !pc.Raised? }

  datatype Outcome = Resolved | Failed | Cancelled

  predicate KidDone(s: State, k: Kid) {
    match k
    case Asking => false
    case Following(id) => id in s.resolves && !InFlight(s.resolves[id].pc)
    case Refused(_) => true
  }

  function KidOutcome(s: State, k: Kid): Outcome
    requires KidDone(s, k)
  {
    match k
    case Following(id) =>
      var pc := s.resolves[id].pc;
      if pc.Returned? then Resolved else if pc.cancelled then Cancelled else Failed
    case Refused(cancelled) => if cancelled then Cancelled else Failed
  }

  function Outcomes(s: State, kids: seq<Kid>): seq<Outcome>
    requires forall k | k in kids :: KidDone(s, k)
  {
    seq(|kids|, i requires 0 <= i < |kids| => KidOutcome(s, kids[i]))
  }

  /** How many results the loop over a batch consumes before the first one that is not a success. */
  function GoodPrefix(outs: seq<Outcome>): (n: nat)
    ensures n <= |outs|
    ensures forall i | 0 <= i < n :: outs[i] == Resolved
    ensures n < |outs| ==> outs[n] != Resolved
  {
    if outs == [] || outs[0] != Resolved then 0 else 1 + GoodPrefix(outs[1..])
  }

  function Heights(lo: int, count: nat): (hs: set<int>)
    ensures forall n :: n in hs <==> lo <= n < lo + count
  {
    if count == 0 then {} else Heights(lo, count - 1) + {lo + count - 1}
  }

  function Kids(w: World, lo: int, last: int): seq<Kid>
    requires w.concurrency >= 1 && lo <= last
  {
    var n := if w.concurrency < last - lo + 1 then w.concurrency else last - lo + 1;
    seq(n, _ => Asking)
  }

  predicate IsStale(w: World, now: int, x: Tx) {
    Recoverable(x.status) && now - x.createdAt >= w.staleMs
  }

  function Stale(w: World, s: State): set<TxHash> {
    set h | h in s.tracker.txs && IsStale(w, s.now, s.tracker.txs[h])
  }

  // ---------- which events the code can take next ----------

  predicate PcIs(s: State, id: int, p: Pc -> bool) {
    id in s.resolves && p(s.resolves[id].pc)
  }

  ghost predicate CanDo(w: World, s: State, e: Event) {
    match e
    case Finalize(_) => true
    case Tick(now) => now >= s.now
    case Submit(h) => h !in s.tracker.txs && s.cursor.Some?
    case NodeReady(h, _) => h in s.tracker.txs
    case NodeInBlock(h, _, _, id) => h in s.tracker.txs && id !in s.resolves
    case Mark(h, status) =>
      h in s.tracker.txs && Legal(s.tracker.txs[h].status, status)
      && status in {Invalid, Dropped, Usurped, Retracted, Finalized, ReconciliationRequired, ClientClosed}
    case Evict(h) => h in s.tracker.txs && Terminal(s.tracker.txs[h].status)
    case Begin(id) => PcIs(s, id, (pc: Pc) => pc.Queued?)
    case Explore(_, id) => id !in s.resolves
    case IndexDone(b, _) => EntryOf(s.tracker, b).index == Running
    case ResumeIndex(id, matches) =>
      && PcIs(s, id, (pc: Pc) => pc.AwaitIndex?)
      && var b := s.resolves[id].block;
         && EntryOf(s.tracker, b).index in {Ready, Broken}
         && Members(matches) == Matches(EntryOf(s.tracker, b), w.body(b))
    case EventsDone(b, _) => EntryOf(s.tracker, b).events == Running
    case ResumeEvents(id) =>
      PcIs(s, id, (pc: Pc) => pc.AwaitEvents?) && EntryOf(s.tracker, s.resolves[id].block).events in {Ready, Broken}
    case ApplyOne(id, _) => PcIs(s, id, (pc: Pc) => pc.Applying?)
    case FailOne(id) => PcIs(s, id, (pc: Pc) => pc.Failing?)
    case Cancel(id) => PcIs(s, id, (pc: Pc) => pc.Queued? || pc.AwaitIndex? || pc.AwaitEvents?)
    case Prune(b) => b in s.tracker.blocks && EntryOf(s.tracker, b).index in {Ready, Broken}
    case ScanBegin(_) => s.scan.Idle?
    case KidHash(k, id) =>
      && s.scan.Batch? && k < |s.scan.kids| && s.scan.kids[k].Asking? && id !in s.resolves
      && 0 <= s.scan.lo + k < |s.chain|
    case KidRefused(k, _) => s.scan.Batch? && k < |s.scan.kids| && s.scan.kids[k].Asking?
    case BatchEnd => s.scan.Batch? && forall k | k in s.scan.kids :: KidDone(s, k)
    case ScanAbort => !s.scan.Idle?
    case BestFailed => s.scan.Settling?
    case BestDone(order, _) => s.scan.Settling? && Members(order) == Stale(w, s)
    case PoolAnswered(_) => s.scan.AskingPool?
    case JudgeOne => s.scan.Judging? && s.scan.rest != [] && s.scan.rest[0] in s.tracker.txs
    case JudgeEnd => s.scan.Judging? && s.scan.rest == []
  }

  /** What is assumed of the world: no transaction is already finalized when it is submitted, finalized heads are
      really finalized, and no cached block is pruned while a resolution of it is running. That a finalized height
      has one canonical hash, and that an index lists the block's own extrinsics, is built into `chain` and `body`. */
  ghost predicate Honest(w: World, s: State, e: Event) {
    match e
    case Submit(h) => forall n | 0 <= n < |s.chain| :: h !in w.body(s.chain[n])
    case ScanBegin(f) => 0 <= f < |s.chain|
    case Prune(b) => forall id | id in s.resolves && s.resolves[id].block == b :: !InFlight(s.resolves[id].pc)
    case _ => true
  }

  // ---------- what an event does ----------

  function SetPc(s: State, id: int, pc: Pc): State
    requires id in s.resolves
  {
    s.(resolves := s.resolves[id := s.resolves[id].(pc := pc)])
  }

  function NewTx(now: int): Tx {
    Tx(Submitting, now, None, Recovery(None, 0, false, [], None, Unchecked))
  }

  function Ready0(x: Tx, endpoint: Endpoint): Tx {
    var y := RecordEndpoint(x, endpoint);
    if Legal(y.status, Submitted) then y.(status := Submitted) else y
  }

  function InBlock0(x: Tx, endpoint: Endpoint): Tx {
    var y := RecordEndpoint(x, endpoint);
    if y.status in {Created, Submitting} then y.(status := Submitted) else y
  }

  function PutTx(t: Tracker, h: TxHash, x: Tx): Tracker { t.(txs := t.txs[h := x]) }

  /** `Prepare` and the first stretch of `resolve_block`, which run without an await between them. */
  function Follow(s: State, b: BlockHash, id: int): State {
    s.(tracker := StartIndex(Prepare(s.tracker, b), b), resolves := s.resolves[id := Resolve(b, AwaitIndex)])
  }

  function AfterTurn(rest: seq<TxHash>, raised: bool, more: Pc): Pc {
    if raised then Raised(false) else if rest == [] then Returned else more
  }

  function DoResolve(w: World, s: State, e: Event): State
    requires CanDo(w, s, e)
    requires e.Begin? || e.Explore? || e.IndexDone? || e.ResumeIndex? || e.EventsDone? || e.ResumeEvents? || e.ApplyOne?
          || e.FailOne? || e.Cancel? || e.Prune?
  {
    match e
    case Begin(id) =>
      SetPc(s.(tracker := StartIndex(s.tracker, s.resolves[id].block)), id, AwaitIndex)
    case Explore(b, id) => Follow(s, b, id)
    case IndexDone(b, ok) =>
      s.(tracker := PutEntry(s.tracker, b, EntryOf(s.tracker, b).(index := if ok then Ready else Broken)))
    case ResumeIndex(id, matches) =>
      var b := s.resolves[id].block;
      if EntryOf(s.tracker, b).index == Broken then SetPc(s, id, Raised(false))
      else SetPc(s.(tracker := UseIndex(s.tracker, b, w.body(b))), id,
                 if matches == [] then Returned else AwaitEvents(matches))
    case EventsDone(b, ok) =>
      s.(tracker := PutEntry(s.tracker, b, EntryOf(s.tracker, b).(events := if ok then Ready else Broken)))
    case ResumeEvents(id) =>
      var ms := s.resolves[id].pc.matches;
      SetPc(s, id, if EntryOf(s.tracker, s.resolves[id].block).events == Ready
                   then AfterTurn(ms, false, Applying(ms)) else AfterTurn(ms, false, Failing(ms)))
    case ApplyOne(id, v) =>
      var rest := s.resolves[id].pc.rest;
      if rest == [] then SetPc(s, id, Returned)
      else
        var (t, raised) := ApplyMatch(s.tracker, s.resolves[id].block, rest[0], v);
        SetPc(s.(tracker := t, seen := s.seen + {Hit(s.resolves[id].block, rest[0])}), id,
              AfterTurn(rest[1..], raised, Applying(rest[1..])))
    case FailOne(id) =>
      var rest := s.resolves[id].pc.rest;
      if rest == [] then SetPc(s, id, Returned)
      else
        var (t, raised) := FailMatch(s.tracker, s.resolves[id].block, rest[0]);
        SetPc(s.(tracker := t, seen := s.seen + {Hit(s.resolves[id].block, rest[0])}), id,
              AfterTurn(rest[1..], raised, Failing(rest[1..])))
    case Cancel(id) => SetPc(s, id, Raised(true))
    case Prune(b) => s.(tracker := s.tracker.(blocks := s.tracker.blocks - {b}))
  }

  function Incomplete(w: World, s: State, start: int, end: int): State {
    s.(tracker := AllTxs(s.tracker, x => RecordIncomplete(x, start, end, s.now, w.staleMs)), scan := Idle)
  }

  function DoScanBegin(w: World, s: State, f: int): State
    requires w.concurrency >= 1
  {
    if s.cursor.None? then s.(cursor := Some(f))
    else
      var c := s.cursor.value;
      if f <= c then s
      else if Active(s.tracker) == {} then s.(cursor := Some(f))
      else if f - c > w.maxBlocks then Incomplete(w, s, c + 1, f)
      else s.(scan := Batch(c + 1, f, c + 1, Kids(w, c + 1, f)))
  }

  function DoBatchEnd(w: World, s: State): State
    requires w.concurrency >= 1 && CanDo(w, s, BatchEnd)
  {
    var Batch(first, last, lo, kids) := s.scan;
    var outs := Outcomes(s, kids);
    var good := GoodPrefix(outs);
    var s1 := s.(cursor := if good == 0 then s.cursor else Some(lo + good - 1),
                 scanned := s.scanned + Heights(lo, good));
    if good < |kids| then
      if outs[good] == Cancelled then s1.(scan := Idle) else Incomplete(w, s1, lo + good, last)
    else if lo + good <= last then s1.(scan := Batch(first, last, lo + good, Kids(w, lo + good, last)))
    else
      var s2 := s1.(tracker := AllTxs(s.tracker, x => RecordComplete(x, first, last)));
      s2.(scan := if Stale(w, s2) == {} then Idle else Settling(first, last, Stale(w, s2)))
  }

  /** One turn of the loop over stale tickets after the pool has answered. */
  function Judge(x: Tx, first: int, last: int, endpoint: Endpoint, pool: PoolAnswer, h: TxHash): Tx {
    if pool.Unavailable? || x.submissionEndpoint != Some(endpoint) || pool.NotAList?
    then Reconcile(RecordPool(x, first, last, endpoint, Unusable), true, [])
    else if h in pool.hashes then RecordPool(x, first, last, endpoint, Present)
    else
      var y := RecordPool(x, first, last, endpoint, Absent);
      if Legal(y.status, NotIncluded) then y.(status := NotIncluded) else y
  }

  /** The mark that ends a ticket as NOT_INCLUDED is attempted, legally or not. */
  predicate JudgedAbsent(x: Tx, endpoint: Endpoint, pool: PoolAnswer, h: TxHash) {
    pool.Listing? && x.submissionEndpoint == Some(endpoint) && h !in pool.hashes
  }

  function DoJudge(w: World, s: State): State
    requires CanDo(w, s, JudgeOne)
  {
    var Judging(first, last, endpoint, pool, rest) := s.scan;
    var h, x := rest[0], s.tracker.txs[rest[0]];
    var t := PutTx(s.tracker, h, Judge(x, first, last, endpoint, pool, h));
    if JudgedAbsent(x, endpoint, pool, h) && !Legal(x.status, NotIncluded)
    then s.(tracker := t, scan := Idle)   // the mark raises and ends the pass
    else s.(tracker := t, scan := s.scan.(rest := rest[1..]))
  }

  function Skips(w: World, s: State, b: BlockHash): set<Hit> {
    set h | h in ExecutedNow(s) && h in w.body(b) :: Hit(b, h)
  }

  function DoScan(w: World, s: State, e: Event): State
    requires w.concurrency >= 1 && CanDo(w, s, e)
    requires e.ScanBegin? || e.KidHash? || e.KidRefused? || e.BatchEnd? || e.ScanAbort? || e.BestFailed? || e.BestDone?
          || e.PoolAnswered? || e.JudgeOne? || e.JudgeEnd?
  {
    match e
    case ScanBegin(f) => DoScanBegin(w, s, f)
    case KidHash(k, id) =>
      var b := s.chain[s.scan.lo + k];
      Follow(s, b, id).(scan := s.scan.(kids := s.scan.kids[k := Following(id)]), skipped := s.skipped + Skips(w, s, b))
    case KidRefused(k, cancelled) => s.(scan := s.scan.(kids := s.scan.kids[k := Refused(cancelled)]))
    case BatchEnd => DoBatchEnd(w, s)
    case ScanAbort => s.(scan := Idle)
    case BestFailed =>
      var stale := s.scan.stale;
      s.(tracker := s.tracker.(txs := map h | h in s.tracker.txs ::
                                 if h in stale then Reconcile(s.tracker.txs[h], false, []) else s.tracker.txs[h]),
         scan := Idle)
    case BestDone(order, endpoint) =>
      s.(scan := if order == [] then Idle else AskingPool(s.scan.first, s.scan.last, endpoint, order))
    case PoolAnswered(pool) =>
      s.(scan := Judging(s.scan.first, s.scan.last, s.scan.endpoint, pool, s.scan.rest))
    case JudgeOne => DoJudge(w, s)
    case JudgeEnd => s.(scan := Idle)
  }

  function ExecutedNow(s: State): set<TxHash> {
    set h | h in s.tracker.txs && s.tracker.txs[h].status == InBlockSuccess
  }

  predicate IsResolveEvent(e: Event) {
    e.Begin? || e.Explore? || e.IndexDone? || e.ResumeIndex? || e.EventsDone? || e.ResumeEvents? || e.ApplyOne?
    || e.FailOne? || e.Cancel? || e.Prune?
  }

  predicate IsScanEvent(e: Event) {
    e.ScanBegin? || e.KidHash? || e.KidRefused? || e.BatchEnd? || e.ScanAbort? || e.BestFailed? || e.BestDone?
    || e.PoolAnswered? || e.JudgeOne? || e.JudgeEnd?
  }

  function Do(w: World, s: State, e: Event): State
    requires w.concurrency >= 1 && CanDo(w, s, e)
  {
    if IsResolveEvent(e) then DoResolve(w, s, e)
    else if IsScanEvent(e) then DoScan(w, s, e)
    else match e
      case Finalize(b) => s.(chain := s.chain + [b])
      case Tick(now) => s.(now := now)
      case Submit(h) => s.(tracker := PutTx(s.tracker, h, NewTx(s.now)))
      case NodeReady(h, endpoint) => s.(tracker := PutTx(s.tracker, h, Ready0(s.tracker.txs[h], endpoint)))
      case NodeInBlock(h, b, endpoint, id) =>
        s.(tracker := AddCandidate(PutTx(s.tracker, h, InBlock0(s.tracker.txs[h], endpoint)), b, h),
           resolves := s.resolves[id := Resolve(b, Queued)])
      case Evict(h) => s.(tracker := s.tracker.(evicted := s.tracker.evicted + {h}))
      case Mark(h, status) =>
        var x := s.tracker.txs[h];
        s.(tracker := PutTx(s.tracker, h,
             x.(status := status,
                recovery := if status == ReconciliationRequired then x.recovery.(complete := false) else x.recovery)))
  }

  predicate Initial(s: State) {
    s.tracker == Tracker(map[], map[], {}) && s.resolves == map[] && s.scan == Idle
    && s.seen == {} && s.skipped == {} && s.scanned == {}
    && (s.cursor.Some? ==> 0 <= s.cursor.value < |s.chain|)
  }

  ghost predicate Run(w: World, s: State, es: seq<Event>)
    requires w.concurrency >= 1
    decreases |es|
  {
    es == [] || (CanDo(w, s, es[0]) && Honest(w, s, es[0]) && Run(w, Do(w, s, es[0]), es[1..]))
  }

  ghost function After(w: World, s: State, es: seq<Event>): State
    requires w.concurrency >= 1 && Run(w, s, es)
    decreases |es|
  {
    if es == [] then s else After(w, Do(w, s, es[0]), es[1..])
  }
}
