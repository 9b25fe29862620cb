/** The client's capacity accountant: four counters, one reservation per registered ticket, and a reference count
    per nonce. A status callback may force other tickets (or its own) to RECONCILIATION_REQUIRED, which calls the
    accountant back before the outer call has finished. */
module Capacity {
  import opened Shared
  import opened TxLifecycle

  datatype Ticket = Ticket(id: int, nonce: int, createdAt: int)

  datatype Reservation = Reservation(admission: bool, pool: bool, outbound: bool, finalization: bool)

  datatype Limits = Limits(tracked: nat, pool: nat, priorityPool: nat, outbound: nat, finalization: nat)

  /** `status` are the tickets' own statuses. `displaced` are tickets the tracker no longer knows because their
      extrinsic hash was submitted again: forcing such a ticket does nothing. */
  datatype Ledger = Ledger(
    tracked: int,
    pool: int,
    outbound: int,
    finalization: int,
    reservations: map<Ticket, Reservation>,
    refs: map<int, int>,
    status: map<Ticket, TxStatus>,
    displaced: set<Ticket>)

  function Refs(l: Ledger, nonce: int): int {
    if nonce in l.refs then l.refs[nonce] else 0
  }

  function Put(l: Ledger, p: Ticket, r: Reservation): Ledger {
    l.(reservations := l.reservations[p := r])
  }

  // ---------- the accountant's own steps ----------

  function Register(l: Ledger, p: Ticket): Ledger {
    Put(l, p, Reservation(true, true, true, false)).(refs := l.refs[p.nonce := Refs(l, p.nonce) + 1])
  }

  function ReleaseOutbound(l: Ledger, p: Ticket): Ledger
    requires p in l.reservations
  {
    var r := l.reservations[p];
    if r.outbound then Put(l, p, r.(outbound := false)).(outbound := l.outbound - 1) else l
  }

  function ReleaseTracked(l: Ledger, p: Ticket): Ledger
    requires p in l.reservations
  {
    var r := l.reservations[p];
    if r.admission then Put(l, p, r.(admission := false)).(tracked := l.tracked - 1) else l
  }

  function ReleasePool(l: Ledger, p: Ticket): Ledger
    requires p in l.reservations
  {
    var r := l.reservations[p];
    if !r.pool then l
    else
      var k := Put(l, p, r.(pool := false)).(pool := l.pool - 1);
      if Refs(l, p.nonce) <= 1 then k.(refs := l.refs - {p.nonce})
      else k.(refs := l.refs[p.nonce := Refs(l, p.nonce) - 1])
  }

  function WantAdmission(l: Ledger, p: Ticket, wanted: bool): Ledger
    requires p in l.reservations
  {
    var r := l.reservations[p];
    if !wanted then ReleaseTracked(l, p)
    else if r.admission then l
    else Put(l, p, r.(admission := true)).(tracked := l.tracked + 1)
  }

  function WantPool(l: Ledger, p: Ticket, wanted: bool): Ledger
    requires p in l.reservations
  {
    var r := l.reservations[p];
    if !wanted then ReleasePool(l, p)
    else if r.pool then l
    else Put(l, p, r.(pool := true)).(pool := l.pool + 1, refs := l.refs[p.nonce := Refs(l, p.nonce) + 1])
  }

  function WantFinalization(l: Ledger, p: Ticket, wanted: bool): Ledger
    requires p in l.reservations
  {
    var r := l.reservations[p];
    if wanted == r.finalization then l
    else Put(l, p, r.(finalization := wanted)).(finalization := l.finalization + (if wanted then 1 else -1))
  }

  function DropIfEmpty(l: Ledger, p: Ticket): Ledger {
    if p in l.reservations && l.reservations[p] == Reservation(false, false, false, false)
    then l.(reservations := l.reservations - {p})
    else l
  }

  /** `_release_for_status` for every status that does not open a finalization slot. */
  function Release0(l: Ledger, p: Ticket, s: TxStatus): Ledger {
    if p !in l.reservations then l
    else DropIfEmpty(WantFinalization(WantPool(WantAdmission(l, p, HoldsPool(s)), p, HoldsPool(s)), p, false), p)
  }

  predicate Forcible(l: Ledger, p: Ticket) {
    p !in l.displaced && p in l.status && Reconcilable(l.status[p])
  }

  /** The tracker's `mark_reconciliation_required` and the callback it causes. */
  function Force(l: Ledger, p: Ticket): Ledger {
    if Forcible(l, p)
    then Release0(l.(status := l.status[p := ReconciliationRequired]), p, ReconciliationRequired)
    else l
  }

  function ForceAll(l: Ledger, ps: seq<Ticket>): Ledger
    decreases |ps|
  {
    if ps == [] then l else ForceAll(Force(l, ps[0]), ps[1..])
  }

  predicate NotYounger(p: Ticket, q: Ticket) {
    p.createdAt < q.createdAt || (p.createdAt == q.createdAt && (p.id < q.id || (p.id == q.id && p.nonce <= q.nonce)))
  }

  ghost predicate IsOldest(p: Ticket, s: set<Ticket>) {
    p in s && forall q | q in s :: NotYounger(p, q)
  }

  /** The `n` oldest members of `s`, oldest first. Creation-time ties are broken by `id`, the order of insertion. */
  ghost predicate OldestFirst(ps: seq<Ticket>, s: set<Ticket>, n: nat)
    decreases n
  {
    if n == 0 || s == {} then ps == []
    else ps != [] && IsOldest(ps[0], s) && OldestFirst(ps[1..], s - {ps[0]}, n - 1)
  }

  // ---------- conservation ----------

  datatype Flag = Admission | Pool | Outbound | Finalization

  predicate Has(r: Reservation, f: Flag) {
    match f
    case Admission => r.admission
    case Pool => r.pool
    case Outbound => r.outbound
    case Finalization => r.finalization
  }

  function Holders(l: Ledger, f: Flag): set<Ticket> {
    set p | p in l.reservations && Has(l.reservations[p], f)
  }

  function NonceHolders(l: Ledger, nonce: int): set<Ticket> {
    set p | p in l.reservations && l.reservations[p].pool && p.nonce == nonce
  }

  /** Every counter is the number of submissions still in flight plus the reservations holding that flag. */
  predicate CountersBalanced(l: Ledger, inflight: int) {
    && l.tracked == inflight + |Holders(l, Admission)|
    && l.pool == inflight + |Holders(l, Pool)|
    && l.outbound == inflight + |Holders(l, Outbound)|
    && l.finalization == |Holders(l, Finalization)|
  }

  /** Every nonce reference count is the number of pool-holding reservations with that nonce. */
  ghost predicate RefsBalanced(l: Ledger) {
    && (forall n :: Refs(l, n) == |NonceHolders(l, n)|)
    && (forall n | n in l.refs :: l.refs[n] > 0)
  }

  ghost predicate Balanced(l: Ledger, inflight: int) {
    CountersBalanced(l, inflight) && RefsBalanced(l)
  }

  lemma CountChange(before: set<Ticket>, after: set<Ticket>, p: Ticket, present: bool)
    requires after == if present then before + {p} else before - {p}
    ensures |after| == |before| - Bit(p in before) + Bit(present)
  {
    if p in before {
      assert before == (before - {p}) + {p};
    } else {
      assert before - {p} == before;
    }
  }

  /** Writing one reservation moves the number of holders of a flag by the change of that flag. */
  lemma PutCount(l: Ledger, p: Ticket, r: Reservation, f: Flag)
    ensures |Holders(Put(l, p, r), f)| == |Holders(l, f)| - Bit(p in Holders(l, f)) + Bit(Has(r, f))
  {
    CountChange(Holders(l, f), Holders(Put(l, p, r), f), p, Has(r, f));
  }

  /** A step that writes p's reservation and adjusts each counter by the change of p's flag. */
  lemma CountersFollowPut(l: Ledger, p: Ticket, r: Reservation, k: Ledger, inflight: int, inflight': int)
    requires CountersBalanced(l, inflight) && k.reservations == l.reservations[p := r]
    requires k.tracked - l.tracked == inflight' - inflight - Bit(p in Holders(l, Admission)) + Bit(r.admission)
    requires k.pool - l.pool == inflight' - inflight - Bit(p in Holders(l, Pool)) + Bit(r.pool)
    requires k.outbound - l.outbound == inflight' - inflight - Bit(p in Holders(l, Outbound)) + Bit(r.outbound)
    requires k.finalization - l.finalization == Bit(r.finalization) - Bit(p in Holders(l, Finalization))
    ensures CountersBalanced(k, inflight')
  {
    forall f: Flag ensures |Holders(k, f)| == |Holders(l, f)| - Bit(p in Holders(l, f)) + Bit(Has(r, f)) {
      PutCount(l, p, r, f);
      assert Holders(k, f) == Holders(Put(l, p, r), f);
    }
  }

  lemma PutNonceCount(l: Ledger, p: Ticket, r: Reservation, n: int)
    ensures |NonceHolders(Put(l, p, r), n)|
            == |NonceHolders(l, n)| - Bit(p in NonceHolders(l, n)) + Bit(r.pool && p.nonce == n)
  {
    CountChange(NonceHolders(l, n), NonceHolders(Put(l, p, r), n), p, r.pool && p.nonce == n);
  }

  /** A step that writes p's reservation and adjusts p's nonce count by the change of the pool flag. */
  lemma RefsFollowPut(l: Ledger, p: Ticket, r: Reservation, k: Ledger)
    requires RefsBalanced(l) && k.reservations == l.reservations[p := r]
    requires Refs(k, p.nonce) == Refs(l, p.nonce) - Bit(p in l.reservations && l.reservations[p].pool) + Bit(r.pool)
    requires forall n | n != p.nonce :: Refs(k, n) == Refs(l, n)
    requires forall n | n in k.refs :: k.refs[n] > 0
    ensures RefsBalanced(k)
  {
    forall n ensures Refs(k, n) == |NonceHolders(k, n)| {
      PutNonceCount(l, p, r, n);
      assert NonceHolders(k, n) == NonceHolders(Put(l, p, r), n);
      assert Refs(l, n) == |NonceHolders(l, n)|;
    }
  }

  lemma DropKeepsBalance(l: Ledger, p: Ticket, inflight: int)
    requires Balanced(l, inflight)
    ensures Balanced(DropIfEmpty(l, p), inflight)
  {
    var k := DropIfEmpty(l, p);
    assert forall f: Flag :: Holders(k, f) == Holders(l, f);
    forall n ensures Refs(k, n) == |NonceHolders(k, n)| {
      assert Refs(l, n) == |NonceHolders(l, n)|;
      assert NonceHolders(k, n) == NonceHolders(l, n);
    }
  }

  /** Turning a submission in flight into a reservation moves no counter. */
  lemma RegisterKeepsBalance(l: Ledger, p: Ticket, inflight: int)
    requires Balanced(l, inflight) && p !in l.reservations
    ensures Balanced(Register(l, p), inflight - 1)
  {
    var r := Reservation(true, true, true, false);
    CountersFollowPut(l, p, r, Register(l, p), inflight, inflight - 1);
    PositiveRefs(l, p.nonce);
    RefsFollowPut(l, p, r, Register(l, p));
  }

  lemma PositiveRefs(l: Ledger, n: int)
    requires RefsBalanced(l)
    ensures Refs(l, n) >= 0
  {
    assert Refs(l, n) == |NonceHolders(l, n)|;
  }

  lemma ReleaseOutboundKeepsBalance(l: Ledger, p: Ticket, inflight: int)
    requires Balanced(l, inflight) && p in l.reservations
    ensures Balanced(ReleaseOutbound(l, p), inflight)
  {
    var r := l.reservations[p].(outbound := false);
    if l.reservations[p].outbound {
      CountersFollowPut(l, p, r, ReleaseOutbound(l, p), inflight, inflight);
      RefsFollowPut(l, p, r, ReleaseOutbound(l, p));
    }
  }

  lemma WantAdmissionKeepsBalance(l: Ledger, p: Ticket, wanted: bool, inflight: int)
    requires Balanced(l, inflight) && p in l.reservations
    ensures Balanced(WantAdmission(l, p, wanted), inflight)
  {
    if wanted != l.reservations[p].admission {
      var r := l.reservations[p].(admission := wanted);
      CountersFollowPut(l, p, r, WantAdmission(l, p, wanted), inflight, inflight);
      RefsFollowPut(l, p, r, WantAdmission(l, p, wanted));
    }
  }

  lemma WantPoolKeepsBalance(l: Ledger, p: Ticket, wanted: bool, inflight: int)
    requires Balanced(l, inflight) && p in l.reservations
    ensures Balanced(WantPool(l, p, wanted), inflight)
  {
    if wanted != l.reservations[p].pool {
      var r := l.reservations[p].(pool := wanted);
      CountersFollowPut(l, p, r, WantPool(l, p, wanted), inflight, inflight);
      PositiveRefs(l, p.nonce);
      if !wanted {
        assert p in NonceHolders(l, p.nonce);
        assert Refs(l, p.nonce) == |NonceHolders(l, p.nonce)|;
      }
      RefsFollowPut(l, p, r, WantPool(l, p, wanted));
    }
  }

  lemma WantFinalizationKeepsBalance(l: Ledger, p: Ticket, wanted: bool, inflight: int)
    requires Balanced(l, inflight) && p in l.reservations
    ensures Balanced(WantFinalization(l, p, wanted), inflight)
  {
    if wanted != l.reservations[p].finalization {
      var r := l.reservations[p].(finalization := wanted);
      CountersFollowPut(l, p, r, WantFinalization(l, p, wanted), inflight, inflight);
      RefsFollowPut(l, p, r, WantFinalization(l, p, wanted));
    }
  }

  lemma Release0KeepsBalance(l: Ledger, p: Ticket, s: TxStatus, inflight: int)
    requires Balanced(l, inflight)
    ensures Balanced(Release0(l, p, s), inflight)
  {
    if p in l.reservations {
      var l1 := WantAdmission(l, p, HoldsPool(s));
      var l2 := WantPool(l1, p, HoldsPool(s));
      WantAdmissionKeepsBalance(l, p, HoldsPool(s), inflight);
      WantPoolKeepsBalance(l1, p, HoldsPool(s), inflight);
      WantFinalizationKeepsBalance(l2, p, false, inflight);
      DropKeepsBalance(WantFinalization(l2, p, false), p, inflight);
    }
  }

  lemma StatusIsNotCounted(l: Ledger, status: map<Ticket, TxStatus>, inflight: int)
    requires Balanced(l, inflight)
    ensures Balanced(l.(status := status), inflight)
  {
    var k := l.(status := status);
    assert forall f: Flag :: Holders(k, f) == Holders(l, f);
    forall n ensures Refs(k, n) == |NonceHolders(k, n)| {
      assert NonceHolders(k, n) == NonceHolders(l, n) && Refs(k, n) == Refs(l, n) == |NonceHolders(l, n)|;
    }
  }

  lemma ForceKeepsBalance(l: Ledger, p: Ticket, inflight: int)
    requires Balanced(l, inflight)
    ensures Balanced(Force(l, p), inflight)
  {
    if Forcible(l, p) {
      var status := l.status[p := ReconciliationRequired];
      StatusIsNotCounted(l, status, inflight);
      Release0KeepsBalance(l.(status := status), p, ReconciliationRequired, inflight);
    }
  }

  lemma {:induction false} ForceAllKeepsBalance(l: Ledger, ps: seq<Ticket>, inflight: int)
    requires Balanced(l, inflight)
    ensures Balanced(ForceAll(l, ps), inflight)
    decreases |ps|
  {
    if ps != [] {
      ForceKeepsBalance(l, ps[0], inflight);
      ForceAllKeepsBalance(Force(l, ps[0]), ps[1..], inflight);
    }
  }

  // ---------- the release path with its re-entrant enforcement ----------

  /** A reservation that gains its finalization slot, before the limit is enforced. */
  function Opened(l: Ledger, p: Ticket): Ledger
    requires p in l.reservations
  {
    WantFinalization(WantPool(WantAdmission(l, p, false), p, false), p, true)
  }

  predicate Opens(l: Ledger, p: Ticket, s: TxStatus) {
    s == InBlockSuccess && p in l.reservations && !l.reservations[p].finalization
  }

  /** `_release_for_status`; `victims` are the tickets the limit forces out while it runs. */
  function Release(l: Ledger, p: Ticket, s: TxStatus, victims: seq<Ticket>): Ledger {
    if s != InBlockSuccess then Release0(l, p, s)
    else if p !in l.reservations then l
    else DropIfEmpty(ForceAll(Opened(l, p), victims), p)
  }

  function Excess(l: Ledger, lim: Limits): nat {
    if l.finalization > lim.finalization then l.finalization - lim.finalization else 0
  }

  /** The victims are the oldest holders of a finalization slot, as many as the limit is exceeded by. */
  ghost predicate Victims(l: Ledger, lim: Limits, p: Ticket, s: TxStatus, victims: seq<Ticket>) {
    if Opens(l, p, s)
    then var o := Opened(l, p); OldestFirst(victims, Holders(o, Finalization), Excess(o, lim))
    else victims == []
  }

  lemma ReleaseKeepsBalance(l: Ledger, p: Ticket, s: TxStatus, victims: seq<Ticket>, inflight: int)
    requires Balanced(l, inflight)
    ensures Balanced(Release(l, p, s, victims), inflight)
  {
    if s != InBlockSuccess {
      Release0KeepsBalance(l, p, s, inflight);
    } else if p in l.reservations {
      OpenedKeepsBalance(l, p, inflight);
      ForceAllKeepsBalance(Opened(l, p), victims, inflight);
      DropKeepsBalance(ForceAll(Opened(l, p), victims), p, inflight);
    }
  }

  lemma OpenedKeepsBalance(l: Ledger, p: Ticket, inflight: int)
    requires Balanced(l, inflight) && p in l.reservations
    ensures Balanced(Opened(l, p), inflight)
  {
    var l1 := WantAdmission(l, p, false);
    WantAdmissionKeepsBalance(l, p, false, inflight);
    WantPoolKeepsBalance(l1, p, false, inflight);
    WantFinalizationKeepsBalance(WantPool(l1, p, false), p, true, inflight);
  }

  // ---------- reservations mirror statuses ----------

  function Flags(s: TxStatus): Reservation {
    Reservation(HoldsPool(s), HoldsPool(s), false, s == InBlockSuccess)
  }

  /** Between callbacks a reservation is exactly what its ticket's status asks for, and terminal tickets have none. */
  ghost predicate Mirrored(l: Ledger) {
    forall p | p in l.reservations ::
      p in l.status && !Terminal(l.status[p]) && l.reservations[p] == Flags(l.status[p])
  }

  lemma WantAdmissionEffect(l: Ledger, p: Ticket, wanted: bool)
    requires p in l.reservations
    ensures var k := WantAdmission(l, p, wanted);
      && k.reservations == l.reservations[p := l.reservations[p].(admission := wanted)]
      && k.status == l.status && k.displaced == l.displaced && k.finalization == l.finalization
  {}

  lemma WantPoolEffect(l: Ledger, p: Ticket, wanted: bool)
    requires p in l.reservations
    ensures var k := WantPool(l, p, wanted);
      && k.reservations == l.reservations[p := l.reservations[p].(pool := wanted)]
      && k.status == l.status && k.displaced == l.displaced && k.finalization == l.finalization
  {}

  lemma WantFinalizationEffect(l: Ledger, p: Ticket, wanted: bool)
    requires p in l.reservations
    ensures var k := WantFinalization(l, p, wanted);
      && k.reservations == l.reservations[p := l.reservations[p].(finalization := wanted)]
      && k.status == l.status && k.displaced == l.displaced
  {}

  lemma DropIfTerminal(l: Ledger, k: Ledger, p: Ticket, s: TxStatus)
    requires k.reservations == l.reservations[p := Flags(s)]
    ensures DropIfEmpty(k, p).reservations
            == if Terminal(s) then l.reservations - {p} else l.reservations[p := Flags(s)]
  {
    assert l.reservations[p := Flags(s)] - {p} == l.reservations - {p};
  }

  lemma Release0Effect(l: Ledger, p: Ticket, s: TxStatus)
    requires p in l.reservations && !l.reservations[p].outbound && s != InBlockSuccess
    ensures var k := Release0(l, p, s);
      && k.reservations == (if Terminal(s) then l.reservations - {p} else l.reservations[p := Flags(s)])
      && k.status == l.status && k.displaced == l.displaced
  {
    var l1 := WantAdmission(l, p, HoldsPool(s));
    WantAdmissionEffect(l, p, HoldsPool(s));
    var l2 := WantPool(l1, p, HoldsPool(s));
    WantPoolEffect(l1, p, HoldsPool(s));
    var l3 := WantFinalization(l2, p, false);
    WantFinalizationEffect(l2, p, false);
    assert l3.reservations == l.reservations[p := Flags(s)];
    DropIfTerminal(l, l3, p, s);
  }

  predicate Slotted(l: Ledger, p: Ticket) {
    && p in l.reservations && l.reservations[p] == Reservation(false, false, false, true)
    && p in l.status && l.status[p] == InBlockSuccess
  }

  /** The ledger after a set of executed tickets has been forced out: their slots and reservations are gone,
      each once, and nothing else has changed. */
  function Without(l: Ledger, out: set<Ticket>): Ledger {
    l.(reservations := l.reservations - out,
       finalization := l.finalization - |out|,
       status := map q | q in l.status :: if q in out then ReconciliationRequired else l.status[q])
  }

  lemma WithoutNothing(l: Ledger)
    ensures Without(l, {}) == l
  {
    assert l.reservations - {} == l.reservations;
    assert (map q | q in l.status :: l.status[q]) == l.status;
    assert Without(l, {}).status == l.status;
  }

  lemma WithoutTwice(l: Ledger, p: Ticket, out: set<Ticket>)
    requires p !in out
    ensures Without(Without(l, {p}), out) == Without(l, {p} + out)
  {
    assert (l.reservations - {p}) - out == l.reservations - ({p} + out);
    assert Without(Without(l, {p}), out).status == Without(l, {p} + out).status;
    assert ({p} + out) - {p} == out;
  }

  lemma ForceEffect(l: Ledger, p: Ticket)
    requires Slotted(l, p)
    ensures Force(l, p) == if p in l.displaced then l else Without(l, {p})
  {
    if p !in l.displaced {
      var m := l.(status := l.status[p := ReconciliationRequired]);
      var k := WantFinalization(m, p, false);
      assert k.reservations[p] == Reservation(false, false, false, false);
      assert k.reservations - {p} == l.reservations - {p};
      assert m.status == Without(l, {p}).status;
    }
  }

  lemma {:induction false} OldestFirstFacts(ps: seq<Ticket>, s: set<Ticket>, n: nat)
    requires OldestFirst(ps, s, n)
    ensures Members(ps) <= s
    ensures |Members(ps)| == |ps| == if n <= |s| then n else |s|
    ensures forall p, q | p in ps && q in s && q !in ps :: NotYounger(p, q)
    decreases n
  {
    if n > 0 && s != {} {
      var rest := ps[1..];
      OldestFirstFacts(rest, s - {ps[0]}, n - 1);
      assert ps == [ps[0]] + rest;
      assert Members(ps) == {ps[0]} + Members(rest);
      assert ps[0] !in Members(rest);
    }
  }

  lemma HeadAndRest(ps: seq<Ticket>)
    requires ps != []
    ensures Members(ps) == {ps[0]} + Members(ps[1..])
    ensures |Members(ps)| == |ps| ==> ps[0] !in Members(ps[1..]) && |Members(ps[1..])| == |ps[1..]|
  {
    assert ps == [ps[0]] + ps[1..];
    MembersBound(ps[1..]);
    assert ps[0] in Members(ps[1..]) ==> Members(ps) == Members(ps[1..]);
  }

  lemma OthersKeepSlot(l: Ledger, p: Ticket, q: Ticket)
    requires Slotted(l, p) && Slotted(l, q) && p != q
    ensures Slotted(Force(l, p), q) && Force(l, p).displaced == l.displaced
  {
    ForceEffect(l, p);
  }

  /** The nested calls together: exactly the victims the tracker still knows leave, each once. */
  lemma {:induction false} ForceAllEffect(l: Ledger, ps: seq<Ticket>)
    requires |Members(ps)| == |ps|
    requires forall p | p in Members(ps) :: Slotted(l, p)
    ensures ForceAll(l, ps) == Without(l, Members(ps) - l.displaced)
    decreases |ps|
  {
    if ps == [] {
      assert Members(ps) - l.displaced == {};
      WithoutNothing(l);
    } else {
      var p, rest := ps[0], ps[1..];
      HeadAndRest(ps);
      var k := Force(l, p);
      forall q | q in Members(rest) ensures Slotted(k, q) { OthersKeepSlot(l, p, q); }
      ForceAllEffect(k, rest);
      ForceEffect(l, p);
      var out := Members(rest) - l.displaced;
      if p in l.displaced {
        assert Members(ps) - l.displaced == out;
      } else {
        assert Members(ps) - l.displaced == {p} + out;
        WithoutTwice(l, p, out);
      }
    }
  }

  lemma {:induction false} MembersBound(ps: seq<Ticket>)
    ensures |Members(ps)| <= |ps|
  {
    if ps != [] {
      MembersBound(ps[1..]);
      assert ps == [ps[0]] + ps[1..];
      assert Members(ps) == {ps[0]} + Members(ps[1..]);
    }
  }
}
