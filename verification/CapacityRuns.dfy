/** Every run of the accountant: submissions that return, fail or are abandoned, and tickets that change status in
    any order, with the nested changes a full finalization backlog causes. */
module CapacityRuns {
  import opened Shared
  import opened TxLifecycle
  import opened Capacity

  /** `k` is `l` after p took status `s` and the tickets of `out` were forced out. */
  ghost predicate Moved(l: Ledger, p: Ticket, s: TxStatus, out: set<Ticket>, k: Ledger) {
    && k.reservations == (if Terminal(s) then l.reservations - {p} else l.reservations[p := Flags(s)]) - out
    && k.displaced == l.displaced
    && k.status.Keys == l.status.Keys
    && forall q | q in l.status :: k.status[q] == if q in out then ReconciliationRequired else l.status[q]
  }

  /** Everyone but p is mirrored; p's own status has already changed. */
  ghost predicate MirroredBut(l: Ledger, p: Ticket) {
    && p in l.status
    && forall q | q in l.reservations && q != p ::
         q in l.status && !Terminal(l.status[q]) && l.reservations[q] == Flags(l.status[q])
  }

  /** What one status callback leaves behind, in closed form. */
  lemma ReleaseEffect(l: Ledger, lim: Limits, p: Ticket, s: TxStatus, victims: seq<Ticket>)
    requires p in l.reservations && !l.reservations[p].outbound
    requires MirroredBut(l, p) && l.status[p] == s
    requires Victims(l, lim, p, s, victims)
    ensures Moved(l, p, s, Members(victims) - l.displaced, Release(l, p, s, victims))
    ensures Mirrored(Release(l, p, s, victims))
  {
    if s != InBlockSuccess {
      Closing(l, p, s);
      assert Members(victims) - l.displaced == {};
    } else if !Opens(l, p, s) {
      StaysOpen(l, p);
      assert Members(victims) - l.displaced == {};
    } else {
      OpeningEffect(l, lim, p, victims);
    }
    MovedIsMirrored(l, p, s, Members(victims) - l.displaced, Release(l, p, s, victims));
  }

  lemma MovedIsMirrored(l: Ledger, p: Ticket, s: TxStatus, out: set<Ticket>, k: Ledger)
    requires MirroredBut(l, p) && l.status[p] == s && Moved(l, p, s, out, k)
    ensures Mirrored(k)
  {
    forall q | q in k.reservations
      ensures q in k.status && !Terminal(k.status[q]) && k.reservations[q] == Flags(k.status[q])
    {
      assert q !in out;
      if q != p { assert q in l.reservations; }
    }
  }

  lemma EnforceEffect(o: Ledger, lim: Limits, p: Ticket, victims: seq<Ticket>)
    requires forall q | q in o.reservations :: q in o.status && o.reservations[q] == Flags(o.status[q])
    requires p in o.reservations && o.status[p] == InBlockSuccess
    requires OldestFirst(victims, Holders(o, Finalization), Excess(o, lim))
    ensures DropIfEmpty(ForceAll(o, victims), p) == Without(o, Members(victims) - o.displaced)
  {
    VictimsAreSlotted(o, p, lim, victims);
    ForceAllEffect(o, victims);
  }

  lemma WithoutMoves(l: Ledger, o: Ledger, p: Ticket, out: set<Ticket>)
    requires o.reservations == l.reservations[p := Flags(InBlockSuccess)]
    requires o.status == l.status && o.displaced == l.displaced
    ensures Moved(l, p, InBlockSuccess, out, Without(o, out))
  {}

  lemma OpeningEffect(l: Ledger, lim: Limits, p: Ticket, victims: seq<Ticket>)
    requires p in l.reservations && !l.reservations[p].outbound
    requires MirroredBut(l, p) && l.status[p] == InBlockSuccess && Opens(l, p, InBlockSuccess)
    requires Victims(l, lim, p, InBlockSuccess, victims)
    ensures Moved(l, p, InBlockSuccess, Members(victims) - l.displaced, Release(l, p, InBlockSuccess, victims))
    ensures Release(l, p, InBlockSuccess, victims) == Without(Opened(l, p), Members(victims) - l.displaced)
  {
    var o := Opened(l, p);
    OpenedEffect(l, p);
    OpenedIsMirrored(l, o, p);
    EnforceEffect(o, lim, p, victims);
    WithoutMoves(l, o, p, Members(victims) - l.displaced);
  }

  lemma OpenedIsMirrored(l: Ledger, o: Ledger, p: Ticket)
    requires MirroredBut(l, p) && l.status[p] == InBlockSuccess
    requires o.reservations == l.reservations[p := Flags(InBlockSuccess)] && o.status == l.status
    ensures forall q | q in o.reservations :: q in o.status && o.reservations[q] == Flags(o.status[q])
  {}

  lemma OpenedEffect(l: Ledger, p: Ticket)
    requires p in l.reservations && !l.reservations[p].outbound
    ensures var o := Opened(l, p);
      && o.reservations == l.reservations[p := Flags(InBlockSuccess)]
      && o.status == l.status && o.displaced == l.displaced
  {
    WantAdmissionEffect(l, p, false);
    WantPoolEffect(WantAdmission(l, p, false), p, false);
    WantFinalizationEffect(WantPool(WantAdmission(l, p, false), p, false), p, true);
  }

  lemma StaysOpen(l: Ledger, p: Ticket)
    requires p in l.reservations && !l.reservations[p].outbound && l.reservations[p].finalization
    ensures Moved(l, p, InBlockSuccess, {}, Release(l, p, InBlockSuccess, []))
  {
    OpenedEffect(l, p);
  }

  lemma Closing(l: Ledger, p: Ticket, s: TxStatus)
    requires p in l.reservations && !l.reservations[p].outbound && s != InBlockSuccess
    ensures Moved(l, p, s, {}, Release(l, p, s, []))
  {
    Release0Effect(l, p, s);
  }

  lemma VictimsAreSlotted(o: Ledger, p: Ticket, lim: Limits, victims: seq<Ticket>)
    requires forall q | q in o.reservations :: q in o.status && o.reservations[q] == Flags(o.status[q])
    requires OldestFirst(victims, Holders(o, Finalization), Excess(o, lim))
    ensures |Members(victims)| == |victims| && Members(victims) <= Holders(o, Finalization)
    ensures forall q | q in Members(victims) :: Slotted(o, q)
  {
    OldestFirstFacts(victims, Holders(o, Finalization), Excess(o, lim));
  }

  // ---------- the finalization backlog ----------

  /** Only executed tickets the tracker has lost track of can keep the backlog above its limit. */
  predicate BacklogBounded(l: Ledger, lim: Limits) {
    |Holders(l, Finalization)| <= lim.finalization + |Holders(l, Finalization) * l.displaced|
  }

  /** After any status callback the backlog is back under its bound, whichever tickets it had to force out. */
  lemma ReleaseBoundsBacklog(l: Ledger, lim: Limits, p: Ticket, s: TxStatus, victims: seq<Ticket>)
    requires p in l.reservations && !l.reservations[p].outbound
    requires MirroredBut(l, p) && l.status[p] == s
    requires Victims(l, lim, p, s, victims)
    requires Opened(l, p).finalization == |Holders(Opened(l, p), Finalization)|
    requires BacklogBounded(l, lim)
    ensures BacklogBounded(Release(l, p, s, victims), lim)
  {
    var k := Release(l, p, s, victims);
    if Opens(l, p, s) {
      OpeningEffect(l, lim, p, victims);
      EnforcedBound(Opened(l, p), lim, victims, k);
    } else {
      if s == InBlockSuccess { StaysOpen(l, p); } else { Closing(l, p, s); }
      NoNewHolder(l, p, s, k);
      HoldersShrink(l, k, lim, p);
    }
  }

  lemma NoNewHolder(l: Ledger, p: Ticket, s: TxStatus, k: Ledger)
    requires p in l.reservations && !Opens(l, p, s) && Moved(l, p, s, {}, k)
    ensures Holders(k, Finalization) == Holders(l, Finalization)
            || Holders(k, Finalization) == Holders(l, Finalization) - {p}
  {
    if s == InBlockSuccess {
      assert Holders(k, Finalization) == Holders(l, Finalization);
    } else {
      assert Holders(k, Finalization) == Holders(l, Finalization) - {p};
    }
  }

  lemma HoldersShrink(l: Ledger, k: Ledger, lim: Limits, p: Ticket)
    requires BacklogBounded(l, lim) && k.displaced == l.displaced
    requires Holders(k, Finalization) == Holders(l, Finalization)
          || Holders(k, Finalization) == Holders(l, Finalization) - {p}
    ensures BacklogBounded(k, lim)
  {
    var a, b := Holders(l, Finalization), Holders(k, Finalization);
    if a != b {
      assert a * l.displaced - {p} == b * l.displaced;
    }
  }

  lemma EnforcedBound(o: Ledger, lim: Limits, victims: seq<Ticket>, k: Ledger)
    requires o.finalization == |Holders(o, Finalization)|
    requires OldestFirst(victims, Holders(o, Finalization), Excess(o, lim))
    requires k.reservations == o.reservations - (Members(victims) - o.displaced) && k.displaced == o.displaced
    ensures BacklogBounded(k, lim)
  {
    var h, v := Holders(o, Finalization), Members(victims);
    OldestFirstFacts(victims, h, Excess(o, lim));
    assert Holders(k, Finalization) == h - (v - o.displaced);
    SetBound(h, v, o.displaced, lim.finalization);
  }

  lemma SetBound(h: set<Ticket>, v: set<Ticket>, d: set<Ticket>, limit: nat)
    requires v <= h && |v| == (if |h| > limit then |h| - limit else 0)
    ensures |h - (v - d)| <= limit + |(h - (v - d)) * d|
  {
    var w := v - d;
    assert h == (h - w) + w;
    assert v == w + v * d;
    SubsetSize(v * d, (h - w) * d);
  }

  /** Who is forced: nobody still holding a slot is older than a forced ticket, except tickets already lost to the
      tracker. The ticket whose own transition is running is treated like any other. */
  lemma ForcedAreOldest(l: Ledger, lim: Limits, p: Ticket, s: TxStatus, victims: seq<Ticket>, k: Ledger,
                        v: Ticket, q: Ticket)
    requires p in l.reservations && !l.reservations[p].outbound
    requires MirroredBut(l, p) && l.status[p] == s
    requires Victims(l, lim, p, s, victims) && k == Release(l, p, s, victims)
    requires v in l.status && l.status[v] == InBlockSuccess && v in k.status && k.status[v] == ReconciliationRequired
    requires q in Holders(k, Finalization) && q !in l.displaced
    ensures NotYounger(v, q) && v.createdAt <= q.createdAt
  {
    ReleaseEffect(l, lim, p, s, victims);
    assert v in Members(victims);
    OpenedEffect(l, p);
    OldestFirstFacts(victims, Holders(Opened(l, p), Finalization), Excess(Opened(l, p), lim));
    assert q in Holders(Opened(l, p), Finalization);
  }

  /** When the limit holds to the letter: a callback that opens a slot leaves the backlog within it exactly when the
      tracker still knows every ticket it has to force out. */
  lemma BacklogWithinLimitIff(l: Ledger, lim: Limits, p: Ticket, victims: seq<Ticket>, k: Ledger)
    requires Opens(l, p, InBlockSuccess) && !l.reservations[p].outbound
    requires MirroredBut(l, p) && l.status[p] == InBlockSuccess
    requires Victims(l, lim, p, InBlockSuccess, victims) && k == Release(l, p, InBlockSuccess, victims)
    requires Opened(l, p).finalization == |Holders(Opened(l, p), Finalization)|
    ensures |Holders(k, Finalization)| <= lim.finalization <==> Members(victims) !! l.displaced
  {
    var o := Opened(l, p);
    OpeningEffect(l, lim, p, victims);
    OpenedEffect(l, p);
    var h, v := Holders(o, Finalization), Members(victims);
    OldestFirstFacts(victims, h, Excess(o, lim));
    assert Holders(k, Finalization) == h - (v - l.displaced);
    ExactSize(h, v, l.displaced, lim.finalization);
  }

  lemma ExactSize(h: set<Ticket>, v: set<Ticket>, d: set<Ticket>, limit: nat)
    requires v <= h && |v| == (if |h| > limit then |h| - limit else 0)
    ensures |h - (v - d)| <= limit <==> v !! d
  {
    var w := v - d;
    assert h == (h - w) + w;
    assert v == w + v * d;
    if v * d == {} { assert w == v; }
  }

  // ---------- whole runs ----------

  /** Besides the ledger: submissions between `_acquire_capacity` and registration, by the limit they were admitted
      under, and the history the pool bound speaks of. */
  datatype Client = Client(
    l: Ledger,
    normal: nat,
    priority: nat,
    registered: set<Ticket>,
    viaNormal: set<Ticket>,
    reentered: set<Ticket>)

  /** One step per stretch between awaits. `Returned` is a submission that ends with a handle, by success or by an
      error of unknown outcome; `NotSent` one whose bytes never left; `Abandoned` one that ends without a handle,
      including cancellation by its caller. */
  datatype Event =
    | Acquire(priority: bool)
    | Tracked(p: Ticket)
    | Displaced(p: Ticket)
    | Returned(p: Ticket, priority: bool, victims: seq<Ticket>)
    | NotSent(p: Ticket, priority: bool)
    | Abandoned(priority: bool)
    | Changed(p: Ticket, s: TxStatus, victims: seq<Ticket>)

  function Inflight(c: Client): nat { c.normal + c.priority }

  predicate HasCapacity(l: Ledger, lim: Limits, priority: bool) {
    && l.tracked < lim.tracked
    && l.pool < (if priority then lim.priorityPool else lim.pool)
    && l.outbound < lim.outbound
  }

  function Registered(l: Ledger, p: Ticket): Ledger {
    ReleaseOutbound(Register(l, p), p)
  }

  function WithStatus(l: Ledger, p: Ticket, s: TxStatus): Ledger {
    l.(status := l.status[p := s])
  }

  ghost predicate Enabled(c: Client, lim: Limits, e: Event) {
    match e
    case Acquire(_) => true
    case Tracked(p) => p !in c.l.status
    case Displaced(p) => p in c.l.status
    case Returned(p, priority, victims) =>
      && (if priority then c.priority > 0 else c.normal > 0)
      && p in c.l.status && p !in c.registered
      && Victims(Registered(c.l, p), lim, p, c.l.status[p], victims)
    case NotSent(p, priority) =>
      && (if priority then c.priority > 0 else c.normal > 0)
      && p in c.l.status && p !in c.registered
    case Abandoned(priority) => if priority then c.priority > 0 else c.normal > 0
    case Changed(p, s, victims) =>
      && p in c.l.status && Legal(c.l.status[p], s)
      && Victims(WithStatus(c.l, p, s), lim, p, s, victims)
  }

  /** One submission less in flight, without touching the ledger. */
  function Landed(c: Client, priority: bool): Client
    requires if priority then c.priority > 0 else c.normal > 0
  {
    if priority then c.(priority := c.priority - 1) else c.(normal := c.normal - 1)
  }

  function Step(c: Client, lim: Limits, e: Event): Client
    requires e.Returned? || e.NotSent? || e.Abandoned? ==> if e.priority then c.priority > 0 else c.normal > 0
    requires e.Returned? ==> e.p in c.l.status
  {
    match e
    case Acquire(priority) =>
      if !HasCapacity(c.l, lim, priority) then c   // raises ClientBackpressure
      else
        var d := c.(l := c.l.(tracked := c.l.tracked + 1, pool := c.l.pool + 1, outbound := c.l.outbound + 1));
        if priority then d.(priority := c.priority + 1) else d.(normal := c.normal + 1)
    case Tracked(p) => c.(l := WithStatus(c.l, p, TxStatus.Created))
    case Displaced(p) => c.(l := c.l.(displaced := c.l.displaced + {p}))
    case Returned(p, priority, victims) =>
      Landed(c, priority).(
        l := Release(Registered(c.l, p), p, c.l.status[p], victims),
        registered := c.registered + {p},
        viaNormal := if priority then c.viaNormal else c.viaNormal + {p})
    case NotSent(p, priority) =>
      var k := ReleaseTracked(ReleasePool(Registered(c.l, p), p), p);
      Landed(c, priority).(
        l := k.(reservations := k.reservations - {p}),
        registered := c.registered + {p})
    case Abandoned(priority) =>
      Landed(c, priority).(
        l := c.l.(tracked := c.l.tracked - 1, pool := c.l.pool - 1, outbound := c.l.outbound - 1))
    case Changed(p, s, victims) =>
      c.(l := Release(WithStatus(c.l, p, s), p, s, victims),
         reentered := if s == Retracted && p in c.l.reservations then c.reentered + {p} else c.reentered)
  }

  /** Pool holders that have held their slot without interruption since admission. */
  function Steady(c: Client): set<Ticket> { Holders(c.l, Pool) - c.reentered }

  predicate WithinLimits(c: Client, lim: Limits) {
    && Inflight(c) <= lim.outbound
    && Inflight(c) + |Steady(c)| <= lim.tracked
    && Inflight(c) + |Steady(c)| <= lim.priorityPool
    && c.normal + |Steady(c) * c.viaNormal| <= lim.pool
  }

  ghost predicate Sound(c: Client, lim: Limits) {
    && Balanced(c.l, Inflight(c))
    && Mirrored(c.l)
    && c.l.reservations.Keys <= c.registered && c.viaNormal <= c.registered
    && BacklogBounded(c.l, lim)
    && WithinLimits(c, lim)
  }

  ghost predicate Run(c: Client, lim: Limits, events: seq<Event>)
    decreases |events|
  {
    events == [] || (Enabled(c, lim, events[0]) && Run(Step(c, lim, events[0]), lim, events[1..]))
  }

  ghost function After(c: Client, lim: Limits, events: seq<Event>): Client
    requires Run(c, lim, events)
    decreases |events|
  {
    if events == [] then c else After(Step(c, lim, events[0]), lim, events[1..])
  }

  /** A client that has just been constructed. */
  predicate Fresh(c: Client) {
    c == Client(Ledger(0, 0, 0, 0, map[], map[], map[], c.l.displaced), 0, 0, {}, {}, {})
  }

  lemma RegisteredFacts(l: Ledger, p: Ticket, inflight: int)
    requires Balanced(l, inflight) && p !in l.reservations
    ensures Balanced(Registered(l, p), inflight - 1)
    ensures Registered(l, p).reservations == l.reservations[p := Reservation(true, true, false, false)]
    ensures Registered(l, p).status == l.status && Registered(l, p).displaced == l.displaced
  {
    RegisterKeepsBalance(l, p, inflight);
    ReleaseOutboundKeepsBalance(Register(l, p), p, inflight - 1);
  }

  /** The four parts of `Sound` that one callback of an otherwise mirrored ledger re-establishes. */
  lemma ReleaseIsSound(l: Ledger, lim: Limits, p: Ticket, s: TxStatus, victims: seq<Ticket>, inflight: int)
    requires p in l.reservations ==> !l.reservations[p].outbound
    requires MirroredBut(l, p) && l.status[p] == s && Balanced(l, inflight) && BacklogBounded(l, lim)
    requires Victims(l, lim, p, s, victims)
    ensures var k := Release(l, p, s, victims);
      && Balanced(k, inflight) && Mirrored(k) && BacklogBounded(k, lim)
      && k.reservations.Keys <= l.reservations.Keys
      && Holders(k, Pool) <= Holders(l, Pool) + (if HoldsPool(s) && p in l.reservations then {p} else {})
  {
    ReleaseKeepsBalance(l, p, s, victims, inflight);
    if p in l.reservations {
      OpenedKeepsBalance(l, p, inflight);
      ReleaseEffect(l, lim, p, s, victims);
      ReleaseBoundsBacklog(l, lim, p, s, victims);
      PoolAfter(l, p, s, Members(victims) - l.displaced, Release(l, p, s, victims));
    }
  }

  lemma PoolAfter(l: Ledger, p: Ticket, s: TxStatus, out: set<Ticket>, k: Ledger)
    requires p in l.reservations && Moved(l, p, s, out, k)
    ensures k.reservations.Keys <= l.reservations.Keys
    ensures Holders(k, Pool) <= Holders(l, Pool) + (if HoldsPool(s) then {p} else {})
  {}

  lemma SteadyNeverGrows(c: Client, d: Client, lim: Limits)
    requires WithinLimits(c, lim)
    requires d.normal == c.normal && d.priority == c.priority && d.viaNormal == c.viaNormal
    requires Steady(d) <= Steady(c)
    ensures WithinLimits(d, lim)
  {
    SubsetSize(Steady(d), Steady(c));
    SubsetSize(Steady(d) * d.viaNormal, Steady(c) * c.viaNormal);
  }

  /** What a step must show of the new ledger and history for `Sound` to carry over. */
  lemma SoundFromParts(d: Client, lim: Limits)
    requires Balanced(d.l, Inflight(d)) && Mirrored(d.l) && BacklogBounded(d.l, lim) && WithinLimits(d, lim)
    requires d.l.reservations.Keys <= d.registered && d.viaNormal <= d.registered
    ensures Sound(d, lim)
  {}

  lemma StatusWriteKeeps(l: Ledger, lim: Limits, p: Ticket, s: TxStatus, inflight: int)
    requires Balanced(l, inflight) && Mirrored(l) && BacklogBounded(l, lim)
    ensures var m := WithStatus(l, p, s);
      && Balanced(m, inflight) && MirroredBut(m, p) && BacklogBounded(m, lim)
      && Holders(m, Pool) == Holders(l, Pool)
  {
    StatusIsNotCounted(l, l.status[p := s], inflight);
    assert Holders(WithStatus(l, p, s), Finalization) == Holders(l, Finalization);
  }

  lemma ChangedLedger(l: Ledger, m: Ledger, lim: Limits, p: Ticket, s: TxStatus, victims: seq<Ticket>, inflight: int,
                      k: Ledger)
    requires Balanced(l, inflight) && Mirrored(l) && BacklogBounded(l, lim) && m == WithStatus(l, p, s)
    requires Victims(m, lim, p, s, victims) && k == Release(m, p, s, victims)
    ensures Balanced(k, inflight) && Mirrored(k) && BacklogBounded(k, lim)
    ensures k.reservations.Keys <= l.reservations.Keys
    ensures Holders(k, Pool) <= Holders(l, Pool) + (if HoldsPool(s) && p in l.reservations then {p} else {})
  {
    StatusWriteKeeps(l, lim, p, s, inflight);
    ReleaseIsSound(m, lim, p, s, victims, inflight);
  }

  lemma ChangedHistory(c: Client, d: Client, lim: Limits, p: Ticket, s: TxStatus)
    requires WithinLimits(c, lim) && Mirrored(c.l) && p in c.l.status && Legal(c.l.status[p], s)
    requires d == c.(l := d.l, reentered := if s == Retracted && p in c.l.reservations then c.reentered + {p}
                                            else c.reentered)
    requires Holders(d.l, Pool) <= Holders(c.l, Pool) + (if HoldsPool(s) && p in c.l.reservations then {p} else {})
    ensures WithinLimits(d, lim)
  {
    if p in c.l.reservations && HoldsPool(s) { ReentryIsRetraction(c, p, s); }
    assert Steady(d) <= Steady(c);
    SteadyNeverGrows(c, d, lim);
  }

  lemma ChangedKeepsSound(c: Client, lim: Limits, p: Ticket, s: TxStatus, victims: seq<Ticket>, d: Client)
    requires Sound(c, lim) && Enabled(c, lim, Changed(p, s, victims))
    requires d == Step(c, lim, Changed(p, s, victims))
    ensures Sound(d, lim)
  {
    ChangedLedger(c.l, WithStatus(c.l, p, s), lim, p, s, victims, Inflight(c), d.l);
    ChangedHistory(c, d, lim, p, s);
    SoundFromParts(d, lim);
  }

  /** A ticket that did not hold a pool slot can regain one only by retraction. */
  lemma ReentryIsRetraction(c: Client, p: Ticket, s: TxStatus)
    requires Mirrored(c.l) && p in c.l.status && Legal(c.l.status[p], s)
    requires p in c.l.reservations && HoldsPool(s)
    ensures p in Holders(c.l, Pool) || s == Retracted
  {}

  lemma FreshReservation(l: Ledger, m: Ledger, lim: Limits, p: Ticket)
    requires Mirrored(l) && BacklogBounded(l, lim) && p !in l.reservations && p in l.status
    requires m.reservations == l.reservations[p := Reservation(true, true, false, false)]
    requires m.status == l.status && m.displaced == l.displaced
    ensures MirroredBut(m, p) && BacklogBounded(m, lim) && Holders(m, Pool) == Holders(l, Pool) + {p}
  {
    assert Holders(m, Finalization) == Holders(l, Finalization);
  }

  lemma ReturnedLedger(l: Ledger, lim: Limits, p: Ticket, victims: seq<Ticket>, inflight: int, k: Ledger)
    requires Balanced(l, inflight) && Mirrored(l) && BacklogBounded(l, lim) && p !in l.reservations && p in l.status
    requires Victims(Registered(l, p), lim, p, l.status[p], victims)
    requires k == Release(Registered(l, p), p, l.status[p], victims)
    ensures Balanced(k, inflight - 1) && Mirrored(k) && BacklogBounded(k, lim)
    ensures k.reservations.Keys <= l.reservations.Keys + {p}
    ensures Holders(k, Pool) <= Holders(l, Pool) + {p}
  {
    RegisteredFacts(l, p, inflight);
    FreshReservation(l, Registered(l, p), lim, p);
    ReleaseIsSound(Registered(l, p), lim, p, l.status[p], victims, inflight - 1);
  }

  lemma ReturnedKeepsSound(c: Client, lim: Limits, p: Ticket, priority: bool, victims: seq<Ticket>, d: Client)
    requires Sound(c, lim) && Enabled(c, lim, Returned(p, priority, victims))
    requires d == Step(c, lim, Returned(p, priority, victims))
    ensures Sound(d, lim)
  {
    ReturnedLedger(c.l, lim, p, victims, Inflight(c), d.l);
    OneMoreHolder(c, d, lim, p, priority);
    SoundFromParts(d, lim);
  }

  lemma OneMoreHolder(c: Client, d: Client, lim: Limits, p: Ticket, priority: bool)
    requires WithinLimits(c, lim) && c.viaNormal <= c.registered && p !in c.registered
    requires if priority then c.priority > 0 else c.normal > 0
    requires d.normal == Landed(c, priority).normal && d.priority == Landed(c, priority).priority
    requires d.reentered == c.reentered && d.viaNormal == if priority then c.viaNormal else c.viaNormal + {p}
    requires Holders(d.l, Pool) <= Holders(c.l, Pool) + {p}
    ensures WithinLimits(d, lim)
  {
    SubsetSize(Steady(d), Steady(c) + {p});
    SubsetSize(Steady(d) * d.viaNormal, Steady(c) * c.viaNormal + (if priority then {} else {p}));
  }

  lemma ReleaseBoth(m: Ledger, p: Ticket, inflight: int, k: Ledger)
    requires Balanced(m, inflight) && p in m.reservations
    requires k == WantAdmission(WantPool(m, p, false), p, false)
    ensures Balanced(k, inflight) && k.status == m.status && k.displaced == m.displaced
    ensures k.reservations == m.reservations[p := m.reservations[p].(pool := false, admission := false)]
  {
    var m1 := WantPool(m, p, false);
    WantPoolKeepsBalance(m, p, false, inflight);
    WantPoolEffect(m, p, false);
    WantAdmissionKeepsBalance(m1, p, false, inflight);
    WantAdmissionEffect(m1, p, false);
  }

  lemma NotSentLedger(l: Ledger, m: Ledger, p: Ticket, inflight: int, k: Ledger)
    requires Balanced(m, inflight) && p !in l.reservations
    requires m.reservations == l.reservations[p := Reservation(true, true, false, false)]
    requires k == WantAdmission(WantPool(m, p, false), p, false)
    ensures Balanced(k.(reservations := l.reservations), inflight)
    ensures k.reservations - {p} == l.reservations
    ensures k.status == m.status && k.displaced == m.displaced
  {
    ReleaseBoth(m, p, inflight, k);
    DropKeepsBalance(k, p, inflight);
    assert k.reservations[p] == Reservation(false, false, false, false);
    assert k.reservations - {p} == l.reservations;
  }

  lemma SameReservationsKeep(l: Ledger, k: Ledger, lim: Limits)
    requires k.reservations == l.reservations && k.status == l.status && k.displaced == l.displaced
    requires Mirrored(l) && BacklogBounded(l, lim)
    ensures Mirrored(k) && BacklogBounded(k, lim) && Holders(k, Pool) == Holders(l, Pool)
  {
    assert Holders(k, Finalization) == Holders(l, Finalization);
  }

  lemma NotSentKeepsSound(c: Client, lim: Limits, p: Ticket, priority: bool, d: Client)
    requires Sound(c, lim) && Enabled(c, lim, NotSent(p, priority))
    requires d == Step(c, lim, NotSent(p, priority))
    ensures Sound(d, lim)
  {
    var m := Registered(c.l, p);
    RegisteredFacts(c.l, p, Inflight(c));
    NotSentLedger(c.l, m, p, Inflight(c) - 1, WantAdmission(WantPool(m, p, false), p, false));
    SameReservationsKeep(c.l, d.l, lim);
    SubsetSize(Steady(d) * d.viaNormal, Steady(c) * c.viaNormal);
    SoundFromParts(d, lim);
  }

  lemma CountersMove(l: Ledger, k: Ledger, inflight: int, delta: int)
    requires Balanced(l, inflight)
    requires k == l.(tracked := l.tracked + delta, pool := l.pool + delta, outbound := l.outbound + delta)
    ensures Balanced(k, inflight + delta)
  {
    assert forall f: Flag :: Holders(k, f) == Holders(l, f);
    forall n ensures Refs(k, n) == |NonceHolders(k, n)| {
      assert NonceHolders(k, n) == NonceHolders(l, n) && Refs(k, n) == Refs(l, n) == |NonceHolders(l, n)|;
    }
  }

  lemma SameHolders(l: Ledger, k: Ledger)
    requires k.reservations == l.reservations
    ensures Holders(k, Finalization) == Holders(l, Finalization) && Holders(k, Pool) == Holders(l, Pool)
  {}

  /** In a mirrored ledger a ticket holds its admission exactly while it holds its pool slot, and no outbound place. */
  lemma MirroredHolders(l: Ledger)
    requires Mirrored(l)
    ensures Holders(l, Admission) == Holders(l, Pool) && Holders(l, Outbound) == {}
  {}

  /** A submission admitted: the limits that let it in bound the counters with it in flight. */
  lemma AcquireBounded(c: Client, lim: Limits, priority: bool, d: Client)
    requires CountersBalanced(c.l, Inflight(c)) && WithinLimits(c, lim) && lim.pool <= lim.priorityPool
    requires Holders(c.l, Admission) == Holders(c.l, Pool) && Holders(c.l, Outbound) == {}
    requires HasCapacity(c.l, lim, priority) && Holders(d.l, Pool) == Holders(c.l, Pool)
    requires d.viaNormal == c.viaNormal && d.reentered == c.reentered
    requires if priority then d.normal == c.normal && d.priority == c.priority + 1
             else d.normal == c.normal + 1 && d.priority == c.priority
    ensures WithinLimits(d, lim)
  {
    SubsetSize(Steady(c), Holders(c.l, Pool));
    SubsetSize(Steady(c) * c.viaNormal, Steady(c));
    assert Steady(d) == Steady(c);
  }

  lemma AcquireKeepsSound(c: Client, lim: Limits, priority: bool, d: Client)
    requires Sound(c, lim) && lim.pool <= lim.priorityPool && d == Step(c, lim, Acquire(priority))
    ensures Sound(d, lim)
  {
    if HasCapacity(c.l, lim, priority) {
      CountersMove(c.l, d.l, Inflight(c), 1);
      SameHolders(c.l, d.l);
      MirroredHolders(c.l);
      AcquireBounded(c, lim, priority, d);
      SoundFromParts(d, lim);
    }
  }

  lemma AbandonedKeepsSound(c: Client, lim: Limits, priority: bool, d: Client)
    requires Sound(c, lim) && Enabled(c, lim, Abandoned(priority)) && d == Step(c, lim, Abandoned(priority))
    ensures Sound(d, lim)
  {
    CountersMove(c.l, d.l, Inflight(c), -1);
    SameHolders(c.l, d.l);
    assert Steady(d) == Steady(c);
    SoundFromParts(d, lim);
  }

  lemma TrackedKeepsSound(c: Client, lim: Limits, p: Ticket, d: Client)
    requires Sound(c, lim) && Enabled(c, lim, Tracked(p)) && d == Step(c, lim, Tracked(p))
    ensures Sound(d, lim)
  {
    StatusWriteKeeps(c.l, lim, p, TxStatus.Created, Inflight(c));
    SoundFromParts(d, lim);
  }

  lemma DisplacedIsNotCounted(l: Ledger, displaced: set<Ticket>, inflight: int, lim: Limits)
    requires Balanced(l, inflight) && BacklogBounded(l, lim) && l.displaced <= displaced
    ensures var k := l.(displaced := displaced);
            Balanced(k, inflight) && BacklogBounded(k, lim) && Holders(k, Pool) == Holders(l, Pool)
  {
    var k := l.(displaced := displaced);
    assert forall f: Flag :: Holders(k, f) == Holders(l, f);
    forall n ensures Refs(k, n) == |NonceHolders(k, n)| {
      assert NonceHolders(k, n) == NonceHolders(l, n) && Refs(k, n) == Refs(l, n) == |NonceHolders(l, n)|;
    }
    SubsetSize(Holders(l, Finalization) * l.displaced, Holders(k, Finalization) * displaced);
  }

  lemma DisplacedKeepsSound(c: Client, lim: Limits, p: Ticket, d: Client)
    requires Sound(c, lim) && d == Step(c, lim, Displaced(p))
    ensures Sound(d, lim)
  {
    DisplacedIsNotCounted(c.l, c.l.displaced + {p}, Inflight(c), lim);
    SoundFromParts(d, lim);
  }

  lemma StepKeepsSound(c: Client, lim: Limits, e: Event)
    requires Sound(c, lim) && Enabled(c, lim, e) && lim.pool <= lim.priorityPool
    ensures Sound(Step(c, lim, e), lim)
  {
    var d := Step(c, lim, e);
    match e
    case Returned(p, priority, victims) => ReturnedKeepsSound(c, lim, p, priority, victims, d);
    case NotSent(p, priority) => NotSentKeepsSound(c, lim, p, priority, d);
    case Changed(p, s, victims) => ChangedKeepsSound(c, lim, p, s, victims, d);
    case Tracked(p) => TrackedKeepsSound(c, lim, p, d);
    case Displaced(p) => DisplacedKeepsSound(c, lim, p, d);
    case Acquire(priority) => AcquireKeepsSound(c, lim, priority, d);
    case Abandoned(priority) => AbandonedKeepsSound(c, lim, priority, d);
  }

  lemma {:induction false} RunKeepsSound(c: Client, lim: Limits, events: seq<Event>)
    requires Sound(c, lim) && Run(c, lim, events) && lim.pool <= lim.priorityPool
    ensures Sound(After(c, lim, events), lim)
    decreases |events|
  {
    if events != [] {
      StepKeepsSound(c, lim, events[0]);
      RunKeepsSound(Step(c, lim, events[0]), lim, events[1..]);
    }
  }

  lemma FreshIsSound(c: Client, lim: Limits)
    requires Fresh(c)
    ensures Sound(c, lim)
  {
    assert forall f: Flag :: Holders(c.l, f) == {};
    forall n ensures Refs(c.l, n) == |NonceHolders(c.l, n)| { assert NonceHolders(c.l, n) == {}; }
  }

  /** Conservation, the backlog bound and the admission bounds, after any run of the client. */
  lemma EveryRunIsSound(c: Client, lim: Limits, events: seq<Event>)
    requires Fresh(c) && Run(c, lim, events) && lim.pool <= lim.priorityPool
    ensures Sound(After(c, lim, events), lim)
  {
    FreshIsSound(c, lim);
    RunKeepsSound(c, lim, events);
  }

  /** The pool count passes the priority limit by no more than the holders that came back by retraction. */
  lemma PoolOvershoot(c: Client, lim: Limits, events: seq<Event>, d: Client)
    requires Fresh(c) && Run(c, lim, events) && lim.pool <= lim.priorityPool && d == After(c, lim, events)
    ensures d.l.pool <= lim.priorityPool + |Holders(d.l, Pool) * d.reentered|
  {
    EveryRunIsSound(c, lim, events);
    assert Holders(d.l, Pool) == Steady(d) + Holders(d.l, Pool) * d.reentered;
  }

  /** The outbound count never passes its limit, and the tracked count only by the holders that came back by
      retraction. */
  lemma AdmissionLimitsHold(c: Client, lim: Limits, events: seq<Event>, d: Client)
    requires Fresh(c) && Run(c, lim, events) && lim.pool <= lim.priorityPool && d == After(c, lim, events)
    ensures d.l.outbound == Inflight(d) <= lim.outbound
    ensures d.l.tracked <= lim.tracked + |Holders(d.l, Admission) * d.reentered|
  {
    EveryRunIsSound(c, lim, events);
    MirroredHolders(d.l);
    assert Holders(d.l, Pool) == Steady(d) + Holders(d.l, Pool) * d.reentered;
  }

  /** Backpressure is raised only at a limit: an admission that changes nothing met the tracked limit, the outbound
      limit or the pool limit of its priority; every other takes one of each. */
  lemma RefusedExactlyAtALimit(c: Client, lim: Limits, priority: bool, d: Client)
    requires d == Step(c, lim, Acquire(priority))
    ensures var full := c.l.tracked >= lim.tracked || c.l.outbound >= lim.outbound
                        || c.l.pool >= (if priority then lim.priorityPool else lim.pool);
            && (d == c <==> full)
            && (!full ==> d.l == c.l.(tracked := c.l.tracked + 1, pool := c.l.pool + 1, outbound := c.l.outbound + 1)
                          && Inflight(d) == Inflight(c) + 1
                          && d.priority == c.priority + (if priority then 1 else 0))
  {}

  /** Who holds what after any run: a registered ticket its admission and its pool slot exactly while CREATED,
      SUBMITTING, SUBMITTED or RETRACTED, a finalization slot exactly while executed, and never an outbound place. */
  lemma WhoHoldsWhat(c: Client, lim: Limits, events: seq<Event>, d: Client, p: Ticket)
    requires Fresh(c) && Run(c, lim, events) && lim.pool <= lim.priorityPool && d == After(c, lim, events)
    requires p in d.l.reservations
    ensures p in d.l.status && d.l.status[p] in {Created, Submitting, Submitted, Retracted, InBlockSuccess}
    ensures d.l.reservations[p].admission <==> d.l.status[p] != InBlockSuccess
    ensures d.l.reservations[p].pool <==> d.l.status[p] != InBlockSuccess
    ensures d.l.reservations[p].finalization <==> d.l.status[p] == InBlockSuccess
    ensures !d.l.reservations[p].outbound
  {
    EveryRunIsSound(c, lim, events);
  }

  /** The finalization count stays within its limit as long as no executed ticket is lost to the tracker. */
  lemma BacklogWithinLimit(c: Client, lim: Limits, events: seq<Event>, d: Client)
    requires Fresh(c) && Run(c, lim, events) && lim.pool <= lim.priorityPool && d == After(c, lim, events)
    requires Holders(d.l, Finalization) !! d.l.displaced
    ensures d.l.finalization <= lim.finalization
  {
    EveryRunIsSound(c, lim, events);
    assert Holders(d.l, Finalization) * d.l.displaced == {};
  }

  /** No leak: once nothing is in flight and every registered ticket is terminal, every counter is zero and both
      maps are empty. */
  lemma NothingLeaks(c: Client, lim: Limits, events: seq<Event>, d: Client)
    requires Fresh(c) && Run(c, lim, events) && lim.pool <= lim.priorityPool && d == After(c, lim, events)
    requires Inflight(d) == 0 && forall p | p in d.registered :: p in d.l.status && Terminal(d.l.status[p])
    ensures Empty(d.l)
  {
    EveryRunIsSound(c, lim, events);
    SettledIsEmpty(d, lim);
  }

  lemma SettledIsEmpty(c: Client, lim: Limits)
    requires Sound(c, lim) && Inflight(c) == 0
    requires forall p | p in c.registered :: p in c.l.status && Terminal(c.l.status[p])
    ensures Empty(c.l)
  {
    assert forall p | p in c.l.reservations :: p in c.registered;
    assert c.l.reservations.Keys == {};
    NothingHeld(c, lim);
  }

  // ---------- closing the client ----------

  /** `close` ends each ticket the tracker still lists, one after the other. */
  function Closings(ps: seq<Ticket>): seq<Event> {
    seq(|ps|, i requires 0 <= i < |ps| => Changed(ps[i], ClientClosed, []))
  }

  predicate OpenTicket(l: Ledger, p: Ticket) {
    p in l.status && !Terminal(l.status[p])
  }

  /** The tracker's open tickets: those it has lost are not among them. */
  ghost predicate ListsOpen(l: Ledger, ps: seq<Ticket>) {
    && Distinct(ps)
    && (forall p :: p in ps <==> OpenTicket(l, p) && p !in l.displaced)
  }

  /** `mark_client_closed` with the status callback it causes; a closed ticket is passed over. */
  function CloseOne(l: Ledger, p: Ticket): Ledger {
    if OpenTicket(l, p) then Release0(WithStatus(l, p, ClientClosed), p, ClientClosed) else l
  }

  function CloseAll(l: Ledger, ps: seq<Ticket>): Ledger
    decreases |ps|
  {
    if ps == [] then l else CloseAll(CloseOne(l, ps[0]), ps[1..])
  }

  predicate NoneOutbound(l: Ledger) {
    forall p | p in l.reservations :: !l.reservations[p].outbound
  }

  lemma CloseOneEffect(l: Ledger, p: Ticket, k: Ledger)
    requires NoneOutbound(l) && OpenTicket(l, p) && k == CloseOne(l, p)
    ensures k.reservations == l.reservations - {p} && k.displaced == l.displaced
    ensures k.status == l.status[p := ClientClosed] && NoneOutbound(k)
  {
    if p in l.reservations { Release0Effect(WithStatus(l, p, ClientClosed), p, ClientClosed); }
  }

  lemma {:induction false} CloseAllEffect(l: Ledger, ps: seq<Ticket>)
    requires NoneOutbound(l) && Distinct(ps) && forall i | 0 <= i < |ps| :: OpenTicket(l, ps[i])
    ensures CloseAll(l, ps).reservations == l.reservations - Members(ps) && CloseAll(l, ps).displaced == l.displaced
    decreases |ps|
  {
    if ps == [] {
      assert l.reservations - Members(ps) == l.reservations;
    } else {
      var k := CloseOne(l, ps[0]);
      CloseOneEffect(l, ps[0], k);
      CloseAllEffect(k, ps[1..]);
      assert ps == [ps[0]] + ps[1..];
      assert Members(ps) == {ps[0]} + Members(ps[1..]);
      assert l.reservations - {ps[0]} - Members(ps[1..]) == l.reservations - Members(ps);
    }
  }

  lemma ClosingIsEnabled(c: Client, lim: Limits, p: Ticket, d: Client)
    requires OpenTicket(c.l, p) && d == Step(c, lim, Changed(p, ClientClosed, []))
    ensures Enabled(c, lim, Changed(p, ClientClosed, [])) && Inflight(d) == Inflight(c)
    ensures d.l == CloseOne(c.l, p)
  {}

  lemma ClosingKeepsOthers(l: Ledger, p: Ticket, q: Ticket)
    requires OpenTicket(l, p) && OpenTicket(l, q) && p != q
    ensures OpenTicket(CloseOne(l, p), q)
  {
    Release0KeepsStatus(WithStatus(l, p, ClientClosed), p);
  }

  lemma Release0KeepsStatus(l: Ledger, p: Ticket)
    ensures Release0(l, p, ClientClosed).status == l.status
  {}

  /** Closing the tickets is a run of the client. */
  lemma {:induction false} ClosingsAreARun(c: Client, lim: Limits, ps: seq<Ticket>) returns (d: Client)
    requires Distinct(ps) && forall i | 0 <= i < |ps| :: OpenTicket(c.l, ps[i])
    ensures Run(c, lim, Closings(ps)) && d == After(c, lim, Closings(ps))
    ensures d.l == CloseAll(c.l, ps) && Inflight(d) == Inflight(c)
    decreases |ps|
  {
    d := c;
    if ps != [] {
      var c1 := Step(c, lim, Changed(ps[0], ClientClosed, []));
      ClosingIsEnabled(c, lim, ps[0], c1);
      forall i | 0 <= i < |ps| - 1 ensures OpenTicket(c1.l, ps[1..][i]) { ClosingKeepsOthers(c.l, ps[0], ps[i + 1]); }
      d := ClosingsAreARun(c1, lim, ps[1..]);
      assert Closings(ps)[0] == Changed(ps[0], ClientClosed, []) && Closings(ps)[1..] == Closings(ps[1..]);
    }
  }

  /** Tickets that hold a reservation and are lost to the tracker. */
  function LostHolders(l: Ledger): set<Ticket> {
    set p | p in l.reservations && p in l.displaced
  }

  predicate Empty(l: Ledger) {
    l.tracked == l.pool == l.outbound == l.finalization == 0 && l.reservations == map[] && l.refs == map[]
  }

  lemma ClosedLeavesDisplaced(l: Ledger, ps: seq<Ticket>, k: Ledger)
    requires Mirrored(l) && ListsOpen(l, ps) && k.reservations == l.reservations - Members(ps)
    ensures k.reservations.Keys == LostHolders(l)
  {
    forall p | p in l.reservations ensures p in Members(ps) <==> p !in l.displaced { assert OpenTicket(l, p); }
  }

  /** After any run, closing the client with nothing in flight empties every counter and map, exactly unless some ticket
      holding a reservation is lost to the tracker: such a ticket is not closed and keeps what it holds. */
  lemma CloseEmptiesIff(c: Client, lim: Limits, events: seq<Event>, d: Client, ps: seq<Ticket>) returns (e: Client)
    requires Fresh(c) && Run(c, lim, events) && lim.pool <= lim.priorityPool && d == After(c, lim, events)
    requires Inflight(d) == 0 && ListsOpen(d.l, ps)
    ensures Run(d, lim, Closings(ps)) && e == After(d, lim, Closings(ps))
    ensures Empty(e.l) <==> LostHolders(d.l) == {}
    ensures e.l.reservations.Keys == LostHolders(d.l)
  {
    EveryRunIsSound(c, lim, events);
    e := ClosedAll(d, lim, ps);
    EmptyIffNoneHeld(e, lim);
  }

  lemma EmptyIffNoneHeld(c: Client, lim: Limits)
    requires Sound(c, lim) && Inflight(c) == 0
    ensures Empty(c.l) <==> c.l.reservations.Keys == {}
  {
    if c.l.reservations.Keys == {} { NothingHeld(c, lim); }
  }

  lemma ClosedAll(d: Client, lim: Limits, ps: seq<Ticket>) returns (e: Client)
    requires Sound(d, lim) && lim.pool <= lim.priorityPool && ListsOpen(d.l, ps)
    ensures Run(d, lim, Closings(ps)) && e == After(d, lim, Closings(ps)) && Sound(e, lim) && Inflight(e) == Inflight(d)
    ensures e.l.reservations.Keys == LostHolders(d.l)
  {
    forall i | 0 <= i < |ps| ensures OpenTicket(d.l, ps[i]) { assert ps[i] in ps; }
    e := ClosingsAreARun(d, lim, ps);
    RunKeepsSound(d, lim, Closings(ps));
    MirroredMeansNoneOutbound(d.l);
    CloseAllEffect(d.l, ps);
    ClosedLeavesDisplaced(d.l, ps, e.l);
  }

  lemma MirroredMeansNoneOutbound(l: Ledger)
    requires Mirrored(l)
    ensures NoneOutbound(l)
  {}

  lemma NothingHeld(c: Client, lim: Limits)
    requires Sound(c, lim) && Inflight(c) == 0 && c.l.reservations == map[]
    ensures Empty(c.l)
  {
    assert forall f: Flag :: Holders(c.l, f) == {};
    forall n ensures n !in c.l.refs {
      assert NonceHolders(c.l, n) == {};
      assert Refs(c.l, n) == |NonceHolders(c.l, n)|;
    }
    assert c.l.refs.Keys == {};
  }
}
