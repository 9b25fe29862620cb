/** The client object whose counters, reservation map and nonce reference counts the accountant updates in place.
    The reservation objects of the original are values of the map here. */
module CapacityClient {
  import opened TxLifecycle
  import opened Capacity
  import opened CapacityRuns

  lemma {:induction false} ForceAllAppends(l: Ledger, ps: seq<Ticket>, p: Ticket)
    ensures ForceAll(l, ps + [p]) == Force(ForceAll(l, ps), p)
    decreases |ps|
  {
    if ps == [] {
      assert ForceAll(Force(l, p), []) == Force(l, p);
    } else {
      assert (ps + [p])[1..] == ps[1..] + [p];
      ForceAllAppends(Force(l, ps[0]), ps[1..], p);
    }
  }

  function Prefix(ps: seq<Ticket>, k: nat): seq<Ticket> {
    if k <= |ps| then ps[..k] else ps
  }

  lemma {:induction false} OldestFirstPrefix(ps: seq<Ticket>, s: set<Ticket>, k: nat)
    requires OldestFirst(ps, s, |s|)
    ensures OldestFirst(Prefix(ps, k), s, k)
    decreases |s|
  {
    if k > 0 && s != {} {
      OldestFirstPrefix(ps[1..], s - {ps[0]}, k - 1);
      assert Prefix(ps, k)[1..] == Prefix(ps[1..], k - 1);
    }
  }

  function CountOf(m: map<int, int>, n: int): int {
    if n in m then m[n] else 0
  }

  /** The candidates in order of creation. */
  method SortedByAge(s: set<Ticket>) returns (ps: seq<Ticket>)
    ensures OldestFirst(ps, s, |s|)
    decreases |s|
  {
    ps := [];
    if s != {} {
      var oldest := OldestOf(s);
      var rest := SortedByAge(s - {oldest});
      ps := [oldest] + rest;
    }
  }

  method OldestOf(s: set<Ticket>) returns (oldest: Ticket)
    requires s != {}
    ensures IsOldest(oldest, s)
  {
    oldest :| oldest in s;
    var unseen := s - {oldest};
    while unseen != {}
      invariant unseen <= s && oldest in s
      invariant forall q | q in s && q !in unseen :: NotYounger(oldest, q)
      decreases unseen
    {
      var q :| q in unseen;
      if !NotYounger(oldest, q) { oldest := q; }
      unseen := unseen - {q};
    }
  }

  class AsyncChainClient {
    const lim: Limits
    var trackedCount: int
    var poolCount: int
    var outboundCount: int
    var finalizationCount: int
    var reservations: map<Ticket, Reservation>
    var noncePoolRefs: map<int, int>
    // The tickets' own statuses, and the tickets the tracker has lost.
    var status: map<Ticket, TxStatus>
    var displaced: set<Ticket>

    ghost function State(): Ledger
      reads this
    {
      Ledger(trackedCount, poolCount, outboundCount, finalizationCount, reservations, noncePoolRefs, status, displaced)
    }

    constructor (lim: Limits)
      ensures this.lim == lim && State() == Ledger(0, 0, 0, 0, map[], map[], map[], {})
    {
      this.lim := lim;
      trackedCount, poolCount, outboundCount, finalizationCount := 0, 0, 0, 0;
      reservations, noncePoolRefs, status, displaced := map[], map[], map[], {};
    }

    /** Either takes one of each counter or raises a backpressure error and changes nothing. */
    method AcquireCapacity(priority: bool) returns (ok: bool)
      modifies this
      ensures ok <==> old(trackedCount) < lim.tracked && old(outboundCount) < lim.outbound
                      && old(poolCount) < (if priority then lim.priorityPool else lim.pool)
      ensures ok <==> HasCapacity(old(State()), lim, priority)
      ensures State() == if ok then old(State()).(tracked := old(trackedCount) + 1, pool := old(poolCount) + 1,
                                                   outbound := old(outboundCount) + 1)
                         else old(State())
    {
      var poolLimit := if priority then lim.priorityPool else lim.pool;
      ok := trackedCount < lim.tracked && poolCount < poolLimit && outboundCount < lim.outbound;
      if ok {
        trackedCount, poolCount, outboundCount := trackedCount + 1, poolCount + 1, outboundCount + 1;
      }
    }

    method RegisterPending(p: Ticket)
      modifies this
      ensures State() == Register(old(State()), p)
    {
      reservations := reservations[p := Reservation(true, true, true, false)];
      noncePoolRefs := noncePoolRefs[p.nonce := CountOf(noncePoolRefs, p.nonce) + 1];
    }

    method DoReleaseOutbound(p: Ticket)
      modifies this
      requires p in reservations
      ensures State() == ReleaseOutbound(old(State()), p)
    {
      if reservations[p].outbound {
        reservations := reservations[p := reservations[p].(outbound := false)];
        outboundCount := outboundCount - 1;
      }
    }

    method DoReleasePool(p: Ticket)
      modifies this
      requires p in reservations
      ensures State() == ReleasePool(old(State()), p)
    {
      if reservations[p].pool {
        reservations := reservations[p := reservations[p].(pool := false)];
        poolCount := poolCount - 1;
        var refs := CountOf(noncePoolRefs, p.nonce);
        if refs <= 1 {
          noncePoolRefs := noncePoolRefs - {p.nonce};
        } else {
          noncePoolRefs := noncePoolRefs[p.nonce := refs - 1];
        }
      }
    }

    method DoReleaseTracked(p: Ticket)
      modifies this
      requires p in reservations
      ensures State() == ReleaseTracked(old(State()), p)
    {
      if reservations[p].admission {
        reservations := reservations[p := reservations[p].(admission := false)];
        trackedCount := trackedCount - 1;
      }
    }

    /** The status callback. While it opens a finalization slot it may call itself through other tickets' marks. */
    method ReleaseForStatus(p: Ticket, s: TxStatus) returns (ghost victims: seq<Ticket>)
      modifies this
      ensures Victims(old(State()), lim, p, s, victims)
      ensures State() == Release(old(State()), p, s, victims)
      decreases if s == InBlockSuccess then 3 else 0
    {
      victims := [];
      if p !in reservations { return; }
      ghost var l := State();
      TakeAdmissionAndPool(p, HoldsPool(s));
      if s == InBlockSuccess && !reservations[p].finalization {
        SetFinalization(p, true);
        assert State() == Opened(l, p);
        victims := EnforceFinalizationLimit();
      } else if s != InBlockSuccess {
        SetFinalization(p, false);
      }
      if p in reservations && reservations[p] == Reservation(false, false, false, false) {
        reservations := reservations - {p};
      }
    }

    method TakeAdmissionAndPool(p: Ticket, wanted: bool)
      modifies this
      requires p in reservations
      ensures State() == WantPool(WantAdmission(old(State()), p, wanted), p, wanted)
    {
      if wanted && !reservations[p].admission {
        reservations := reservations[p := reservations[p].(admission := true)];
        trackedCount := trackedCount + 1;
      } else if !wanted {
        DoReleaseTracked(p);
      }
      if wanted && !reservations[p].pool {
        reservations := reservations[p := reservations[p].(pool := true)];
        poolCount := poolCount + 1;
        noncePoolRefs := noncePoolRefs[p.nonce := CountOf(noncePoolRefs, p.nonce) + 1];
      } else if !wanted {
        DoReleasePool(p);
      }
    }

    method SetFinalization(p: Ticket, wanted: bool)
      modifies this
      requires p in reservations
      ensures State() == WantFinalization(old(State()), p, wanted)
    {
      if wanted && !reservations[p].finalization {
        reservations := reservations[p := reservations[p].(finalization := true)];
        finalizationCount := finalizationCount + 1;
      } else if !wanted && reservations[p].finalization {
        reservations := reservations[p := reservations[p].(finalization := false)];
        finalizationCount := finalizationCount - 1;
      }
    }

    method EnforceFinalizationLimit() returns (ghost victims: seq<Ticket>)
      modifies this
      ensures OldestFirst(victims, Holders(old(State()), Finalization), Excess(old(State()), lim))
      ensures State() == ForceAll(old(State()), victims)
      decreases 2
    {
      victims := [];
      var excess := finalizationCount - lim.finalization;
      if excess <= 0 { return; }
      ghost var l := State();
      var held := set p | p in reservations && reservations[p].finalization;
      assert held == Holders(l, Finalization);
      var candidates := SortedByAge(held);
      OldestFirstPrefix(candidates, held, excess);
      victims := Prefix(candidates, excess);
      var i := 0;
      while i < excess && i < |candidates|
        invariant 0 <= i <= |Prefix(candidates, excess)|
        invariant State() == ForceAll(l, candidates[..i])
      {
        ForceAllAppends(l, candidates[..i], candidates[i]);
        assert candidates[..i + 1] == candidates[..i] + [candidates[i]];
        MarkReconciliationRequired(candidates[i]);
        i := i + 1;
      }
      assert candidates[..i] == victims;
    }

    /** The tracker's forced transition, together with the status callback it runs before it returns. */
    method MarkReconciliationRequired(p: Ticket)
      modifies this
      ensures State() == Force(old(State()), p)
      decreases 1
    {
      if p !in displaced && p in status && Reconcilable(status[p]) {
        status := status[p := ReconciliationRequired];
        ghost var none := ReleaseForStatus(p, ReconciliationRequired);
      }
    }

    /** The end of a submission that produced a handle. */
    method SubmissionReturned(p: Ticket) returns (ghost victims: seq<Ticket>)
      modifies this
      requires p in status
      ensures Victims(Registered(old(State()), p), lim, p, old(status)[p], victims)
      ensures State() == Release(Registered(old(State()), p), p, old(status)[p], victims)
    {
      RegisterPending(p);
      DoReleaseOutbound(p);
      victims := ReleaseForStatus(p, status[p]);
    }

    /** The end of a submission whose bytes never left the client. */
    method SubmissionNotSent(p: Ticket)
      modifies this
      ensures var k := ReleaseTracked(ReleasePool(Registered(old(State()), p), p), p);
              State() == k.(reservations := k.reservations - {p})
    {
      RegisterPending(p);
      DoReleaseOutbound(p);
      DoReleasePool(p);
      DoReleaseTracked(p);
      reservations := reservations - {p};
    }

    method ReleaseUnboundCapacity()
      modifies this
      ensures State() == old(State()).(tracked := old(trackedCount) - 1, pool := old(poolCount) - 1,
                                       outbound := old(outboundCount) - 1)
    {
      trackedCount, poolCount, outboundCount := trackedCount - 1, poolCount - 1, outboundCount - 1;
    }

    /** `mark_client_closed` for a ticket still open, together with its status callback. */
    method MarkClientClosed(p: Ticket)
      modifies this
      ensures State() == CloseOne(old(State()), p)
    {
      if p in status && status[p] !in TERMINAL {
        status := status[p := ClientClosed];
        ghost var none := ReleaseForStatus(p, ClientClosed);
      }
    }

    /** The loop of `close` over the tickets the tracker lists. */
    method CloseTickets(listed: seq<Ticket>)
      modifies this
      ensures State() == CloseAll(old(State()), listed)
    {
      var i := 0;
      while i < |listed|
        invariant i <= |listed| && CloseAll(old(State()), listed) == CloseAll(State(), listed[i..])
      {
        assert listed[i..][1..] == listed[i + 1..];
        MarkClientClosed(listed[i]);
        i := i + 1;
      }
    }
  }
}
