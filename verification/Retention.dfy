/** Bounded retention of finished tickets: the tracker's entries by hash, and the manager's indexes by hash and cloid.
    A ticket is an object; its hash and cloid never change, and another ticket may be created with the same ones. */
module Retention {
  import opened Options
  import opened Shared

  datatype Name = Name(text: int)

  datatype Ticket = Ticket(id: int, hash: Name, cloid: Option<Name>)

  datatype Column = ByHash | ByCloid

  function Key(c: Column, t: Ticket): Option<Name> {
    if c == ByHash then Some(t.hash) else t.cloid
  }

  type Index = map<Name, Ticket>

  function Put(c: Column, m: Index, t: Ticket): Index {
    if Key(c, t).Some? then m[Key(c, t).value := t] else m
  }

  /** Removal only where the index still holds this very ticket. */
  function Drop(c: Column, m: Index, t: Ticket): Index {
    var k := Key(c, t);
    if k.Some? && k.value in m && m[k.value] == t then m - {k.value} else m
  }

  // ---------- an index, and what it should hold ----------

  /** An index holds, under each key, the ticket created last with that key, as long as that ticket is to be kept. */
  ghost predicate Indexed(c: Column, m: Index, latest: Index, keep: set<Ticket>) {
    && (forall k | k in latest :: Key(c, latest[k]) == Some(k))
    && (forall k | k in m :: k in latest && m[k] == latest[k])
    && (forall k | k in latest :: k in m <==> latest[k] in keep)
  }

  lemma PutKeepsIndexed(c: Column, m: Index, latest: Index, keep: set<Ticket>, t: Ticket)
    requires Indexed(c, m, latest, keep) && t !in latest.Values
    ensures Indexed(c, Put(c, m, t), Put(c, latest, t), keep + {t})
  {
    assert forall k | k in latest :: latest[k] != t by {
      assert forall k | k in latest :: latest[k] in latest.Values;
    }
  }

  lemma DropKeepsIndexed(c: Column, m: Index, latest: Index, keep: set<Ticket>, t: Ticket)
    requires Indexed(c, m, latest, keep)
    ensures Indexed(c, Drop(c, m, t), latest, keep - {t})
  {}

  // ---------- the eviction loops, as functions ----------

  function Evict(c: Column, m: Index, completed: seq<Ticket>, max: nat): Index
    decreases |completed|
  {
    if |completed| <= max then m else Evict(c, Drop(c, m, completed[0]), completed[1..], max)
  }

  function Newest(completed: seq<Ticket>, max: nat): seq<Ticket> {
    if |completed| <= max then completed else completed[|completed| - max..]
  }

  /** The tickets an eviction pushes out. */
  function Oldest(completed: seq<Ticket>, max: nat): seq<Ticket> {
    if |completed| <= max then [] else completed[..|completed| - max]
  }

  lemma OutOfQueue(live: set<Ticket>, completed: seq<Ticket>)
    requires completed != [] && Distinct(completed) && live !! Members(completed)
    ensures live + Members(completed) - {completed[0]} == live + Members(completed[1..])
    ensures Distinct(completed[1..]) && live !! Members(completed[1..])
  {
    forall t | t in completed && t != completed[0] ensures t in completed[1..] {
      var i :| 0 <= i < |completed| && completed[i] == t;
      assert completed[1..][i - 1] == t;
    }
    forall t | t in completed[1..] ensures t in completed && t != completed[0] {}
  }

  lemma {:induction false} EvictKeepsIndexed(c: Column, m: Index, latest: Index, live: set<Ticket>,
                                             completed: seq<Ticket>, max: nat)
    requires Indexed(c, m, latest, live + Members(completed)) && Distinct(completed) && live !! Members(completed)
    ensures Indexed(c, Evict(c, m, completed, max), latest, live + Members(Newest(completed, max)))
    ensures Distinct(Newest(completed, max)) && live !! Members(Newest(completed, max))
    decreases |completed|
  {
    if |completed| > max {
      DropKeepsIndexed(c, m, latest, live + Members(completed), completed[0]);
      OutOfQueue(live, completed);
      EvictKeepsIndexed(c, Drop(c, m, completed[0]), latest, live, completed[1..], max);
      assert Newest(completed[1..], max) == Newest(completed, max);
    }
  }

  function Hashes(ts: seq<Ticket>): set<Name> { set t | t in ts :: t.hash }

  lemma {:induction false} FewHashes(ts: seq<Ticket>)
    ensures |Hashes(ts)| <= |ts| && |Members(ts)| <= |ts|
    decreases |ts|
  {
    if ts != [] {
      FewHashes(ts[1..]);
      assert ts == [ts[0]] + ts[1..];
      SubsetSize(Members(ts), Members(ts[1..]) + {ts[0]});
      assert Hashes(ts) <= Hashes(ts[1..]) + {ts[0].hash};
      SubsetSize(Hashes(ts), Hashes(ts[1..]) + {ts[0].hash});
    }
  }

  /** Distinct keys hold distinct tickets, so an index is no larger than what it keeps. */
  lemma {:induction false} IndexIsSmall(c: Column, m: Index, keep: set<Ticket>)
    requires forall k | k in m :: Key(c, m[k]) == Some(k) && m[k] in keep
    ensures |m| <= |keep|
    decreases |m|
  {
    if m != map[] {
      var k :| k in m.Keys;
      var t := m[k];
      assert (m - {k}).Keys == m.Keys - {k};
      IndexIsSmall(c, m - {k}, keep - {t});
    }
  }

  // ---------- the tracker ----------

  /** `latest`, `seen` and `live` are history: the ticket submitted last under each hash, all tickets, the open ones. */
  datatype Entries = Entries(
    entries: Index, active: Index, completed: seq<Ticket>, latest: Index, seen: set<Ticket>, live: set<Ticket>)

  datatype Event = Submit(t: Ticket) | Close(t: Ticket)

  predicate CanDo(seen: set<Ticket>, live: set<Ticket>, e: Event) {
    match e
    case Submit(t) => t !in seen
    case Close(t) => t in live
  }

  /** A ticket no longer stored under its hash leaves the queue of completed ones alone. */
  function Track(s: Entries, e: Event, max: nat): Entries {
    match e
    case Submit(t) =>
      Entries(Put(ByHash, s.entries, t), Put(ByHash, s.active, t), s.completed,
              Put(ByHash, s.latest, t), s.seen + {t}, s.live + {t})
    case Close(t) =>
      var s1 := s.(active := Drop(ByHash, s.active, t), live := s.live - {t});
      if t.hash !in s.entries || s.entries[t.hash] != t then s1
      else
        var queue := s.completed + [t];
        s1.(entries := Evict(ByHash, s.entries, queue, max), completed := Newest(queue, max))
  }

  ghost predicate Stored(s: Entries, max: nat) {
    && s.latest.Values <= s.seen && s.live <= s.seen && Members(s.completed) <= s.seen
    && Distinct(s.completed) && s.live !! Members(s.completed) && |s.completed| <= max
    && Indexed(ByHash, s.active, s.latest, s.live)
    && Indexed(ByHash, s.entries, s.latest, s.live + Members(s.completed))
  }

  lemma LatestGrows(c: Column, latest: Index, seen: set<Ticket>, t: Ticket)
    requires latest.Values <= seen
    ensures Put(c, latest, t).Values <= seen + {t}
  {}

  lemma SubmitKeepsStored(s: Entries, t: Ticket, max: nat)
    requires Stored(s, max) && t !in s.seen
    ensures Stored(Track(s, Submit(t), max), max)
  {
    PutKeepsIndexed(ByHash, s.active, s.latest, s.live, t);
    PutKeepsIndexed(ByHash, s.entries, s.latest, s.live + Members(s.completed), t);
    LatestGrows(ByHash, s.latest, s.seen, t);
    assert s.live + Members(s.completed) + {t} == s.live + {t} + Members(s.completed);
  }

  lemma Enqueued(live: set<Ticket>, completed: seq<Ticket>, t: Ticket)
    requires Distinct(completed) && live !! Members(completed) && t in live
    ensures Distinct(completed + [t]) && (live - {t}) !! Members(completed + [t])
    ensures live - {t} + Members(completed + [t]) == live + Members(completed)
  {
    var queue := completed + [t];
    forall i, j | 0 <= i < j < |queue| ensures queue[i] != queue[j] {
      assert queue[i] in Members(completed);
    }
    assert Members(queue) == Members(completed) + {t};
  }

  lemma NewestAreMembers(queue: seq<Ticket>, max: nat)
    ensures Members(Newest(queue, max)) <= Members(queue) && |Newest(queue, max)| <= max
  {}

  lemma CloseKeepsStored(s: Entries, t: Ticket, max: nat)
    requires Stored(s, max) && t in s.live
    ensures Stored(Track(s, Close(t), max), max)
  {
    DropKeepsIndexed(ByHash, s.active, s.latest, s.live, t);
    if t.hash in s.entries && s.entries[t.hash] == t {
      var queue := s.completed + [t];
      Enqueued(s.live, s.completed, t);
      EvictKeepsIndexed(ByHash, s.entries, s.latest, s.live - {t}, queue, max);
      NewestAreMembers(queue, max);
      assert Members(queue) == Members(s.completed) + {t};
    } else {
      assert forall k | k in s.latest :: s.latest[k] != t;
    }
  }

  ghost predicate Run(s: Entries, es: seq<Event>, max: nat)
    decreases |es|
  {
    es == [] || (CanDo(s.seen, s.live, es[0]) && Run(Track(s, es[0], max), es[1..], max))
  }

  ghost function After(s: Entries, es: seq<Event>, max: nat): Entries
    requires Run(s, es, max)
    decreases |es|
  {
    if es == [] then s else After(Track(s, es[0], max), es[1..], max)
  }

  const NO_ENTRIES := Entries(map[], map[], [], map[], {}, {})

  lemma {:induction false} RunKeepsStored(s: Entries, es: seq<Event>, max: nat)
    requires Stored(s, max) && Run(s, es, max)
    ensures Stored(After(s, es, max), max)
    decreases |es|
  {
    if es != [] {
      if es[0].Submit? { SubmitKeepsStored(s, es[0].t, max); } else { CloseKeepsStored(s, es[0].t, max); }
      RunKeepsStored(Track(s, es[0], max), es[1..], max);
    }
  }

  /** In every run: what is stored under a hash is the ticket submitted last with it, and it is stored exactly while it
      is open or among the retained completed ones; so retention never costs an open ticket its entry. */
  lemma LiveEntriesAreKept(es: seq<Event>, max: nat, t: Ticket)
    requires Run(NO_ENTRIES, es, max)
    requires var s := After(NO_ENTRIES, es, max); t.hash in s.latest && s.latest[t.hash] == t
    ensures var s := After(NO_ENTRIES, es, max);
            && (t.hash in s.entries <==> t in s.live || t in s.completed)
            && (t.hash in s.entries ==> s.entries[t.hash] == t)
            && (t in s.live ==> t.hash in s.active && s.active[t.hash] == t)
  {
    RunKeepsStored(NO_ENTRIES, es, max);
  }

  /** So at most the open tickets plus the retention limit are stored. */
  lemma EntriesAreBounded(es: seq<Event>, max: nat)
    requires Run(NO_ENTRIES, es, max)
    ensures var s := After(NO_ENTRIES, es, max); |s.entries| <= |s.active| + max
  {
    RunKeepsStored(NO_ENTRIES, es, max);
    var s := After(NO_ENTRIES, es, max);
    forall k | k in s.entries ensures k in s.active.Keys + Hashes(s.completed) {
      if s.latest[k] !in s.live { assert s.latest[k] in s.completed && s.latest[k].hash == k; }
    }
    SubsetSize(s.entries.Keys, s.active.Keys + Hashes(s.completed));
    FewHashes(s.completed);
  }

  class TransactionTracker {
    const maxCompletedTransactions: nat
    var transactions: Index
    var activeTransactions: Index
    var completedTransactions: seq<Ticket>
    ghost var latest: Index
    ghost var seen: set<Ticket>
    ghost var live: set<Ticket>

    ghost function State(): Entries
      reads this
    {
      Entries(transactions, activeTransactions, completedTransactions, latest, seen, live)
    }

    constructor (max: nat)
      ensures State() == NO_ENTRIES && maxCompletedTransactions == max
    {
      maxCompletedTransactions := max;
      transactions, activeTransactions, completedTransactions := map[], map[], [];
      latest, seen, live := map[], {}, {};
    }

    /** The bookkeeping at the start of `submit`. */
    method Submit(pending: Ticket)
      modifies this
      ensures State() == Track(old(State()), Event.Submit(pending), maxCompletedTransactions)
    {
      transactions := transactions[pending.hash := pending];
      activeTransactions := activeTransactions[pending.hash := pending];
      latest, seen, live := latest[pending.hash := pending], seen + {pending}, live + {pending};
    }

    method Expire(expired: Ticket)
      modifies `transactions
      ensures transactions == Drop(ByHash, old(transactions), expired)
    {
      if expired.hash in transactions && transactions[expired.hash] == expired {
        transactions := transactions - {expired.hash};
      }
    }

    /** The eviction loop. */
    method TrimCompleted()
      modifies `transactions, `completedTransactions
      ensures transactions == Evict(ByHash, old(transactions), old(completedTransactions), maxCompletedTransactions)
      ensures completedTransactions == Newest(old(completedTransactions), maxCompletedTransactions)
    {
      ghost var max := maxCompletedTransactions;
      while |completedTransactions| > maxCompletedTransactions
        invariant Evict(ByHash, transactions, completedTransactions, max)
               == Evict(ByHash, old(transactions), old(completedTransactions), max)
        invariant Newest(completedTransactions, max) == Newest(old(completedTransactions), max)
        decreases |completedTransactions|
      {
        var expired := completedTransactions[0];
        completedTransactions := completedTransactions[1..];
        Expire(expired);
      }
    }

    /** `_transaction_status_changed` for a terminal status. */
    method TransactionClosed(pending: Ticket)
      modifies this
      ensures State() == Track(old(State()), Close(pending), maxCompletedTransactions)
    {
      var hash := pending.hash;
      live := live - {pending};
      if hash in activeTransactions && activeTransactions[hash] == pending {
        activeTransactions := activeTransactions - {hash};
      }
      if hash !in transactions || transactions[hash] != pending { return; }
      completedTransactions := completedTransactions + [pending];
      TrimCompleted();
    }
  }

  /** What is retained: after a close, the tickets closed last while still stored, in closing order, as many as there
      are or the limit allows. A ticket whose hash was submitted again takes nobody's place. */
  lemma ClosingRetainsTheNewest(s: Entries, t: Ticket, max: nat)
    ensures var d := Track(s, Close(t), max);
            if t.hash in s.entries && s.entries[t.hash] == t then
              var queue := s.completed + [t];
              && |d.completed| == Min(max, |queue|)
              && (forall i | 0 <= i < |d.completed| :: d.completed[i] == queue[|queue| - |d.completed| + i])
            else d.completed == s.completed && d.entries == s.entries
  {}

  // ---------- the transaction manager ----------

  /** `latestHash`, `latestCloid`, `seen` and `live` are history. */
  datatype Shelf = Shelf(
    byHash: Index, byCloid: Index, registered: set<Ticket>, completed: seq<Ticket>,
    latestHash: Index, latestCloid: Index, seen: set<Ticket>, live: set<Ticket>)

  const NO_SHELF := Shelf(map[], map[], {}, [], map[], map[], {}, {})

  /** Here every ticket that closes joins the queue. */
  function Keep(s: Shelf, e: Event, max: nat): Shelf {
    match e
    case Submit(t) =>
      Shelf(Put(ByHash, s.byHash, t), Put(ByCloid, s.byCloid, t), s.registered + {t}, s.completed,
            Put(ByHash, s.latestHash, t), Put(ByCloid, s.latestCloid, t), s.seen + {t}, s.live + {t})
    case Close(t) =>
      var queue := s.completed + [t];
      s.(byHash := Evict(ByHash, s.byHash, queue, max), byCloid := Evict(ByCloid, s.byCloid, queue, max),
         registered := s.registered - Members(Oldest(queue, max)), completed := Newest(queue, max),
         live := s.live - {t})
  }

  ghost predicate Shelved(s: Shelf, max: nat) {
    && s.latestHash.Values <= s.seen && s.latestCloid.Values <= s.seen && s.live + Members(s.completed) <= s.seen
    && Distinct(s.completed) && s.live !! Members(s.completed) && |s.completed| <= max
    && Indexed(ByHash, s.byHash, s.latestHash, s.live + Members(s.completed))
    && Indexed(ByCloid, s.byCloid, s.latestCloid, s.live + Members(s.completed))
    && s.registered == s.live + Members(s.completed)
  }

  lemma RegisterKeepsShelved(s: Shelf, t: Ticket, max: nat)
    requires Shelved(s, max) && t !in s.seen
    ensures Shelved(Keep(s, Submit(t), max), max)
  {
    var keep := s.live + Members(s.completed);
    PutKeepsIndexed(ByHash, s.byHash, s.latestHash, keep, t);
    PutKeepsIndexed(ByCloid, s.byCloid, s.latestCloid, keep, t);
    LatestGrows(ByHash, s.latestHash, s.seen, t);
    LatestGrows(ByCloid, s.latestCloid, s.seen, t);
    assert keep + {t} == s.live + {t} + Members(s.completed);
  }

  lemma OldAndNew(queue: seq<Ticket>, max: nat)
    requires Distinct(queue)
    ensures Members(queue) - Members(Oldest(queue, max)) == Members(Newest(queue, max))
  {
    assert queue == Oldest(queue, max) + Newest(queue, max);
    forall t | t in Newest(queue, max) ensures t !in Oldest(queue, max) {}
  }

  lemma CloseKeepsShelved(s: Shelf, t: Ticket, max: nat)
    requires Shelved(s, max) && t in s.live
    ensures Shelved(Keep(s, Close(t), max), max)
  {
    var queue := s.completed + [t];
    Enqueued(s.live, s.completed, t);
    EvictKeepsIndexed(ByHash, s.byHash, s.latestHash, s.live - {t}, queue, max);
    EvictKeepsIndexed(ByCloid, s.byCloid, s.latestCloid, s.live - {t}, queue, max);
    NewestAreMembers(queue, max);
    OldAndNew(queue, max);
    assert queue == Oldest(queue, max) + Newest(queue, max);
  }

  ghost predicate ManagerRun(s: Shelf, es: seq<Event>, max: nat)
    decreases |es|
  {
    es == [] || (CanDo(s.seen, s.live, es[0]) && ManagerRun(Keep(s, es[0], max), es[1..], max))
  }

  ghost function ManagerAfter(s: Shelf, es: seq<Event>, max: nat): Shelf
    requires ManagerRun(s, es, max)
    decreases |es|
  {
    if es == [] then s else ManagerAfter(Keep(s, es[0], max), es[1..], max)
  }

  lemma {:induction false} ManagerRunKeepsShelved(s: Shelf, es: seq<Event>, max: nat)
    requires Shelved(s, max) && ManagerRun(s, es, max)
    ensures Shelved(ManagerAfter(s, es, max), max)
    decreases |es|
  {
    if es != [] {
      if es[0].Submit? { RegisterKeepsShelved(s, es[0].t, max); } else { CloseKeepsShelved(s, es[0].t, max); }
      ManagerRunKeepsShelved(Keep(s, es[0], max), es[1..], max);
    }
  }

  /** In every run both indexes answer with the newest ticket of a hash or cloid, exactly while it is open or retained;
      and no ticket stays registered longer. */
  lemma ManagerDropsOnlyCompleted(es: seq<Event>, max: nat, k: Name)
    requires ManagerRun(NO_SHELF, es, max)
    ensures var s := ManagerAfter(NO_SHELF, es, max);
            && (k in s.latestHash ==> (k in s.byHash <==> s.latestHash[k] in s.live || s.latestHash[k] in s.completed))
            && (k in s.latestCloid ==>
                  (k in s.byCloid <==> s.latestCloid[k] in s.live || s.latestCloid[k] in s.completed))
            && (k in s.byHash ==> k in s.latestHash && s.byHash[k] == s.latestHash[k])
            && (k in s.byCloid ==> k in s.latestCloid && s.byCloid[k] == s.latestCloid[k])
            && s.registered == s.live + Members(s.completed)
  {
    ManagerRunKeepsShelved(NO_SHELF, es, max);
  }

  /** Here every closed ticket joins the queue; the same number of the newest is retained. */
  lemma ManagerRetainsTheNewest(s: Shelf, t: Ticket, max: nat)
    ensures var d, queue := Keep(s, Close(t), max), s.completed + [t];
            && |d.completed| == Min(max, |queue|)
            && (forall i | 0 <= i < |d.completed| :: d.completed[i] == queue[|queue| - |d.completed| + i])
  {}

  lemma ManagerIsBounded(es: seq<Event>, max: nat)
    requires ManagerRun(NO_SHELF, es, max)
    ensures var s := ManagerAfter(NO_SHELF, es, max);
            |s.byHash| <= |s.live| + max && |s.byCloid| <= |s.live| + max && |s.registered| <= |s.live| + max
  {
    ManagerRunKeepsShelved(NO_SHELF, es, max);
    var s := ManagerAfter(NO_SHELF, es, max);
    IndexIsSmall(ByHash, s.byHash, s.live + Members(s.completed));
    IndexIsSmall(ByCloid, s.byCloid, s.live + Members(s.completed));
    FewHashes(s.completed);
  }

  class TransactionManager {
    const maxCompletedTransactions: nat
    var byHash: Index
    var byCloid: Index
    var registered: set<Ticket>
    var completed: seq<Ticket>
    ghost var latestHash: Index
    ghost var latestCloid: Index
    ghost var seen: set<Ticket>
    ghost var live: set<Ticket>

    ghost function State(): Shelf
      reads this
    {
      Shelf(byHash, byCloid, registered, completed, latestHash, latestCloid, seen, live)
    }

    constructor (max: nat)
      ensures State() == NO_SHELF && maxCompletedTransactions == max
    {
      maxCompletedTransactions := max;
      byHash, byCloid, registered, completed := map[], map[], {}, [];
      latestHash, latestCloid, seen, live := map[], map[], {}, {};
    }

    method Register(pending: Ticket)
      modifies this
      ensures State() == Keep(old(State()), Event.Submit(pending), maxCompletedTransactions)
    {
      byHash := byHash[pending.hash := pending];
      if pending.cloid.Some? { byCloid := byCloid[pending.cloid.value := pending]; }
      registered := registered + {pending};
      latestHash, latestCloid := Put(ByHash, latestHash, pending), Put(ByCloid, latestCloid, pending);
      seen, live := seen + {pending}, live + {pending};
    }

    method Expire(expired: Ticket)
      modifies `byHash, `byCloid, `registered
      ensures byHash == Drop(ByHash, old(byHash), expired) && byCloid == Drop(ByCloid, old(byCloid), expired)
      ensures registered == old(registered) - {expired}
    {
      if expired.hash in byHash && byHash[expired.hash] == expired { byHash := byHash - {expired.hash}; }
      if expired.cloid.Some? && expired.cloid.value in byCloid && byCloid[expired.cloid.value] == expired {
        byCloid := byCloid - {expired.cloid.value};
      }
      registered := registered - {expired};
    }

    /** The eviction loop. */
    method TrimCompleted()
      modifies `byHash, `byCloid, `registered, `completed
      ensures byHash == Evict(ByHash, old(byHash), old(completed), maxCompletedTransactions)
      ensures byCloid == Evict(ByCloid, old(byCloid), old(completed), maxCompletedTransactions)
      ensures registered == old(registered) - Members(Oldest(old(completed), maxCompletedTransactions))
      ensures completed == Newest(old(completed), maxCompletedTransactions)
    {
      ghost var max := maxCompletedTransactions;
      while |completed| > maxCompletedTransactions
        invariant Evict(ByHash, byHash, completed, max) == Evict(ByHash, old(byHash), old(completed), max)
        invariant Evict(ByCloid, byCloid, completed, max) == Evict(ByCloid, old(byCloid), old(completed), max)
        invariant registered - Members(Oldest(completed, max))
               == old(registered) - Members(Oldest(old(completed), max))
        invariant Newest(completed, max) == Newest(old(completed), max)
        decreases |completed|
      {
        var expired := completed[0];
        assert Oldest(completed, max) == [expired] + Oldest(completed[1..], max);
        completed := completed[1..];
        Expire(expired);
      }
    }

    /** `_on_update` for a terminal status. */
    method RetainCompleted(pending: Ticket)
      modifies this
      ensures State() == Keep(old(State()), Close(pending), maxCompletedTransactions)
    {
      live := live - {pending};
      completed := completed + [pending];
      TrimCompleted();
    }
  }
}
