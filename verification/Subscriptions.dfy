/** Subscription routes of one transport: notifications that arrive before the reply naming their subscription are
    buffered and replayed, those after it are queued for the handler. */
module Subscriptions {

  datatype Sub = Sub(name: int)
  datatype Intent = Intent(n: int)     // a `subscribe` call in flight
  type Item = int

  const MAX_TOMBSTONES: nat := 64
  const MAX_QUEUED: nat := 64
  const MAX_EARLY: nat := 32

  /** `handled` is history: what the route's handler has been given. */
  datatype Route = Route(owner: Intent, queue: seq<Item>, handled: seq<Item>)

  type Early = map<Sub, seq<Item>>

  datatype State = State(
    intents: set<Intent>,
    registered: map<Intent, Sub>,
    routes: map<Sub, Route>,
    early: Early,
    tombstones: seq<Sub>)

  const EMPTY := State({}, map[], map[], map[], [])

  datatype Event =
    | Subscribe(intent: Intent)
    | Notify(sub: Sub, item: Item)
    | Reply(intent: Intent, sub: Sub)
    | Handle(sub: Sub)
    | EndSubscribe(intent: Intent, completed: bool)
    | Forget(sub: Sub)
    | DropAll(closing: bool)

  // ---------- the early buffer ----------

  ghost function Total(early: Early): nat {
    if early == map[] then 0
    else
      var s :| s in early.Keys;
      |early[s]| + Total(early - {s})
  }

  lemma {:induction false} TotalWithout(early: Early, s: Sub)
    requires s in early
    ensures Total(early) == |early[s]| + Total(early - {s})
    decreases |early|
  {
    assert s in early.Keys;
    var t :| t in early.Keys && Total(early) == |early[t]| + Total(early - {t});
    if t != s {
      TotalWithout(early - {t}, s);
      TotalWithout(early - {s}, t);
      assert early - {t} - {s} == early - {s} - {t};
    }
  }

  function Buffered(early: Early, s: Sub): seq<Item> {
    if s in early then early[s] else []
  }

  lemma TotalAdds(early: Early, s: Sub, item: Item)
    ensures Total(early[s := Buffered(early, s) + [item]]) == Total(early) + 1
  {
    var more := early[s := Buffered(early, s) + [item]];
    TotalWithout(more, s);
    assert more - {s} == early - {s};
    if s in early { TotalWithout(early, s); } else { assert early - {s} == early; }
  }

  lemma BufferedFits(early: Early, s: Sub)
    ensures |Buffered(early, s)| + Total(early - {s}) == Total(early)
  {
    if s in early { TotalWithout(early, s); } else { assert early - {s} == early; }
  }

  // ---------- the steps ----------

  function Without<T(==)>(xs: seq<T>, x: T): seq<T> {
    if xs == [] then [] else if xs[0] == x then Without(xs[1..], x) else [xs[0]] + Without(xs[1..], x)
  }

  /** `_remember_unsubscribed`: newest last, oldest dropped beyond the limit. */
  function Remember(tombstones: seq<Sub>, s: Sub): seq<Sub> {
    var all := Without(tombstones, s) + [s];
    if |all| > MAX_TOMBSTONES then all[|all| - MAX_TOMBSTONES..] else all
  }

  /** A full queue drops the whole route; without a route the item is buffered only while some `subscribe` is in flight,
      the id is not a tombstone and the buffer has room. */
  ghost function DoNotify(s: State, sub: Sub, item: Item): State {
    if sub in s.routes then
      if |s.routes[sub].queue| >= MAX_QUEUED then s.(routes := s.routes - {sub})
      else s.(routes := s.routes[sub := s.routes[sub].(queue := s.routes[sub].queue + [item])])
    else if sub in s.tombstones || s.intents == {} || Total(s.early) >= MAX_EARLY then s
    else s.(early := s.early[sub := Buffered(s.early, sub) + [item]])
  }

  function Replayed(items: seq<Item>): seq<Item> {
    if |items| > MAX_QUEUED then items[..MAX_QUEUED] else items
  }

  /** A reply naming a subscription that is active already is a protocol error and registers nothing. */
  function DoReply(s: State, intent: Intent, sub: Sub): State {
    if sub in s.routes then s
    else s.(routes := s.routes[sub := Route(intent, Replayed(Buffered(s.early, sub)), [])],
            registered := s.registered[intent := sub],
            early := s.early - {sub},
            tombstones := Without(s.tombstones, sub))
  }

  predicate Owns(s: State, intent: Intent) {
    && intent in s.registered
    && s.registered[intent] in s.routes
    && s.routes[s.registered[intent]].owner == intent
  }

  /** The end of `_request` and of `subscribe`: a registration that was not completed is taken back. */
  function DoEnd(s: State, intent: Intent, completed: bool): State {
    var intents := s.intents - {intent};
    var s1 := s.(intents := intents, early := if intents == {} then map[] else s.early,
                 registered := s.registered - {intent});
    if completed || !Owns(s, intent) then s1
    else
      var sub := s.registered[intent];
      s1.(routes := s.routes - {sub}, tombstones := Remember(s.tombstones, sub))
  }

  predicate CanDo(s: State, e: Event) {
    match e
    case Subscribe(intent) => intent !in s.intents
    case Notify(_, _) => true
    case Reply(intent, _) => intent in s.intents && intent !in s.registered
    case Handle(sub) => sub in s.routes && s.routes[sub].queue != []
    case EndSubscribe(intent, _) => intent in s.intents
    case Forget(_) => true
    case DropAll(_) => true
  }

  ghost function Do(s: State, e: Event): State
    requires CanDo(s, e)
  {
    match e
    case Subscribe(intent) => s.(intents := s.intents + {intent})
    case Notify(sub, item) => DoNotify(s, sub, item)
    case Reply(intent, sub) => DoReply(s, intent, sub)
    case Handle(sub) =>
      var r := s.routes[sub];
      s.(routes := s.routes[sub := r.(queue := r.queue[1..], handled := r.handled + [r.queue[0]])])
    case EndSubscribe(intent, completed) => DoEnd(s, intent, completed)
    case Forget(sub) =>
      s.(routes := s.routes - {sub}, early := s.early - {sub}, tombstones := Remember(s.tombstones, sub))
    case DropAll(closing) =>
      s.(routes := map[], early := map[], tombstones := if closing then [] else s.tombstones)
  }

  // ---------- bounds ----------

  ghost predicate Bounded(s: State) {
    && Total(s.early) <= MAX_EARLY
    && |s.tombstones| <= MAX_TOMBSTONES
    && forall sub | sub in s.routes :: |s.routes[sub].queue| <= MAX_QUEUED && sub !in s.early
  }

  lemma {:induction false} WithoutShrinks<T>(xs: seq<T>, x: T)
    ensures |Without(xs, x)| <= |xs| && x !in Without(xs, x)
    ensures forall y :: y in Without(xs, x) <==> y in xs && y != x
    decreases |xs|
  {
    if xs != [] {
      WithoutShrinks(xs[1..], x);
      assert forall y :: y in xs <==> y == xs[0] || y in xs[1..];
    }
  }

  lemma StepKeepsBounded(s: State, e: Event, d: State)
    requires Bounded(s) && CanDo(s, e) && d == Do(s, e)
    ensures Bounded(d)
  {
    match e
    case Notify(sub, item) => TotalAdds(s.early, sub, item);
    case Reply(_, sub) => BufferedFits(s.early, sub); WithoutShrinks(s.tombstones, sub);
    case Forget(sub) => BufferedFits(s.early, sub);
    case _ =>
  }

  /** The replay never meets a full queue. */
  lemma ReplayIsWhole(s: State, sub: Sub)
    requires Bounded(s)
    ensures Replayed(Buffered(s.early, sub)) == Buffered(s.early, sub)
  {
    BufferedFits(s.early, sub);
  }

  // ---------- delivery ----------

  ghost predicate Run(s: State, es: seq<Event>)
    decreases |es|
  {
    es == [] || (CanDo(s, es[0]) && Run(Do(s, es[0]), es[1..]))
  }

  ghost function After(s: State, es: seq<Event>): State
    requires Run(s, es)
    decreases |es|
  {
    if es == [] then s else After(Do(s, es[0]), es[1..])
  }

  lemma {:induction false} RunKeepsBounded(s: State, es: seq<Event>)
    requires Bounded(s) && Run(s, es)
    ensures Bounded(After(s, es))
    decreases |es|
  {
    if es != [] {
      StepKeepsBounded(s, es[0], Do(s, es[0]));
      RunKeepsBounded(Do(s, es[0]), es[1..]);
    }
  }

  /** The items notified for one subscription, in arrival order. */
  function Arrived(es: seq<Event>, sub: Sub): seq<Item>
    decreases |es|
  {
    if es == [] then []
    else if es[0].Notify? && es[0].sub == sub then [es[0].item] + Arrived(es[1..], sub)
    else Arrived(es[1..], sub)
  }

  /** Everything received for one subscription and not yet lost: handled, then queued, then buffered. */
  function Received(s: State, sub: Sub): seq<Item> {
    (if sub in s.routes then s.routes[sub].handled + s.routes[sub].queue else []) + Buffered(s.early, sub)
  }

  /** A step that does not disturb a subscription that is active or about to be: nobody gives it up, the connection
      holds, a `subscribe` stays in flight while it has no route, its id is not a tombstone, and there is room for what
      arrives. */
  ghost predicate Calm(s: State, e: Event, sub: Sub) {
    && e != Forget(sub) && !e.DropAll?
    && (e.EndSubscribe? && !e.completed && e.intent in s.registered ==> s.registered[e.intent] != sub)
    && (sub !in s.routes && e.EndSubscribe? ==> s.intents - {e.intent} != {})
    && (e.Notify? && e.sub == sub ==>
          if sub in s.routes then |s.routes[sub].queue| < MAX_QUEUED
          else Total(s.early) < MAX_EARLY && s.intents != {} && sub !in s.tombstones)
  }

  /** One calm step takes in exactly the item it brings, at the end. */
  lemma CalmStepReceives(s: State, e: Event, d: State, sub: Sub)
    requires Bounded(s) && CanDo(s, e) && d == Do(s, e) && Calm(s, e, sub)
    ensures Received(d, sub) == Received(s, sub) + if e.Notify? && e.sub == sub then [e.item] else []
  {
    match e
    case Reply(_, other) => if other == sub && sub !in s.routes { ReplayIsWhole(s, sub); }
    case EndSubscribe(intent, _) => EndReceives(s, e, d, sub);
    case Notify(other, item) => if other == sub { NotifyReceives(s, item, d, sub); }
    case Handle(other) => if other == sub { HandleReceives(s, d, sub); }
    case _ =>
  }

  lemma NotifyReceives(s: State, item: Item, d: State, sub: Sub)
    requires Bounded(s) && d == DoNotify(s, sub, item) && Calm(s, Notify(sub, item), sub)
    ensures Received(d, sub) == Received(s, sub) + [item]
  {
    if sub in s.routes {
      var r := s.routes[sub];
      assert r.handled + (r.queue + [item]) == r.handled + r.queue + [item];
    }
  }

  lemma HandleReceives(s: State, d: State, sub: Sub)
    requires CanDo(s, Handle(sub)) && d == Do(s, Handle(sub))
    ensures Received(d, sub) == Received(s, sub)
  {
    var r := s.routes[sub];
    assert r.handled + [r.queue[0]] + r.queue[1..] == r.handled + r.queue;
  }

  lemma EndReceives(s: State, e: Event, d: State, sub: Sub)
    requires e.EndSubscribe? && Bounded(s) && CanDo(s, e) && d == Do(s, e) && Calm(s, e, sub)
    ensures Received(d, sub) == Received(s, sub)
  {
    if sub in s.routes {
      assert Buffered(s.early, sub) == [];
    }
  }

  ghost predicate CalmRun(s: State, es: seq<Event>, sub: Sub)
    requires Run(s, es)
    decreases |es|
  {
    es == [] || (Calm(s, es[0], sub) && CalmRun(Do(s, es[0]), es[1..], sub))
  }

  lemma Regroup(a: seq<Item>, b: seq<Item>, c: seq<Item>)
    ensures a + b + c == a + (b + c) && [] + c == c
  {}

  /** Neither lost, nor reordered, nor duplicated: over any calm run, whether the reply naming the subscription comes
      before, between or after them, its notifications are received exactly once each, in arrival order. */
  lemma {:induction false} NotificationsAreExact(s: State, es: seq<Event>, sub: Sub)
    requires Bounded(s) && Run(s, es) && CalmRun(s, es, sub)
    ensures Received(After(s, es), sub) == Received(s, sub) + Arrived(es, sub)
    decreases |es|
  {
    if es != [] {
      var d := Do(s, es[0]);
      CalmStepReceives(s, es[0], d, sub);
      StepKeepsBounded(s, es[0], d);
      NotificationsAreExact(d, es[1..], sub);
      Regroup(Received(s, sub), if es[0].Notify? && es[0].sub == sub then [es[0].item] else [], Arrived(es[1..], sub));
    }
  }

  /** And calm is what it takes: an item for a subscription without a route is kept exactly when it arrives calmly. */
  lemma KeptIffCalm(s: State, sub: Sub, item: Item)
    requires Bounded(s)
    ensures Received(DoNotify(s, sub, item), sub) == Received(s, sub) + [item] <==> Calm(s, Notify(sub, item), sub)
  {
    if Calm(s, Notify(sub, item), sub) {
      NotifyReceives(s, item, DoNotify(s, sub, item), sub);
    } else {
      var d := DoNotify(s, sub, item);
      if sub in s.routes { assert Buffered(s.early, sub) == []; }
      assert |Received(d, sub)| <= |Received(s, sub)|;
    }
  }

  /** When the reply comes, the new route starts with what had arrived before it. */
  lemma ReplyReplaysEarly(s: State, es: seq<Event>, intent: Intent, sub: Sub)
    requires Bounded(s) && Run(s, es) && CalmRun(s, es, sub) && Received(s, sub) == []
    requires var t := After(s, es); sub !in t.routes && CanDo(t, Reply(intent, sub))
    ensures var d := Do(After(s, es), Reply(intent, sub));
            sub in d.routes && d.routes[sub].queue == Arrived(es, sub) && sub !in d.early && sub !in d.tombstones
  {
    RunKeepsBounded(s, es);
    NotificationsAreExact(s, es, sub);
    ReplayIsWhole(After(s, es), sub);
    WithoutShrinks(After(s, es).tombstones, sub);
    assert [] + Buffered(After(s, es).early, sub) == Buffered(After(s, es).early, sub);
    assert [] + Arrived(es, sub) == Arrived(es, sub);
  }

  // ---------- giving up a subscription ----------

  /** The id is a tombstone with at most k younger ones. */
  predicate Near(tombstones: seq<Sub>, sub: Sub, k: int) {
    exists i | 0 <= i < |tombstones| :: tombstones[i] == sub && |tombstones| - 1 - i <= k
  }

  lemma {:induction false} WithoutKeepsNear(xs: seq<Sub>, x: Sub, sub: Sub, k: int)
    requires x != sub && Near(xs, sub, k)
    ensures Near(Without(xs, x), sub, k)
    decreases |xs|
  {
    WithoutShrinks(xs, x);
    var i :| 0 <= i < |xs| && xs[i] == sub && |xs| - 1 - i <= k;
    if i == 0 {
      assert Without(xs, x)[0] == sub;
    } else {
      assert xs[1..][i - 1] == sub;
      WithoutKeepsNear(xs[1..], x, sub, k);
      var j :| 0 <= j < |Without(xs[1..], x)| && Without(xs[1..], x)[j] == sub && |Without(xs[1..], x)| - 1 - j <= k;
      if xs[0] != x { assert Without(xs, x)[j + 1] == sub; }
    }
  }

  /** A forgotten id is the youngest tombstone; the others keep their order, each one place older. */
  lemma RememberedIsYoungest(tombstones: seq<Sub>, s: Sub, sub: Sub, k: int)
    ensures Near(Remember(tombstones, s), s, 0)
    ensures forall x :: x in Remember(tombstones, s) ==> x == s || x in tombstones
    ensures sub != s && k + 1 < MAX_TOMBSTONES && Near(tombstones, sub, k) ==> Near(Remember(tombstones, s), sub, k + 1)
  {
    var rest, r := Without(tombstones, s), Remember(tombstones, s);
    WithoutShrinks(tombstones, s);
    assert r[|r| - 1] == s;
    if sub != s && k + 1 < MAX_TOMBSTONES && Near(tombstones, sub, k) {
      WithoutKeepsNear(tombstones, s, sub, k);
      var i :| 0 <= i < |rest| && rest[i] == sub && |rest| - 1 - i <= k;
      var cut := |rest| + 1 - |r|;
      assert r[i - cut] == (rest + [s])[i];
    }
  }

  /** Gone: no route, nothing buffered, and the id a tombstone with at most k younger ones. */
  ghost predicate Gone(s: State, sub: Sub, k: int) {
    sub !in s.routes && sub !in s.early && Near(s.tombstones, sub, k)
  }

  /** Forgetting a subscription makes it gone, and so does the end of an uncompleted `subscribe` that owns its route. */
  lemma GivenUpIsGone(s: State, e: Event, sub: Sub, d: State)
    requires Bounded(s) && CanDo(s, e) && d == Do(s, e)
    requires e == Forget(sub) || (e.EndSubscribe? && !e.completed && Owns(s, e.intent) && s.registered[e.intent] == sub)
    ensures Gone(d, sub, 0)
    ensures forall other | other != sub && other in s.routes ::
              other in d.routes && d.routes[other] == s.routes[other]
  {
    RememberedIsYoungest(s.tombstones, sub, sub, 0);
  }

  lemma StaysGone(s: State, e: Event, d: State, sub: Sub, k: nat)
    requires CanDo(s, e) && d == Do(s, e) && Gone(s, sub, k) && k + 1 < MAX_TOMBSTONES
    requires !(e.Reply? && e.sub == sub) && e != DropAll(true)
    ensures Gone(d, sub, if e.Forget? || e.EndSubscribe? then k + 1 else k)
  {
    match e
    case Reply(_, other) => if other !in s.routes { WithoutKeepsNear(s.tombstones, other, sub, k); }
    case Forget(other) =>
      RememberedIsYoungest(s.tombstones, other, sub, k);
      NearerIsNear(d.tombstones, sub, 0, k + 1);
    case EndSubscribe(intent, _) =>
      if intent in s.registered {
        RememberedIsYoungest(s.tombstones, s.registered[intent], sub, k);
        NearerIsNear(d.tombstones, sub, 0, k + 1);
      }
    case Notify(_, _) => TombstonesHold(s.tombstones, sub, k);
    case _ =>
  }

  lemma TombstonesHold(tombstones: seq<Sub>, sub: Sub, k: int)
    requires Near(tombstones, sub, k)
    ensures sub in tombstones
  {}

  lemma NearerIsNear(tombstones: seq<Sub>, sub: Sub, j: int, k: int)
    requires j <= k
    ensures Near(tombstones, sub, j) ==> Near(tombstones, sub, k)
  {}

  /** How many steps may bury other tombstones. */
  function Burials(es: seq<Event>): nat
    decreases |es|
  {
    if es == [] then 0 else (if es[0].Forget? || es[0].EndSubscribe? then 1 else 0) + Burials(es[1..])
  }

  /** What arrives late for a subscription that was given up is not delivered and not buffered, until a reply names the
      id again, the transport closes, or its tombstone is dropped for younger ones. */
  lemma {:induction false} GivenUpIsSilent(s: State, es: seq<Event>, sub: Sub, k: nat)
    requires Run(s, es) && Gone(s, sub, k) && k + Burials(es) + 1 < MAX_TOMBSTONES
    requires forall i | 0 <= i < |es| :: !(es[i].Reply? && es[i].sub == sub) && es[i] != DropAll(true)
    ensures Gone(After(s, es), sub, k + Burials(es)) && Received(After(s, es), sub) == []
    decreases |es|
  {
    if es != [] {
      var d := Do(s, es[0]);
      StaysGone(s, es[0], d, sub, k);
      GivenUpIsSilent(d, es[1..], sub, k + if es[0].Forget? || es[0].EndSubscribe? then 1 else 0);
    }
  }

  /** The other ways a route ends or is refused: an overflow drops it alone, a lost connection drops all and keeps the
      tombstones unless the transport closes, and a reply for an active route registers nothing. A completed `subscribe`
      keeps its route; one in flight is known from its start to its end. */
  lemma RoutesEndExactly(s: State, e: Event, d: State)
    requires CanDo(s, e) && d == Do(s, e)
    ensures e.Notify? && e.sub in s.routes ==>
              d == s.(routes := d.routes)
              && (if |s.routes[e.sub].queue| >= 64 then d.routes == s.routes - {e.sub} else e.sub in d.routes)
    ensures e.Reply? && e.sub in s.routes ==> d == s
    ensures e.Reply? && e.sub !in s.routes ==>
              e.sub in d.routes && d.routes == s.routes[e.sub := d.routes[e.sub]] && Owns(d, e.intent)
              && e.sub !in d.tombstones && d.early == s.early - {e.sub}
    ensures e.Subscribe? ==> d == s.(intents := s.intents + {e.intent})
    ensures e.EndSubscribe? ==> d.intents == s.intents - {e.intent} && e.intent !in d.registered
                                && d.early == (if d.intents == {} then map[] else s.early)
    ensures e.EndSubscribe? && (e.completed || !Owns(s, e.intent)) ==>
              d.routes == s.routes && d.tombstones == s.tombstones
    ensures e.DropAll? ==> d.routes == map[] && d.early == map[] && d.intents == s.intents
                           && d.tombstones == (if e.closing then [] else s.tombstones)
  {
    if e.Reply? { WithoutShrinks(s.tombstones, e.sub); }
  }

  // ---------- the object ----------

  class SubscriptionTable {
    var subscribeIntents: set<Intent>
    var registered: map<Intent, Sub>
    var subscriptions: map<Sub, Route>
    var earlyNotifications: Early
    var unsubscribed: seq<Sub>

    function Contents(): State
      reads this
    {
      State(subscribeIntents, registered, subscriptions, earlyNotifications, unsubscribed)
    }

    constructor ()
      ensures Contents() == EMPTY && Bounded(Contents())
    {
      subscribeIntents, registered, subscriptions, earlyNotifications, unsubscribed := {}, map[], map[], map[], [];
    }

    method EarlyTotal() returns (total: nat)
      ensures total == Total(earlyNotifications)
    {
      total := 0;
      var rest := earlyNotifications;
      while rest.Keys != {}
        invariant total + Total(rest) == Total(earlyNotifications)
        decreases |rest|
      {
        var s :| s in rest.Keys;
        TotalWithout(rest, s);
        total := total + |rest[s]|;
        rest := rest - {s};
      }
    }

    method DispatchNotification(sub: Sub, item: Item) returns (overflow: bool)
      modifies `subscriptions, `earlyNotifications
      ensures Contents() == DoNotify(old(Contents()), sub, item)
      ensures overflow <==> sub in old(subscriptions) && |old(subscriptions)[sub].queue| >= MAX_QUEUED
    {
      overflow := false;
      if sub in subscriptions {
        var route := subscriptions[sub];
        if |route.queue| >= MAX_QUEUED {
          subscriptions := subscriptions - {sub};
          return true;
        }
        subscriptions := subscriptions[sub := route.(queue := route.queue + [item])];
        return;
      }
      if sub in unsubscribed || subscribeIntents == {} { return; }
      var total := EarlyTotal();
      if total >= MAX_EARLY { return; }
      earlyNotifications := earlyNotifications[sub := Buffered(earlyNotifications, sub) + [item]];
    }

    method RegisterRoute(intent: Intent, sub: Sub) returns (duplicate: bool)
      modifies this
      ensures Contents() == DoReply(old(Contents()), intent, sub)
      ensures duplicate <==> sub in old(subscriptions)
    {
      if sub in subscriptions { return true; }
      duplicate := false;
      var items := Buffered(earlyNotifications, sub);
      var queue: seq<Item> := [];
      var i := 0;
      while i < |items|
        invariant i <= |items| && i <= MAX_QUEUED && queue == items[..i]
      {
        if |queue| >= MAX_QUEUED { break; }
        queue := queue + [items[i]];
        i := i + 1;
      }
      assert queue == Replayed(items);
      unsubscribed := Without(unsubscribed, sub);
      earlyNotifications := earlyNotifications - {sub};
      registered := registered[intent := sub];
      subscriptions := subscriptions[sub := Route(intent, queue, [])];
    }

    method RememberUnsubscribed(sub: Sub)
      modifies `unsubscribed
      ensures unsubscribed == Remember(old(unsubscribed), sub)
    {
      unsubscribed := Without(unsubscribed, sub) + [sub];
      ghost var all := unsubscribed;
      while |unsubscribed| > MAX_TOMBSTONES
        invariant |unsubscribed| <= |all| && unsubscribed == all[|all| - |unsubscribed|..]
        invariant |all| >= MAX_TOMBSTONES ==> |unsubscribed| >= MAX_TOMBSTONES
        invariant |all| < MAX_TOMBSTONES ==> unsubscribed == all
      {
        unsubscribed := unsubscribed[1..];
      }
    }

    method ForgetSubscription(sub: Sub)
      modifies this
      ensures Contents() == Do(old(Contents()), Forget(sub))
    {
      subscriptions := subscriptions - {sub};
      earlyNotifications := earlyNotifications - {sub};
      RememberUnsubscribed(sub);
    }
  }
}
