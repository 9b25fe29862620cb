/** The encoder's priority gate: a condition variable, a busy flag and a count of waiting priority tasks.
    The condition's lock is never held across an await, so each stretch under it is one step. */
module Gate {
  import opened Shared

  datatype Task = Task(id: int)

  /** A task inside `wait_for`; `notified` once its future has been set and it will test its predicate again. */
  datatype Waiter = Waiter(priority: bool, notified: bool)

  /** `inside` is history: the tasks between their entry and their release. */
  datatype State = State(busy: bool, priorityWaiters: int, waiting: map<Task, Waiter>, inside: set<Task>)

  datatype Event =
    | Enter(task: Task, priority: bool)
    | Wake(task: Task)
    | Nudge(task: Task)      // a wake-up of one waiter without a cause in this gate
    | Cancel(task: Task)     // a cancellation delivered while waiting
    | Release(task: Task)

  const FREE := State(false, 0, map[], {})

  predicate Open(g: State, priority: bool) {
    !g.busy && (priority || g.priorityWaiters == 0)
  }

  function NotifyAll(waiting: map<Task, Waiter>): map<Task, Waiter> {
    map t | t in waiting :: waiting[t].(notified := true)
  }

  /** The `finally` of a task that stops waiting, by entering or by being cancelled. */
  function StopWaiting(g: State, priority: bool): State {
    if priority then g.(priorityWaiters := g.priorityWaiters - 1, waiting := NotifyAll(g.waiting)) else g
  }

  function Admit(g: State, task: Task, priority: bool): State {
    StopWaiting(g.(busy := true, waiting := g.waiting - {task}, inside := g.inside + {task}), priority)
  }

  predicate CanDo(g: State, e: Event) {
    match e
    case Enter(t, _) => t !in g.waiting && t !in g.inside
    case Wake(t) => t in g.waiting && g.waiting[t].notified
    case Nudge(t) => t in g.waiting
    case Cancel(t) => t in g.waiting
    case Release(t) => t in g.inside
  }

  function Do(g: State, e: Event): State
    requires CanDo(g, e)
  {
    match e
    case Enter(t, priority) =>
      var g1 := if priority then g.(priorityWaiters := g.priorityWaiters + 1) else g;
      if Open(g1, priority) then Admit(g1, t, priority)
      else g1.(waiting := g1.waiting[t := Waiter(priority, false)])
    case Wake(t) =>
      var p := g.waiting[t].priority;
      if Open(g, p) then Admit(g, t, p) else g.(waiting := g.waiting[t := Waiter(p, false)])
    case Nudge(t) => g.(waiting := g.waiting[t := g.waiting[t].(notified := true)])
    case Cancel(t) => StopWaiting(g.(waiting := g.waiting - {t}), g.waiting[t].priority)
    case Release(t) => g.(busy := false, waiting := NotifyAll(g.waiting), inside := g.inside - {t})
  }

  function Waiting(g: State, priority: bool): set<Task> {
    set t | t in g.waiting && g.waiting[t].priority == priority
  }

  /** At most one holder; the waiter count is exact; whoever waits without a wake-up coming could not enter. */
  ghost predicate Sound(g: State) {
    && (forall t, u | t in g.inside && u in g.inside :: t == u)
    && (g.busy <==> g.inside != {})
    && g.priorityWaiters == |Waiting(g, true)|
    && g.waiting.Keys !! g.inside
    && (forall t | t in g.waiting && !g.waiting[t].notified :: !Open(g, g.waiting[t].priority))
  }

  lemma AddedWaiter(g: State, d: State, t: Task, w: Waiter)
    requires t !in g.waiting && d.waiting == g.waiting[t := w]
    ensures |Waiting(d, true)| == |Waiting(g, true)| + if w.priority then 1 else 0
  {
    assert Waiting(d, true) == if w.priority then Waiting(g, true) + {t} else Waiting(g, true);
  }

  lemma RemovedWaiter(g: State, d: State, t: Task)
    requires t in g.waiting && (d.waiting == g.waiting - {t} || d.waiting == NotifyAll(g.waiting - {t}))
    ensures |Waiting(d, true)| == |Waiting(g, true)| - if g.waiting[t].priority then 1 else 0
  {
    if g.waiting[t].priority { assert t in Waiting(g, true); }
    assert Waiting(d, true) == Waiting(g, true) - {t};
  }

  lemma SameWaiters(g: State, d: State)
    requires d.waiting.Keys == g.waiting.Keys
    requires forall t | t in g.waiting :: d.waiting[t].priority == g.waiting[t].priority
    ensures Waiting(d, true) == Waiting(g, true)
  {
    forall t ensures t in Waiting(d, true) <==> t in Waiting(g, true) {}
  }

  lemma EnterKeepsSound(g: State, t: Task, priority: bool, d: State)
    requires Sound(g) && CanDo(g, Enter(t, priority)) && d == Do(g, Enter(t, priority))
    ensures Sound(d)
  {
    if t in d.inside {
      assert d.inside == {t};
      assert g.waiting - {t} == g.waiting;
      SameWaiters(g, d);
    } else {
      AddedWaiter(g, d, t, Waiter(priority, false));
    }
  }

  lemma WakeKeepsSound(g: State, t: Task, d: State)
    requires Sound(g) && CanDo(g, Wake(t)) && d == Do(g, Wake(t))
    ensures Sound(d)
  {
    if t in d.inside {
      assert d.inside == {t};
      RemovedWaiter(g, d, t);
    } else {
      SameWaiters(g, d);
    }
  }

  lemma NobodyInside(g: State, t: Task, d: State)
    requires Sound(g) && t in g.inside && d.inside == g.inside - {t}
    ensures d.inside == {}
  {
    assert forall u | u in g.inside :: u == t;
  }

  lemma StepKeepsSound(g: State, e: Event, d: State)
    requires Sound(g) && CanDo(g, e) && d == Do(g, e)
    ensures Sound(d)
  {
    match e
    case Enter(t, p) => EnterKeepsSound(g, t, p, d);
    case Wake(t) => WakeKeepsSound(g, t, d);
    case Nudge(_) => SameWaiters(g, d);
    case Cancel(t) => RemovedWaiter(g, d, t);
    case Release(_) => SameWaiters(g, d); NobodyInside(g, e.task, d);
  }

  ghost predicate Run(g: State, es: seq<Event>)
    decreases |es|
  {
    es == [] || (CanDo(g, es[0]) && Run(Do(g, es[0]), es[1..]))
  }

  ghost function After(g: State, es: seq<Event>): State
    requires Run(g, es)
    decreases |es|
  {
    if es == [] then g else After(Do(g, es[0]), es[1..])
  }

  lemma {:induction false} RunKeepsSound(g: State, es: seq<Event>)
    requires Sound(g) && Run(g, es)
    ensures Sound(After(g, es))
    decreases |es|
  {
    if es != [] {
      StepKeepsSound(g, es[0], Do(g, es[0]));
      RunKeepsSound(Do(g, es[0]), es[1..]);
    }
  }

  /** For any tasks, in any order, with any cancellations of waiting tasks. */
  lemma EveryRunIsSound(es: seq<Event>)
    requires Run(FREE, es)
    ensures Sound(After(FREE, es))
  {
    RunKeepsSound(FREE, es);
  }

  /** A task without priority gets in only when no priority task waits. */
  lemma NormalYieldsToPriority(es: seq<Event>, g: State, e: Event, t: Task)
    requires Run(FREE, es) && g == After(FREE, es) && CanDo(g, e) && t in Do(g, e).inside && t !in g.inside
    requires e == Enter(t, false) || (e == Wake(t) && !g.waiting[t].priority)
    ensures Waiting(g, true) == {} && g.inside == {}
  {
    EveryRunIsSound(es);
  }

  /** Who gets in, and when: a task that asks, or that is woken, enters exactly when nobody is inside and it either has
      priority or no priority task waits. Nobody else enters, and only a release lets anybody out. */
  lemma EntersExactly(es: seq<Event>, g: State, e: Event, d: State, t: Task)
    requires Run(FREE, es) && g == After(FREE, es) && CanDo(g, e) && d == Do(g, e)
    ensures t in d.inside && t !in g.inside <==>
              && g.inside == {}
              && (e in {Enter(t, true), Enter(t, false)} || e == Wake(t))
              && ((if e.Wake? then g.waiting[t].priority else e.priority) || Waiting(g, true) == {})
    ensures t in g.inside && t !in d.inside <==> t in g.inside && e == Release(t)
  {
    EveryRunIsSound(es);
  }

  /** No lost wake-up: if the gate is free and somebody waits, somebody's wake-up is already on its way, and taking it
      lets that task in. */
  lemma FreeGateIsNotStuck(g: State) returns (t: Task)
    requires Sound(g) && !g.busy && g.waiting != map[]
    ensures CanDo(g, Wake(t)) && t in Do(g, Wake(t)).inside
  {
    if Waiting(g, true) != {} {
      t :| t in Waiting(g, true);
    } else {
      t :| t in g.waiting.Keys;
      assert t !in Waiting(g, true);
    }
  }

  // ---------- everyone is served ----------

  function Notified(g: State): set<Task> {
    set t | t in g.waiting && g.waiting[t].notified
  }

  predicate Closing(e: Event) { e.Wake? || e.Release? }

  /** Nothing is left to happen: nobody is inside and nobody's wake-up is on its way. */
  ghost predicate Quiet(g: State) {
    g.inside == {} && forall t | t in g.waiting :: !g.waiting[t].notified
  }

  /** How far a gate with so many tasks waiting, inside and notified is from having served everybody, when at most n
      tasks wait. */
  function Far(waiting: nat, inside: nat, notified: nat, n: nat): nat {
    (2 * waiting + inside) * (n + 1) + notified
  }

  function Distance(g: State, n: nat): nat {
    Far(|g.waiting|, |g.inside|, |Notified(g)|, n)
  }

  lemma Scaled(a: int, b: int, m: nat)
    requires b < a
    ensures b * m + m <= a * m
  {
    var k := a - b - 1;
    assert a * m == b * m + m + k * m;
  }

  lemma Closer(waiting: nat, inside: nat, notified: nat, waiting': nat, inside': nat, notified': nat, n: nat)
    requires notified' <= n && 2 * waiting' + inside' < 2 * waiting + inside
    ensures Far(waiting', inside', notified', n) < Far(waiting, inside, notified, n)
  {
    var a, b := 2 * waiting + inside, 2 * waiting' + inside';
    Scaled(a, b, n + 1);
  }

  lemma EntryCounts(g: State, t: Task, d: State)
    requires Sound(g) && CanDo(g, Wake(t)) && d == Do(g, Wake(t)) && t in d.inside
    ensures |d.waiting| == |g.waiting| - 1 && |g.inside| == 0 && |d.inside| == 1
  {
    assert g.inside == {} && d.inside == {t};
    assert g.waiting.Keys == d.waiting.Keys + {t};
  }

  lemma FailedWakeCounts(g: State, t: Task, d: State)
    requires Sound(g) && CanDo(g, Wake(t)) && d == Do(g, Wake(t)) && t !in d.inside
    ensures |d.waiting| == |g.waiting| && d.inside == g.inside && |Notified(d)| == |Notified(g)| - 1
  {
    assert Notified(g) == Notified(d) + {t};
    assert g.waiting.Keys == d.waiting.Keys;
  }

  lemma ReleaseCounts(g: State, t: Task, d: State)
    requires Sound(g) && CanDo(g, Release(t)) && d == Do(g, Release(t))
    ensures |d.waiting| == |g.waiting| && |d.inside| == |g.inside| - 1
  {
    assert g.inside == d.inside + {t};
    assert g.waiting.Keys == d.waiting.Keys;
  }

  lemma ClosingStepAdvances(g: State, e: Event, d: State, n: nat)
    requires Sound(g) && CanDo(g, e) && Closing(e) && d == Do(g, e) && |g.waiting| <= n
    ensures |d.waiting| <= n && Distance(d, n) < Distance(g, n)
  {
    if e.Release? {
      ReleaseCounts(g, e.task, d);
    } else if e.task in d.inside {
      EntryCounts(g, e.task, d);
    } else {
      FailedWakeCounts(g, e.task, d);
    }
    SubsetSize(Notified(d), d.waiting.Keys);
    if e.Release? || e.task in d.inside {
      Closer(|g.waiting|, |g.inside|, |Notified(g)|, |d.waiting|, |d.inside|, |Notified(d)|, n);
    }
  }

  /** If no new task arrives, then in whatever order wake-ups and releases happen, they come to an end; and when none is
      left to happen, every waiting task has been inside and left. */
  lemma {:induction false} EveryoneIsServed(g: State, es: seq<Event>, n: nat)
    requires Sound(g) && Run(g, es) && |g.waiting| <= n
    requires forall e | e in es :: Closing(e)
    ensures |es| <= Distance(g, n)
    ensures Quiet(After(g, es)) ==> After(g, es) == FREE
    decreases |es|
  {
    if es != [] {
      var d := Do(g, es[0]);
      StepKeepsSound(g, es[0], d);
      ClosingStepAdvances(g, es[0], d, n);
      assert forall e | e in es[1..] :: e in es;
      EveryoneIsServed(d, es[1..], n);
    } else if Quiet(g) {
      QuietGateIsFree(g);
    }
  }

  lemma QuietGateIsFree(g: State)
    requires Sound(g) && Quiet(g)
    ensures g == FREE
  {
    if g.waiting != map[] {
      var t := FreeGateIsNotStuck(g);
      assert false;
    }
    assert Waiting(g, true) == {};
  }

  // ---------- the object ----------

  /** `waiting` is the condition's own queue of waiters; `inside` is history. */
  class PriorityGate {
    var busy: bool
    var priorityWaiters: int
    var waiting: map<Task, Waiter>
    ghost var inside: set<Task>

    ghost function Contents(): State
      reads this
    {
      State(busy, priorityWaiters, waiting, inside)
    }

    constructor ()
      ensures Contents() == FREE
    {
      busy, priorityWaiters, waiting, inside := false, 0, map[], {};
    }

    predicate MayEnter(priority: bool)
      reads this
    {
      !busy && (priority || priorityWaiters == 0)
    }

    /** The condition's `notify_all`. */
    method NotifyWaiters()
      modifies `waiting
      ensures waiting == NotifyAll(old(waiting))
    {
      var queue, rest := waiting, waiting.Keys;
      while rest != {}
        invariant rest <= queue.Keys && waiting.Keys == queue.Keys
        invariant forall t | t in queue ::
                    waiting[t] == if t in rest then queue[t] else queue[t].(notified := true)
      {
        var t :| t in rest;
        waiting := waiting[t := queue[t].(notified := true)];
        rest := rest - {t};
      }
      assert waiting == NotifyAll(queue);
    }

    /** The end of the waiting section on every path, entered or cancelled. */
    method LeaveQueue(priority: bool)
      modifies this
      ensures Contents() == StopWaiting(old(Contents()), priority)
    {
      if priority {
        priorityWaiters := priorityWaiters - 1;
        NotifyWaiters();
      }
    }

    method Take(task: Task, priority: bool)
      modifies this
      ensures Contents() == Admit(old(Contents()), task, priority)
    {
      waiting := waiting - {task};
      busy := true;
      inside := inside + {task};
      LeaveQueue(priority);
    }

    /** `slot` up to its first await or its entry. */
    method Arrive(task: Task, priority: bool) returns (entered: bool)
      requires task !in waiting && task !in inside
      modifies this
      ensures Contents() == Do(old(Contents()), Enter(task, priority))
      ensures entered <==> task in inside
    {
      if priority { priorityWaiters := priorityWaiters + 1; }
      entered := MayEnter(priority);
      if entered { Take(task, priority); } else { waiting := waiting[task := Waiter(priority, false)]; }
    }

    /** A notified waiter tests its predicate again. */
    method Retry(task: Task) returns (entered: bool)
      requires task in waiting && waiting[task].notified && task !in inside
      modifies this
      ensures Contents() == Do(old(Contents()), Wake(task))
      ensures entered <==> task in inside
    {
      var priority := waiting[task].priority;
      entered := MayEnter(priority);
      if entered { Take(task, priority); } else { waiting := waiting[task := Waiter(priority, false)]; }
    }

    method GiveUp(task: Task)
      requires task in waiting
      modifies this
      ensures Contents() == Do(old(Contents()), Cancel(task))
    {
      var priority := waiting[task].priority;
      waiting := waiting - {task};
      LeaveQueue(priority);
    }

    method Leave(task: Task)
      requires task in inside
      modifies this
      ensures Contents() == Do(old(Contents()), Release(task))
    {
      busy := false;
      inside := inside - {task};
      NotifyWaiters();
    }
  }
}
