/** The properties of the kernel over whole runs: from a freshly started kernel, after
    every legal sequence of steps, whatever the interleaving. */
module Runs {
  import opened Base
  import opened WaitQueue
  import opened Kernel
  import opened Separation
  import opened Effects
  import opened Roles
  import opened ObjectFrame
  import opened Steady
  import MutexSpec
  import QueueSpec
  import SemSpec
  import TaskSpec
  import QueueRuns
  import SemRuns
  import PoolRuns
  import EventRuns
  import MutexRuns
  import NotifyRuns
  import SchedRuns
  import Inheritance
  import Succession
  import Preemption
  import WaitOrder

  // ---------- The start ----------

  /** A kernel at `rtos_start`: tasks with the given priorities, the first one running. */
  function Boot(priorities: seq<uint32>, maxTasks: nat, queues: map<nat, uint32>, mutexes: set<nat>,
                sems: map<nat, SemSpec.SemVal>, events: set<nat>, pools: map<nat, seq<nat>>): Kernel
    requires |priorities| > 0
  {
    Kernel(
      seq(|priorities|, i requires 0 <= i < |priorities| =>
        TaskSpec.NewTcb(priorities[i]).(state := if i == 0 then Running else Ready)),
      maxTasks,
      seq(|priorities|, i => Free),
      map[],
      map q | q in queues :: QueueSpec.QueueVal(queues[q], []),
      map m | m in mutexes :: MutexSpec.MutexVal(None, 0),
      sems,
      map e | e in events :: {},
      pools,
      0, seq(|priorities|, i => i), 0, false, [])
  }

  lemma BootIsInit(priorities: seq<uint32>, maxTasks: nat, queues: map<nat, uint32>, mutexes: set<nat>,
                   sems: map<nat, SemSpec.SemVal>, events: set<nat>, pools: map<nat, seq<nat>>)
    requires |priorities| > 0 && (forall q :: q in queues ==> queues[q] > 0)
    requires forall s :: s in sems ==> sems[s].count <= sems[s].maxCount
    requires forall p :: p in pools ==> NoDup(pools[p]) && 0 !in pools[p]
    ensures Init(Boot(priorities, maxTasks, queues, mutexes, sems, events, pools))
  {
    var k := Boot(priorities, maxTasks, queues, mutexes, sems, events, pools);
    forall i ensures i in k.ring <==> 0 <= i < |k.tasks| {
      if 0 <= i < |k.tasks| { assert k.ring[i] == i; }
    }
  }

  lemma InitSep(k: Kernel)
    requires Init(k)
    ensures Sep(k) && SchedRuns.SchedOk(k) && forall x: Tid :: Role(WaitsOf(k), x) == Outside
  {
  }

  // ---------- Separation, queues, semaphores, event flags and pools, together ----------

  ghost predicate QueuesOk(k0: Kernel, k: Kernel) {
    forall q :: q in k0.queues ==> q in k.queues && QueueRuns.QueueOk(k, q)
  }

  ghost predicate SemsOk(k0: Kernel, k: Kernel) {
    forall s :: s in k0.sems ==> s in k.sems && SemRuns.SemOk(k, s, k0.sems[s].count)
  }

  ghost predicate EventsOk(k0: Kernel, k: Kernel) {
    forall e :: e in k0.events ==> e in k.events && EventRuns.EventOk(k, e)
  }

  ghost predicate PoolsOk(k0: Kernel, k: Kernel) {
    forall p :: p in k0.pools ==> p in k.pools && PoolRuns.PoolOk(k, p, k0.pools[p])
  }

  /** The state of a kernel that started as `k0`. */
  ghost predicate Safe(k0: Kernel, k: Kernel) {
    Sep(k) && SchedRuns.SchedOk(k) && QueuesOk(k0, k) && SemsOk(k0, k) && EventsOk(k0, k) && PoolsOk(k0, k)
  }

  lemma InitNobody(k: Kernel, l: Lid)
    requires Init(k)
    ensures Pending(WaitsOf(k), l) == {} && !SomeoneParked(WaitsOf(k), l) && ListOf(k, l) == []
    ensures forall b: nat :: PoolRuns.Carriers(WaitsOf(k), l, b) == {}
  {
  }

  lemma InitQueues(k: Kernel)
    requires Init(k)
    ensures QueuesOk(k, k)
  {
  }

  lemma InitSems(k: Kernel)
    requires Init(k)
    ensures SemsOk(k, k)
  {
  }

  lemma InitPools(k: Kernel)
    requires Init(k)
    ensures PoolsOk(k, k)
  {
  }

  lemma InitSafe(k: Kernel)
    requires Init(k)
    ensures Safe(k, k)
  {
    InitSep(k);
    InitQueues(k);
    InitSems(k);
    InitPools(k);
  }

  lemma ObjectsStep(k0: Kernel, k: Kernel, a: Action)
    requires Safe(k0, k) && Enabled(k, a)
    ensures QueuesOk(k0, Apply(k, a)) && SemsOk(k0, Apply(k, a))
  {
    forall q | q in k0.queues ensures q in Apply(k, a).queues && QueueRuns.QueueOk(Apply(k, a), q) {
      QueueRuns.QueueStep(k, a, q);
    }
    forall s | s in k0.sems ensures s in Apply(k, a).sems && SemRuns.SemOk(Apply(k, a), s, k0.sems[s].count) {
      SemRuns.SemStep(k, a, s, k0.sems[s].count);
    }
  }

  lemma GrantsStep(k0: Kernel, k: Kernel, a: Action)
    requires Safe(k0, k) && Enabled(k, a)
    ensures EventsOk(k0, Apply(k, a)) && PoolsOk(k0, Apply(k, a))
  {
    forall e | e in k0.events ensures e in Apply(k, a).events && EventRuns.EventOk(Apply(k, a), e) {
      EventRuns.EventStep(k, a, e);
    }
    forall p | p in k0.pools ensures p in Apply(k, a).pools && PoolRuns.PoolOk(Apply(k, a), p, k0.pools[p]) {
      PoolRuns.PoolStep(k, a, p, k0.pools[p]);
    }
  }

  lemma SafeStep(k0: Kernel, k: Kernel, a: Action)
    requires Safe(k0, k) && Enabled(k, a)
    ensures Safe(k0, Apply(k, a))
  {
    SepStep(k, a);
    SchedRuns.SchedStep(k, a);
    ObjectsStep(k0, k, a);
    GrantsStep(k0, k, a);
  }

  lemma {:induction false} SafeRun(k0: Kernel, k: Kernel, acts: seq<Action>)
    requires Safe(k0, k) && Legal(k, acts)
    ensures Safe(k0, Run(k, acts))
    decreases |acts|
  {
    if acts != [] {
      SafeStep(k0, k, acts[0]);
      SafeRun(k0, Apply(k, acts[0]), acts[1..]);
    }
  }

  /** Every reachable state of every run is safe. */
  lemma AlwaysSafe(k: Kernel, acts: seq<Action>)
    requires Init(k) && Legal(k, acts)
    ensures Safe(k, Run(k, acts))
  {
    InitSafe(k);
    SafeRun(k, k, acts);
  }

  // ---------- What that says, object by object ----------

  /** Wait-list separation. */
  lemma ListsAreSeparate(k: Kernel, acts: seq<Action>, x: Tid, l: Lid, l': Lid)
    requires Init(k) && Legal(k, acts)
    ensures var r := Run(k, acts); var c := Get(r.tasks, x);
            && NoDup(ListOf(r, l))
            && (x in ListOf(r, l) && x in ListOf(r, l') ==> l == l')
            && (x in ListOf(r, l) && c.state != Blocked ==> c.result == Timeout)
            && (c.state == Blocked ==>
                  CallOf(r, x).Waiting? && (x in ListOf(r, l) <==> ListFor(CallOf(r, x).req) == Some(l)))
  {
    AlwaysSafe(k, acts);
    var r := Run(k, acts);
    assert Coherent(Get(r.tasks, x), CallOf(r, x));
    assert x in ListOf(r, l) ==> ParkedIn(CallOf(r, x), l);
    assert x in ListOf(r, l') ==> ParkedIn(CallOf(r, x), l');
  }

  /** The queue is a bounded FIFO, and with no woken task outstanding receivers wait only
      while it is empty, senders only while it is full, never both. */
  lemma QueueIsFifo(k: Kernel, acts: seq<Action>, q: nat)
    requires Init(k) && Legal(k, acts) && q in k.queues
    ensures var r := Run(k, acts); var w := WaitsOf(r);
            && q in r.queues && |r.queues[q].contents| <= r.queues[q].capacity
            && QueueRuns.SentOk(r.log, q) == QueueRuns.ReceivedOk(r.log, q) + r.queues[q].contents
            && (SomeoneParked(w, RecvList(q)) ==> |r.queues[q].contents| <= |Pending(w, RecvList(q))|)
            && (SomeoneParked(w, SendList(q)) ==> r.queues[q].capacity - |r.queues[q].contents| <= |Pending(w, SendList(q))|)
            && (Pending(w, RecvList(q)) == {} && Pending(w, SendList(q)) == {} ==>
                  !(SomeoneParked(w, RecvList(q)) && SomeoneParked(w, SendList(q))))
  {
    AlwaysSafe(k, acts);
    assert QueueRuns.QueueOk(Run(k, acts), q);
  }

  /** Semaphore tokens are conserved. */
  lemma SemConserves(k: Kernel, acts: seq<Action>, s: nat)
    requires Init(k) && Legal(k, acts) && s in k.sems
    ensures var r := Run(k, acts);
            && s in r.sems && r.sems[s].count <= r.sems[s].maxCount
            && k.sems[s].count + SemRuns.PostsOk(r.log, s) ==
                 r.sems[s].count + SemRuns.WaitsOk(r.log, s) + |Pending(WaitsOf(r), SemList(s))|
            && (r.sems[s].count > 0 ==> ListOf(r, SemList(s)) == [])
  {
    AlwaysSafe(k, acts);
    assert SemRuns.SemOk(Run(k, acts), s, k.sems[s].count);
  }

  /** Every block is on the free list, in a caller's hands or in flight to a released
      waiter, in exactly one of them and once. */
  lemma PoolConserves(k: Kernel, acts: seq<Action>, p: nat, b: nat)
    requires Init(k) && Legal(k, acts) && p in k.pools
    ensures var r := Run(k, acts);
            && p in r.pools
            && multiset(r.pools[p])[b] + Held(r.log, p)[b] + |PoolRuns.Carriers(WaitsOf(r), PoolList(p), b)| ==
                 (if b in k.pools[p] then 1 else 0)
            && (r.pools[p] != [] ==> ListOf(r, PoolList(p)) == [])
  {
    AlwaysSafe(k, acts);
    assert PoolRuns.PoolOk(Run(k, acts), p, k.pools[p]);
    assert PoolRuns.Conserved(Run(k, acts), p, k.pools[p], b);
    if b in k.pools[p] { PoolRuns.NoDupCounts(k.pools[p], b); }
  }

  /** No task sleeps on event flags whose condition holds. */
  lemma NobodyOversleeps(k: Kernel, acts: seq<Action>, e: nat, x: Tid)
    requires Init(k) && Legal(k, acts) && e in k.events
    requires Role(WaitsOf(Run(k, acts)), x) == Parked(EventList(e))
    ensures e in Run(k, acts).events && EventRuns.Sleeps(Run(k, acts).events[e], Get(Run(k, acts).tasks, x))
  {
    AlwaysSafe(k, acts);
    assert EventRuns.EventOk(Run(k, acts), e);
  }

  // ---------- The mutex ----------

  /** No owner of `m` locks it once more than the counter can hold. */
  ghost predicate NeverOverflows(k: Kernel, acts: seq<Action>, m: nat)
    requires Legal(k, acts)
    decreases |acts|
  {
    acts == [] ||
    ((m in k.mutexes ==> !MutexRuns.OverflowsIn(k, acts[0], m)) && NeverOverflows(Apply(k, acts[0]), acts[1..], m))
  }

  lemma {:induction false} MutexRun(k: Kernel, acts: seq<Action>, m: nat)
    requires Sep(k) && m in k.mutexes && MutexRuns.MutexOk(k, m) && Legal(k, acts) && NeverOverflows(k, acts, m)
    ensures m in Run(k, acts).mutexes && MutexRuns.MutexOk(Run(k, acts), m)
    decreases |acts|
  {
    if acts != [] {
      SepStep(k, acts[0]);
      MutexRuns.MutexStep(k, acts[0], m);
      MutexRun(Apply(k, acts[0]), acts[1..], m);
    }
  }

  /** Over every run in which the counter never overflows: owned exactly while counted, the
      count is the owner's unmatched locks, nobody else has one, and a free mutex with a
      parked waiter has one on its way. */
  lemma MutexExcludes(k: Kernel, acts: seq<Action>, m: nat)
    requires Init(k) && Legal(k, acts) && m in k.mutexes && NeverOverflows(k, acts, m)
    ensures m in Run(k, acts).mutexes && MutexRuns.MutexOk(Run(k, acts), m)
  {
    InitSep(k);
    InitNobody(k, MutexList(m));
    MutexRun(k, acts, m);
  }

  // ---------- Priorities ----------

  /** Each acquirer of the free mutex is at least as high as the valid waiters left behind,
      and no owner exits. */
  ghost predicate DisciplinedRun(k: Kernel, acts: seq<Action>, m: nat)
    requires Legal(k, acts)
    decreases |acts|
  {
    acts == [] ||
    ((m in k.mutexes ==> Inheritance.Disciplined(k, acts[0], m)) && DisciplinedRun(Apply(k, acts[0]), acts[1..], m))
  }

  lemma {:induction false} InheritRun(k: Kernel, acts: seq<Action>, m: nat)
    requires Sep(k) && Inheritance.PriorityOk(k, m) && Legal(k, acts) && DisciplinedRun(k, acts, m)
    ensures Inheritance.PriorityOk(Run(k, acts), m)
    decreases |acts|
  {
    if acts != [] {
      SepStep(k, acts[0]);
      Inheritance.InheritStep(k, acts[0], m);
      InheritRun(Apply(k, acts[0]), acts[1..], m);
    }
  }

  /** With one mutex and the guard on acquirers alone: only an owner is away from its base
      priority, and it is at least as high as every valid waiter and no higher than its base
      or somebody still linked. */
  lemma GuardedOwnerInherits(k: Kernel, acts: seq<Action>, m: nat)
    requires Init(k) && Legal(k, acts) && Inheritance.OnlyMutex(k, m) && DisciplinedRun(k, acts, m)
    ensures m in Run(k, acts).mutexes && Inheritance.Inherits(MutexView(Run(k, acts), m))
  {
    InitSep(k);
    InitNobody(k, MutexList(m));
    InheritRun(k, acts, m);
  }

  /** Between an unlock that releases a waiter and the switch it requests, the running task
      does not go for the free mutex again; and no owner exits. */
  ghost predicate SwitchesAfterRelease(k: Kernel, acts: seq<Action>, m: nat, due: bool)
    requires Legal(k, acts)
    decreases |acts|
  {
    acts == [] ||
    (&& Preemption.Yields(k, acts[0], m, due)
     && SwitchesAfterRelease(Apply(k, acts[0]), acts[1..], m, Preemption.SwitchDue(k, acts[0], due)))
  }

  lemma {:induction false} PreemptRun(k: Kernel, acts: seq<Action>, m: nat, due: bool)
    requires Preemption.PreemptOk(k, m, due) && Legal(k, acts) && SwitchesAfterRelease(k, acts, m, due)
    ensures Succession.SuccessionOk(Run(k, acts), m)
    ensures DisciplinedRun(k, acts, m)
    decreases |acts|
  {
    if acts != [] {
      Preemption.YieldingIsDisciplined(k, acts[0], m, due);
      Preemption.PreemptStep(k, acts[0], m, due);
      PreemptRun(Apply(k, acts[0]), acts[1..], m, Preemption.SwitchDue(k, acts[0], due));
    }
  }

  /** With one mutex, over every run in which the switch an unlock requests is taken before
      the running task locks again: the guard on acquirers holds by itself, hence the bounds do,
      the waiters stand in priority order, and while the mutex is free a task at least as
      high as each parked one is on its way. */
  lemma OwnerInheritsAlways(k: Kernel, acts: seq<Action>, m: nat)
    requires Init(k) && Legal(k, acts) && Inheritance.OnlyMutex(k, m) && SwitchesAfterRelease(k, acts, m, false)
    ensures m in Run(k, acts).mutexes && Inheritance.Inherits(MutexView(Run(k, acts), m))
    ensures DisciplinedRun(k, acts, m) && Succession.InOrder(Run(k, acts), m) && Succession.Heirs(Run(k, acts), m)
  {
    InitSep(k);
    InitNobody(k, MutexList(m));
    PreemptRun(k, acts, m, false);
  }

  // ---------- The order of the wait lists ----------

  /** No step changes the priority of a task while it is linked. */
  ghost predicate AlwaysSpares(k: Kernel, acts: seq<Action>)
    requires Legal(k, acts)
    decreases |acts|
  {
    acts == [] || (WaitOrder.SparesLinked(k, Apply(k, acts[0])) && AlwaysSpares(Apply(k, acts[0]), acts[1..]))
  }

  lemma {:induction false} SortedRun(k: Kernel, acts: seq<Action>)
    requires Sep(k) && WaitOrder.AllSorted(k) && Legal(k, acts) && AlwaysSpares(k, acts)
    ensures WaitOrder.AllSorted(Run(k, acts))
    decreases |acts|
  {
    if acts != [] {
      WaitOrder.SortedStep(k, acts[0]);
      SepStep(k, acts[0]);
      SortedRun(Apply(k, acts[0]), acts[1..]);
    }
  }

  /** No task blocks in a wait list while it owns a mutex. */
  ghost predicate OwnersStayOut(k: Kernel, acts: seq<Action>)
    requires Legal(k, acts)
    decreases |acts|
  {
    acts == [] || (!WaitOrder.OwnerParks(k, acts[0]) && OwnersStayOut(Apply(k, acts[0]), acts[1..]))
  }

  lemma {:induction false} OwnersRun(k: Kernel, acts: seq<Action>)
    requires Sep(k) && WaitOrder.OwnersUnlinked(k) && Legal(k, acts) && OwnersStayOut(k, acts)
    ensures AlwaysSpares(k, acts)
    decreases |acts|
  {
    if acts != [] {
      WaitOrder.OwnersSpareLinked(k, acts[0]);
      WaitOrder.OwnersStep(k, acts[0]);
      SepStep(k, acts[0]);
      OwnersRun(Apply(k, acts[0]), acts[1..]);
    }
  }

  /** With any number of mutexes, as long as no task blocks in a wait list while it owns one:
      every wait list of every object is in descending priority at all times, so a wake-up
      goes to the highest-priority valid waiter, the earliest among equals. */
  lemma ListsStaySorted(k: Kernel, acts: seq<Action>, l: Lid)
    requires Init(k) && Legal(k, acts) && OwnersStayOut(k, acts)
    ensures var r := Run(k, acts); var s := ListOf(r, l);
            && Sorted(r.tasks, s)
            && (PopTask(r.tasks, s).None? <==> forall x :: x in s ==> !IsValidWaiter(Get(r.tasks, x)))
            && forall i :: 0 <= i < |s| && PopTask(r.tasks, s) == Some(s[i]) ==>
                 forall j :: 0 <= j < |s| && IsValidWaiter(Get(r.tasks, s[j])) && j != i ==>
                   i < j && Get(r.tasks, s[j]).priority <= Get(r.tasks, s[i]).priority
  {
    InitSep(k);
    OwnersRun(k, acts);
    SortedRun(k, acts);
    AlwaysSafe(k, acts);
    PopTakesTheBest(Run(k, acts).tasks, ListOf(Run(k, acts), l));
  }

  // ---------- Notifications ----------

  /** No step gives the slot of `t` to a new task. */
  ghost predicate Lives(k: Kernel, acts: seq<Action>, t: Tid)
    requires Legal(k, acts)
    decreases |acts|
  {
    acts == [] || (!NotifyRuns.Replaces(k, acts[0], t) && Lives(Apply(k, acts[0]), acts[1..], t))
  }

  lemma {:induction false} NotifyRun(k: Kernel, acts: seq<Action>, t: Tid)
    requires Sep(k) && NotifyRuns.NotifyOk(k, t) && Legal(k, acts) && Lives(k, acts, t)
    ensures NotifyRuns.NotifyOk(Run(k, acts), t)
    decreases |acts|
  {
    if acts != [] {
      SepStep(k, acts[0]);
      NotifyRuns.NotifyStep(k, acts[0], t);
      NotifyRun(Apply(k, acts[0]), acts[1..], t);
    }
  }

  /** A bit sent is still in the word unless a successful wait reported it or asked to
      discard it; a bit in the word was sent; a task blocked on a notification has none. */
  lemma NoBitIsLost(k: Kernel, acts: seq<Action>, t: Tid)
    requires Init(k) && Legal(k, acts) && Lives(k, acts, t)
    ensures NotifyRuns.NotifyOk(Run(k, acts), t)
  {
    InitSep(k);
    NotifyRun(k, acts, t);
  }

  lemma {:induction false} FairRun(k: Kernel, acts: seq<Action>, t: Tid)
    requires Sep(k) && NotifyRuns.NotifyOk(k, t) && NotifyRuns.AllFair(k.log, t) && Legal(k, acts) && Lives(k, acts, t)
    ensures NotifyRuns.AllFair(Run(k, acts).log, t)
    decreases |acts|
  {
    if acts != [] {
      SepStep(k, acts[0]);
      NotifyRuns.NotifyStep(k, acts[0], t);
      NotifyRuns.FairStep(k, acts[0], t);
      FairRun(Apply(k, acts[0]), acts[1..], t);
    }
  }

  /** Every wait that ever returned OK, at once or after blocking, reported all the bits owed
      to its task at that point but those it asked to discard, and no bit that was not sent. */
  lemma ReportsAreFair(k: Kernel, acts: seq<Action>, t: Tid, i: nat)
    requires Init(k) && Legal(k, acts) && Lives(k, acts, t) && i < |Run(k, acts).log|
    ensures NotifyRuns.Fair(Run(k, acts).log, i, t)
  {
    InitSep(k);
    FairRun(k, acts, t);
  }

  // ---------- The scheduler's assertion ----------

  predicate Runnable(k: Kernel, x: Tid) {
    Get(k.tasks, x).state == Ready || Get(k.tasks, x).state == Running
  }

  /** The call parks the running task; others return at once. */
  predicate BlocksNow(k: Kernel, a: Action)
    requires Enabled(k, a)
  {
    a.Invoke? && (AttemptEffect(k, a.req).EParksIn? || AttemptEffect(k, a.req).EParksAlone?)
  }

  /** `i` never blocks, though it may make calls that return at once, and does not exit. */
  ghost predicate NeverBlocks(k: Kernel, acts: seq<Action>, i: Tid)
    requires Legal(k, acts)
    decreases |acts|
  {
    acts == [] ||
    ((k.current == i ==> !BlocksNow(k, acts[0]) && !acts[0].Exit?) && NeverBlocks(Apply(k, acts[0]), acts[1..], i))
  }

  lemma FreeStays(w: Waits, v: Waits, e: Effect, i: Tid)
    requires Has(w, v, e) && CallAt(w.calls, i) == Free
    requires e.EParksIn? || e.EParksAlone? || e.EUnlinks? ==> e.t != i
    requires e.EMovesOn? && e.t == i ==> e.c == Free
    ensures CallAt(v.calls, i) == Free
  {
  }

  lemma EffectOfFree(k: Kernel, a: Action, i: Tid)
    requires Enabled(k, a) && CallOf(k, i) == Free && (k.current == i ==> !BlocksNow(k, a))
    ensures var e := EffectOf(k, a);
            && (e.EParksIn? || e.EParksAlone? || e.EUnlinks? ==> e.t != i)
            && (e.EMovesOn? && e.t == i ==> e.c == Free)
  {
  }

  lemma IdleStep(k: Kernel, a: Action, i: Tid)
    requires Sep(k) && Enabled(k, a) && CallOf(k, i) == Free && Runnable(k, i)
    requires k.current == i ==> !BlocksNow(k, a) && !a.Exit?
    ensures CallOf(Apply(k, a), i) == Free && Runnable(Apply(k, a), i)
  {
    ActionHasEffect(k, a);
    EffectOfFree(k, a, i);
    FreeStays(WaitsOf(k), WaitsOf(Apply(k, a)), EffectOf(k, a), i);
    SepStep(k, a);
    assert Coherent(Get(Apply(k, a).tasks, i), CallOf(Apply(k, a), i));
    NotStopped(k, a, i);
  }

  lemma NotStopped(k: Kernel, a: Action, i: Tid)
    requires Sep(k) && Enabled(k, a) && Get(k.tasks, i).state != Stopped && !(a.Exit? && k.current == i)
    ensures Get(Apply(k, a).tasks, i).state != Stopped
  {
    if a.Switch? {
      Inheritance.SwitchKeepsPriorities(SchedView(k), i);
    } else if a.Create? {
      Inheritance.CreateKeepsPriorities(k, a.priority, i);
    } else if !a.Exit? {
      ActionSteady(k, a);
      assert StateSteady(Get(k.tasks, i), Get(Apply(k, a).tasks, i));
    }
  }

  lemma {:induction false} IdleRun(k: Kernel, acts: seq<Action>, i: Tid)
    requires Sep(k) && CallOf(k, i) == Free && Runnable(k, i) && Legal(k, acts) && NeverBlocks(k, acts, i)
    ensures Runnable(Run(k, acts), i)
    decreases |acts|
  {
    if acts != [] {
      SepStep(k, acts[0]);
      IdleStep(k, acts[0], i);
      IdleRun(Apply(k, acts[0]), acts[1..], i);
    }
  }

  /** With a task that never blocks, as the idle task, the scheduler always finds one to
      run: after every run a switch leaves the current task, and no other, running. */
  lemma AssertionCannotFire(k: Kernel, acts: seq<Action>, i: Tid)
    requires Init(k) && i < |k.tasks| && Legal(k, acts) && NeverBlocks(k, acts, i)
    ensures var r := DoSwitch(Run(k, acts));
            Get(r.tasks, r.current).state == Running && forall x: Tid :: Get(r.tasks, x).state == Running ==> x == r.current
  {
    AlwaysSafe(k, acts);
    IdleRun(k, acts, i);
    var s := Run(k, acts);
    SchedRuns.SwitchOk(s);
    if s.schedLock == 0 || Get(s.tasks, s.current).state != Running {
      SchedRuns.SwitchRunsTheBest(s);
    }
  }
}
