/** The scheduler over whole runs, and round-robin fairness. */
module SchedRuns {
  import opened Base
  import opened WaitQueue
  import opened Kernel
  import opened Roles
  import opened Steady
  import opened SchedSpec
  import TaskSpec

  // ---------- The choice ----------

  /** `r` is the first ready task of highest priority in the order of the scan. */
  ghost predicate IsBest(ts: seq<Tcb>, order: seq<Tid>, r: Option<Tid>) {
    match r
    case None => forall i :: 0 <= i < |order| ==> Get(ts, order[i]).state != Ready
    case Some(b) => exists n: nat :: BestAt(ts, order, n) && order[n] == b
  }

  /** `n` is where the first ready task of highest priority stands. */
  ghost predicate BestAt(ts: seq<Tcb>, order: seq<Tid>, n: nat) {
    && n < |order| && Get(ts, order[n]).state == Ready
    && forall i :: 0 <= i < |order| && Get(ts, order[i]).state == Ready && i != n ==>
         if i < n then Get(ts, order[i]).priority < Get(ts, order[n]).priority else Get(ts, order[i]).priority <= Get(ts, order[n]).priority
  }

  lemma {:induction false} PickIsBest(ts: seq<Tcb>, order: seq<Tid>)
    ensures IsBest(ts, order, Pick(ts, order))
  {
    if order != [] {
      var x, tail := order[0], order[1..];
      PickIsBest(ts, tail);
      if Pick(ts, tail) == None {
        if Get(ts, x).state == Ready { assert BestAt(ts, order, 0); }
      } else {
        var n: nat :| BestAt(ts, tail, n) && tail[n] == Pick(ts, tail).value;
        PickExtends(ts, order, n);
      }
    }
  }

  lemma PickExtends(ts: seq<Tcb>, order: seq<Tid>, n: nat)
    requires order != [] && BestAt(ts, order[1..], n) && Pick(ts, order[1..]) == Some(order[1..][n])
    ensures IsBest(ts, order, Pick(ts, order))
  {
  }

  /** The scan visits every task of the ring once. */
  lemma ScanCoversRing(ring: seq<Tid>, t: Tid)
    requires NoDup(ring)
    ensures NoDup(ScanOrder(ring, t)) && |ScanOrder(ring, t)| == |ring|
    ensures forall x :: x in ScanOrder(ring, t) <==> x in ring
  {
  }

  // ---------- The invariant ----------

  /** The ring is one cycle over exactly the tasks of the table, and only the current
      task may be running. */
  ghost predicate SchedOk(k: Kernel) {
    && NoDup(k.ring) && (forall x: Tid :: x in k.ring <==> x < |k.tasks|)
    && k.current < |k.tasks|
    && (forall x: Tid :: Get(k.tasks, x).state == Running ==> x == k.current)
  }

  lemma SwitchOk(k: Kernel)
    requires SchedOk(k)
    ensures SchedOk(DoSwitch(k))
  {
  }

  /** The scan sees every ready task, and one at least while some task is runnable. */
  lemma ScanSeesTheReady(k: Kernel)
    requires SchedOk(k)
    requires exists x: Tid :: Get(k.tasks, x).state == Ready || Get(k.tasks, x).state == Running
    ensures var ts, order := SchedSpec.Scanned(SchedView(k)), ScanOrder(k.ring, k.current);
            && (forall y: Tid :: Get(ts, y).state == Ready ==> y in order) && (exists y: Tid :: Get(ts, y).state == Ready)
            && forall y: Tid :: Get(ts, y).state == Ready <==> Get(k.tasks, y).state == Ready || Get(k.tasks, y).state == Running
  {
    ScanCoversRing(k.ring, k.current);
    var x: Tid :| Get(k.tasks, x).state == Ready || Get(k.tasks, x).state == Running;
    assert Get(SchedSpec.Scanned(SchedView(k)), x).state == Ready;
  }

  /** When the scan runs, the first task of highest priority among the ready in scan order
      runs; the assertion cannot fire while some task is runnable. */
  lemma SwitchPicks(k: Kernel)
    requires SchedOk(k) && !(k.schedLock != 0 && Get(k.tasks, k.current).state == Running)
    requires exists x: Tid :: Get(k.tasks, x).state == Ready || Get(k.tasks, x).state == Running
    ensures var k' := DoSwitch(k); var ts := SchedSpec.Scanned(SchedView(k));
            && IsBest(ts, ScanOrder(k.ring, k.current), Some(k'.current))
            && k'.tasks == Put(ts, k'.current, Get(ts, k'.current).(state := Running)) && k'.current < |k.tasks|
  {
    ScanSeesTheReady(k);
    PickIsBest(SchedSpec.Scanned(SchedView(k)), ScanOrder(k.ring, k.current));
  }

  /** It is left the one running task, and none of the runnable ones outranks it. */
  lemma SwitchRunsTheBest(k: Kernel)
    requires SchedOk(k) && !(k.schedLock != 0 && Get(k.tasks, k.current).state == Running)
    requires exists x: Tid :: Get(k.tasks, x).state == Ready || Get(k.tasks, x).state == Running
    ensures var k' := DoSwitch(k);
            && Get(k'.tasks, k'.current).state == Running
            && (forall x: Tid :: x != k'.current && (Get(k.tasks, x).state == Ready || Get(k.tasks, x).state == Running) ==>
                  Get(k'.tasks, x).state == Ready && Get(k'.tasks, x).priority <= Get(k'.tasks, k'.current).priority)
  {
    SwitchPicks(k);
    ScanSeesTheReady(k);
  }

  /** A fresh slot joins the ring right behind the current task. */
  lemma RingInsertMembers(ring: seq<Tid>, current: Tid, t: Tid)
    requires NoDup(ring) && current in ring && t !in ring
    ensures var r := TaskSpec.RingInsert(ring, current, t);
            NoDup(r) && forall x :: x in r <==> x == t || x in ring
  {
  }

  lemma CreateNewOk(k: Kernel, priority: uint32)
    requires SchedOk(k) && |k.tasks| < k.maxTasks
    ensures SchedOk(CreateTask(k, priority))
  {
    var k' := CreateTask(k, priority);
    RingInsertMembers(k.ring, k.current, |k.tasks|);
    assert k'.ring == TaskSpec.RingInsert(k.ring, k.current, |k.tasks|);
    assert k'.tasks == k.tasks + [TaskSpec.NewTcb(priority)];
    forall x: Tid | Get(k'.tasks, x).state == Running ensures x == k'.current {
      assert Get(k'.tasks, x) == if x == |k.tasks| then TaskSpec.NewTcb(priority) else Get(k.tasks, x);
    }
  }

  lemma CreateReusedOk(k: Kernel, priority: uint32)
    requires SchedOk(k) && |k.tasks| >= k.maxTasks
    ensures SchedOk(CreateTask(k, priority))
  {
  }

  lemma CreateOk(k: Kernel, priority: uint32)
    requires SchedOk(k)
    ensures SchedOk(CreateTask(k, priority))
  {
    if |k.tasks| < k.maxTasks { CreateNewOk(k, priority); } else { CreateReusedOk(k, priority); }
  }

  lemma SchedSteadyOk(k: Kernel, k': Kernel)
    requires SchedOk(k) && k'.ring == k.ring && k'.current == k.current
    requires |k'.tasks| == |k.tasks| && forall x: Tid :: Get(k'.tasks, x).state == Running ==> Get(k.tasks, x).state == Running
    ensures SchedOk(k')
  {
  }

  lemma RingKept(k: Kernel, a: Action)
    requires Enabled(k, a) && !a.Switch? && !a.Create?
    ensures Apply(k, a).ring == k.ring && Apply(k, a).current == k.current
  {
  }

  lemma SchedStep(k: Kernel, a: Action)
    requires SchedOk(k) && Enabled(k, a)
    ensures SchedOk(Apply(k, a))
  {
    if a.Switch? {
      SwitchOk(k);
    } else if a.Create? {
      CreateOk(k, a.priority);
    } else {
      RingKept(k, a);
      if a.Exit? {
        SchedSteadyOk(k, Apply(k, a));
      } else {
        ActionSteady(k, a);
        SchedSteadyOk(k, Apply(k, a));
      }
    }
  }
}
