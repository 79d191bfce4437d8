/** Priority inheritance over whole runs, with one mutex in play. */
module Inheritance {
  import opened Base
  import opened WaitQueue
  import opened Kernel
  import opened Separation
  import opened Effects
  import opened Roles
  import opened ObjectFrame
  import opened Steady
  import MutexSpec
  import SchedSpec
  import TaskSpec

  /** Nobody but an owner is away from its base priority. */
  ghost predicate OthersAtBase(v: MutexSpec.View) {
    forall x: Tid :: v.m.owner != Some(x) ==> Get(v.ts, x).priority == Get(v.ts, x).basePriority
  }

  /** `p` is at least the priority of every valid waiter. */
  ghost predicate CoversWaiters(ts: seq<Tcb>, l: seq<Tid>, p: uint32) {
    forall x :: x in l && IsValidWaiter(Get(ts, x)) ==> Get(ts, x).priority <= p
  }

  /** The owner runs at its base priority or at that of somebody still linked, the stale
      waiters included. */
  ghost predicate Justified(ts: seq<Tcb>, l: seq<Tid>, o: Tid) {
    var c := Get(ts, o);
    c.basePriority <= c.priority && (c.priority == c.basePriority || exists x :: x in l && c.priority <= Get(ts, x).priority)
  }

  /** max(base, valid waiters) <= owner <= max(base, linked waiters). */
  ghost predicate OwnerInherits(v: MutexSpec.View) {
    v.m.owner.Some? ==>
      var o := v.m.owner.value;
      && o < |v.ts| && o !in v.waiters && Get(v.ts, o).state != Stopped
      && CoversWaiters(v.ts, v.waiters, Get(v.ts, o).priority) && Justified(v.ts, v.waiters, o)
  }

  ghost predicate Inherits(v: MutexSpec.View) {
    OthersAtBase(v) && OwnerInherits(v)
  }

  // ---------- The three regions ----------

  /** Taking a free mutex inherits nothing from the waiters left behind, so the bounds hold
      afterwards if and only if the new owner is at least as high as every valid one. */
  lemma AcquireInheritsIff(v: MutexSpec.View, t: Tid, timeout: uint32)
    requires Inherits(v) && v.m.owner == None && t < |v.ts| && Get(v.ts, t).state == Running && t !in v.waiters
    ensures Inherits(MutexSpec.Lock(v, t, timeout).0) <==> CoversWaiters(v.ts, v.waiters, Get(v.ts, t).priority)
  {
  }

  /** A blocking task passes its priority on to the owner. */
  lemma ParkInherits(v: MutexSpec.View, o: Tid, t: Tid, timeout: uint32)
    requires Inherits(v) && v.m.owner == Some(o) && o != t && timeout != 0
    requires t < |v.ts| && Get(v.ts, t).state == Running && t !in v.waiters
    ensures Inherits(MutexSpec.Lock(v, t, timeout).0)
  {
    var r := MutexSpec.Lock(v, t, timeout).0;
    PushMembers(r.ts, v.waiters, t);
    assert t in r.waiters;
    assert OthersAtBase(r);
    assert CoversWaiters(r.ts, r.waiters, Get(r.ts, o).priority);
    assert Justified(r.ts, r.waiters, o) by {
      if Get(v.ts, o).priority > Get(v.ts, t).priority && Get(v.ts, o).priority != Get(v.ts, o).basePriority {
        var x :| x in v.waiters && Get(v.ts, o).priority <= Get(v.ts, x).priority;
        assert x in r.waiters && Get(r.ts, x).priority == Get(v.ts, x).priority;
      }
    }
  }

  lemma LockInherits(v: MutexSpec.View, t: Tid, timeout: uint32)
    requires Inherits(v) && v.m.owner != None && t < |v.ts| && Get(v.ts, t).state == Running && t !in v.waiters
    ensures Inherits(MutexSpec.Lock(v, t, timeout).0)
  {
    if v.m.owner != Some(t) && timeout != 0 {
      ParkInherits(v, v.m.owner.value, t, timeout);
    }
  }

  lemma RecomputeInherits(ts: seq<Tcb>, m: MutexSpec.MutexVal, l: seq<Tid>)
    requires OthersAtBase(MutexSpec.View(ts, m, l))
    requires m.owner.Some? ==> m.owner.value < |ts| && m.owner.value !in l && Get(ts, m.owner.value).state != Stopped
    ensures Inherits(MutexSpec.View(MutexSpec.Recompute(ts, m, l), m, l))
  {
  }

  lemma TimeoutInherits(v: MutexSpec.View, t: Tid)
    requires Inherits(v) && NoDup(v.waiters) && Get(v.ts, t).state == Running
    ensures Inherits(MutexSpec.Resume(v, t).0)
  {
    if Get(v.ts, t).result == Timeout {
      RemoveMembers(v.waiters, t);
      RecomputeInherits(Put(v.ts, t, Get(v.ts, t).(waitType := WaitNone)), v.m, Remove(v.waiters, t));
    }
  }

  // ---------- The kernel step ----------

  /** What the bounds ask of a step: an acquirer of the free mutex is at least as high as
      the valid waiters left behind, and an owner does not exit. */
  ghost predicate Disciplined(k: Kernel, a: Action, m: nat)
    requires m in k.mutexes
  {
    && (a.Exit? ==> k.mutexes[m].owner != Some(k.current))
    && (Attempted(k, a).Some? && Attempted(k, a).value.LockReq? && k.mutexes[m].owner == None ==>
          CoversWaiters(k.tasks, ListOf(k, MutexList(m)), Get(k.tasks, k.current).priority))
  }

  ghost predicate OnlyMutex(k: Kernel, m: nat) {
    forall n :: n in k.mutexes <==> n == m
  }

  ghost predicate PriorityOk(k: Kernel, m: nat) {
    OnlyMutex(k, m) && Inherits(MutexView(k, m))
  }

  lemma LockStep(k: Kernel, req: Request)
    requires Attempting(k, req) && req.LockReq? && PriorityOk(k, req.m)
    requires k.mutexes[req.m].owner == None ==> CoversWaiters(k.tasks, ListOf(k, MutexList(req.m)), Get(k.tasks, k.current).priority)
    ensures PriorityOk(TryLock(k, req), req.m)
  {
    var v := MutexView(k, req.m);
    assert Coherent(Get(k.tasks, k.current), CallOf(k, k.current));
    if v.m.owner == None { AcquireInheritsIff(v, k.current, req.timeout); } else { LockInherits(v, k.current, req.timeout); }
    assert MutexView(TryLock(k, req), req.m) == MutexSpec.Lock(v, k.current, req.timeout).0;
  }

  lemma EndLockStep(k: Kernel, req: Request)
    requires Continuing(k, req) && req.LockReq? && PriorityOk(k, req.m)
    ensures PriorityOk(EndLock(k, req), req.m)
  {
    var v := MutexView(k, req.m);
    TimeoutInherits(v, k.current);
    assert MutexView(EndLock(k, req), req.m) == MutexSpec.Resume(v, k.current).0;
  }

  lemma UnlockStep(k: Kernel, m: nat)
    requires PriorityOk(k, m)
    ensures PriorityOk(DoUnlock(k, m), m)
  {
  }

  /** Same mutex, same list, no new valid waiter, and the priorities of the tasks that matter. */
  lemma InheritsUndisturbed(v: MutexSpec.View, r: MutexSpec.View)
    requires Inherits(v) && r.m == v.m && r.waiters == v.waiters && |r.ts| >= |v.ts|
    requires forall x :: x in v.waiters && IsValidWaiter(Get(r.ts, x)) ==> IsValidWaiter(Get(v.ts, x))
    requires forall x: Tid :: (Get(r.ts, x).priority == Get(v.ts, x).priority && Get(r.ts, x).basePriority == Get(v.ts, x).basePriority)
               || (x !in v.waiters && v.m.owner != Some(x) && Get(r.ts, x).priority == Get(r.ts, x).basePriority)
    requires v.m.owner.Some? && Get(v.ts, v.m.owner.value).state != Stopped ==> Get(r.ts, v.m.owner.value).state != Stopped
    ensures Inherits(r)
  {
  }

  /** Priorities and stopped tasks after a step of anything but the mutex. */
  ghost predicate Keeps(c: Tcb, d: Tcb) {
    d.priority == c.priority && d.basePriority == c.basePriority && (d.state == Stopped <==> c.state == Stopped)
  }

  lemma SwitchKeepsPriorities(v: SchedSpec.View, x: Tid)
    ensures Keeps(Get(v.ts, x), Get(SchedSpec.ScheduleNext(v).ts, x))
  {
  }

  lemma ActionKeepsPriorities(k: Kernel, a: Action, x: Tid)
    requires Sep(k) && Enabled(k, a) && !OfMutex(k, a)
    requires a.Exit? ==> x != k.current
    ensures |Apply(k, a).tasks| >= |k.tasks|
    ensures Keeps(Get(k.tasks, x), Get(Apply(k, a).tasks, x)) ||
            (CallOf(k, x) == Free && Get(k.tasks, x).state == Stopped && Get(Apply(k, a).tasks, x).priority == Get(Apply(k, a).tasks, x).basePriority)
  {
    if a.Switch? {
      SwitchKeepsPriorities(SchedView(k), x);
    } else if a.Create? {
      CreateKeepsPriorities(k, a.priority, x);
    } else if !a.Exit? {
      ActionSteady(k, a);
      assert StateSteady(Get(k.tasks, x), Get(Apply(k, a).tasks, x));
    }
  }

  lemma CreateKeepsPriorities(k: Kernel, priority: uint32, x: Tid)
    requires Sep(k)
    ensures var k' := CreateTask(k, priority);
            && |k'.tasks| >= |k.tasks|
            && (Keeps(Get(k.tasks, x), Get(k'.tasks, x)) ||
                (CallOf(k, x) == Free && Get(k.tasks, x).state == Stopped && Get(k'.tasks, x).priority == Get(k'.tasks, x).basePriority))
  {
    if Get(k.tasks, x).state == Stopped {
      StoppedIsFree(k, x);
    }
  }

  lemma ExitKeepsPriorities(k: Kernel)
    requires AtLarge(k)
    ensures Apply(k, Exit).tasks == Put(k.tasks, k.current, TaskSpec.Exited(Get(k.tasks, k.current)))
  {
  }

  lemma OtherKeeps(k: Kernel, a: Action, m: nat, x: Tid)
    requires Sep(k) && Enabled(k, a) && PriorityOk(k, m) && Disciplined(k, a, m) && !OfMutex(k, a)
    ensures |Apply(k, a).tasks| >= |k.tasks|
    ensures Keeps(Get(k.tasks, x), Get(Apply(k, a).tasks, x)) ||
            (&& x !in ListOf(k, MutexList(m)) && k.mutexes[m].owner != Some(x)
             && Get(Apply(k, a).tasks, x).priority == Get(Apply(k, a).tasks, x).basePriority)
  {
    if a.Exit? && x == k.current { ExitKeepsPriorities(k); } else { ActionKeepsPriorities(k, a, x); }
  }

  lemma OtherKeepsMutex(k: Kernel, a: Action, m: nat)
    requires Sep(k) && Enabled(k, a) && OnlyMutex(k, m) && !OfMutex(k, a)
    ensures OnlyMutex(Apply(k, a), m) && Apply(k, a).mutexes[m] == k.mutexes[m]
  {
    forall n ensures n in Apply(k, a).mutexes <==> n in k.mutexes {
      ActionApart(k, a, MutexObj(n));
    }
    ActionApart(k, a, MutexObj(m));
  }

  lemma OtherKeepsValid(k: Kernel, a: Action, m: nat)
    requires Sep(k) && Enabled(k, a) && !OfMutex(k, a)
    ensures ListOf(Apply(k, a), MutexList(m)) == ListOf(k, MutexList(m))
    ensures forall x :: x in ListOf(k, MutexList(m)) && IsValidWaiter(Get(Apply(k, a).tasks, x)) ==> IsValidWaiter(Get(k.tasks, x))
  {
    OthersLeftAlone(k, a, MutexList(m));
    SepStep(k, a);
    forall x | x in ListOf(k, MutexList(m)) && IsValidWaiter(Get(Apply(k, a).tasks, x)) ensures IsValidWaiter(Get(k.tasks, x)) {
      ParkedIffLinkedValid(WaitsOf(Apply(k, a)), MutexList(m), x);
      ParkedIffLinkedValid(WaitsOf(k), MutexList(m), x);
    }
  }

  lemma OtherStep(k: Kernel, a: Action, m: nat)
    requires Sep(k) && Enabled(k, a) && PriorityOk(k, m) && Disciplined(k, a, m) && !OfMutex(k, a)
    ensures PriorityOk(Apply(k, a), m)
  {
    OtherKeepsMutex(k, a, m);
    OtherKeepsValid(k, a, m);
    forall x: Tid
      ensures Keeps(Get(k.tasks, x), Get(Apply(k, a).tasks, x)) ||
              (&& x !in ListOf(k, MutexList(m)) && k.mutexes[m].owner != Some(x)
               && Get(Apply(k, a).tasks, x).priority == Get(Apply(k, a).tasks, x).basePriority)
      ensures |Apply(k, a).tasks| >= |k.tasks|
    {
      OtherKeeps(k, a, m, x);
    }
    InheritsUndisturbed(MutexView(k, m), MutexView(Apply(k, a), m));
  }

  lemma InheritStep(k: Kernel, a: Action, m: nat)
    requires Sep(k) && Enabled(k, a) && PriorityOk(k, m) && Disciplined(k, a, m)
    ensures PriorityOk(Apply(k, a), m)
  {
    if !OfMutex(k, a) {
      OtherStep(k, a, m);
    } else if a.Unlock? {
      UnlockStep(k, m);
    } else if a.Resume? {
      EndLockStep(k, CallOf(k, k.current).req);
    } else {
      LockStep(k, if a.Invoke? then a.req else CallOf(k, k.current).req);
    }
  }
}
