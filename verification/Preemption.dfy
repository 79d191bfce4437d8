/** Why an acquirer never leaves a higher waiter behind: the context switch that an unlock
    asks for is taken before the mutex is locked again. */
module Preemption {
  import opened Base
  import opened WaitQueue
  import opened Kernel
  import opened Separation
  import opened Effects
  import opened Roles
  import opened ObjectFrame
  import opened Inheritance
  import opened Steady
  import opened Succession
  import MutexSpec
  import SchedRuns
  import SchedSpec

  // ---------- The scheduling discipline ----------

  /** The unlock releases a waiter, and so requests a context switch. */
  predicate HandsOver(k: Kernel, a: Action) {
    a.Unlock? && a.m in k.mutexes && Releases(k, a.m) && PopTask(k.tasks, ListOf(k, MutexList(a.m))).Some?
  }

  /** The scheduler lock turns the switch into a mere request. */
  predicate Deferred(k: Kernel) {
    k.schedLock != 0 && Get(k.tasks, k.current).state == Running
  }

  /** Whether a switch requested by an unlock has still to be taken after the step. */
  function SwitchDue(k: Kernel, a: Action, due: bool): bool {
    if a.Switch? then due && Deferred(k) else due || HandsOver(k, a)
  }

  /** While the mutex is free and somebody is parked, the running task is at least as high
      as every waiter on its way. */
  ghost predicate Settled(k: Kernel, m: nat)
    requires m in k.mutexes
  {
    k.mutexes[m].owner == None && SomeoneParked(WaitsOf(k), MutexList(m)) && Get(k.tasks, k.current).state == Running ==>
      forall y: Tid :: Role(WaitsOf(k), y) == Woken(MutexList(m)) ==> Get(k.tasks, y).priority <= Get(k.tasks, k.current).priority
  }

  /** Then its attempt on the free mutex leaves no higher waiter behind. */
  lemma SettledCovers(k: Kernel, m: nat)
    requires Sep(k) && SuccessionOk(k, m) && Settled(k, m)
    requires k.mutexes[m].owner == None && Get(k.tasks, k.current).state == Running
    ensures CoversWaiters(k.tasks, ListOf(k, MutexList(m)), Get(k.tasks, k.current).priority)
  {
    forall x | x in ListOf(k, MutexList(m)) && IsValidWaiter(Get(k.tasks, x))
      ensures Get(k.tasks, x).priority <= Get(k.tasks, k.current).priority
    {
      ParkedIffLinkedValid(WaitsOf(k), MutexList(m), x);
      assert HasHeir(k, m, x);
    }
  }

  // ---------- The switch ----------

  /** With nobody to run, the switch leaves nobody running. */
  lemma NobodyRuns(k: Kernel)
    requires SchedRuns.SchedOk(k) && forall x: Tid :: Get(k.tasks, x).state != Ready && Get(k.tasks, x).state != Running
    ensures forall x: Tid :: Get(DoSwitch(k).tasks, x).state != Running
  {
    assert SchedSpec.Scanned(SchedView(k)) == k.tasks;
  }

  lemma WokenIsRunnable(k: Kernel, l: Lid, y: Tid)
    requires Sep(k) && Role(WaitsOf(k), y) == Woken(l)
    ensures Get(k.tasks, y).state == Ready || Get(k.tasks, y).state == Running
  {
    assert Coherent(Get(k.tasks, y), CallOf(k, y));
  }

  /** A context switch that is taken leaves a running task that no other runnable task outranks. */
  lemma SwitchSettles(k: Kernel, m: nat)
    requires Sep(k) && SchedRuns.SchedOk(k) && m in k.mutexes && !Deferred(k)
    ensures m in DoSwitch(k).mutexes && Settled(DoSwitch(k), m)
  {
    var k' := DoSwitch(k);
    if exists x: Tid :: Get(k.tasks, x).state == Ready || Get(k.tasks, x).state == Running {
      SchedRuns.SwitchRunsTheBest(k);
      SepStep(k, Switch);
      forall y: Tid | Role(WaitsOf(k'), y) == Woken(MutexList(m)) ensures Get(k'.tasks, y).priority <= Get(k'.tasks, k'.current).priority {
        WokenIsRunnable(k', MutexList(m), y);
        SwitchKeepsWaits(SchedView(k), y);
      }
    } else {
      NobodyRuns(k);
    }
  }

  lemma DeferredSwitch(k: Kernel)
    requires Deferred(k)
    ensures DoSwitch(k) == k.(pending := true)
  {
  }

  // ---------- Every other step ----------

  /** Nobody new is parked or woken, and the priorities that matter are the same. */
  lemma SettledKept(k: Kernel, k': Kernel, m: nat)
    requires m in k.mutexes && m in k'.mutexes && Settled(k, m) && k'.current == k.current
    requires k'.mutexes[m].owner == None ==> k.mutexes[m].owner == None
    requires Get(k'.tasks, k.current).state == Running ==>
               Get(k.tasks, k.current).state == Running && Get(k'.tasks, k.current).priority == Get(k.tasks, k.current).priority
    requires forall x: Tid :: Role(WaitsOf(k'), x) == Parked(MutexList(m)) ==> Role(WaitsOf(k), x) == Parked(MutexList(m))
    requires forall y: Tid :: Role(WaitsOf(k'), y) == Woken(MutexList(m)) ==>
               Role(WaitsOf(k), y) == Woken(MutexList(m)) && Get(k'.tasks, y).priority == Get(k.tasks, y).priority
    ensures Settled(k', m)
  {
  }

  lemma CreateRunsNobody(k: Kernel, priority: uint32, x: Tid)
    ensures CreateTask(k, priority).current == k.current
    ensures Get(CreateTask(k, priority).tasks, x).state == Running ==> Get(CreateTask(k, priority).tasks, x) == Get(k.tasks, x)
  {
  }

  lemma CurrentKept(k: Kernel, a: Action)
    requires Enabled(k, a) && !a.Switch?
    ensures Apply(k, a).current == k.current
  {
    if a.Create? { CreateRunsNobody(k, a.priority, 0); } else { SchedRuns.RingKept(k, a); }
  }

  /** A task that still runs after a step has the priority it had. */
  lemma RunnerKept(k: Kernel, a: Action, x: Tid)
    requires Sep(k) && Enabled(k, a) && !OfMutex(k, a) && !a.Switch?
    ensures Get(Apply(k, a).tasks, x).state == Running ==>
              Get(k.tasks, x).state == Running && Get(Apply(k, a).tasks, x).priority == Get(k.tasks, x).priority
  {
    if a.Create? {
      CreateRunsNobody(k, a.priority, x);
    } else if a.Exit? {
      ExitKeepsPriorities(k);
    } else {
      ActionSteady(k, a);
      assert StateSteady(Get(k.tasks, x), Get(Apply(k, a).tasks, x));
    }
  }

  lemma OtherSettled(k: Kernel, a: Action, m: nat)
    requires Sep(k) && Enabled(k, a) && m in k.mutexes && Settled(k, m) && !OfMutex(k, a) && !a.Switch?
    ensures m in Apply(k, a).mutexes && Settled(Apply(k, a), m)
  {
    ActionApart(k, a, MutexObj(m));
    OthersLeftAlone(k, a, MutexList(m));
    CurrentKept(k, a);
    RunnerKept(k, a, k.current);
    forall y: Tid | CallOf(k, y) != Free ensures Get(Apply(k, a).tasks, y).priority == Get(k.tasks, y).priority {
      InvolvedKeepPriority(k, a, y);
    }
    SettledKept(k, Apply(k, a), m);
  }

  lemma LockSettled(k: Kernel, req: Request)
    requires Attempting(k, req) && req.LockReq?
    ensures req.m in TryLock(k, req).mutexes && Settled(TryLock(k, req), req.m)
  {
    assert MutexView(TryLock(k, req), req.m) == MutexSpec.Lock(MutexView(k, req.m), k.current, req.timeout).0;
    assert TryLock(k, req).mutexes[req.m].owner != None;
  }

  /** A region that ends a wait touches no priority while the mutex is free. */
  lemma ResumeFree(v: MutexSpec.View, t: Tid, x: Tid)
    ensures var r := MutexSpec.Resume(v, t).0;
            && r.m == v.m && (Get(r.ts, x).state == Running ==> Get(v.ts, x).state == Running)
            && (v.m.owner == None ==> Get(r.ts, x).priority == Get(v.ts, x).priority)
  {
  }

  lemma EndLockSettled(k: Kernel, req: Request)
    requires Continuing(k, req) && req.LockReq? && Settled(k, req.m)
    ensures req.m in EndLock(k, req).mutexes && Settled(EndLock(k, req), req.m)
  {
    var k' := EndLock(k, req);
    assert MutexView(k', req.m) == MutexSpec.Resume(MutexView(k, req.m), k.current).0;
    assert k'.current == k.current;
    forall x: Tid
      ensures k'.mutexes[req.m] == k.mutexes[req.m] && (Get(k'.tasks, x).state == Running ==> Get(k.tasks, x).state == Running)
      ensures k.mutexes[req.m].owner == None ==> Get(k'.tasks, x).priority == Get(k.tasks, x).priority
      ensures Role(WaitsOf(k'), x) == Role(WaitsOf(k), x) || Role(WaitsOf(k'), x) == Outside
    {
      ResumeFree(MutexView(k, req.m), k.current, x);
      EndLockRoles(k, req, x);
    }
    if k.mutexes[req.m].owner == None { SettledKept(k, k', req.m); }
  }

  /** An unlock that releases nobody leaves nobody parked. */
  lemma UnlockSettled(k: Kernel, m: nat)
    requires Sep(k) && m in k.mutexes && Settled(k, m) && !HandsOver(k, Unlock(m))
    ensures m in DoUnlock(k, m).mutexes && Settled(DoUnlock(k, m), m)
  {
    var k' := DoUnlock(k, m);
    if Releases(k, m) {
      UnlockWakes(k, m);
      WakesRoles(WaitsOf(k), WaitsOf(k'), MutexList(m));
    } else {
      assert k'.tasks == k.tasks && k'.calls == k.calls && k'.current == k.current;
      assert k'.mutexes[m].owner == k.mutexes[m].owner;
      assert forall x: Tid :: Role(WaitsOf(k'), x) == Role(WaitsOf(k), x);
      SettledKept(k, k', m);
    }
  }

  lemma StepSettled(k: Kernel, a: Action, m: nat)
    requires Sep(k) && Enabled(k, a) && OnlyMutex(k, m) && Settled(k, m) && !a.Switch? && !HandsOver(k, a)
    ensures m in Apply(k, a).mutexes && Settled(Apply(k, a), m)
  {
    if !OfMutex(k, a) {
      OtherSettled(k, a, m);
    } else if a.Unlock? {
      UnlockSettled(k, m);
    } else if a.Resume? {
      EndLockSettled(k, CallOf(k, k.current).req);
    } else {
      LockSettled(k, if a.Invoke? then a.req else CallOf(k, k.current).req);
    }
  }

  // ---------- One step of the discipline ----------

  /** The bounds hold, and the running task is settled unless it waits for the switch. */
  ghost predicate PreemptOk(k: Kernel, m: nat, due: bool) {
    Sep(k) && SchedRuns.SchedOk(k) && SuccessionOk(k, m) && (due || Settled(k, m))
  }

  predicate AttemptsLock(k: Kernel, a: Action) {
    Attempted(k, a).Some? && Attempted(k, a).value.LockReq?
  }

  /** Before the switch that its unlock requested, the running task does not go for the free
      mutex again, whatever else it does; and no owner exits. */
  ghost predicate Yields(k: Kernel, a: Action, m: nat, due: bool) {
    && (due && m in k.mutexes && k.mutexes[m].owner == None ==> !AttemptsLock(k, a))
    && (a.Exit? && m in k.mutexes ==> k.mutexes[m].owner != Some(k.current))
  }

  /** The guard on acquirers follows from the scheduler. */
  lemma YieldingIsDisciplined(k: Kernel, a: Action, m: nat, due: bool)
    requires PreemptOk(k, m, due) && Enabled(k, a) && Yields(k, a, m, due)
    ensures Disciplined(k, a, m)
  {
    if AttemptsLock(k, a) && k.mutexes[m].owner == None {
      SettledCovers(k, m);
    }
  }

  lemma PreemptStep(k: Kernel, a: Action, m: nat, due: bool)
    requires PreemptOk(k, m, due) && Enabled(k, a) && Yields(k, a, m, due)
    ensures PreemptOk(Apply(k, a), m, SwitchDue(k, a, due))
  {
    SepStep(k, a);
    SchedRuns.SchedStep(k, a);
    YieldingIsDisciplined(k, a, m, due);
    SuccessionStep(k, a, m);
    if a.Switch? {
      SwitchPreempts(k, m, due);
    } else if !SwitchDue(k, a, due) {
      StepSettled(k, a, m);
    }
  }

  lemma SwitchPreempts(k: Kernel, m: nat, due: bool)
    requires PreemptOk(k, m, due)
    ensures m in DoSwitch(k).mutexes && ((due && Deferred(k)) || Settled(DoSwitch(k), m))
  {
    if Deferred(k) {
      DeferredSwitch(k);
      if !due { SettledKept(k, DoSwitch(k), m); }
    } else {
      SwitchSettles(k, m);
    }
  }
}
