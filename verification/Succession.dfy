/** Who gets a released mutex: its waiters stay in priority order, and while it is free the
    best of them is always on its way. */
module Succession {
  import opened Base
  import opened WaitQueue
  import opened Kernel
  import opened Separation
  import opened Effects
  import opened Roles
  import opened ObjectFrame
  import opened Inheritance
  import opened Steady
  import MutexSpec

  /** Of the tasks released by `m` and about to retry, one is at least as high as `x`. */
  ghost predicate HasHeir(k: Kernel, m: nat, x: Tid) {
    exists y: Tid :: Role(WaitsOf(k), y) == Woken(MutexList(m)) && Get(k.tasks, x).priority <= Get(k.tasks, y).priority
  }

  ghost predicate Heirs(k: Kernel, m: nat)
    requires m in k.mutexes
  {
    k.mutexes[m].owner == None ==>
      forall x: Tid :: Role(WaitsOf(k), x) == Parked(MutexList(m)) ==> HasHeir(k, m, x)
  }

  ghost predicate InOrder(k: Kernel, m: nat) {
    Sorted(k.tasks, ListOf(k, MutexList(m)))
  }

  ghost predicate SuccessionOk(k: Kernel, m: nat) {
    PriorityOk(k, m) && InOrder(k, m) && Heirs(k, m)
  }

  // ---------- The order of the waiters ----------

  lemma SortedSame(ts: seq<Tcb>, us: seq<Tcb>, l: seq<Tid>)
    requires Sorted(ts, l) && forall x :: x in l ==> Get(us, x).priority == Get(ts, x).priority
    ensures Sorted(us, l)
  {
  }

  lemma LockInOrder(v: MutexSpec.View, t: Tid, timeout: uint32)
    requires Inherits(v) && Sorted(v.ts, v.waiters) && t !in v.waiters
    ensures var r := MutexSpec.Lock(v, t, timeout).0; Sorted(r.ts, r.waiters)
  {
    if v.m.owner.Some? && v.m.owner.value != t && timeout != 0 {
      var r := MutexSpec.Lock(v, t, timeout).0;
      SortedSame(v.ts, r.ts, v.waiters);
      PushIsStableInsertion(r.ts, v.waiters, t);
    }
  }

  lemma ResumeInOrder(v: MutexSpec.View, t: Tid)
    requires Inherits(v) && Sorted(v.ts, v.waiters) && NoDup(v.waiters)
    ensures var r := MutexSpec.Resume(v, t).0; Sorted(r.ts, r.waiters)
  {
    RemoveKeepsOrder(v.ts, v.waiters, t);
    RemoveMembers(v.waiters, t);
    var r := MutexSpec.Resume(v, t).0;
    SortedSame(v.ts, r.ts, r.waiters);
  }

  lemma UnlockInOrder(v: MutexSpec.View, t: Tid)
    requires Inherits(v) && Sorted(v.ts, v.waiters) && NoDup(v.waiters)
    ensures var r := MutexSpec.Unlock(v, t).0; Sorted(r.ts, r.waiters)
  {
  }

  // ---------- The steps ----------

  lemma LockStepOk(k: Kernel, req: Request)
    requires Attempting(k, req) && req.LockReq? && SuccessionOk(k, req.m)
    requires k.mutexes[req.m].owner == None ==> CoversWaiters(k.tasks, ListOf(k, MutexList(req.m)), Get(k.tasks, k.current).priority)
    ensures SuccessionOk(TryLock(k, req), req.m)
  {
    assert Coherent(Get(k.tasks, k.current), CallOf(k, k.current));
    LockStep(k, req);
    LockInOrder(MutexView(k, req.m), k.current, req.timeout);
    assert MutexView(TryLock(k, req), req.m) == MutexSpec.Lock(MutexView(k, req.m), k.current, req.timeout).0;
  }

  /** Roles and priorities kept: whoever had an heir has one. */
  lemma HeirsKept(k: Kernel, k': Kernel, m: nat)
    requires m in k.mutexes && m in k'.mutexes && Heirs(k, m) && k'.mutexes[m].owner == k.mutexes[m].owner
    requires forall x: Tid :: Role(WaitsOf(k'), x) == Parked(MutexList(m)) ==> Role(WaitsOf(k), x) == Parked(MutexList(m))
    requires forall x: Tid :: Role(WaitsOf(k'), x) == Woken(MutexList(m)) <==> Role(WaitsOf(k), x) == Woken(MutexList(m))
    requires k.mutexes[m].owner == None ==>
               forall x: Tid :: Role(WaitsOf(k), x) == Woken(MutexList(m)) || Role(WaitsOf(k), x) == Parked(MutexList(m)) ==>
                 Get(k'.tasks, x).priority == Get(k.tasks, x).priority
    ensures Heirs(k', m)
  {
  }

  lemma EndLockRoles(k: Kernel, req: Request, x: Tid)
    requires Continuing(k, req) && req.LockReq?
    ensures var r, r' := Role(WaitsOf(k), x), Role(WaitsOf(EndLock(k, req)), x);
            r' == r || (r == Late(MutexList(req.m)) && r' == Outside)
  {
    if Get(k.tasks, k.current).result == Timeout {
      EndLockUnlinks(k, req);
      UnlinksRoles(WaitsOf(k), WaitsOf(EndLock(k, req)), MutexList(req.m), k.current);
    } else {
      EndLockRetries(k, req);
      MovesOnRoles(WaitsOf(k), WaitsOf(EndLock(k, req)), k.current, Retrying(req));
    }
  }

  lemma EndLockStepOk(k: Kernel, req: Request)
    requires Continuing(k, req) && req.LockReq? && SuccessionOk(k, req.m)
    ensures SuccessionOk(EndLock(k, req), req.m)
  {
    var v, k' := MutexView(k, req.m), EndLock(k, req);
    EndLockStep(k, req);
    ResumeInOrder(v, k.current);
    assert MutexView(k', req.m) == MutexSpec.Resume(v, k.current).0;
    forall x: Tid
      ensures Role(WaitsOf(k'), x) == Role(WaitsOf(k), x) || (Role(WaitsOf(k), x).Late? && Role(WaitsOf(k'), x) == Outside)
    {
      EndLockRoles(k, req, x);
    }
    HeirsKept(k, k', req.m);
  }

  /** The waiter a release picks is at least as high as every valid one. */
  lemma ReleasePicksTheBest(v: MutexSpec.View, t: Tid, x: Tid)
    requires Inherits(v) && v.m.owner == Some(t) && Sorted(v.ts, v.waiters) && NoDup(v.waiters)
    requires x in v.waiters && IsValidWaiter(Get(v.ts, x))
    ensures PopTask(v.ts, v.waiters).Some?
    ensures Get(v.ts, x).priority <= Get(v.ts, PopTask(v.ts, v.waiters).value).priority
  {
  }

  lemma UnlockKeepsWaiters(v: MutexSpec.View, t: Tid, x: Tid)
    requires v.m.owner == Some(t) && x != t
    ensures Get(MutexSpec.Unlock(v, t).0.ts, x).priority == Get(v.ts, x).priority
  {
  }

  lemma ReleaseHeirs(k: Kernel, m: nat)
    requires Sep(k) && SuccessionOk(k, m) && Releases(k, m)
    ensures m in DoUnlock(k, m).mutexes && Heirs(DoUnlock(k, m), m)
  {
    var v, k' := MutexView(k, m), DoUnlock(k, m);
    UnlockWakes(k, m);
    WakesRoles(WaitsOf(k), WaitsOf(k'), MutexList(m));
    assert k'.tasks == MutexSpec.Unlock(v, k.current).0.ts;
    forall x: Tid | Role(WaitsOf(k'), x) == Parked(MutexList(m)) ensures HasHeir(k', m, x) {
      ParkedIffLinkedValid(WaitsOf(k), MutexList(m), x);
      ReleasePicksTheBest(v, k.current, x);
      var y := PopTask(k.tasks, v.waiters).value;
      UnlockKeepsWaiters(v, k.current, x);
      UnlockKeepsWaiters(v, k.current, y);
      assert Role(WaitsOf(k'), y) == Woken(MutexList(m));
    }
  }

  lemma UnlockStepOk(k: Kernel, m: nat)
    requires Sep(k) && SuccessionOk(k, m)
    ensures SuccessionOk(DoUnlock(k, m), m)
  {
    UnlockStep(k, m);
    UnlockInOrder(MutexView(k, m), k.current);
    assert MutexView(DoUnlock(k, m), m) == MutexSpec.Unlock(MutexView(k, m), k.current).0;
    if Releases(k, m) {
      ReleaseHeirs(k, m);
    } else {
      assert DoUnlock(k, m).tasks == k.tasks && DoUnlock(k, m).calls == k.calls;
      assert forall x: Tid :: Role(WaitsOf(DoUnlock(k, m)), x) == Role(WaitsOf(k), x);
      HeirsKept(k, DoUnlock(k, m), m);
    }
  }

  lemma InvolvedKeepPriority(k: Kernel, a: Action, x: Tid)
    requires Sep(k) && Enabled(k, a) && !OfMutex(k, a) && CallOf(k, x) != Free
    ensures Get(Apply(k, a).tasks, x).priority == Get(k.tasks, x).priority
  {
    ActionKeepsPriorities(k, a, x);
  }

  lemma OtherStepOk(k: Kernel, a: Action, m: nat)
    requires Sep(k) && Enabled(k, a) && SuccessionOk(k, m) && Disciplined(k, a, m) && !OfMutex(k, a)
    ensures SuccessionOk(Apply(k, a), m)
  {
    OtherStep(k, a, m);
    OtherSuccession(k, a, m);
  }

  lemma OtherSuccession(k: Kernel, a: Action, m: nat)
    requires Sep(k) && Enabled(k, a) && m in k.mutexes && InOrder(k, m) && Heirs(k, m) && !OfMutex(k, a)
    ensures m in Apply(k, a).mutexes && InOrder(Apply(k, a), m) && Heirs(Apply(k, a), m)
  {
    OtherLeavesMutex(k, a, m);
    AllInvolvedKeepPriority(k, a);
    OtherKeepsSuccession(k, Apply(k, a), m);
  }

  lemma OtherLeavesMutex(k: Kernel, a: Action, m: nat)
    requires Sep(k) && Enabled(k, a) && m in k.mutexes && !OfMutex(k, a)
    ensures m in Apply(k, a).mutexes && Apply(k, a).mutexes[m] == k.mutexes[m]
    ensures Undisturbed(WaitsOf(k), WaitsOf(Apply(k, a)), MutexList(m))
  {
    ActionApart(k, a, MutexObj(m));
    OthersLeftAlone(k, a, MutexList(m));
  }

  /** Tasks in a call keep their priorities. */
  ghost predicate SparesInvolved(k: Kernel, k': Kernel) {
    forall x: Tid :: CallOf(k, x) != Free ==> Get(k'.tasks, x).priority == Get(k.tasks, x).priority
  }

  lemma AllInvolvedKeepPriority(k: Kernel, a: Action)
    requires Sep(k) && Enabled(k, a) && !OfMutex(k, a)
    ensures SparesInvolved(k, Apply(k, a))
  {
    forall x: Tid | CallOf(k, x) != Free ensures Get(Apply(k, a).tasks, x).priority == Get(k.tasks, x).priority {
      InvolvedKeepPriority(k, a, x);
    }
  }

  lemma OtherKeepsSuccession(k: Kernel, k': Kernel, m: nat)
    requires Sep(k) && m in k.mutexes && m in k'.mutexes && k'.mutexes[m] == k.mutexes[m] && InOrder(k, m) && Heirs(k, m)
    requires Undisturbed(WaitsOf(k), WaitsOf(k'), MutexList(m))
    requires SparesInvolved(k, k')
    ensures InOrder(k', m) && Heirs(k', m)
  {
    SortedSame(k.tasks, k'.tasks, ListOf(k, MutexList(m)));
    HeirsKept(k, k', m);
  }

  lemma SuccessionStep(k: Kernel, a: Action, m: nat)
    requires Sep(k) && Enabled(k, a) && SuccessionOk(k, m) && Disciplined(k, a, m)
    ensures SuccessionOk(Apply(k, a), m)
  {
    if !OfMutex(k, a) {
      OtherStepOk(k, a, m);
    } else if a.Unlock? {
      UnlockStepOk(k, m);
    } else if a.Resume? {
      EndLockStepOk(k, CallOf(k, k.current).req);
    } else {
      LockStepOk(k, if a.Invoke? then a.req else CallOf(k, k.current).req);
    }
  }
}
