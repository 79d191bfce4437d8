/** The recursive mutex over whole runs: mutual exclusion and no lost wake-up. */
module MutexRuns {
  import opened Base
  import opened WaitQueue
  import opened Kernel
  import opened Separation
  import opened Effects
  import opened Roles
  import opened ObjectFrame
  import MutexSpec

  /** Locks of `m` by `t` that returned OK minus unlocks that did. */
  function Balance(log: seq<Event>, m: nat, t: Tid): int {
    if log == [] then 0
    else
      Balance(log[..|log| - 1], m, t) +
      match log[|log| - 1]
      case Locked(m', t', st) => if m' == m && t' == t && st == Status.Ok then 1 else 0
      case Unlocked(m', t', st) => if m' == m && t' == t && st == Status.Ok then -1 else 0
      case _ => 0
  }

  lemma LogOne(log: seq<Event>, ev: Event, m: nat, t: Tid)
    ensures Balance(log + [ev], m, t) == Balance(log, m, t) +
              if ev == Locked(m, t, Status.Ok) then 1 else if ev == Unlocked(m, t, Status.Ok) then -1 else 0
  {
  }

  /** The owner's count is its unmatched locks; nobody else has any. */
  ghost predicate Exclusive(k: Kernel, m: nat)
    requires m in k.mutexes
  {
    var v := k.mutexes[m];
    && (v.owner == None <==> v.lockCount == 0)
    && forall t: Tid :: Balance(k.log, m, t) == if v.owner == Some(t) then v.lockCount else 0
  }

  /** A free mutex with a parked waiter has a woken one about to retry. */
  ghost predicate NoLostWakeup(k: Kernel, m: nat)
    requires m in k.mutexes
  {
    k.mutexes[m].owner == None && SomeoneParked(WaitsOf(k), MutexList(m)) ==> Pending(WaitsOf(k), MutexList(m)) != {}
  }

  ghost predicate MutexOk(k: Kernel, m: nat)
    requires m in k.mutexes
  {
    Exclusive(k, m) && NoLostWakeup(k, m)
  }

  // ---------- The lock counter is 32 bits wide ----------

  /** The owner locks once more than the counter can hold. */
  predicate Overflows(v: MutexSpec.MutexVal, t: Tid) {
    v.owner == Some(t) && v.lockCount == UINT32_MAX
  }

  /** Owned exactly when counted: a lock keeps this if and only if the counter has room. */
  lemma LockKeepsOwnedIffCounted(s: MutexSpec.View, t: Tid, timeout: uint32)
    requires s.m.owner == None <==> s.m.lockCount == 0
    ensures var r := MutexSpec.Lock(s, t, timeout).0.m;
            (r.owner == None <==> r.lockCount == 0) <==> !Overflows(s.m, t)
  {
  }

  /** After the overflow the owner can never unlock: it is refused with the mutex held. */
  lemma OverflowLocksForever(ts: seq<Tcb>, l: seq<Tid>, t: Tid, timeout: uint32)
    ensures var s := MutexSpec.Lock(MutexSpec.View(ts, MutexSpec.MutexVal(Some(t), UINT32_MAX), l), t, timeout).0;
            s.m == MutexSpec.MutexVal(Some(t), 0) && MutexSpec.Unlock(s, t) == (s, Invalid)
  {
  }

  predicate OverflowsIn(k: Kernel, a: Action, m: nat)
    requires m in k.mutexes
  {
    match Attempted(k, a)
    case Some(LockReq(m', _)) => m' == m && Overflows(k.mutexes[m], k.current)
    case _ => false
  }

  // ---------- Lock ----------

  /** The mutex and the log after the first region. */
  lemma LockLeaves(k: Kernel, req: Request)
    requires req.LockReq? && Known(k, req)
    ensures var (v, o) := MutexSpec.Lock(MutexView(k, req.m), k.current, req.timeout);
            var k' := TryLock(k, req);
            && req.m in k'.mutexes && k'.mutexes[req.m] == v.m
            && k'.log == if o.Returns? then k.log + [Locked(req.m, k.current, o.status)] else k.log
  {
  }

  /** What a lock does to the balances, its outcome known. */
  lemma LockBalance(k: Kernel, req: Request, o: Outcome, t: Tid)
    requires req.LockReq? && Known(k, req) && o == MutexSpec.Lock(MutexView(k, req.m), k.current, req.timeout).1
    ensures Balance(TryLock(k, req).log, req.m, t) == Balance(k.log, req.m, t) + if o == Returns(Ok) && t == k.current then 1 else 0
  {
  }

  lemma LockValue(s: MutexSpec.View, t: Tid, timeout: uint32)
    requires (s.m.owner == None <==> s.m.lockCount == 0) && !Overflows(s.m, t)
    ensures var (r, o) := MutexSpec.Lock(s, t, timeout);
            && (r.m.owner == None <==> r.m.lockCount == 0)
            && (if o == Returns(Ok) then r.m.owner == Some(t) && (s.m.owner == None || s.m.owner == Some(t)) && r.m.lockCount == s.m.lockCount + 1
                else r.m == s.m)
  {
  }

  lemma LockExclusive(k: Kernel, req: Request)
    requires req.LockReq? && Known(k, req) && Exclusive(k, req.m) && !Overflows(k.mutexes[req.m], k.current)
    ensures req.m in TryLock(k, req).mutexes && Exclusive(TryLock(k, req), req.m)
  {
    var s := MutexView(k, req.m);
    LockLeaves(k, req);
    LockValue(s, k.current, req.timeout);
    var r := MutexSpec.Lock(s, k.current, req.timeout);
    forall t: Tid ensures Balance(TryLock(k, req).log, req.m, t) == if r.0.m.owner == Some(t) then r.0.m.lockCount else 0 {
      LockBalance(k, req, r.1, t);
    }
  }

  /** While a task has unmatched locks nobody else's lock succeeds. */
  lemma OthersAreLockedOut(k: Kernel, req: Request, t: Tid)
    requires req.LockReq? && Known(k, req) && Exclusive(k, req.m) && Balance(k.log, req.m, t) > 0 && t != k.current
    ensures MutexSpec.Lock(MutexView(k, req.m), k.current, req.timeout).1 != Returns(Ok)
  {
  }

  lemma LockNoLoss(k: Kernel, req: Request)
    requires req.LockReq? && Known(k, req)
    ensures req.m in TryLock(k, req).mutexes && NoLostWakeup(TryLock(k, req), req.m)
  {
  }

  lemma TimedOutNoLoss(k: Kernel, req: Request)
    requires Continuing(k, req) && req.LockReq? && Get(k.tasks, k.current).result == Timeout && NoLostWakeup(k, req.m)
    ensures req.m in EndLock(k, req).mutexes && NoLostWakeup(EndLock(k, req), req.m)
  {
    var w, v := WaitsOf(k), WaitsOf(EndLock(k, req));
    EndLockUnlinks(k, req);
    UnlinksRoles(w, v, MutexList(req.m), k.current);
    PendingSame(w, v, MutexList(req.m));
  }

  lemma RetryNoLoss(k: Kernel, req: Request)
    requires Continuing(k, req) && req.LockReq? && Get(k.tasks, k.current).result != Timeout && NoLostWakeup(k, req.m)
    ensures req.m in EndLock(k, req).mutexes && NoLostWakeup(EndLock(k, req), req.m)
  {
    var w, v := WaitsOf(k), WaitsOf(EndLock(k, req));
    EndLockRetries(k, req);
    MovesOnRoles(w, v, k.current, Retrying(req));
    PendingSame(w, v, MutexList(req.m));
  }

  lemma EndLockExclusive(k: Kernel, req: Request)
    requires req.LockReq? && Known(k, req) && Exclusive(k, req.m)
    ensures req.m in EndLock(k, req).mutexes && Exclusive(EndLock(k, req), req.m)
  {
    forall t: Tid ensures Balance(EndLock(k, req).log, req.m, t) == Balance(k.log, req.m, t) {
      LogOne(k.log, Locked(req.m, k.current, Timeout), req.m, t);
    }
  }

  // ---------- Unlock ----------

  lemma UnlockExclusive(k: Kernel, m: nat)
    requires m in k.mutexes && Exclusive(k, m)
    ensures m in DoUnlock(k, m).mutexes && Exclusive(DoUnlock(k, m), m)
  {
  }

  lemma ReleaseNoLoss(k: Kernel, m: nat)
    requires Sep(k) && m in k.mutexes && Releases(k, m)
    ensures m in DoUnlock(k, m).mutexes && NoLostWakeup(DoUnlock(k, m), m)
  {
    var w, v := WaitsOf(k), WaitsOf(DoUnlock(k, m));
    UnlockWakes(k, m);
    WakesRoles(w, v, MutexList(m));
    match PopTask(w.ts, ListAt(w.lists, MutexList(m))) {
      case None =>
      case Some(y) => InRange(v, MutexList(m));
    }
  }

  lemma KeepNoLoss(k: Kernel, m: nat)
    requires Sep(k) && m in k.mutexes && MutexOk(k, m) && !Releases(k, m)
    ensures m in DoUnlock(k, m).mutexes && NoLostWakeup(DoUnlock(k, m), m)
  {
    var w, v := WaitsOf(k), WaitsOf(DoUnlock(k, m));
    assert v.ts == w.ts && v.calls == w.calls;
    assert forall x: Tid :: Role(v, x) == Role(w, x);
    PendingSame(w, v, MutexList(m));
  }

  // ---------- The step ----------

  lemma MutexUndisturbed(k: Kernel, k': Kernel, m: nat)
    requires Sep(k) && Sep(k') && m in k.mutexes && MutexOk(k, m)
    requires Apart(k, k', MutexObj(m)) && Undisturbed(WaitsOf(k), WaitsOf(k'), MutexList(m))
    ensures m in k'.mutexes && MutexOk(k', m)
  {
  }

  lemma MutexApart(k: Kernel, a: Action, m: nat)
    requires Sep(k) && Enabled(k, a) && m in k.mutexes && MutexOk(k, m) && Concerns(k, a) != Some(MutexObj(m))
    ensures m in Apply(k, a).mutexes && MutexOk(Apply(k, a), m)
  {
    ActionApart(k, a, MutexObj(m));
    OthersLeftAlone(k, a, MutexList(m));
    SepStep(k, a);
    MutexUndisturbed(k, Apply(k, a), m);
  }

  lemma MutexStep(k: Kernel, a: Action, m: nat)
    requires Sep(k) && Enabled(k, a) && m in k.mutexes && MutexOk(k, m) && !OverflowsIn(k, a, m)
    ensures m in Apply(k, a).mutexes && MutexOk(Apply(k, a), m)
  {
    if Concerns(k, a) != Some(MutexObj(m)) {
      MutexApart(k, a, m);
    } else if a.Unlock? {
      UnlockExclusive(k, m);
      if Releases(k, m) { ReleaseNoLoss(k, m); } else { KeepNoLoss(k, m); }
    } else if a.Resume? {
      EndLockExclusive(k, CallOf(k, k.current).req);
      if Get(k.tasks, k.current).result == Timeout { TimedOutNoLoss(k, CallOf(k, k.current).req); }
      else { RetryNoLoss(k, CallOf(k, k.current).req); }
    } else {
      var req := if a.Invoke? then a.req else CallOf(k, k.current).req;
      LockExclusive(k, req);
      LockNoLoss(k, req);
    }
  }
}
