/** Priority order of the wait lists over whole runs: every list stays sorted as long as no
    linked task's priority is changed, which only a mutex can do. */
module WaitOrder {
  import opened Base
  import opened WaitQueue
  import opened Kernel
  import opened Separation
  import opened Effects
  import opened Roles
  import opened Steady
  import opened Succession
  import opened Inheritance
  import opened ObjectFrame
  import EventSpec
  import EventWalk
  import MutexSpec
  import MutexRuns

  /** Every wait list of every object is in descending priority. */
  ghost predicate AllSorted(k: Kernel) {
    forall l :: Sorted(k.tasks, ListOf(k, l))
  }

  /** The step changes the priority of no task that is linked. */
  ghost predicate SparesLinked(k: Kernel, k': Kernel) {
    forall l, x :: x in ListOf(k, l) ==> Get(k'.tasks, x).priority == Get(k.tasks, x).priority
  }

  lemma PoppedSorted(w: Waits, v: Waits, l: Lid)
    requires Separated(w) && Sorted(w.ts, ListAt(w.lists, l)) && ListAt(v.lists, l) == PopRest(w.ts, ListAt(w.lists, l))
    requires forall x :: x in ListAt(w.lists, l) ==> Get(v.ts, x).priority == Get(w.ts, x).priority
    ensures Sorted(v.ts, ListAt(v.lists, l))
  {
  }

  lemma SortedUnder(w: Waits, v: Waits, e: Effect, l: Lid)
    requires Separated(w) && Has(w, v, e) && Sorted(w.ts, ListAt(w.lists, l)) && e != EWakesMany(l)
    requires forall x :: x in ListAt(w.lists, l) ==> Get(v.ts, x).priority == Get(w.ts, x).priority
    ensures Sorted(v.ts, ListAt(v.lists, l))
  {
    if e == EWakes(l) || (e.EWakesAndReturns? && e.l == l) {
      PoppedSorted(w, v, l);
    } else if e.EParksIn? && e.l == l {
      SortedSame(w.ts, v.ts, ListAt(w.lists, l));
      PushIsStableInsertion(v.ts, ListAt(w.lists, l), e.t);
    } else if e.EUnlinks? && e.l == l {
      RemoveKeepsOrder(w.ts, ListAt(w.lists, l), e.t);
      RemoveMembers(ListAt(w.lists, l), e.t);
      SortedSame(w.ts, v.ts, ListAt(v.lists, l));
    } else {
      assert ListAt(v.lists, l) == ListAt(w.lists, l);
      SortedSame(w.ts, v.ts, ListAt(v.lists, l));
    }
  }

  /** The walk of an event group leaves those it does not release in their order. */
  lemma {:induction false} WalkSorted(v: EventSpec.View, ts: seq<Tcb>)
    requires Sorted(ts, v.waiters) && NoDup(v.waiters)
    ensures Sorted(ts, EventSpec.Walk(v).0.waiters)
    decreases |v.waiters|
  {
    if v.waiters != [] {
      var h, r := v.waiters[0], EventSpec.Rest(v);
      WalkSorted(r, ts);
      EventWalk.WalkMembers(r);
      var rest := EventSpec.Walk(r).0.waiters;
      forall i | 0 <= i < |rest| ensures Get(ts, h).priority >= Get(ts, rest[i]).priority {
        assert rest[i] in v.waiters[1..];
        var j :| 0 <= j < |v.waiters[1..]| && v.waiters[1..][j] == rest[i];
        assert v.waiters[j + 1] == rest[i];
      }
    }
  }

  lemma SetFlagsSorted(k: Kernel, e: nat, flags: Flags)
    requires Sep(k) && e in k.events && Sorted(k.tasks, ListOf(k, EventList(e)))
    ensures Sorted(DoSetFlags(k, e, flags).tasks, ListOf(DoSetFlags(k, e, flags), EventList(e)))
  {
    if flags != {} {
      var v := EventView(k, e).(flags := k.events[e] + flags);
      WalkSorted(v, k.tasks);
      WalkSteady(v);
      SortedSame(k.tasks, EventSpec.Walk(v).0.ts, EventSpec.Walk(v).0.waiters);
    }
  }

  lemma SortedStepAt(k: Kernel, a: Action, l: Lid)
    requires Sep(k) && Enabled(k, a) && AllSorted(k) && SparesLinked(k, Apply(k, a))
    ensures Sorted(Apply(k, a).tasks, ListOf(Apply(k, a), l))
  {
    if a.SetFlags? && l == EventList(a.e) {
      SetFlagsSorted(k, a.e, a.flags);
    } else {
      ActionHasEffect(k, a);
      WakesManyIsSetFlags(k, a, l);
      assert forall x :: x in ListOf(k, l) ==> Get(Apply(k, a).tasks, x).priority == Get(k.tasks, x).priority;
      SortedUnder(WaitsOf(k), WaitsOf(Apply(k, a)), EffectOf(k, a), l);
    }
  }

  lemma SortedStep(k: Kernel, a: Action)
    requires Sep(k) && Enabled(k, a) && AllSorted(k) && SparesLinked(k, Apply(k, a))
    ensures AllSorted(Apply(k, a))
  {
    forall l ensures Sorted(Apply(k, a).tasks, ListOf(Apply(k, a), l)) {
      SortedStepAt(k, a, l);
    }
  }

  lemma WakesManyIsSetFlags(k: Kernel, a: Action, l: Lid)
    requires Enabled(k, a)
    ensures EffectOf(k, a) == EWakesMany(l) ==> a.SetFlags? && l == EventList(a.e)
  {
  }

  /** Everything but a mutex region spares the linked tasks. */
  lemma OthersSpareLinked(k: Kernel, a: Action)
    requires Sep(k) && Enabled(k, a) && !OfMutex(k, a)
    ensures SparesLinked(k, Apply(k, a))
  {
    forall l, x | x in ListOf(k, l) ensures Get(Apply(k, a).tasks, x).priority == Get(k.tasks, x).priority {
      assert CallOf(k, x) != Free;
      InvolvedKeepPriority(k, a, x);
    }
  }

  // ---------- Mutexes ----------

  /** No owner of any mutex is linked in a wait list. */
  ghost predicate OwnersUnlinked(k: Kernel) {
    forall m, o, l :: m in k.mutexes && k.mutexes[m].owner == Some(o) ==> o !in ListOf(k, l)
  }

  ghost predicate OwnsSome(k: Kernel, t: Tid) {
    exists m :: m in k.mutexes && k.mutexes[m].owner == Some(t)
  }

  /** The step parks the running task in a wait list although it owns a mutex. */
  ghost predicate OwnerParks(k: Kernel, a: Action)
    requires Enabled(k, a)
  {
    Attempted(k, a).Some? && AttemptEffect(k, Attempted(k, a).value).EParksIn? && OwnsSome(k, k.current)
  }

  lemma LockPriorities(v: MutexSpec.View, t: Tid, timeout: uint32, x: Tid)
    requires v.m.owner != Some(x)
    ensures Get(MutexSpec.Lock(v, t, timeout).0.ts, x).priority == Get(v.ts, x).priority
    ensures Get(MutexSpec.Resume(v, t).0.ts, x).priority == Get(v.ts, x).priority
  {
  }

  lemma UnlockPriorities(v: MutexSpec.View, t: Tid, x: Tid)
    requires v.m.owner != Some(x)
    ensures Get(MutexSpec.Unlock(v, t).0.ts, x).priority == Get(v.ts, x).priority
  {
  }

  /** A mutex region changes the priority of nobody but the owner. */
  lemma MutexPriorities(k: Kernel, a: Action, x: Tid)
    requires Sep(k) && Enabled(k, a) && OfMutex(k, a) && !OwnsSome(k, x)
    ensures Get(Apply(k, a).tasks, x).priority == Get(k.tasks, x).priority
  {
    var m := Concerns(k, a).value.m;
    if a.Unlock? {
      UnlockPriorities(MutexView(k, m), k.current, x);
    } else {
      LockPriorities(MutexView(k, m), k.current, (if a.Invoke? then a.req else CallOf(k, k.current).req).timeout, x);
    }
  }

  lemma OwnersSpareLinked(k: Kernel, a: Action)
    requires Sep(k) && Enabled(k, a) && OwnersUnlinked(k)
    ensures SparesLinked(k, Apply(k, a))
  {
    if !OfMutex(k, a) {
      OthersSpareLinked(k, a);
    } else {
      forall l, x | x in ListOf(k, l) ensures Get(Apply(k, a).tasks, x).priority == Get(k.tasks, x).priority {
        MutexPriorities(k, a, x);
      }
    }
  }

  /** A task linked after the step was linked before, or parked itself in it. */
  lemma LinkedUnder(w: Waits, v: Waits, e: Effect, l: Lid, x: Tid)
    requires Separated(w) && Has(w, v, e) && x in ListAt(v.lists, l)
    ensures x in ListAt(w.lists, l) || (e.EParksIn? && e.t == x)
  {
    PopMembers(w.ts, ListAt(w.lists, l));
    if e.EParksIn? { PushMembers(v.ts, ListAt(w.lists, l), e.t); }
    if e.EUnlinks? { RemoveMembers(ListAt(w.lists, l), e.t); }
  }

  lemma LockOwner(k: Kernel, req: Request)
    requires req.LockReq? && Known(k, req)
    ensures var r := TryLock(k, req).mutexes;
            && req.m in r && r[req.m].owner.Some?
            && (r[req.m].owner == k.mutexes[req.m].owner || (r[req.m].owner == Some(k.current) && LockReturns(k, req)))
  {
    MutexRuns.LockLeaves(k, req);
  }

  lemma EndLockOwner(k: Kernel, req: Request)
    requires req.LockReq? && Known(k, req)
    ensures req.m in EndLock(k, req).mutexes && EndLock(k, req).mutexes[req.m].owner == k.mutexes[req.m].owner
  {
  }

  lemma UnlockOwner(k: Kernel, m: nat)
    requires m in k.mutexes
    ensures m in DoUnlock(k, m).mutexes
    ensures DoUnlock(k, m).mutexes[m].owner == k.mutexes[m].owner || DoUnlock(k, m).mutexes[m].owner == None
  {
  }

  /** The action makes the running task the owner, and returns at once. */
  predicate Acquires(k: Kernel, a: Action)
    requires Enabled(k, a)
  {
    Attempted(k, a).Some? && Attempted(k, a).value.LockReq? && LockReturns(k, Attempted(k, a).value)
  }

  /** The owner of `m` is as before, or the running task that just locked. */
  ghost predicate OwnerFrom(k: Kernel, a: Action, k': Kernel, m: nat)
    requires Enabled(k, a)
  {
    m in k'.mutexes && k'.mutexes[m].owner.Some? ==>
      || (m in k.mutexes && k'.mutexes[m].owner == k.mutexes[m].owner)
      || (k'.mutexes[m].owner == Some(k.current) && Acquires(k, a))
  }

  lemma AttemptOwner(k: Kernel, a: Action, m: nat)
    requires Enabled(k, a) && Attempted(k, a).Some? && Concerns(k, a) == Some(MutexObj(m))
    ensures OwnerFrom(k, a, Apply(k, a), m)
  {
    var req := Attempted(k, a).value;
    LockOwner(k, req);
    assert Apply(k, a) == TryLock(k, req);
  }

  lemma NewOwner(k: Kernel, a: Action, m: nat)
    requires Sep(k) && Enabled(k, a)
    ensures OwnerFrom(k, a, Apply(k, a), m)
  {
    if Concerns(k, a) != Some(MutexObj(m)) {
      ActionApart(k, a, MutexObj(m));
    } else if Attempted(k, a).Some? {
      AttemptOwner(k, a, m);
    } else {
      EndOwner(k, a, m);
    }
  }

  lemma EndOwner(k: Kernel, a: Action, m: nat)
    requires Enabled(k, a) && (a.Resume? || a.Unlock?) && Concerns(k, a) == Some(MutexObj(m))
    ensures OwnerFrom(k, a, Apply(k, a), m)
  {
    if a.Unlock? { UnlockOwner(k, m); } else { EndLockOwner(k, CallOf(k, k.current).req); }
  }

  lemma AcquirerIsUnlinked(k: Kernel, a: Action, l: Lid)
    requires Sep(k) && Enabled(k, a) && Acquires(k, a)
    ensures k.current !in ListOf(k, l) && !EffectOf(k, a).EParksIn?
  {
    CallerIsUnlinked(k, Attempted(k, a).value, l);
  }

  lemma OnlyAttemptsPark(k: Kernel, a: Action)
    requires Enabled(k, a) && EffectOf(k, a).EParksIn?
    ensures Attempted(k, a).Some? && AttemptEffect(k, Attempted(k, a).value).EParksIn? && EffectOf(k, a).t == k.current
  {
  }

  lemma OwnerStaysUnlinked(k: Kernel, a: Action, m: nat, o: Tid, l: Lid)
    requires Sep(k) && Enabled(k, a) && OwnersUnlinked(k) && !OwnerParks(k, a)
    requires m in Apply(k, a).mutexes && Apply(k, a).mutexes[m].owner == Some(o)
    ensures o !in ListOf(Apply(k, a), l)
  {
    NewOwner(k, a, m);
    if Acquires(k, a) { AcquirerIsUnlinked(k, a, l); }
    if EffectOf(k, a).EParksIn? { OnlyAttemptsPark(k, a); }
    if m in k.mutexes && k.mutexes[m].owner == Some(o) { assert o !in ListOf(k, l) && OwnsSome(k, o); }
    if o in ListOf(Apply(k, a), l) {
      ActionHasEffect(k, a);
      LinkedUnder(WaitsOf(k), WaitsOf(Apply(k, a)), EffectOf(k, a), l, o);
    }
  }

  lemma OwnersStep(k: Kernel, a: Action)
    requires Sep(k) && Enabled(k, a) && OwnersUnlinked(k) && !OwnerParks(k, a)
    ensures OwnersUnlinked(Apply(k, a))
  {
    forall m, o, l | m in Apply(k, a).mutexes && Apply(k, a).mutexes[m].owner == Some(o) ensures o !in ListOf(Apply(k, a), l) {
      OwnerStaysUnlinked(k, a, m, o, l);
    }
  }
}
