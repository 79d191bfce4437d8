/** Which effect on the wait state each critical region has, branch by branch. */
module Effects {
  import opened Base
  import opened WaitQueue
  import opened Kernel
  import opened Separation
  import EventSpec
  import EventWalk
  import MutexSpec
  import SchedSpec
  import TaskSpec

  /** The current task is in the first region of `req`. */
  ghost predicate Attempting(k: Kernel, req: Request) {
    && Sep(k) && Known(k, req) && k.current < |k.tasks|
    && Get(k.tasks, k.current).state == Running
    && (CallOf(k, k.current) == Free || CallOf(k, k.current) == Retrying(req))
  }

  /** The current task is in the second region of `req`. */
  ghost predicate Continuing(k: Kernel, req: Request) {
    && Sep(k) && Known(k, req) && k.current < |k.tasks|
    && Get(k.tasks, k.current).state == Running
    && CallOf(k, k.current) == Waiting(req)
  }

  /** A first region that returns without touching tasks or lists. */
  lemma ReturnsUnchanged(k: Kernel, k': Kernel, l: Lid, req: Request)
    requires Attempting(k, req)
    requires k'.tasks == k.tasks && k'.lists == SetList(k.lists, l, ListOf(k, l)) && k'.calls == SetCall(k.calls, k.current, Free)
    ensures MovesOn(WaitsOf(k), WaitsOf(k'), k.current, Free)
  {
  }

  // ---------- Queue ----------

  lemma SendDelivers(k: Kernel, req: Request)
    requires Attempting(k, req) && req.SendReq? && |k.queues[req.q].contents| < k.queues[req.q].capacity
    ensures WakesAndReturns(WaitsOf(k), WaitsOf(TrySend(k, req)), RecvList(req.q), k.current)
  {
  }

  lemma SendRefused(k: Kernel, req: Request)
    requires Attempting(k, req) && req.SendReq? && |k.queues[req.q].contents| >= k.queues[req.q].capacity && req.timeout == 0
    ensures MovesOn(WaitsOf(k), WaitsOf(TrySend(k, req)), k.current, Free)
  {
  }

  lemma SendParks(k: Kernel, req: Request)
    requires Attempting(k, req) && req.SendReq? && |k.queues[req.q].contents| >= k.queues[req.q].capacity && req.timeout != 0
    ensures ParksIn(WaitsOf(k), WaitsOf(TrySend(k, req)), SendList(req.q), k.current, req)
  {
  }

  lemma RecvDelivers(k: Kernel, req: Request)
    requires Attempting(k, req) && req.RecvReq? && |k.queues[req.q].contents| > 0
    ensures WakesAndReturns(WaitsOf(k), WaitsOf(TryRecv(k, req)), SendList(req.q), k.current)
  {
  }

  lemma RecvRefused(k: Kernel, req: Request)
    requires Attempting(k, req) && req.RecvReq? && |k.queues[req.q].contents| == 0 && req.timeout == 0
    ensures MovesOn(WaitsOf(k), WaitsOf(TryRecv(k, req)), k.current, Free)
  {
  }

  lemma RecvParks(k: Kernel, req: Request)
    requires Attempting(k, req) && req.RecvReq? && |k.queues[req.q].contents| == 0 && req.timeout != 0
    ensures ParksIn(WaitsOf(k), WaitsOf(TryRecv(k, req)), RecvList(req.q), k.current, req)
  {
  }

  lemma SendFromIsrWakes(k: Kernel, q: nat, value: uint32)
    requires q in k.queues && |k.queues[q].contents| < k.queues[q].capacity
    ensures Wakes(WaitsOf(k), WaitsOf(SendFromIsr(k, q, value)), RecvList(q))
  {
  }

  lemma EndSendUnlinks(k: Kernel, req: Request)
    requires Continuing(k, req) && req.SendReq? && Get(k.tasks, k.current).result == Timeout
    ensures Unlinks(WaitsOf(k), WaitsOf(EndSend(k, req)), SendList(req.q), k.current)
  {
  }

  lemma EndSendRetries(k: Kernel, req: Request)
    requires Continuing(k, req) && req.SendReq? && Get(k.tasks, k.current).result != Timeout
    ensures MovesOn(WaitsOf(k), WaitsOf(EndSend(k, req)), k.current, Retrying(req))
  {
  }

  lemma EndRecvUnlinks(k: Kernel, req: Request)
    requires Continuing(k, req) && req.RecvReq? && Get(k.tasks, k.current).result == Timeout
    ensures Unlinks(WaitsOf(k), WaitsOf(EndRecv(k, req)), RecvList(req.q), k.current)
  {
  }

  lemma EndRecvRetries(k: Kernel, req: Request)
    requires Continuing(k, req) && req.RecvReq? && Get(k.tasks, k.current).result != Timeout
    ensures MovesOn(WaitsOf(k), WaitsOf(EndRecv(k, req)), k.current, Retrying(req))
  {
  }

  // ---------- Mutex ----------

  /** The region returns at once: the mutex is free, already the caller's, or the caller does not wait. */
  predicate LockReturns(k: Kernel, req: Request)
    requires req.LockReq? && req.m in k.mutexes
  {
    k.mutexes[req.m].owner == None || k.mutexes[req.m].owner == Some(k.current) || req.timeout == 0
  }

  lemma LockMovesOn(k: Kernel, req: Request)
    requires Attempting(k, req) && req.LockReq? && LockReturns(k, req)
    ensures MovesOn(WaitsOf(k), WaitsOf(TryLock(k, req)), k.current, Free)
  {
    ReturnsUnchanged(k, TryLock(k, req), MutexList(req.m), req);
  }

  lemma LockParks(k: Kernel, req: Request)
    requires Attempting(k, req) && req.LockReq? && !LockReturns(k, req)
    ensures ParksIn(WaitsOf(k), WaitsOf(TryLock(k, req)), MutexList(req.m), k.current, req)
  {
  }

  lemma EndLockUnlinks(k: Kernel, req: Request)
    requires Continuing(k, req) && req.LockReq? && Get(k.tasks, k.current).result == Timeout
    ensures Unlinks(WaitsOf(k), WaitsOf(EndLock(k, req)), MutexList(req.m), k.current)
  {
  }

  lemma EndLockRetries(k: Kernel, req: Request)
    requires Continuing(k, req) && req.LockReq? && Get(k.tasks, k.current).result != Timeout
    ensures MovesOn(WaitsOf(k), WaitsOf(EndLock(k, req)), k.current, Retrying(req))
  {
  }

  predicate Releases(k: Kernel, m: nat)
    requires m in k.mutexes
  {
    k.mutexes[m] == MutexSpec.MutexVal(Some(k.current), 1)
  }

  lemma UnlockWakes(k: Kernel, m: nat)
    requires m in k.mutexes && Releases(k, m)
    ensures Wakes(WaitsOf(k), WaitsOf(DoUnlock(k, m)), MutexList(m))
  {
  }

  lemma UnlockKeepsWaits(k: Kernel, m: nat)
    requires Sep(k) && m in k.mutexes && !Releases(k, m)
    ensures Drift(WaitsOf(k), WaitsOf(DoUnlock(k, m)))
  {
  }

  // ---------- Semaphore ----------

  lemma SemMovesOn(k: Kernel, req: Request)
    requires Attempting(k, req) && req.SemReq? && (k.sems[req.s].count > 0 || req.timeout == 0)
    ensures MovesOn(WaitsOf(k), WaitsOf(TrySem(k, req)), k.current, Free)
  {
  }

  lemma SemParks(k: Kernel, req: Request)
    requires Attempting(k, req) && req.SemReq? && k.sems[req.s].count == 0 && req.timeout != 0
    ensures ParksIn(WaitsOf(k), WaitsOf(TrySem(k, req)), SemList(req.s), k.current, req)
  {
  }

  lemma EndSemUnlinks(k: Kernel, req: Request)
    requires Continuing(k, req) && req.SemReq? && Get(k.tasks, k.current).result == Timeout
    ensures Unlinks(WaitsOf(k), WaitsOf(EndSem(k, req)), SemList(req.s), k.current)
  {
  }

  lemma EndSemReturns(k: Kernel, req: Request)
    requires Continuing(k, req) && req.SemReq? && Get(k.tasks, k.current).result != Timeout
    ensures MovesOn(WaitsOf(k), WaitsOf(EndSem(k, req)), k.current, Free)
  {
  }

  lemma PostWakes(k: Kernel, s: nat)
    requires s in k.sems
    ensures Wakes(WaitsOf(k), WaitsOf(DoPost(k, s)), SemList(s))
  {
  }

  // ---------- Event flags ----------

  predicate EventReturns(k: Kernel, req: Request)
    requires req.EventReq? && req.e in k.events
  {
    req.flags == {} || EventSpec.Matches(k.events[req.e], req.flags, req.all) || req.timeout == 0
  }

  lemma EventMovesOn(k: Kernel, req: Request)
    requires Attempting(k, req) && req.EventReq? && EventReturns(k, req)
    ensures MovesOn(WaitsOf(k), WaitsOf(TryEvent(k, req)), k.current, Free)
  {
    ReturnsUnchanged(k, TryEvent(k, req), EventList(req.e), req);
  }

  lemma EventParks(k: Kernel, req: Request)
    requires Attempting(k, req) && req.EventReq? && !EventReturns(k, req)
    ensures ParksIn(WaitsOf(k), WaitsOf(TryEvent(k, req)), EventList(req.e), k.current, req)
  {
  }

  lemma EndEventUnlinks(k: Kernel, req: Request)
    requires Continuing(k, req) && req.EventReq? && Get(k.tasks, k.current).result == Timeout
    ensures Unlinks(WaitsOf(k), WaitsOf(EndEvent(k, req)), EventList(req.e), k.current)
  {
  }

  lemma EndEventReturns(k: Kernel, req: Request)
    requires Continuing(k, req) && req.EventReq? && Get(k.tasks, k.current).result != Timeout
    ensures MovesOn(WaitsOf(k), WaitsOf(EndEvent(k, req)), k.current, Free)
  {
  }

  // ---------- Memory pool ----------

  lemma AllocMovesOn(k: Kernel, req: Request)
    requires Attempting(k, req) && req.AllocReq? && (k.pools[req.p] != [] || req.timeout == 0)
    ensures MovesOn(WaitsOf(k), WaitsOf(TryAlloc(k, req)), k.current, Free)
  {
  }

  lemma AllocParks(k: Kernel, req: Request)
    requires Attempting(k, req) && req.AllocReq? && k.pools[req.p] == [] && req.timeout != 0
    ensures ParksIn(WaitsOf(k), WaitsOf(TryAlloc(k, req)), PoolList(req.p), k.current, req)
  {
  }

  lemma EndAllocUnlinks(k: Kernel, req: Request)
    requires Continuing(k, req) && req.AllocReq? && Get(k.tasks, k.current).result == Timeout
    ensures Unlinks(WaitsOf(k), WaitsOf(EndAlloc(k, req)), PoolList(req.p), k.current)
  {
  }

  lemma EndAllocMovesOn(k: Kernel, req: Request)
    requires Continuing(k, req) && req.AllocReq? && Get(k.tasks, k.current).result != Timeout
    ensures MovesOn(WaitsOf(k), WaitsOf(EndAlloc(k, req)), k.current,
                    if Get(k.tasks, k.current).objectResult != 0 then Free else Retrying(req))
  {
  }

  lemma FreeWakes(k: Kernel, p: nat, block: nat)
    requires p in k.pools
    ensures Wakes(WaitsOf(k), WaitsOf(DoFree(k, p, block)), PoolList(p))
  {
  }

  // ---------- Sleep and notification ----------

  lemma SleepReturns(k: Kernel, req: Request)
    requires Attempting(k, req) && req.SleepReq? && req.ms == 0
    ensures MovesOn(WaitsOf(k), WaitsOf(TrySleep(k, req)), k.current, Free)
  {
  }

  lemma SleepParks(k: Kernel, req: Request)
    requires Attempting(k, req) && req.SleepReq? && req.ms != 0
    ensures ParksAlone(WaitsOf(k), WaitsOf(TrySleep(k, req)), k.current, req)
  {
  }

  lemma NotifyWaitReturns(k: Kernel, req: Request)
    requires Attempting(k, req) && req.NotifyReq? && (Get(k.tasks, k.current).notifyPending || req.timeout == 0)
    ensures MovesOn(WaitsOf(k), WaitsOf(TryNotifyWait(k, req)), k.current, Free)
  {
  }

  lemma NotifyWaitParks(k: Kernel, req: Request)
    requires Attempting(k, req) && req.NotifyReq? && !Get(k.tasks, k.current).notifyPending && req.timeout != 0
    ensures ParksAlone(WaitsOf(k), WaitsOf(TryNotifyWait(k, req)), k.current, req)
  {
  }

  lemma EndNotifyWaitReturns(k: Kernel, req: Request)
    requires Continuing(k, req) && req.NotifyReq?
    ensures MovesOn(WaitsOf(k), WaitsOf(EndNotifyWait(k, req)), k.current, Free)
  {
  }

  lemma EndSleepReturns(k: Kernel, req: Request)
    requires Continuing(k, req) && req.SleepReq?
    ensures MovesOn(WaitsOf(k), WaitsOf(Continue(k, req)), k.current, Free)
  {
  }

  /** Only the calls with a retry loop retry. */
  lemma RetriesLoop(k: Kernel)
    requires Sep(k) && Enabled(k, Retry)
    ensures CanRetry(CallOf(k, k.current).req)
  {
  }

  /** The task that makes a call is in no wait list. */
  lemma CallerIsUnlinked(k: Kernel, req: Request, l: Lid)
    requires Attempting(k, req)
    ensures k.current !in ListOf(k, l)
  {
  }

  // ---------- Actions of nobody's call ----------

  lemma TickDrifts(k: Kernel)
    requires Sep(k)
    ensures Drift(WaitsOf(k), WaitsOf(Apply(k, Tick)))
  {
  }

  lemma SwitchKeepsWaits(v: SchedSpec.View, x: Tid)
    ensures Same(Get(v.ts, x), Get(SchedSpec.ScheduleNext(v).ts, x))
  {
  }

  lemma SwitchDrifts(k: Kernel)
    requires Sep(k)
    ensures Drift(WaitsOf(k), WaitsOf(DoSwitch(k)))
  {
    forall x: Tid ensures Same(Get(k.tasks, x), Get(DoSwitch(k).tasks, x)) {
      SwitchKeepsWaits(SchedView(k), x);
    }
  }

  lemma NotifyDrifts(k: Kernel, t: Tid, bits: Flags)
    requires Sep(k)
    ensures Drift(WaitsOf(k), WaitsOf(DoNotify(k, t, bits)))
  {
  }

  lemma CreateAppends(k: Kernel, priority: uint32)
    requires Sep(k) && |k.tasks| < k.maxTasks
    ensures Drift(WaitsOf(k), WaitsOf(CreateTask(k, priority)))
  {
  }

  lemma CreateReuses(k: Kernel, priority: uint32)
    requires Sep(k) && |k.tasks| >= k.maxTasks
    ensures Drift(WaitsOf(k), WaitsOf(CreateTask(k, priority)))
  {
    var i := TaskSpec.StoppedSlot(k.tasks);
    StoppedIsFree(k, i);
    if i == |k.tasks| {
      assert CreateTask(k, priority) == k;
      assert forall x: Tid :: Same(Get(k.tasks, x), Get(k.tasks, x));
    } else {
      PutDrifts(WaitsOf(k), i, TaskSpec.NewTcb(priority));
    }
  }

  /** A stopped slot is outside every call, hence in no list, when it is reused. */
  lemma StoppedIsFree(k: Kernel, i: Tid)
    requires Sep(k) && Get(k.tasks, i).state == Stopped
    ensures CallOf(k, i) == Free && forall l :: i !in ListOf(k, l)
  {
  }

  /** Overwriting one control block. */
  lemma PutDrifts(w: Waits, i: Tid, d: Tcb)
    requires |w.calls| == |w.ts| && Drifts(Get(w.ts, i), d, CallAt(w.calls, i))
    ensures Drift(w, w.(ts := Put(w.ts, i, d)))
    ensures CallAt(w.calls, i) == Free ==> Drift(w, w.(ts := Put(w.ts, i, d), calls := SetCall(w.calls, i, Free)))
  {
  }

  lemma ExitDrifts(k: Kernel)
    requires Sep(k) && AtLarge(k)
    ensures Drift(WaitsOf(k), WaitsOf(Apply(k, Exit)))
  {
  }

  lemma SetFlagsWakesMany(k: Kernel, e: nat, flags: Flags)
    requires Sep(k) && e in k.events
    ensures WakesMany(WaitsOf(k), WaitsOf(DoSetFlags(k, e, flags)), EventList(e))
  {
    if flags != {} {
      var v := EventView(k, e).(flags := k.events[e] + flags);
      EventWalk.WalkMembers(v);
      forall x: Tid
        ensures if x !in v.waiters || x in EventSpec.Walk(v).0.waiters then Get(EventSpec.Walk(v).0.ts, x) == Get(v.ts, x)
                else IsValidWaiter(Get(v.ts, x)) && Get(EventSpec.Walk(v).0.ts, x) == EventSpec.Granted(Get(v.ts, x), Get(EventSpec.Walk(v).0.ts, x).flagsResult)
      {
        EventWalk.WalkFrame(v, x);
      }
    }
  }

  // ---------- The effect of every action ----------

  datatype Effect =
    | EDrift | EMovesOn(t: Tid, c: Call) | EWakes(l: Lid) | EWakesAndReturns(l: Lid, t: Tid)
    | EParksIn(l: Lid, t: Tid, r: Request) | EParksAlone(t: Tid, r: Request) | EUnlinks(l: Lid, t: Tid) | EWakesMany(l: Lid)

  ghost predicate Has(w: Waits, v: Waits, e: Effect) {
    match e
    case EDrift => Drift(w, v)
    case EMovesOn(t, c) => MovesOn(w, v, t, c)
    case EWakes(l) => Wakes(w, v, l)
    case EWakesAndReturns(l, t) => WakesAndReturns(w, v, l, t)
    case EParksIn(l, t, r) => ParksIn(w, v, l, t, r)
    case EParksAlone(t, r) => ParksAlone(w, v, t, r)
    case EUnlinks(l, t) => Unlinks(w, v, l, t)
    case EWakesMany(l) => WakesMany(w, v, l)
  }

  lemma EffectKeeps(w: Waits, v: Waits, e: Effect)
    requires Separated(w) && Has(w, v, e)
    ensures Separated(v)
  {
    match e
    case EDrift => DriftKeeps(w, v);
    case EMovesOn(t, c) => MovesOnKeeps(w, v, t, c);
    case EWakes(l) => WakesKeeps(w, v, l);
    case EWakesAndReturns(l, t) => WakesAndReturnsKeeps(w, v, l, t);
    case EParksIn(l, t, r) => ParksInKeeps(w, v, l, t, r);
    case EParksAlone(t, r) => ParksAloneKeeps(w, v, t, r);
    case EUnlinks(l, t) => UnlinksKeeps(w, v, l, t);
    case EWakesMany(l) => WakesManyKeeps(w, v, l);
  }

  /** The effect of a first region. */
  function AttemptEffect(k: Kernel, req: Request): Effect
    requires Known(k, req)
  {
    var t := k.current;
    var parks := match ListFor(req) case Some(l) => EParksIn(l, t, req) case None => EParksAlone(t, req);
    match req
    case SendReq(q, _, timeout) =>
      if |k.queues[q].contents| < k.queues[q].capacity then EWakesAndReturns(RecvList(q), t)
      else if timeout == 0 then EMovesOn(t, Free) else parks
    case RecvReq(q, timeout) =>
      if |k.queues[q].contents| > 0 then EWakesAndReturns(SendList(q), t)
      else if timeout == 0 then EMovesOn(t, Free) else parks
    case LockReq(m, _) => if LockReturns(k, req) then EMovesOn(t, Free) else parks
    case SemReq(s, timeout) => if k.sems[s].count > 0 || timeout == 0 then EMovesOn(t, Free) else parks
    case EventReq(_, _, _, _, _) => if EventReturns(k, req) then EMovesOn(t, Free) else parks
    case AllocReq(p, timeout) => if k.pools[p] != [] || timeout == 0 then EMovesOn(t, Free) else parks
    case SleepReq(ms) => if ms == 0 then EMovesOn(t, Free) else parks
    case NotifyReq(_, _, timeout) => if Get(k.tasks, t).notifyPending || timeout == 0 then EMovesOn(t, Free) else parks
  }

  lemma AttemptReturnsAtOnce(k: Kernel, req: Request)
    requires Attempting(k, req) && AttemptEffect(k, req).EMovesOn?
    ensures Has(WaitsOf(k), WaitsOf(Attempt(k, req)), AttemptEffect(k, req))
  {
    match req
    case SendReq(_, _, _) => SendRefused(k, req);
    case RecvReq(_, _) => RecvRefused(k, req);
    case LockReq(_, _) => LockMovesOn(k, req);
    case SemReq(_, _) => SemMovesOn(k, req);
    case EventReq(_, _, _, _, _) => EventMovesOn(k, req);
    case AllocReq(_, _) => AllocMovesOn(k, req);
    case SleepReq(_) => SleepReturns(k, req);
    case NotifyReq(_, _, _) => NotifyWaitReturns(k, req);
  }

  lemma AttemptParks(k: Kernel, req: Request)
    requires Attempting(k, req) && (AttemptEffect(k, req).EParksIn? || AttemptEffect(k, req).EParksAlone?)
    ensures Has(WaitsOf(k), WaitsOf(Attempt(k, req)), AttemptEffect(k, req))
  {
    match req
    case SendReq(_, _, _) => SendParks(k, req);
    case RecvReq(_, _) => RecvParks(k, req);
    case LockReq(_, _) => LockParks(k, req);
    case SemReq(_, _) => SemParks(k, req);
    case EventReq(_, _, _, _, _) => EventParks(k, req);
    case AllocReq(_, _) => AllocParks(k, req);
    case SleepReq(_) => SleepParks(k, req);
    case NotifyReq(_, _, _) => NotifyWaitParks(k, req);
  }

  lemma AttemptHasEffect(k: Kernel, req: Request)
    requires Attempting(k, req)
    ensures Has(WaitsOf(k), WaitsOf(Attempt(k, req)), AttemptEffect(k, req))
  {
    match AttemptEffect(k, req)
    case EMovesOn(_, _) => AttemptReturnsAtOnce(k, req);
    case EWakesAndReturns(_, _) => if req.SendReq? { SendDelivers(k, req); } else { RecvDelivers(k, req); }
    case _ => AttemptParks(k, req);
  }

  /** The effect of a second region. */
  function ContinueEffect(k: Kernel, req: Request): Effect {
    var t := k.current;
    match ListFor(req)
    case None => EMovesOn(t, Free)
    case Some(l) =>
      if Get(k.tasks, t).result == Timeout then EUnlinks(l, t)
      else if req.SemReq? || req.EventReq? || (req.AllocReq? && Get(k.tasks, t).objectResult != 0) then EMovesOn(t, Free)
      else EMovesOn(t, Retrying(req))
  }

  lemma ContinueHasEffect(k: Kernel, req: Request)
    requires Continuing(k, req)
    ensures Has(WaitsOf(k), WaitsOf(Continue(k, req)), ContinueEffect(k, req))
  {
    match req
    case SendReq(_, _, _) => if Get(k.tasks, k.current).result == Timeout { EndSendUnlinks(k, req); } else { EndSendRetries(k, req); }
    case RecvReq(_, _) => if Get(k.tasks, k.current).result == Timeout { EndRecvUnlinks(k, req); } else { EndRecvRetries(k, req); }
    case LockReq(_, _) => if Get(k.tasks, k.current).result == Timeout { EndLockUnlinks(k, req); } else { EndLockRetries(k, req); }
    case SemReq(_, _) => if Get(k.tasks, k.current).result == Timeout { EndSemUnlinks(k, req); } else { EndSemReturns(k, req); }
    case EventReq(_, _, _, _, _) => if Get(k.tasks, k.current).result == Timeout { EndEventUnlinks(k, req); } else { EndEventReturns(k, req); }
    case AllocReq(_, _) => if Get(k.tasks, k.current).result == Timeout { EndAllocUnlinks(k, req); } else { EndAllocMovesOn(k, req); }
    case SleepReq(_) => EndSleepReturns(k, req);
    case NotifyReq(_, _, _) => EndNotifyWaitReturns(k, req);
  }

  function EffectOf(k: Kernel, a: Action): Effect
    requires Enabled(k, a)
  {
    match a
    case Invoke(req) => AttemptEffect(k, req)
    case Retry => AttemptEffect(k, CallOf(k, k.current).req)
    case Resume => ContinueEffect(k, CallOf(k, k.current).req)
    case SendIsr(q, _) => if |k.queues[q].contents| < k.queues[q].capacity then EWakes(RecvList(q)) else EDrift
    case Unlock(m) => if Releases(k, m) then EWakes(MutexList(m)) else EDrift
    case Post(s) => EWakes(SemList(s))
    case SetFlags(e, _) => EWakesMany(EventList(e))
    case FreeBlock(p, _) => EWakes(PoolList(p))
    case _ => EDrift
  }

  lemma UnchangedDrifts(w: Waits, v: Waits)
    requires |w.calls| == |w.ts| && v.ts == w.ts && v.calls == w.calls && ListsSame(w, v)
    ensures Drift(w, v)
  {
  }

  lemma TaskActionHasEffect(k: Kernel, a: Action)
    requires Sep(k) && Enabled(k, a) && (a.Tick? || a.Switch? || a.Notify? || a.Create? || a.Exit?)
    ensures Drift(WaitsOf(k), WaitsOf(Apply(k, a)))
  {
    if a.Tick? {
      TickDrifts(k);
    } else if a.Switch? {
      SwitchDrifts(k);
    } else if a.Notify? {
      NotifyDrifts(k, a.t, a.bits);
    } else if a.Create? {
      if |k.tasks| < k.maxTasks { CreateAppends(k, a.priority); } else { CreateReuses(k, a.priority); }
    } else {
      ExitDrifts(k);
    }
  }

  lemma SchedLockDrifts(k: Kernel)
    requires Sep(k)
    ensures Drift(WaitsOf(k), WaitsOf(Apply(k, SchedLock))) && Drift(WaitsOf(k), WaitsOf(Apply(k, SchedUnlock)))
  {
  }

  lemma ClearFlagsDrifts(k: Kernel, e: nat, flags: Flags)
    requires Sep(k) && e in k.events
    ensures Drift(WaitsOf(k), WaitsOf(Apply(k, ClearFlags(e, flags))))
  {
  }

  lemma ActionHasEffect(k: Kernel, a: Action)
    requires Sep(k) && Enabled(k, a)
    ensures Has(WaitsOf(k), WaitsOf(Apply(k, a)), EffectOf(k, a))
  {
    match a
    case Invoke(req) => AttemptHasEffect(k, req);
    case Retry => AttemptHasEffect(k, CallOf(k, k.current).req);
    case Resume => ContinueHasEffect(k, CallOf(k, k.current).req);
    case SendIsr(q, value) =>
      if |k.queues[q].contents| < k.queues[q].capacity { SendFromIsrWakes(k, q, value); }
      else { UnchangedDrifts(WaitsOf(k), WaitsOf(Apply(k, a))); }
    case Unlock(m) => if Releases(k, m) { UnlockWakes(k, m); } else { UnlockKeepsWaits(k, m); }
    case Post(s) => PostWakes(k, s);
    case SetFlags(e, flags) => SetFlagsWakesMany(k, e, flags);
    case FreeBlock(p, block) => FreeWakes(k, p, block);
    case SchedLock => SchedLockDrifts(k);
    case SchedUnlock => SchedLockDrifts(k);
    case ClearFlags(e, flags) => ClearFlagsDrifts(k, e, flags);
    case _ => TaskActionHasEffect(k, a);
  }

  /** Every action keeps the separation. */
  lemma SepStep(k: Kernel, a: Action)
    requires Sep(k) && Enabled(k, a)
    ensures Sep(Apply(k, a))
  {
    ActionHasEffect(k, a);
    EffectKeeps(WaitsOf(k), WaitsOf(Apply(k, a)), EffectOf(k, a));
  }
}
