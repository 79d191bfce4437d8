/** An action changes the state of its own object only, and logs at most one event of it. */
module ObjectFrame {
  import opened Base
  import opened Kernel
  import opened Roles
  import NotifySpec

  ghost predicate SameObject(k: Kernel, k': Kernel, o: Object) {
    match o
    case QueueObj(q) => (q in k.queues <==> q in k'.queues) && (q in k.queues ==> k'.queues[q] == k.queues[q])
    case MutexObj(m) => (m in k.mutexes <==> m in k'.mutexes) && (m in k.mutexes ==> k'.mutexes[m] == k.mutexes[m])
    case SemObj(s) => (s in k.sems <==> s in k'.sems) && (s in k.sems ==> k'.sems[s] == k.sems[s])
    case EventObj(e) => (e in k.events <==> e in k'.events) && (e in k.events ==> k'.events[e] == k.events[e])
    case PoolObj(p) => (p in k.pools <==> p in k'.pools) && (p in k.pools ==> k'.pools[p] == k.pools[p])
    case NoteObj => true
  }

  function SourceOf(ev: Event): Option<Object> {
    match ev
    case Sent(q, _, _) => Some(QueueObj(q))
    case Received(q, _, _) => Some(QueueObj(q))
    case Locked(m, _, _) => Some(MutexObj(m))
    case Unlocked(m, _, _) => Some(MutexObj(m))
    case Waited(s, _) => Some(SemObj(s))
    case Posted(s, _) => Some(SemObj(s))
    case Flagged(e, _, _) => Some(EventObj(e))
    case Allocated(p, _, _) => Some(PoolObj(p))
    case Freed(p, _) => Some(PoolObj(p))
    case Slept(_) => None
    case Notified(_, _, _) => Some(NoteObj)
    case Taken(_, _, _, _) => Some(NoteObj)
  }

  /** Nothing was logged, or one event that is not object `o`'s. */
  ghost predicate LogsElsewhere(k: Kernel, k': Kernel, o: Object) {
    k'.log == k.log || (exists ev :: k'.log == k.log + [ev] && SourceOf(ev) != Some(o))
  }

  /** Object `o` and its part of the log are as they were. */
  ghost predicate Apart(k: Kernel, k': Kernel, o: Object) {
    SameObject(k, k', o) && LogsElsewhere(k, k', o)
  }

  lemma SettleApart(k: Kernel, k1: Kernel, req: Request, r: Outcome, ev: Event, o: Object)
    requires SameObject(k, k1, o) && k1.log == k.log && SourceOf(ev) != Some(o)
    ensures Apart(k, Settle(k1, req, r, ev), o)
  {
  }

  lemma TrySendApart(k: Kernel, req: Request, o: Object)
    requires req.SendReq? && Known(k, req) && ObjectIn(req) != Some(o)
    ensures Apart(k, TrySend(k, req), o)
  {
  }

  lemma TryRecvApart(k: Kernel, req: Request, o: Object)
    requires req.RecvReq? && Known(k, req) && ObjectIn(req) != Some(o)
    ensures Apart(k, TryRecv(k, req), o)
  {
  }

  lemma TryLockApart(k: Kernel, req: Request, o: Object)
    requires req.LockReq? && Known(k, req) && ObjectIn(req) != Some(o)
    ensures Apart(k, TryLock(k, req), o)
  {
  }

  lemma TrySemApart(k: Kernel, req: Request, o: Object)
    requires req.SemReq? && Known(k, req) && ObjectIn(req) != Some(o)
    ensures Apart(k, TrySem(k, req), o)
  {
  }

  lemma TryEventApart(k: Kernel, req: Request, o: Object)
    requires req.EventReq? && Known(k, req) && ObjectIn(req) != Some(o)
    ensures Apart(k, TryEvent(k, req), o)
  {
  }

  lemma TryAllocApart(k: Kernel, req: Request, o: Object)
    requires req.AllocReq? && Known(k, req) && ObjectIn(req) != Some(o)
    ensures Apart(k, TryAlloc(k, req), o)
  {
  }

  lemma EndSendApart(k: Kernel, req: Request, o: Object)
    requires req.SendReq? && Known(k, req) && ObjectIn(req) != Some(o)
    ensures Apart(k, EndSend(k, req), o)
  {
  }

  lemma EndRecvApart(k: Kernel, req: Request, o: Object)
    requires req.RecvReq? && Known(k, req) && ObjectIn(req) != Some(o)
    ensures Apart(k, EndRecv(k, req), o)
  {
  }

  lemma EndLockApart(k: Kernel, req: Request, o: Object)
    requires req.LockReq? && Known(k, req) && ObjectIn(req) != Some(o)
    ensures Apart(k, EndLock(k, req), o)
  {
  }

  lemma EndSemApart(k: Kernel, req: Request, o: Object)
    requires req.SemReq? && Known(k, req) && ObjectIn(req) != Some(o)
    ensures Apart(k, EndSem(k, req), o)
  {
  }

  lemma EndEventApart(k: Kernel, req: Request, o: Object)
    requires req.EventReq? && Known(k, req) && ObjectIn(req) != Some(o)
    ensures Apart(k, EndEvent(k, req), o)
  {
  }

  lemma EndAllocApart(k: Kernel, req: Request, o: Object)
    requires req.AllocReq? && Known(k, req) && ObjectIn(req) != Some(o)
    ensures Apart(k, EndAlloc(k, req), o)
  {
  }

  lemma EndNotifyWaitApart(k: Kernel, req: Request, o: Object)
    requires req.NotifyReq? && o != NoteObj
    ensures Apart(k, EndNotifyWait(k, req), o)
  {
  }

  lemma TrySleepApart(k: Kernel, req: Request, o: Object)
    requires req.SleepReq?
    ensures Apart(k, TrySleep(k, req), o)
  {
    if req.ms == 0 {
      SettleApart(k, k, req, Returns(Ok), Slept(k.current), o);
    } else {
      SettleApart(k, k.(tasks := Put(k.tasks, k.current, Park(Get(k.tasks, k.current), WaitSleep, req.ms))), req, Parks, Slept(k.current), o);
    }
  }

  lemma TryNotifyWaitApart(k: Kernel, req: Request, o: Object)
    requires req.NotifyReq? && o != NoteObj
    ensures Apart(k, TryNotifyWait(k, req), o)
  {
    var (c, bits, r) := NotifySpec.Wait(Get(k.tasks, k.current), req.clearEntry, req.clearExit, req.timeout);
    SettleApart(k, k.(tasks := Put(k.tasks, k.current, c)), req, r, Taken(k.current, req.clearEntry, bits, StatusOf(r)), o);
  }

  lemma AttemptApart(k: Kernel, req: Request, o: Object)
    requires Known(k, req) && ObjectIn(req) != Some(o)
    ensures Apart(k, Attempt(k, req), o)
  {
    match req
    case SendReq(_, _, _) => TrySendApart(k, req, o);
    case RecvReq(_, _) => TryRecvApart(k, req, o);
    case LockReq(_, _) => TryLockApart(k, req, o);
    case SemReq(_, _) => TrySemApart(k, req, o);
    case EventReq(_, _, _, _, _) => TryEventApart(k, req, o);
    case AllocReq(_, _) => TryAllocApart(k, req, o);
    case SleepReq(_) => TrySleepApart(k, req, o);
    case NotifyReq(_, _, _) => TryNotifyWaitApart(k, req, o);
  }

  lemma ContinueApart(k: Kernel, req: Request, o: Object)
    requires Known(k, req) && ObjectIn(req) != Some(o)
    ensures Apart(k, Continue(k, req), o)
  {
    match req
    case SendReq(_, _, _) => EndSendApart(k, req, o);
    case RecvReq(_, _) => EndRecvApart(k, req, o);
    case LockReq(_, _) => EndLockApart(k, req, o);
    case SemReq(_, _) => EndSemApart(k, req, o);
    case EventReq(_, _, _, _, _) => EndEventApart(k, req, o);
    case AllocReq(_, _) => EndAllocApart(k, req, o);
    case SleepReq(_) => SettleApart(k, k, req, Returns(Ok), Slept(k.current), o);
    case NotifyReq(_, _, _) => EndNotifyWaitApart(k, req, o);
  }

  lemma SendIsrApart(k: Kernel, q: nat, value: uint32, o: Object)
    requires q in k.queues && o != QueueObj(q)
    ensures Apart(k, SendFromIsr(k, q, value), o)
  {
  }

  lemma UnlockApart(k: Kernel, m: nat, o: Object)
    requires m in k.mutexes && o != MutexObj(m)
    ensures Apart(k, DoUnlock(k, m), o)
  {
  }

  lemma PostApart(k: Kernel, s: nat, o: Object)
    requires s in k.sems && o != SemObj(s)
    ensures Apart(k, DoPost(k, s), o)
  {
  }

  lemma FreeApart(k: Kernel, p: nat, block: nat, o: Object)
    requires p in k.pools && o != PoolObj(p)
    ensures Apart(k, DoFree(k, p, block), o)
  {
  }

  lemma NotifyApart(k: Kernel, t: Tid, bits: Flags, o: Object)
    requires o != NoteObj
    ensures Apart(k, DoNotify(k, t, bits), o)
  {
  }

  lemma EventApart(k: Kernel, a: Action, o: Object)
    requires Enabled(k, a) && Concerns(k, a) != Some(o) && (a.SetFlags? || a.ClearFlags?)
    ensures Apart(k, Apply(k, a), o)
  {
  }

  lemma TickApart(k: Kernel, o: Object)
    ensures Apart(k, Apply(k, Tick), o)
  {
  }

  lemma SwitchApart(k: Kernel, o: Object)
    ensures Apart(k, Apply(k, Switch), o)
  {
  }

  lemma SchedLockApart(k: Kernel, o: Object)
    ensures Apart(k, Apply(k, SchedLock), o)
  {
  }

  lemma SchedUnlockApart(k: Kernel, o: Object)
    ensures Apart(k, DoSchedUnlock(k), o)
  {
  }

  lemma CreateApart(k: Kernel, priority: uint32, o: Object)
    ensures Apart(k, CreateTask(k, priority), o)
  {
  }

  lemma ExitApart(k: Kernel, o: Object)
    requires AtLarge(k)
    ensures Apart(k, Apply(k, Exit), o)
  {
  }

  lemma ActionApart(k: Kernel, a: Action, o: Object)
    requires Enabled(k, a) && Concerns(k, a) != Some(o)
    ensures Apart(k, Apply(k, a), o)
  {
    if a.Invoke? {
      AttemptApart(k, a.req, o);
    } else if a.Retry? {
      AttemptApart(k, CallOf(k, k.current).req, o);
    } else if a.Resume? {
      ContinueApart(k, CallOf(k, k.current).req, o);
    } else if a.SendIsr? {
      SendIsrApart(k, a.q, a.value, o);
    } else if a.Unlock? {
      UnlockApart(k, a.m, o);
    } else if a.Post? {
      PostApart(k, a.s, o);
    } else if a.FreeBlock? {
      FreeApart(k, a.p, a.block, o);
    } else if a.Notify? {
      NotifyApart(k, a.t, a.bits, o);
    } else if a.SetFlags? || a.ClearFlags? {
      EventApart(k, a, o);
    } else if a.Tick? {
      TickApart(k, o);
    } else if a.Switch? {
      SwitchApart(k, o);
    } else if a.SchedLock? {
      SchedLockApart(k, o);
    } else if a.SchedUnlock? {
      SchedUnlockApart(k, o);
    } else if a.Create? {
      CreateApart(k, a.priority, o);
    } else {
      ExitApart(k, o);
    }
  }
}
