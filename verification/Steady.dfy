/** What no region does to other tasks: start them running, stop them, or (mutexes
    apart) change a priority; and the scheduler's own invariant. */
module Steady {
  import opened Base
  import opened WaitQueue
  import opened Kernel
  import opened Roles
  import EventSpec
  import MutexSpec
  import PoolSpec
  import QueueSpec
  import SemSpec

  predicate StateSteady(c: Tcb, d: Tcb) {
    && (d.state == Running ==> c.state == Running) && (d.state == Stopped <==> c.state == Stopped)
    && d.basePriority == c.basePriority
  }

  ghost predicate StatesSteady(ts: seq<Tcb>, us: seq<Tcb>) {
    |us| == |ts| && forall x: Tid :: StateSteady(Get(ts, x), Get(us, x))
  }

  ghost predicate PrioritiesSteady(ts: seq<Tcb>, us: seq<Tcb>) {
    forall x: Tid :: Get(us, x).priority == Get(ts, x).priority
  }

  /** The notification words are kept and nobody starts to wait for a notification. */
  predicate NoteSteady(c: Tcb, d: Tcb) {
    && d.notifyValue == c.notifyValue && d.notifyPending == c.notifyPending
    && (d.state == Blocked && d.waitType == WaitNotification ==> c.state == Blocked && c.waitType == WaitNotification)
  }

  ghost predicate NotesSteady(ts: seq<Tcb>, us: seq<Tcb>) {
    forall x: Tid :: NoteSteady(Get(ts, x), Get(us, x))
  }

  ghost predicate AllSteady(ts: seq<Tcb>, us: seq<Tcb>) {
    StatesSteady(ts, us) && PrioritiesSteady(ts, us) && NotesSteady(ts, us)
  }

  lemma PutSteady(ts: seq<Tcb>, t: Tid, c: Tcb)
    requires StateSteady(Get(ts, t), c)
    ensures StatesSteady(ts, Put(ts, t, c))
    ensures c.priority == Get(ts, t).priority ==> PrioritiesSteady(ts, Put(ts, t, c))
    ensures NoteSteady(Get(ts, t), c) ==> NotesSteady(ts, Put(ts, t, c))
  {
  }

  lemma WakeSteady(ts: seq<Tcb>, l: seq<Tid>)
    ensures AllSteady(ts, WakeFirst(ts, l))
  {
  }

  lemma ParkSteady(ts: seq<Tcb>, t: Tid, c: Tcb)
    requires Get(ts, t).state == Running && c.state == Blocked
    requires c.basePriority == Get(ts, t).basePriority && c.priority == Get(ts, t).priority
    requires NoteSteady(Get(ts, t), c)
    ensures AllSteady(ts, Put(ts, t, c))
  {
  }

  // ---------- Region by region ----------

  lemma QueueSteady(s: QueueSpec.View, t: Tid, value: uint32, timeout: uint32)
    requires Get(s.ts, t).state == Running || timeout == 0
    ensures AllSteady(s.ts, QueueSpec.Send(s, t, value, timeout).0.ts)
    ensures AllSteady(s.ts, QueueSpec.Recv(s, t, timeout).0.ts)
  {
    WakeSteady(s.ts, s.recv);
    WakeSteady(s.ts, s.send);
    if Get(s.ts, t).state == Running {
      ParkSteady(s.ts, t, Park(Get(s.ts, t), WaitQueue, timeout));
    }
  }

  lemma PostSteady(v: SemSpec.View)
    ensures AllSteady(v.ts, SemSpec.Post(v).0.ts)
  {
  }

  lemma PoolSteady(v: PoolSpec.View, t: Tid, timeout: uint32)
    requires Get(v.ts, t).state == Running
    ensures AllSteady(v.ts, PoolSpec.Alloc(v, t, timeout).0.ts)
  {
  }

  lemma FreeSteady(v: PoolSpec.View, block: nat)
    ensures AllSteady(v.ts, PoolSpec.Free(v, block).ts)
  {
  }

  lemma {:induction false} WalkSteady(v: EventSpec.View)
    ensures AllSteady(v.ts, EventSpec.Walk(v).0.ts)
    decreases |v.waiters|
  {
    if v.waiters != [] {
      var x := v.waiters[0];
      WalkSteady(EventSpec.Rest(v));
      if EventSpec.Hit(v) {
        PutSteady(v.ts, x, EventSpec.Granted(Get(v.ts, x), EventSpec.Bits(v)));
      }
    }
  }

  lemma EventSteady(v: EventSpec.View, t: Tid, flags: Flags, all: bool, clear: bool, timeout: uint32)
    requires Get(v.ts, t).state == Running
    ensures AllSteady(v.ts, EventSpec.Wait(v, t, flags, all, clear, timeout).0.ts)
  {
    ParkSteady(v.ts, t, Park(Get(v.ts, t), WaitEvent, timeout).(waitFlags := flags, flagsResult := {}, waitAll := all, waitClear := clear));
  }

  lemma UnlockSteady(s: MutexSpec.View, t: Tid)
    ensures StatesSteady(s.ts, MutexSpec.Unlock(s, t).0.ts) && NotesSteady(s.ts, MutexSpec.Unlock(s, t).0.ts)
  {
    var ts' := Put(s.ts, t, Get(s.ts, t).(priority := Get(s.ts, t).basePriority));
    PutSteady(s.ts, t, Get(s.ts, t).(priority := Get(s.ts, t).basePriority));
    WakeSteady(ts', s.waiters);
  }

  // ---------- Action by action ----------

  lemma TrySendSteady(k: Kernel, req: Request)
    requires req.SendReq? && Known(k, req) && Get(k.tasks, k.current).state == Running
    ensures AllSteady(k.tasks, TrySend(k, req).tasks)
  {
    QueueSteady(QueueView(k, req.q), k.current, req.value, req.timeout);
  }

  lemma TryRecvSteady(k: Kernel, req: Request)
    requires req.RecvReq? && Known(k, req) && Get(k.tasks, k.current).state == Running
    ensures AllSteady(k.tasks, TryRecv(k, req).tasks)
  {
    QueueSteady(QueueView(k, req.q), k.current, 0, req.timeout);
  }

  lemma TryLockSteady(k: Kernel, req: Request)
    requires req.LockReq? && Known(k, req) && Get(k.tasks, k.current).state == Running
    ensures StatesSteady(k.tasks, TryLock(k, req).tasks) && NotesSteady(k.tasks, TryLock(k, req).tasks)
  {
  }

  lemma TrySemSteady(k: Kernel, req: Request)
    requires req.SemReq? && Known(k, req) && Get(k.tasks, k.current).state == Running
    ensures AllSteady(k.tasks, TrySem(k, req).tasks)
  {
  }

  lemma TryEventSteady(k: Kernel, req: Request)
    requires req.EventReq? && Known(k, req) && Get(k.tasks, k.current).state == Running
    ensures AllSteady(k.tasks, TryEvent(k, req).tasks)
  {
    EventSteady(EventView(k, req.e), k.current, req.flags, req.all, req.clear, req.timeout);
    var v := EventSpec.Wait(EventView(k, req.e), k.current, req.flags, req.all, req.clear, req.timeout).0;
    assert TryEvent(k, req).tasks == v.ts;
  }

  lemma TryAllocSteady(k: Kernel, req: Request)
    requires req.AllocReq? && Known(k, req) && Get(k.tasks, k.current).state == Running
    ensures AllSteady(k.tasks, TryAlloc(k, req).tasks)
  {
    PoolSteady(PoolView(k, req.p), k.current, req.timeout);
  }

  lemma TrySleepSteady(k: Kernel, req: Request)
    requires req.SleepReq? && Get(k.tasks, k.current).state == Running
    ensures AllSteady(k.tasks, TrySleep(k, req).tasks)
  {
    ParkSteady(k.tasks, k.current, Park(Get(k.tasks, k.current), WaitSleep, req.ms));
  }

  lemma TryNotifyWaitSteady(k: Kernel, req: Request)
    requires req.NotifyReq? && Get(k.tasks, k.current).state == Running
    ensures StatesSteady(k.tasks, TryNotifyWait(k, req).tasks) && PrioritiesSteady(k.tasks, TryNotifyWait(k, req).tasks)
  {
  }

  lemma AttemptSteady(k: Kernel, req: Request)
    requires Known(k, req) && Get(k.tasks, k.current).state == Running
    ensures StatesSteady(k.tasks, Attempt(k, req).tasks)
    ensures !req.LockReq? ==> PrioritiesSteady(k.tasks, Attempt(k, req).tasks)
    ensures !req.NotifyReq? ==> NotesSteady(k.tasks, Attempt(k, req).tasks)
  {
    match req
    case SendReq(_, _, _) => TrySendSteady(k, req);
    case RecvReq(_, _) => TryRecvSteady(k, req);
    case LockReq(_, _) => TryLockSteady(k, req);
    case SemReq(_, _) => TrySemSteady(k, req);
    case EventReq(_, _, _, _, _) => TryEventSteady(k, req);
    case AllocReq(_, _) => TryAllocSteady(k, req);
    case SleepReq(_) => TrySleepSteady(k, req);
    case NotifyReq(_, _, _) => TryNotifyWaitSteady(k, req);
  }

  lemma EndSendSteady(k: Kernel, req: Request)
    requires req.SendReq?
    ensures AllSteady(k.tasks, EndSend(k, req).tasks)
  {
  }

  lemma EndRecvSteady(k: Kernel, req: Request)
    requires req.RecvReq?
    ensures AllSteady(k.tasks, EndRecv(k, req).tasks)
  {
  }

  lemma EndSemSteady(k: Kernel, req: Request)
    requires req.SemReq?
    ensures AllSteady(k.tasks, EndSem(k, req).tasks)
  {
  }

  lemma EndEventSteady(k: Kernel, req: Request)
    requires req.EventReq?
    ensures AllSteady(k.tasks, EndEvent(k, req).tasks)
  {
  }

  lemma EndAllocSteady(k: Kernel, req: Request)
    requires req.AllocReq?
    ensures AllSteady(k.tasks, EndAlloc(k, req).tasks)
  {
  }

  lemma EndLockSteady(k: Kernel, req: Request)
    requires req.LockReq? && Known(k, req)
    ensures StatesSteady(k.tasks, EndLock(k, req).tasks) && NotesSteady(k.tasks, EndLock(k, req).tasks)
  {
  }

  lemma EndNotifyWaitSteady(k: Kernel, req: Request)
    requires req.NotifyReq?
    ensures StatesSteady(k.tasks, EndNotifyWait(k, req).tasks) && PrioritiesSteady(k.tasks, EndNotifyWait(k, req).tasks)
  {
  }

  lemma ContinueSteady(k: Kernel, req: Request)
    requires Known(k, req)
    ensures StatesSteady(k.tasks, Continue(k, req).tasks)
    ensures !req.LockReq? ==> PrioritiesSteady(k.tasks, Continue(k, req).tasks)
    ensures !req.NotifyReq? ==> NotesSteady(k.tasks, Continue(k, req).tasks)
  {
    match req
    case SendReq(_, _, _) => EndSendSteady(k, req);
    case RecvReq(_, _) => EndRecvSteady(k, req);
    case LockReq(_, _) => EndLockSteady(k, req);
    case SemReq(_, _) => EndSemSteady(k, req);
    case EventReq(_, _, _, _, _) => EndEventSteady(k, req);
    case AllocReq(_, _) => EndAllocSteady(k, req);
    case SleepReq(_) =>
    case NotifyReq(_, _, _) => EndNotifyWaitSteady(k, req);
  }

  lemma SetFlagsSteady(k: Kernel, e: nat, flags: Flags)
    requires e in k.events
    ensures AllSteady(k.tasks, DoSetFlags(k, e, flags).tasks)
  {
    WalkSteady(EventView(k, e).(flags := k.events[e] + flags));
  }

  lemma DoNotifySteady(k: Kernel, t: Tid, bits: Flags)
    ensures StatesSteady(k.tasks, DoNotify(k, t, bits).tasks) && PrioritiesSteady(k.tasks, DoNotify(k, t, bits).tasks)
  {
  }

  /** The region belongs to a mutex, the one object that changes priorities. */
  predicate OfMutex(k: Kernel, a: Action)
    requires Enabled(k, a)
  {
    match Concerns(k, a)
    case Some(MutexObj(_)) => true
    case _ => false
  }

  lemma TickSteady(k: Kernel)
    ensures AllSteady(k.tasks, Apply(k, Tick).tasks)
  {
  }

  lemma WakerSteady(k: Kernel, a: Action)
    requires Enabled(k, a) && (a.SendIsr? || a.Unlock? || a.Post? || a.SetFlags? || a.FreeBlock? || a.Notify?)
    ensures StatesSteady(k.tasks, Apply(k, a).tasks)
    ensures !a.Unlock? ==> PrioritiesSteady(k.tasks, Apply(k, a).tasks)
    ensures !a.Notify? ==> NotesSteady(k.tasks, Apply(k, a).tasks)
  {
    if a.SendIsr? { QueueSteady(QueueView(k, a.q), k.current, a.value, 0); }
    else if a.Unlock? { UnlockSteady(MutexView(k, a.m), k.current); }
    else if a.Post? { PostSteady(SemView(k, a.s)); }
    else if a.SetFlags? { SetFlagsSteady(k, a.e, a.flags); }
    else if a.FreeBlock? { FreeSteady(PoolView(k, a.p), a.block); }
    else { DoNotifySteady(k, a.t, a.bits); }
  }

  lemma KeptSteady(k: Kernel, a: Action)
    requires Enabled(k, a) && (a.ClearFlags? || a.SchedLock? || a.SchedUnlock?)
    ensures AllSteady(k.tasks, Apply(k, a).tasks)
  {
  }

  /** The region of a request, and what it may change: only mutex regions change priorities,
      only notification regions notification words. */
  ghost predicate SteadyFor(k: Kernel, k': Kernel, req: Request) {
    && StatesSteady(k.tasks, k'.tasks) && (!req.LockReq? ==> PrioritiesSteady(k.tasks, k'.tasks))
    && (!req.NotifyReq? ==> NotesSteady(k.tasks, k'.tasks))
  }

  lemma InvokeSteady(k: Kernel, req: Request)
    requires Enabled(k, Invoke(req))
    ensures SteadyFor(k, Apply(k, Invoke(req)), req)
  {
    AttemptSteady(k, req);
  }

  lemma RetrySteady(k: Kernel)
    requires Enabled(k, Retry)
    ensures SteadyFor(k, Apply(k, Retry), CallOf(k, k.current).req)
  {
    AttemptSteady(k, CallOf(k, k.current).req);
  }

  lemma ResumeSteady(k: Kernel)
    requires Enabled(k, Resume)
    ensures SteadyFor(k, Apply(k, Resume), CallOf(k, k.current).req)
  {
    ContinueSteady(k, CallOf(k, k.current).req);
  }

  function RequestOf(k: Kernel, a: Action): Request
    requires Enabled(k, a) && (a.Invoke? || a.Retry? || a.Resume?)
  {
    if a.Invoke? then a.req else CallOf(k, k.current).req
  }

  lemma RequestSteady(k: Kernel, a: Action)
    requires Enabled(k, a) && (a.Invoke? || a.Retry? || a.Resume?)
    ensures SteadyFor(k, Apply(k, a), RequestOf(k, a))
  {
    if a.Invoke? { InvokeSteady(k, a.req); }
    else if a.Retry? { RetrySteady(k); }
    else { ResumeSteady(k); }
  }

  lemma CallSteady(k: Kernel, a: Action)
    requires Enabled(k, a) && (a.Invoke? || a.Retry? || a.Resume?)
    ensures StatesSteady(k.tasks, Apply(k, a).tasks)
    ensures !OfMutex(k, a) ==> PrioritiesSteady(k.tasks, Apply(k, a).tasks)
    ensures Concerns(k, a) != Some(NoteObj) ==> NotesSteady(k.tasks, Apply(k, a).tasks)
  {
    RequestSteady(k, a);
    assert Concerns(k, a) == ObjectIn(RequestOf(k, a));
  }

  /** Every action but a switch, a creation or an exit. */
  lemma ActionSteady(k: Kernel, a: Action)
    requires Enabled(k, a) && !a.Switch? && !a.Create? && !a.Exit?
    ensures StatesSteady(k.tasks, Apply(k, a).tasks)
    ensures !OfMutex(k, a) ==> PrioritiesSteady(k.tasks, Apply(k, a).tasks)
    ensures Concerns(k, a) != Some(NoteObj) ==> NotesSteady(k.tasks, Apply(k, a).tasks)
  {
    if a.Invoke? || a.Retry? || a.Resume? { CallSteady(k, a); }
    else if a.Tick? { TickSteady(k); }
    else if a.ClearFlags? || a.SchedLock? || a.SchedUnlock? { KeptSteady(k, a); }
    else { WakerSteady(k, a); }
  }
}
