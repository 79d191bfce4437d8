/** The whole kernel as a state machine. Every critical region is one atomic
    action; a tick and a context switch are further actions; actions interleave
    arbitrarily. `calls` is each task's control point inside a blocking call and
    `log` is the history of calls that have returned. */
module Kernel {
  import opened Base
  import opened WaitQueue
  import QueueSpec
  import MutexSpec
  import SemSpec
  import EventSpec
  import PoolSpec
  import NotifySpec
  import SchedSpec
  import TaskSpec

  /** Identifies one wait list among those of all objects. */
  datatype Lid =
    | RecvList(q: nat) | SendList(q: nat) | MutexList(m: nat)
    | SemList(s: nat) | EventList(e: nat) | PoolList(p: nat)

  /** A blocking call with its arguments. */
  datatype Request =
    | SendReq(q: nat, value: uint32, timeout: uint32)
    | RecvReq(q: nat, timeout: uint32)
    | LockReq(m: nat, timeout: uint32)
    | SemReq(s: nat, timeout: uint32)
    | EventReq(e: nat, flags: Flags, all: bool, clear: bool, timeout: uint32)
    | AllocReq(p: nat, timeout: uint32)
    | SleepReq(ms: uint32)
    | NotifyReq(clearEntry: Flags, clearExit: Flags, timeout: uint32)

  /** Where a task stands: outside the kernel, after the region that parked it, or
      woken and about to repeat the first region. */
  datatype Call = Free | Waiting(req: Request) | Retrying(req: Request)

  /** A returned call. */
  datatype Event =
    | Sent(q: nat, value: uint32, status: Status)
    | Received(q: nat, value: uint32, status: Status)
    | Locked(m: nat, t: Tid, status: Status)
    | Unlocked(m: nat, t: Tid, status: Status)
    | Waited(s: nat, status: Status)
    | Posted(s: nat, status: Status)
    | Flagged(e: nat, bits: Flags, status: Status)
    | Allocated(p: nat, block: nat, status: Status)
    | Freed(p: nat, block: nat)
    | Slept(t: Tid)
    | Notified(t: Tid, bits: Flags, status: Status)
    | Taken(t: Tid, clearEntry: Flags, bits: Flags, status: Status)

  datatype Kernel = Kernel(
    tasks: seq<Tcb>,
    maxTasks: nat,
    calls: seq<Call>,
    lists: map<Lid, seq<Tid>>,
    queues: map<nat, QueueSpec.QueueVal>,
    mutexes: map<nat, MutexSpec.MutexVal>,
    sems: map<nat, SemSpec.SemVal>,
    events: map<nat, Flags>,
    pools: map<nat, seq<nat>>,
    current: Tid,
    ring: seq<Tid>,
    schedLock: uint32,
    pending: bool,
    log: seq<Event>)

  datatype Action =
    | Tick | Switch
    | Invoke(req: Request) | Resume | Retry
    | SendIsr(q: nat, value: uint32)
    | Unlock(m: nat)
    | Post(s: nat)
    | SetFlags(e: nat, flags: Flags) | ClearFlags(e: nat, flags: Flags)
    | FreeBlock(p: nat, block: nat)
    | Notify(t: Tid, bits: Flags)
    | SchedLock | SchedUnlock
    | Create(priority: uint32) | Exit

  function ListAt(lists: map<Lid, seq<Tid>>, l: Lid): seq<Tid> {
    if l in lists then lists[l] else []
  }

  function SetList(lists: map<Lid, seq<Tid>>, l: Lid, s: seq<Tid>): (r: map<Lid, seq<Tid>>)
    ensures forall l' :: ListAt(r, l') == if l' == l then s else ListAt(lists, l')
  {
    lists[l := s]
  }

  function CallAt(calls: seq<Call>, t: Tid): Call {
    if t < |calls| then calls[t] else Free
  }

  function ListOf(k: Kernel, l: Lid): seq<Tid> {
    ListAt(k.lists, l)
  }

  function CallOf(k: Kernel, t: Tid): Call {
    CallAt(k.calls, t)
  }

  function SetCall(calls: seq<Call>, t: Tid, c: Call): (r: seq<Call>)
    ensures |r| == |calls|
    ensures forall x: Tid :: CallAt(r, x) == if x == t && t < |calls| then c else CallAt(calls, x)
  {
    if t < |calls| then calls[t := c] else calls
  }

  /** The list a request parks its task in. */
  function ListFor(r: Request): Option<Lid> {
    match r
    case SendReq(q, _, _) => Some(SendList(q))
    case RecvReq(q, _) => Some(RecvList(q))
    case LockReq(m, _) => Some(MutexList(m))
    case SemReq(s, _) => Some(SemList(s))
    case EventReq(e, _, _, _, _) => Some(EventList(e))
    case AllocReq(p, _) => Some(PoolList(p))
    case SleepReq(_) => None
    case NotifyReq(_, _, _) => None
  }

  function WaitTypeFor(r: Request): WaitType {
    match r
    case SendReq(_, _, _) => WaitQueue
    case RecvReq(_, _) => WaitQueue
    case LockReq(_, _) => WaitMutex
    case SemReq(_, _) => WaitSem
    case EventReq(_, _, _, _, _) => WaitEvent
    case AllocReq(_, _) => WaitMempool
    case SleepReq(_) => WaitSleep
    case NotifyReq(_, _, _) => WaitNotification
  }

  function Milliseconds(r: Request): uint32 {
    match r
    case SleepReq(ms) => ms
    case SendReq(_, _, timeout) => timeout
    case RecvReq(_, timeout) => timeout
    case LockReq(_, timeout) => timeout
    case SemReq(_, timeout) => timeout
    case EventReq(_, _, _, _, timeout) => timeout
    case AllocReq(_, timeout) => timeout
    case NotifyReq(_, _, timeout) => timeout
  }

  /** The object a request names exists. */
  predicate Known(k: Kernel, r: Request) {
    match r
    case SendReq(q, _, _) => q in k.queues
    case RecvReq(q, _) => q in k.queues
    case LockReq(m, _) => m in k.mutexes
    case SemReq(s, _) => s in k.sems
    case EventReq(e, _, _, _, _) => e in k.events
    case AllocReq(p, _) => p in k.pools
    case SleepReq(_) => true
    case NotifyReq(_, _, _) => true
  }

  // ---------- Views of single objects, and writing them back ----------

  function QueueView(k: Kernel, q: nat): QueueSpec.View
    requires q in k.queues
  {
    QueueSpec.View(k.tasks, k.queues[q], ListOf(k, RecvList(q)), ListOf(k, SendList(q)))
  }

  function PutQueue(k: Kernel, q: nat, v: QueueSpec.View): Kernel {
    k.(tasks := v.ts, queues := k.queues[q := v.q], lists := SetList(SetList(k.lists, RecvList(q), v.recv), SendList(q), v.send))
  }

  function MutexView(k: Kernel, m: nat): MutexSpec.View
    requires m in k.mutexes
  {
    MutexSpec.View(k.tasks, k.mutexes[m], ListOf(k, MutexList(m)))
  }

  function PutMutex(k: Kernel, m: nat, v: MutexSpec.View): Kernel {
    k.(tasks := v.ts, mutexes := k.mutexes[m := v.m], lists := SetList(k.lists, MutexList(m), v.waiters))
  }

  function SemView(k: Kernel, s: nat): SemSpec.View
    requires s in k.sems
  {
    SemSpec.View(k.tasks, k.sems[s], ListOf(k, SemList(s)))
  }

  function PutSem(k: Kernel, s: nat, v: SemSpec.View): Kernel {
    k.(tasks := v.ts, sems := k.sems[s := v.s], lists := SetList(k.lists, SemList(s), v.waiters))
  }

  function EventView(k: Kernel, e: nat): EventSpec.View
    requires e in k.events
  {
    EventSpec.View(k.tasks, k.events[e], ListOf(k, EventList(e)))
  }

  function PutEvent(k: Kernel, e: nat, v: EventSpec.View): Kernel {
    k.(tasks := v.ts, events := k.events[e := v.flags], lists := SetList(k.lists, EventList(e), v.waiters))
  }

  function PoolView(k: Kernel, p: nat): PoolSpec.View
    requires p in k.pools
  {
    PoolSpec.View(k.tasks, k.pools[p], ListOf(k, PoolList(p)))
  }

  function PutPool(k: Kernel, p: nat, v: PoolSpec.View): Kernel {
    k.(tasks := v.ts, pools := k.pools[p := v.free], lists := SetList(k.lists, PoolList(p), v.waiters))
  }

  function SchedView(k: Kernel): SchedSpec.View {
    SchedSpec.View(k.tasks, k.current, k.ring, k.schedLock, k.pending)
  }

  // ---------- The regions of each blocking call, run by the current task ----------

  /** The control point and the log after a region of the current task's call. */
  function Settle(k: Kernel, req: Request, o: Outcome, ev: Event): (r: Kernel)
    ensures r == k.(calls := r.calls, log := r.log)
  {
    match o
    case Returns(_) => k.(calls := SetCall(k.calls, k.current, Free), log := k.log + [ev])
    case Parks => k.(calls := SetCall(k.calls, k.current, Waiting(req)))
    case Retries => k.(calls := SetCall(k.calls, k.current, Retrying(req)))
  }

  function StatusOf(o: Outcome): Status {
    if o.Returns? then o.status else Status.Ok
  }

  function TrySend(k: Kernel, req: Request): Kernel
    requires req.SendReq? && Known(k, req)
  {
    var (v, o) := QueueSpec.Send(QueueView(k, req.q), k.current, req.value, req.timeout);
    Settle(PutQueue(k, req.q, v), req, o, Sent(req.q, req.value, StatusOf(o)))
  }

  function TryRecv(k: Kernel, req: Request): Kernel
    requires req.RecvReq? && Known(k, req)
  {
    var (v, value, o) := QueueSpec.Recv(QueueView(k, req.q), k.current, req.timeout);
    Settle(PutQueue(k, req.q, v), req, o, Received(req.q, value, StatusOf(o)))
  }

  function TryLock(k: Kernel, req: Request): Kernel
    requires req.LockReq? && Known(k, req)
  {
    var (v, o) := MutexSpec.Lock(MutexView(k, req.m), k.current, req.timeout);
    Settle(PutMutex(k, req.m, v), req, o, Locked(req.m, k.current, StatusOf(o)))
  }

  function TrySem(k: Kernel, req: Request): Kernel
    requires req.SemReq? && Known(k, req)
  {
    var (v, o) := SemSpec.Wait(SemView(k, req.s), k.current, req.timeout);
    Settle(PutSem(k, req.s, v), req, o, Waited(req.s, StatusOf(o)))
  }

  function TryEvent(k: Kernel, req: Request): Kernel
    requires req.EventReq? && Known(k, req)
  {
    var (v, bits, o) := EventSpec.Wait(EventView(k, req.e), k.current, req.flags, req.all, req.clear, req.timeout);
    Settle(PutEvent(k, req.e, v), req, o, Flagged(req.e, bits, StatusOf(o)))
  }

  function TryAlloc(k: Kernel, req: Request): Kernel
    requires req.AllocReq? && Known(k, req)
  {
    var (v, block, o) := PoolSpec.Alloc(PoolView(k, req.p), k.current, req.timeout);
    Settle(PutPool(k, req.p, v), req, o, Allocated(req.p, block, StatusOf(o)))
  }

  /** `rtos_sleep`. */
  function TrySleep(k: Kernel, req: Request): Kernel
    requires req.SleepReq?
  {
    var t := k.current;
    if req.ms == 0 then Settle(k, req, Returns(Status.Ok), Slept(t))
    else Settle(k.(tasks := Put(k.tasks, t, Park(Get(k.tasks, t), WaitSleep, req.ms))), req, Parks, Slept(t))
  }

  function TryNotifyWait(k: Kernel, req: Request): Kernel
    requires req.NotifyReq?
  {
    var t := k.current;
    var (c, bits, o) := NotifySpec.Wait(Get(k.tasks, t), req.clearEntry, req.clearExit, req.timeout);
    Settle(k.(tasks := Put(k.tasks, t, c)), req, o, Taken(t, req.clearEntry, bits, StatusOf(o)))
  }

  /** The first critical region of a blocking call. */
  function Attempt(k: Kernel, req: Request): (r: Kernel)
    requires Known(k, req)
    ensures r.ring == k.ring && r.current == k.current
  {
    match req
    case SendReq(_, _, _) => TrySend(k, req)
    case RecvReq(_, _) => TryRecv(k, req)
    case LockReq(_, _) => TryLock(k, req)
    case SemReq(_, _) => TrySem(k, req)
    case EventReq(_, _, _, _, _) => TryEvent(k, req)
    case AllocReq(_, _) => TryAlloc(k, req)
    case SleepReq(_) => TrySleep(k, req)
    case NotifyReq(_, _, _) => TryNotifyWait(k, req)
  }

  function EndSend(k: Kernel, req: Request): Kernel
    requires req.SendReq?
  {
    var (ts, l, o) := QueueSpec.Resume(k.tasks, ListOf(k, SendList(req.q)), k.current);
    Settle(k.(tasks := ts, lists := SetList(k.lists, SendList(req.q), l)), req, o, Sent(req.q, req.value, StatusOf(o)))
  }

  function EndRecv(k: Kernel, req: Request): Kernel
    requires req.RecvReq?
  {
    var (ts, l, o) := QueueSpec.Resume(k.tasks, ListOf(k, RecvList(req.q)), k.current);
    Settle(k.(tasks := ts, lists := SetList(k.lists, RecvList(req.q), l)), req, o, Received(req.q, 0, StatusOf(o)))
  }

  function EndLock(k: Kernel, req: Request): Kernel
    requires req.LockReq? && Known(k, req)
  {
    var (v, o) := MutexSpec.Resume(MutexView(k, req.m), k.current);
    Settle(PutMutex(k, req.m, v), req, o, Locked(req.m, k.current, StatusOf(o)))
  }

  function EndSem(k: Kernel, req: Request): Kernel
    requires req.SemReq?
  {
    var (ts, l, st) := SemSpec.Resume(k.tasks, ListOf(k, SemList(req.s)), k.current);
    Settle(k.(tasks := ts, lists := SetList(k.lists, SemList(req.s), l)), req, Returns(st), Waited(req.s, st))
  }

  function EndEvent(k: Kernel, req: Request): Kernel
    requires req.EventReq?
  {
    var (ts, l, bits, st) := EventSpec.Resume(k.tasks, ListOf(k, EventList(req.e)), k.current);
    Settle(k.(tasks := ts, lists := SetList(k.lists, EventList(req.e), l)), req, Returns(st), Flagged(req.e, bits, st))
  }

  function EndAlloc(k: Kernel, req: Request): Kernel
    requires req.AllocReq?
  {
    var (ts, l, block, o) := PoolSpec.Resume(k.tasks, ListOf(k, PoolList(req.p)), k.current);
    Settle(k.(tasks := ts, lists := SetList(k.lists, PoolList(req.p), l)), req, o, Allocated(req.p, block, StatusOf(o)))
  }

  function EndNotifyWait(k: Kernel, req: Request): Kernel
    requires req.NotifyReq?
  {
    var t := k.current;
    var (c, bits, st) := NotifySpec.Resume(Get(k.tasks, t), req.clearExit);
    Settle(k.(tasks := Put(k.tasks, t, c)), req, Returns(st), Taken(t, req.clearEntry, bits, st))
  }

  /** The second critical region, entered when the parked task runs again. */
  function Continue(k: Kernel, req: Request): (r: Kernel)
    requires Known(k, req)
    ensures r.ring == k.ring && r.current == k.current
  {
    match req
    case SendReq(_, _, _) => EndSend(k, req)
    case RecvReq(_, _) => EndRecv(k, req)
    case LockReq(_, _) => EndLock(k, req)
    case SemReq(_, _) => EndSem(k, req)
    case EventReq(_, _, _, _, _) => EndEvent(k, req)
    case AllocReq(_, _) => EndAlloc(k, req)
    case SleepReq(_) => Settle(k, req, Returns(Status.Ok), Slept(k.current))
    case NotifyReq(_, _, _) => EndNotifyWait(k, req)
  }

  // ---------- Regions of the calls that do not block ----------

  function SendFromIsr(k: Kernel, q: nat, value: uint32): Kernel
    requires q in k.queues
  {
    var (v, o) := QueueSpec.Send(QueueView(k, q), k.current, value, 0);
    PutQueue(k, q, v).(log := k.log + [Sent(q, value, StatusOf(o))])
  }

  function DoUnlock(k: Kernel, m: nat): Kernel
    requires m in k.mutexes
  {
    var (v, st) := MutexSpec.Unlock(MutexView(k, m), k.current);
    PutMutex(k, m, v).(log := k.log + [Unlocked(m, k.current, st)])
  }

  function DoPost(k: Kernel, s: nat): Kernel
    requires s in k.sems
  {
    var (v, st) := SemSpec.Post(SemView(k, s));
    PutSem(k, s, v).(log := k.log + [Posted(s, st)])
  }

  function DoSetFlags(k: Kernel, e: nat, flags: Flags): Kernel
    requires e in k.events
  {
    PutEvent(k, e, EventSpec.Set(EventView(k, e), flags).0)
  }

  function DoFree(k: Kernel, p: nat, block: nat): Kernel
    requires p in k.pools
  {
    PutPool(k, p, PoolSpec.Free(PoolView(k, p), block)).(log := k.log + [Freed(p, block)])
  }

  function DoNotify(k: Kernel, t: Tid, bits: Flags): Kernel {
    var (c, st) := NotifySpec.Notify(Get(k.tasks, t), bits);
    k.(tasks := Put(k.tasks, t, c), log := k.log + [Notified(t, bits, st)])
  }

  function DoSwitch(k: Kernel): Kernel {
    var v := SchedSpec.ScheduleNext(SchedView(k));
    k.(tasks := v.ts, current := v.current, pending := v.pending)
  }

  /** `rtos_sched_unlock`. */
  function DoSchedUnlock(k: Kernel): (r: Kernel)
    ensures KeepsObjects(k, r) && r.tasks == k.tasks && r.calls == k.calls && r.lists == k.lists && r.current == k.current
  {
    var l := SchedSpec.Unlocked(SchedSpec.Lock(k.schedLock, k.pending)).0;
    k.(schedLock := l.depth, pending := l.pending)
  }

  predicate KeepsObjects(k: Kernel, r: Kernel) {
    && r.queues == k.queues && r.mutexes == k.mutexes && r.sems == k.sems
    && r.events == k.events && r.pools == k.pools && r.log == k.log
  }

  /** A slot for a new task: a fresh one, else the first stopped one. */
  function CreateTask(k: Kernel, priority: uint32): (r: Kernel)
    ensures KeepsObjects(k, r)
  {
    if |k.tasks| < k.maxTasks then
      k.(tasks := k.tasks + [TaskSpec.NewTcb(priority)], calls := k.calls + [Free],
         ring := TaskSpec.RingInsert(k.ring, k.current, |k.tasks|))
    else
      var i := TaskSpec.StoppedSlot(k.tasks);
      if i == |k.tasks| then k
      else k.(tasks := Put(k.tasks, i, TaskSpec.NewTcb(priority)), calls := SetCall(k.calls, i, Free))
  }

  /** Blocks returned by the pool and not given back. */
  function Held(log: seq<Event>, p: nat): multiset<nat> {
    if log == [] then multiset{}
    else
      var h := Held(log[..|log| - 1], p);
      match log[|log| - 1]
      case Allocated(p', b, st) => if p' == p && st == Status.Ok then h + multiset{b} else h
      case Freed(p', b) => if p' == p then h - multiset{b} else h
      case _ => h
  }

  /** The running task is outside every blocking call. */
  predicate AtLarge(k: Kernel) {
    k.current < |k.tasks| && Get(k.tasks, k.current).state == Running && CallOf(k, k.current) == Free
  }

  /** Who may do what, and when. A call is made by the running task from outside
      the kernel; wake-ups may come from any context, interrupts included. Only a
      block that a caller holds is freed. */
  predicate Enabled(k: Kernel, a: Action) {
    var t := k.current;
    match a
    case Invoke(req) => AtLarge(k) && Known(k, req)
    case Resume =>
      t < |k.tasks| && Get(k.tasks, t).state == Running && CallOf(k, t).Waiting? && Known(k, CallOf(k, t).req)
    case Retry =>
      t < |k.tasks| && Get(k.tasks, t).state == Running && CallOf(k, t).Retrying? && Known(k, CallOf(k, t).req)
    case Unlock(m) => AtLarge(k) && m in k.mutexes
    case Exit => AtLarge(k)
    case SendIsr(q, _) => q in k.queues
    case Post(s) => s in k.sems
    case SetFlags(e, _) => e in k.events
    case ClearFlags(e, _) => e in k.events
    case FreeBlock(p, b) => p in k.pools && b in Held(k.log, p)
    case Notify(t', _) => t' < |k.tasks|
    case _ => true
  }

  /** The request whose first region an action runs. */
  function Attempted(k: Kernel, a: Action): Option<Request> {
    match a
    case Invoke(req) => Some(req)
    case Retry => if CallOf(k, k.current).Retrying? then Some(CallOf(k, k.current).req) else None
    case _ => None
  }

  function Apply(k: Kernel, a: Action): Kernel
    requires Enabled(k, a)
  {
    match a
    case Tick => k.(tasks := TaskSpec.Tick(k.tasks))
    case Switch => DoSwitch(k)
    case Invoke(req) => Attempt(k, req)
    case Retry => Attempt(k, CallOf(k, k.current).req)
    case Resume => Continue(k, CallOf(k, k.current).req)
    case SendIsr(q, value) => SendFromIsr(k, q, value)
    case Unlock(m) => DoUnlock(k, m)
    case Post(s) => DoPost(k, s)
    case SetFlags(e, flags) => DoSetFlags(k, e, flags)
    case ClearFlags(e, flags) => k.(events := k.events[e := k.events[e] - flags])
    case FreeBlock(p, block) => DoFree(k, p, block)
    case Notify(t, bits) => DoNotify(k, t, bits)
    case SchedLock => k.(schedLock := SchedSpec.Locked(SchedSpec.Lock(k.schedLock, k.pending)).depth)
    case SchedUnlock => DoSchedUnlock(k)
    case Create(priority) => CreateTask(k, priority)
    case Exit => k.(tasks := Put(k.tasks, k.current, TaskSpec.Exited(Get(k.tasks, k.current))))
  }

  // ---------- Runs ----------

  /** A freshly started kernel: one task runs, every object is as its init call leaves it. */
  ghost predicate Init(k: Kernel) {
    && |k.calls| == |k.tasks| && k.current < |k.tasks|
    && NoDup(k.ring) && (forall i :: i in k.ring <==> 0 <= i < |k.tasks|)
    && (forall i :: 0 <= i < |k.tasks| ==> k.calls[i] == Free)
    && (forall i :: 0 <= i < |k.tasks| ==>
          k.tasks[i] == TaskSpec.NewTcb(k.tasks[i].basePriority).(state := if i == k.current then Running else Ready))
    && k.lists == map[]
    && (forall q :: q in k.queues ==> k.queues[q].contents == [] && k.queues[q].capacity > 0)
    && (forall m :: m in k.mutexes ==> k.mutexes[m] == MutexSpec.MutexVal(None, 0))
    && (forall s :: s in k.sems ==> k.sems[s].count <= k.sems[s].maxCount)
    && (forall p :: p in k.pools ==> NoDup(k.pools[p]) && 0 !in k.pools[p])
    && k.log == []
  }

  ghost predicate Legal(k: Kernel, acts: seq<Action>)
    decreases |acts|
  {
    acts == [] || (Enabled(k, acts[0]) && Legal(Apply(k, acts[0]), acts[1..]))
  }

  ghost function Run(k: Kernel, acts: seq<Action>): Kernel
    requires Legal(k, acts)
    decreases |acts|
  {
    if acts == [] then k else Run(Apply(k, acts[0]), acts[1..])
  }
}
