/** The scheduler lock over whole runs: it keeps the processor, and no switch is forgotten. */
module SchedLocks {
  import opened Base
  import opened Kernel
  import opened Preemption
  import Runs
  import SchedRuns
  import SchedSpec

  // ---------- The lock keeps the processor ----------

  /** The scheduler stays locked and the current task neither blocks nor exits. */
  ghost predicate HoldsOn(k: Kernel, acts: seq<Action>)
    requires Legal(k, acts)
    decreases |acts|
  {
    acts == [] || (Deferred(k) && HoldsOn(Apply(k, acts[0]), acts[1..]))
  }

  lemma DeferredKeepsCurrent(k: Kernel, a: Action)
    requires Deferred(k) && Enabled(k, a)
    ensures Apply(k, a).current == k.current
  {
    if a.Switch? {
      DeferredSwitch(k);
    } else if a.Create? {
      CreateRunsNobody(k, a.priority, 0);
    } else {
      SchedRuns.RingKept(k, a);
    }
  }

  lemma {:induction false} LockRun(k: Kernel, acts: seq<Action>)
    requires SchedRuns.SchedOk(k) && Legal(k, acts) && HoldsOn(k, acts)
    ensures Run(k, acts).current == k.current && SchedRuns.SchedOk(Run(k, acts))
    decreases |acts|
  {
    if acts != [] {
      DeferredKeepsCurrent(k, acts[0]);
      SchedRuns.SchedStep(k, acts[0]);
      LockRun(Apply(k, acts[0]), acts[1..]);
    }
  }

  /** While a task holds the scheduler lock and neither blocks nor exits no other task runs,
      whoever is woken, created or notified, and however often a switch is requested. */
  lemma LockKeepsTheProcessor(k: Kernel, acts: seq<Action>, more: seq<Action>, x: Tid)
    requires Init(k) && Legal(k, acts) && Legal(Run(k, acts), more) && HoldsOn(Run(k, acts), more)
    ensures var r := Run(k, acts); var z := Run(r, more);
            z.current == r.current && (Get(z.tasks, x).state == Running ==> x == r.current)
  {
    Runs.AlwaysSafe(k, acts);
    LockRun(Run(k, acts), more);
  }

  // ---------- No switch is forgotten ----------

  /** Whether a switch deferred by the lock is still owed after the step: until one is taken,
      or the outermost unlock asks for it. */
  function OwedAfter(k: Kernel, a: Action, owed: bool): bool {
    if a.Switch? then Deferred(k) else if a.SchedUnlock? && k.schedLock == 1 then false else owed
  }

  ghost function Owed(k: Kernel, acts: seq<Action>, owed: bool): bool
    requires Legal(k, acts)
    decreases |acts|
  {
    if acts == [] then owed else Owed(Apply(k, acts[0]), acts[1..], OwedAfter(k, acts[0], owed))
  }

  lemma AttemptKeepsPending(k: Kernel, req: Request)
    requires Known(k, req)
    ensures Attempt(k, req).pending == k.pending
  {
    if req.SendReq? || req.RecvReq? { QueueKeepsPending(k, req); }
    else if req.LockReq? || req.SemReq? || req.SleepReq? { LocksKeepPending(k, req); }
  }

  lemma QueueKeepsPending(k: Kernel, req: Request)
    requires Known(k, req) && (req.SendReq? || req.RecvReq?)
    ensures Attempt(k, req).pending == k.pending
  {
  }

  lemma LocksKeepPending(k: Kernel, req: Request)
    requires Known(k, req) && (req.LockReq? || req.SemReq? || req.SleepReq?)
    ensures Attempt(k, req).pending == k.pending
  {
  }

  lemma ContinueKeepsPending(k: Kernel, req: Request)
    requires Known(k, req)
    ensures Continue(k, req).pending == k.pending
  {
  }

  lemma PendingStep(k: Kernel, a: Action)
    requires Enabled(k, a)
    ensures Apply(k, a).pending == OwedAfter(k, a, k.pending)
  {
    if a.Invoke? { AttemptKeepsPending(k, a.req); }
    else if a.Retry? { AttemptKeepsPending(k, CallOf(k, k.current).req); }
    else if a.Resume? { ContinueKeepsPending(k, CallOf(k, k.current).req); }
  }

  lemma {:induction false} PendingRun(k: Kernel, acts: seq<Action>)
    requires Legal(k, acts)
    ensures Run(k, acts).pending == Owed(k, acts, k.pending)
    decreases |acts|
  {
    if acts != [] {
      PendingStep(k, acts[0]);
      PendingRun(Apply(k, acts[0]), acts[1..]);
    }
  }

  /** Over every run an unlock asks for a switch if and only if it is the outermost one and a
      switch that the lock deferred has not been taken since. */
  lemma UnlockAsksIffOwed(k: Kernel, acts: seq<Action>)
    requires Legal(k, acts) && !k.pending
    ensures var r := Run(k, acts);
            SchedSpec.Unlocked(SchedSpec.Lock(r.schedLock, r.pending)).1 <==> r.schedLock == 1 && Owed(k, acts, false)
  {
    PendingRun(k, acts);
  }
}
