/** How a blocking call ends: by a grant or by its timeout, never both, and the timeout
    exactly when its ticks have passed. */
module Timing {
  import opened Base
  import opened WaitQueue
  import opened Kernel
  import opened Separation
  import opened Effects
  import NotifySpec
  import TaskSpec

  /** The fate of a parked call, read from the control block of its task. */
  datatype Fate = Asleep | Granted | Expired

  function FateOf(c: Tcb): Fate {
    if c.state == Blocked then Asleep else if c.result == Timeout then Expired else Granted
  }

  /** Task `x` itself runs the second region of its call. */
  predicate Resumes(k: Kernel, a: Action, x: Tid) {
    a.Resume? && k.current == x
  }

  // ---------- What other steps do to a waiting task ----------

  /** An effect that is not `x`'s own leaves a settled call as it is, whatever is posted,
      freed, set, sent or unlocked meanwhile. */
  lemma SettledUnder(w: Waits, v: Waits, e: Effect, x: Tid)
    requires Separated(w) && Has(w, v, e) && CallAt(w.calls, x).Waiting? && Get(w.ts, x).state != Blocked
    requires (e.EMovesOn? || e.EUnlinks?) ==> e.t != x
    ensures CallAt(v.calls, x) == CallAt(w.calls, x) && Same(Get(w.ts, x), Get(v.ts, x))
  {
  }

  lemma EffectIsOwn(k: Kernel, a: Action, x: Tid)
    requires Sep(k) && Enabled(k, a) && CallOf(k, x).Waiting? && !Resumes(k, a, x)
    ensures (EffectOf(k, a).EMovesOn? || EffectOf(k, a).EUnlinks?) ==> EffectOf(k, a).t != x
  {
  }

  /** Once decided, the outcome of a blocking call stays as it is until its task runs. */
  lemma SettledStep(k: Kernel, a: Action, x: Tid)
    requires Sep(k) && Enabled(k, a) && CallOf(k, x).Waiting? && Get(k.tasks, x).state != Blocked && !Resumes(k, a, x)
    ensures CallOf(Apply(k, a), x) == CallOf(k, x) && Same(Get(k.tasks, x), Get(Apply(k, a).tasks, x))
  {
    ActionHasEffect(k, a);
    EffectIsOwn(k, a, x);
    SettledUnder(WaitsOf(k), WaitsOf(Apply(k, a)), EffectOf(k, a), x);
  }

  /** Released in time. */
  predicate IsGrant(c: Tcb, d: Tcb) {
    c.state == Blocked && d.state == Ready && d.result == Status.Ok && d.delay == 0
  }

  lemma AsleepUnder(w: Waits, v: Waits, e: Effect, x: Tid)
    requires Separated(w) && Has(w, v, e) && CallAt(w.calls, x).Waiting? && Get(w.ts, x).state == Blocked && !e.EDrift?
    ensures CallAt(v.calls, x) == CallAt(w.calls, x)
    ensures Same(Get(w.ts, x), Get(v.ts, x)) || IsGrant(Get(w.ts, x), Get(v.ts, x))
  {
  }

  lemma NotifyAsleep(c: Tcb, bits: Flags)
    requires c.state == Blocked
    ensures Same(c, NotifySpec.Notify(c, bits).0) || IsGrant(c, NotifySpec.Notify(c, bits).0)
  {
  }

  lemma TaskActionAsleep(k: Kernel, a: Action, x: Tid)
    requires Sep(k) && Enabled(k, a) && Get(k.tasks, x).state == Blocked && (a.Switch? || a.Notify? || a.Create? || a.Exit?)
    ensures CallOf(Apply(k, a), x) == CallOf(k, x)
    ensures Same(Get(k.tasks, x), Get(Apply(k, a).tasks, x)) || IsGrant(Get(k.tasks, x), Get(Apply(k, a).tasks, x))
  {
    if a.Switch? {
      SwitchKeepsWaits(SchedView(k), x);
    } else if a.Notify? {
      NotifyAsleep(Get(k.tasks, x), a.bits);
    } else if a.Create? {
      CreateAsleep(k, a.priority, x);
    } else {
      ExitAsleep(k, x);
    }
  }

  lemma CreateAsleep(k: Kernel, priority: uint32, x: Tid)
    requires Get(k.tasks, x).state == Blocked && |k.calls| == |k.tasks|
    ensures CallOf(CreateTask(k, priority), x) == CallOf(k, x) && Get(CreateTask(k, priority).tasks, x) == Get(k.tasks, x)
  {
  }

  lemma ExitAsleep(k: Kernel, x: Tid)
    requires AtLarge(k) && Get(k.tasks, x).state == Blocked
    ensures CallOf(Apply(k, Exit), x) == CallOf(k, x) && Get(Apply(k, Exit).tasks, x) == Get(k.tasks, x)
  {
  }

  lemma RefusedSendUntouched(k: Kernel, q: nat, value: uint32)
    requires q in k.queues && |k.queues[q].contents| >= k.queues[q].capacity
    ensures SendFromIsr(k, q, value).tasks == k.tasks && SendFromIsr(k, q, value).calls == k.calls
  {
  }

  /** Of the regions, only an unlock and a send from an interrupt that wake nobody are left. */
  lemma DriftIs(k: Kernel, a: Action)
    requires Enabled(k, a) && EffectOf(k, a).EDrift?
    ensures (a.SendIsr? ==> |k.queues[a.q].contents| >= k.queues[a.q].capacity) && (a.Unlock? ==> !Releases(k, a.m))
    ensures !(a.Tick? || a.Switch? || a.Notify? || a.Create? || a.Exit?) ==>
              a.SendIsr? || a.Unlock? || a.SchedLock? || a.SchedUnlock? || a.ClearFlags?
  {
  }

  lemma UnlockUntouched(k: Kernel, m: nat)
    requires m in k.mutexes && !Releases(k, m)
    ensures DoUnlock(k, m).tasks == k.tasks && DoUnlock(k, m).calls == k.calls
  {
  }

  /** Apart from a tick, a step leaves a blocked task blocked, its remaining ticks
      included, or releases it with RTOS_OK. */
  lemma AsleepStep(k: Kernel, a: Action, x: Tid)
    requires Sep(k) && Enabled(k, a) && CallOf(k, x).Waiting? && Get(k.tasks, x).state == Blocked && !a.Tick?
    ensures CallOf(Apply(k, a), x) == CallOf(k, x)
    ensures Same(Get(k.tasks, x), Get(Apply(k, a).tasks, x)) || IsGrant(Get(k.tasks, x), Get(Apply(k, a).tasks, x))
  {
    if !EffectOf(k, a).EDrift? {
      ActionHasEffect(k, a);
      AsleepUnder(WaitsOf(k), WaitsOf(Apply(k, a)), EffectOf(k, a), x);
    } else if a.Switch? || a.Notify? || a.Create? || a.Exit? {
      TaskActionAsleep(k, a, x);
    } else {
      DriftIs(k, a);
      if a.Unlock? { UnlockUntouched(k, a.m); } else if a.SendIsr? { RefusedSendUntouched(k, a.q, a.value); }
    }
  }

  // ---------- Exact timing ----------

  /** `n` ticks after a call parked with `d` ticks to wait, 0 meaning for ever. */
  ghost predicate OnTime(c: Tcb, d: uint32, n: nat) {
    match FateOf(c)
    case Asleep => if d == 0 then c.delay == 0 else n < d && c.delay == d - n
    case Expired => d >= 1 && n >= d
    case Granted => true
  }

  lemma TickOnTime(c: Tcb, d: uint32, n: nat)
    requires OnTime(c, d, n) && (c.state == Blocked ==> c.result == Status.Ok)
    ensures OnTime(TaskSpec.TickOne(c), d, n + 1)
  {
  }

  /** The call of `x` is still the one that parked it, and it is on time. */
  ghost predicate Underway(k: Kernel, x: Tid, r: Request, d: uint32, n: nat) {
    CallOf(k, x) == Waiting(r) && OnTime(Get(k.tasks, x), d, n)
  }

  lemma OnTimeStep(k: Kernel, a: Action, x: Tid, r: Request, d: uint32, n: nat)
    requires Sep(k) && Enabled(k, a) && Underway(k, x, r, d, n) && !Resumes(k, a, x)
    ensures Underway(Apply(k, a), x, r, d, if a.Tick? then n + 1 else n)
  {
    if a.Tick? {
      assert Coherent(Get(k.tasks, x), CallOf(k, x));
      TickOnTime(Get(k.tasks, x), d, n);
    } else if Get(k.tasks, x).state == Blocked {
      AsleepStep(k, a, x);
    } else {
      SettledStep(k, a, x);
    }
  }

  function Ticks(acts: seq<Action>): nat {
    if acts == [] then 0 else (if acts[0].Tick? then 1 else 0) + Ticks(acts[1..])
  }

  /** `x` does not get to its second region during the run. */
  ghost predicate StaysAway(k: Kernel, acts: seq<Action>, x: Tid)
    requires Legal(k, acts)
    decreases |acts|
  {
    acts == [] || (!Resumes(k, acts[0], x) && StaysAway(Apply(k, acts[0]), acts[1..], x))
  }

  lemma {:induction false} OnTimeRun(k: Kernel, acts: seq<Action>, x: Tid, r: Request, d: uint32, n: nat)
    requires Sep(k) && Legal(k, acts) && StaysAway(k, acts, x) && Underway(k, x, r, d, n)
    ensures Underway(Run(k, acts), x, r, d, n + Ticks(acts))
    decreases |acts|
  {
    if acts != [] {
      var a := acts[0];
      SepStep(k, a);
      OnTimeStep(k, a, x, r, d, n);
      OnTimeRun(Apply(k, a), acts[1..], x, r, d, if a.Tick? then n + 1 else n);
    }
  }

  lemma ParkBlocks(w: Waits, k: Kernel, e: Effect)
    requires Separated(w) && Has(w, WaitsOf(k), e) && (e.EParksIn? || e.EParksAlone?)
    ensures Sep(k) && Underway(k, e.t, e.r, MsToTicks(Milliseconds(e.r)), 0)
  {
    EffectKeeps(w, WaitsOf(k), e);
    MsToTicksZero(Milliseconds(e.r));
  }

  lemma ParksItself(k: Kernel, req: Request)
    requires Known(k, req) && (AttemptEffect(k, req).EParksIn? || AttemptEffect(k, req).EParksAlone?)
    ensures AttemptEffect(k, req).t == k.current && AttemptEffect(k, req).r == req
  {
  }

  lemma ParkIsUnderway(k: Kernel, req: Request)
    requires Attempting(k, req) && (AttemptEffect(k, req).EParksIn? || AttemptEffect(k, req).EParksAlone?)
    ensures Sep(Attempt(k, req)) && Underway(Attempt(k, req), k.current, req, MsToTicks(Milliseconds(req)), 0)
  {
    AttemptParks(k, req);
    ParksItself(k, req);
    ParkBlocks(WaitsOf(k), Attempt(k, req), AttemptEffect(k, req));
  }

  /** A blocking call parks with the ticks of its timeout, and from then on, over every
      run, it has timed out only if at least that many ticks passed, and is still blocked
      only if fewer did; without a timeout it never expires. */
  lemma BlockingCallIsOnTime(k: Kernel, req: Request, acts: seq<Action>)
    requires Attempting(k, req) && (AttemptEffect(k, req).EParksIn? || AttemptEffect(k, req).EParksAlone?)
    requires Legal(Attempt(k, req), acts) && StaysAway(Attempt(k, req), acts, k.current)
    ensures var d := MsToTicks(Milliseconds(req)); var c := Get(Run(Attempt(k, req), acts).tasks, k.current);
            && CallOf(Run(Attempt(k, req), acts), k.current) == Waiting(req)
            && (FateOf(c) == Expired ==> Ticks(acts) >= d)
            && (FateOf(c) == Asleep ==> Ticks(acts) < d || Milliseconds(req) == TIMEOUT_FOREVER)
            && (Milliseconds(req) == TIMEOUT_FOREVER ==> FateOf(c) != Expired)
  {
    ParkIsUnderway(k, req);
    MsToTicksZero(Milliseconds(req));
    OnTimeRun(Attempt(k, req), acts, k.current, req, MsToTicks(Milliseconds(req)), 0);
  }

  // ---------- One outcome per call ----------

  /** The outcome once reached is the outcome the task finds, over every run. */
  lemma {:induction false} FateIsFinal(k: Kernel, acts: seq<Action>, x: Tid)
    requires Sep(k) && Legal(k, acts) && StaysAway(k, acts, x) && CallOf(k, x).Waiting? && FateOf(Get(k.tasks, x)) != Asleep
    ensures var k' := Run(k, acts);
            CallOf(k', x) == CallOf(k, x) && FateOf(Get(k'.tasks, x)) == FateOf(Get(k.tasks, x))
    ensures var c, d := Get(k.tasks, x), Get(Run(k, acts).tasks, x);
            d.flagsResult == c.flagsResult && d.objectResult == c.objectResult
    decreases |acts|
  {
    if acts != [] {
      SepStep(k, acts[0]);
      SettledStep(k, acts[0], x);
      FateIsFinal(Apply(k, acts[0]), acts[1..], x);
    }
  }

  function StatusLogged(ev: Event): Status {
    match ev
    case Sent(_, _, st) => st
    case Received(_, _, st) => st
    case Locked(_, _, st) => st
    case Unlocked(_, _, st) => st
    case Waited(_, st) => st
    case Posted(_, st) => st
    case Flagged(_, _, st) => st
    case Allocated(_, _, st) => st
    case Freed(_, _) => Status.Ok
    case Slept(_) => Status.Ok
    case Notified(_, _, st) => st
    case Taken(_, _, _, st) => st
  }

  /** What the second region makes of the outcome: an expired call returns the timeout, a
      granted one returns RTOS_OK or goes round its loop. */
  predicate Reports(k: Kernel, k': Kernel, x: Tid, f: Fate) {
    if f == Expired then
      CallOf(k', x) == Free && |k'.log| == |k.log| + 1 && k'.log[..|k.log|] == k.log && StatusLogged(k'.log[|k.log|]) == Timeout
    else
      || (CallOf(k', x).Retrying? && k'.log == k.log)
      || (CallOf(k', x) == Free && |k'.log| == |k.log| + 1 && k'.log[..|k.log|] == k.log && StatusLogged(k'.log[|k.log|]) == Status.Ok)
  }

  lemma ResumeReports(k: Kernel, req: Request)
    requires Continuing(k, req) && !req.SleepReq?
    ensures Reports(k, Continue(k, req), k.current, FateOf(Get(k.tasks, k.current)))
  {
    assert Coherent(Get(k.tasks, k.current), CallOf(k, k.current));
    if req.SendReq? { SendReports(k, req); }
    else if req.RecvReq? { RecvReports(k, req); }
    else if req.LockReq? { LockReports(k, req); }
    else if req.SemReq? { SemReports(k, req); }
    else if req.EventReq? { EventReports(k, req); }
    else if req.AllocReq? { AllocReports(k, req); }
    else { NotifyReports(k, req); }
  }

  lemma SendReports(k: Kernel, req: Request)
    requires Continuing(k, req) && req.SendReq?
    ensures Reports(k, EndSend(k, req), k.current, FateOf(Get(k.tasks, k.current)))
  {
  }

  lemma RecvReports(k: Kernel, req: Request)
    requires Continuing(k, req) && req.RecvReq?
    ensures Reports(k, EndRecv(k, req), k.current, FateOf(Get(k.tasks, k.current)))
  {
  }

  lemma LockReports(k: Kernel, req: Request)
    requires Continuing(k, req) && req.LockReq?
    ensures Reports(k, EndLock(k, req), k.current, FateOf(Get(k.tasks, k.current)))
  {
  }

  lemma SemReports(k: Kernel, req: Request)
    requires Continuing(k, req) && req.SemReq?
    ensures Reports(k, EndSem(k, req), k.current, FateOf(Get(k.tasks, k.current)))
  {
  }

  lemma EventReports(k: Kernel, req: Request)
    requires Continuing(k, req) && req.EventReq?
    ensures Reports(k, EndEvent(k, req), k.current, FateOf(Get(k.tasks, k.current)))
  {
  }

  lemma AllocReports(k: Kernel, req: Request)
    requires Continuing(k, req) && req.AllocReq?
    ensures Reports(k, EndAlloc(k, req), k.current, FateOf(Get(k.tasks, k.current)))
  {
  }

  lemma NotifyReports(k: Kernel, req: Request)
    requires Continuing(k, req) && req.NotifyReq?
    ensures Reports(k, EndNotifyWait(k, req), k.current, FateOf(Get(k.tasks, k.current)))
  {
  }
}
