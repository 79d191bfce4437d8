/** The deferred-work queue, run on the kernel: submitters enqueue and notify in two
    separate steps, anything may happen in between, and still no item is stranded. */
module WorkRuns {
  import opened Base
  import opened Kernel
  import opened Separation
  import opened Effects
  import NotifyRuns
  import Roles
  import Inheritance
  import Runs
  import Steady

  datatype Item = Item(handler: nat, arg: uint32)

  /** Where the worker's endless loop stands. `Asleep` lasts until the second region of
      the notification wait has run. */
  datatype Phase = AtWait | Asleep | Draining | Handling(item: Item)

  /** `between` counts the submitters that have enqueued and not notified yet. `accepted`,
      `executed` and `rejected` are the history. */
  datatype System = System(
    k: Kernel, worker: Tid, length: nat,
    ring: seq<Item>, dropCount: uint32, phase: Phase, between: nat,
    accepted: seq<Item>, executed: seq<Item>, rejected: nat)

  datatype Step =
    | Does(a: Action)
    | Submit(item: Option<Item>)
    | Announce
    | Pop
    | Finish

  const AllBits: Flags := set b: Bit | 0 <= b < 32

  /** The worker's call of `rtos_task_notify_wait`. */
  const WaitReq: Request := NotifyReq({}, AllBits, TIMEOUT_FOREVER)

  /** The worker runs its own program; a handler may do anything but exit. */
  predicate Follows(phase: Phase, a: Action) {
    && !a.Exit?
    && (phase == AtWait ==> a.Invoke? ==> a.req == WaitReq)
    && (phase == Draining ==> !a.Invoke?)
  }

  /** The worker is running and outside every kernel call. */
  predicate WorkerFree(s: System) {
    s.k.current == s.worker && AtLarge(s.k)
  }

  predicate Can(s: System, st: Step) {
    match st
    case Does(a) => Enabled(s.k, a) && (s.k.current == s.worker ==> Follows(s.phase, a))
    case Submit(_) => true
    case Announce => s.between > 0
    case Pop => WorkerFree(s) && s.phase == Draining
    case Finish => WorkerFree(s) && s.phase.Handling?
  }

  /** The worker's phase after a kernel step. */
  function NextPhase(s: System, a: Action): Phase
    requires Enabled(s.k, a)
  {
    if s.k.current != s.worker then s.phase
    else if s.phase == AtWait && a.Invoke? then
      if CallOf(Apply(s.k, a), s.worker) == Free then Draining else Asleep
    else if s.phase == Asleep && a.Resume? then Draining
    else s.phase
  }

  function Next(s: System, st: Step): System
    requires Can(s, st)
  {
    match st
    case Does(a) => s.(k := Apply(s.k, a), phase := NextPhase(s, a))
    case Submit(None) => s
    case Submit(Some(item)) =>
      if |s.ring| >= s.length then s.(dropCount := (s.dropCount + 1) % 0x1_0000_0000, rejected := s.rejected + 1)
      else s.(ring := s.ring + [item], accepted := s.accepted + [item], between := s.between + 1)
    case Announce => s.(k := DoNotify(s.k, s.worker, {0}), between := s.between - 1)
    case Pop =>
      if s.ring == [] then s.(phase := AtWait)
      else s.(ring := s.ring[1..], phase := Handling(s.ring[0]))
    case Finish => s.(phase := Draining, executed := s.executed + [s.phase.item])
  }

  function InHand(p: Phase): seq<Item> {
    if p.Handling? then [p.item] else []
  }

  /** Accepted items run once each, in the order of submission; the others are counted. */
  ghost predicate Accounted(s: System) {
    && s.accepted == s.executed + InHand(s.phase) + s.ring
    && |s.ring| <= s.length
    && s.dropCount == s.rejected % 0x1_0000_0000
  }

  /** The worker is where its phase says, and it goes to sleep on a nonempty ring only while
      some submitter is still going to notify it. */
  ghost predicate Attended(s: System) {
    var c, call := Get(s.k.tasks, s.worker), CallOf(s.k, s.worker);
    && NotifyRuns.NoteOk(c) && c.state != Stopped
    && match s.phase
       case AtWait => call == Free && (s.ring != [] ==> c.notifyPending || s.between > 0)
       case Asleep => call == Waiting(WaitReq) && (c.state == Blocked && s.ring != [] ==> s.between > 0)
       case Draining => call == Free
       case Handling(_) => true
  }

  ghost predicate WorkOk(s: System) {
    Sep(s.k) && s.worker < |s.k.tasks| && Accounted(s) && Attended(s)
  }

  // ---------- Kernel steps of others ----------

  lemma CallStays(w: Waits, v: Waits, e: Effect, i: Tid)
    requires Has(w, v, e)
    requires e.EMovesOn? || e.EWakesAndReturns? || e.EParksIn? || e.EParksAlone? || e.EUnlinks? ==> e.t != i
    ensures CallAt(v.calls, i) == CallAt(w.calls, i)
  {
  }

  predicate OwnRegion(a: Action) {
    a.Invoke? || a.Retry? || a.Resume?
  }

  lemma EffectIsCurrents(k: Kernel, a: Action)
    requires Enabled(k, a)
    ensures var e := EffectOf(k, a);
            (e.EMovesOn? || e.EWakesAndReturns? || e.EParksIn? || e.EParksAlone? || e.EUnlinks?) ==> e.t == k.current && OwnRegion(a)
  {
  }

  lemma CallKept(k: Kernel, a: Action, i: Tid)
    requires Sep(k) && Enabled(k, a) && (k.current == i ==> !OwnRegion(a))
    ensures CallOf(Apply(k, a), i) == CallOf(k, i)
  {
    ActionHasEffect(k, a);
    EffectIsCurrents(k, a);
    CallStays(WaitsOf(k), WaitsOf(Apply(k, a)), EffectOf(k, a), i);
  }

  // ---------- The notification word of the worker ----------

  lemma WaitNote(k: Kernel, req: Request, t: Tid)
    requires req.NotifyReq? && k.current < |k.tasks| && Get(k.tasks, k.current).state == Running && NotifyRuns.NoteOk(Get(k.tasks, t))
    ensures NotifyRuns.NoteOk(Get(TryNotifyWait(k, req).tasks, t)) && NotifyRuns.NoteOk(Get(EndNotifyWait(k, req).tasks, t))
    ensures t != k.current ==> Get(TryNotifyWait(k, req).tasks, t) == Get(k.tasks, t) && Get(EndNotifyWait(k, req).tasks, t) == Get(k.tasks, t)
  {
    if t == k.current {
      NotifyRuns.WaitOne(Get(k.tasks, t), req.clearEntry, req.clearExit, req.timeout);
      NotifyRuns.ResumeOne(Get(k.tasks, t), req.clearExit);
    }
  }

  lemma NotifyNote(k: Kernel, to: Tid, bits: Flags, t: Tid)
    requires Sep(k) && NotifyRuns.NoteOk(Get(k.tasks, t))
    ensures var c, d := Get(k.tasks, t), Get(DoNotify(k, to, bits).tasks, t);
            && NotifyRuns.NoteOk(d) && (c.notifyPending ==> d.notifyPending) && (d.state == Blocked ==> c.state == Blocked)
            && (to == t && bits != {} && to < |k.tasks| ==> d.notifyPending && !(d.state == Blocked && d.waitType == WaitNotification))
  {
  }

  // ---------- The steps ----------

  lemma SubmitOk(s: System, item: Option<Item>)
    requires WorkOk(s)
    ensures WorkOk(Next(s, Submit(item)))
  {
  }

  lemma AnnounceOk(s: System)
    requires WorkOk(s) && s.between > 0
    ensures WorkOk(Next(s, Announce))
  {
    var k' := DoNotify(s.k, s.worker, {0});
    SepStep(s.k, Notify(s.worker, {0}));
    NotifyNote(s.k, s.worker, {0}, s.worker);
    assert Coherent(Get(k'.tasks, s.worker), CallOf(k', s.worker));
  }

  lemma PopOk(s: System)
    requires WorkOk(s) && Can(s, Pop)
    ensures WorkOk(Next(s, Pop))
  {
  }

  lemma FinishOk(s: System)
    requires WorkOk(s) && Can(s, Finish)
    ensures WorkOk(Next(s, Finish))
  {
  }

  lemma WaitEnters(k: Kernel, t: Tid)
    requires k.current == t && t < |k.tasks| && |k.calls| == |k.tasks| && Get(k.tasks, t).state == Running
    ensures var k' := TryNotifyWait(k, WaitReq);
            && Get(k'.tasks, t).state != Stopped
            && CallOf(k', t) == if Get(k.tasks, t).notifyPending then Free else Waiting(WaitReq)
  {
  }

  /** The worker enters the notification wait: it sleeps only with nothing pending. */
  lemma EnterWaitOk(s: System)
    requires WorkOk(s) && s.k.current == s.worker && s.phase == AtWait && Enabled(s.k, Invoke(WaitReq))
    ensures WorkOk(Next(s, Does(Invoke(WaitReq))))
  {
    SepStep(s.k, Invoke(WaitReq));
    WaitNote(s.k, WaitReq, s.worker);
    WaitEnters(s.k, s.worker);
    assert Apply(s.k, Invoke(WaitReq)) == TryNotifyWait(s.k, WaitReq);
  }

  lemma LeaveWaitOk(s: System)
    requires WorkOk(s) && s.k.current == s.worker && s.phase == Asleep && Enabled(s.k, Resume)
    ensures WorkOk(Next(s, Does(Resume)))
  {
    SepStep(s.k, Resume);
    WaitNote(s.k, WaitReq, s.worker);
    assert Apply(s.k, Resume) == EndNotifyWait(s.k, WaitReq);
  }

  /** What a step that is not the worker's own region does to the worker. */
  ghost predicate WorkerKept(k: Kernel, k': Kernel, t: Tid) {
    var c, d := Get(k.tasks, t), Get(k'.tasks, t);
    && CallOf(k', t) == CallOf(k, t) && NotifyRuns.NoteOk(d) && (c.notifyPending ==> d.notifyPending)
    && (d.state == Blocked && d.waitType == WaitNotification ==> c.state == Blocked)
  }

  lemma WaitKeepsWorker(k: Kernel, req: Request, t: Tid)
    requires req.NotifyReq? && t != k.current && NotifyRuns.NoteOk(Get(k.tasks, t))
    ensures WorkerKept(k, TryNotifyWait(k, req), t)
  {
  }

  lemma EndWaitKeepsWorker(k: Kernel, req: Request, t: Tid)
    requires req.NotifyReq? && t != k.current && NotifyRuns.NoteOk(Get(k.tasks, t))
    ensures WorkerKept(k, EndNotifyWait(k, req), t)
  {
  }

  lemma OthersKeepWorker(k: Kernel, a: Action, t: Tid)
    requires Sep(k) && Enabled(k, a) && NotifyRuns.NoteOk(Get(k.tasks, t)) && Get(k.tasks, t).state != Stopped
    requires k.current == t ==> !OwnRegion(a)
    ensures WorkerKept(k, Apply(k, a), t)
  {
    if a.Retry? { RetriesLoop(k); }
    if Roles.Concerns(k, a) != Some(Roles.NoteObj) {
      SpareKeepsWorker(k, a, t);
    } else if a.Notify? {
      NotifyNote(k, a.t, a.bits, t);
    } else {
      OtherWaitKeepsWorker(k, a, t);
    }
  }

  lemma OtherWaitKeepsWorker(k: Kernel, a: Action, t: Tid)
    requires Enabled(k, a) && NotifyRuns.NoteOk(Get(k.tasks, t)) && k.current != t
    requires Roles.Concerns(k, a) == Some(Roles.NoteObj) && !a.Notify? && !a.Retry?
    ensures WorkerKept(k, Apply(k, a), t)
  {
    if a.Invoke? { WaitKeepsWorker(k, a.req, t); } else { EndWaitKeepsWorker(k, CallOf(k, k.current).req, t); }
  }

  lemma SpareKeepsWorker(k: Kernel, a: Action, t: Tid)
    requires Sep(k) && Enabled(k, a) && NotifyRuns.NoteOk(Get(k.tasks, t)) && Get(k.tasks, t).state != Stopped
    requires (k.current == t ==> !OwnRegion(a)) && Roles.Concerns(k, a) != Some(Roles.NoteObj)
    ensures WorkerKept(k, Apply(k, a), t)
  {
    CallKept(k, a, t);
    NotifyRuns.OtherKeepsNotes(k, a, t);
  }

  lemma KeptOk(s: System, s': System)
    requires WorkOk(s) && s' == s.(k := s'.k) && Sep(s'.k) && WorkerKept(s.k, s'.k, s.worker) && |s'.k.tasks| >= |s.k.tasks|
    requires !s.phase.Handling? && Get(s'.k.tasks, s.worker).state != Stopped
    ensures WorkOk(s')
  {
  }

  /** Inside a handler only the notification word matters. */
  lemma NoteStep(k: Kernel, a: Action, t: Tid)
    requires Sep(k) && Enabled(k, a) && NotifyRuns.NoteOk(Get(k.tasks, t)) && Get(k.tasks, t).state != Stopped
    ensures NotifyRuns.NoteOk(Get(Apply(k, a).tasks, t))
  {
    if a.Retry? { RetriesLoop(k); }
    if Roles.Concerns(k, a) != Some(Roles.NoteObj) {
      NoteSpared(k, a, t);
    } else if k.current != t || !OwnRegion(a) {
      OthersKeepWorker(k, a, t);
    } else {
      OwnNote(k, a);
    }
  }

  lemma OwnNote(k: Kernel, a: Action)
    requires Enabled(k, a) && NotifyRuns.NoteOk(Get(k.tasks, k.current))
    requires Roles.Concerns(k, a) == Some(Roles.NoteObj) && (a.Invoke? || a.Resume?)
    ensures NotifyRuns.NoteOk(Get(Apply(k, a).tasks, k.current))
  {
    if a.Invoke? { NoteInvoke(k, a.req); } else { NoteResume(k); }
  }

  lemma NoteInvoke(k: Kernel, req: Request)
    requires Enabled(k, Invoke(req)) && req.NotifyReq? && NotifyRuns.NoteOk(Get(k.tasks, k.current))
    ensures NotifyRuns.NoteOk(Get(Apply(k, Invoke(req)).tasks, k.current))
  {
  }

  lemma NoteResume(k: Kernel)
    requires Enabled(k, Resume) && CallOf(k, k.current).req.NotifyReq? && NotifyRuns.NoteOk(Get(k.tasks, k.current))
    ensures NotifyRuns.NoteOk(Get(Apply(k, Resume).tasks, k.current))
  {
  }

  lemma NoteSpared(k: Kernel, a: Action, t: Tid)
    requires Enabled(k, a) && NotifyRuns.NoteOk(Get(k.tasks, t)) && Get(k.tasks, t).state != Stopped
    requires Roles.Concerns(k, a) != Some(Roles.NoteObj)
    ensures NotifyRuns.NoteOk(Get(Apply(k, a).tasks, t))
  {
    NotifyRuns.OtherKeepsNotes(k, a, t);
  }

  lemma TasksStay(k: Kernel, a: Action)
    requires Sep(k) && Enabled(k, a)
    ensures |Apply(k, a).tasks| >= |k.tasks|
  {
    if a.Create? {
      Inheritance.CreateKeepsPriorities(k, a.priority, 0);
    } else if !a.Switch? && !a.Exit? {
      Steady.ActionSteady(k, a);
    }
  }

  lemma DoesOk(s: System, a: Action)
    requires WorkOk(s) && Can(s, Does(a))
    ensures WorkOk(Next(s, Does(a)))
  {
    var k' := Apply(s.k, a);
    SepStep(s.k, a);
    TasksStay(s.k, a);
    Runs.NotStopped(s.k, a, s.worker);
    if s.phase.Handling? {
      NoteStep(s.k, a, s.worker);
    } else if s.k.current == s.worker && OwnRegion(a) {
      OwnRegionOk(s, a);
    } else {
      OthersKeepWorker(s.k, a, s.worker);
      KeptOk(s, s.(k := k'));
    }
  }

  lemma OwnRegionOk(s: System, a: Action)
    requires WorkOk(s) && Can(s, Does(a)) && s.k.current == s.worker && OwnRegion(a) && !s.phase.Handling?
    ensures WorkOk(Next(s, Does(a)))
  {
    if a.Invoke? {
      EnterWaitOk(s);
    } else {
      LeaveWaitOk(s);
    }
  }

  lemma WorkStep(s: System, st: Step)
    requires WorkOk(s) && Can(s, st)
    ensures WorkOk(Next(s, st))
  {
    if st.Does? { DoesOk(s, st.a); }
    else if st.Submit? { SubmitOk(s, st.item); }
    else if st.Announce? { AnnounceOk(s); }
    else if st.Pop? { PopOk(s); }
    else { FinishOk(s); }
  }

  // ---------- Whole runs ----------

  ghost predicate Allowed(s: System, steps: seq<Step>)
    decreases |steps|
  {
    steps == [] || (Can(s, steps[0]) && Allowed(Next(s, steps[0]), steps[1..]))
  }

  ghost function After(s: System, steps: seq<Step>): System
    requires Allowed(s, steps)
    decreases |steps|
  {
    if steps == [] then s else After(Next(s, steps[0]), steps[1..])
  }

  /** The state `rtos_work_init` leaves: an empty ring and the worker about to wait. */
  ghost predicate Fresh(s: System) {
    && Init(s.k) && s.worker < |s.k.tasks|
    && s.ring == [] && s.dropCount == 0 && s.phase == AtWait && s.between == 0
    && s.accepted == [] && s.executed == [] && s.rejected == 0
  }

  lemma {:induction false} WorkRun(s: System, steps: seq<Step>)
    requires WorkOk(s) && Allowed(s, steps)
    ensures WorkOk(After(s, steps)) && After(s, steps).worker == s.worker
    decreases |steps|
  {
    if steps != [] {
      WorkStep(s, steps[0]);
      WorkRun(Next(s, steps[0]), steps[1..]);
    }
  }

  /** Deferred work is never stranded: the worker sleeps on a nonempty ring only while some
      submitter sits between its enqueue and its notify; and every accepted item has run,
      is running or is in the ring, in submission order, once. */
  lemma WorkIsNeverStranded(s: System, steps: seq<Step>)
    requires Fresh(s) && Allowed(s, steps)
    ensures var r := After(s, steps);
            && (r.phase == Asleep && Get(r.k.tasks, r.worker).state == Blocked && r.ring != [] ==> r.between > 0)
            && r.accepted == r.executed + InHand(r.phase) + r.ring
            && |r.ring| <= r.length && r.dropCount == r.rejected % 0x1_0000_0000
  {
    Runs.InitSep(s.k);
    WorkRun(s, steps);
  }

  /** Over every run a submission is accepted if and only if fewer items than the ring holds
      were accepted and not yet begun; else it is counted as rejected. */
  lemma SubmitOkIff(s: System, steps: seq<Step>, item: Item)
    requires Fresh(s) && Allowed(s, steps)
    ensures var r := After(s, steps); var n := Next(r, Submit(Some(item)));
            if |r.accepted| < |r.executed| + |InHand(r.phase)| + s.length then
              n.accepted == r.accepted + [item] && n.rejected == r.rejected && n.between == r.between + 1
            else n.accepted == r.accepted && n.rejected == r.rejected + 1 && n.between == r.between
  {
    Runs.InitSep(s.k);
    WorkRun(s, steps);
    LengthKept(s, steps);
  }

  lemma {:induction false} LengthKept(s: System, steps: seq<Step>)
    requires Allowed(s, steps)
    ensures After(s, steps).length == s.length
    decreases |steps|
  {
    if steps != [] {
      LengthKept(Next(s, steps[0]), steps[1..]);
    }
  }
}
