/** Task notifications over whole runs: no bit is lost, and none is made up. */
module NotifyRuns {
  import opened Base
  import opened Kernel
  import opened Separation
  import opened Effects
  import opened Roles
  import opened WaitQueue
  import opened ObjectFrame
  import opened Steady
  import opened Answers
  import NotifySpec
  import TaskSpec
  import SchedSpec

  /** Bits sent to `t` and not yet reported to it by a wait that returned OK, nor
      discarded by one that asked to clear them on entry. */
  function Owed(log: seq<Event>, t: Tid): Flags {
    if log == [] then {}
    else
      var o := Owed(log[..|log| - 1], t);
      match log[|log| - 1]
      case Notified(t', bits, st) => if t' == t && st == Status.Ok then o + bits else o
      case Taken(t', clearEntry, bits, st) => if t' == t && st == Status.Ok then o - clearEntry - bits else o
      case _ => o
  }

  /** Every bit ever sent to `t`. */
  function Given(log: seq<Event>, t: Tid): Flags {
    if log == [] then {}
    else
      var g := Given(log[..|log| - 1], t);
      match log[|log| - 1]
      case Notified(t', bits, st) => if t' == t && st == Status.Ok then g + bits else g
      case _ => g
  }

  lemma LogOne(log: seq<Event>, ev: Event, t: Tid)
    ensures Owed(log + [ev], t) ==
              if ev.Notified? && ev.t == t && ev.status == Status.Ok then Owed(log, t) + ev.bits
              else if ev.Taken? && ev.t == t && ev.status == Status.Ok then Owed(log, t) - ev.clearEntry - ev.bits
              else Owed(log, t)
    ensures Given(log + [ev], t) == Given(log, t) + if ev.Notified? && ev.t == t && ev.status == Status.Ok then ev.bits else {}
  {
  }

  /** The flag and the word agree, and a task blocked on a notification has none. */
  predicate NoteOk(c: Tcb) {
    && (c.notifyPending <==> c.notifyValue != {})
    && (c.state == Blocked && c.waitType == WaitNotification ==> c.notifyValue == {})
  }

  /** The bits still owed are in the word, and those in the word were sent. */
  ghost predicate NotifyOk(k: Kernel, t: Tid) {
    NoteOk(Get(k.tasks, t)) && Owed(k.log, t) <= Get(k.tasks, t).notifyValue <= Given(k.log, t)
  }

  // ---------- The three regions, on the task's own control block ----------

  lemma NotifyOne(c: Tcb, bits: Flags)
    requires NoteOk(c) && (c.state == Blocked ==> c.result == Status.Ok)
    ensures var (d, st) := NotifySpec.Notify(c, bits);
            && NoteOk(d) && d.notifyValue == c.notifyValue + bits && (st == Status.Ok <==> bits != {}) && (st != Status.Ok ==> d == c)
            && (d.state != c.state <==> bits != {} && c.state == Blocked && c.waitType == WaitNotification)
            && (d.state != c.state ==> d.state == Ready && d.result == Status.Ok)
  {
  }

  /** The wait succeeds at once if and only if there is something in the word; it reports all of
      that but what it asked to discard, and leaves what it did not ask to clear. Clearing on
      entry discards nothing when the call goes on to block: there was nothing. */
  lemma WaitOne(c: Tcb, clearEntry: Flags, clearExit: Flags, timeout: uint32)
    requires NoteOk(c) && c.state == Running
    ensures var (d, bits, o) := NotifySpec.Wait(c, clearEntry, clearExit, timeout);
            && NoteOk(d) && d.notifyValue <= c.notifyValue && bits <= c.notifyValue
            && c.notifyValue - d.notifyValue <= clearEntry + bits
            && (if c.notifyValue != {} then o == Returns(Status.Ok) && bits == c.notifyValue - clearEntry && d.notifyValue == bits - clearExit
                else o == (if timeout == 0 then Returns(Timeout) else Parks) && d.notifyValue == c.notifyValue && bits == {})
  {
  }

  lemma ResumeOne(c: Tcb, clearExit: Flags)
    requires NoteOk(c) && c.state == Running
    ensures var (d, bits, st) := NotifySpec.Resume(c, clearExit);
            && NoteOk(d) && d.notifyValue <= c.notifyValue && bits <= c.notifyValue
            && c.notifyValue - d.notifyValue <= bits
            && (if c.result == Timeout then st == Timeout && d.notifyValue == c.notifyValue && bits == {}
                else st == Status.Ok && bits == c.notifyValue && d.notifyValue == bits - clearExit)
  {
  }

  // ---------- The kernel step ----------

  lemma SendNotifyOk(k: Kernel, to: Tid, bits: Flags, t: Tid)
    requires Sep(k) && NotifyOk(k, t) && to < |k.tasks|
    ensures NotifyOk(DoNotify(k, to, bits), t)
  {
  }

  lemma WaitNotifyOk(k: Kernel, req: Request, t: Tid)
    requires req.NotifyReq? && k.current < |k.tasks| && Get(k.tasks, k.current).state == Running && NotifyOk(k, t)
    ensures NotifyOk(TryNotifyWait(k, req), t)
  {
    var (d, bits, o) := NotifySpec.Wait(Get(k.tasks, k.current), req.clearEntry, req.clearExit, req.timeout);
    var k' := TryNotifyWait(k, req);
    if t == k.current { WaitOne(Get(k.tasks, t), req.clearEntry, req.clearExit, req.timeout); }
    LogOne(k.log, Taken(k.current, req.clearEntry, bits, StatusOf(o)), t);
    assert k'.tasks == Put(k.tasks, k.current, d);
    assert k'.log == if o.Returns? then k.log + [Taken(k.current, req.clearEntry, bits, StatusOf(o))] else k.log;
  }

  lemma ResumeNotifyOk(k: Kernel, req: Request, t: Tid)
    requires req.NotifyReq? && k.current < |k.tasks| && Get(k.tasks, k.current).state == Running && NotifyOk(k, t)
    ensures NotifyOk(EndNotifyWait(k, req), t)
  {
  }

  /** The slot of `t` is about to be given to a new task. */
  predicate Replaces(k: Kernel, a: Action, t: Tid) {
    a.Create? && |k.tasks| >= k.maxTasks && t < |k.tasks| && TaskSpec.StoppedSlot(k.tasks) == t
  }

  lemma SwitchKeepsNotes(v: SchedSpec.View, x: Tid)
    ensures NoteSteady(Get(v.ts, x), Get(SchedSpec.ScheduleNext(v).ts, x))
  {
  }

  lemma AppendKeepsNotes(ts: seq<Tcb>, priority: uint32, t: Tid)
    ensures NoteSteady(Get(ts, t), Get(ts + [TaskSpec.NewTcb(priority)], t))
  {
  }

  lemma CreateKeepsNotes(k: Kernel, priority: uint32, t: Tid)
    requires !Replaces(k, Create(priority), t)
    ensures NoteSteady(Get(k.tasks, t), Get(CreateTask(k, priority).tasks, t))
  {
    if |k.tasks| < k.maxTasks {
      AppendKeepsNotes(k.tasks, priority, t);
    } else {
      assert Get(CreateTask(k, priority).tasks, t) == Get(k.tasks, t);
    }
  }

  lemma ExitKeepsNotes(k: Kernel, t: Tid)
    requires AtLarge(k)
    ensures NoteSteady(Get(k.tasks, t), Get(Apply(k, Exit).tasks, t))
  {
  }

  lemma OtherKeepsNotes(k: Kernel, a: Action, t: Tid)
    requires Enabled(k, a) && !Replaces(k, a, t) && Concerns(k, a) != Some(NoteObj)
    ensures NoteSteady(Get(k.tasks, t), Get(Apply(k, a).tasks, t))
  {
    if a.Switch? { SwitchKeepsNotes(SchedView(k), t); }
    else if a.Create? { CreateKeepsNotes(k, a.priority, t); }
    else if a.Exit? { ExitKeepsNotes(k, t); }
    else { ActionSteady(k, a); }
  }

  lemma SteadyNotifyOk(k: Kernel, k': Kernel, t: Tid)
    requires NotifyOk(k, t) && NoteSteady(Get(k.tasks, t), Get(k'.tasks, t)) && LogsElsewhere(k, k', NoteObj)
    ensures NotifyOk(k', t)
  {
  }

  lemma OtherNotifyOk(k: Kernel, a: Action, t: Tid)
    requires Enabled(k, a) && NotifyOk(k, t) && !Replaces(k, a, t) && Concerns(k, a) != Some(NoteObj)
    ensures NotifyOk(Apply(k, a), t)
  {
    OtherKeepsNotes(k, a, t);
    ActionApart(k, a, NoteObj);
    SteadyNotifyOk(k, Apply(k, a), t);
  }

  lemma NotifyStep(k: Kernel, a: Action, t: Tid)
    requires Sep(k) && Enabled(k, a) && NotifyOk(k, t) && !Replaces(k, a, t)
    ensures NotifyOk(Apply(k, a), t)
  {
    if a.Retry? { RetriesLoop(k); }
    if Concerns(k, a) != Some(NoteObj) {
      OtherNotifyOk(k, a, t);
    } else if a.Notify? {
      SendNotifyOk(k, a.t, a.bits, t);
    } else if a.Resume? {
      ResumeNotifyOk(k, CallOf(k, k.current).req, t);
    } else if a.Invoke? {
      WaitNotifyOk(k, a.req, t);
    }
  }

  // ---------- What a wait reports ----------

  /** A wait of `t` that returned OK reported every bit owed to it then but those it asked to
      discard, and only bits that had been sent. */
  ghost predicate Fair(log: seq<Event>, i: nat, t: Tid)
    requires i < |log|
  {
    log[i].Taken? && log[i].t == t && log[i].status == Status.Ok ==>
      Owed(log[..i], t) - log[i].clearEntry <= log[i].bits <= Given(log[..i], t)
  }

  ghost predicate AllFair(log: seq<Event>, t: Tid) {
    forall i :: 0 <= i < |log| ==> Fair(log, i, t)
  }

  lemma FairExtends(log: seq<Event>, ev: Event, t: Tid)
    requires AllFair(log, t)
    requires ev.Taken? && ev.t == t && ev.status == Status.Ok ==> Owed(log, t) - ev.clearEntry <= ev.bits <= Given(log, t)
    ensures AllFair(log + [ev], t)
  {
    forall i | 0 <= i < |log| + 1 ensures Fair(log + [ev], i, t) {
      if i < |log| {
        assert (log + [ev])[..i] == log[..i] && Fair(log, i, t);
      } else {
        assert (log + [ev])[..i] == log;
      }
    }
  }

  lemma WaitFair(k: Kernel, req: Request, t: Tid)
    requires InCall(k, req) && req.NotifyReq? && NotifyOk(k, t) && AllFair(k.log, t)
    ensures AllFair(TryNotifyWait(k, req).log, t)
  {
    NotifyWaitAnswers(k, req);
    var c := Get(k.tasks, k.current);
    FairExtends(k.log, Taken(k.current, req.clearEntry, c.notifyValue - req.clearEntry, Status.Ok), t);
    FairExtends(k.log, Taken(k.current, req.clearEntry, {}, Timeout), t);
  }

  lemma ResumeFair(k: Kernel, req: Request, t: Tid)
    requires InCall(k, req) && req.NotifyReq? && NotifyOk(k, t) && AllFair(k.log, t)
    ensures AllFair(EndNotifyWait(k, req).log, t)
  {
    EndNotifyAnswers(k, req);
    FairExtends(k.log, Taken(k.current, req.clearEntry, Get(k.tasks, k.current).notifyValue, Status.Ok), t);
    FairExtends(k.log, Taken(k.current, req.clearEntry, {}, Timeout), t);
  }

  lemma NotifyFair(k: Kernel, to: Tid, bits: Flags, t: Tid)
    requires AllFair(k.log, t)
    ensures AllFair(DoNotify(k, to, bits).log, t)
  {
    FairExtends(k.log, Notified(to, bits, NotifySpec.Notify(Get(k.tasks, to), bits).1), t);
  }

  lemma ElsewhereFair(k: Kernel, k': Kernel, t: Tid)
    requires AllFair(k.log, t) && LogsElsewhere(k, k', NoteObj)
    ensures AllFair(k'.log, t)
  {
    if k'.log != k.log {
      var ev :| k'.log == k.log + [ev] && SourceOf(ev) != Some(NoteObj);
      FairExtends(k.log, ev, t);
    }
  }

  lemma OtherFair(k: Kernel, a: Action, t: Tid)
    requires Enabled(k, a) && AllFair(k.log, t) && Concerns(k, a) != Some(NoteObj)
    ensures AllFair(Apply(k, a).log, t)
  {
    ActionApart(k, a, NoteObj);
    ElsewhereFair(k, Apply(k, a), t);
  }

  lemma OwnFair(k: Kernel, a: Action, t: Tid)
    requires Sep(k) && Enabled(k, a) && NotifyOk(k, t) && AllFair(k.log, t) && Concerns(k, a) == Some(NoteObj) && (a.Invoke? || a.Resume?)
    ensures AllFair(Apply(k, a).log, t)
  {
    if a.Invoke? { WaitFair(k, a.req, t); } else { ResumeFair(k, CallOf(k, k.current).req, t); }
  }

  lemma FairStep(k: Kernel, a: Action, t: Tid)
    requires Sep(k) && Enabled(k, a) && NotifyOk(k, t) && AllFair(k.log, t)
    ensures AllFair(Apply(k, a).log, t)
  {
    if a.Retry? { RetriesLoop(k); }
    if Concerns(k, a) != Some(NoteObj) {
      OtherFair(k, a, t);
    } else if a.Notify? {
      NotifyFair(k, a.t, a.bits, t);
    } else {
      OwnFair(k, a, t);
    }
  }
}
