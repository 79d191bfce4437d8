/** The life of a task: what creation sets up, and that a task that exited stays stopped. */
module Lifetimes {
  import opened Base
  import opened Kernel
  import opened Separation
  import opened Effects
  import opened Steady
  import NotifyRuns
  import Runs
  import SchedRuns
  import SchedSpec
  import TaskSpec

  /** Ready to run from its entry point, at its own priority, with nothing pending. */
  predicate Newborn(c: Tcb, priority: uint32) {
    && c.state == Ready && c.priority == priority && c.basePriority == priority
    && c.waitType == WaitNone && c.delay == 0 && c.result == Status.Ok && c.notifyValue == {} && !c.notifyPending
  }

  /** Task `x` has just been set up in its slot, and no other slot changed. */
  ghost predicate Born(k: Kernel, k': Kernel, x: Tid, priority: uint32) {
    && x < |k'.tasks| && Newborn(k'.tasks[x], priority) && CallOf(k', x) == Free
    && forall y: Tid :: y != x ==> Get(k'.tasks, y) == Get(k.tasks, y) && CallOf(k', y) == CallOf(k, y)
  }

  /** Creation takes a fresh slot while there is one, else the first of a stopped task, and is
      refused if and only if there is neither. */
  lemma CreateAnswers(k: Kernel, priority: uint32)
    requires |k.calls| == |k.tasks|
    ensures var k' := CreateTask(k, priority);
            if |k.tasks| < k.maxTasks then |k'.tasks| == |k.tasks| + 1 && Born(k, k', |k.tasks|, priority)
            else if exists x :: 0 <= x < |k.tasks| && k.tasks[x].state == Stopped then
              exists x: Tid :: x < |k.tasks| && k.tasks[x].state == Stopped && (forall y :: 0 <= y < x ==> k.tasks[y].state != Stopped)
                && |k'.tasks| == |k.tasks| && Born(k, k', x, priority)
            else k' == k
  {
    if |k.tasks| < k.maxTasks { CreateFresh(k, priority); } else { CreateReused(k, priority); }
  }

  lemma CreateFresh(k: Kernel, priority: uint32)
    requires |k.calls| == |k.tasks| && |k.tasks| < k.maxTasks
    ensures |CreateTask(k, priority).tasks| == |k.tasks| + 1 && Born(k, CreateTask(k, priority), |k.tasks|, priority)
  {
  }

  lemma CreateReused(k: Kernel, priority: uint32)
    requires |k.calls| == |k.tasks| && |k.tasks| >= k.maxTasks
    ensures var x := TaskSpec.StoppedSlot(k.tasks); var k' := CreateTask(k, priority);
            if x < |k.tasks| then |k'.tasks| == |k.tasks| && Born(k, k', x, priority) else k' == k
  {
  }

  /** A fresh task is the next one the scheduler looks at; behind it the order is as before. */
  lemma FreshTaskIsNext(k: Kernel, priority: uint32)
    requires SchedRuns.SchedOk(k) && |k.tasks| < k.maxTasks
    ensures SchedSpec.ScanOrder(CreateTask(k, priority).ring, k.current) == [|k.tasks|] + SchedSpec.ScanOrder(k.ring, k.current)
  {
    var i, r := SchedSpec.Position(k.ring, k.current), CreateTask(k, priority).ring;
    assert k.current in k.ring;
    assert r == k.ring[..i + 1] + [|k.tasks|] + k.ring[i + 1..];
    assert r[i] == k.current && forall j :: 0 <= j < i ==> r[j] == k.ring[j];
    assert SchedSpec.Position(r, k.current) == i;
  }

  // ---------- Exit ----------

  predicate Gone(c: Tcb) {
    c.state == Stopped && c.delay == 0 && c.waitType == WaitNone && c.result == Status.Ok
  }

  /** An exit stops the current task and changes no other task, list or object. */
  lemma ExitAnswers(k: Kernel)
    requires AtLarge(k)
    ensures var k' := Apply(k, Exit);
            && KeepsObjects(k, k') && k'.lists == k.lists && k'.current == k.current
            && Gone(Get(k'.tasks, k.current)) && forall y: Tid :: y != k.current ==> Get(k'.tasks, y) == Get(k.tasks, y)
  {
  }

  predicate IsStopped(k: Kernel, x: Tid) {
    x < |k.tasks| && k.tasks[x].state == Stopped
  }

  lemma SwitchKeepsStopped(k: Kernel, x: Tid)
    requires IsStopped(k, x)
    ensures IsStopped(DoSwitch(k), x)
  {
    SwitchKeepsWaits(SchedView(k), x);
  }

  lemma CreateKeepsStopped(k: Kernel, priority: uint32, x: Tid)
    requires IsStopped(k, x) && !NotifyRuns.Replaces(k, Create(priority), x)
    ensures IsStopped(CreateTask(k, priority), x)
  {
  }

  lemma StoppedStep(k: Kernel, a: Action, x: Tid)
    requires IsStopped(k, x) && Enabled(k, a) && !NotifyRuns.Replaces(k, a, x)
    ensures IsStopped(Apply(k, a), x)
  {
    if a.Switch? { SwitchKeepsStopped(k, x); }
    else if a.Create? { CreateKeepsStopped(k, a.priority, x); }
    else if !a.Exit? {
      ActionSteady(k, a);
      assert StateSteady(Get(k.tasks, x), Get(Apply(k, a).tasks, x));
    }
  }

  /** A task that exited never runs again, until its slot is given to a new one. */
  lemma {:induction false} ExitIsFinal(k: Kernel, acts: seq<Action>, x: Tid)
    requires IsStopped(k, x) && Legal(k, acts) && Runs.Lives(k, acts, x)
    ensures IsStopped(Run(k, acts), x)
    decreases |acts|
  {
    if acts != [] {
      StoppedStep(k, acts[0], x);
      ExitIsFinal(Apply(k, acts[0]), acts[1..], x);
    }
  }
}
