/** The tick of one task in two parts. The model takes it as one step, which it is as long as
    no interrupt that wakes tasks can preempt it; here is what would happen otherwise, exactly. */
module TickSplit {
  import opened Base
  import opened WaitQueue
  import opened Kernel
  import opened Separation
  import opened Effects
  import opened Roles
  import opened Timing
  import PoolRuns
  import Runs
  import SemRuns
  import opened ObjectFrame
  import SemSpec
  import TaskSpec

  /** The decrement that reaches zero. */
  function CountDown(c: Tcb): Tcb {
    c.(delay := 0)
  }

  /** The two stores that follow it. */
  function Expired(c: Tcb): Tcb {
    c.(result := Timeout, state := Ready)
  }

  function Halfway(k: Kernel, x: Tid): Kernel {
    k.(tasks := Put(k.tasks, x, CountDown(Get(k.tasks, x))))
  }

  function Finish(k: Kernel, x: Tid): Kernel {
    k.(tasks := Put(k.tasks, x, Expired(Get(k.tasks, x))))
  }

  /** Task `x` is about to time out. */
  predicate Expiring(k: Kernel, x: Tid) {
    CallOf(k, x).Waiting? && Get(k.tasks, x).state == Blocked && Get(k.tasks, x).delay == 1
  }

  lemma HalfwaySep(k: Kernel, x: Tid)
    requires Sep(k) && Expiring(k, x)
    ensures Sep(Halfway(k, x)) && CallOf(Halfway(k, x), x).Waiting? && Get(Halfway(k, x).tasks, x).state == Blocked
  {
    PutDrifts(WaitsOf(k), x, CountDown(Get(k.tasks, x)));
    DriftKeeps(WaitsOf(k), WaitsOf(Halfway(k, x)));
  }

  /** With nothing in between the parts are the tick of the task. */
  lemma PartsAreTheTick(k: Kernel, x: Tid)
    requires Expiring(k, x)
    ensures Finish(Halfway(k, x), x) == k.(tasks := Put(k.tasks, x, TaskSpec.TickOne(Get(k.tasks, x))))
  {
  }

  lemma StoresOver(c: Tcb, b: Tcb)
    requires c.state == Blocked && c.delay == 1 && (Same(CountDown(c), b) || IsGrant(CountDown(c), b))
    ensures FateOf(Expired(b)) == Fate.Expired && (FateOf(b) == Granted || FateOf(b) == Asleep)
    ensures FateOf(b) != Granted ==> Same(TaskSpec.TickOne(c), Expired(b))
  {
  }

  /** Whatever action comes in between, the task times out: as after a whole tick,
      unless the action released it with a grant, which the stores then undo. */
  lemma SplitUndoesAGrant(k: Kernel, x: Tid, a: Action)
    requires Sep(k) && Expiring(k, x) && Enabled(Halfway(k, x), a) && !a.Tick?
    ensures var between := Get(Apply(Halfway(k, x), a).tasks, x); var after := Expired(between);
            && x < |Apply(Halfway(k, x), a).tasks| && Get(Finish(Apply(Halfway(k, x), a), x).tasks, x) == after
            && FateOf(after) == Fate.Expired && (FateOf(between) == Granted || FateOf(between) == Asleep)
            && (FateOf(between) != Granted ==> Same(TaskSpec.TickOne(Get(k.tasks, x)), after))
  {
    HalfwaySep(k, x);
    AsleepStep(Halfway(k, x), a, x);
    StoresOver(Get(k.tasks, x), Get(Apply(Halfway(k, x), a).tasks, x));
  }

  // ---------- Tokens and blocks ----------

  /** The stores turn every wait of `x` into a late one. */
  lemma FinishRoles(k: Kernel, x: Tid, y: Tid)
    requires Sep(k) && CallOf(k, x).Waiting? && Get(k.tasks, x).state != Stopped
    ensures Role(WaitsOf(Finish(k, x)), y) ==
              match Role(WaitsOf(k), y)
              case Parked(l) => if y == x then Late(l) else Parked(l)
              case Woken(l) => if y == x then Late(l) else Woken(l)
              case r => r
  {
  }

  lemma HalfwayUndisturbed(k: Kernel, x: Tid, l: Lid)
    requires Sep(k) && Expiring(k, x)
    ensures Undisturbed(WaitsOf(k), WaitsOf(Halfway(k, x)), l)
  {
    PutDrifts(WaitsOf(k), x, CountDown(Get(k.tasks, x)));
    DriftLeavesAlone(WaitsOf(k), WaitsOf(Halfway(k, x)), l);
  }

  /** The stores keep the tokens accounted for if and only if `x` was not just given one. */
  lemma FinishKeepsTokensIff(k: Kernel, x: Tid, s: nat, initial: nat)
    requires Sep(k) && CallOf(k, x).Waiting? && Get(k.tasks, x).state != Stopped && s in k.sems && SemRuns.SemOk(k, s, initial)
    ensures SemRuns.SemOk(Finish(k, x), s, initial) <==> Role(WaitsOf(k), x) != Woken(SemList(s))
  {
    var w, v := WaitsOf(k), WaitsOf(Finish(k, x));
    forall y: Tid ensures Role(v, y) == Woken(SemList(s)) <==> Role(w, y) == Woken(SemList(s)) && y != x {
      FinishRoles(k, x, y);
    }
    if Role(w, x) == Woken(SemList(s)) { PendingMinus(w, v, SemList(s), x); } else { PendingSame(w, v, SemList(s)); }
  }

  /** The stores keep the blocks accounted for if and only if `x` was not just given one. */
  lemma FinishKeepsBlocksIff(k: Kernel, x: Tid, p: nat, blocks: seq<nat>)
    requires Sep(k) && CallOf(k, x).Waiting? && Get(k.tasks, x).state != Stopped && p in k.pools && PoolRuns.PoolOk(k, p, blocks)
    ensures PoolRuns.PoolOk(Finish(k, x), p, blocks) <==> Role(WaitsOf(k), x) != Woken(PoolList(p))
  {
    var w, v, k' := WaitsOf(k), WaitsOf(Finish(k, x)), Finish(k, x);
    forall y: Tid ensures Role(v, y) == Woken(PoolList(p)) <==> Role(w, y) == Woken(PoolList(p)) && y != x {
      FinishRoles(k, x, y);
    }
    forall b: nat
      ensures PoolRuns.Conserved(k', p, blocks, b) <==> !PoolRuns.Carries(w, PoolList(p), b, x)
    {
      assert PoolRuns.Conserved(k, p, blocks, b);
      PoolRuns.CarriersChange(w, v, PoolList(p), b, x);
    }
    if Role(w, x) == Woken(PoolList(p)) {
      assert !PoolRuns.Conserved(k', p, blocks, Get(k.tasks, x).objectResult);
    }
  }

  lemma RoleOfFate(k: Kernel, x: Tid, l: Lid)
    requires CallOf(k, x).Waiting? && ListFor(CallOf(k, x).req) == Some(l)
    ensures Role(WaitsOf(k), x) == Woken(l) <==> FateOf(Get(k.tasks, x)) == Granted
  {
  }

  /** The state in between, whose action `a` is one of other tasks or interrupts. */
  lemma Between(k: Kernel, x: Tid, a: Action)
    requires Sep(k) && Expiring(k, x) && Enabled(Halfway(k, x), a) && !a.Tick?
    ensures Sep(Apply(Halfway(k, x), a)) && CallOf(Apply(Halfway(k, x), a), x) == CallOf(k, x)
    ensures Get(Apply(Halfway(k, x), a).tasks, x).state != Stopped
  {
    HalfwaySep(k, x);
    SepStep(Halfway(k, x), a);
    AsleepStep(Halfway(k, x), a, x);
  }

  lemma TokensBetween(k: Kernel, x: Tid, a: Action, s: nat, initial: nat)
    requires Sep(k) && Expiring(k, x) && s in k.sems && SemRuns.SemOk(k, s, initial) && Enabled(Halfway(k, x), a)
    ensures s in Apply(Halfway(k, x), a).sems && SemRuns.SemOk(Apply(Halfway(k, x), a), s, initial)
  {
    var h := Halfway(k, x);
    HalfwaySep(k, x);
    HalfwayUndisturbed(k, x, SemList(s));
    SemRuns.SemUndisturbed(k, h, s, initial);
    SemRuns.SemStep(h, a, s, initial);
  }

  /** A semaphore wait: with an action between the parts of the tick, tokens stay accounted
      for if and only if the action does not release the task. */
  lemma SplitKeepsTokensIff(k: Kernel, x: Tid, a: Action, s: nat, initial: nat)
    requires Sep(k) && Expiring(k, x) && CallOf(k, x).req.SemReq? && CallOf(k, x).req.s == s
    requires s in k.sems && SemRuns.SemOk(k, s, initial) && Enabled(Halfway(k, x), a) && !a.Tick?
    ensures var between := Apply(Halfway(k, x), a);
            && s in between.sems
            && (SemRuns.SemOk(Finish(between, x), s, initial) <==> FateOf(Get(between.tasks, x)) != Granted)
  {
    TokensBetween(k, x, a, s, initial);
    Between(k, x, a);
    RoleOfFate(Apply(Halfway(k, x), a), x, SemList(s));
    FinishKeepsTokensIff(Apply(Halfway(k, x), a), x, s, initial);
  }

  lemma BlocksBetween(k: Kernel, x: Tid, a: Action, p: nat, blocks: seq<nat>)
    requires Sep(k) && Expiring(k, x) && p in k.pools && PoolRuns.PoolOk(k, p, blocks) && Enabled(Halfway(k, x), a)
    ensures p in Apply(Halfway(k, x), a).pools && PoolRuns.PoolOk(Apply(Halfway(k, x), a), p, blocks)
  {
    var h := Halfway(k, x);
    HalfwaySep(k, x);
    HalfwayUndisturbed(k, x, PoolList(p));
    PoolRuns.PoolUndisturbed(k, h, p, blocks);
    PoolRuns.PoolStep(h, a, p, blocks);
  }

  /** The same for a pool and its blocks. */
  lemma SplitKeepsBlocksIff(k: Kernel, x: Tid, a: Action, p: nat, blocks: seq<nat>)
    requires Sep(k) && Expiring(k, x) && CallOf(k, x).req.AllocReq? && CallOf(k, x).req.p == p
    requires p in k.pools && PoolRuns.PoolOk(k, p, blocks) && Enabled(Halfway(k, x), a) && !a.Tick?
    ensures var between := Apply(Halfway(k, x), a);
            && p in between.pools
            && (PoolRuns.PoolOk(Finish(between, x), p, blocks) <==> FateOf(Get(between.tasks, x)) != Granted)
  {
    BlocksBetween(k, x, a, p, blocks);
    Between(k, x, a);
    RoleOfFate(Apply(Halfway(k, x), a), x, PoolList(p));
    FinishKeepsBlocksIff(Apply(Halfway(k, x), a), x, p, blocks);
  }

  // ---------- A run ----------

  const Wait: Request := SemReq(0, 1)

  /** One task, and a semaphore with no token. */
  function Start(): Kernel {
    Runs.Boot([1], 1, map[], {0}, map[0 := SemSpec.SemVal(0, 1)], {0}, map[])
  }

  lemma OneTaskStarts(k: Kernel)
    requires k == Start()
    ensures Init(k) && AtLarge(k) && k.current == 0 && |k.tasks| == 1 && |k.calls| == 1
    ensures 0 in k.sems && k.sems[0].count == 0 && ListOf(k, SemList(0)) == []
  {
    Runs.BootIsInit([1], 1, map[], {0}, map[0 := SemSpec.SemVal(0, 1)], {0}, map[]);
  }

  lemma WaiterParks(k: Kernel)
    requires AtLarge(k) && k.current == 0 && |k.tasks| == 1 && |k.calls| == 1
    requires 0 in k.sems && k.sems[0].count == 0 && ListOf(k, SemList(0)) == []
    ensures var r := TrySem(k, Wait);
            && 0 in r.sems && r.sems[0].count == 0 && ListOf(r, SemList(0)) == [0] && CallOf(r, 0) == Waiting(Wait)
            && IsValidWaiter(Get(r.tasks, 0)) && Get(r.tasks, 0).delay == 1
  {
    assert Push(TrySem(k, Wait).tasks, [], 0) == [0];
  }

  lemma OneStep(k: Kernel)
    requires AtLarge(k) && 0 in k.sems
    ensures Legal(k, [Wait1()]) && Run(k, [Wait1()]) == TrySem(k, Wait)
  {
    assert [Wait1()][1..] == [];
  }

  function Wait1(): Action {
    Invoke(Wait)
  }

  lemma PostReleases(k: Kernel)
    requires Sep(k) && 0 in k.sems && ListOf(k, SemList(0)) == [0] && IsValidWaiter(Get(k.tasks, 0))
    ensures FateOf(Get(DoPost(k, 0).tasks, 0)) == Granted
  {
    assert FirstValid(k.tasks, [0]) == 0;
  }

  /** The task waits for one tick. An interrupt that preempted the tick between its parts and
      posted would have its token lost: the task is granted it and then times out. */
  lemma TokenIsLost()
    ensures Init(Start()) && Legal(Start(), [Wait1()])
    ensures var k := Run(Start(), [Wait1()]);
            && Expiring(k, 0) && Enabled(Halfway(k, 0), Post(0))
            && var between := Apply(Halfway(k, 0), Post(0));
            && FateOf(Get(between.tasks, 0)) == Granted && FateOf(Get(Finish(between, 0).tasks, 0)) == Fate.Expired
            && 0 in between.sems && !SemRuns.SemOk(Finish(between, 0), 0, 0)
  {
    var k := Run(Start(), [Wait1()]);
    OneTaskStarts(Start());
    OneStep(Start());
    WaiterParks(Start());
    Runs.AlwaysSafe(Start(), [Wait1()]);
    assert SemRuns.SemOk(k, 0, 0);
    HalfwaySep(k, 0);
    PostReleases(Halfway(k, 0));
    SplitKeepsTokensIff(k, 0, Post(0), 0, 0);
    SplitUndoesAGrant(k, 0, Post(0));
  }
}
