/** A legal run from boot in which an owner ends up below a waiter that is still parked. */
module RelockScenario {
  import opened Base
  import opened WaitQueue
  import opened Kernel
  import opened Scenarios
  import Inheritance
  import MutexSpec
  import Runs
  import TaskSpec

  const Lock: Request := LockReq(0, TIMEOUT_FOREVER)

  /** Two tasks block on the mutex of a lower one. It takes the scheduler lock, unlocks, which
      releases one of them, has its context switch deferred, and locks again. */
  const RelockRun: seq<Action> :=
    [Invoke(Lock), Switch, Invoke(Lock), Switch, Invoke(Lock), Switch, SchedLock, Unlock(0), Switch, Invoke(LockReq(0, 0))]

  function Low(priority: uint32, state: TaskState): Tcb {
    TaskSpec.NewTcb(1).(priority := priority, state := state)
  }

  const High: Tcb := TaskSpec.NewTcb(2)
  const HighRuns: Tcb := High.(state := Running)
  const HighParked: Tcb := Park(HighRuns, WaitMutex, TIMEOUT_FOREVER)

  const L0: State := State([Low(1, Running), High, High], [Free, Free, Free], 0, [0, 1, 2], 0, MutexSpec.MutexVal(None, 0), [], {}, [])
  const L1: State := L0.(m := MutexSpec.MutexVal(Some(0), 1))
  const L2: State := L1.(tasks := [Low(1, Ready), HighRuns, High], current := 1)
  const L3: State := L2.(tasks := [Low(2, Ready), HighParked, High], calls := [Free, Waiting(Lock), Free], lockers := [1])
  const L4: State := L3.(tasks := [Low(2, Ready), HighParked, HighRuns], current := 2)
  const L5: State := L4.(tasks := [Low(2, Ready), HighParked, HighParked], calls := [Free, Waiting(Lock), Waiting(Lock)], lockers := [1, 2])
  const L6: State := L5.(tasks := [Low(2, Running), HighParked, HighParked], current := 0)
  const L7: State := L6.(schedLock := 1)
  const L8: State := L7.(tasks := [Low(1, Running), Released(HighParked), HighParked], m := MutexSpec.MutexVal(None, 0), lockers := [2])
  const L9: State := L8.(m := MutexSpec.MutexVal(Some(0), 1))

  function Relocking(i: nat): State {
    if i == 0 then L0 else if i == 1 then L1 else if i == 2 then L2 else if i == 3 then L3 else if i == 4 then L4
    else if i == 5 then L5 else if i == 6 then L6 else if i == 7 then L7 else if i <= 9 then L8 else L9
  }

  ghost predicate RelockLeads(i: nat)
    requires i < 10
  {
    Leads(Relocking(i), RelockRun[i], Relocking(i + 1))
  }

  lemma RelockAt(i: nat, s: State, a: Action, t: State)
    requires i < 10 && s == Relocking(i) && a == RelockRun[i] && t == Relocking(i + 1) && Leads(s, a, t)
    ensures RelockLeads(i)
  {
  }

  lemma LowLocks(i: nat)
    requires i == 0
    ensures RelockLeads(i)
  {
    assert SetCall(L0.calls, 0, Free) == L0.calls;
  }

  lemma FirstHighRunsNext()
    ensures Leads(L1, Switch, L2)
  {
    OrderOfThree();
    SwitchLeads(L1, [Low(1, Ready), High, High], [1, 2, 0], L2);
  }

  lemma FirstHighRuns(i: nat)
    requires i == 1
    ensures RelockLeads(i)
  {
    FirstHighRunsNext();
    RelockAt(1, L1, Switch, L2);
  }

  lemma FirstHighParks(i: nat)
    requires i == 2
    ensures RelockLeads(i)
  {
    assert Put(L2.tasks, 0, Low(2, Ready)) == [Low(2, Ready), HighRuns, High];
    assert Put([Low(2, Ready), HighRuns, High], 1, HighParked) == L3.tasks;
    assert Push(L3.tasks, [], 1) == [1];
    assert SetCall(L2.calls, 1, Waiting(Lock)) == L3.calls;
  }

  lemma SecondHighRunsNext()
    ensures Leads(L3, Switch, L4)
  {
    OrderOfThree();
    SwitchLeads(L3, L3.tasks, [2, 0, 1], L4);
  }

  lemma SecondHighRuns(i: nat)
    requires i == 3
    ensures RelockLeads(i)
  {
    SecondHighRunsNext();
    RelockAt(3, L3, Switch, L4);
  }

  lemma SecondHighParks(i: nat)
    requires i == 4
    ensures RelockLeads(i)
  {
    assert Put(L4.tasks, 0, Low(2, Ready)) == L4.tasks;
    assert Put(L4.tasks, 2, HighParked) == L5.tasks;
    assert [1][1..] == [] && InsertAt(L5.tasks, [1], 2) == 1;
    assert Push(L5.tasks, [1], 2) == [1, 2];
    assert SetCall(L4.calls, 2, Waiting(Lock)) == L5.calls;
  }

  lemma LowRunsAgainNext()
    ensures Leads(L5, Switch, L6)
  {
    OrderOfThree();
    SwitchLeads(L5, L5.tasks, [0, 1, 2], L6);
  }

  lemma LowRunsAgain(i: nat)
    requires i == 5
    ensures RelockLeads(i)
  {
    LowRunsAgainNext();
    RelockAt(5, L5, Switch, L6);
  }

  lemma LowUnlocks(i: nat)
    requires i == 7
    ensures RelockLeads(i)
  {
    var ts := [Low(1, Running), HighParked, HighParked];
    assert Put(L7.tasks, 0, Low(1, Running)) == ts;
    assert FirstValid(ts, [1, 2]) == 0 && [1, 2][1..] == [2];
    assert PopTask(ts, [1, 2]) == Some(1) && PopRest(ts, [1, 2]) == [2];
    assert Put(ts, 1, Released(HighParked)) == L8.tasks;
  }

  lemma LowLocksTheScheduler(i: nat)
    requires i == 6
    ensures RelockLeads(i)
  {
  }

  lemma SwitchIsDeferred(i: nat)
    requires i == 8
    ensures RelockLeads(i)
  {
  }

  lemma LowRelocks(i: nat)
    requires i == 9
    ensures RelockLeads(i)
  {
    assert SetCall(L8.calls, 0, Free) == L8.calls;
  }

  lemma RelockGoesOn(i: nat)
    requires i < 10
    ensures RelockLeads(i)
  {
    if i == 0 { LowLocks(i); } else if i == 1 { FirstHighRuns(i); } else if i == 2 { FirstHighParks(i); }
    else if i == 3 { SecondHighRuns(i); } else if i == 4 { SecondHighParks(i); } else if i == 5 { LowRunsAgain(i); }
    else if i == 6 { LowLocksTheScheduler(i); } else if i == 7 { LowUnlocks(i); } else if i == 8 { SwitchIsDeferred(i); }
    else { LowRelocks(i); }
  }

  lemma RelockStates() returns (states: seq<State>)
    ensures |states| == 11 && states[0] == L0 && states[10] == L9
    ensures forall i :: 0 <= i < 10 ==> Leads(states[i], RelockRun[i], states[i + 1])
  {
    states := seq(11, i requires 0 <= i < 11 => Relocking(i));
    forall i | 0 <= i < 10 ensures Leads(states[i], RelockRun[i], states[i + 1]) {
      RelockGoesOn(i);
    }
  }

  lemma RelockFollows(k: Kernel)
    requires Is(k, L0)
    ensures Legal(k, RelockRun) && Is(Run(k, RelockRun), L9)
  {
    var states := RelockStates();
    Follows(k, states, RelockRun);
  }

  lemma BootsThree()
    ensures var k := Runs.Boot([1, 2, 2], 3, map[], {0}, map[], {0}, map[]);
            Init(k) && Is(k, L0) && Inheritance.OnlyMutex(k, 0)
  {
    Runs.BootIsInit([1, 2, 2], 3, map[], {0}, map[], {0}, map[]);
    var k := Runs.Boot([1, 2, 2], 3, map[], {0}, map[], {0}, map[]);
    assert k.tasks == L0.tasks && k.calls == L0.calls && k.ring == [0, 1, 2];
  }

  /** The run is legal from boot, and leaves the owner running below a valid waiter: when the
      free mutex is locked again before the deferred switch, the bounds on its priority fail. */
  lemma RelockMissesAWaiter()
    ensures var k := Runs.Boot([1, 2, 2], 3, map[], {0}, map[], {0}, map[]);
            && Init(k) && Inheritance.OnlyMutex(k, 0) && Legal(k, RelockRun)
            && var r := Run(k, RelockRun);
            && 0 in r.mutexes && r.mutexes[0].owner == Some(0) && Get(r.tasks, 0).priority == 1
            && ListOf(r, MutexList(0)) == [2] && IsValidWaiter(Get(r.tasks, 2)) && Get(r.tasks, 2).priority == 2
            && !Inheritance.Inherits(MutexView(r, 0))
  {
    var k := Runs.Boot([1, 2, 2], 3, map[], {0}, map[], {0}, map[]);
    BootsThree();
    RelockFollows(k);
    assert 2 in ListOf(Run(k, RelockRun), MutexList(0));
  }
}
