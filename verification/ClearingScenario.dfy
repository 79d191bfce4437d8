/** A legal run from boot in which setting flags leaves a satisfied waiter asleep. */
module ClearingScenario {
  import opened Base
  import opened WaitQueue
  import opened Kernel
  import opened Scenarios
  import EventSpec
  import EventWalk
  import MutexSpec
  import Runs
  import SchedSpec
  import TaskSpec

  const First: Request := EventReq(0, {0}, false, true, TIMEOUT_FOREVER)
  const Second: Request := EventReq(0, {0}, false, false, TIMEOUT_FOREVER)

  /** Two tasks wait for bit 0, the first one clearing it; an interrupt sets it. */
  const ClearingRun: seq<Action> := [Invoke(First), Switch, Invoke(Second), SetFlags(0, {0})]

  function Waiter(clear: bool): Tcb {
    Park(TaskSpec.NewTcb(1), WaitEvent, TIMEOUT_FOREVER).(waitFlags := {0}, flagsResult := {}, waitAll := false, waitClear := clear)
  }

  const Runner: Tcb := TaskSpec.NewTcb(1).(state := Running)

  const E0: State := State([Runner, TaskSpec.NewTcb(1)], [Free, Free], 0, [0, 1], 0, MutexSpec.MutexVal(None, 0), [], {}, [])
  const E1: State := E0.(tasks := [Waiter(true), TaskSpec.NewTcb(1)], calls := [Waiting(First), Free], sleepers := [0])
  const E2: State := E1.(tasks := [Waiter(true), Runner], current := 1)
  const E3: State := E2.(tasks := [Waiter(true), Waiter(false)], calls := [Waiting(First), Waiting(Second)], sleepers := [0, 1])
  const E4: State := E3.(tasks := Put(E3.tasks, 0, EventSpec.Granted(Waiter(true), {0})), sleepers := [1])

  function Clearing(i: nat): State {
    if i == 0 then E0 else if i == 1 then E1 else if i == 2 then E2 else if i == 3 then E3 else E4
  }

  ghost predicate ClearingLeads(i: nat)
    requires i < 4
  {
    Leads(Clearing(i), ClearingRun[i], Clearing(i + 1))
  }

  lemma FirstParks(i: nat)
    requires i == 0
    ensures ClearingLeads(i)
  {
    NoMatch({0});
    assert Put(E0.tasks, 0, Waiter(true)) == E1.tasks;
    assert Push(E1.tasks, [], 0) == [0];
    assert SetCall(E0.calls, 0, Waiting(First)) == E1.calls;
  }

  lemma SecondRuns(i: nat)
    requires i == 1
    ensures ClearingLeads(i)
  {
    assert SchedSpec.Position([0, 1], 0) == 0;
    assert SchedSpec.ScanOrder([0, 1], 0) == [1, 0];
    SwitchLeads(E1, E1.tasks, [1, 0], E2);
  }

  lemma SecondParks(i: nat)
    requires i == 2
    ensures ClearingLeads(i)
  {
    NoMatch({0});
    assert Put(E2.tasks, 1, Waiter(false)) == E3.tasks;
    assert [0][1..] == [] && InsertAt(E3.tasks, [0], 1) == 1;
    assert Push(E3.tasks, [0], 1) == [0, 1];
    assert SetCall(E2.calls, 1, Waiting(Second)) == E3.calls;
  }

  lemma BitIsTaken(i: nat)
    requires i == 3
    ensures ClearingLeads(i)
  {
    EventWalk.ClearingFirst(E3.tasks);
  }

  lemma ClearingGoesOn(i: nat)
    requires i < 4
    ensures ClearingLeads(i)
  {
    if i == 0 { FirstParks(i); } else if i == 1 { SecondRuns(i); } else if i == 2 { SecondParks(i); } else { BitIsTaken(i); }
  }

  lemma ClearingFollows(k: Kernel)
    requires Is(k, E0)
    ensures Legal(k, ClearingRun) && Is(Run(k, ClearingRun), E4)
  {
    var states := seq(5, i requires 0 <= i < 5 => Clearing(i));
    forall i | 0 <= i < |ClearingRun| ensures Leads(states[i], ClearingRun[i], states[i + 1]) {
      ClearingGoesOn(i);
    }
    Follows(k, states, ClearingRun);
  }

  lemma BootsTwo()
    ensures var k := Runs.Boot([1, 1], 2, map[], {0}, map[], {0}, map[]); Init(k) && Is(k, E0)
  {
    Runs.BootIsInit([1, 1], 2, map[], {0}, map[], {0}, map[]);
    var k := Runs.Boot([1, 1], 2, map[], {0}, map[], {0}, map[]);
    assert k.tasks == E0.tasks && k.calls == E0.calls && k.ring == [0, 1];
  }

  /** The run is legal from boot, and leaves the second task asleep although the bit it waits
      for was set: setting flags does not wake every waiter whose condition is satisfied. */
  lemma ClearingWaiterTakesTheBit()
    ensures var k := Runs.Boot([1, 1], 2, map[], {0}, map[], {0}, map[]);
            && Init(k) && Legal(k, ClearingRun)
            && var r := Run(k, ClearingRun);
            && ListOf(r, EventList(0)) == [1] && IsValidWaiter(Get(r.tasks, 1)) && Get(r.tasks, 1).waitFlags == {0}
            && Get(r.tasks, 0).state == Ready && Get(r.tasks, 0).flagsResult == {0}
  {
    BootsTwo();
    ClearingFollows(Runs.Boot([1, 1], 2, map[], {0}, map[], {0}, map[]));
  }
}
