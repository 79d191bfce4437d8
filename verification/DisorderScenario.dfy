/** A legal run from boot in which a wait list loses its order. */
module DisorderScenario {
  import opened Base
  import opened WaitQueue
  import opened Kernel
  import opened Scenarios
  import EventSpec
  import MutexSpec
  import Runs
  import TaskSpec

  const Lock: Request := LockReq(0, TIMEOUT_FOREVER)
  const Early: Request := EventReq(0, {1}, false, true, TIMEOUT_FOREVER)
  const Late: Request := EventReq(0, {0}, false, true, TIMEOUT_FOREVER)

  /** Three tasks wait for the event group in the order of their priorities, the lowest one
      holding the mutex; the highest one is released and blocks on that mutex. */
  const DisorderRun: seq<Action> :=
    [Invoke(Early), Switch, Invoke(Late), Switch, Invoke(Lock), Invoke(Late), SetFlags(0, {1}), Switch, Resume, Invoke(Lock)]

  function Waiter(priority: uint32, flags: Flags): Tcb {
    Park(TaskSpec.NewTcb(priority), WaitEvent, TIMEOUT_FOREVER).(waitFlags := flags, flagsResult := {}, waitAll := false, waitClear := true)
  }

  const Top: Tcb := EventSpec.Granted(Waiter(3, {1}), {1})
  const TopParked: Tcb := Park(Top, WaitMutex, TIMEOUT_FOREVER)
  const Mid: Tcb := TaskSpec.NewTcb(2)
  const Low: Tcb := TaskSpec.NewTcb(1)
  const LowWaits: Tcb := Waiter(1, {0})

  const D0: State :=
    State([TaskSpec.NewTcb(3).(state := Running), Mid, Low], [Free, Free, Free], 0, [0, 1, 2], 0, MutexSpec.MutexVal(None, 0), [], {}, [])
  const D1: State := D0.(tasks := [Waiter(3, {1}), Mid, Low], calls := [Waiting(Early), Free, Free], sleepers := [0])
  const D2: State := D1.(tasks := [Waiter(3, {1}), Mid.(state := Running), Low], current := 1)
  const D3: State := D2.(tasks := [Waiter(3, {1}), Waiter(2, {0}), Low], calls := [Waiting(Early), Waiting(Late), Free], sleepers := [0, 1])
  const D4: State := D3.(tasks := [Waiter(3, {1}), Waiter(2, {0}), Low.(state := Running)], current := 2)
  const D5: State := D4.(m := MutexSpec.MutexVal(Some(2), 1))
  const D6: State :=
    D5.(tasks := [Waiter(3, {1}), Waiter(2, {0}), LowWaits], calls := [Waiting(Early), Waiting(Late), Waiting(Late)], sleepers := [0, 1, 2])
  const D7: State := D6.(tasks := [Top, Waiter(2, {0}), LowWaits], sleepers := [1, 2])
  const D8: State := D7.(tasks := [Top.(state := Running), Waiter(2, {0}), LowWaits], current := 0)
  const D9: State := D8.(calls := [Free, Waiting(Late), Waiting(Late)])
  const D10: State :=
    D9.(tasks := [TopParked, Waiter(2, {0}), LowWaits.(priority := 3)], calls := [Waiting(Lock), Waiting(Late), Waiting(Late)], lockers := [0])

  function Disorder(i: nat): State {
    if i == 0 then D0 else if i == 1 then D1 else if i == 2 then D2 else if i == 3 then D3 else if i == 4 then D4
    else if i == 5 then D5 else if i == 6 then D6 else if i == 7 then D7 else if i == 8 then D8 else if i == 9 then D9 else D10
  }

  ghost predicate DisorderLeads(i: nat)
    requires i < 10
  {
    Leads(Disorder(i), DisorderRun[i], Disorder(i + 1))
  }

  lemma DisorderAt(i: nat, s: State, a: Action, t: State)
    requires i < 10 && s == Disorder(i) && a == DisorderRun[i] && t == Disorder(i + 1) && Leads(s, a, t)
    ensures DisorderLeads(i)
  {
  }

  lemma TopParks(i: nat)
    requires i == 0
    ensures DisorderLeads(i)
  {
    NoMatch({1});
    assert Put(D0.tasks, 0, Waiter(3, {1})) == D1.tasks;
    assert Push(D1.tasks, [], 0) == [0];
    assert SetCall(D0.calls, 0, Waiting(Early)) == D1.calls;
  }

  lemma MidRunsNext()
    ensures Leads(D1, Switch, D2)
  {
    OrderOfThree();
    SwitchLeads(D1, D1.tasks, [1, 2, 0], D2);
  }

  lemma MidRuns(i: nat)
    requires i == 1
    ensures DisorderLeads(i)
  {
    MidRunsNext();
    DisorderAt(1, D1, Switch, D2);
  }

  lemma MidParks(i: nat)
    requires i == 2
    ensures DisorderLeads(i)
  {
    NoMatch({0});
    assert Put(D2.tasks, 1, Waiter(2, {0})) == D3.tasks;
    assert [0][1..] == [] && InsertAt(D3.tasks, [0], 1) == 1;
    assert Push(D3.tasks, [0], 1) == [0, 1];
    assert SetCall(D2.calls, 1, Waiting(Late)) == D3.calls;
  }

  lemma LowRunsNext()
    ensures Leads(D3, Switch, D4)
  {
    OrderOfThree();
    SwitchLeads(D3, D3.tasks, [2, 0, 1], D4);
  }

  lemma LowRuns(i: nat)
    requires i == 3
    ensures DisorderLeads(i)
  {
    LowRunsNext();
    DisorderAt(3, D3, Switch, D4);
  }

  lemma LowLocks(i: nat)
    requires i == 4
    ensures DisorderLeads(i)
  {
    assert SetCall(D4.calls, 2, Free) == D4.calls;
  }

  lemma LowParks(i: nat)
    requires i == 5
    ensures DisorderLeads(i)
  {
    NoMatch({0});
    assert Put(D5.tasks, 2, LowWaits) == D6.tasks;
    assert [0, 1][1..] == [1] && [1][1..] == [] && InsertAt(D6.tasks, [1], 2) == 1 && InsertAt(D6.tasks, [0, 1], 2) == 2;
    assert Push(D6.tasks, [0, 1], 2) == [0, 1, 2];
    assert SetCall(D5.calls, 2, Waiting(Late)) == D6.calls;
  }

  /** A walk that hits nobody. */
  lemma {:induction false} NobodyElse(v: EventSpec.View)
    requires forall x :: x in v.waiters ==> !EventSpec.Satisfied(v.flags, Get(v.ts, x))
    ensures EventSpec.Walk(v).0 == v
    decreases |v.waiters|
  {
    if v.waiters != [] { NobodyElse(EventSpec.Rest(v)); }
  }

  /** Only the first waiter asks for the bit. */
  lemma TopAlone()
    ensures var v := EventSpec.View(D6.tasks, {1}, [0, 1, 2]);
            EventSpec.Hit(v) && EventSpec.Rest(v) == EventSpec.View(D7.tasks, {}, [1, 2])
    ensures EventSpec.Walk(EventSpec.View(D7.tasks, {}, [1, 2])).0 == EventSpec.View(D7.tasks, {}, [1, 2])
  {
    NoMatch({0});
    var v := EventSpec.View(D6.tasks, {1}, [0, 1, 2]);
    assert EventSpec.Bits(v) == {1};
    assert Put(D6.tasks, 0, Top) == D7.tasks && [0, 1, 2][1..] == [1, 2];
    NobodyElse(EventSpec.Rest(v));
  }

  lemma NoFlagsBefore(flags: Flags, v: EventSpec.View)
    requires v.flags == {}
    ensures v.(flags := v.flags + flags) == v.(flags := flags)
  {
    assert v.flags + flags == flags;
  }

  lemma FirstBitIsSet()
    ensures EventSpec.Set(EventSpec.View(D6.tasks, D6.flags, D6.sleepers), {1}).0 == EventSpec.View(D7.tasks, D7.flags, D7.sleepers)
  {
    TopAlone();
    NoFlagsBefore({1}, EventSpec.View(D6.tasks, D6.flags, D6.sleepers));
  }

  lemma TopIsReleasedNext()
    ensures Leads(D6, SetFlags(0, {1}), D7)
  {
    FirstBitIsSet();
  }

  lemma TopIsReleased(i: nat)
    requires i == 6
    ensures DisorderLeads(i)
  {
    TopIsReleasedNext();
    DisorderAt(6, D6, SetFlags(0, {1}), D7);
  }

  lemma TopRunsNext()
    ensures Leads(D7, Switch, D8)
  {
    OrderOfThree();
    SwitchLeads(D7, D7.tasks, [0, 1, 2], D8);
  }

  lemma TopRuns(i: nat)
    requires i == 7
    ensures DisorderLeads(i)
  {
    TopRunsNext();
    DisorderAt(7, D7, Switch, D8);
  }

  lemma TopGoesOn(i: nat)
    requires i == 8
    ensures DisorderLeads(i)
  {
    assert SetCall(D8.calls, 0, Free) == D9.calls;
  }

  lemma TopBlocks(i: nat)
    requires i == 9
    ensures DisorderLeads(i)
  {
    var ts := [Top.(state := Running), Waiter(2, {0}), LowWaits.(priority := 3)];
    assert Put(D9.tasks, 2, LowWaits.(priority := 3)) == ts;
    assert Put(ts, 0, TopParked) == D10.tasks;
    assert Push(D10.tasks, [], 0) == [0];
    assert SetCall(D9.calls, 0, Waiting(Lock)) == D10.calls;
  }

  lemma DisorderGoesOn(i: nat)
    requires i < 10
    ensures DisorderLeads(i)
  {
    if i == 0 { TopParks(i); } else if i == 1 { MidRuns(i); } else if i == 2 { MidParks(i); }
    else if i == 3 { LowRuns(i); } else if i == 4 { LowLocks(i); } else if i == 5 { LowParks(i); }
    else if i == 6 { TopIsReleased(i); } else if i == 7 { TopRuns(i); } else if i == 8 { TopGoesOn(i); }
    else { TopBlocks(i); }
  }

  lemma DisorderStates() returns (states: seq<State>)
    ensures |states| == 11 && states[0] == D0 && states[10] == D10
    ensures forall i :: 0 <= i < 10 ==> Leads(states[i], DisorderRun[i], states[i + 1])
  {
    states := seq(11, i requires 0 <= i < 11 => Disorder(i));
    forall i | 0 <= i < 10 ensures Leads(states[i], DisorderRun[i], states[i + 1]) {
      DisorderGoesOn(i);
    }
  }

  lemma DisorderFollows(k: Kernel)
    requires Is(k, D0)
    ensures Legal(k, DisorderRun) && Is(Run(k, DisorderRun), D10)
  {
    var states := DisorderStates();
    Follows(k, states, DisorderRun);
  }

  lemma BootsDescending()
    ensures var k := Runs.Boot([3, 2, 1], 3, map[], {0}, map[], {0}, map[]); Init(k) && Is(k, D0)
  {
    Runs.BootIsInit([3, 2, 1], 3, map[], {0}, map[], {0}, map[]);
    var k := Runs.Boot([3, 2, 1], 3, map[], {0}, map[], {0}, map[]);
    assert k.tasks == D0.tasks && k.calls == D0.calls && k.ring == [0, 1, 2];
  }

  /** The run is legal from boot, and leaves the group's list out of order: an owner that blocks
      in a list and inherits a priority there keeps its old place. */
  lemma BlockedOwnerIsMisplaced()
    ensures var k := Runs.Boot([3, 2, 1], 3, map[], {0}, map[], {0}, map[]);
            && Init(k) && Legal(k, DisorderRun)
            && var r := Run(k, DisorderRun);
            && ListOf(r, EventList(0)) == [1, 2] && IsValidWaiter(Get(r.tasks, 1)) && IsValidWaiter(Get(r.tasks, 2))
            && Get(r.tasks, 1).priority == 2 && Get(r.tasks, 2).priority == 3
            && !Sorted(r.tasks, ListOf(r, EventList(0)))
  {
    BootsDescending();
    DisorderFollows(Runs.Boot([3, 2, 1], 3, map[], {0}, map[], {0}, map[]));
    assert [1, 2][0] == 1 && [1, 2][1] == 2;
  }
}
