/** Following the kernel through concrete runs, on the part of its state they are about. */
module Scenarios {
  import opened Base
  import opened WaitQueue
  import opened Kernel
  import EventSpec
  import MutexSpec
  import SchedRuns
  import SchedSpec

  /** The part of a kernel with one mutex and one event group, both numbered 0, that the
      runs are about. */
  datatype State = State(
    tasks: seq<Tcb>, calls: seq<Call>, current: Tid, ring: seq<Tid>, schedLock: uint32,
    m: MutexSpec.MutexVal, lockers: seq<Tid>, flags: Flags, sleepers: seq<Tid>)

  ghost predicate Is(k: Kernel, s: State) {
    && k.tasks == s.tasks && k.calls == s.calls && k.current == s.current && k.ring == s.ring && k.schedLock == s.schedLock
    && 0 in k.mutexes && k.mutexes[0] == s.m && ListOf(k, MutexList(0)) == s.lockers
    && 0 in k.events && k.events[0] == s.flags && ListOf(k, EventList(0)) == s.sleepers
  }

  function CallAfter(s: State, req: Request, o: Outcome): seq<Call> {
    match o
    case Returns(_) => SetCall(s.calls, s.current, Free)
    case Parks => SetCall(s.calls, s.current, Waiting(req))
    case Retries => SetCall(s.calls, s.current, Retrying(req))
  }

  /** Second region of `rtos_event_flags_wait`. */
  function Resumed(s: State): State {
    var (ts, l, _, _) := EventSpec.Resume(s.tasks, s.sleepers, s.current);
    s.(tasks := ts, sleepers := l, calls := SetCall(s.calls, s.current, Free))
  }

  function Scheduled(s: State): SchedSpec.View {
    SchedSpec.ScheduleNext(SchedSpec.View(s.tasks, s.current, s.ring, s.schedLock, false))
  }

  /** The actions of the runs, on that part. */
  function Sim(s: State, a: Action): State {
    match a
    case Invoke(LockReq(_, timeout)) =>
      var (v, o) := MutexSpec.Lock(MutexSpec.View(s.tasks, s.m, s.lockers), s.current, timeout);
      s.(tasks := v.ts, m := v.m, lockers := v.waiters, calls := CallAfter(s, a.req, o))
    case Invoke(EventReq(_, flags, all, clear, timeout)) =>
      var (v, _, o) := EventSpec.Wait(EventSpec.View(s.tasks, s.flags, s.sleepers), s.current, flags, all, clear, timeout);
      s.(tasks := v.ts, flags := v.flags, sleepers := v.waiters, calls := CallAfter(s, a.req, o))
    case Unlock(_) =>
      var v := MutexSpec.Unlock(MutexSpec.View(s.tasks, s.m, s.lockers), s.current).0;
      s.(tasks := v.ts, m := v.m, lockers := v.waiters)
    case SetFlags(_, flags) =>
      var v := EventSpec.Set(EventSpec.View(s.tasks, s.flags, s.sleepers), flags).0;
      s.(tasks := v.ts, flags := v.flags, sleepers := v.waiters)
    case Resume => Resumed(s)
    case Switch => s.(tasks := Scheduled(s).ts, current := Scheduled(s).current)
    case SchedLock => s.(schedLock := (s.schedLock + 1) % 0x1_0000_0000)
    case _ => s
  }

  /** The action is one of these, and possible. */
  predicate Simulated(s: State, a: Action) {
    var call := CallAt(s.calls, s.current);
    var runs := s.current < |s.tasks| && Get(s.tasks, s.current).state == Running;
    var free := runs && call == Free;
    match a
    case Invoke(LockReq(m, _)) => free && m == 0
    case Invoke(EventReq(e, _, _, _, _)) => free && e == 0
    case Unlock(m) => free && m == 0
    case SetFlags(e, _) => e == 0
    case Resume => runs && call.Waiting? && call.req.EventReq? && call.req.e == 0
    case Switch => true
    case SchedLock => true
    case _ => false
  }

  lemma LockIs(k: Kernel, s: State, req: Request)
    requires Is(k, s) && req.LockReq? && req.m == 0 && AtLarge(k)
    ensures Is(TryLock(k, req), Sim(s, Invoke(req)))
  {
  }

  lemma WaitIs(k: Kernel, s: State, req: Request)
    requires Is(k, s) && req.EventReq? && req.e == 0 && AtLarge(k)
    ensures Is(TryEvent(k, req), Sim(s, Invoke(req)))
  {
  }

  lemma UnlockIs(k: Kernel, s: State)
    requires Is(k, s)
    ensures Is(DoUnlock(k, 0), Sim(s, Unlock(0)))
  {
  }

  lemma SetIs(k: Kernel, s: State, flags: Flags)
    requires Is(k, s)
    ensures Is(DoSetFlags(k, 0, flags), Sim(s, SetFlags(0, flags)))
  {
  }

  lemma ResumeIs(k: Kernel, s: State)
    requires Is(k, s) && Simulated(s, Resume)
    ensures Enabled(k, Resume) && Is(Apply(k, Resume), Sim(s, Resume))
  {
  }

  lemma SwitchIs(k: Kernel, s: State)
    requires Is(k, s)
    ensures Is(DoSwitch(k), Sim(s, Switch))
  {
  }

  lemma SimIs(k: Kernel, s: State, a: Action)
    requires Is(k, s) && Simulated(s, a)
    ensures Enabled(k, a) && Is(Apply(k, a), Sim(s, a))
  {
    if a.Invoke? {
      if a.req.LockReq? { LockIs(k, s, a.req); } else { WaitIs(k, s, a.req); }
    } else if a.Unlock? {
      UnlockIs(k, s);
    } else if a.SetFlags? {
      SetIs(k, s, a.flags);
    } else if a.Resume? {
      ResumeIs(k, s);
    } else if a.Switch? {
      SwitchIs(k, s);
    }
  }

  /** Each state leads to the next. */
  ghost predicate Leads(s: State, a: Action, next: State) {
    Simulated(s, a) && Sim(s, a) == next
  }

  /** A kernel follows the states, whatever their number. */
  lemma {:induction false} Follows(k: Kernel, states: seq<State>, acts: seq<Action>)
    requires |states| == |acts| + 1 && Is(k, states[0])
    requires forall i :: 0 <= i < |acts| ==> Leads(states[i], acts[i], states[i + 1])
    ensures Legal(k, acts) && Is(Run(k, acts), states[|acts|])
    decreases |acts|
  {
    if acts != [] {
      forall i | 0 <= i < |acts| - 1 ensures Leads(states[1..][i], acts[1..][i], states[1..][i + 1]) {
        assert Leads(states[i + 1], acts[i + 1], states[i + 1 + 1]);
      }
      assert Leads(states[0], acts[0], states[0 + 1]);
      SimIs(k, states[0], acts[0]);
      Follows(Apply(k, acts[0]), states[1..], acts[1..]);
    }
  }

  /** The scan takes its first task if that is ready and none of the others is higher. */
  lemma PickFirst(ts: seq<Tcb>, order: seq<Tid>)
    requires order != [] && Get(ts, order[0]).state == Ready
    requires forall i :: 0 <= i < |order| && Get(ts, order[i]).state == Ready ==> Get(ts, order[i]).priority <= Get(ts, order[0]).priority
    ensures SchedSpec.Pick(ts, order) == Some(order[0])
  {
    SchedRuns.PickIsBest(ts, order);
  }

  /** A context switch to the first task of the scan. */
  lemma SwitchLeads(s: State, ts: seq<Tcb>, order: seq<Tid>, t: State)
    requires s.schedLock == 0 && SchedSpec.ScanOrder(s.ring, s.current) == order
    requires ts == SchedSpec.Scanned(SchedSpec.View(s.tasks, s.current, s.ring, s.schedLock, false))
    requires order != [] && Get(ts, order[0]).state == Ready
    requires forall i :: 0 <= i < |order| && Get(ts, order[i]).state == Ready ==> Get(ts, order[i]).priority <= Get(ts, order[0]).priority
    requires t == s.(tasks := Put(ts, order[0], Get(ts, order[0]).(state := Running)), current := order[0])
    ensures Leads(s, Switch, t)
  {
    PickFirst(ts, order);
  }

  lemma OrderOfThree()
    ensures SchedSpec.ScanOrder([0, 1, 2], 0) == [1, 2, 0]
    ensures SchedSpec.ScanOrder([0, 1, 2], 1) == [2, 0, 1]
    ensures SchedSpec.ScanOrder([0, 1, 2], 2) == [0, 1, 2]
  {
    assert SchedSpec.Position([0, 1, 2], 0) == 0;
    assert SchedSpec.Position([0, 1, 2], 1) == 1;
    assert SchedSpec.Position([0, 1, 2], 2) == 2;
  }

  /** With no bit set a task that waits for one parks. */
  lemma NoMatch(flags: Flags)
    requires flags != {}
    ensures !EventSpec.Matches({}, flags, false) && EventSpec.Matched({}, flags, false) == {}
  {
  }
}
