/** Event flags over whole runs: where every bit that is set goes. */
module EventLedger {
  import opened Base
  import opened WaitQueue
  import opened Kernel
  import opened Separation
  import opened Effects
  import opened Roles
  import opened ObjectFrame
  import opened Answers
  import EventSpec
  import EventWalk
  import EventRuns
  import Runs

  function One(p: bool): nat {
    if p then 1 else 0
  }

  // ---------- The walk hands a cleared bit to one task ----------

  /** A clear-on-exit waiter that the walk releases with bit `b`. */
  predicate Takes(v: EventSpec.View, r: EventSpec.View, b: Bit, x: Tid) {
    x in v.waiters && x !in r.waiters && Get(v.ts, x).waitClear && b in Get(r.ts, x).flagsResult
  }

  function Takers(v: EventSpec.View, r: EventSpec.View, b: Bit): set<Tid> {
    set x | x in v.waiters && Takes(v, r, b, x)
  }

  lemma TakesHead(v: EventSpec.View, b: Bit)
    requires NoDup(v.waiters) && v.waiters != []
    ensures var x, u := v.waiters[0], EventSpec.Rest(v);
            && !Takes(u, EventSpec.Walk(u).0, b, x)
            && (Takes(v, EventSpec.Walk(v).0, b, x) <==> EventSpec.Hit(v) && Get(v.ts, x).waitClear && b in EventSpec.Bits(v))
  {
    var x, u := v.waiters[0], EventSpec.Rest(v);
    EventWalk.WalkMembers(u);
    EventWalk.WalkFrame(u, x);
  }

  lemma TakesTail(v: EventSpec.View, b: Bit, y: Tid)
    requires NoDup(v.waiters) && v.waiters != [] && y != v.waiters[0]
    ensures Takes(v, EventSpec.Walk(v).0, b, y) <==> Takes(EventSpec.Rest(v), EventSpec.Walk(EventSpec.Rest(v)).0, b, y)
  {
    assert v.waiters == [v.waiters[0]] + v.waiters[1..];
    EventWalk.RestKeepsRequests(v, y);
  }

  lemma TakersRest(v: EventSpec.View, b: Bit)
    requires NoDup(v.waiters) && v.waiters != []
    ensures var x, u := v.waiters[0], EventSpec.Rest(v);
            && x !in Takers(u, EventSpec.Walk(u).0, b)
            && Takers(v, EventSpec.Walk(v).0, b) ==
                 Takers(u, EventSpec.Walk(u).0, b) + if Takes(v, EventSpec.Walk(v).0, b, x) then {x} else {}
  {
    TakesHead(v, b);
    forall y: Tid | y != v.waiters[0]
      ensures Takes(v, EventSpec.Walk(v).0, b, y) <==> Takes(EventSpec.Rest(v), EventSpec.Walk(EventSpec.Rest(v)).0, b, y)
    {
      TakesTail(v, b, y);
    }
  }

  /** A bit that is set before the walk is set after it, or was taken by exactly one task. */
  lemma {:induction false} WalkTakesOnce(v: EventSpec.View, b: Bit)
    requires NoDup(v.waiters)
    ensures One(b in EventSpec.Walk(v).0.flags) + |Takers(v, EventSpec.Walk(v).0, b)| == One(b in v.flags)
    decreases |v.waiters|
  {
    if v.waiters == [] {
      assert Takers(v, EventSpec.Walk(v).0, b) == {};
    } else {
      TakersRest(v, b);
      TakesHead(v, b);
      WalkTakesOnce(EventSpec.Rest(v), b);
    }
  }

  // ---------- One step ----------

  predicate Puts(a: Action, e: nat, b: Bit) {
    a.SetFlags? && a.e == e && b in a.flags
  }

  predicate Drops(a: Action, e: nat, b: Bit) {
    a.ClearFlags? && a.e == e && b in a.flags
  }

  /** The last call to return was a wait for `e` that reported `b`. */
  predicate ReportsBit(k: Kernel, k': Kernel, e: nat, b: Bit) {
    |k'.log| == |k.log| + 1 && k'.log[|k.log|].Flagged? && k'.log[|k.log|].e == e
    && k'.log[|k.log|].status == Status.Ok && b in k'.log[|k.log|].bits
  }

  /** The clear-on-exit waiters of `e` that left the list with `b`. */
  function Released(k: Kernel, k': Kernel, e: nat, b: Bit): set<Tid> {
    set x | x in ListOf(k, EventList(e)) && x !in ListOf(k', EventList(e)) && Get(k.tasks, x).waitClear && b in Get(k'.tasks, x).flagsResult
  }

  /** How many clearing waits for `e` receive `b` in the step. */
  function Taken(k: Kernel, a: Action, e: nat, b: Bit): nat
    requires Enabled(k, a)
  {
    match a
    case Invoke(EventReq(e', _, _, clear, _)) => One(e' == e && clear && ReportsBit(k, Apply(k, a), e, b))
    case SetFlags(e', _) => if e' == e then |Released(k, Apply(k, a), e, b)| else 0
    case _ => 0
  }

  /** A bit set before the step, or by it, is set after it, was taken by exactly one clearing
      wait, or was cleared by hand. */
  ghost predicate Balanced(k: Kernel, a: Action, e: nat, b: Bit)
    requires Enabled(k, a) && e in k.events
  {
    && e in Apply(k, a).events
    && One(b in Apply(k, a).events[e]) + Taken(k, a, e, b) == if Drops(a, e, b) then 0 else One(b in k.events[e] || Puts(a, e, b))
  }

  lemma SetReleases(k: Kernel, e: nat, flags: Flags, b: Bit)
    requires Sep(k) && e in k.events
    ensures var k' := DoSetFlags(k, e, flags);
            e in k'.events && One(b in k'.events[e]) + |Released(k, k', e, b)| == One(b in k.events[e] || b in flags)
  {
    var k' := DoSetFlags(k, e, flags);
    if flags == {} {
      assert Released(k, k', e, b) == {};
    } else {
      var v := EventView(k, e).(flags := k.events[e] + flags);
      WalkTakesOnce(v, b);
      assert Released(k, k', e, b) == Takers(v, EventSpec.Walk(v).0, b);
    }
  }

  lemma WaitTakes(k: Kernel, req: Request, b: Bit)
    requires InCall(k, req) && req.EventReq?
    ensures var k' := TryEvent(k, req);
            && req.e in k'.events
            && One(b in k'.events[req.e]) + One(req.clear && ReportsBit(k, k', req.e, b)) == One(b in k.events[req.e])
  {
    EventAnswers(k, req);
  }

  lemma NothingTaken(k: Kernel, a: Action, e: nat, b: Bit)
    requires Enabled(k, a) && Concerns(k, a) != Some(EventObj(e))
    ensures Taken(k, a, e, b) == 0 && !Puts(a, e, b) && !Drops(a, e, b)
  {
  }

  lemma SameFlags(k: Kernel, k': Kernel, e: nat)
    requires SameObject(k, k', EventObj(e)) && e in k.events
    ensures e in k'.events && k'.events[e] == k.events[e]
  {
  }

  lemma FlagsKept(k: Kernel, a: Action, e: nat)
    requires Sep(k) && Enabled(k, a) && e in k.events && Concerns(k, a) != Some(EventObj(e))
    ensures e in Apply(k, a).events && Apply(k, a).events[e] == k.events[e]
  {
    ActionApart(k, a, EventObj(e));
    SameFlags(k, Apply(k, a), e);
  }

  lemma BitApart(k: Kernel, a: Action, e: nat, b: Bit)
    requires Sep(k) && Enabled(k, a) && e in k.events && Concerns(k, a) != Some(EventObj(e))
    ensures Balanced(k, a, e, b)
  {
    NothingTaken(k, a, e, b);
    FlagsKept(k, a, e);
  }

  lemma BitInvoke(k: Kernel, req: Request, b: Bit)
    requires Sep(k) && Enabled(k, Invoke(req)) && req.EventReq?
    ensures Balanced(k, Invoke(req), req.e, b)
  {
    WaitTakes(k, req, b);
  }

  lemma BitSet(k: Kernel, e: nat, flags: Flags, b: Bit)
    requires Sep(k) && Enabled(k, SetFlags(e, flags))
    ensures Balanced(k, SetFlags(e, flags), e, b)
  {
    SetReleases(k, e, flags, b);
  }

  lemma BitCleared(k: Kernel, e: nat, flags: Flags, b: Bit)
    requires Enabled(k, ClearFlags(e, flags))
    ensures Balanced(k, ClearFlags(e, flags), e, b)
  {
  }

  lemma BitResume(k: Kernel, b: Bit)
    requires Enabled(k, Resume) && CallOf(k, k.current).req.EventReq?
    ensures Balanced(k, Resume, CallOf(k, k.current).req.e, b)
  {
  }

  lemma BitFlags(k: Kernel, a: Action, e: nat, b: Bit)
    requires Sep(k) && Enabled(k, a) && (a.SetFlags? || a.ClearFlags?) && a.e == e
    ensures Balanced(k, a, e, b)
  {
    if a.SetFlags? { BitSet(k, e, a.flags, b); } else { BitCleared(k, e, a.flags, b); }
  }

  lemma BitStep(k: Kernel, a: Action, e: nat, b: Bit)
    requires Sep(k) && Enabled(k, a) && e in k.events
    ensures Balanced(k, a, e, b)
  {
    if a.Retry? { RetriesLoop(k); }
    if Concerns(k, a) != Some(EventObj(e)) {
      BitApart(k, a, e, b);
    } else if a.SetFlags? || a.ClearFlags? {
      BitFlags(k, a, e, b);
    } else if a.Invoke? {
      BitInvoke(k, a.req, b);
    } else {
      BitResume(k, b);
    }
  }

  // ---------- Whole runs ----------

  ghost function TakenIn(k: Kernel, acts: seq<Action>, e: nat, b: Bit): nat
    requires Legal(k, acts)
    decreases |acts|
  {
    if acts == [] then 0 else Taken(k, acts[0], e, b) + TakenIn(Apply(k, acts[0]), acts[1..], e, b)
  }

  /** Times the bit went from 0 to 1. */
  ghost function RaisedIn(k: Kernel, acts: seq<Action>, e: nat, b: Bit): nat
    requires Legal(k, acts)
    decreases |acts|
  {
    if acts == [] then 0
    else
      One(Puts(acts[0], e, b) && !(e in k.events && b in k.events[e])) + RaisedIn(Apply(k, acts[0]), acts[1..], e, b)
  }

  /** Times it was cleared by hand. */
  ghost function DroppedIn(k: Kernel, acts: seq<Action>, e: nat, b: Bit): nat
    requires Legal(k, acts)
    decreases |acts|
  {
    if acts == [] then 0
    else
      One(Drops(acts[0], e, b) && e in k.events && b in k.events[e]) + DroppedIn(Apply(k, acts[0]), acts[1..], e, b)
  }

  function SetsIn(acts: seq<Action>, e: nat, b: Bit): nat {
    if acts == [] then 0 else One(Puts(acts[0], e, b)) + SetsIn(acts[1..], e, b)
  }

  lemma {:induction false} BitRun(k: Kernel, acts: seq<Action>, e: nat, b: Bit)
    requires Sep(k) && Legal(k, acts) && e in k.events
    ensures e in Run(k, acts).events
    ensures One(b in k.events[e]) + RaisedIn(k, acts, e, b) ==
              One(b in Run(k, acts).events[e]) + TakenIn(k, acts, e, b) + DroppedIn(k, acts, e, b)
    ensures RaisedIn(k, acts, e, b) <= SetsIn(acts, e, b)
    decreases |acts|
  {
    if acts != [] {
      BitStep(k, acts[0], e, b);
      SepStep(k, acts[0]);
      BitRun(Apply(k, acts[0]), acts[1..], e, b);
    }
  }

  /** Where the bits go: each time a bit goes from 0 to 1 it ends in exactly one clearing wait,
      is cleared by hand, or is still set. So one set serves at most one clearing wait. */
  lemma EachSetServesOnce(k: Kernel, acts: seq<Action>, e: nat, b: Bit)
    requires Init(k) && Legal(k, acts) && e in k.events
    ensures e in Run(k, acts).events
    ensures One(b in k.events[e]) + RaisedIn(k, acts, e, b) ==
              One(b in Run(k, acts).events[e]) + TakenIn(k, acts, e, b) + DroppedIn(k, acts, e, b)
    ensures TakenIn(k, acts, e, b) <= One(b in k.events[e]) + SetsIn(acts, e, b)
  {
    Runs.InitSep(k);
    BitRun(k, acts, e, b);
  }

  // ---------- A waiter is served what it asked for ----------

  predicate Asks(c: Tcb, call: Call) {
    && call.Waiting? && call.req.EventReq?
    && c.waitFlags == call.req.flags && c.waitAll == call.req.all && c.waitClear == call.req.clear
  }

  /** The control block of every waiter of `e` says what its call asked for. */
  ghost predicate AsAsked(k: Kernel, e: nat) {
    forall x: Tid :: Role(WaitsOf(k), x) == Parked(EventList(e)) || Role(WaitsOf(k), x) == Woken(EventList(e)) ==> Asks(Get(k.tasks, x), CallOf(k, x))
  }

  lemma AskedUndisturbed(k: Kernel, k': Kernel, e: nat)
    requires AsAsked(k, e) && Undisturbed(WaitsOf(k), WaitsOf(k'), EventList(e))
    ensures AsAsked(k', e)
  {
  }

  lemma SetKeepsAsked(k: Kernel, e: nat, flags: Flags)
    requires Sep(k) && e in k.events && AsAsked(k, e)
    ensures AsAsked(DoSetFlags(k, e, flags), e)
  {
    var k' := DoSetFlags(k, e, flags);
    SetFlagsWakesMany(k, e, flags);
    forall x: Tid | Role(WaitsOf(k'), x) == Parked(EventList(e)) || Role(WaitsOf(k'), x) == Woken(EventList(e))
      ensures Asks(Get(k'.tasks, x), CallOf(k', x))
    {
      WakesManyRoles(WaitsOf(k), WaitsOf(k'), EventList(e), x);
      if flags != {} { EventWalk.WalkFrame(EventView(k, e).(flags := k.events[e] + flags), x); }
    }
  }

  lemma WaitKeepsAsked(k: Kernel, req: Request)
    requires Attempting(k, req) && req.EventReq? && AsAsked(k, req.e)
    ensures AsAsked(TryEvent(k, req), req.e)
  {
    var w, v := WaitsOf(k), WaitsOf(TryEvent(k, req));
    if EventReturns(k, req) {
      EventMovesOn(k, req);
      MovesOnRoles(w, v, k.current, Free);
    } else {
      EventParks(k, req);
      ParksInRoles(w, v, EventList(req.e), k.current, req);
    }
  }

  lemma EndKeepsAsked(k: Kernel, req: Request)
    requires Continuing(k, req) && req.EventReq? && AsAsked(k, req.e)
    ensures AsAsked(EndEvent(k, req), req.e)
  {
    var w, v := WaitsOf(k), WaitsOf(EndEvent(k, req));
    if Get(k.tasks, k.current).result == Timeout {
      EndEventUnlinks(k, req);
      UnlinksRoles(w, v, EventList(req.e), k.current);
    } else {
      EndEventReturns(k, req);
      MovesOnRoles(w, v, k.current, Free);
    }
  }

  lemma AskedApart(k: Kernel, a: Action, e: nat)
    requires Sep(k) && Enabled(k, a) && AsAsked(k, e) && Concerns(k, a) != Some(EventObj(e))
    ensures AsAsked(Apply(k, a), e)
  {
    OthersLeftAlone(k, a, EventList(e));
    AskedUndisturbed(k, Apply(k, a), e);
  }

  lemma ClearKeepsAsked(k: Kernel, e: nat, flags: Flags)
    requires Enabled(k, ClearFlags(e, flags)) && AsAsked(k, e)
    ensures AsAsked(Apply(k, ClearFlags(e, flags)), e)
  {
  }

  lemma OwnKeepsAsked(k: Kernel, a: Action, e: nat)
    requires Sep(k) && Enabled(k, a) && e in k.events && AsAsked(k, e) && Concerns(k, a) == Some(EventObj(e)) && (a.Invoke? || a.Resume?)
    ensures AsAsked(Apply(k, a), e)
  {
    if a.Invoke? { WaitKeepsAsked(k, a.req); } else { EndKeepsAsked(k, CallOf(k, k.current).req); }
  }

  lemma FlagsKeepAsked(k: Kernel, a: Action, e: nat)
    requires Sep(k) && Enabled(k, a) && AsAsked(k, e) && Concerns(k, a) == Some(EventObj(e)) && (a.SetFlags? || a.ClearFlags?)
    ensures AsAsked(Apply(k, a), e)
  {
    if a.SetFlags? { SetKeepsAsked(k, e, a.flags); } else { ClearKeepsAsked(k, e, a.flags); }
  }

  lemma AskedStep(k: Kernel, a: Action, e: nat)
    requires Sep(k) && Enabled(k, a) && e in k.events && AsAsked(k, e)
    ensures AsAsked(Apply(k, a), e)
  {
    if a.Retry? { RetriesLoop(k); }
    if Concerns(k, a) != Some(EventObj(e)) {
      AskedApart(k, a, e);
    } else if a.SetFlags? || a.ClearFlags? {
      FlagsKeepAsked(k, a, e);
    } else {
      OwnKeepsAsked(k, a, e);
    }
  }

  lemma {:induction false} AskedRun(k: Kernel, acts: seq<Action>, e: nat)
    requires Sep(k) && Legal(k, acts) && e in k.events && AsAsked(k, e)
    ensures AsAsked(Run(k, acts), e)
    decreases |acts|
  {
    if acts != [] {
      SepStep(k, acts[0]);
      FlagsStay(k, acts[0], e);
      AskedStep(k, acts[0], e);
      AskedRun(Apply(k, acts[0]), acts[1..], e);
    }
  }

  lemma FlagsStay(k: Kernel, a: Action, e: nat)
    requires Sep(k) && Enabled(k, a) && e in k.events
    ensures e in Apply(k, a).events
  {
    BitStep(k, a, e, 0);
  }

  /** The answer of a wait that was asked for `flags`: some of them that are all for wait-all. */
  predicate Serves(bits: Flags, req: Request)
    requires req.EventReq?
  {
    bits != {} && bits <= req.flags && (req.all ==> bits == req.flags)
  }

  /** A task that resumes a wait for event flags reports its timeout, or the bits its waker
      gave it: a part of what its call asked for, nonempty, and all of it for wait-all. */
  lemma ResumedWaitIsServed(k: Kernel, acts: seq<Action>, req: Request)
    requires Init(k) && Legal(k, acts) && Enabled(Run(k, acts), Resume)
    requires req == CallOf(Run(k, acts), Run(k, acts).current).req && req.EventReq? && req.e in k.events
    ensures var r := Run(k, acts); var c := Get(r.tasks, r.current);
            if c.result == Timeout then AnswersWith(r, Apply(r, Resume), TimedOut(req, r.current))
            else AnswersWith(r, Apply(r, Resume), Flagged(req.e, c.flagsResult, Status.Ok)) && Serves(c.flagsResult, req)
  {
    var r := Run(k, acts);
    Runs.AlwaysSafe(k, acts);
    AskedAlways(k, acts, req.e);
    assert EventRuns.EventOk(r, req.e);
    ResumeAnswers(r, req);
    if Get(r.tasks, r.current).result != Timeout { ServedAsAsked(r, req); }
  }

  lemma AskedAlways(k: Kernel, acts: seq<Action>, e: nat)
    requires Init(k) && Legal(k, acts) && e in k.events
    ensures AsAsked(Run(k, acts), e)
  {
    Runs.InitSep(k);
    AskedRun(k, acts, e);
  }

  lemma ServedAsAsked(k: Kernel, req: Request)
    requires Continuing(k, req) && req.EventReq? && AsAsked(k, req.e) && EventRuns.EventOk(k, req.e)
    requires Get(k.tasks, k.current).result != Timeout
    ensures Serves(Get(k.tasks, k.current).flagsResult, req)
  {
    assert Coherent(Get(k.tasks, k.current), CallOf(k, k.current));
    assert Role(WaitsOf(k), k.current) == Woken(EventList(req.e));
  }
}
