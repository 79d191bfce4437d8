/** Event flags over whole runs: nobody sleeps whose condition holds, and what a
    released waiter reports is what it asked for. */
module EventRuns {
  import opened Base
  import opened WaitQueue
  import opened Kernel
  import opened Separation
  import opened Effects
  import opened Roles
  import opened ObjectFrame
  import EventSpec
  import EventWalk

  /** A parked waiter's condition does not hold now. */
  predicate Sleeps(flags: Flags, c: Tcb) {
    c.waitFlags != {} && !EventSpec.Satisfied(flags, c)
  }

  /** A released waiter carries a nonempty part of what it asked for, all of it for wait-all. */
  predicate Rewarded(c: Tcb) {
    c.flagsResult != {} && c.flagsResult <= c.waitFlags && (c.waitAll ==> c.flagsResult == c.waitFlags)
  }

  ghost predicate EventOk(k: Kernel, e: nat)
    requires e in k.events
  {
    forall x: Tid ::
      && (Role(WaitsOf(k), x) == Parked(EventList(e)) ==> Sleeps(k.events[e], Get(k.tasks, x)))
      && (Role(WaitsOf(k), x) == Woken(EventList(e)) ==> Rewarded(Get(k.tasks, x)))
  }

  lemma FewerFlagsSleep(low: Flags, high: Flags, c: Tcb)
    requires low <= high && Sleeps(high, c)
    ensures Sleeps(low, c)
  {
  }

  lemma WaitReturnsOk(k: Kernel, req: Request)
    requires Attempting(k, req) && req.EventReq? && EventReturns(k, req) && EventOk(k, req.e)
    ensures req.e in TryEvent(k, req).events && EventOk(TryEvent(k, req), req.e)
  {
    var k' := TryEvent(k, req);
    EventMovesOn(k, req);
    MovesOnRoles(WaitsOf(k), WaitsOf(k'), k.current, Free);
    assert k'.events[req.e] <= k.events[req.e];
    forall x: Tid | Role(WaitsOf(k'), x) == Parked(EventList(req.e)) ensures Sleeps(k'.events[req.e], Get(k'.tasks, x)) {
      FewerFlagsSleep(k'.events[req.e], k.events[req.e], Get(k.tasks, x));
    }
  }

  lemma WaitParksOk(k: Kernel, req: Request)
    requires Attempting(k, req) && req.EventReq? && !EventReturns(k, req) && EventOk(k, req.e)
    ensures req.e in TryEvent(k, req).events && EventOk(TryEvent(k, req), req.e)
  {
  }

  lemma EndOk(k: Kernel, req: Request)
    requires Continuing(k, req) && req.EventReq? && EventOk(k, req.e)
    ensures req.e in EndEvent(k, req).events && EventOk(EndEvent(k, req), req.e)
  {
  }

  lemma SetOk(k: Kernel, e: nat, flags: Flags, x: Tid)
    requires Sep(k) && e in k.events && flags != {} && EventOk(k, e)
    ensures var k' := DoSetFlags(k, e, flags);
            && e in k'.events
            && (Role(WaitsOf(k'), x) == Parked(EventList(e)) ==> Sleeps(k'.events[e], Get(k'.tasks, x)))
            && (Role(WaitsOf(k'), x) == Woken(EventList(e)) ==> Rewarded(Get(k'.tasks, x)))
  {
    var k' := DoSetFlags(k, e, flags);
    var w, v := WaitsOf(k), WaitsOf(k');
    var u := EventView(k, e).(flags := k.events[e] + flags);
    SetFlagsWakesMany(k, e, flags);
    WakesManyRoles(w, v, EventList(e), x);
    WakesManyKeeps(w, v, EventList(e));
    ParkedIffLinkedValid(w, EventList(e), x);
    ParkedIffLinkedValid(v, EventList(e), x);
    EventWalk.WalkFrame(u, x);
    if Role(v, x) == Parked(EventList(e)) {
      EventWalk.NobodySatisfiedIsLeft(u, x);
    } else if Role(v, x) == Woken(EventList(e)) && Role(w, x) == Parked(EventList(e)) {
      ReleasedIsRewarded(u, x);
    }
  }

  /** Each task the walk releases is in its release list, with sound bits. */
  lemma {:induction false} ReleasedIsRewarded(u: EventSpec.View, x: Tid)
    requires NoDup(u.waiters) && x in u.waiters && x !in EventSpec.Walk(u).0.waiters && Get(u.ts, x).waitFlags != {}
    ensures Rewarded(Get(EventSpec.Walk(u).0.ts, x))
    decreases |u.waiters|
  {
    var h, r := u.waiters[0], EventSpec.Rest(u);
    assert u.waiters == [h] + r.waiters && NoDup(r.waiters);
    assert x in EventSpec.Walk(r).0.waiters ==> x in EventSpec.Walk(u).0.waiters;
    EventWalk.RestKeepsRequests(u, x);
    if x == h {
      EventWalk.WalkFrame(r, x);
    } else {
      ReleasedIsRewarded(r, x);
    }
  }

  lemma EventUndisturbed(k: Kernel, k': Kernel, e: nat)
    requires e in k.events && EventOk(k, e)
    requires SameObject(k, k', EventObj(e)) && Undisturbed(WaitsOf(k), WaitsOf(k'), EventList(e))
    ensures e in k'.events && EventOk(k', e)
  {
  }

  lemma ClearOk(k: Kernel, e: nat, flags: Flags)
    requires e in k.events && EventOk(k, e)
    ensures EventOk(k.(events := k.events[e := k.events[e] - flags]), e)
  {
    var k' := k.(events := k.events[e := k.events[e] - flags]);
    forall x: Tid | Role(WaitsOf(k'), x) == Parked(EventList(e)) ensures Sleeps(k'.events[e], Get(k'.tasks, x)) {
      FewerFlagsSleep(k'.events[e], k.events[e], Get(k.tasks, x));
    }
  }

  lemma WaitOk(k: Kernel, req: Request)
    requires Attempting(k, req) && req.EventReq? && EventOk(k, req.e)
    ensures req.e in TryEvent(k, req).events && EventOk(TryEvent(k, req), req.e)
  {
    if EventReturns(k, req) { WaitReturnsOk(k, req); } else { WaitParksOk(k, req); }
  }

  lemma EventApart(k: Kernel, a: Action, e: nat)
    requires Sep(k) && Enabled(k, a) && e in k.events && EventOk(k, e) && Concerns(k, a) != Some(EventObj(e))
    ensures e in Apply(k, a).events && EventOk(Apply(k, a), e)
  {
    ActionApart(k, a, EventObj(e));
    OthersLeftAlone(k, a, EventList(e));
    EventUndisturbed(k, Apply(k, a), e);
  }

  lemma CallKeepsEvents(k: Kernel, a: Action, e: nat)
    requires Sep(k) && Enabled(k, a) && e in k.events && EventOk(k, e) && Concerns(k, a) == Some(EventObj(e)) && (a.Invoke? || a.Resume?)
    ensures e in Apply(k, a).events && EventOk(Apply(k, a), e)
  {
    if a.Invoke? { WaitOk(k, a.req); } else { EndOk(k, CallOf(k, k.current).req); }
  }

  lemma EventStep(k: Kernel, a: Action, e: nat)
    requires Sep(k) && Enabled(k, a) && e in k.events && EventOk(k, e)
    ensures e in Apply(k, a).events && EventOk(Apply(k, a), e)
  {
    if a.Retry? { RetriesLoop(k); }
    if Concerns(k, a) != Some(EventObj(e)) {
      EventApart(k, a, e);
    } else if a.SetFlags? {
      SetFlagsOk(k, e, a.flags);
    } else if a.ClearFlags? {
      ClearOk(k, e, a.flags);
    } else {
      CallKeepsEvents(k, a, e);
    }
  }

  lemma SetFlagsOk(k: Kernel, e: nat, flags: Flags)
    requires Sep(k) && e in k.events && EventOk(k, e)
    ensures e in DoSetFlags(k, e, flags).events && EventOk(DoSetFlags(k, e, flags), e)
  {
    var k' := DoSetFlags(k, e, flags);
    if flags != {} {
      forall x: Tid
        ensures Role(WaitsOf(k'), x) == Parked(EventList(e)) ==> Sleeps(k'.events[e], Get(k'.tasks, x))
        ensures Role(WaitsOf(k'), x) == Woken(EventList(e)) ==> Rewarded(Get(k'.tasks, x))
      {
        SetOk(k, e, flags, x);
      }
    } else {
      assert k'.tasks == k.tasks && k'.calls == k.calls && k'.events[e] == k.events[e];
      assert forall x: Tid :: Role(WaitsOf(k'), x) == Role(WaitsOf(k), x);
    }
  }
}
