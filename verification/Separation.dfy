/** Wait-list separation: in every reachable state each task is linked in at most
    one list of one object, exactly where its own call parked it. */
module Separation {
  import opened Base
  import opened WaitQueue
  import opened Kernel

  /** The part of the kernel state that blocking is about. */
  datatype Waits = Waits(ts: seq<Tcb>, calls: seq<Call>, lists: map<Lid, seq<Tid>>)

  function WaitsOf(k: Kernel): Waits {
    Waits(k.tasks, k.calls, k.lists)
  }

  /** The task's current call parked it in `l`. */
  predicate ParkedIn(call: Call, l: Lid) {
    call.Waiting? && ListFor(call.req) == Some(l)
  }

  /** The calls whose woken waiters go round a retry loop. */
  predicate CanRetry(r: Request) {
    r.SendReq? || r.RecvReq? || r.LockReq? || r.AllocReq?
  }

  /** Control block and control point agree. */
  predicate Coherent(c: Tcb, call: Call) {
    match call
    case Free => c.state != Blocked
    case Waiting(r) =>
      && c.state != Stopped && (c.result == Status.Ok || c.result == Timeout) && Milliseconds(r) != 0
      && (c.state == Blocked ==> c.result == Status.Ok && c.waitType == WaitTypeFor(r))
    case Retrying(r) => (c.state == Ready || c.state == Running) && CanRetry(r)
  }

  ghost predicate Acyclic(w: Waits) {
    forall l :: NoDup(ListAt(w.lists, l))
  }

  /** A linked task is parked in that list; once it no longer blocks it has timed out. */
  ghost predicate LinkedAreParked(w: Waits) {
    forall l, t :: t in ListAt(w.lists, l) ==>
      ParkedIn(CallAt(w.calls, t), l) && (IsValidWaiter(Get(w.ts, t)) || IsLate(Get(w.ts, t)))
  }

  /** A task blocked on a list is linked in it. */
  ghost predicate BlockedAreLinked(w: Waits) {
    forall l, t :: ParkedIn(CallAt(w.calls, t), l) && IsValidWaiter(Get(w.ts, t)) ==> t in ListAt(w.lists, l)
  }

  ghost predicate AllCoherent(w: Waits) {
    forall t: Tid :: Coherent(Get(w.ts, t), CallAt(w.calls, t))
  }

  ghost predicate Separated(w: Waits) {
    |w.calls| == |w.ts| && Acyclic(w) && LinkedAreParked(w) && BlockedAreLinked(w) && AllCoherent(w)
  }

  ghost predicate Sep(k: Kernel) {
    Separated(WaitsOf(k))
  }

  // ---------- Effects: the ways a step can change the wait state ----------

  /** Nothing changed but priorities, notification fields and the choice of who runs. */
  predicate Same(c: Tcb, d: Tcb) {
    && d.(state := c.state, priority := c.priority, notifyValue := c.notifyValue, notifyPending := c.notifyPending) == c
    && (d.state == c.state || ((c.state == Ready || c.state == Running) && (d.state == Ready || d.state == Running)))
  }

  ghost predicate OthersSame(w: Waits, v: Waits, t: Tid) {
    |v.ts| == |w.ts| && forall x: Tid :: x != t ==> Same(Get(w.ts, x), Get(v.ts, x))
  }

  /** `v` differs from `w` in list `l` only. */
  ghost predicate OnlyList(w: Waits, v: Waits, l: Lid) {
    forall l' :: l' != l ==> ListAt(v.lists, l') == ListAt(w.lists, l')
  }

  ghost predicate ListsSame(w: Waits, v: Waits) {
    forall l :: ListAt(v.lists, l) == ListAt(w.lists, l)
  }

  /** How a control block may change in a step of somebody else that touches no list:
      as `Same`, by a release from the tick or a notification, or outside all calls. */
  predicate Drifts(c: Tcb, d: Tcb, call: Call) {
    || Same(c, d)
    || (d.state == Blocked && c == d.(delay := c.delay))
    || (c.state == Blocked && d == c.(delay := 0, state := Ready, result := Timeout))
    || (c.state == Blocked && d.state == Ready && d.result == Status.Ok && d.delay == 0 && call.Waiting? && ListFor(call.req).None?)
    || (call == Free && d.state != Blocked)
  }

  /** Ticks, context switches, notifications, creation and exit. */
  ghost predicate Drift(w: Waits, v: Waits) {
    && |v.calls| == |v.ts| && ListsSame(w, v)
    && (forall x: Tid :: CallAt(v.calls, x) == CallAt(w.calls, x))
    && (forall x: Tid :: Drifts(Get(w.ts, x), Get(v.ts, x), CallAt(w.calls, x)))
  }

  /** Task `t`, which is not linked, returns or starts to retry. */
  ghost predicate MovesOn(w: Waits, v: Waits, t: Tid, c: Call) {
    && OthersSame(w, v, t) && ListsSame(w, v) && t < |w.ts|
    && Get(w.ts, t).state == Running && Get(v.ts, t).state == Running
    && (CallAt(w.calls, t).Waiting? ==> Get(w.ts, t).result != Timeout || ListFor(CallAt(w.calls, t).req).None?)
    && v.calls == SetCall(w.calls, t, c)
    && (c == Free || (c.Retrying? && CanRetry(c.req) && !CallAt(w.calls, t).Free? && CallAt(w.calls, t).req == c.req))
  }

  /** Ready with RTOS_OK, and waiting neither for ticks nor for anything else. */
  predicate LetGo(c: Tcb) {
    c.state == Ready && c.result == Status.Ok && c.delay == 0 && c.waitType == WaitNone
  }

  /** The first valid waiter of `l`, if there is one, is released. */
  ghost predicate Wakes(w: Waits, v: Waits, l: Lid) {
    && OnlyList(w, v, l) && v.calls == w.calls && |v.ts| == |w.ts|
    && ListAt(v.lists, l) == PopRest(w.ts, ListAt(w.lists, l))
    && match PopTask(w.ts, ListAt(w.lists, l))
       case None => forall x: Tid :: Same(Get(w.ts, x), Get(v.ts, x))
       case Some(x) => OthersSame(w, v, x) && LetGo(Get(v.ts, x))
  }

  /** A call that succeeds at once and releases a waiter of the other side. */
  ghost predicate WakesAndReturns(w: Waits, v: Waits, l: Lid, t: Tid) {
    && OnlyList(w, v, l) && t < |w.ts| && Get(w.ts, t).state == Running && !CallAt(w.calls, t).Waiting?
    && ListAt(v.lists, l) == PopRest(w.ts, ListAt(w.lists, l))
    && v.ts == WakeFirst(w.ts, ListAt(w.lists, l)) && v.calls == SetCall(w.calls, t, Free)
  }

  /** Task `t` blocks in the list of its request. */
  ghost predicate ParksIn(w: Waits, v: Waits, l: Lid, t: Tid, r: Request) {
    && OnlyList(w, v, l) && OthersSame(w, v, t) && t < |w.ts|
    && Get(w.ts, t).state == Running && !CallAt(w.calls, t).Waiting?
    && ListFor(r) == Some(l) && Milliseconds(r) != 0
    && ListAt(v.lists, l) == Push(v.ts, ListAt(w.lists, l), t) && v.calls == SetCall(w.calls, t, Waiting(r))
    && Blocks(Get(v.ts, t), r)
  }

  predicate Blocks(c: Tcb, r: Request) {
    c.state == Blocked && c.result == Status.Ok && c.waitType == WaitTypeFor(r) && c.delay == MsToTicks(Milliseconds(r))
  }

  /** Task `t` blocks in no list: it sleeps or waits for a notification. */
  ghost predicate ParksAlone(w: Waits, v: Waits, t: Tid, r: Request) {
    && ListsSame(w, v) && OthersSame(w, v, t) && t < |w.ts|
    && Get(w.ts, t).state == Running && !CallAt(w.calls, t).Waiting?
    && ListFor(r) == None && Milliseconds(r) != 0
    && v.calls == SetCall(w.calls, t, Waiting(r))
    && Blocks(Get(v.ts, t), r)
  }

  /** A timed-out task leaves its list, and the call. */
  ghost predicate Unlinks(w: Waits, v: Waits, l: Lid, t: Tid) {
    && OnlyList(w, v, l) && OthersSame(w, v, t) && t < |w.ts|
    && ParkedIn(CallAt(w.calls, t), l) && Get(w.ts, t).state == Running && Get(w.ts, t).result == Timeout
    && ListAt(v.lists, l) == Remove(ListAt(w.lists, l), t) && v.calls == SetCall(w.calls, t, Free)
    && Get(v.ts, t).state == Running
  }

  /** A walk over `l` releases some valid waiters and leaves the others linked in order. */
  ghost predicate WakesMany(w: Waits, v: Waits, l: Lid) {
    && OnlyList(w, v, l) && v.calls == w.calls && |v.ts| == |w.ts|
    && NoDup(ListAt(v.lists, l)) && (forall x :: x in ListAt(v.lists, l) ==> x in ListAt(w.lists, l))
    && (forall x: Tid :: Same(Get(w.ts, x), Get(v.ts, x))
          || (x in ListAt(w.lists, l) && IsValidWaiter(Get(w.ts, x)) && LetGo(Get(v.ts, x))))
    && (forall x :: x in ListAt(w.lists, l) ==> (x in ListAt(v.lists, l) <==> Same(Get(w.ts, x), Get(v.ts, x))))
  }

  // ---------- Every effect keeps the separation ----------

  lemma DriftKeeps(w: Waits, v: Waits)
    requires Separated(w) && Drift(w, v)
    ensures Separated(v)
  {
  }

  lemma MovesOnKeeps(w: Waits, v: Waits, t: Tid, c: Call)
    requires Separated(w) && MovesOn(w, v, t, c)
    ensures Separated(v)
  {
  }

  lemma WakesMembers(w: Waits, v: Waits, l: Lid)
    requires Separated(w) && Wakes(w, v, l)
    ensures Acyclic(v) && forall l', x :: x in ListAt(v.lists, l') ==> x in ListAt(w.lists, l') && Same(Get(w.ts, x), Get(v.ts, x))
  {
    PopMembers(w.ts, ListAt(w.lists, l));
  }

  lemma WakesCoherent(w: Waits, v: Waits, l: Lid)
    requires Separated(w) && Wakes(w, v, l)
    ensures AllCoherent(v)
  {
    forall x: Tid ensures Coherent(Get(v.ts, x), CallAt(v.calls, x)) {
      assert Coherent(Get(w.ts, x), CallAt(w.calls, x));
      if PopTask(w.ts, ListAt(w.lists, l)) == Some(x) {
        assert ParkedIn(CallAt(w.calls, x), l);
      } else {
        assert Same(Get(w.ts, x), Get(v.ts, x));
      }
    }
  }

  lemma WakesKeepsLinked(w: Waits, v: Waits, l: Lid)
    requires Separated(w) && Wakes(w, v, l)
    ensures BlockedAreLinked(v)
  {
    PopMembers(w.ts, ListAt(w.lists, l));
  }

  lemma WakesKeeps(w: Waits, v: Waits, l: Lid)
    requires Separated(w) && Wakes(w, v, l)
    ensures Separated(v)
  {
    WakesMembers(w, v, l);
    WakesCoherent(w, v, l);
    WakesKeepsLinked(w, v, l);
  }

  lemma WakesAndReturnsKeeps(w: Waits, v: Waits, l: Lid, t: Tid)
    requires Separated(w) && WakesAndReturns(w, v, l, t)
    ensures Separated(v)
  {
    var u := v.(calls := w.calls);
    WakesKeeps(w, u, l);
    MovesOnKeeps(u, v, t, Free);
  }

  lemma ParksInKeeps(w: Waits, v: Waits, l: Lid, t: Tid, r: Request)
    requires Separated(w) && ParksIn(w, v, l, t, r)
    ensures Separated(v)
  {
    assert t !in ListAt(w.lists, l);
    PushMembers(v.ts, ListAt(w.lists, l), t);
  }

  lemma ParksAloneKeeps(w: Waits, v: Waits, t: Tid, r: Request)
    requires Separated(w) && ParksAlone(w, v, t, r)
    ensures Separated(v)
  {
  }

  lemma UnlinkMembers(w: Waits, v: Waits, l: Lid, t: Tid)
    requires Separated(w) && Unlinks(w, v, l, t)
    ensures Acyclic(v)
    ensures forall l', x :: x in ListAt(v.lists, l') <==> x in ListAt(w.lists, l') && x != t
  {
    RemoveMembers(ListAt(w.lists, l), t);
    forall l', x ensures x in ListAt(v.lists, l') <==> x in ListAt(w.lists, l') && x != t {
      assert t in ListAt(w.lists, l') ==> ParkedIn(CallAt(w.calls, t), l');
    }
  }

  lemma UnlinksKeeps(w: Waits, v: Waits, l: Lid, t: Tid)
    requires Separated(w) && Unlinks(w, v, l, t)
    ensures Separated(v)
  {
    UnlinkMembers(w, v, l, t);
  }

  lemma WakesManyKeeps(w: Waits, v: Waits, l: Lid)
    requires Separated(w) && WakesMany(w, v, l)
    ensures Separated(v)
  {
  }
}
