/** The role each task plays for a wait list, and how every effect changes roles.
    Object invariants are stated on roles; lists follow from the separation. */
module Roles {
  import opened Base
  import opened WaitQueue
  import opened Kernel
  import opened Separation
  import opened Effects

  /** Parked: blocked and valid. Late: timed out, not yet unlinked. Woken: released and
      about to return or retry. Aside: in a call that uses no wait list. */
  datatype WaitRole = Outside | Parked(l: Lid) | Late(l: Lid) | Woken(l: Lid) | Aside

  function RoleOf(c: Tcb, call: Call): WaitRole {
    match call
    case Free => Outside
    case Waiting(r) =>
      (match ListFor(r)
       case None => Aside
       case Some(l) => if c.state == Blocked then Parked(l) else if c.result == Timeout then Late(l) else Woken(l))
    case Retrying(r) =>
      match ListFor(r)
      case None => Aside
      case Some(l) => Woken(l)
  }

  function Role(w: Waits, x: Tid): WaitRole {
    RoleOf(Get(w.ts, x), CallAt(w.calls, x))
  }

  /** Tasks released from `l` that have not run their next region yet. */
  function Pending(w: Waits, l: Lid): set<Tid> {
    set x: Tid | 0 <= x < |w.calls| && Role(w, x) == Woken(l)
  }

  ghost predicate RolesSameBut(w: Waits, v: Waits, t: Tid) {
    forall x: Tid :: x != t ==> Role(v, x) == Role(w, x)
  }

  ghost predicate SomeoneParked(w: Waits, l: Lid) {
    exists x: Tid :: Role(w, x) == Parked(l)
  }

  lemma ParkedIffLinkedValid(w: Waits, l: Lid, x: Tid)
    requires Separated(w)
    ensures Role(w, x) == Parked(l) <==> x in ListAt(w.lists, l) && IsValidWaiter(Get(w.ts, x))
  {
  }

  // ---------- Roles under each effect ----------

  lemma MovesOnRoles(w: Waits, v: Waits, t: Tid, c: Call)
    requires Separated(w) && MovesOn(w, v, t, c)
    ensures RolesSameBut(w, v, t)
    ensures Role(w, t) == Outside || Role(w, t) == Aside || Role(w, t).Woken?
    ensures c == Free ==> Role(v, t) == Outside
    ensures c.Retrying? ==> Role(v, t) == Role(w, t)
    ensures forall l :: Role(w, t) == Woken(l) ==> CallAt(w.calls, t) != Free && ListFor(CallAt(w.calls, t).req) == Some(l)
  {
  }

  lemma WakesRoles(w: Waits, v: Waits, l: Lid)
    requires Separated(w) && Wakes(w, v, l)
    ensures match PopTask(w.ts, ListAt(w.lists, l))
            case None => !SomeoneParked(w, l) && ListAt(v.lists, l) == [] && forall x: Tid :: Role(v, x) == Role(w, x)
            case Some(x) => RolesSameBut(w, v, x) && Role(w, x) == Parked(l) && Role(v, x) == Woken(l)
  {
  }

  lemma WakesAndReturnsRoles(w: Waits, v: Waits, l: Lid, t: Tid)
    requires Separated(w) && WakesAndReturns(w, v, l, t)
    ensures Role(v, t) == Outside && (Role(w, t) == Outside || Role(w, t).Woken? || Role(w, t) == Aside)
    ensures match PopTask(w.ts, ListAt(w.lists, l))
            case None => !SomeoneParked(w, l) && RolesSameBut(w, v, t)
            case Some(y) => y != t && Role(w, y) == Parked(l) && Role(v, y) == Woken(l) &&
                            forall x: Tid :: x != t && x != y ==> Role(v, x) == Role(w, x)
  {
  }

  lemma ParksInRoles(w: Waits, v: Waits, l: Lid, t: Tid, r: Request)
    requires Separated(w) && ParksIn(w, v, l, t, r)
    ensures RolesSameBut(w, v, t) && Role(v, t) == Parked(l)
    ensures Role(w, t) == Outside || Role(w, t).Woken? || Role(w, t) == Aside
  {
  }

  lemma ParksAloneRoles(w: Waits, v: Waits, t: Tid, r: Request)
    requires Separated(w) && ParksAlone(w, v, t, r)
    ensures RolesSameBut(w, v, t) && Role(v, t) == Aside
    ensures Role(w, t) == Outside || Role(w, t).Woken? || Role(w, t) == Aside
  {
  }

  lemma UnlinksRoles(w: Waits, v: Waits, l: Lid, t: Tid)
    requires Separated(w) && Unlinks(w, v, l, t)
    ensures RolesSameBut(w, v, t) && Role(w, t) == Late(l) && Role(v, t) == Outside
  {
  }

  lemma WakesManyRoles(w: Waits, v: Waits, l: Lid, x: Tid)
    requires Separated(w) && WakesMany(w, v, l)
    ensures Role(v, x) == Role(w, x) || (Role(w, x) == Parked(l) && Role(v, x) == Woken(l))
  {
  }

  // ---------- Counting the pending ----------

  lemma PendingSame(w: Waits, v: Waits, l: Lid)
    requires |w.calls| == |w.ts| && |v.calls| == |v.ts|
    requires forall x: Tid :: Role(v, x) == Woken(l) <==> Role(w, x) == Woken(l)
    ensures Pending(v, l) == Pending(w, l)
  {
  }

  lemma InRange(w: Waits, l: Lid)
    ensures forall x: Tid :: Role(w, x) == Woken(l) ==> x < |w.calls|
    ensures forall x: Tid :: x in Pending(w, l) <==> Role(w, x) == Woken(l)
  {
  }

  /** One more task is pending. */
  lemma PendingPlus(w: Waits, v: Waits, l: Lid, y: Tid)
    requires Role(w, y) != Woken(l) && Role(v, y) == Woken(l)
    requires forall x: Tid :: x != y ==> (Role(v, x) == Woken(l) <==> Role(w, x) == Woken(l))
    ensures |Pending(v, l)| == |Pending(w, l)| + 1
  {
    InRange(w, l);
    InRange(v, l);
    assert Pending(v, l) == Pending(w, l) + {y};
  }

  /** One task is no longer pending. */
  lemma PendingMinus(w: Waits, v: Waits, l: Lid, y: Tid)
    requires Role(w, y) == Woken(l) && Role(v, y) != Woken(l)
    requires forall x: Tid :: x != y ==> (Role(v, x) == Woken(l) <==> Role(w, x) == Woken(l))
    ensures |Pending(v, l)| == |Pending(w, l)| - 1
  {
    PendingPlus(v, w, l, y);
  }

  // ---------- What a step leaves alone ----------

  /** What a waiter asked for and what it was given. */
  predicate SameDeal(c: Tcb, d: Tcb) {
    && d.waitFlags == c.waitFlags && d.waitAll == c.waitAll && d.waitClear == c.waitClear
    && d.objectResult == c.objectResult && d.flagsResult == c.flagsResult
  }

  /** List `l` is as it was, nobody new is parked in it, the same tasks are pending. */
  ghost predicate Undisturbed(w: Waits, v: Waits, l: Lid) {
    && ListAt(v.lists, l) == ListAt(w.lists, l)
    && (forall x: Tid :: Role(v, x) == Parked(l) ==> Role(w, x) == Parked(l) && SameDeal(Get(w.ts, x), Get(v.ts, x)))
    && (forall x: Tid :: Role(v, x) == Parked(l) ==> CallAt(v.calls, x) == CallAt(w.calls, x))
    && (forall x: Tid :: Role(v, x) == Woken(l) <==> Role(w, x) == Woken(l))
    && (forall x: Tid :: Role(v, x) == Woken(l) ==> SameDeal(Get(w.ts, x), Get(v.ts, x)) && CallAt(v.calls, x) == CallAt(w.calls, x))
  }

  function CallLists(w: Waits, t: Tid): set<Lid> {
    var c := CallAt(w.calls, t);
    if c == Free then {} else match ListFor(c.req) case None => {} case Some(l) => {l}
  }

  function ListsIn(w: Waits, e: Effect): set<Lid> {
    match e
    case EDrift => {}
    case EMovesOn(t, _) => CallLists(w, t)
    case EWakes(l) => {l}
    case EWakesAndReturns(l, t) => {l} + CallLists(w, t)
    case EParksIn(l, t, _) => {l} + CallLists(w, t)
    case EParksAlone(t, _) => CallLists(w, t)
    case EUnlinks(l, _) => {l}
    case EWakesMany(l) => {l}
  }

  lemma DriftLeavesOne(w: Waits, v: Waits, l: Lid, x: Tid)
    requires Separated(w) && Drift(w, v)
    ensures Role(v, x) == Parked(l) ==> Role(w, x) == Parked(l) && SameDeal(Get(w.ts, x), Get(v.ts, x))
    ensures Role(v, x) == Woken(l) <==> Role(w, x) == Woken(l)
    ensures Role(v, x) == Woken(l) ==> SameDeal(Get(w.ts, x), Get(v.ts, x))
  {
  }

  lemma DriftLeavesAlone(w: Waits, v: Waits, l: Lid)
    requires Separated(w) && Drift(w, v)
    ensures Undisturbed(w, v, l)
  {
    forall x: Tid
      ensures Role(v, x) == Parked(l) ==> Role(w, x) == Parked(l) && SameDeal(Get(w.ts, x), Get(v.ts, x))
      ensures Role(v, x) == Woken(l) <==> Role(w, x) == Woken(l)
      ensures Role(v, x) == Woken(l) ==> SameDeal(Get(w.ts, x), Get(v.ts, x))
    {
      DriftLeavesOne(w, v, l, x);
    }
  }

  lemma WakesManyLeavesAlone(w: Waits, v: Waits, m: Lid, l: Lid)
    requires Separated(w) && WakesMany(w, v, m) && l != m
    ensures Undisturbed(w, v, l)
  {
    forall x: Tid ensures Role(v, x) == Role(w, x) || (Role(w, x) == Parked(m) && Role(v, x) == Woken(m)) {
      WakesManyRoles(w, v, m, x);
    }
  }

  lemma WakesAndReturnsLeavesAlone(w: Waits, v: Waits, m: Lid, t: Tid, l: Lid)
    requires Separated(w) && WakesAndReturns(w, v, m, t) && l != m && l !in CallLists(w, t)
    ensures Undisturbed(w, v, l)
  {
  }

  lemma ParksInLeavesAlone(w: Waits, v: Waits, m: Lid, t: Tid, r: Request, l: Lid)
    requires Separated(w) && ParksIn(w, v, m, t, r) && l != m && l !in CallLists(w, t)
    ensures Undisturbed(w, v, l)
  {
    ParksInRoles(w, v, m, t, r);
  }

  lemma WakesLeavesAlone(w: Waits, v: Waits, m: Lid, l: Lid)
    requires Separated(w) && Wakes(w, v, m) && l != m
    ensures Undisturbed(w, v, l)
  {
    WakesRoles(w, v, m);
  }

  lemma UnlinksLeavesAlone(w: Waits, v: Waits, m: Lid, t: Tid, l: Lid)
    requires Separated(w) && Unlinks(w, v, m, t) && l != m
    ensures Undisturbed(w, v, l)
  {
    UnlinksRoles(w, v, m, t);
  }

  lemma EffectLeavesAlone(w: Waits, v: Waits, e: Effect, l: Lid)
    requires Separated(w) && Has(w, v, e) && l !in ListsIn(w, e)
    ensures Undisturbed(w, v, l)
  {
    match e
    case EDrift => DriftLeavesAlone(w, v, l);
    case EMovesOn(t, c) => MovesOnRoles(w, v, t, c);
    case EWakes(m) => WakesLeavesAlone(w, v, m, l);
    case EWakesAndReturns(m, t) => WakesAndReturnsLeavesAlone(w, v, m, t, l);
    case EParksIn(m, t, r) => ParksInLeavesAlone(w, v, m, t, r, l);
    case EParksAlone(t, r) => ParksAloneRoles(w, v, t, r);
    case EUnlinks(m, t) => UnlinksLeavesAlone(w, v, m, t, l);
    case EWakesMany(m) => WakesManyLeavesAlone(w, v, m, l);
  }

  /** What an action's region belongs to: one of the blocking objects, or the notification
      words of the tasks. */
  datatype Object = QueueObj(q: nat) | MutexObj(m: nat) | SemObj(s: nat) | EventObj(e: nat) | PoolObj(p: nat) | NoteObj

  function ObjectOf(l: Lid): Object {
    match l
    case RecvList(q) => QueueObj(q)
    case SendList(q) => QueueObj(q)
    case MutexList(m) => MutexObj(m)
    case SemList(s) => SemObj(s)
    case EventList(e) => EventObj(e)
    case PoolList(p) => PoolObj(p)
  }

  function ObjectIn(r: Request): Option<Object> {
    match ListFor(r)
    case None => if r.NotifyReq? then Some(NoteObj) else None
    case Some(l) => Some(ObjectOf(l))
  }

  /** The object whose code an action runs. */
  function Concerns(k: Kernel, a: Action): Option<Object>
    requires Enabled(k, a)
  {
    match a
    case Invoke(req) => ObjectIn(req)
    case Retry => ObjectIn(CallOf(k, k.current).req)
    case Resume => ObjectIn(CallOf(k, k.current).req)
    case SendIsr(q, _) => Some(QueueObj(q))
    case Unlock(m) => Some(MutexObj(m))
    case Post(s) => Some(SemObj(s))
    case SetFlags(e, _) => Some(EventObj(e))
    case ClearFlags(e, _) => Some(EventObj(e))
    case FreeBlock(p, _) => Some(PoolObj(p))
    case Notify(_, _) => Some(NoteObj)
    case _ => None
  }

  lemma ActionStaysHome(k: Kernel, a: Action, l: Lid)
    requires Sep(k) && Enabled(k, a) && Concerns(k, a) != Some(ObjectOf(l))
    ensures l !in ListsIn(WaitsOf(k), EffectOf(k, a))
  {
  }

  /** An action of one object leaves every list of every other object alone. */
  lemma OthersLeftAlone(k: Kernel, a: Action, l: Lid)
    requires Sep(k) && Enabled(k, a) && Concerns(k, a) != Some(ObjectOf(l))
    ensures Undisturbed(WaitsOf(k), WaitsOf(Apply(k, a)), l)
  {
    ActionHasEffect(k, a);
    ActionStaysHome(k, a, l);
    EffectLeavesAlone(WaitsOf(k), WaitsOf(Apply(k, a)), EffectOf(k, a), l);
  }
}
