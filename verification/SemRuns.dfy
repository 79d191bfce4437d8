/** The counting semaphore over whole runs: tokens are conserved. */
module SemRuns {
  import opened Base
  import opened WaitQueue
  import opened Kernel
  import opened Separation
  import opened Effects
  import opened Roles
  import opened ObjectFrame
  import SemSpec

  /** Posts to `s` that returned OK. */
  function PostsOk(log: seq<Event>, s: nat): nat {
    if log == [] then 0
    else
      PostsOk(log[..|log| - 1], s) +
      match log[|log| - 1]
      case Posted(s', st) => if s' == s && st == Status.Ok then 1 else 0
      case _ => 0
  }

  /** Waits on `s` that returned OK, at once or after blocking. */
  function WaitsOk(log: seq<Event>, s: nat): nat {
    if log == [] then 0
    else
      WaitsOk(log[..|log| - 1], s) +
      match log[|log| - 1]
      case Waited(s', st) => if s' == s && st == Status.Ok then 1 else 0
      case _ => 0
  }

  lemma LogOne(log: seq<Event>, ev: Event, s: nat)
    ensures PostsOk(log + [ev], s) == PostsOk(log, s) + if ev == Posted(s, Status.Ok) then 1 else 0
    ensures WaitsOk(log + [ev], s) == WaitsOk(log, s) + if ev == Waited(s, Status.Ok) then 1 else 0
  {
  }

  /** Every token is accounted for: initial ones and those posted are in the count, were
      taken by a wait that returned OK, or are on their way in a released waiter. The
      count is positive only while nobody at all is linked. */
  ghost predicate SemOk(k: Kernel, s: nat, initial: nat)
    requires s in k.sems
  {
    && k.sems[s].count <= k.sems[s].maxCount
    && (k.sems[s].count > 0 ==> ListOf(k, SemList(s)) == [])
    && initial + PostsOk(k.log, s) == k.sems[s].count + WaitsOk(k.log, s) + |Pending(WaitsOf(k), SemList(s))|
  }

  lemma WaitReturnsOk(k: Kernel, req: Request, initial: nat)
    requires Attempting(k, req) && req.SemReq? && (k.sems[req.s].count > 0 || req.timeout == 0) && SemOk(k, req.s, initial)
    ensures req.s in TrySem(k, req).sems && SemOk(TrySem(k, req), req.s, initial)
  {
    var w, v := WaitsOf(k), WaitsOf(TrySem(k, req));
    SemMovesOn(k, req);
    MovesOnRoles(w, v, k.current, Free);
    assert Coherent(Get(w.ts, k.current), CallOf(k, k.current));
    PendingSame(w, v, SemList(req.s));
    LogOne(k.log, Waited(req.s, if k.sems[req.s].count > 0 then Status.Ok else Timeout), req.s);
  }

  lemma WaitParksOk(k: Kernel, req: Request, initial: nat)
    requires Attempting(k, req) && req.SemReq? && k.sems[req.s].count == 0 && req.timeout != 0 && SemOk(k, req.s, initial)
    ensures req.s in TrySem(k, req).sems && SemOk(TrySem(k, req), req.s, initial)
  {
    var w, v := WaitsOf(k), WaitsOf(TrySem(k, req));
    SemParks(k, req);
    ParksInRoles(w, v, SemList(req.s), k.current, req);
    assert Coherent(Get(w.ts, k.current), CallOf(k, k.current));
    PendingSame(w, v, SemList(req.s));
  }

  lemma TimedOutOk(k: Kernel, req: Request, initial: nat)
    requires Continuing(k, req) && req.SemReq? && Get(k.tasks, k.current).result == Timeout && SemOk(k, req.s, initial)
    ensures req.s in EndSem(k, req).sems && SemOk(EndSem(k, req), req.s, initial)
  {
    var w, v := WaitsOf(k), WaitsOf(EndSem(k, req));
    EndSemUnlinks(k, req);
    UnlinksRoles(w, v, SemList(req.s), k.current);
    PendingSame(w, v, SemList(req.s));
    LogOne(k.log, Waited(req.s, Timeout), req.s);
  }

  lemma GrantedOk(k: Kernel, req: Request, initial: nat)
    requires Continuing(k, req) && req.SemReq? && Get(k.tasks, k.current).result != Timeout && SemOk(k, req.s, initial)
    ensures req.s in EndSem(k, req).sems && SemOk(EndSem(k, req), req.s, initial)
  {
    var w, v := WaitsOf(k), WaitsOf(EndSem(k, req));
    EndSemReturns(k, req);
    MovesOnRoles(w, v, k.current, Free);
    PendingMinus(w, v, SemList(req.s), k.current);
    LogOne(k.log, Waited(req.s, Status.Ok), req.s);
  }

  lemma PostOk(k: Kernel, s: nat, initial: nat)
    requires Sep(k) && s in k.sems && SemOk(k, s, initial)
    ensures s in DoPost(k, s).sems && SemOk(DoPost(k, s), s, initial)
  {
    var w, v := WaitsOf(k), WaitsOf(DoPost(k, s));
    PostWakes(k, s);
    WakesRoles(w, v, SemList(s));
    match PopTask(w.ts, ListAt(w.lists, SemList(s))) {
      case None => PendingSame(w, v, SemList(s));
      case Some(y) => PendingPlus(w, v, SemList(s), y);
    }
    LogOne(k.log, Posted(s, SemSpec.Post(SemView(k, s)).1), s);
  }

  lemma CountsApart(k: Kernel, k': Kernel, s: nat)
    requires LogsElsewhere(k, k', SemObj(s))
    ensures PostsOk(k'.log, s) == PostsOk(k.log, s) && WaitsOk(k'.log, s) == WaitsOk(k.log, s)
  {
  }

  lemma SemUndisturbed(k: Kernel, k': Kernel, s: nat, initial: nat)
    requires Sep(k) && Sep(k') && s in k.sems && SemOk(k, s, initial)
    requires Apart(k, k', SemObj(s)) && Undisturbed(WaitsOf(k), WaitsOf(k'), SemList(s))
    ensures s in k'.sems && SemOk(k', s, initial)
  {
    PendingSame(WaitsOf(k), WaitsOf(k'), SemList(s));
    CountsApart(k, k', s);
  }

  lemma SemApart(k: Kernel, a: Action, s: nat, initial: nat)
    requires Sep(k) && Enabled(k, a) && Concerns(k, a) != Some(SemObj(s)) && s in k.sems && SemOk(k, s, initial)
    ensures s in Apply(k, a).sems && SemOk(Apply(k, a), s, initial)
  {
    ActionApart(k, a, SemObj(s));
    OthersLeftAlone(k, a, SemList(s));
    SepStep(k, a);
    SemUndisturbed(k, Apply(k, a), s, initial);
  }

  lemma SemStep(k: Kernel, a: Action, s: nat, initial: nat)
    requires Sep(k) && Enabled(k, a) && s in k.sems && SemOk(k, s, initial)
    ensures s in Apply(k, a).sems && SemOk(Apply(k, a), s, initial)
  {
    if a.Retry? { RetriesLoop(k); }
    if Concerns(k, a) != Some(SemObj(s)) {
      SemApart(k, a, s, initial);
    } else if a.Post? {
      PostOk(k, s, initial);
    } else if a.Resume? {
      var req := CallOf(k, k.current).req;
      if Get(k.tasks, k.current).result == Timeout { TimedOutOk(k, req, initial); } else { GrantedOk(k, req, initial); }
    } else if a.Invoke? {
      if k.sems[s].count > 0 || a.req.timeout == 0 { WaitReturnsOk(k, a.req, initial); } else { WaitParksOk(k, a.req, initial); }
    }
  }
}
