/** The memory pool over whole runs: every block is always in exactly one place. */
module PoolRuns {
  import opened Base
  import opened WaitQueue
  import opened Kernel
  import opened Separation
  import opened Effects
  import opened Roles
  import opened ObjectFrame

  // ---------- Blocks on their way in a released waiter ----------

  /** Task `x` was handed block `b` and has not picked it up yet. */
  predicate Carries(w: Waits, l: Lid, b: nat, x: Tid) {
    Role(w, x) == Woken(l) && Get(w.ts, x).objectResult == b
  }

  function Carriers(w: Waits, l: Lid, b: nat): set<Tid> {
    set x: Tid | 0 <= x < |w.calls| && Carries(w, l, b, x)
  }

  function One(p: bool): nat {
    if p then 1 else 0
  }

  lemma CarriersAre(w: Waits, l: Lid, b: nat, x: Tid)
    ensures x in Carriers(w, l, b) <==> Carries(w, l, b, x)
  {
  }

  /** Only task `y` may have started or stopped carrying `b`. */
  lemma CarriersChange(w: Waits, v: Waits, l: Lid, b: nat, y: Tid)
    requires forall x: Tid :: x != y ==> (Carries(v, l, b, x) <==> Carries(w, l, b, x))
    ensures |Carriers(v, l, b)| + One(Carries(w, l, b, y)) == |Carriers(w, l, b)| + One(Carries(v, l, b, y))
  {
    var others := Carriers(w, l, b) - {y};
    forall x: Tid ensures x in others <==> x in Carriers(v, l, b) - {y} {
      CarriersAre(w, l, b, x);
      CarriersAre(v, l, b, x);
    }
    assert others == Carriers(v, l, b) - {y};
    CarriersAre(w, l, b, y);
    CarriersAre(v, l, b, y);
    assert Carriers(w, l, b) == if Carries(w, l, b, y) then others + {y} else others;
    assert Carriers(v, l, b) == if Carries(v, l, b, y) then others + {y} else others;
  }

  // ---------- The invariant ----------

  /** Block `b` occurs in the storage as often as on the free list, in callers' hands
      and in flight together. */
  ghost predicate Conserved(k: Kernel, p: nat, blocks: seq<nat>, b: nat)
    requires p in k.pools
  {
    multiset(blocks)[b] == multiset(k.pools[p])[b] + Held(k.log, p)[b] + |Carriers(WaitsOf(k), PoolList(p), b)|
  }

  /** A free block is never kept from a linked waiter, and a released waiter always
      carries a block, so the retry loop of the allocation is never taken. */
  ghost predicate Prompt(k: Kernel, p: nat)
    requires p in k.pools
  {
    && (k.pools[p] != [] ==> ListOf(k, PoolList(p)) == [])
    && (forall x: Tid :: Role(WaitsOf(k), x) == Woken(PoolList(p)) ==> CallOf(k, x).Waiting? && Get(k.tasks, x).objectResult != 0)
  }

  ghost predicate PoolOk(k: Kernel, p: nat, blocks: seq<nat>)
    requires p in k.pools
  {
    0 !in blocks && Prompt(k, p) && forall b: nat :: Conserved(k, p, blocks, b)
  }

  lemma HeldOne(log: seq<Event>, ev: Event, p: nat)
    ensures Held(log + [ev], p) ==
              if ev.Allocated? && ev.p == p && ev.status == Status.Ok then Held(log, p) + multiset{ev.block}
              else if ev.Freed? && ev.p == p then Held(log, p) - multiset{ev.block}
              else Held(log, p)
  {
  }

  // ---------- Allocation ----------

  lemma AllocReturns(k: Kernel, req: Request)
    requires Attempting(k, req) && req.AllocReq? && (k.pools[req.p] != [] || req.timeout == 0) && Prompt(k, req.p)
    ensures req.p in TryAlloc(k, req).pools && Prompt(TryAlloc(k, req), req.p)
    ensures forall b: nat :: |Carriers(WaitsOf(TryAlloc(k, req)), PoolList(req.p), b)| == |Carriers(WaitsOf(k), PoolList(req.p), b)|
  {
    var t, w, v := k.current, WaitsOf(k), WaitsOf(TryAlloc(k, req));
    AllocMovesOn(k, req);
    MovesOnRoles(w, v, t, Free);
    assert Role(w, t) == Outside;
    forall b: nat ensures |Carriers(v, PoolList(req.p), b)| == |Carriers(w, PoolList(req.p), b)| {
      CarriersChange(w, v, PoolList(req.p), b, t);
    }
  }

  /** A block taken from the free list is held by the caller. */
  lemma AllocTakesConserves(k: Kernel, req: Request, blocks: seq<nat>, b: nat)
    requires Attempting(k, req) && req.AllocReq? && k.pools[req.p] != [] && Prompt(k, req.p) && Conserved(k, req.p, blocks, b)
    ensures req.p in TryAlloc(k, req).pools && Conserved(TryAlloc(k, req), req.p, blocks, b)
  {
    var free, k' := k.pools[req.p], TryAlloc(k, req);
    AllocReturns(k, req);
    HeldOne(k.log, Allocated(req.p, free[0], Status.Ok), req.p);
    assert k'.log == k.log + [Allocated(req.p, free[0], Status.Ok)] && k'.pools[req.p] == free[1..];
    HeadCounts(free, b);
  }

  lemma HeadCounts(s: seq<nat>, b: nat)
    requires s != []
    ensures multiset(s)[b] == multiset(s[1..])[b] + multiset{s[0]}[b]
  {
    assert s == [s[0]] + s[1..];
  }

  lemma AllocRefusedConserves(k: Kernel, req: Request, blocks: seq<nat>, b: nat)
    requires Attempting(k, req) && req.AllocReq? && k.pools[req.p] == [] && req.timeout == 0 && Prompt(k, req.p)
    requires Conserved(k, req.p, blocks, b)
    ensures req.p in TryAlloc(k, req).pools && Conserved(TryAlloc(k, req), req.p, blocks, b)
  {
    AllocReturns(k, req);
    HeldOne(k.log, Allocated(req.p, 0, Timeout), req.p);
  }

  lemma AllocReturnsConserves(k: Kernel, req: Request, blocks: seq<nat>, b: nat)
    requires Attempting(k, req) && req.AllocReq? && (k.pools[req.p] != [] || req.timeout == 0) && Prompt(k, req.p)
    requires Conserved(k, req.p, blocks, b)
    ensures req.p in TryAlloc(k, req).pools && Conserved(TryAlloc(k, req), req.p, blocks, b)
  {
    if k.pools[req.p] != [] { AllocTakesConserves(k, req, blocks, b); } else { AllocRefusedConserves(k, req, blocks, b); }
  }

  lemma AllocReturnsOk(k: Kernel, req: Request, blocks: seq<nat>)
    requires Attempting(k, req) && req.AllocReq? && (k.pools[req.p] != [] || req.timeout == 0) && PoolOk(k, req.p, blocks)
    ensures req.p in TryAlloc(k, req).pools && PoolOk(TryAlloc(k, req), req.p, blocks)
  {
    AllocReturns(k, req);
    forall b: nat ensures Conserved(TryAlloc(k, req), req.p, blocks, b) {
      AllocReturnsConserves(k, req, blocks, b);
    }
  }

  lemma AllocParksOk(k: Kernel, req: Request, blocks: seq<nat>)
    requires Attempting(k, req) && req.AllocReq? && k.pools[req.p] == [] && req.timeout != 0 && PoolOk(k, req.p, blocks)
    ensures req.p in TryAlloc(k, req).pools && PoolOk(TryAlloc(k, req), req.p, blocks)
  {
    var t, k' := k.current, TryAlloc(k, req);
    AllocParks(k, req);
    ParksInRoles(WaitsOf(k), WaitsOf(k'), PoolList(req.p), t, req);
    forall b: nat ensures Conserved(k', req.p, blocks, b) {
      assert Conserved(k, req.p, blocks, b);
      CarriersChange(WaitsOf(k), WaitsOf(k'), PoolList(req.p), b, t);
    }
  }

  lemma TimedOutOk(k: Kernel, req: Request, blocks: seq<nat>)
    requires Continuing(k, req) && req.AllocReq? && Get(k.tasks, k.current).result == Timeout && PoolOk(k, req.p, blocks)
    ensures req.p in EndAlloc(k, req).pools && PoolOk(EndAlloc(k, req), req.p, blocks)
  {
    var t, k' := k.current, EndAlloc(k, req);
    EndAllocUnlinks(k, req);
    UnlinksRoles(WaitsOf(k), WaitsOf(k'), PoolList(req.p), t);
    HeldOne(k.log, Allocated(req.p, 0, Timeout), req.p);
    forall b: nat ensures Conserved(k', req.p, blocks, b) {
      assert Conserved(k, req.p, blocks, b);
      CarriersChange(WaitsOf(k), WaitsOf(k'), PoolList(req.p), b, t);
    }
  }

  lemma GrantedOk(k: Kernel, req: Request, blocks: seq<nat>)
    requires Continuing(k, req) && req.AllocReq? && Get(k.tasks, k.current).result != Timeout && PoolOk(k, req.p, blocks)
    ensures req.p in EndAlloc(k, req).pools && PoolOk(EndAlloc(k, req), req.p, blocks)
  {
    var t, k' := k.current, EndAlloc(k, req);
    assert Coherent(Get(k.tasks, t), CallOf(k, t));
    assert Role(WaitsOf(k), t) == Woken(PoolList(req.p));
    EndAllocMovesOn(k, req);
    MovesOnRoles(WaitsOf(k), WaitsOf(k'), t, Free);
    HeldOne(k.log, Allocated(req.p, Get(k.tasks, t).objectResult, Status.Ok), req.p);
    forall b: nat ensures Conserved(k', req.p, blocks, b) {
      assert Conserved(k, req.p, blocks, b);
      CarriersChange(WaitsOf(k), WaitsOf(k'), PoolList(req.p), b, t);
    }
  }

  // ---------- Free ----------

  lemma FreeToListOk(k: Kernel, p: nat, block: nat, blocks: seq<nat>)
    requires Sep(k) && p in k.pools && block in Held(k.log, p) && PoolOk(k, p, blocks)
    requires PopTask(k.tasks, ListOf(k, PoolList(p))).None?
    ensures p in DoFree(k, p, block).pools && PoolOk(DoFree(k, p, block), p, blocks)
  {
    var k' := DoFree(k, p, block);
    FreeWakes(k, p, block);
    WakesRoles(WaitsOf(k), WaitsOf(k'), PoolList(p));
    HeldOne(k.log, Freed(p, block), p);
    forall b: nat ensures Conserved(k', p, blocks, b) {
      assert Conserved(k, p, blocks, b);
      CarriersChange(WaitsOf(k), WaitsOf(k'), PoolList(p), b, 0);
    }
  }

  lemma FreeToWaiterOk(k: Kernel, p: nat, block: nat, blocks: seq<nat>)
    requires Sep(k) && p in k.pools && block in Held(k.log, p) && PoolOk(k, p, blocks)
    requires PopTask(k.tasks, ListOf(k, PoolList(p))).Some?
    ensures p in DoFree(k, p, block).pools && PoolOk(DoFree(k, p, block), p, blocks)
  {
    var k' := DoFree(k, p, block);
    var y := PopTask(k.tasks, ListOf(k, PoolList(p))).value;
    assert Conserved(k, p, blocks, block);
    FreeWakes(k, p, block);
    WakesRoles(WaitsOf(k), WaitsOf(k'), PoolList(p));
    HeldOne(k.log, Freed(p, block), p);
    forall b: nat ensures Conserved(k', p, blocks, b) {
      assert Conserved(k, p, blocks, b);
      CarriersChange(WaitsOf(k), WaitsOf(k'), PoolList(p), b, y);
    }
  }

  // ---------- Everybody else's actions, and the step ----------

  lemma HeldApart(k: Kernel, k': Kernel, p: nat)
    requires LogsElsewhere(k, k', PoolObj(p))
    ensures Held(k'.log, p) == Held(k.log, p)
  {
  }

  lemma CarriersUndisturbed(w: Waits, v: Waits, l: Lid, b: nat)
    requires Undisturbed(w, v, l)
    ensures |Carriers(v, l, b)| == |Carriers(w, l, b)|
  {
    CarriersChange(w, v, l, b, 0);
  }

  lemma PoolUndisturbed(k: Kernel, k': Kernel, p: nat, blocks: seq<nat>)
    requires p in k.pools && PoolOk(k, p, blocks)
    requires Apart(k, k', PoolObj(p)) && Undisturbed(WaitsOf(k), WaitsOf(k'), PoolList(p))
    ensures p in k'.pools && PoolOk(k', p, blocks)
  {
    HeldApart(k, k', p);
    forall b: nat ensures Conserved(k', p, blocks, b) {
      assert Conserved(k, p, blocks, b);
      CarriersUndisturbed(WaitsOf(k), WaitsOf(k'), PoolList(p), b);
    }
  }

  /** The retry loop of the allocation is dead code. */
  lemma AllocNeverRetries(k: Kernel, p: nat)
    requires Sep(k) && p in k.pools && Prompt(k, p) && CallOf(k, k.current).Retrying?
    ensures ObjectIn(CallOf(k, k.current).req) != Some(PoolObj(p))
  {
  }

  lemma PoolApart(k: Kernel, a: Action, p: nat, blocks: seq<nat>)
    requires Sep(k) && Enabled(k, a) && p in k.pools && PoolOk(k, p, blocks) && Concerns(k, a) != Some(PoolObj(p))
    ensures p in Apply(k, a).pools && PoolOk(Apply(k, a), p, blocks)
  {
    ActionApart(k, a, PoolObj(p));
    OthersLeftAlone(k, a, PoolList(p));
    PoolUndisturbed(k, Apply(k, a), p, blocks);
  }

  lemma PoolStep(k: Kernel, a: Action, p: nat, blocks: seq<nat>)
    requires Sep(k) && Enabled(k, a) && p in k.pools && PoolOk(k, p, blocks)
    ensures p in Apply(k, a).pools && PoolOk(Apply(k, a), p, blocks)
  {
    if a.Retry? { AllocNeverRetries(k, p); }
    if Concerns(k, a) != Some(PoolObj(p)) {
      PoolApart(k, a, p, blocks);
    } else if a.FreeBlock? {
      if PopTask(k.tasks, ListOf(k, PoolList(p))).None? { FreeToListOk(k, p, a.block, blocks); }
      else { FreeToWaiterOk(k, p, a.block, blocks); }
    } else if a.Resume? {
      var req := CallOf(k, k.current).req;
      if Get(k.tasks, k.current).result == Timeout { TimedOutOk(k, req, blocks); } else { GrantedOk(k, req, blocks); }
    } else if a.Invoke? {
      if k.pools[p] != [] || a.req.timeout == 0 { AllocReturnsOk(k, a.req, blocks); } else { AllocParksOk(k, a.req, blocks); }
    }
  }

  /** The partition: with distinct blocks each one is on the free list, or held by a
      caller, or carried by one released task, and never in two of these at once. */
  lemma EveryBlockInOnePlace(k: Kernel, p: nat, blocks: seq<nat>, b: nat)
    requires p in k.pools && PoolOk(k, p, blocks) && NoDup(blocks) && b in blocks
    ensures One(b in k.pools[p]) + One(b in Held(k.log, p)) + One(Carriers(WaitsOf(k), PoolList(p), b) != {}) == 1
    ensures multiset(k.pools[p])[b] <= 1 && |Carriers(WaitsOf(k), PoolList(p), b)| <= 1
  {
    NoDupCounts(blocks, b);
    assert Conserved(k, p, blocks, b);
    var c := Carriers(WaitsOf(k), PoolList(p), b);
    assert c != {} <==> |c| > 0;
    assert b in k.pools[p] <==> multiset(k.pools[p])[b] > 0;
  }

  lemma {:induction false} NoDupCounts(s: seq<nat>, b: nat)
    requires NoDup(s) && b in s
    ensures multiset(s)[b] == 1
  {
    assert s == [s[0]] + s[1..];
    if s[0] == b {
      assert b !in s[1..];
    } else {
      NoDupCounts(s[1..], b);
    }
  }
}
