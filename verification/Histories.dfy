/** The answer of each call as a function of what was answered before: over every run from a
    freshly started kernel, read off the history alone. */
module Histories {
  import opened Base
  import opened WaitQueue
  import opened Kernel
  import opened Separation
  import opened Effects
  import opened Roles
  import opened ObjectFrame
  import opened Answers
  import MutexRuns
  import MutexSpec
  import PoolRuns
  import QueueRuns
  import Runs
  import SemRuns
  import Timing

  // ---------- Sizes never change ----------

  ghost predicate SameSizes(k: Kernel, k': Kernel) {
    && (forall q :: q in k.queues ==> q in k'.queues && k'.queues[q].capacity == k.queues[q].capacity)
    && (forall s :: s in k.sems ==> s in k'.sems && k'.sems[s].maxCount == k.sems[s].maxCount)
  }

  lemma SendSizes(k: Kernel, req: Request)
    requires Known(k, req) && (req.SendReq? || req.RecvReq?)
    ensures SameSizes(k, Attempt(k, req))
  {
  }

  lemma AttemptSizes(k: Kernel, req: Request)
    requires Known(k, req)
    ensures SameSizes(k, Attempt(k, req))
  {
    if req.SendReq? || req.RecvReq? { SendSizes(k, req); }
  }

  lemma ContinueSizes(k: Kernel, req: Request)
    requires Known(k, req)
    ensures SameSizes(k, Continue(k, req))
  {
  }

  lemma CallSizes(k: Kernel, a: Action)
    requires Enabled(k, a) && (a.Invoke? || a.Retry? || a.Resume?)
    ensures SameSizes(k, Apply(k, a))
  {
    if a.Invoke? { AttemptSizes(k, a.req); }
    else if a.Retry? { AttemptSizes(k, CallOf(k, k.current).req); }
    else { ContinueSizes(k, CallOf(k, k.current).req); }
  }

  lemma WakerSizes(k: Kernel, a: Action)
    requires Enabled(k, a) && (a.SendIsr? || a.Post?)
    ensures SameSizes(k, Apply(k, a))
  {
  }

  lemma SizesStep(k: Kernel, a: Action)
    requires Enabled(k, a)
    ensures SameSizes(k, Apply(k, a))
  {
    if a.Invoke? || a.Retry? || a.Resume? { CallSizes(k, a); }
    else if a.SendIsr? || a.Post? { WakerSizes(k, a); }
  }

  lemma {:induction false} SizesRun(k: Kernel, acts: seq<Action>)
    requires Legal(k, acts)
    ensures SameSizes(k, Run(k, acts))
    decreases |acts|
  {
    if acts != [] {
      SizesStep(k, acts[0]);
      SizesRun(Apply(k, acts[0]), acts[1..]);
    }
  }

  /** After the run, `a` runs the first region of `req`. */
  ghost predicate Attempts(k: Kernel, acts: seq<Action>, a: Action, req: Request) {
    Init(k) && Legal(k, acts) && Enabled(Run(k, acts), a) && Attempted(Run(k, acts), a) == Some(req)
  }

  lemma AttemptAfter(k: Kernel, acts: seq<Action>, a: Action, req: Request)
    requires Attempts(k, acts, a, req)
    ensures Runs.Safe(k, Run(k, acts)) && SameSizes(k, Run(k, acts)) && InCall(Run(k, acts), req)
    ensures Apply(Run(k, acts), a) == Attempt(Run(k, acts), req)
  {
    Runs.AlwaysSafe(k, acts);
    SizesRun(k, acts);
  }

  /** `k` is a state of a run from `k0`, and `req` is being made. */
  ghost predicate Made(k0: Kernel, k: Kernel, req: Request) {
    Runs.Safe(k0, k) && SameSizes(k0, k) && InCall(k, req)
  }

  // ---------- The queue ----------

  lemma SendMade(k0: Kernel, k: Kernel, req: Request)
    requires Made(k0, k, req) && req.SendReq? && req.q in k0.queues
    ensures if |QueueRuns.SentOk(k.log, req.q)| < |QueueRuns.ReceivedOk(k.log, req.q)| + k0.queues[req.q].capacity then
              AnswersWith(k, Attempt(k, req), Sent(req.q, req.value, Status.Ok))
            else NotNow(k, Attempt(k, req), req)
  {
    assert QueueRuns.QueueOk(k, req.q);
    SendAnswers(k, req);
  }

  /** A send succeeds at once if and only if fewer messages than the capacity have been sent
      and not received; otherwise it times out at once or blocks. */
  lemma SendOkIff(k: Kernel, acts: seq<Action>, a: Action, req: Request)
    requires Attempts(k, acts, a, req) && req.SendReq? && req.q in k.queues
    ensures var r := Run(k, acts);
            if |QueueRuns.SentOk(r.log, req.q)| < |QueueRuns.ReceivedOk(r.log, req.q)| + k.queues[req.q].capacity then
              AnswersWith(r, Apply(r, a), Sent(req.q, req.value, Status.Ok))
            else NotNow(r, Apply(r, a), req)
  {
    AttemptAfter(k, acts, a, req);
    SendMade(k, Run(k, acts), req);
  }

  lemma RecvMade(k0: Kernel, k: Kernel, req: Request)
    requires Made(k0, k, req) && req.RecvReq? && req.q in k0.queues
    ensures var sent, got := QueueRuns.SentOk(k.log, req.q), QueueRuns.ReceivedOk(k.log, req.q);
            if |got| < |sent| then AnswersWith(k, Attempt(k, req), Received(req.q, sent[|got|], Status.Ok))
            else NotNow(k, Attempt(k, req), req)
  {
    assert QueueRuns.QueueOk(k, req.q);
    RecvAnswers(k, req);
  }

  /** A receive succeeds at once if and only if more was sent than received, and it delivers
      the oldest message not yet received. */
  lemma RecvOkIff(k: Kernel, acts: seq<Action>, a: Action, req: Request)
    requires Attempts(k, acts, a, req) && req.RecvReq? && req.q in k.queues
    ensures var r := Run(k, acts); var sent, got := QueueRuns.SentOk(r.log, req.q), QueueRuns.ReceivedOk(r.log, req.q);
            if |got| < |sent| then AnswersWith(r, Apply(r, a), Received(req.q, sent[|got|], Status.Ok))
            else NotNow(r, Apply(r, a), req)
  {
    AttemptAfter(k, acts, a, req);
    RecvMade(k, Run(k, acts), req);
  }

  // ---------- The semaphore ----------

  /** Tokens there were from the start or were posted, and neither taken nor on their way. */
  ghost function Left(k: Kernel, s: nat, initial: nat): int {
    initial + SemRuns.PostsOk(k.log, s) - SemRuns.WaitsOk(k.log, s) - |Pending(WaitsOf(k), SemList(s))|
  }

  lemma SemMade(k0: Kernel, k: Kernel, req: Request)
    requires Made(k0, k, req) && req.SemReq? && req.s in k0.sems
    ensures if Left(k, req.s, k0.sems[req.s].count) > 0 then AnswersWith(k, Attempt(k, req), Waited(req.s, Status.Ok))
            else NotNow(k, Attempt(k, req), req)
  {
    assert SemRuns.SemOk(k, req.s, k0.sems[req.s].count);
    SemAnswers(k, req);
  }

  /** A wait succeeds at once if and only if a token is left. */
  lemma SemWaitOkIff(k: Kernel, acts: seq<Action>, a: Action, req: Request)
    requires Attempts(k, acts, a, req) && req.SemReq? && req.s in k.sems
    ensures var r := Run(k, acts);
            if Left(r, req.s, k.sems[req.s].count) > 0 then AnswersWith(r, Apply(r, a), Waited(req.s, Status.Ok))
            else NotNow(r, Apply(r, a), req)
  {
    AttemptAfter(k, acts, a, req);
    SemMade(k, Run(k, acts), req);
  }

  lemma SomeoneValidIffParked(k: Kernel, l: Lid)
    requires Sep(k)
    ensures SomeoneValid(k.tasks, ListOf(k, l)) <==> SomeoneParked(WaitsOf(k), l)
  {
    forall x: Tid ensures Role(WaitsOf(k), x) == Parked(l) <==> x in ListOf(k, l) && IsValidWaiter(Get(k.tasks, x)) {
      ParkedIffLinkedValid(WaitsOf(k), l, x);
    }
  }

  /** A post succeeds if and only if a task is parked or the tokens left are fewer than the
      maximum; in the second case, if nobody is parked, one more is left then, else as many. */
  lemma PostOkIff(k: Kernel, acts: seq<Action>, s: nat)
    requires Init(k) && Legal(k, acts) && s in k.sems
    ensures var r := Run(k, acts); var initial, max := k.sems[s].count, k.sems[s].maxCount;
            var ok := SomeoneParked(WaitsOf(r), SemList(s)) || Left(r, s, initial) < max;
            && s in r.sems && DoPost(r, s).log == r.log + [Posted(s, if ok then Status.Ok else Invalid)]
            && Left(r, s, initial) <= max
            && s in DoPost(r, s).sems && DoPost(r, s).sems[s].count == Left(DoPost(r, s), s, initial)
            && Left(DoPost(r, s), s, initial) == Left(r, s, initial) + if ok && !SomeoneParked(WaitsOf(r), SemList(s)) then 1 else 0
  {
    Runs.AlwaysSafe(k, acts);
    SizesRun(k, acts);
    var r := Run(k, acts);
    assert SemRuns.SemOk(r, s, k.sems[s].count);
    PostAnswers(r, s);
    SomeoneValidIffParked(r, SemList(s));
    SemRuns.PostOk(r, s, k.sems[s].count);
  }

  // ---------- The pool ----------

  /** Nobody has the block, and it is on its way to nobody. */
  ghost predicate Spare(k: Kernel, p: nat, b: nat) {
    Held(k.log, p)[b] == 0 && PoolRuns.Carriers(WaitsOf(k), PoolList(p), b) == {}
  }

  lemma SpareIffFree(k: Kernel, p: nat, blocks: seq<nat>, b: nat)
    requires p in k.pools && PoolRuns.PoolOk(k, p, blocks) && NoDup(blocks)
    ensures b in k.pools[p] <==> b in blocks && Spare(k, p, b)
  {
    assert PoolRuns.Conserved(k, p, blocks, b);
    assert b in k.pools[p] <==> multiset(k.pools[p])[b] > 0;
    assert b in blocks <==> multiset(blocks)[b] > 0;
    if b in blocks { PoolRuns.EveryBlockInOnePlace(k, p, blocks, b); }
  }

  lemma AllocMade(k0: Kernel, k: Kernel, req: Request)
    requires Made(k0, k, req) && req.AllocReq? && req.p in k0.pools && NoDup(k0.pools[req.p])
    ensures if exists b :: b in k0.pools[req.p] && Spare(k, req.p, b) then
              exists b :: b in k0.pools[req.p] && Spare(k, req.p, b) && AnswersWith(k, Attempt(k, req), Allocated(req.p, b, Status.Ok))
            else NotNow(k, Attempt(k, req), req)
  {
    var p, free := req.p, k.pools[req.p];
    forall b: nat ensures b in free <==> b in k0.pools[p] && Spare(k, p, b) {
      SpareIffFree(k, p, k0.pools[p], b);
    }
    AllocAnswers(k, req);
    if free != [] { assert free[0] in free; }
  }

  /** An allocation succeeds at once if and only if some block of the pool is spare, and it
      hands out such a block. */
  lemma AllocOkIff(k: Kernel, acts: seq<Action>, a: Action, req: Request)
    requires Attempts(k, acts, a, req) && req.AllocReq? && req.p in k.pools
    ensures var r := Run(k, acts);
            if exists b :: b in k.pools[req.p] && Spare(r, req.p, b) then
              exists b :: b in k.pools[req.p] && Spare(r, req.p, b) && AnswersWith(r, Apply(r, a), Allocated(req.p, b, Status.Ok))
            else NotNow(r, Apply(r, a), req)
  {
    AttemptAfter(k, acts, a, req);
    AllocMade(k, Run(k, acts), req);
  }

  // ---------- The mutex ----------

  /** Locks of `m` by `t` not matched by an unlock yet. */
  ghost function Depth(k: Kernel, m: nat, t: Tid): int {
    MutexRuns.Balance(k.log, m, t)
  }

  lemma OwnsIffDeep(k: Kernel, m: nat, t: Tid)
    requires m in k.mutexes && MutexRuns.Exclusive(k, m)
    ensures k.mutexes[m].owner == Some(t) <==> Depth(k, m, t) > 0
    ensures Depth(k, m, t) == if k.mutexes[m].owner == Some(t) then k.mutexes[m].lockCount else 0
  {
    assert MutexRuns.Balance(k.log, m, t) == if k.mutexes[m].owner == Some(t) then k.mutexes[m].lockCount else 0;
  }

  lemma LockMade(k: Kernel, req: Request)
    requires InCall(k, req) && req.LockReq? && MutexRuns.Exclusive(k, req.m)
    ensures if forall t: Tid :: t != k.current ==> Depth(k, req.m, t) == 0 then
              AnswersWith(k, Attempt(k, req), Locked(req.m, k.current, Status.Ok))
            else NotNow(k, Attempt(k, req), req)
  {
    LockAnswers(k, req);
    forall t: Tid ensures k.mutexes[req.m].owner == Some(t) <==> Depth(k, req.m, t) > 0 {
      OwnsIffDeep(k, req.m, t);
    }
    if k.mutexes[req.m].owner.Some? { OwnsIffDeep(k, req.m, k.mutexes[req.m].owner.value); }
  }

  /** A lock succeeds at once if and only if no other task has unmatched locks. */
  lemma LockOkIff(k: Kernel, acts: seq<Action>, a: Action, req: Request)
    requires Attempts(k, acts, a, req) && req.LockReq? && req.m in k.mutexes && Runs.NeverOverflows(k, acts, req.m)
    ensures var r := Run(k, acts);
            if forall t: Tid :: t != r.current ==> Depth(r, req.m, t) == 0 then
              AnswersWith(r, Apply(r, a), Locked(req.m, r.current, Status.Ok))
            else NotNow(r, Apply(r, a), req)
  {
    AttemptAfter(k, acts, a, req);
    Runs.MutexExcludes(k, acts, req.m);
    LockMade(Run(k, acts), req);
  }

  lemma UnlockMade(k: Kernel, m: nat)
    requires m in k.mutexes && MutexRuns.Exclusive(k, m)
    ensures var k' := DoUnlock(k, m); var n := Depth(k, m, k.current);
            && k'.log == k.log + [Unlocked(m, k.current, if n > 0 then Status.Ok else Invalid)]
            && Depth(k', m, k.current) == (if n > 0 then n - 1 else 0)
            && m in k'.mutexes && (n > 0 ==> (k'.mutexes[m].owner == None <==> n == 1))
  {
    OwnsIffDeep(k, m, k.current);
    UnlockAnswers(k, m);
    MutexRuns.LogOne(k.log, Unlocked(m, k.current, if Depth(k, m, k.current) > 0 then Status.Ok else Invalid), m, k.current);
  }

  /** An unlock succeeds if and only if the caller has unmatched locks; it matches one of them,
      and frees the mutex with the last. */
  lemma UnlockOkIff(k: Kernel, acts: seq<Action>, m: nat)
    requires Init(k) && Legal(k, acts) && m in k.mutexes && Runs.NeverOverflows(k, acts, m)
    ensures var r := Run(k, acts);
            && m in r.mutexes
            && var n := Depth(r, m, r.current);
            && DoUnlock(r, m).log == r.log + [Unlocked(m, r.current, if n > 0 then Status.Ok else Invalid)]
            && Depth(DoUnlock(r, m), m, r.current) == (if n > 0 then n - 1 else 0)
            && m in DoUnlock(r, m).mutexes && (n > 0 ==> (DoUnlock(r, m).mutexes[m].owner == None <==> n == 1))
  {
    Runs.MutexExcludes(k, acts, m);
    UnlockMade(Run(k, acts), m);
  }

  /** Only its own locks and unlocks change the number of a task's unmatched locks. */
  lemma DepthKept(k: Kernel, a: Action, m: nat, t: Tid)
    requires Sep(k) && Enabled(k, a) && m in k.mutexes && !Unlocks(k, a, m, t) && !Locks(k, a, m, t)
    ensures Depth(Apply(k, a), m, t) == Depth(k, m, t)
  {
    if Concerns(k, a) != Some(MutexObj(m)) {
      ActionApart(k, a, MutexObj(m));
      DepthApart(k, Apply(k, a), m, t);
    } else {
      OwnDepthKept(k, a, m, t);
    }
  }

  lemma OwnDepthKept(k: Kernel, a: Action, m: nat, t: Tid)
    requires Sep(k) && Enabled(k, a) && m in k.mutexes && Concerns(k, a) == Some(MutexObj(m))
    requires !Unlocks(k, a, m, t) && !Locks(k, a, m, t)
    ensures Depth(Apply(k, a), m, t) == Depth(k, m, t)
  {
    if a.Unlock? {
      UnlockAnswers(k, m);
      MutexRuns.LogOne(k.log, Unlocked(m, k.current, Status.Ok), m, t);
      MutexRuns.LogOne(k.log, Unlocked(m, k.current, Invalid), m, t);
    } else if a.Resume? {
      EndLockKept(k, CallOf(k, k.current).req, t);
    } else {
      var req := if a.Invoke? then a.req else CallOf(k, k.current).req;
      MutexRuns.LockBalance(k, req, MutexSpec.Lock(MutexView(k, m), k.current, req.timeout).1, t);
    }
  }

  lemma DepthApart(k: Kernel, k': Kernel, m: nat, t: Tid)
    requires LogsElsewhere(k, k', MutexObj(m))
    ensures Depth(k', m, t) == Depth(k, m, t)
  {
  }

  lemma EndLockKept(k: Kernel, req: Request, t: Tid)
    requires InCall(k, req) && req.LockReq?
    ensures Depth(EndLock(k, req), req.m, t) == Depth(k, req.m, t)
  {
    EndLockAnswers(k, req);
    MutexRuns.LogOne(k.log, Locked(req.m, k.current, Timeout), req.m, t);
  }

  predicate Unlocks(k: Kernel, a: Action, m: nat, t: Tid) {
    a == Unlock(m) && k.current == t
  }

  predicate Locks(k: Kernel, a: Action, m: nat, t: Tid) {
    k.current == t && Attempted(k, a).Some? && Attempted(k, a).value.LockReq? && Attempted(k, a).value.m == m
  }

  /** Unlocks of `m` by `t` in a run. */
  ghost function UnlocksIn(k: Kernel, acts: seq<Action>, m: nat, t: Tid): nat
    requires Legal(k, acts)
    decreases |acts|
  {
    if acts == [] then 0 else (if Unlocks(k, acts[0], m, t) then 1 else 0) + UnlocksIn(Apply(k, acts[0]), acts[1..], m, t)
  }

  ghost predicate LocksNoMore(k: Kernel, acts: seq<Action>, m: nat, t: Tid)
    requires Legal(k, acts)
    decreases |acts|
  {
    acts == [] || (!Locks(k, acts[0], m, t) && LocksNoMore(Apply(k, acts[0]), acts[1..], m, t))
  }

  lemma UnlockStep(k: Kernel, a: Action, m: nat, t: Tid)
    requires Sep(k) && Enabled(k, a) && m in k.mutexes && MutexRuns.MutexOk(k, m) && !MutexRuns.OverflowsIn(k, a, m)
    requires !Locks(k, a, m, t)
    ensures Depth(Apply(k, a), m, t) == if Unlocks(k, a, m, t) && Depth(k, m, t) > 0 then Depth(k, m, t) - 1 else Depth(k, m, t)
    ensures Depth(k, m, t) >= 0
  {
    OwnsIffDeep(k, m, t);
    if Unlocks(k, a, m, t) { UnlockMade(k, m); } else { DepthKept(k, a, m, t); }
  }

  lemma {:induction false} UnlockRun(k: Kernel, acts: seq<Action>, m: nat, t: Tid)
    requires Sep(k) && m in k.mutexes && MutexRuns.MutexOk(k, m) && Legal(k, acts)
    requires Runs.NeverOverflows(k, acts, m) && LocksNoMore(k, acts, m, t)
    ensures m in Run(k, acts).mutexes && MutexRuns.MutexOk(Run(k, acts), m)
    ensures var n, u := Depth(k, m, t), UnlocksIn(k, acts, m, t);
            n >= 0 && Depth(Run(k, acts), m, t) == if u < n then n - u else 0
    decreases |acts|
  {
    OwnsIffDeep(k, m, t);
    if acts != [] {
      var a := acts[0];
      UnlockStep(k, a, m, t);
      SepStep(k, a);
      MutexRuns.MutexStep(k, a, m);
      UnlockRun(Apply(k, a), acts[1..], m, t);
    }
  }

  /** A task with n unmatched locks that locks no more: whatever others do in between, each of
      its next n unlocks matches one of them, the mutex is its own until the n-th and not
      after it, and later ones change nothing. */
  lemma UnlocksMatchLocks(k: Kernel, acts: seq<Action>, more: seq<Action>, m: nat, t: Tid)
    requires Init(k) && Legal(k, acts) && m in k.mutexes && Runs.NeverOverflows(k, acts, m)
    requires Legal(Run(k, acts), more) && Runs.NeverOverflows(Run(k, acts), more, m) && LocksNoMore(Run(k, acts), more, m, t)
    ensures var r := Run(k, acts); var z := Run(r, more); var n, u := Depth(r, m, t), UnlocksIn(r, more, m, t);
            && Depth(z, m, t) == (if u < n then n - u else 0)
            && m in z.mutexes && (z.mutexes[m].owner == Some(t) <==> u < n)
  {
    Runs.MutexExcludes(k, acts, m);
    Runs.AlwaysSafe(k, acts);
    UnlockRun(Run(k, acts), more, m, t);
    OwnsIffDeep(Run(Run(k, acts), more), m, t);
  }

  // ---------- What was handed over arrives ----------

  /** Whatever happens between the release of a blocked task and its second region, it is
      answered with what its waker put in its hands: the token, the bits, the block. */
  lemma GrantReachesTheCaller(k: Kernel, acts: seq<Action>, x: Tid, req: Request)
    requires Sep(k) && Legal(k, acts) && Timing.StaysAway(k, acts, x)
    requires CallOf(k, x) == Waiting(req) && Timing.FateOf(Get(k.tasks, x)) == Timing.Granted
    requires Run(k, acts).current == x && Enabled(Run(k, acts), Resume)
    ensures var r, c := Run(k, acts), Get(k.tasks, x); var r' := Apply(r, Resume);
            && (req.SemReq? ==> AnswersWith(r, r', Waited(req.s, Status.Ok)))
            && (req.EventReq? ==> AnswersWith(r, r', Flagged(req.e, c.flagsResult, Status.Ok)))
            && (req.AllocReq? && c.objectResult != 0 ==> AnswersWith(r, r', Allocated(req.p, c.objectResult, Status.Ok)))
            && (CanRetry(req) && !req.AllocReq? ==> CallOf(r', x) == Retrying(req) && r'.log == r.log)
  {
    Timing.FateIsFinal(k, acts, x);
    SepRun(k, acts);
    ResumeAnswers(Run(k, acts), req);
  }

  lemma {:induction false} SepRun(k: Kernel, acts: seq<Action>)
    requires Sep(k) && Legal(k, acts)
    ensures Sep(Run(k, acts))
    decreases |acts|
  {
    if acts != [] {
      SepStep(k, acts[0]);
      SepRun(Apply(k, acts[0]), acts[1..]);
    }
  }
}
