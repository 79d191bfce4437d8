/** What every call answers: the exact condition under which a region succeeds, what it
    hands out and what it leaves behind; and the same read off the history of a run. */
module Answers {
  import opened Base
  import opened WaitQueue
  import opened Kernel
  import opened Separation
  import EventSpec

  /** The current task makes the call. */
  predicate InCall(k: Kernel, req: Request) {
    Known(k, req) && k.current < |k.tasks| && |k.calls| == |k.tasks|
  }

  /** The call returns, and `ev` is its entry in the history. */
  predicate AnswersWith(k: Kernel, k': Kernel, ev: Event) {
    CallOf(k', k.current) == Free && k'.log == k.log + [ev]
  }

  predicate GoesToSleep(k: Kernel, k': Kernel, req: Request) {
    CallOf(k', k.current) == Waiting(req) && Get(k'.tasks, k.current).state == Blocked && k'.log == k.log
  }

  /** The entry of a call that timed out. */
  function TimedOut(req: Request, t: Tid): Event {
    match req
    case SendReq(q, value, _) => Sent(q, value, Timeout)
    case RecvReq(q, _) => Received(q, 0, Timeout)
    case LockReq(m, _) => Locked(m, t, Timeout)
    case SemReq(s, _) => Waited(s, Timeout)
    case EventReq(e, _, _, _, _) => Flagged(e, {}, Timeout)
    case AllocReq(p, _) => Allocated(p, 0, Timeout)
    case SleepReq(_) => Slept(t)
    case NotifyReq(clearEntry, _, _) => Taken(t, clearEntry, {}, Timeout)
  }

  /** The call cannot be served now: it times out at once or blocks, and no object changes. */
  predicate NotNow(k: Kernel, k': Kernel, req: Request) {
    && (if Milliseconds(req) == 0 then AnswersWith(k, k', TimedOut(req, k.current)) else GoesToSleep(k, k', req))
    && SameObjects(k, k')
  }

  predicate SameObjects(k: Kernel, k': Kernel) {
    && k'.queues == k.queues && k'.mutexes == k.mutexes && k'.sems == k.sems
    && k'.events == k.events && k'.pools == k.pools
  }

  // ---------- First regions ----------

  lemma SendAnswers(k: Kernel, req: Request)
    requires InCall(k, req) && req.SendReq?
    ensures var k' := TrySend(k, req); var v := k.queues[req.q];
            if |v.contents| < v.capacity then
              AnswersWith(k, k', Sent(req.q, req.value, Status.Ok)) && k'.queues == k.queues[req.q := v.(contents := v.contents + [req.value])]
            else NotNow(k, k', req)
  {
    if |k.queues[req.q].contents| >= k.queues[req.q].capacity { SendNotNow(k, req); }
  }

  lemma SendNotNow(k: Kernel, req: Request)
    requires InCall(k, req) && req.SendReq? && |k.queues[req.q].contents| >= k.queues[req.q].capacity
    ensures NotNow(k, TrySend(k, req), req)
  {
  }

  lemma RecvAnswers(k: Kernel, req: Request)
    requires InCall(k, req) && req.RecvReq?
    ensures var k' := TryRecv(k, req); var v := k.queues[req.q];
            if v.contents != [] then
              && AnswersWith(k, k', Received(req.q, v.contents[0], Status.Ok))
              && req.q in k'.queues && v.contents == [v.contents[0]] + k'.queues[req.q].contents
            else NotNow(k, k', req)
  {
    if k.queues[req.q].contents != [] { RecvServed(k, req); } else { RecvNotNow(k, req); }
  }

  lemma RecvServed(k: Kernel, req: Request)
    requires InCall(k, req) && req.RecvReq? && k.queues[req.q].contents != []
    ensures var k' := TryRecv(k, req); var v := k.queues[req.q];
            && AnswersWith(k, k', Received(req.q, v.contents[0], Status.Ok))
            && req.q in k'.queues && v.contents == [v.contents[0]] + k'.queues[req.q].contents
  {
  }

  lemma RecvNotNow(k: Kernel, req: Request)
    requires InCall(k, req) && req.RecvReq? && k.queues[req.q].contents == []
    ensures NotNow(k, TryRecv(k, req), req)
  {
  }

  lemma LockAnswers(k: Kernel, req: Request)
    requires InCall(k, req) && req.LockReq?
    ensures var k' := TryLock(k, req); var v := k.mutexes[req.m];
            if v.owner == None || v.owner == Some(k.current) then
              AnswersWith(k, k', Locked(req.m, k.current, Status.Ok)) && req.m in k'.mutexes && k'.mutexes[req.m].owner == Some(k.current)
            else NotNow(k, k', req)
  {
  }

  lemma SemAnswers(k: Kernel, req: Request)
    requires InCall(k, req) && req.SemReq?
    ensures var k' := TrySem(k, req); var v := k.sems[req.s];
            if v.count > 0 then
              AnswersWith(k, k', Waited(req.s, Status.Ok)) && req.s in k'.sems && k'.sems[req.s].count + 1 == v.count
            else NotNow(k, k', req)
  {
  }

  /** The condition of a wait for event flags. */
  predicate Met(current: Flags, flags: Flags, all: bool) {
    if all then forall b :: b in flags ==> b in current else exists b :: b in flags && b in current
  }

  lemma MetIsMatched(now: Flags, flags: Flags, all: bool)
    requires flags != {}
    ensures Met(now, flags, all) <==> EventSpec.Matches(now, flags, all)
    ensures Met(now, flags, all) ==>
              EventSpec.Matched(now, flags, all) == now * flags && now * flags != {} && (all ==> now * flags == flags)
  {
    if all && Met(now, flags, all) { assert now * flags == flags; }
    if !all && Met(now, flags, all) {
      var b :| b in flags && b in now;
      assert b in now * flags;
    }
    if !all && now * flags != {} {
      var b :| b in now * flags;
      assert b in flags && b in now;
    }
    if all && now * flags == flags {
      forall b | b in flags ensures b in now { assert b in now * flags; }
    }
  }

  /** A wait that is met reports all bits that are both set and asked for, and takes just
      these if it clears; a wait for nothing is refused. */
  lemma EventAnswers(k: Kernel, req: Request)
    requires InCall(k, req) && req.EventReq?
    ensures var k' := TryEvent(k, req); var now := k.events[req.e];
            if req.flags == {} then AnswersWith(k, k', Flagged(req.e, {}, Invalid)) && k'.events == k.events
            else if Met(now, req.flags, req.all) then
              && AnswersWith(k, k', Flagged(req.e, now * req.flags, Status.Ok)) && now * req.flags != {}
              && (req.all ==> now * req.flags == req.flags)
              && k'.events == k.events[req.e := if req.clear then now - now * req.flags else now]
            else NotNow(k, k', req) && (req.timeout != 0 ==> Get(k'.tasks, k.current).flagsResult == {})
  {
    if req.flags != {} {
      MetIsMatched(k.events[req.e], req.flags, req.all);
      if Met(k.events[req.e], req.flags, req.all) { EventServed(k, req); } else { EventNotNow(k, req); }
    }
  }

  lemma EventServed(k: Kernel, req: Request)
    requires InCall(k, req) && req.EventReq? && req.flags != {} && EventSpec.Matches(k.events[req.e], req.flags, req.all)
    ensures var k' := TryEvent(k, req); var bits := EventSpec.Matched(k.events[req.e], req.flags, req.all);
            && AnswersWith(k, k', Flagged(req.e, bits, Status.Ok))
            && k'.events == k.events[req.e := if req.clear then k.events[req.e] - bits else k.events[req.e]]
  {
  }

  lemma EventNotNow(k: Kernel, req: Request)
    requires InCall(k, req) && req.EventReq? && req.flags != {} && !EventSpec.Matches(k.events[req.e], req.flags, req.all)
    ensures NotNow(k, TryEvent(k, req), req)
    ensures req.timeout != 0 ==> Get(TryEvent(k, req).tasks, k.current).flagsResult == {}
  {
  }

  /** A free block of the list is handed out, and that one alone leaves it. */
  lemma AllocAnswers(k: Kernel, req: Request)
    requires InCall(k, req) && req.AllocReq?
    ensures var k' := TryAlloc(k, req); var free := k.pools[req.p];
            if free != [] then
              AnswersWith(k, k', Allocated(req.p, free[0], Status.Ok)) && req.p in k'.pools && free == [free[0]] + k'.pools[req.p]
            else NotNow(k, k', req) && (req.timeout != 0 ==> Get(k'.tasks, k.current).objectResult == 0)
  {
    if k.pools[req.p] == [] { AllocNotNow(k, req); }
  }

  lemma AllocNotNow(k: Kernel, req: Request)
    requires InCall(k, req) && req.AllocReq? && k.pools[req.p] == []
    ensures NotNow(k, TryAlloc(k, req), req)
    ensures req.timeout != 0 ==> Get(TryAlloc(k, req).tasks, k.current).objectResult == 0
  {
  }

  lemma SleepAnswers(k: Kernel, req: Request)
    requires InCall(k, req) && req.SleepReq?
    ensures NotNow(k, TrySleep(k, req), req)
  {
    if req.ms == 0 { NoSleep(k, req); } else { SleepBlocks(k, req); }
  }

  lemma NoSleep(k: Kernel, req: Request)
    requires InCall(k, req) && req.SleepReq? && req.ms == 0
    ensures NotNow(k, TrySleep(k, req), req)
  {
  }

  lemma SleepBlocks(k: Kernel, req: Request)
    requires InCall(k, req) && req.SleepReq? && req.ms != 0
    ensures NotNow(k, TrySleep(k, req), req)
  {
  }

  /** A wait with a notification pending reports the word without the bits discarded on entry,
      and leaves of it what is not cleared on exit. Otherwise nothing is discarded but those. */
  lemma NotifyWaitAnswers(k: Kernel, req: Request)
    requires InCall(k, req) && req.NotifyReq?
    ensures var k' := TryNotifyWait(k, req); var c, d := Get(k.tasks, k.current), Get(k'.tasks, k.current);
            if c.notifyPending then
              && AnswersWith(k, k', Taken(k.current, req.clearEntry, c.notifyValue - req.clearEntry, Status.Ok))
              && d.notifyValue == c.notifyValue - req.clearEntry - req.clearExit
            else NotNow(k, k', req) && d.notifyValue == c.notifyValue - req.clearEntry
  {
  }

  // ---------- Second regions ----------

  /** What a task that was released in time is answered: the bits, the block or the word it
      was handed; a queue or mutex call, handed nothing, goes round its loop. */
  predicate Granted(k: Kernel, k': Kernel, req: Request) {
    var c := Get(k.tasks, k.current);
    match req
    case SemReq(s, _) => AnswersWith(k, k', Waited(s, Status.Ok))
    case EventReq(e, _, _, _, _) => AnswersWith(k, k', Flagged(e, c.flagsResult, Status.Ok))
    case AllocReq(p, _) =>
      && Get(k'.tasks, k.current).objectResult == 0
      && if c.objectResult != 0 then AnswersWith(k, k', Allocated(p, c.objectResult, Status.Ok))
         else CallOf(k', k.current) == Retrying(req) && k'.log == k.log
    case NotifyReq(clearEntry, clearExit, _) =>
      && AnswersWith(k, k', Taken(k.current, clearEntry, c.notifyValue, Status.Ok))
      && Get(k'.tasks, k.current).notifyValue == c.notifyValue - clearExit && Get(k'.tasks, k.current).waitType == WaitNone
    case SleepReq(_) => AnswersWith(k, k', Slept(k.current))
    case _ => CallOf(k', k.current) == Retrying(req) && k'.log == k.log
  }

  /** What a task whose time ran out is answered; it is left waiting for nothing. */
  predicate Expired(k: Kernel, k': Kernel, req: Request) {
    AnswersWith(k, k', TimedOut(req, k.current)) && (req.SleepReq? || Get(k'.tasks, k.current).waitType == WaitNone)
  }

  lemma ResumeAnswers(k: Kernel, req: Request)
    requires InCall(k, req)
    ensures var k' := Continue(k, req);
            if Get(k.tasks, k.current).result == Timeout then Expired(k, k', req)
            else Granted(k, k', req)
  {
    if req.SendReq? { EndSendAnswers(k, req); } else if req.RecvReq? { EndRecvAnswers(k, req); }
    else if req.LockReq? { EndLockAnswers(k, req); } else if req.SemReq? { EndSemAnswers(k, req); }
    else if req.EventReq? { EndEventAnswers(k, req); } else if req.AllocReq? { EndAllocAnswers(k, req); }
    else if req.NotifyReq? { EndNotifyAnswers(k, req); }
  }

  lemma EndSendAnswers(k: Kernel, req: Request)
    requires InCall(k, req) && req.SendReq?
    ensures if Get(k.tasks, k.current).result == Timeout then Expired(k, EndSend(k, req), req)
            else Granted(k, EndSend(k, req), req)
  {
  }

  lemma EndRecvAnswers(k: Kernel, req: Request)
    requires InCall(k, req) && req.RecvReq?
    ensures if Get(k.tasks, k.current).result == Timeout then Expired(k, EndRecv(k, req), req)
            else Granted(k, EndRecv(k, req), req)
  {
  }

  lemma EndLockAnswers(k: Kernel, req: Request)
    requires InCall(k, req) && req.LockReq?
    ensures if Get(k.tasks, k.current).result == Timeout then Expired(k, EndLock(k, req), req)
            else Granted(k, EndLock(k, req), req)
  {
  }

  lemma EndSemAnswers(k: Kernel, req: Request)
    requires InCall(k, req) && req.SemReq?
    ensures if Get(k.tasks, k.current).result == Timeout then Expired(k, EndSem(k, req), req)
            else Granted(k, EndSem(k, req), req)
  {
  }

  lemma EndEventAnswers(k: Kernel, req: Request)
    requires InCall(k, req) && req.EventReq?
    ensures if Get(k.tasks, k.current).result == Timeout then Expired(k, EndEvent(k, req), req)
            else Granted(k, EndEvent(k, req), req)
  {
  }

  lemma EndAllocAnswers(k: Kernel, req: Request)
    requires InCall(k, req) && req.AllocReq?
    ensures if Get(k.tasks, k.current).result == Timeout then Expired(k, EndAlloc(k, req), req)
            else Granted(k, EndAlloc(k, req), req)
  {
  }

  lemma EndNotifyAnswers(k: Kernel, req: Request)
    requires InCall(k, req) && req.NotifyReq?
    ensures if Get(k.tasks, k.current).result == Timeout then Expired(k, EndNotifyWait(k, req), req)
            else Granted(k, EndNotifyWait(k, req), req)
  {
  }

  // ---------- Calls that do not block ----------

  /** Some linked task is a valid waiter. */
  ghost predicate SomeoneValid(ts: seq<Tcb>, l: seq<Tid>) {
    exists x :: x in l && IsValidWaiter(Get(ts, x))
  }

  lemma PopFindsIff(ts: seq<Tcb>, l: seq<Tid>)
    ensures PopTask(ts, l).Some? <==> SomeoneValid(ts, l)
  {
    var n := FirstValid(ts, l);
    if n < |l| { assert l[n] in l; }
  }

  /** An interrupt sends under the same condition as a task. */
  lemma SendIsrAnswers(k: Kernel, q: nat, value: uint32)
    requires q in k.queues
    ensures var k' := SendFromIsr(k, q, value); var v := k.queues[q];
            if |v.contents| < v.capacity then
              k'.log == k.log + [Sent(q, value, Status.Ok)] && k'.queues == k.queues[q := v.(contents := v.contents + [value])]
            else k' == k.(log := k.log + [Sent(q, value, Timeout)], lists := k'.lists) && WaitsSame(k, k')
  {
  }

  ghost predicate WaitsSame(k: Kernel, k': Kernel) {
    k'.tasks == k.tasks && k'.calls == k.calls && forall l :: ListOf(k', l) == ListOf(k, l)
  }

  /** A post succeeds if and only if somebody is there to take the token or there is room for
      it; the count goes up exactly when it succeeds with nobody there. */
  lemma PostAnswers(k: Kernel, s: nat)
    requires s in k.sems && k.sems[s].count <= k.sems[s].maxCount
    ensures var k' := DoPost(k, s); var v := k.sems[s]; var taken := SomeoneValid(k.tasks, ListOf(k, SemList(s)));
            && k'.log == k.log + [Posted(s, if taken || v.count < v.maxCount then Status.Ok else Invalid)]
            && s in k'.sems && k'.sems[s].count == if !taken && v.count < v.maxCount then v.count + 1 else v.count
  {
    PopFindsIff(k.tasks, ListOf(k, SemList(s)));
  }

  /** An unlock succeeds if and only if the caller owns the mutex with a positive count; it
      takes one off the count and frees the mutex when that was the last one. */
  lemma UnlockAnswers(k: Kernel, m: nat)
    requires m in k.mutexes
    ensures var k' := DoUnlock(k, m); var v := k.mutexes[m]; var owns := v.owner == Some(k.current) && v.lockCount > 0;
            && k'.log == k.log + [Unlocked(m, k.current, if owns then Status.Ok else Invalid)]
            && m in k'.mutexes
            && (owns ==> k'.mutexes[m].lockCount + 1 == v.lockCount)
            && (k'.mutexes[m].owner == if owns && v.lockCount == 1 then None else v.owner)
            && (!owns ==> k'.mutexes == k.mutexes && WaitsSame(k, k'))
  {
  }

  /** A notification is refused for no bits only; else all of them reach the word. */
  lemma NotifyAnswers(k: Kernel, t: Tid, bits: Flags)
    requires t < |k.tasks|
    ensures var k' := DoNotify(k, t, bits); var c, d := Get(k.tasks, t), Get(k'.tasks, t);
            && k'.log == k.log + [Notified(t, bits, if bits != {} then Status.Ok else Invalid)]
            && d.notifyValue == c.notifyValue + bits && (bits == {} ==> k'.tasks == k.tasks)
            && (bits != {} ==> d.notifyPending)
            && (bits != {} && IsValidWaiter(c) && c.waitType == WaitNotification ==> d.state == Ready && d.result == Status.Ok)
  {
  }

  /** Setting no flags is refused and changes nothing; anything else succeeds. */
  lemma SetAnswers(v: EventSpec.View, flags: Flags)
    ensures EventSpec.Set(v, flags).1 == if flags != {} then Status.Ok else Invalid
    ensures flags == {} ==> EventSpec.Set(v, flags).0 == v
  {
  }
}
