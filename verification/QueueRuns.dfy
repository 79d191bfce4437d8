/** The message queue over whole runs: a bounded FIFO that loses no wake-up. */
module QueueRuns {
  import opened Base
  import opened WaitQueue
  import opened Kernel
  import opened Separation
  import opened Effects
  import opened Roles
  import opened ObjectFrame
  import QueueSpec

  // ---------- First in, first out ----------

  /** Values of the sends to `q` that returned OK, in step order. */
  function SentOk(log: seq<Event>, q: nat): seq<uint32> {
    if log == [] then []
    else
      var s := SentOk(log[..|log| - 1], q);
      match log[|log| - 1]
      case Sent(q', v, st) => if q' == q && st == Status.Ok then s + [v] else s
      case _ => s
  }

  /** Values the receives from `q` that returned OK delivered, in step order. */
  function ReceivedOk(log: seq<Event>, q: nat): seq<uint32> {
    if log == [] then []
    else
      var s := ReceivedOk(log[..|log| - 1], q);
      match log[|log| - 1]
      case Received(q', v, st) => if q' == q && st == Status.Ok then s + [v] else s
      case _ => s
  }

  lemma LogOne(log: seq<Event>, ev: Event, q: nat)
    ensures SentOk(log + [ev], q) ==
              SentOk(log, q) + if ev.Sent? && ev.q == q && ev.status == Status.Ok then [ev.value] else []
    ensures ReceivedOk(log + [ev], q) ==
              ReceivedOk(log, q) + if ev.Received? && ev.q == q && ev.status == Status.Ok then [ev.value] else []
  {
  }

  /** What was sent is what was received followed by what the buffer holds. */
  ghost predicate Fifo(k: Kernel, q: nat)
    requires q in k.queues
  {
    && |k.queues[q].contents| <= k.queues[q].capacity && k.queues[q].capacity > 0
    && SentOk(k.log, q) == ReceivedOk(k.log, q) + k.queues[q].contents
  }

  /** The queue and the log after a step that leaves `v` and may log `ev`. */
  ghost predicate Leaves(k: Kernel, k': Kernel, q: nat, v: QueueSpec.QueueVal, o: Outcome, ev: Event) {
    q in k'.queues && k'.queues[q] == v && k'.log == if o.Returns? then k.log + [ev] else k.log
  }

  lemma SendLeaves(k: Kernel, req: Request)
    requires req.SendReq? && Known(k, req)
    ensures var (v, o) := QueueSpec.Send(QueueView(k, req.q), k.current, req.value, req.timeout);
            Leaves(k, TrySend(k, req), req.q, v.q, o, Sent(req.q, req.value, StatusOf(o)))
  {
  }

  lemma RecvLeaves(k: Kernel, req: Request)
    requires req.RecvReq? && Known(k, req)
    ensures var (v, value, o) := QueueSpec.Recv(QueueView(k, req.q), k.current, req.timeout);
            Leaves(k, TryRecv(k, req), req.q, v.q, o, Received(req.q, value, StatusOf(o)))
  {
  }

  lemma SendFifo(k: Kernel, req: Request)
    requires req.SendReq? && Known(k, req) && Fifo(k, req.q)
    ensures req.q in TrySend(k, req).queues && Fifo(TrySend(k, req), req.q)
  {
    SendLeaves(k, req);
    var (v, o) := QueueSpec.Send(QueueView(k, req.q), k.current, req.value, req.timeout);
    LogOne(k.log, Sent(req.q, req.value, StatusOf(o)), req.q);
  }

  lemma SendIsrFifo(k: Kernel, q: nat, value: uint32)
    requires q in k.queues && Fifo(k, q)
    ensures Fifo(SendFromIsr(k, q, value), q)
  {
  }

  lemma RecvFifo(k: Kernel, req: Request)
    requires req.RecvReq? && Known(k, req) && Fifo(k, req.q)
    ensures req.q in TryRecv(k, req).queues && Fifo(TryRecv(k, req), req.q)
  {
    RecvLeaves(k, req);
    var (v, value, o) := QueueSpec.Recv(QueueView(k, req.q), k.current, req.timeout);
    LogOne(k.log, Received(req.q, value, StatusOf(o)), req.q);
    RecvValue(QueueView(k, req.q), k.current, req.timeout, ReceivedOk(k.log, req.q));
  }

  /** A message received moves from the buffer to those delivered. */
  lemma RecvValue(s: QueueSpec.View, t: Tid, timeout: uint32, before: seq<uint32>)
    ensures var (v, value, o) := QueueSpec.Recv(s, t, timeout);
            && v.q.capacity == s.q.capacity && |v.q.contents| <= |s.q.contents|
            && before + s.q.contents == before + (if o == Returns(Ok) then [value] else []) + v.q.contents
  {
  }

  lemma EndSendFifo(k: Kernel, req: Request)
    requires req.SendReq? && Known(k, req) && Fifo(k, req.q)
    ensures req.q in EndSend(k, req).queues && Fifo(EndSend(k, req), req.q)
  {
  }

  lemma EndRecvFifo(k: Kernel, req: Request)
    requires req.RecvReq? && Known(k, req) && Fifo(k, req.q)
    ensures req.q in EndRecv(k, req).queues && Fifo(EndRecv(k, req), req.q)
  {
  }

  lemma FifoApart(k: Kernel, k': Kernel, q: nat)
    requires q in k.queues && Fifo(k, q) && Apart(k, k', QueueObj(q))
    ensures q in k'.queues && Fifo(k', q)
  {
  }

  // ---------- No lost wake-up ----------

  /** While a receiver is parked, every message is spoken for by a receiver already
      woken; while a sender is parked, every free slot by a sender already woken. */
  ghost predicate NoLostWakeup(k: Kernel, q: nat)
    requires q in k.queues
  {
    var w, v := WaitsOf(k), k.queues[q];
    && (SomeoneParked(w, RecvList(q)) ==> |v.contents| <= |Pending(w, RecvList(q))|)
    && (SomeoneParked(w, SendList(q)) ==> v.capacity - |v.contents| <= |Pending(w, SendList(q))|)
  }

  /** Counting over a successful call that wakes from `l`, made by a task that can
      have been pending on `other` only. */
  lemma DeliveryCounts(w: Waits, v: Waits, l: Lid, other: Lid, t: Tid)
    requires Separated(w) && WakesAndReturns(w, v, l, t) && l != other && CallLists(w, t) <= {other}
    ensures SomeoneParked(v, l) ==> SomeoneParked(w, l) && |Pending(v, l)| == |Pending(w, l)| + 1
    ensures SomeoneParked(v, other) ==> SomeoneParked(w, other)
    ensures |Pending(v, other)| >= |Pending(w, other)| - 1
  {
    WakesAndReturnsRoles(w, v, l, t);
    WakesAndReturnsKeeps(w, v, l, t);
    match PopTask(w.ts, ListAt(w.lists, l)) {
      case None =>
      case Some(y) => PendingPlus(w, v, l, y);
    }
    if Role(w, t) == Woken(other) {
      PendingMinus(w, v, other, t);
    } else {
      PendingSame(w, v, other);
    }
  }

  lemma SendDeliversNoLoss(k: Kernel, req: Request)
    requires Attempting(k, req) && req.SendReq? && |k.queues[req.q].contents| < k.queues[req.q].capacity
    requires NoLostWakeup(k, req.q)
    ensures req.q in TrySend(k, req).queues && NoLostWakeup(TrySend(k, req), req.q)
  {
    SendDelivers(k, req);
    SendLeaves(k, req);
    DeliveryCounts(WaitsOf(k), WaitsOf(TrySend(k, req)), RecvList(req.q), SendList(req.q), k.current);
  }

  lemma RecvDeliversNoLoss(k: Kernel, req: Request)
    requires Attempting(k, req) && req.RecvReq? && |k.queues[req.q].contents| > 0
    requires NoLostWakeup(k, req.q) && |k.queues[req.q].contents| <= k.queues[req.q].capacity
    ensures req.q in TryRecv(k, req).queues && NoLostWakeup(TryRecv(k, req), req.q)
  {
    RecvDelivers(k, req);
    RecvLeaves(k, req);
    DeliveryCounts(WaitsOf(k), WaitsOf(TryRecv(k, req)), SendList(req.q), RecvList(req.q), k.current);
  }

  /** A send to a full queue, or a receive from an empty one, starves nobody. */
  lemma StayCounts(w: Waits, v: Waits, e: Effect, t: Tid, other: Lid)
    requires Separated(w) && Has(w, v, e) && (e == EMovesOn(t, Free) || (e.EParksIn? && e.t == t && e.l != other))
    requires other !in CallLists(w, t)
    ensures SomeoneParked(v, other) ==> SomeoneParked(w, other)
    ensures Pending(v, other) == Pending(w, other)
  {
    EffectKeeps(w, v, e);
    EffectLeavesAlone(w, v, e, other);
    PendingSame(w, v, other);
  }

  lemma SendRefusedNoLoss(k: Kernel, req: Request)
    requires Attempting(k, req) && req.SendReq? && |k.queues[req.q].contents| == k.queues[req.q].capacity && req.timeout == 0
    requires NoLostWakeup(k, req.q)
    ensures req.q in TrySend(k, req).queues && NoLostWakeup(TrySend(k, req), req.q)
  {
    SendRefused(k, req);
    StayCounts(WaitsOf(k), WaitsOf(TrySend(k, req)), EMovesOn(k.current, Free), k.current, RecvList(req.q));
  }

  lemma SendParksNoLoss(k: Kernel, req: Request)
    requires Attempting(k, req) && req.SendReq? && |k.queues[req.q].contents| == k.queues[req.q].capacity && req.timeout != 0
    requires NoLostWakeup(k, req.q)
    ensures req.q in TrySend(k, req).queues && NoLostWakeup(TrySend(k, req), req.q)
  {
    SendParks(k, req);
    StayCounts(WaitsOf(k), WaitsOf(TrySend(k, req)), EParksIn(SendList(req.q), k.current, req), k.current, RecvList(req.q));
  }

  lemma RecvRefusedNoLoss(k: Kernel, req: Request)
    requires Attempting(k, req) && req.RecvReq? && |k.queues[req.q].contents| == 0 && req.timeout == 0
    requires NoLostWakeup(k, req.q)
    ensures req.q in TryRecv(k, req).queues && NoLostWakeup(TryRecv(k, req), req.q)
  {
    RecvRefused(k, req);
    StayCounts(WaitsOf(k), WaitsOf(TryRecv(k, req)), EMovesOn(k.current, Free), k.current, SendList(req.q));
  }

  lemma RecvParksNoLoss(k: Kernel, req: Request)
    requires Attempting(k, req) && req.RecvReq? && |k.queues[req.q].contents| == 0 && req.timeout != 0
    requires NoLostWakeup(k, req.q)
    ensures req.q in TryRecv(k, req).queues && NoLostWakeup(TryRecv(k, req), req.q)
  {
    RecvParks(k, req);
    StayCounts(WaitsOf(k), WaitsOf(TryRecv(k, req)), EParksIn(RecvList(req.q), k.current, req), k.current, SendList(req.q));
  }

  lemma EndNoLoss(w: Waits, v: Waits, e: Effect, l: Lid)
    requires Separated(w) && Has(w, v, e) && (e.EUnlinks? || (e.EMovesOn? && e.c.Retrying?))
    ensures SomeoneParked(v, l) ==> SomeoneParked(w, l)
    ensures Pending(v, l) == Pending(w, l)
  {
    EffectKeeps(w, v, e);
    if e.EUnlinks? {
      UnlinksRoles(w, v, e.l, e.t);
    } else {
      MovesOnRoles(w, v, e.t, e.c);
    }
    PendingSame(w, v, l);
  }

  lemma SendIsrDeliversNoLoss(k: Kernel, q: nat, value: uint32)
    requires Sep(k) && q in k.queues && NoLostWakeup(k, q) && |k.queues[q].contents| < k.queues[q].capacity
    ensures q in SendFromIsr(k, q, value).queues && NoLostWakeup(SendFromIsr(k, q, value), q)
  {
    var w, v := WaitsOf(k), WaitsOf(SendFromIsr(k, q, value));
    SendFromIsrWakes(k, q, value);
    WakesRoles(w, v, RecvList(q));
    WakesKeeps(w, v, RecvList(q));
    PendingSame(w, v, SendList(q));
    match PopTask(w.ts, ListAt(w.lists, RecvList(q))) {
      case None =>
      case Some(y) => PendingPlus(w, v, RecvList(q), y);
    }
  }

  lemma SendIsrRefusedNoLoss(k: Kernel, q: nat, value: uint32)
    requires Sep(k) && q in k.queues && NoLostWakeup(k, q) && |k.queues[q].contents| >= k.queues[q].capacity
    ensures q in SendFromIsr(k, q, value).queues && NoLostWakeup(SendFromIsr(k, q, value), q)
  {
    var w, v := WaitsOf(k), WaitsOf(SendFromIsr(k, q, value));
    assert forall x: Tid :: Role(v, x) == Role(w, x);
    PendingSame(w, v, RecvList(q));
    PendingSame(w, v, SendList(q));
  }

  lemma NoLossApart(k: Kernel, a: Action, q: nat)
    requires Sep(k) && Enabled(k, a) && Concerns(k, a) != Some(QueueObj(q)) && q in k.queues && NoLostWakeup(k, q)
    ensures q in Apply(k, a).queues && NoLostWakeup(Apply(k, a), q)
  {
    ActionApart(k, a, QueueObj(q));
    SepStep(k, a);
    OthersLeftAlone(k, a, RecvList(q));
    OthersLeftAlone(k, a, SendList(q));
    PendingSame(WaitsOf(k), WaitsOf(Apply(k, a)), RecvList(q));
    PendingSame(WaitsOf(k), WaitsOf(Apply(k, a)), SendList(q));
  }

  // ---------- Every action keeps both ----------

  ghost predicate QueueOk(k: Kernel, q: nat)
    requires q in k.queues
  {
    Fifo(k, q) && NoLostWakeup(k, q)
  }

  lemma AttemptQueueOk(k: Kernel, req: Request)
    requires Attempting(k, req) && (req.SendReq? || req.RecvReq?) && QueueOk(k, req.q)
    ensures req.q in Attempt(k, req).queues && QueueOk(Attempt(k, req), req.q)
  {
    if req.SendReq? {
      SendFifo(k, req);
      if |k.queues[req.q].contents| < k.queues[req.q].capacity { SendDeliversNoLoss(k, req); }
      else if req.timeout == 0 { SendRefusedNoLoss(k, req); }
      else { SendParksNoLoss(k, req); }
    } else {
      RecvFifo(k, req);
      if |k.queues[req.q].contents| > 0 { RecvDeliversNoLoss(k, req); }
      else if req.timeout == 0 { RecvRefusedNoLoss(k, req); }
      else { RecvParksNoLoss(k, req); }
    }
  }

  lemma EndSendQueueOk(k: Kernel, req: Request)
    requires Continuing(k, req) && req.SendReq? && QueueOk(k, req.q)
    ensures req.q in EndSend(k, req).queues && QueueOk(EndSend(k, req), req.q)
  {
    var w, v := WaitsOf(k), WaitsOf(EndSend(k, req));
    var e := if Get(k.tasks, k.current).result == Timeout then EUnlinks(SendList(req.q), k.current) else EMovesOn(k.current, Retrying(req));
    if e.EUnlinks? { EndSendUnlinks(k, req); } else { EndSendRetries(k, req); }
    EndNoLoss(w, v, e, SendList(req.q));
    EndNoLoss(w, v, e, RecvList(req.q));
    EndSendFifo(k, req);
  }

  lemma EndRecvQueueOk(k: Kernel, req: Request)
    requires Continuing(k, req) && req.RecvReq? && QueueOk(k, req.q)
    ensures req.q in EndRecv(k, req).queues && QueueOk(EndRecv(k, req), req.q)
  {
    var w, v := WaitsOf(k), WaitsOf(EndRecv(k, req));
    var e := if Get(k.tasks, k.current).result == Timeout then EUnlinks(RecvList(req.q), k.current) else EMovesOn(k.current, Retrying(req));
    if e.EUnlinks? { EndRecvUnlinks(k, req); } else { EndRecvRetries(k, req); }
    EndNoLoss(w, v, e, SendList(req.q));
    EndNoLoss(w, v, e, RecvList(req.q));
    EndRecvFifo(k, req);
  }

  lemma QueueApart(k: Kernel, a: Action, q: nat)
    requires Sep(k) && Enabled(k, a) && q in k.queues && QueueOk(k, q) && Concerns(k, a) != Some(QueueObj(q))
    ensures q in Apply(k, a).queues && QueueOk(Apply(k, a), q)
  {
    ActionApart(k, a, QueueObj(q));
    FifoApart(k, Apply(k, a), q);
    NoLossApart(k, a, q);
  }

  lemma QueueStep(k: Kernel, a: Action, q: nat)
    requires Sep(k) && Enabled(k, a) && q in k.queues && QueueOk(k, q)
    ensures q in Apply(k, a).queues && QueueOk(Apply(k, a), q)
  {
    if Concerns(k, a) != Some(QueueObj(q)) {
      QueueApart(k, a, q);
    } else if a.Invoke? {
      AttemptQueueOk(k, a.req);
    } else if a.Retry? {
      AttemptQueueOk(k, CallOf(k, k.current).req);
    } else if a.Resume? {
      var req := CallOf(k, k.current).req;
      if req.SendReq? { EndSendQueueOk(k, req); } else { EndRecvQueueOk(k, req); }
    } else {
      SendIsrFifo(k, q, a.value);
      if |k.queues[q].contents| < k.queues[q].capacity { SendIsrDeliversNoLoss(k, q, a.value); }
      else { SendIsrRefusedNoLoss(k, q, a.value); }
    }
  }

  /** With nobody between a wake-up and its retry, receivers wait only on an empty
      queue, senders only on a full one, and never both. */
  lemma QuietQueue(k: Kernel, q: nat)
    requires q in k.queues && QueueOk(k, q)
    requires Pending(WaitsOf(k), RecvList(q)) == {} && Pending(WaitsOf(k), SendList(q)) == {}
    ensures SomeoneParked(WaitsOf(k), RecvList(q)) ==> k.queues[q].contents == []
    ensures SomeoneParked(WaitsOf(k), SendList(q)) ==> |k.queues[q].contents| == k.queues[q].capacity
    ensures !(SomeoneParked(WaitsOf(k), RecvList(q)) && SomeoneParked(WaitsOf(k), SendList(q)))
  {
  }
}
