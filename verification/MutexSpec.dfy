/** The critical regions of the recursive mutex with priority inheritance. */
module MutexSpec {
  import opened Base
  import opened WaitQueue

  datatype MutexVal = MutexVal(owner: Option<Tid>, lockCount: uint32)

  datatype View = View(ts: seq<Tcb>, m: MutexVal, waiters: seq<Tid>)

  function Max(a: uint32, b: uint32): uint32 {
    if a >= b then a else b
  }

  /** `lock_count++` on a `uint32_t`. */
  function Increment(n: uint32): uint32 {
    (n + 1) % 0x1_0000_0000
  }

  /** The highest priority among `floor` and the valid waiters. */
  function TopPriority(ts: seq<Tcb>, l: seq<Tid>, floor: uint32): (p: uint32)
    ensures p >= floor
    ensures forall x :: x in l && IsValidWaiter(Get(ts, x)) ==> Get(ts, x).priority <= p
    ensures p == floor || exists x :: x in l && IsValidWaiter(Get(ts, x)) && Get(ts, x).priority == p
  {
    if l == [] then floor
    else
      var f := if IsValidWaiter(Get(ts, l[0])) then Max(floor, Get(ts, l[0]).priority) else floor;
      var p := TopPriority(ts, l[1..], f);
      assert l == [l[0]] + l[1..];
      p
  }

  /** `recompute_owner_priority`. */
  function Recompute(ts: seq<Tcb>, m: MutexVal, l: seq<Tid>): (r: seq<Tcb>)
    ensures |r| == |ts|
  {
    match m.owner
    case None => ts
    case Some(o) => Put(ts, o, Get(ts, o).(priority := TopPriority(ts, l, Get(ts, o).basePriority)))
  }

  /** First region of `rtos_mutex_lock_timeout`. */
  function Lock(s: View, t: Tid, timeout: uint32): (r: (View, Outcome))
    ensures |r.0.ts| == |s.ts|
  {
    match s.m.owner
    case None =>
      (s.(m := MutexVal(Some(t), 1)), Returns(Ok))
    case Some(o) =>
      if o == t then (s.(m := s.m.(lockCount := Increment(s.m.lockCount))), Returns(Ok))
      else if timeout == 0 then (s, Returns(Timeout))
      else
        var boosted := Put(s.ts, o, Get(s.ts, o).(priority := Max(Get(s.ts, t).priority, Get(s.ts, o).priority)));
        var ts' := Put(boosted, t, Park(Get(boosted, t), WaitMutex, timeout));
        (s.(ts := ts', waiters := Push(ts', s.waiters, t)), Parks)
  }

  /** Second region: a timed-out waiter unlinks itself and lowers the owner again. */
  function Resume(s: View, t: Tid): (r: (View, Outcome))
    ensures |r.0.ts| == |s.ts|
  {
    if Get(s.ts, t).result == Timeout then
      var ts' := Put(s.ts, t, Get(s.ts, t).(waitType := WaitNone));
      var l' := Remove(s.waiters, t);
      (s.(ts := Recompute(ts', s.m, l'), waiters := l'), Returns(Timeout))
    else
      (s, Retries)
  }

  /** `rtos_mutex_unlock`. */
  function Unlock(s: View, t: Tid): (r: (View, Status))
    ensures |r.0.ts| == |s.ts|
  {
    if s.m.owner != Some(t) || s.m.lockCount == 0 then (s, Invalid)
    else if s.m.lockCount != 1 then (s.(m := s.m.(lockCount := s.m.lockCount - 1)), Status.Ok)
    else
      var ts' := Put(s.ts, t, Get(s.ts, t).(priority := Get(s.ts, t).basePriority));
      (View(WakeFirst(ts', s.waiters), MutexVal(None, 0), PopRest(ts', s.waiters)), Status.Ok)
  }
}
