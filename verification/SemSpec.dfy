/** The critical regions of the counting semaphore. */
module SemSpec {
  import opened Base
  import opened WaitQueue

  datatype SemVal = SemVal(count: uint32, maxCount: uint32)

  datatype View = View(ts: seq<Tcb>, s: SemVal, waiters: seq<Tid>)

  /** First region of `rtos_sem_wait_timeout`. */
  function Wait(v: View, t: Tid, timeout: uint32): (r: (View, Outcome))
    ensures |r.0.ts| == |v.ts|
  {
    if v.s.count > 0 then (v.(s := v.s.(count := v.s.count - 1)), Returns(Ok))
    else if timeout == 0 then (v, Returns(Timeout))
    else
      var ts' := Put(v.ts, t, Park(Get(v.ts, t), WaitSem, timeout));
      (v.(ts := ts', waiters := Push(ts', v.waiters, t)), Parks)
  }

  /** Second region: the token was handed over, or the wait timed out. */
  function Resume(ts: seq<Tcb>, l: seq<Tid>, t: Tid): (r: (seq<Tcb>, seq<Tid>, Status))
    ensures |r.0| == |ts|
  {
    if Get(ts, t).result == Timeout then
      (Put(ts, t, Get(ts, t).(waitType := WaitNone)), Remove(l, t), Timeout)
    else
      (ts, l, Status.Ok)
  }

  /** `post_common`. */
  function Post(v: View): (r: (View, Status))
    ensures |r.0.ts| == |v.ts|
  {
    if PopTask(v.ts, v.waiters).Some? then
      (View(WakeFirst(v.ts, v.waiters), v.s, PopRest(v.ts, v.waiters)), Status.Ok)
    else if v.s.count < v.s.maxCount then
      (View(v.ts, v.s.(count := v.s.count + 1), []), Status.Ok)
    else
      (v.(waiters := []), Invalid)
  }
}
