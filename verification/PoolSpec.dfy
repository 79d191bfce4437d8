/** The critical regions of the fixed-block memory pool. The free list is the
    sequence of block addresses from its head; 0 is the null pointer. */
module PoolSpec {
  import opened Base
  import opened WaitQueue

  datatype View = View(ts: seq<Tcb>, free: seq<nat>, waiters: seq<Tid>)

  /** First region of `rtos_mempool_alloc_timeout`; the middle component is the
      block, 0 when there is none. */
  function Alloc(v: View, t: Tid, timeout: uint32): (r: (View, nat, Outcome))
    ensures |r.0.ts| == |v.ts|
  {
    if v.free != [] then (v.(free := v.free[1..]), v.free[0], Returns(Ok))
    else if timeout == 0 then (v, 0, Returns(Timeout))
    else
      var ts' := Put(v.ts, t, Park(Get(v.ts, t), WaitMempool, timeout).(objectResult := 0));
      (v.(ts := ts', waiters := Push(ts', v.waiters, t)), 0, Parks)
  }

  /** Second region: a block handed over is taken out of the task control block. */
  function Resume(ts: seq<Tcb>, l: seq<Tid>, t: Tid): (r: (seq<Tcb>, seq<Tid>, nat, Outcome))
    ensures |r.0| == |ts|
  {
    if Get(ts, t).result == Timeout then
      (Put(ts, t, Get(ts, t).(waitType := WaitNone)), Remove(l, t), 0, Returns(Timeout))
    else
      var b := Get(ts, t).objectResult;
      (Put(ts, t, Get(ts, t).(objectResult := 0)), l, b, if b != 0 then Returns(Ok) else Retries)
  }

  /** `rtos_mempool_free`. */
  function Free(v: View, block: nat): (r: View)
    ensures |r.ts| == |v.ts|
  {
    match PopTask(v.ts, v.waiters)
    case Some(w) => View(Put(v.ts, w, Released(Get(v.ts, w)).(objectResult := block)), v.free, PopRest(v.ts, v.waiters))
    case None => View(v.ts, [block] + v.free, [])
  }
}
