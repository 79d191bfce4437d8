/** The critical regions of the event flags group. */
module EventSpec {
  import opened Base
  import opened WaitQueue

  /** The bits `flags_match` reports, none when the condition does not hold. */
  function Matched(current: Flags, flags: Flags, all: bool): (m: Flags)
    ensures m <= current * flags
  {
    if all then (if current * flags == flags then current * flags else {}) else current * flags
  }

  /** The verdict of `flags_match`. */
  predicate Matches(current: Flags, flags: Flags, all: bool) {
    if all then current * flags == flags else current * flags != {}
  }

  /** The condition of a parked waiter, read from its control block. */
  predicate Satisfied(current: Flags, c: Tcb) {
    Matches(current, c.waitFlags, c.waitAll)
  }

  /** What `set_common` writes into the waiter it releases. */
  function Granted(c: Tcb, matched: Flags): Tcb {
    Released(c).(flagsResult := matched)
  }

  datatype View = View(ts: seq<Tcb>, flags: Flags, waiters: seq<Tid>)

  /** The waiter at the head is released. */
  predicate Hit(v: View)
    requires v.waiters != []
  {
    var c := Get(v.ts, v.waiters[0]);
    IsValidWaiter(c) && Satisfied(v.flags, c)
  }

  /** The bits the head of the list receives when it is released. */
  function Bits(v: View): Flags
    requires v.waiters != []
  {
    var c := Get(v.ts, v.waiters[0]);
    Matched(v.flags, c.waitFlags, c.waitAll)
  }

  /** What the rest of the list is tested against. */
  function Rest(v: View): (r: View)
    requires v.waiters != []
    ensures r.waiters == v.waiters[1..] && |r.ts| == |v.ts|
  {
    var x := v.waiters[0];
    var c := Get(v.ts, x);
    if Hit(v) then
      View(Put(v.ts, x, Granted(c, Bits(v))), if c.waitClear then v.flags - Bits(v) else v.flags, v.waiters[1..])
    else
      v.(waiters := v.waiters[1..])
  }

  /** The walk of `set_common` as a fold over the list: each waiter in turn is
      tested against the flags its predecessors left. The second component lists
      the tasks released, in order, with the bits each one received. */
  function Walk(v: View): (r: (View, seq<(Tid, Flags)>))
    ensures |r.0.ts| == |v.ts|
    decreases |v.waiters|
  {
    if v.waiters == [] then (v, [])
    else
      var (r, woken) := Walk(Rest(v));
      if Hit(v) then (r, [(v.waiters[0], Bits(v))] + woken)
      else (r.(waiters := [v.waiters[0]] + r.waiters), woken)
  }

  /** `set_common`. */
  function Set(v: View, flags: Flags): (r: (View, Status))
    ensures |r.0.ts| == |v.ts|
  {
    if flags == {} then (v, Invalid)
    else (Walk(v.(flags := v.flags + flags)).0, Status.Ok)
  }

  /** First region of `rtos_event_flags_wait`; the middle component is the bits matched. */
  function Wait(v: View, t: Tid, flags: Flags, all: bool, clear: bool, timeout: uint32): (r: (View, Flags, Outcome))
    ensures |r.0.ts| == |v.ts|
  {
    if flags == {} then (v, {}, Returns(Invalid))
    else if Matches(v.flags, flags, all) then
      var m := Matched(v.flags, flags, all);
      (v.(flags := if clear then v.flags - m else v.flags), m, Returns(Status.Ok))
    else if timeout == 0 then (v, {}, Returns(Timeout))
    else
      var c := Park(Get(v.ts, t), WaitEvent, timeout)
               .(waitFlags := flags, flagsResult := {}, waitAll := all, waitClear := clear);
      var ts' := Put(v.ts, t, c);
      (v.(ts := ts', waiters := Push(ts', v.waiters, t)), {}, Parks)
  }

  /** Second region. */
  function Resume(ts: seq<Tcb>, l: seq<Tid>, t: Tid): (r: (seq<Tcb>, seq<Tid>, Flags, Status))
    ensures |r.0| == |ts|
  {
    if Get(ts, t).result == Timeout then
      (Put(ts, t, Get(ts, t).(waitType := WaitNone)), Remove(l, t), {}, Timeout)
    else
      (ts, l, Get(ts, t).flagsResult, Status.Ok)
  }
}
