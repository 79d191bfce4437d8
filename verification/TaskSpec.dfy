/** Task table operations on values: the tick, creation with slot reuse, exit and sleep. */
module TaskSpec {
  import opened Base
  import opened WaitQueue
  import opened SchedSpec

  /** What one tick does to one control block. */
  function TickOne(c: Tcb): Tcb {
    if c.state == Blocked && c.delay > 0 then
      if c.delay == 1 then c.(delay := 0, result := Timeout, state := Ready) else c.(delay := c.delay - 1)
    else c
  }

  /** `rtos_task_tick`. */
  function Tick(ts: seq<Tcb>): (r: seq<Tcb>)
    ensures |r| == |ts| && forall i :: 0 <= i < |ts| ==> r[i] == TickOne(ts[i])
  {
    seq(|ts|, i requires 0 <= i < |ts| => TickOne(ts[i]))
  }

  function NewTcb(priority: uint32): Tcb {
    Tcb(Ready, 0, priority, priority, WaitNone, Status.Ok, {}, {}, false, false, 0, {}, false)
  }

  /** First stopped slot of a full table. */
  function StoppedSlot(ts: seq<Tcb>): (i: nat)
    ensures i <= |ts|
    ensures i < |ts| ==> ts[i].state == Stopped
    ensures forall j :: 0 <= j < i ==> ts[j].state != Stopped
  {
    if ts == [] || ts[0].state == Stopped then 0 else 1 + StoppedSlot(ts[1..])
  }

  /** `task->next = current->next; current->next = task`. */
  function RingInsert(ring: seq<Tid>, current: Tid, t: Tid): seq<Tid> {
    var i := Position(ring, current);
    if i == |ring| then ring + [t] else ring[..i + 1] + [t] + ring[i + 1..]
  }

  /** The state `rtos_task_delete_self` leaves behind. */
  function Exited(c: Tcb): Tcb {
    c.(delay := 0, waitType := WaitNone, result := Status.Ok, state := Stopped)
  }
}
