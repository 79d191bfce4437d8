/** The scheduler on values: the ring of `next` links as a sequence of task indices. */
module SchedSpec {
  import opened Base
  import opened WaitQueue

  /** Position of a task in the ring; the length when it is not there. */
  function Position(ring: seq<Tid>, t: Tid): (i: nat)
    ensures i <= |ring|
    ensures i < |ring| ==> ring[i] == t
    ensures forall j :: 0 <= j < i ==> ring[j] != t
  {
    if ring == [] || ring[0] == t then 0 else 1 + Position(ring[1..], t)
  }

  /** The order in which the do-while scan visits the ring: from the successor of
      the old task round to the old task itself. */
  function ScanOrder(ring: seq<Tid>, t: Tid): seq<Tid> {
    var i := Position(ring, t);
    if i == |ring| then ring else ring[i + 1..] + ring[..i + 1]
  }

  /** The scan's choice among the ready tasks. */
  function Pick(ts: seq<Tcb>, order: seq<Tid>): (r: Option<Tid>)
    ensures r.Some? ==> r.value in order && Get(ts, r.value).state == Ready
  {
    if order == [] then None
    else
      var rest := Pick(ts, order[1..]);
      var x := order[0];
      if Get(ts, x).state == Ready && (rest.None? || Get(ts, x).priority >= Get(ts, rest.value).priority) then Some(x) else rest
  }

  datatype View = View(ts: seq<Tcb>, current: Tid, ring: seq<Tid>, lockCount: uint32, pending: bool)

  /** The control blocks the scan looks at: the old task counts as ready if it was running. */
  function Scanned(v: View): seq<Tcb> {
    var c := Get(v.ts, v.current);
    Put(v.ts, v.current, if c.state == Running then c.(state := Ready) else c)
  }

  /** The chosen task runs. */
  function Moved(v: View, best: Option<Tid>): (r: View)
    ensures |r.ts| == |v.ts| && r.ring == v.ring
  {
    match best
    case None => v.(pending := false)
    case Some(b) => v.(ts := Put(v.ts, b, Get(v.ts, b).(state := Running)), current := b, pending := false)
  }

  /** `rtos_schedule_next`. When no task is ready the assertion parks the processor;
      the state is left as the scan found it. */
  function ScheduleNext(v: View): (r: View)
    ensures |r.ts| == |v.ts| && r.ring == v.ring
  {
    if v.lockCount != 0 && Get(v.ts, v.current).state == Running then v.(pending := true)
    else
      Moved(v.(ts := Scanned(v)), Pick(Scanned(v), ScanOrder(v.ring, v.current)))
  }

  // ---------- The preemption lock ----------

  /** The depth of the scheduler lock, and whether a switch was requested while it was held. */
  datatype Lock = Lock(depth: uint32, pending: bool)

  /** `rtos_sched_lock`. */
  function Locked(l: Lock): Lock {
    l.(depth := (l.depth + 1) % 0x1_0000_0000)
  }

  /** `rtos_sched_unlock`; the second component says whether it requests the switch. */
  function Unlocked(l: Lock): (Lock, bool) {
    if l.depth == 0 then (l, false)
    else if l.depth == 1 && l.pending then (Lock(0, false), true)
    else (l.(depth := l.depth - 1), false)
  }

  function Unlocks(l: Lock, n: nat): Lock {
    if n == 0 then l else Unlocked(Unlocks(l, n - 1)).0
  }

  /** How many of `n` unlocks request the switch. */
  function Asks(l: Lock, n: nat): nat {
    if n == 0 then 0 else Asks(l, n - 1) + if Unlocked(Unlocks(l, n - 1)).1 then 1 else 0
  }

  function Locks(l: Lock, n: nat): Lock {
    if n == 0 then l else Locked(Locks(l, n - 1))
  }

  lemma {:induction false} LocksCount(l: Lock, n: nat)
    requires l.depth + n < 0x1_0000_0000
    ensures Locks(l, n) == l.(depth := l.depth + n)
  {
    if n > 0 {
      LocksCount(l, n - 1);
    }
  }

  /** `j` unlocks of a lock that is deeper than that: none requests the switch. */
  lemma {:induction false} InnerAskNothing(l: Lock, j: nat)
    requires j <= l.depth && (j < l.depth || !l.pending)
    ensures Unlocks(l, j) == l.(depth := l.depth - j) && Asks(l, j) == 0
  {
    if j > 0 {
      InnerAskNothing(l, j - 1);
    }
  }

  /** As many unlocks as locks restore the depth. A switch requested meanwhile is kept by
      every inner unlock and requested again by the outermost one, once; a lock that was
      already held keeps it, and no request means no switch. */
  lemma OutermostAsks(l: Lock, n: nat, requested: bool)
    requires n > 0 && l.depth + n < 0x1_0000_0000 && (l.pending ==> requested)
    ensures var m := Locks(l, n).(pending := requested);
            && Unlocks(m, n) == Lock(l.depth, requested && l.depth != 0)
            && Asks(m, n) == (if requested && l.depth == 0 then 1 else 0)
            && forall j :: 0 <= j < n ==> Asks(m, j) == 0
  {
    LocksCount(l, n);
    var m := Locks(l, n).(pending := requested);
    InnerAskNothing(m, n - 1);
    forall j | 0 <= j < n ensures Asks(m, j) == 0 {
      InnerAskNothing(m, j);
    }
  }
}
