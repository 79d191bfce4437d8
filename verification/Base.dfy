/** Types shared by the whole model: fixed-width integers, status codes and the
    task control block as a value. */
module Base {

  type uint32 = x: int | 0 <= x < 0x1_0000_0000

  /** A `uint32_t` used as a bit set: the numbers of the bits that are 1. Bitwise or, and,
      and-not are union, intersection and difference; the empty set is the word 0. */
  type Bit = b: int | 0 <= b < 32
  type Flags = set<Bit>

  const UINT32_MAX: uint32 := 0xFFFF_FFFF
  const TIMEOUT_FOREVER: uint32 := 0xFFFF_FFFF

  datatype Option<+T> = None | Some(value: T)

  /** The return codes: RTOS_OK, -1 (RTOS_ERR_INVALID), RTOS_ERR_TIMEOUT, RTOS_ERR_FULL. */
  datatype Status = Ok | Invalid | Timeout | Full

  datatype TaskState = Ready | Running | Blocked | Stopped

  datatype WaitType =
    | WaitNone | WaitSleep | WaitSem | WaitQueue | WaitMutex
    | WaitEvent | WaitMempool | WaitNotification

  /** Index of a task in the static task table. */
  type Tid = nat

  /** The scheduling-relevant fields of a task control block. The two links of
      the C struct are not here: `wait_next` is the task's position in a wait
      list and `next` its position in the scheduler ring. */
  datatype Tcb = Tcb(
    state: TaskState,
    delay: uint32,
    basePriority: uint32,
    priority: uint32,
    waitType: WaitType,
    result: Status,
    waitFlags: Flags,
    flagsResult: Flags,
    waitAll: bool,
    waitClear: bool,
    objectResult: nat,
    notifyValue: Flags,
    notifyPending: bool)

  /** Reading and writing the task table; an index outside it names no task. */
  function Get(ts: seq<Tcb>, t: Tid): Tcb {
    if t < |ts| then ts[t] else NoTask
  }

  function Put(ts: seq<Tcb>, t: Tid, c: Tcb): (r: seq<Tcb>)
    ensures |r| == |ts|
    ensures forall x :: Get(r, x) == if x == t && t < |ts| then c else Get(ts, x)
  {
    if t < |ts| then ts[t := c] else ts
  }

  const NoTask := Tcb(Stopped, 0, 0, 0, WaitNone, Status.Ok, {}, {}, false, false, 0, {}, false)

  /** The test every waker applies before it hands anything to a linked task. */
  predicate IsValidWaiter(c: Tcb) {
    c.state == Blocked && c.result == Ok
  }

  /** A waiter the tick has released; it may still be linked. */
  predicate IsLate(c: Tcb) {
    (c.state == Ready || c.state == Running) && c.result == Timeout
  }

  /** What a waker writes into the task it releases. */
  function Released(c: Tcb): Tcb {
    c.(delay := 0, waitType := WaitNone, result := Ok, state := Ready)
  }

  /** What a blocking call writes into the current task before it yields. */
  function Park(c: Tcb, w: WaitType, timeout: uint32): Tcb {
    c.(state := Blocked, delay := MsToTicks(timeout), waitType := w, result := Ok)
  }

  ghost predicate NoDup<T>(s: seq<T>) {
    forall i, j :: 0 <= i < j < |s| ==> s[i] != s[j]
  }

  /** How a critical region of a blocking call ends: the call returns, the task
      parks itself in a wait list, or a woken task goes round its retry loop. */
  datatype Outcome = Returns(status: Status) | Parks | Retries

  // ---------- Milliseconds to ticks ----------

  const TICK_HZ: uint32 := 1000

  /** `uint32_t` arithmetic: the product and the sum both wrap. */
  function MsToTicks(ms: uint32): uint32 {
    if ms == TIMEOUT_FOREVER then 0
    else
      var ticks := (((ms * TICK_HZ) % 0x1_0000_0000 + 999) % 0x1_0000_0000) / 1000;
      if ticks == 0 then 1 else ticks
  }

  /** Zero, "never expires", is produced for the FOREVER constant and nothing else. */
  lemma MsToTicksZero(ms: uint32)
    ensures MsToTicks(ms) == 0 <==> ms == TIMEOUT_FOREVER
  {
  }

  /** The conversion waits at least the requested time, which is then exact apart from the
      rounding of 0 up to one tick, precisely up to 4294966 ms; above it the product wraps. */
  lemma MsToTicksExact(ms: uint32)
    requires ms != TIMEOUT_FOREVER
    ensures MsToTicks(ms) >= ms <==> ms <= 4294966
    ensures ms <= 4294966 ==> MsToTicks(ms) == if ms == 0 then 1 else ms
  {
  }
}
