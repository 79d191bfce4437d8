/** Task notifications: every region reads and writes one control block. */
module NotifySpec {
  import opened Base

  /** `notify_common` on the target's control block. */
  function Notify(c: Tcb, value: Flags): (Tcb, Status) {
    if value == {} then (c, Invalid)
    else
      var n := c.(notifyValue := c.notifyValue + value, notifyPending := true);
      if c.state == Blocked && c.waitType == WaitNotification && c.result == Status.Ok then
        (n.(delay := 0, result := Status.Ok, state := Ready), Status.Ok)
      else
        (n, Status.Ok)
  }

  /** Consuming the value: the part both regions of the wait share. */
  function Consume(c: Tcb, clearExit: Flags): Tcb {
    var rest := c.notifyValue - clearExit;
    c.(notifyValue := rest, notifyPending := if rest == {} then false else c.notifyPending)
  }

  /** First region of `rtos_task_notify_wait`; the middle component is the value reported. */
  function Wait(c: Tcb, clearEntry: Flags, clearExit: Flags, timeout: uint32): (Tcb, Flags, Outcome) {
    var e := c.(notifyValue := c.notifyValue - clearEntry);
    if e.notifyPending then (Consume(e, clearExit), e.notifyValue, Returns(Status.Ok))
    else if timeout == 0 then (e, {}, Returns(Timeout))
    else (Park(e, WaitNotification, timeout), {}, Parks)
  }

  /** Second region. */
  function Resume(c: Tcb, clearExit: Flags): (Tcb, Flags, Status) {
    if c.result == Timeout then (c.(waitType := WaitNone), {}, Timeout)
    else (Consume(c, clearExit).(waitType := WaitNone), c.notifyValue, Status.Ok)
  }
}
