/** The critical regions of the message queue, as functions on values. The ring
    buffer appears as the sequence of messages it holds, oldest first. */
module QueueSpec {
  import opened Base
  import opened WaitQueue

  datatype QueueVal = QueueVal(capacity: uint32, contents: seq<uint32>)

  datatype View = View(ts: seq<Tcb>, q: QueueVal, recv: seq<Tid>, send: seq<Tid>)

  /** First region of `rtos_queue_send_timeout`. */
  function Send(s: View, t: Tid, v: uint32, timeout: uint32): (r: (View, Outcome))
    ensures |r.0.ts| == |s.ts|
  {
    if |s.q.contents| < s.q.capacity then
      (View(WakeFirst(s.ts, s.recv), s.q.(contents := s.q.contents + [v]), PopRest(s.ts, s.recv), s.send), Returns(Ok))
    else if timeout == 0 then
      (s, Returns(Timeout))
    else
      var ts' := Put(s.ts, t, Park(Get(s.ts, t), WaitQueue, timeout));
      (View(ts', s.q, s.recv, Push(ts', s.send, t)), Parks)
  }

  /** First region of `rtos_queue_recv_timeout`; the middle component is the message read. */
  function Recv(s: View, t: Tid, timeout: uint32): (r: (View, uint32, Outcome))
    ensures |r.0.ts| == |s.ts|
  {
    if |s.q.contents| > 0 then
      (View(WakeFirst(s.ts, s.send), s.q.(contents := s.q.contents[1..]), s.recv, PopRest(s.ts, s.send)),
       s.q.contents[0], Returns(Ok))
    else if timeout == 0 then
      (s, 0, Returns(Timeout))
    else
      var ts' := Put(s.ts, t, Park(Get(s.ts, t), WaitQueue, timeout));
      (View(ts', s.q, Push(ts', s.recv, t), s.send), 0, Parks)
  }

  /** Second region of both calls, on the list the task was parked in. */
  function Resume(ts: seq<Tcb>, l: seq<Tid>, t: Tid): (r: (seq<Tcb>, seq<Tid>, Outcome))
    ensures |r.0| == |ts|
  {
    if Get(ts, t).result == Timeout then
      (Put(ts, t, Get(ts, t).(waitType := WaitNone)), Remove(l, t), Returns(Timeout))
    else
      (ts, l, Retries)
  }
}
