/** The message queue on the heap: a ring buffer and two wait lists, updated in place. */
module Queues {
  import opened Base
  import opened WaitQueue
  import opened Tasks
  import QueueSpec
  import Rings

  class Queue {
    const buffer: array<uint32>
    const capacity: uint32
    var count: uint32
    var head: uint32
    var tail: uint32
    const recv: WaitList
    const send: WaitList

    ghost predicate Valid()
      reads this, recv, send, recv.members`waitNext, send.members`waitNext
    {
      && 0 < capacity == buffer.Length && count <= capacity && head < capacity
      && tail == Rings.Wrap(head + count, capacity)
      && recv != send && recv.Valid() && send.Valid()
      && recv.members !! send.members
    }

    /** The messages held, oldest first. */
    ghost function Contents(): seq<uint32>
      requires Valid()
      reads this, buffer, recv, send, recv.members`waitNext, send.members`waitNext
    {
      Rings.Window(buffer[..], head, count)
    }

    ghost function View(table: seq<Task>): QueueSpec.View
      requires Valid()
      reads this, buffer, recv, send, recv.members`waitNext, send.members`waitNext, table
    {
      QueueSpec.View(Snap(table), QueueSpec.QueueVal(capacity, Contents()), Ids(recv.nodes), Ids(send.nodes))
    }

    /** Both lists are of the table. */
    ghost predicate In(table: seq<Task>)
      reads this, recv, send
    {
      OfTable(recv.nodes, table) && OfTable(send.nodes, table)
    }

    /** `rtos_queue_init` with a buffer and a capacity it accepts. */
    constructor (buffer: array<uint32>, capacity: uint32)
      requires 0 < capacity == buffer.Length
      ensures Valid() && fresh(recv) && fresh(send) && this.buffer == buffer && this.capacity == capacity
      ensures Contents() == [] && recv.nodes == [] && send.nodes == [] && recv.members == send.members == {}
    {
      this.buffer := buffer;
      this.capacity := capacity;
      count, head, tail := 0, 0, 0;
      recv := new WaitList();
      send := new WaitList();
    }

    /** The relation the C code keeps between its three indices. */
    lemma TailIsModulo()
      requires Valid()
      ensures tail == (head + count) % capacity
    {
      Rings.WrapIsModulo(head + count, capacity);
    }

    method Put(value: uint32)
      requires Valid() && count < capacity
      modifies this`count, this`tail, buffer
      ensures Valid() && Contents() == old(Contents()) + [value]
    {
      Rings.PushBack(buffer[..], head, count, value);
      Rings.WrapIsModulo(tail + 1, capacity);
      buffer[tail] := value;
      tail := (tail + 1) % capacity;
      count := count + 1;
    }

    method Take() returns (value: uint32)
      requires Valid() && count > 0
      modifies this`count, this`head
      ensures Valid() && [value] + Contents() == old(Contents())
    {
      Rings.PopFront(buffer[..], head, count);
      Rings.WrapIsModulo(head + 1, capacity);
      value := buffer[head];
      head := (head + 1) % capacity;
      count := count - 1;
    }

    /** The current task, with the table it belongs to; it is in neither list. */
    ghost predicate Caller(current: Task, table: seq<Task>)
      reads this, recv, send
    {
      In(table) && Listed(current, table) && current !in recv.members && current !in send.members
    }

    /** A message goes in and a receiver is released. */
    method Deliver(value: uint32, ghost table: seq<Task>)
      requires Valid() && In(table) && count < capacity
      modifies this`count, this`tail, buffer, recv, recv.members
      ensures Valid() && In(table) && Contents() == old(Contents()) + [value] && send.nodes == old(send.nodes)
      ensures Ids(recv.nodes) == PopRest(old(Snap(table)), old(Ids(recv.nodes)))
      ensures Snap(table) == WakeFirst(old(Snap(table)), old(Ids(recv.nodes)))
    {
      Put(value);
      SameBlocks(table);
      var _ := recv.Wake(table);
    }

    /** The current task blocks among the senders. */
    method ParkSender(current: Task, timeout: uint32, ghost table: seq<Task>)
      requires Valid() && Caller(current, table)
      modifies send, current, send.members`waitNext
      ensures Valid() && In(table) && Contents() == old(Contents())
      ensures Snap(table) == Base.Put(old(Snap(table)), current.id, Park(old(current.block), WaitType.WaitQueue, timeout))
      ensures Ids(send.nodes) == WaitQueue.Push(Snap(table), old(Ids(send.nodes)), current.id)
    {
      send.Join(current, Park(current.block, WaitType.WaitQueue, timeout), table);
    }

    /** First region of `rtos_queue_send_timeout`. */
    method TrySend(current: Task, value: uint32, timeout: uint32, ghost table: seq<Task>) returns (o: Outcome)
      requires Valid() && Caller(current, table)
      modifies this`count, this`tail, buffer, recv, send, recv.members, current, send.members`waitNext
      ensures Valid() && In(table)
      ensures (View(table), o) == QueueSpec.Send(old(View(table)), current.id, value, timeout)
    {
      if count < capacity {
        Deliver(value, table);
        o := Returns(Ok);
      } else if timeout == 0 {
        o := Returns(Timeout);
      } else {
        ParkSender(current, timeout, table);
        o := Parks;
      }
    }

    /** A message goes out and a sender is released. */
    method Collect(ghost table: seq<Task>) returns (value: uint32)
      requires Valid() && In(table) && count > 0
      modifies this`count, this`head, send, send.members
      ensures Valid() && In(table) && [value] + Contents() == old(Contents()) && recv.nodes == old(recv.nodes)
      ensures Ids(send.nodes) == PopRest(old(Snap(table)), old(Ids(send.nodes)))
      ensures Snap(table) == WakeFirst(old(Snap(table)), old(Ids(send.nodes)))
    {
      value := Take();
      SameBlocks(table);
      var _ := send.Wake(table);
    }

    /** The current task blocks among the receivers. */
    method ParkReceiver(current: Task, timeout: uint32, ghost table: seq<Task>)
      requires Valid() && Caller(current, table)
      modifies recv, current, recv.members`waitNext
      ensures Valid() && In(table) && Contents() == old(Contents())
      ensures Snap(table) == Base.Put(old(Snap(table)), current.id, Park(old(current.block), WaitType.WaitQueue, timeout))
      ensures Ids(recv.nodes) == WaitQueue.Push(Snap(table), old(Ids(recv.nodes)), current.id)
    {
      recv.Join(current, Park(current.block, WaitType.WaitQueue, timeout), table);
    }

    /** First region of `rtos_queue_recv_timeout`; the value is 0 when none was received. */
    method TryRecv(current: Task, timeout: uint32, ghost table: seq<Task>) returns (value: uint32, o: Outcome)
      requires Valid() && Caller(current, table)
      modifies this`count, this`head, recv, send, send.members, current, recv.members`waitNext
      ensures Valid() && In(table)
      ensures (View(table), value, o) == QueueSpec.Recv(old(View(table)), current.id, timeout)
    {
      value := 0;
      if count > 0 {
        value := Collect(table);
        o := Returns(Ok);
      } else if timeout == 0 {
        o := Returns(Timeout);
      } else {
        ParkReceiver(current, timeout, table);
        o := Parks;
      }
    }

    /** Second region of `rtos_queue_send_timeout`. */
    method EndSend(current: Task, ghost table: seq<Task>) returns (o: Outcome)
      requires Valid() && In(table) && Listed(current, table)
      modifies send, send.members`waitNext, current`block
      ensures Valid() && In(table) && Contents() == old(Contents())
      ensures (Snap(table), Ids(send.nodes), o) == QueueSpec.Resume(old(Snap(table)), old(Ids(send.nodes)), current.id)
    {
      if current.block.result == Timeout {
        send.Leave(current, table);
        o := Returns(Timeout);
      } else {
        o := Retries;
      }
    }

    /** Second region of `rtos_queue_recv_timeout`. */
    method EndRecv(current: Task, ghost table: seq<Task>) returns (o: Outcome)
      requires Valid() && In(table) && Listed(current, table)
      modifies recv, recv.members`waitNext, current`block
      ensures Valid() && In(table) && Contents() == old(Contents())
      ensures (Snap(table), Ids(recv.nodes), o) == QueueSpec.Resume(old(Snap(table)), old(Ids(recv.nodes)), current.id)
    {
      if current.block.result == Timeout {
        recv.Leave(current, table);
        o := Returns(Timeout);
      } else {
        o := Retries;
      }
    }
  }
}
