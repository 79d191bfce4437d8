/** Software timers: an intrusive list of timers counted down by the tick. */
module Timers {
  import opened Base
  import Rings

  // ---------- One timer, as a value ----------

  datatype TimerVal = TimerVal(period: uint32, remaining: uint32, reload: bool, active: bool)

  /** What one tick does to a timer whose callback leaves timers alone. */
  function Ticked(v: TimerVal): TimerVal {
    if !v.active || v.remaining == 0 then v
    else if v.remaining > 1 then v.(remaining := v.remaining - 1)
    else if v.reload then v.(remaining := v.period)
    else v.(remaining := 0, active := false)
  }

  /** The callback runs in this tick. */
  predicate Fires(v: TimerVal) {
    v.active && v.remaining == 1
  }

  function Started(v: TimerVal): TimerVal {
    v.(remaining := v.period, active := true)
  }

  function After(v: TimerVal, n: nat): TimerVal {
    if n == 0 then v else Ticked(After(v, n - 1))
  }

  /** How often the callback has run after `n` ticks. */
  function Fired(v: TimerVal, n: nat): nat {
    if n == 0 then 0 else Fired(v, n - 1) + if Fires(After(v, n - 1)) then 1 else 0
  }

  /** A started reload timer of period P has fired exactly n / P times after n ticks. */
  lemma {:induction false} ReloadFires(v: TimerVal, n: nat)
    requires v.reload && v.period > 0
    ensures Fired(Started(v), n) == n / v.period
    ensures After(Started(v), n) == Started(v).(remaining := v.period - n % v.period)
  {
    if n > 0 {
      ReloadFires(v, n - 1);
      Rings.DivisionSteps(n, v.period);
    }
  }

  /** A started one-shot timer fires once, on tick P, and is then inactive. */
  lemma {:induction false} OneShotFires(v: TimerVal, n: nat)
    requires !v.reload && v.period > 0
    ensures Fired(Started(v), n) == if n >= v.period then 1 else 0
    ensures After(Started(v), n) ==
              if n >= v.period then v.(remaining := 0, active := false) else Started(v).(remaining := v.period - n)
  {
    if n > 0 {
      OneShotFires(v, n - 1);
    }
  }

  /** A stopped timer never fires. */
  lemma {:induction false} StoppedIsSilent(v: TimerVal, n: nat)
    requires !v.active
    ensures Fired(v, n) == 0 && After(v, n) == v
  {
    if n > 0 {
      StoppedIsSilent(v, n - 1);
    }
  }

  function Halted(v: TimerVal): TimerVal {
    v.(active := false)
  }

  lemma {:induction false} SetupKept(v: TimerVal, n: nat)
    ensures After(v, n).period == v.period && After(v, n).reload == v.reload
  {
    if n > 0 {
      SetupKept(v, n - 1);
    }
  }

  /** A timer stopped in the middle of its period is silent until it is started again, and
      then counts from the beginning: nothing is left of the time before. */
  lemma RestartIsFresh(v: TimerVal, n: nat, pause: nat, m: nat)
    requires v.reload && v.period > 0
    ensures var s := Halted(After(Started(v), n));
            && Fired(s, pause) == 0
            && Fired(Started(After(s, pause)), m) == m / v.period
  {
    var s := Halted(After(Started(v), n));
    StoppedIsSilent(s, pause);
    SetupKept(Started(v), n);
    ReloadFires(s, m);
  }

  // ---------- The list on the heap ----------

  class Timer {
    const id: nat
    var period: uint32
    var remaining: uint32
    var reload: bool
    var active: bool
    var linked: bool
    var next: Timer?

    constructor (id: nat)
      ensures this.id == id && !linked && !active
    {
      this.id := id;
      period, remaining, reload, active, linked, next := 0, 0, false, false, false, null;
    }

    function Val(): TimerVal
      reads this
    {
      TimerVal(period, remaining, reload, active)
    }
  }

  function NodeAt(nodes: seq<Timer>, i: int): Timer? {
    if 0 <= i < |nodes| then nodes[i] else null
  }

  class TimerList {
    var head: Timer?
    ghost var nodes: seq<Timer>

    /** Every timer of the list is in it once, and says so. */
    ghost predicate Valid()
      reads this, nodes
    {
      && NoDup(nodes) && head == NodeAt(nodes, 0)
      && forall i :: 0 <= i < |nodes| ==> nodes[i].linked && nodes[i].next == NodeAt(nodes, i + 1)
    }

    constructor ()
      ensures Valid() && nodes == []
    {
      head, nodes := null, [];
    }

    /** `link_timer`: linking twice is harmless. */
    method Link(t: Timer)
      requires Valid() && (t.linked <==> t in nodes)
      modifies this, t`next, t`linked
      ensures Valid() && t.linked
      ensures nodes == if t in old(nodes) then old(nodes) else [t] + old(nodes)
    {
      if t.linked {
        return;
      }
      t.next := head;
      head := t;
      t.linked := true;
      ghost var was := nodes;
      nodes := [t] + was;
      assert forall i :: 0 < i < |nodes| ==> nodes[i] == was[i - 1];
    }

    /** `rtos_timer_init`. */
    method Init(t: Timer, periodMs: uint32, reload: bool) returns (status: Status)
      requires Valid() && (t.linked <==> t in nodes)
      modifies this, t
      ensures Valid() && (t.linked <==> t in nodes)
      ensures (status == Invalid) == (MsToTicks(periodMs) == 0 || periodMs == 0)
      ensures status == Invalid ==> t.Val() == old(t.Val()) && nodes == old(nodes)
      ensures status != Invalid ==>
                && status == Status.Ok && t.Val() == TimerVal(MsToTicks(periodMs), MsToTicks(periodMs), reload, false)
                && nodes == if t in old(nodes) then old(nodes) else [t] + old(nodes)
    {
      if periodMs == 0 {
        return Invalid;
      }
      var ticks := MsToTicks(periodMs);
      if ticks == 0 {
        return Invalid;
      }
      t.period := ticks;
      t.remaining := ticks;
      t.reload := reload;
      t.active := false;
      Link(t);
      status := Status.Ok;
    }

    /** `rtos_timer_start`. */
    method Start(t: Timer)
      requires Valid() && (t.linked <==> t in nodes)
      modifies this, t
      ensures Valid() && t in nodes && t.Val() == Started(old(t.Val()))
      ensures nodes == if t in old(nodes) then old(nodes) else [t] + old(nodes)
    {
      Link(t);
      t.remaining := t.period;
      t.active := true;
    }

    /** `rtos_timer_stop`. */
    method Stop(t: Timer)
      modifies t`active
      ensures t.Val() == Halted(old(t.Val()))
    {
      t.active := false;
    }

    /** One timer of the walk. */
    method Count(t: Timer) returns (fired: bool)
      modifies t`remaining, t`active
      ensures t.Val() == Ticked(old(t.Val())) && fired == Fires(old(t.Val()))
    {
      fired := false;
      if t.active && t.remaining > 0 {
        t.remaining := t.remaining - 1;
        if t.remaining == 0 {
          fired := true;
          if t.reload {
            t.remaining := t.period;
          } else {
            t.active := false;
          }
        }
      }
    }

    /** `rtos_timer_tick`; the result lists the timers whose callback ran, in order. */
    method Tick() returns (fired: seq<Timer>)
      requires Valid()
      modifies nodes`remaining, nodes`active
      ensures Valid() && nodes == old(nodes)
      ensures forall i :: 0 <= i < |nodes| ==> nodes[i].Val() == Ticked(old(nodes[i].Val()))
      ensures forall i :: 0 <= i < |nodes| ==> (nodes[i] in fired <==> Fires(old(nodes[i].Val())))
      ensures NoDup(fired)
    {
      fired := [];
      var timer := head;
      ghost var k := 0;
      while timer != null
        invariant k <= |nodes| && timer == NodeAt(nodes, k) && Valid()
        invariant forall i :: 0 <= i < |nodes| ==> nodes[i].Val() == if i < k then Ticked(old(nodes[i].Val())) else old(nodes[i].Val())
        invariant forall i :: 0 <= i < |nodes| ==> (nodes[i] in fired <==> i < k && Fires(old(nodes[i].Val())))
        invariant NoDup(fired)
        decreases |nodes| - k
      {
        var rang := Count(timer);
        if rang {
          fired := fired + [timer];
        }
        timer := timer.next;
        k := k + 1;
      }
    }
  }
}
