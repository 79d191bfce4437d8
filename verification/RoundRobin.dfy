/** Same-priority tasks share the processor in turn, whatever the size of the ring. */
module RoundRobin {
  import opened Base
  import opened Kernel
  import opened SchedSpec
  import opened SchedRuns
  import Runs

  predicate Runnable(c: Tcb) {
    c.state == Ready || c.state == Running
  }

  /** `top` is the set of runnable tasks of highest priority. */
  ghost predicate IsTop(v: View, top: set<Tid>) {
    forall x: Tid :: x in top <==>
      x in v.ring && Runnable(Get(v.ts, x)) &&
      forall y: Tid :: y in v.ring && Runnable(Get(v.ts, y)) ==> Get(v.ts, y).priority <= Get(v.ts, x).priority
  }

  ghost predicate Valid(v: View) {
    && NoDup(v.ring) && v.current in v.ring
    && (forall x: Tid :: x in v.ring ==> x < |v.ts|)
    && (forall x: Tid :: Get(v.ts, x).state == Running ==> x == v.current)
  }

  /** The members of a set, in the order of a sequence. */
  function Filter(s: seq<Tid>, top: set<Tid>): (r: seq<Tid>)
    ensures forall i :: 0 <= i < |r| ==> r[i] in top && r[i] in s
  {
    if s == [] then []
    else if s[0] in top then [s[0]] + Filter(s[1..], top)
    else Filter(s[1..], top)
  }

  lemma {:induction false} FilterMembers(s: seq<Tid>, top: set<Tid>)
    ensures forall x :: x in Filter(s, top) <==> x in s && x in top
    ensures NoDup(s) ==> NoDup(Filter(s, top))
  {
    if s != [] {
      assert s == [s[0]] + s[1..];
      FilterMembers(s[1..], top);
      var r := Filter(s[1..], top);
      if NoDup(s) && s[0] in top {
        forall i | 0 <= i < |r| ensures r[i] != s[0] {
          assert r[i] in s[1..];
        }
      }
    }
  }

  lemma {:induction false} FilterAppend(a: seq<Tid>, b: seq<Tid>, top: set<Tid>)
    ensures Filter(a + b, top) == Filter(a, top) + Filter(b, top)
  {
    if a == [] {
      assert a + b == b;
    } else {
      assert (a + b)[1..] == a[1..] + b;
      FilterAppend(a[1..], b, top);
    }
  }

  /** Where the first member of the set stands. */
  lemma {:induction false} FirstMember(s: seq<Tid>, top: set<Tid>) returns (p: nat)
    requires Filter(s, top) != []
    ensures p < |s| && s[p] == Filter(s, top)[0] && s[p] in top
    ensures forall i :: 0 <= i < p ==> s[i] !in top
    ensures Filter(s[p + 1..], top) == Filter(s, top)[1..] && Filter(s[..p + 1], top) == [s[p]]
  {
    if s[0] in top {
      p := 0;
      assert s[..1] == [s[0]];
      assert Filter([s[0]], top) == [s[0]] + Filter([], top);
    } else {
      p := FirstMember(s[1..], top);
      p := p + 1;
      assert s[p + 1..] == s[1..][p..];
      assert s[..p + 1][1..] == s[1..][..p];
    }
  }

  /** Scanning from a later task is scanning the rest of the round first. */
  lemma ScanFrom(ring: seq<Tid>, t: Tid, p: nat)
    requires NoDup(ring) && t in ring && p < |ring|
    ensures var o := ScanOrder(ring, t);
            |o| == |ring| && ScanOrder(ring, o[p]) == o[p + 1..] + o[..p + 1]
  {
    var i :| 0 <= i < |ring| && ring[i] == t;
    PositionAt(ring, i);
    ScanFromAt(ring, i, p);
  }

  lemma ScanFromAt(ring: seq<Tid>, i: nat, p: nat)
    requires NoDup(ring) && i < |ring| && p < |ring|
    ensures var o := ring[i + 1..] + ring[..i + 1];
            |o| == |ring| && ScanOrder(ring, o[p]) == o[p + 1..] + o[..p + 1]
  {
    if p < |ring| - (i + 1) {
      RotateShort(ring, i + 1, p);
      PositionAt(ring, i + 1 + p);
    } else {
      RotateLong(ring, i + 1, p);
      PositionAt(ring, p - (|ring| - (i + 1)));
    }
  }

  lemma PositionAt(ring: seq<Tid>, j: nat)
    requires NoDup(ring) && j < |ring|
    ensures Position(ring, ring[j]) == j && ScanOrder(ring, ring[j]) == ring[j + 1..] + ring[..j + 1]
  {
  }

  lemma RotateShort<T>(s: seq<T>, i: nat, p: nat)
    requires i <= |s| && p < |s| - i
    ensures var o := s[i..] + s[..i]; o[p] == s[i + p] && s[i + p + 1..] + s[..i + p + 1] == o[p + 1..] + o[..p + 1]
  {
  }

  lemma RotateLong<T>(s: seq<T>, i: nat, p: nat)
    requires i <= |s| && |s| - i <= p < |s|
    ensures var o, j := s[i..] + s[..i], p - (|s| - i); o[p] == s[j] && s[j + 1..] + s[..j + 1] == o[p + 1..] + o[..p + 1]
  {
  }

  /** The tasks whose turn it is, in the order in which they will run. */
  function Turn(v: View, top: set<Tid>): seq<Tid> {
    Filter(ScanOrder(v.ring, v.current), top)
  }

  ghost predicate IsTopReady(ts: seq<Tcb>, order: seq<Tid>, top: set<Tid>) {
    forall x: Tid :: x in top <==> (
      && x in order && Get(ts, x).state == Ready
      && forall y: Tid :: y in order && Get(ts, y).state == Ready ==> Get(ts, y).priority <= Get(ts, x).priority)
  }

  lemma PickIsFirst(ts: seq<Tcb>, order: seq<Tid>, top: set<Tid>, p: nat)
    requires NoDup(order) && p < |order| && order[p] in top && (forall i :: 0 <= i < p ==> order[i] !in top)
    requires IsTopReady(ts, order, top)
    ensures Pick(ts, order) == Some(order[p])
  {
    PickIsBest(ts, order);
    var x := order[p];
    assert x in order && Get(ts, x).state == Ready;
    var n: nat :| BestAt(ts, order, n) && order[n] == Pick(ts, order).value;
    assert Get(ts, order[p]).priority <= Get(ts, order[n]).priority;
    assert order[n] in top;
    assert order[p] in top && Get(ts, order[n]).priority <= Get(ts, order[p]).priority;
  }

  lemma ScannedTop(v: View, top: set<Tid>)
    requires Valid(v) && IsTop(v, top)
    ensures IsTopReady(Scanned(v), ScanOrder(v.ring, v.current), top)
  {
    ScanCoversRing(v.ring, v.current);
    assert forall x: Tid :: Get(Scanned(v), x).state == Ready <==> Runnable(Get(v.ts, x));
  }

  /** A switch leaves one running task and keeps everybody's priority. */
  lemma SwitchKeeps(v: View, top: set<Tid>, b: Tid)
    requires Valid(v) && v.lockCount == 0 && IsTop(v, top)
    requires Pick(Scanned(v), ScanOrder(v.ring, v.current)) == Some(b) && b in v.ring
    ensures var r := ScheduleNext(v);
            && r == v.(ts := Put(Scanned(v), b, Get(Scanned(v), b).(state := Running)), current := b, pending := false)
            && Get(r.ts, b).state == Running && Valid(r) && r.lockCount == 0 && IsTop(r, top)
  {
    var r := ScheduleNext(v);
    assert forall y: Tid :: Runnable(Get(r.ts, y)) == Runnable(Get(v.ts, y)) && Get(r.ts, y).priority == Get(v.ts, y).priority;
  }

  /** One context switch runs the first task of the turn and moves it to the end;
      who is runnable, and at which priority, stays as it was. */
  lemma OneSwitch(v: View, top: set<Tid>)
    requires Valid(v) && v.lockCount == 0 && IsTop(v, top) && top != {}
    ensures var r := ScheduleNext(v); var turn := Turn(v, top);
            && turn != [] && r.current == turn[0] && Get(r.ts, r.current).state == Running
            && Turn(r, top) == turn[1..] + [turn[0]]
            && Valid(r) && r.lockCount == 0 && IsTop(r, top)
  {
    var order := ScanOrder(v.ring, v.current);
    ScanCoversRing(v.ring, v.current);
    FilterMembers(order, top);
    var x :| x in top;
    assert x in Turn(v, top);
    var p := FirstMember(order, top);
    ScannedTop(v, top);
    PickIsFirst(Scanned(v), order, top, p);
    SwitchKeeps(v, top, order[p]);
    ScanFrom(v.ring, v.current, p);
    FilterAppend(order[p + 1..], order[..p + 1], top);
  }

  // ---------- Runs of the kernel ----------

  /** What may happen between two switches: the ring, the scheduler lock, who is runnable
      and every priority stay. */
  ghost predicate Quiet(k: Kernel, k': Kernel) {
    && k'.ring == k.ring && k'.current == k.current && k'.schedLock == k.schedLock
    && forall x: Tid :: Runnable(Get(k'.tasks, x)) == Runnable(Get(k.tasks, x)) && Get(k'.tasks, x).priority == Get(k.tasks, x).priority
  }

  ghost predicate QuietBetween(k: Kernel, acts: seq<Action>)
    requires Legal(k, acts)
    decreases |acts|
  {
    acts == [] || ((!acts[0].Switch? ==> Quiet(k, Apply(k, acts[0]))) && QuietBetween(Apply(k, acts[0]), acts[1..]))
  }

  /** The tasks that the switches of the run choose, in order. */
  ghost function Chosen(k: Kernel, acts: seq<Action>): seq<Tid>
    requires Legal(k, acts)
    decreases |acts|
  {
    if acts == [] then []
    else (if acts[0].Switch? then [Apply(k, acts[0]).current] else []) + Chosen(Apply(k, acts[0]), acts[1..])
  }

  ghost predicate InTurn(k: Kernel, top: set<Tid>) {
    SchedOk(k) && k.schedLock == 0 && IsTop(SchedView(k), top) && top != {}
  }

  lemma SwitchTurns(k: Kernel, top: set<Tid>)
    requires InTurn(k, top)
    ensures var turn := Turn(SchedView(k), top); var k' := Apply(k, Switch);
            && turn != [] && k'.current == turn[0] && InTurn(k', top) && Turn(SchedView(k'), top) == turn[1..] + [turn[0]]
  {
    OneSwitch(SchedView(k), top);
    SwitchOk(k);
    assert SchedView(DoSwitch(k)) == ScheduleNext(SchedView(k));
  }

  lemma QuietTurns(k: Kernel, a: Action, top: set<Tid>)
    requires InTurn(k, top) && Enabled(k, a) && Quiet(k, Apply(k, a))
    ensures InTurn(Apply(k, a), top) && Turn(SchedView(Apply(k, a)), top) == Turn(SchedView(k), top)
  {
    SchedStep(k, a);
  }

  lemma NextInTurn<T>(turn: seq<T>, next: seq<T>, rest: seq<T>)
    requires turn != [] && next == turn[1..] + [turn[0]] && |rest| < |turn| && rest == next[..|rest|]
    ensures [turn[0]] + rest == turn[..|rest| + 1]
  {
  }

  /** The switch first, then what the rest of the run chooses. */
  lemma ChosenAfterSwitch(k: Kernel, acts: seq<Action>)
    requires Legal(k, acts) && acts != [] && acts[0].Switch?
    ensures Chosen(k, acts) == [Apply(k, Switch).current] + Chosen(Apply(k, Switch), acts[1..])
  {
  }

  lemma {:induction false} ChosenInTurn(k: Kernel, acts: seq<Action>, top: set<Tid>)
    requires InTurn(k, top) && Legal(k, acts) && QuietBetween(k, acts)
    requires |Chosen(k, acts)| <= |Turn(SchedView(k), top)|
    ensures Chosen(k, acts) == Turn(SchedView(k), top)[..|Chosen(k, acts)|]
    decreases |acts|
  {
    if acts != [] {
      if acts[0].Switch? {
        SwitchTurns(k, top);
        var k' := Apply(k, Switch);
        ChosenAfterSwitch(k, acts);
        ChosenInTurn(k', acts[1..], top);
        NextInTurn(Turn(SchedView(k), top), Turn(SchedView(k'), top), Chosen(k', acts[1..]));
      } else {
        QuietTurns(k, acts[0], top);
        ChosenInTurn(Apply(k, acts[0]), acts[1..], top);
      }
    }
  }

  /** From any reachable state with the scheduler unlocked, whatever ticks, interrupts and
      regions come between the switches, while the ring, the runnable tasks and the
      priorities stay fixed, the next |top| switches run each task of `top` exactly once. */
  lemma EachRunsOnce(k: Kernel, before: seq<Action>, acts: seq<Action>, top: set<Tid>)
    requires Init(k) && Legal(k, before) && Run(k, before).schedLock == 0
    requires IsTop(SchedView(Run(k, before)), top) && top != {}
    requires Legal(Run(k, before), acts) && QuietBetween(Run(k, before), acts)
    requires |Chosen(Run(k, before), acts)| == |top|
    ensures var chosen := Chosen(Run(k, before), acts);
            NoDup(chosen) && forall x :: x in chosen <==> x in top
  {
    Runs.AlwaysSafe(k, before);
    ChosenOnce(Run(k, before), acts, top);
  }

  lemma ChosenOnce(r: Kernel, acts: seq<Action>, top: set<Tid>)
    requires InTurn(r, top) && Legal(r, acts) && QuietBetween(r, acts) && |Chosen(r, acts)| == |top|
    ensures NoDup(Chosen(r, acts)) && forall x :: x in Chosen(r, acts) <==> x in top
  {
    TurnIsTop(SchedView(r), top);
    ChosenInTurn(r, acts, top);
    assert Chosen(r, acts) == Turn(SchedView(r), top);
  }

  lemma TurnIsTop(v: View, top: set<Tid>)
    requires Valid(v) && IsTop(v, top)
    ensures NoDup(Turn(v, top)) && |Turn(v, top)| == |top| && forall x :: x in Turn(v, top) <==> x in top
  {
    ScanCoversRing(v.ring, v.current);
    FilterMembers(ScanOrder(v.ring, v.current), top);
    DistinctCount(Turn(v, top), top);
  }

  lemma {:induction false} DistinctCount(s: seq<Tid>, top: set<Tid>)
    requires NoDup(s) && forall x :: x in s <==> x in top
    ensures |s| == |top|
  {
    if s != [] {
      assert s == [s[0]] + s[1..];
      DistinctCount(s[1..], top - {s[0]});
    }
  }
}
