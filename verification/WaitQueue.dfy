/** The wait queue shared by all five blocking objects, on values: a sequence of
    task indices, highest priority first, equal priorities in arrival order. */
module WaitQueue {
  import opened Base

  /** Number of leading waiters the insertion scan passes over. */
  function InsertAt(ts: seq<Tcb>, l: seq<Tid>, priority: uint32): (k: nat)
    ensures k <= |l|
    ensures forall i :: 0 <= i < k ==> Get(ts, l[i]).priority >= priority
    ensures k < |l| ==> Get(ts, l[k]).priority < priority
  {
    if l == [] || Get(ts, l[0]).priority < priority then 0
    else 1 + InsertAt(ts, l[1..], priority)
  }

  /** `wait_push`. */
  function Push(ts: seq<Tcb>, l: seq<Tid>, t: Tid): (r: seq<Tid>)
  {
    var k := InsertAt(ts, l, Get(ts, t).priority);
    l[..k] + [t] + l[k..]
  }

  /** Position of the first waiter a waker accepts, or the length. */
  function FirstValid(ts: seq<Tcb>, l: seq<Tid>): (k: nat)
    ensures k <= |l|
    ensures forall i :: 0 <= i < k ==> !IsValidWaiter(Get(ts, l[i]))
    ensures k < |l| ==> IsValidWaiter(Get(ts, l[k]))
  {
    if l == [] || IsValidWaiter(Get(ts, l[0])) then 0
    else 1 + FirstValid(ts, l[1..])
  }

  /** What `wait_pop` leaves linked: it discards every stale waiter it meets. */
  function PopRest(ts: seq<Tcb>, l: seq<Tid>): (r: seq<Tid>)
  {
    var k := FirstValid(ts, l);
    if k == |l| then [] else l[k + 1..]
  }

  /** The task `wait_pop` returns. */
  function PopTask(ts: seq<Tcb>, l: seq<Tid>): (r: Option<Tid>)
    ensures r.Some? ==> r.value in l && r.value < |ts| && IsValidWaiter(Get(ts, r.value))
  {
    var k := FirstValid(ts, l);
    if k == |l| then None else Some(l[k])
  }

  /** `wait_pop` followed by the release every waker performs on the task it got. */
  function WakeFirst(ts: seq<Tcb>, l: seq<Tid>): (r: seq<Tcb>)
    ensures |r| == |ts|
  {
    match PopTask(ts, l)
    case None => ts
    case Some(w) => Put(ts, w, Released(Get(ts, w)))
  }

  /** `wait_remove`: unlinks the first occurrence, if there is one. */
  function Remove(l: seq<Tid>, t: Tid): (r: seq<Tid>)
    ensures forall i :: 0 <= i < |r| ==> r[i] in l
  {
    if l == [] then []
    else if l[0] == t then l[1..]
    else [l[0]] + Remove(l[1..], t)
  }

  // ---------- Facts about the three operations ----------

  /** Descending priority from head to tail. */
  ghost predicate Sorted(ts: seq<Tcb>, l: seq<Tid>)
  {
    forall i, j :: 0 <= i < j < |l| ==> Get(ts, l[i]).priority >= Get(ts, l[j]).priority
  }

  lemma InsertMembers<T>(l: seq<T>, k: nat, t: T)
    requires k <= |l|
    ensures forall x :: x in l[..k] + [t] + l[k..] <==> x == t || x in l
    ensures NoDup(l) && t !in l ==> NoDup(l[..k] + [t] + l[k..])
  {
  }

  lemma PushMembers(ts: seq<Tcb>, l: seq<Tid>, t: Tid)
    ensures forall x :: x in Push(ts, l, t) <==> x == t || x in l
    ensures NoDup(l) && t !in l ==> NoDup(Push(ts, l, t))
  {
  }

  lemma InsertIndices<T>(l: seq<T>, k: nat, t: T)
    requires k <= |l|
    ensures var p := l[..k] + [t] + l[k..];
            |p| == |l| + 1 && forall i :: 0 <= i < |p| ==> p[i] == if i < k then l[i] else if i == k then t else l[i - 1]
  {
  }

  /** Stable insertion: the other waiters keep their order, everyone ahead of the
      newcomer has at least its priority, everyone behind it strictly less, and a
      sorted list stays sorted. */
  lemma PushIsStableInsertion(ts: seq<Tcb>, l: seq<Tid>, t: Tid)
    requires Sorted(ts, l)
    ensures Sorted(ts, Push(ts, l, t))
    ensures exists k :: 0 <= k <= |l| && Push(ts, l, t) == l[..k] + [t] + l[k..] && IsInsertionPoint(ts, l, k, Get(ts, t).priority)
  {
  }

  ghost predicate IsInsertionPoint(ts: seq<Tcb>, l: seq<Tid>, k: nat, priority: uint32)
    requires k <= |l|
  {
    && (forall i :: 0 <= i < k ==> Get(ts, l[i]).priority >= priority)
    && (forall i :: k <= i < |l| ==> Get(ts, l[i]).priority < priority)
  }

  lemma PopMembers(ts: seq<Tcb>, l: seq<Tid>)
    requires NoDup(l)
    ensures var r := PopRest(ts, l);
            NoDup(r) && (forall x :: x in r ==> x in l)
    ensures PopTask(ts, l).Some? ==> PopTask(ts, l).value !in PopRest(ts, l)
    ensures forall x :: x in l && x !in PopRest(ts, l) && PopTask(ts, l) != Some(x) ==>
                        !IsValidWaiter(Get(ts, x))
    ensures PopTask(ts, l).None? ==> PopRest(ts, l) == []
  {
  }

  /** Of a sorted list `wait_pop` returns the highest-priority valid waiter, the
      earliest one among equals, and no valid waiter is dropped. */
  lemma PopTakesTheBest(ts: seq<Tcb>, l: seq<Tid>)
    requires NoDup(l) && Sorted(ts, l)
    ensures Sorted(ts, PopRest(ts, l))
    ensures PopTask(ts, l).None? <==> forall x :: x in l ==> !IsValidWaiter(Get(ts, x))
    ensures forall i :: 0 <= i < |l| && PopTask(ts, l) == Some(l[i]) ==>
              forall j :: 0 <= j < |l| && IsValidWaiter(Get(ts, l[j])) && j != i ==>
                i < j && Get(ts, l[j]).priority <= Get(ts, l[i]).priority && l[j] in PopRest(ts, l)
  {
  }

  lemma {:induction false} RemoveMembers(l: seq<Tid>, t: Tid)
    requires NoDup(l)
    ensures NoDup(Remove(l, t))
    ensures forall x :: x in Remove(l, t) <==> x in l && x != t
  {
    if l != [] {
      RemoveMembers(l[1..], t);
      assert l == [l[0]] + l[1..];
      if l[0] == t {
        assert t !in l[1..];
      } else {
        var r := Remove(l[1..], t);
        assert l[0] !in r;
        assert Remove(l, t) == [l[0]] + r;
        forall i, j | 0 <= i < j < |r| + 1 ensures Remove(l, t)[i] != Remove(l, t)[j] {
          if i == 0 { assert r[j - 1] in r; }
        }
      }
    }
  }

  /** Removal keeps the relative order of the waiters that stay. */
  lemma {:induction false} RemoveKeepsOrder(ts: seq<Tcb>, l: seq<Tid>, t: Tid)
    requires NoDup(l) && Sorted(ts, l)
    ensures Sorted(ts, Remove(l, t))
  {
    if l != [] && l[0] != t {
      RemoveKeepsOrder(ts, l[1..], t);
      var r := Remove(l[1..], t);
      var p := [l[0]] + r;
      forall i, j | 0 <= i < j < |p| ensures Get(ts, p[i]).priority >= Get(ts, p[j]).priority {
        if i == 0 {
          assert r[j - 1] in l[1..];
          var n :| 0 <= n < |l[1..]| && l[1..][n] == r[j - 1];
          assert l[n + 1] == p[j];
        } else {
          assert p[i] == r[i - 1] && p[j] == r[j - 1];
        }
      }
    }
  }
}
