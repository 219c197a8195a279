/** What a clock tick makes of the ready queue: a stable priority insertion of everybody who waited. */
module WakeUps {
  import opened Lists
  import opened ListX
  import opened Nucleus
  import opened Invariant
  import opened Termination
  import opened Soundness
  import opened Semaphores
  import opened BoundedWaiting

  lemma InsertKeepsOrder(s: seq<Idx>, i: nat, p: Idx, x: Idx, y: Idx)
    requires i <= |s| && Before(s, x, y)
    ensures Before(InsertAt(s, i, p), x, y)
  {
    var a, b :| 0 <= a < b < |s| && s[a] == x && s[b] == y;
    var r := InsertAt(s, i, p);
    assert r[if a < i then a else a + 1] == x && r[if b < i then b else b + 1] == y;
  }

  /** Before in a concatenation: inside one part, or across. */
  lemma BeforeSplit(s: seq<Idx>, p: Idx, q: seq<Idx>, x: Idx, y: Idx)
    requires Before(s + [p] + q, x, y)
    ensures Before(s, x, y) || (x in s && y == p) || (x in s && y in q) || (x == p && y in q) || Before(q, x, y)
  {
    var t := s + [p] + q;
    var a, b :| 0 <= a < b < |t| && t[a] == x && t[b] == y;
    if a > |s| {
      assert q[a - |s| - 1] == x && q[b - |s| - 1] == y;
    }
  }

  lemma BeforeAcross(s: seq<Idx>, q: seq<Idx>, x: Idx, y: Idx)
    requires (x in s && y in q) || Before(s, x, y) || Before(q, x, y)
    ensures Before(s + q, x, y)
  {
    var t := s + q;
    if Before(s, x, y) {
      var a, b :| 0 <= a < b < |s| && s[a] == x && s[b] == y;
      assert t[a] == x && t[b] == y;
    } else if Before(q, x, y) {
      var a, b :| 0 <= a < b < |q| && q[a] == x && q[b] == y;
      assert t[|s| + a] == x && t[|s| + b] == y;
    } else {
      var a :| 0 <= a < |s| && s[a] == x;
      var b :| 0 <= b < |q| && q[b] == y;
      assert t[a] == x && t[|s| + b] == y;
    }
  }

  /** s followed by the newcomers q, seen after the first of them has been inserted by priority. */
  lemma FirstInserted(pcb: PcbTable, s: seq<Idx>, q: seq<Idx>, x: Idx, y: Idx)
    requires q != [] && Ordered(pcb, s) && Before(s + q, x, y) && pcb[x].prio >= pcb[y].prio
    ensures Before(InsertProcQ(pcb, s, q[0]) + q[1..], x, y)
  {
    var p := q[0];
    var k := InsertPos(pcb, s, pcb[p].prio);
    var r := InsertProcQ(pcb, s, p);
    assert s + q == s + [p] + q[1..];
    BeforeSplit(s, p, q[1..], x, y);
    InsertAtMembers(s, k, p);
    if Before(s, x, y) {
      InsertKeepsOrder(s, k, p, x, y);
    } else if x in s && y == p {
      SideOfNewcomer(pcb, s, p, x);
    }
    BeforeAcross(r, q[1..], x, y);
  }

  /** Inserting the processes of q one by one: an ordered queue of all of them in which nobody has been
      overtaken by an equal. */
  lemma {:induction false} InsertAllStable(pcb: PcbTable, s: seq<Idx>, q: seq<Idx>, x: Idx, y: Idx)
    requires Ordered(pcb, s)
    ensures Ordered(pcb, InsertAll(pcb, s, q)) && |InsertAll(pcb, s, q)| == |s| + |q|
    ensures x in InsertAll(pcb, s, q) <==> x in s || x in q
    ensures Before(s + q, x, y) && pcb[x].prio >= pcb[y].prio ==> Before(InsertAll(pcb, s, q), x, y)
    decreases |q|
  {
    if q == [] {
      assert s + q == s;
    } else {
      InsertOrdered(pcb, s, q[0]);
      InsertAtMembers(s, InsertPos(pcb, s, pcb[q[0]].prio), q[0]);
      assert q == [q[0]] + q[1..];
      InsertAllStable(pcb, InsertProcQ(pcb, s, q[0]), q[1..], x, y);
      if Before(s + q, x, y) && pcb[x].prio >= pcb[y].prio {
        FirstInserted(pcb, s, q, x, y);
      }
    }
  }

  lemma {:induction false} ReleasedAll(pcb: PcbTable, q: seq<Idx>, x: Idx)
    requires NoDup(q)
    ensures Released(pcb, q)[x] == if x in q then pcb[x].(semAdd := None) else pcb[x]
    decreases |q|
  {
    if q != [] {
      assert q == [q[0]] + q[1..];
      assert NoDup(q[1..]);
      ReleasedAll(pcb[q[0] := pcb[q[0]].(semAdd := None)], q[1..], x);
    }
  }

  /** The wake-up loop of a clock tick: everybody who waited becomes ready, nobody else does; the soft-block
      count falls by their number; nobody waits for the clock any more; and the new ready queue is ordered by
      priority with the old ready processes, then the waiters in blocking order, first among equals. */
  lemma ClockWakeUp(n: Nuc, x: Idx, y: Idx)
    requires Inv(n)
    ensures
      var q, m := n.Waiters(PSEUDOCLOCK), WakeClock(n);
      && (x in m.Ready() <==> x in n.Ready() || x in q) && |m.Ready()| == |n.Ready()| + |q|
      && (x in q ==> m.pcb[x] == n.pcb[x].(semAdd := None)) && (x !in q ==> m.pcb[x] == n.pcb[x])
      && m.softBlockCount == n.softBlockCount - |q| && m.Waiters(PSEUDOCLOCK) == []
      && Ordered(n.pcb, m.Ready())
      && (Before(n.Ready() + q, x, y) && n.pcb[x].prio >= n.pcb[y].prio ==> Before(m.Ready(), x, y))
  {
    var q := n.Waiters(PSEUDOCLOCK);
    ReadyFacts(n);
    WaitersNoDup(n, PSEUDOCLOCK, Roots(n), Held(n));
    WakeClockWaiters(n, PSEUDOCLOCK);
    InsertAllStable(n.pcb, n.Ready(), q, x, y);
    ReleasedAll(n.pcb, q, x);
    WokenQueue(n, q);
  }

  lemma WokenQueue(n: Nuc, q: seq<Idx>)
    requires q == n.Waiters(PSEUDOCLOCK)
    ensures
      var m := WakeClock(n);
      && m.Ready() == InsertAll(n.pcb, n.Ready(), q) && m.pcb == Released(n.pcb, q)
      && m.softBlockCount == n.softBlockCount - |q|
  {
  }
}
