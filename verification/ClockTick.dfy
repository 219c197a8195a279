/** intervalTimer: its wake-up loop refines one step that empties the clock's queue, and keeps the invariant. */
module ClockTicks {
  import opened Lists
  import opened ListX
  import opened Nucleus
  import opened Invariant
  import opened Termination
  import opened Soundness

  lemma {:induction false} InsertPosFrame(pcb: PcbTable, pcb': PcbTable, s: seq<Idx>, prio: int)
    requires forall q: Idx :: pcb'[q].prio == pcb[q].prio
    ensures InsertPos(pcb', s, prio) == InsertPos(pcb, s, prio)
  {
    if s != [] {
      InsertPosFrame(pcb, pcb', s[1..], prio);
    }
  }

  lemma {:induction false} InsertAllFrame(pcb: PcbTable, pcb': PcbTable, s: seq<Idx>, q: seq<Idx>)
    requires forall p: Idx :: pcb'[p].prio == pcb[p].prio
    ensures InsertAll(pcb', s, q) == InsertAll(pcb, s, q)
    decreases |q|
  {
    if q != [] {
      InsertPosFrame(pcb, pcb', s, pcb[q[0]].prio);
      InsertAllFrame(pcb, pcb', InsertProcQ(pcb, s, q[0]), q[1..]);
    }
  }

  /** One turn of the loop of intervalTimer with a waiter left. */
  function WakeOne(n: Nuc): Nuc { CountedV(n, PSEUDOCLOCK).1 }

  lemma WakeOneSound(n: Nuc, out: set<Idx>)
    requires Sound(n, out) && n.Desc(PSEUDOCLOCK).Some?
    ensures Sound(WakeOne(n), out)
  {
    var m := VOnSem(n, PSEUDOCLOCK).1;
    VSound(n, PSEUDOCLOCK, out);
    WakeKeeps(n, PSEUDOCLOCK, Roots(n), out);
    CoreFrame(m, WakeOne(n), Roots(m), out);
    assert Live(WakeOne(n)) == Live(m);
    assert DeviceBlocked(WakeOne(n)) == DeviceBlocked(m);
  }

  /** WakeOne in terms of the clock's descriptor. */
  lemma WakeOneIs(n: Nuc, d: Idx, q: seq<Idx>)
    requires n.Desc(PSEUDOCLOCK) == Some(d) && q == n.Queue(d) && q != []
    ensures
      var p := q[0];
      var pcb := n.pcb[p := n.pcb[p].(semAdd := None)];
      WakeOne(n) ==
        n.(plist := n.plist[QUEUE(d) := q[1..]][READY := InsertProcQ(n.pcb, n.Ready(), p)], pcb := pcb,
           slink := if q[1..] == [] then [n.FreeDescriptors() + [d], Without(n.Active(), d)] else n.slink,
           softBlockCount := n.softBlockCount - 1)
  {
    var p := q[0];
    var pcb := n.pcb[p := n.pcb[p].(semAdd := None)];
    assert IndexOf(q, p) == 0;
    assert Without(q, p) == q[1..];
    InsertPosFrame(n.pcb, pcb, n.Ready(), n.pcb[p].prio);
  }

  /** Waking the first of several waiters, then all the others, is waking all of them. */
  lemma FirstThenRest(n: Nuc, m: Nuc, d: Idx, q: seq<Idx>)
    requires n.Desc(PSEUDOCLOCK) == Some(d) && q == n.Queue(d) && |q| > 1
    requires m == n.(plist := n.plist[QUEUE(d) := q[1..]][READY := InsertProcQ(n.pcb, n.Ready(), q[0])],
                     pcb := n.pcb[q[0] := n.pcb[q[0]].(semAdd := None)], softBlockCount := n.softBlockCount - 1)
    ensures WakeClock(m) == WakeClock(n)
  {
    var r := InsertProcQ(n.pcb, n.Ready(), q[0]);
    InsertAllFrame(n.pcb, m.pcb, r, q[1..]);
    var s := InsertAll(m.pcb, r, q[1..]);
    assert m.plist[READY := s][QUEUE(d) := []] == n.plist[READY := s][QUEUE(d) := []];
  }

  lemma WakeClockStep(n: Nuc, d: Idx, q: seq<Idx>)
    requires n.Desc(PSEUDOCLOCK) == Some(d) && q == n.Queue(d) && |q| > 1
    ensures WakeOne(n).Desc(PSEUDOCLOCK) == Some(d) && WakeOne(n).Queue(d) == q[1..]
    ensures WakeClock(WakeOne(n)) == WakeClock(n)
  {
    WakeOneIs(n, d, q);
    FirstThenRest(n, WakeOne(n), d, q);
  }

  lemma WakeClockLast(n: Nuc, d: Idx, q: seq<Idx>)
    requires n.Desc(PSEUDOCLOCK) == Some(d) && q == n.Queue(d) && |q| == 1
    requires NoDup(n.Active())
    requires forall e: Idx :: e in n.Active() && n.skey[e] == PSEUDOCLOCK ==> e == d
    ensures WakeOne(n).Desc(PSEUDOCLOCK) == None
    ensures WakeOne(n) == WakeClock(n)
  {
    WakeOneIs(n, d, q);
    WithoutMembers(n.Active(), d);
    assert q[1..] == [];
    var r := InsertProcQ(n.pcb, n.Ready(), q[0]);
    assert InsertAll(n.pcb, n.Ready(), q) == InsertAll(n.pcb, r, []);
    assert Released(n.pcb, q) == Released(n.pcb[q[0] := n.pcb[q[0]].(semAdd := None)], []);
    assert n.plist[QUEUE(d) := []][READY := r] == n.plist[READY := r][QUEUE(d) := []];
  }

  lemma ClockQueue(n: Nuc, out: set<Idx>)
    requires Sound(n, out) && n.Desc(PSEUDOCLOCK).Some?
    ensures
      var d := n.Desc(PSEUDOCLOCK).value;
      n.Queue(d) != [] && NoDup(n.Active())
      && forall e: Idx :: e in n.Active() && n.skey[e] == PSEUDOCLOCK ==> e == d
  {
  }

  /** The wake-up loop leaves nobody waiting for the clock and the invariant intact. */
  lemma {:induction false} WakeClockSound(n: Nuc, out: set<Idx>)
    requires Sound(n, out)
    ensures Sound(WakeClock(n), out) && WakeClock(n).Desc(PSEUDOCLOCK).None?
    decreases |n.Waiters(PSEUDOCLOCK)|
  {
    if n.Desc(PSEUDOCLOCK).Some? {
      var d := n.Desc(PSEUDOCLOCK).value;
      ClockQueue(n, out);
      WakeOneSound(n, out);
      if |n.Queue(d)| == 1 {
        WakeClockLast(n, d, n.Queue(d));
      } else {
        WakeClockStep(n, d, n.Queue(d));
        WakeClockSound(WakeOne(n), out);
      }
    }
  }

  lemma WakeClockFrame(n: Nuc)
    ensures
      var m := WakeClock(n);
      m.current == n.current && m.mode == n.mode && m.Free() == n.Free() && m.sem == n.sem && m.root == n.root
      && m.start == n.start && m.now == n.now && m.cpu == n.cpu && m.nextPid == n.nextPid
  {
  }

  lemma TickKeeps(n: Nuc, ps: PState, t1: int, t2: int)
    requires Inv(n)
    ensures Inv(ClockTick(n, ps, t1, t2))
  {
    var a := ChargeCurrent(n, t1);
    ChargeCurrentKeeps(n, t1);
    WakeClockSound(a, Held(a));
    WakeClockFrame(a);
    var m := WakeClock(a);
    ZeroClock(m, Held(a));
    ResumeKeeps(m.(sem := m.sem[PSEUDOCLOCK := 0]), ps, t2);
  }

  lemma ZeroClock(m: Nuc, out: set<Idx>)
    requires Sound(m, out)
    ensures Sound(m.(sem := m.sem[PSEUDOCLOCK := 0]), out)
  {
    var r := m.(sem := m.sem[PSEUDOCLOCK := 0]);
    assert Live(r) == Live(m);
    assert DeviceBlocked(r) == DeviceBlocked(m);
  }
}
