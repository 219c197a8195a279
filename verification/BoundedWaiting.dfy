/** The ready queue over runs: equal priorities are served in arrival order, so a ready process waits for at
    most as many dispatches as there are processes ahead of it. */
module BoundedWaiting {
  import opened Lists
  import opened ListX
  import opened Nucleus
  import opened Devices
  import opened Invariant
  import opened Termination
  import opened Soundness
  import opened ClockTicks
  import opened ProcessLife
  import opened Steps
  import opened Runs

  /** From n to m no ready process is overtaken except by one of higher priority; ready processes stay ready
      unless they die; priorities of the living do not change. */
  ghost predicate Kept(n: Nuc, m: Nuc) {
    && (forall q: Idx :: q in n.Ready() ==> q in m.Ready() || q in m.Free())
    && (forall q: Idx :: q in m.Ready() ==> q !in m.Free())
    && (forall q: Idx :: q in n.Free() ==> q in m.Free())
    && (forall q: Idx :: q !in m.Free() ==> m.pcb[q].prio == n.pcb[q].prio)
    && (forall x: Idx, q: Idx :: q in n.Ready() && Before(m.Ready(), x, q) ==>
          Before(n.Ready(), x, q) || n.pcb[x].prio > n.pcb[q].prio)
  }

  lemma KeptTrans(a: Nuc, b: Nuc, c: Nuc)
    requires Kept(a, b) && Kept(b, c)
    ensures Kept(a, c)
  {
    forall x: Idx, q: Idx | q in a.Ready() && Before(c.Ready(), x, q)
      ensures Before(a.Ready(), x, q) || a.pcb[x].prio > a.pcb[q].prio
    {
      assert q in c.Ready() && x in c.Ready();
    }
  }

  lemma ReadyIsLive(n: Nuc, out: set<Idx>)
    requires Apartness(n.plist, out)
    ensures forall q: Idx :: q in n.Ready() ==> q !in n.Free()
  {
  }

  lemma KeptSame(n: Nuc, m: Nuc)
    requires m.Ready() == n.Ready() && m.Free() == n.Free()
    requires forall q: Idx :: q !in m.Free() ==> m.pcb[q].prio == n.pcb[q].prio
    requires forall q: Idx :: q in n.Ready() ==> q !in n.Free()
    ensures Kept(n, m)
  {
  }

  /** A process inserted by priority comes before the lower ones only. */
  lemma InsertBefore(pcb: PcbTable, s: seq<Idx>, p: Idx, x: Idx, q: Idx)
    requires q in s && p !in s && NoDup(s) && Ordered(pcb, s) && Before(InsertProcQ(pcb, s, p), x, q)
    ensures Before(s, x, q) || (x == p && pcb[p].prio > pcb[q].prio)
  {
    var k, t := InsertPos(pcb, s, pcb[p].prio), InsertProcQ(pcb, s, p);
    var i, j :| 0 <= i < j < |t| && t[i] == x && t[j] == q;
    InsertAtIndex(s, k, p, i);
    InsertAtIndex(s, k, p, j);
    if i == k {
      NotEarlier(pcb, s, pcb[p].prio, j - 1);
    } else {
      assert s[if i < k then i else i - 1] == x && s[if j < k then j else j - 1] == q;
    }
  }

  /** In an ordered queue everybody from the insertion point on has lower priority. */
  lemma NotEarlier(pcb: PcbTable, s: seq<Idx>, prio: int, j: nat)
    requires Ordered(pcb, s) && InsertPos(pcb, s, prio) <= j < |s|
    ensures pcb[s[j]].prio < prio
  {
  }

  /** r is s with, possibly, one newcomer p inserted by priority. */
  ghost predicate Grown(pcb: PcbTable, s: seq<Idx>, r: seq<Idx>) {
    r == s || exists p: Idx :: p !in s && r == InsertProcQ(pcb, s, p)
  }

  lemma GrownKeeps(pcb: PcbTable, s: seq<Idx>, r: seq<Idx>)
    requires NoDup(s) && Ordered(pcb, s) && Grown(pcb, s, r)
    ensures forall q :: q in s ==> q in r
    ensures forall x: Idx, q: Idx :: q in s && Before(r, x, q) ==> Before(s, x, q) || pcb[x].prio > pcb[q].prio
  {
    if r != s {
      var p: Idx :| p !in s && r == InsertProcQ(pcb, s, p);
      InsertAtMembers(s, InsertPos(pcb, s, pcb[p].prio), p);
      forall x: Idx, q: Idx | q in s && Before(r, x, q)
        ensures Before(s, x, q) || pcb[x].prio > pcb[q].prio
      {
        InsertBefore(pcb, s, p, x, q);
      }
    }
  }

  lemma {:induction false} BeforeWithout(s: seq<Idx>, t: Idx, x: Idx, y: Idx)
    requires Before(Without(s, t), x, y)
    ensures Before(s, x, y)
  {
    if t in s {
      var r, k := Without(s, t), IndexOf(s, t);
      var i, j :| 0 <= i < j < |r| && r[i] == x && r[j] == y;
      var i', j' := if i < k then i else i + 1, if j < k then j else j + 1;
      assert s[i'] == x && s[j'] == y;
    }
  }

  /** The ready queue after Kill: t is gone from it, and a process woken by the V may be new in it. */
  lemma KillReadyQueue(n: Nuc, t: Idx, orphans: set<Idx>, out: set<Idx>)
    requires Core(n, orphans, out)
    ensures
      var m := Kill(n, t);
      m.Ready() == Without(n.Ready(), t) || (t !in n.Ready() && Grown(n.pcb, n.Ready(), m.Ready()))
      || (t in n.Ready() && n.current == Some(t))
  {
    if n.pcb[t].semAdd.Some? {
      OutBlockedKeeps(n, t, orphans, out);
      var k, o := n.pcb[t].semAdd.value, OutBlocked(n, t);
      NotReady(n, t, orphans, out);
      if !IsDevice(k) && o.Desc(k).Some? {
        KillWakes(n, o, t, k, orphans, out);
      }
    }
  }

  lemma NotReady(n: Nuc, t: Idx, orphans: set<Idx>, out: set<Idx>)
    requires Core(n, orphans, out) && n.pcb[t].semAdd.Some?
    ensures t !in n.Ready()
  {
  }

  lemma KillWakes(n: Nuc, o: Nuc, t: Idx, k: int, orphans: set<Idx>, out: set<Idx>)
    requires Core(o, orphans, out + {t}) && o.Desc(k).Some? && o.Ready() == n.Ready()
    requires o.pcb == n.pcb[t := n.pcb[t].(semAdd := None)]
    ensures Grown(n.pcb, n.Ready(), VOnSem(o, k).1.Ready())
  {
    HeadWaits(o, k, out + {t});
    var w := o.Queue(o.Desc(k).value)[0];
    NotReady(o, w, orphans, out + {t});
    var r := RemoveBlocked(o, k).1;
    InsertPosFrame(n.pcb, r.pcb, n.Ready(), n.pcb[w].prio);
    assert VOnSem(o, k).1.Ready() == InsertProcQ(n.pcb, n.Ready(), w);
  }

  lemma KillKept(n: Nuc, t: Idx, orphans: set<Idx>)
    requires Core(n, orphans, Held(n)) && t in orphans && n.psib[t] == []
    ensures Kept(n, Kill(n, t))
  {
    var m := Kill(n, t);
    KillReadyQueue(n, t, orphans, Held(n));
    KillFacts(n, t, orphans);
    QueueFacts(n, orphans, Held(n));
    if n.current == Some(t) {
      HeldNotReady(n, t, orphans);
    }
    KeptAfter(n, m, t);
  }

  lemma KillFacts(n: Nuc, t: Idx, orphans: set<Idx>)
    requires Core(n, orphans, Held(n)) && t in orphans && n.psib[t] == []
    ensures
      var m := Kill(n, t);
      && Freed(n, m, {t}) && (forall q: Idx :: q in m.Ready() ==> q !in m.Free())
      && (forall q: Idx :: q !in m.Free() ==> m.pcb[q].prio == n.pcb[q].prio)
  {
    KillKeeps(n, t, orphans, Held(n));
    var m := Kill(n, t);
    ReadyIsLive(m, Held(n) - {t});
    SparedPrio(n, m, t);
  }

  lemma QueueFacts(n: Nuc, orphans: set<Idx>, out: set<Idx>)
    requires Core(n, orphans, out)
    ensures NoDup(n.Ready()) && Ordered(n.pcb, n.Ready())
  {
  }

  lemma KeptAfter(n: Nuc, m: Nuc, t: Idx)
    requires NoDup(n.Ready()) && Ordered(n.pcb, n.Ready()) && Freed(n, m, {t})
    requires forall q: Idx :: q in m.Ready() ==> q !in m.Free()
    requires forall q: Idx :: q !in m.Free() ==> m.pcb[q].prio == n.pcb[q].prio
    requires m.Ready() == Without(n.Ready(), t) || Grown(n.pcb, n.Ready(), m.Ready())
    ensures Kept(n, m)
  {
    if m.Ready() == Without(n.Ready(), t) {
      DropKept(n, m, t);
    } else {
      GrowKept(n, m);
    }
  }

  lemma HeldNotReady(n: Nuc, t: Idx, orphans: set<Idx>)
    requires Core(n, orphans, Held(n)) && n.current == Some(t) && t in orphans
    ensures t !in n.Ready()
  {
  }

  lemma SparedPrio(n: Nuc, m: Nuc, t: Idx)
    requires Alike(n, m, {t}) && Freed(n, m, {t})
    ensures forall q: Idx :: q !in m.Free() ==> m.pcb[q].prio == n.pcb[q].prio
  {
    forall q: Idx | q !in m.Free() ensures m.pcb[q].prio == n.pcb[q].prio {
      assert Spared(n.pcb[q], m.pcb[q]);
    }
  }

  lemma DropKept(n: Nuc, m: Nuc, t: Idx)
    requires NoDup(n.Ready()) && m.Ready() == Without(n.Ready(), t) && Freed(n, m, {t})
    requires forall q: Idx :: q in m.Ready() ==> q !in m.Free()
    requires forall q: Idx :: q !in m.Free() ==> m.pcb[q].prio == n.pcb[q].prio
    ensures Kept(n, m)
  {
    WithoutMembers(n.Ready(), t);
    forall x: Idx, q: Idx | Before(m.Ready(), x, q) ensures Before(n.Ready(), x, q) {
      BeforeWithout(n.Ready(), t, x, q);
    }
  }

  lemma GrowKept(n: Nuc, m: Nuc)
    requires NoDup(n.Ready()) && Ordered(n.pcb, n.Ready()) && Grown(n.pcb, n.Ready(), m.Ready())
    requires forall q: Idx :: q in m.Ready() ==> q !in m.Free()
    requires forall q: Idx :: q in n.Free() ==> q in m.Free()
    requires forall q: Idx :: q !in m.Free() ==> m.pcb[q].prio == n.pcb[q].prio
    ensures Kept(n, m)
  {
    GrownKeeps(n.pcb, n.Ready(), m.Ready());
  }

  lemma {:induction false} ChildrenKept(n: Nuc, t: Idx, orphans: set<Idx>)
    requires Core(n, orphans, Held(n)) && t in orphans
    ensures Kept(n, KillChildren(n, t))
    decreases Links(n.psib), 0
  {
    ReadyIsLive(n, Held(n));
    if n.psib[t] == [] {
      KeptSame(n, n);
    } else {
      var c, a := n.psib[t][0], RemoveChild(n, t);
      var b := RecursiveTermination(a, c);
      ChildCore(n, t, orphans);
      KeptSame(n, a);
      TerminationKept(a, c, orphans + {c});
      KeptTrans(n, a, b);
      ChildrenKept(b, t, orphans);
      KeptTrans(n, b, KillChildren(b, t));
    }
  }

  lemma {:induction false} TerminationKept(n: Nuc, t: Idx, orphans: set<Idx>)
    requires Core(n, orphans, Held(n)) && t in orphans
    ensures Kept(n, RecursiveTermination(n, t))
    decreases Links(n.psib), 1
  {
    ChildrenKept(n, t, orphans);
    ChildrenCore(n, t, orphans);
    KillKept(KillChildren(n, t), t, orphans);
    KeptTrans(n, KillChildren(n, t), RecursiveTermination(n, t));
  }

  lemma SubtreeKept(n: Nuc, t: Idx)
    requires Inv(n) && t !in n.Free()
    ensures Kept(n, EndSubtree(n, t))
  {
    var o := OutChild(n, t);
    OutChildKeeps(n, t, Roots(n), Held(n));
    OutChildCounts(n, t);
    ReadyIsLive(n, Held(n));
    KeptSame(n, o);
    TerminationKept(o, t, Roots(n) + {t});
    KeptTrans(n, o, EndSubtree(n, t));
  }

  // ---- one event ----

  /** Events that end in a call of the scheduler. */
  predicate Dispatches(n: Nuc, e: Event)
    requires Enabled(n, e)
  {
    match e
    case P(_, k, _, _) => n.Val(k) <= 0
    case Trap(_) => n.pcb[n.current.value].support == 0
    case Terminate(_, _, _, _) => true
    case DoIO(_, _, _, _) => true
    case WaitClock(_, _, _) => true
    case YieldCpu(_, _, _) => true
    case Slice(_, _, _) => true
    case Interrupt(_, _, _, _) => n.current.None?
    case Tick(_, _, _) => n.current.None?
    case _ => false
  }

  /** The ready processes that will be dispatched before q if nothing else happens. */
  ghost function Ahead(n: Nuc, q: Idx): set<Idx> {
    set x: Idx | 0 <= x < MAXPROC && Before(n.Ready(), x, q)
  }

  /** In m, x has not been put ahead of q since n except by its higher priority. */
  ghost predicate Rightly(n: Nuc, m: Nuc, x: Idx, q: Idx) {
    Before(n.Ready(), x, q) || (x !in n.Ready() && m.pcb[x].prio > m.pcb[q].prio)
  }

  ghost predicate Patient(n: Nuc, m: Nuc, q: Idx) {
    q in m.Ready() && forall x: Idx :: Before(m.Ready(), x, q) ==> Rightly(n, m, x, q)
  }

  /** One event seen by a process q that was ready: it is still ready or running, and whoever is ahead of it
      or was dispatched instead of it was ahead of it before, or has entered with a higher priority. */
  ghost predicate Turn(n: Nuc, m: Nuc, q: Idx, dispatch: bool) {
    && (m.current == Some(q) || Patient(n, m, q))
    && (dispatch ==> m.current.Some? && (m.current.value == q || Rightly(n, m, m.current.value, q)))
    && (!dispatch ==> q in m.Ready())
  }

  lemma FromKept(n: Nuc, r: Nuc, q: Idx)
    requires Kept(n, r) && Ordered(n.pcb, n.Ready()) && q in n.Ready() && q !in r.Free()
    ensures Patient(n, r, q)
  {
    forall x: Idx | Before(r.Ready(), x, q) ensures Rightly(n, r, x, q) {
      assert x in r.Ready();
      if x in n.Ready() && !Before(n.Ready(), x, q) {
        NotAhead(n.pcb, n.Ready(), x, q);
      }
    }
  }

  lemma NotAhead(pcb: PcbTable, s: seq<Idx>, x: Idx, q: Idx)
    requires Ordered(pcb, s) && x in s && q in s && !Before(s, x, q)
    ensures pcb[x].prio <= pcb[q].prio
  {
    var i, j := IndexOf(s, x), IndexOf(s, q);
    if i <= j {
      assert s[i] == x && s[j] == q;
    }
  }

  /** A process c that was not ready joins the queue. */
  lemma PatientInsert(n: Nuc, a: Nuc, r: Nuc, c: Idx, q: Idx)
    requires Patient(n, a, q) && c !in a.Ready() && c !in n.Ready() && NoDup(a.Ready()) && Ordered(r.pcb, a.Ready())
    requires r.Ready() == InsertProcQ(r.pcb, a.Ready(), c)
    requires forall x: Idx :: x in a.Ready() ==> r.pcb[x].prio == a.pcb[x].prio
    ensures Patient(n, r, q)
  {
    InsertAtMembers(a.Ready(), InsertPos(r.pcb, a.Ready(), r.pcb[c].prio), c);
    forall x: Idx | Before(r.Ready(), x, q) ensures Rightly(n, r, x, q) {
      InsertBefore(r.pcb, a.Ready(), c, x, q);
      assert x == c || x in a.Ready();
    }
  }

  lemma PatientSame(n: Nuc, r: Nuc, q: Idx)
    requires r.Ready() == n.Ready() && q in n.Ready()
    ensures Patient(n, r, q)
  {
  }

  /** The scheduler takes the head of the queue. */
  lemma DispatchTurn(n: Nuc, r: Nuc, t: int, q: Idx)
    requires Patient(n, r, q)
    ensures Turn(n, Scheduler(r, t), q, true)
  {
    var m := Scheduler(r, t);
    var h := r.Ready()[0];
    HeadOrRest(r.Ready(), q);
    if h != q {
      assert Before(r.Ready(), h, q);
      assert Rightly(n, r, h, q);
    }
    forall x: Idx | Before(m.Ready(), x, q) ensures Rightly(n, m, x, q) {
      BeforeTail(r.Ready(), x, q);
      assert Rightly(n, r, x, q);
    }
  }

  lemma HeadOrRest(s: seq<Idx>, q: Idx)
    requires q in s
    ensures q == s[0] || (q in s[1..] && Before(s, s[0], q))
  {
    assert s == [s[0]] + s[1..];
    var j :| 0 <= j < |s| && s[j] == q;
    assert j > 0 ==> s[0] == s[0] && s[j] == q && Before(s, s[0], q);
  }

  lemma BeforeTail(s: seq<Idx>, x: Idx, q: Idx)
    requires s != [] && Before(s[1..], x, q)
    ensures Before(s, x, q)
  {
    var i, j :| 0 <= i < j < |s[1..]| && s[1..][i] == x && s[1..][j] == q;
    assert s[i + 1] == x && s[j + 1] == q;
  }

  lemma ReadyFacts(n: Nuc)
    requires Inv(n)
    ensures NoDup(n.Ready()) && Ordered(n.pcb, n.Ready())
    ensures n.current.Some? ==> n.current.value !in n.Ready()
    ensures forall q: Idx :: q in n.Ready() ==> q !in n.Free() && n.pcb[q].semAdd.None? && n.current.Some?
  {
    if n.Ready() != [] {
      assert n.current.Some?;
    }
  }

  lemma OrderedSame(a: PcbTable, b: PcbTable, s: seq<Idx>)
    requires Ordered(a, s) && forall q: Idx :: b[q].prio == a[q].prio
    ensures Ordered(b, s)
  {
  }

  lemma SliceTurn(n: Nuc, a: Nuc, c: Idx, ps: PState, t1: int, t2: int, q: Idx)
    requires Patient(n, a, q) && c !in n.Ready() && c !in a.Ready() && NoDup(a.Ready()) && Ordered(a.pcb, a.Ready())
    ensures
      var b := MakeReady(SaveState(a, c, ps, t1), c);
      Turn(n, Scheduler(b, t2), q, true) && Turn(n, Scheduler(b.(current := None), t2), q, true)
  {
    var s := SaveState(a, c, ps, t1);
    var b := MakeReady(s, c);
    OrderedSame(a.pcb, s.pcb, a.Ready());
    PatientInsert(n, a, b, c, q);
    DispatchTurn(n, b, t2, q);
    assert Patient(n, b.(current := None), q);
    DispatchTurn(n, b.(current := None), t2, q);
  }

  lemma YieldTurn(n: Nuc, ps: PState, t1: int, t2: int, q: Idx)
    requires Inv(n) && n.current.Some? && q in n.Ready()
    ensures Turn(n, Yield(n, ps, t1, t2), q, true)
  {
    ReadyFacts(n);
    var c, h, tail := n.current.value, n.Ready()[0], n.Ready()[1..];
    var a := SaveState(n, c, ps, t1);
    var m := Yield(n, ps, t1, t2);
    assert m.Ready() == InsertProcQ(a.pcb, tail, c) && m.current == Some(h);
    if q != h {
      HeadOrRest(n.Ready(), q);
      OrderedSame(n.pcb, a.pcb, n.Ready());
      YieldPatient(n, m, c, q);
    }
  }

  /** Yield hands the processor to the best other ready process, if there is one, and takes its own place in
      the queue again: behind everybody of its priority or more, before everybody of lower priority. */
  lemma YieldGivesWay(n: Nuc, ps: PState, t1: int, t2: int, x: Idx)
    requires Inv(n) && n.current.Some?
    ensures
      var c, m := n.current.value, Yield(n, ps, t1, t2);
      if n.Ready() == [] then m.current == Some(c) && m.Ready() == []
      else
        && m.current == Some(n.Ready()[0]) && m.current != Some(c) && c in m.Ready() && Ordered(m.pcb, m.Ready())
        && (x in n.Ready() ==> n.pcb[n.Ready()[0]].prio >= n.pcb[x].prio)
        && (x in n.Ready()[1..] ==>
              if n.pcb[x].prio >= n.pcb[c].prio then Before(m.Ready(), x, c) else Before(m.Ready(), c, x))
  {
    ReadyFacts(n);
    var c, m := n.current.value, Yield(n, ps, t1, t2);
    if n.Ready() != [] {
      var a, tail := SaveState(n, c, ps, t1), n.Ready()[1..];
      YieldIs(n, ps, t1, t2);
      YieldQueue(n, a, c, m.Ready(), x);
    } else {
      YieldAlone(n, ps, t1, t2);
    }
  }

  lemma YieldIs(n: Nuc, ps: PState, t1: int, t2: int)
    requires n.current.Some? && n.Ready() != []
    ensures
      var a, m := SaveState(n, n.current.value, ps, t1), Yield(n, ps, t1, t2);
      && m.Ready() == InsertProcQ(a.pcb, n.Ready()[1..], n.current.value) && m.pcb == a.pcb
      && m.current == Some(n.Ready()[0])
      && forall q: Idx :: a.pcb[q].prio == n.pcb[q].prio
  {
  }

  lemma YieldAlone(n: Nuc, ps: PState, t1: int, t2: int)
    requires n.current.Some? && n.Ready() == []
    ensures Yield(n, ps, t1, t2).current == n.current && Yield(n, ps, t1, t2).Ready() == []
  {
  }

  lemma YieldQueue(n: Nuc, a: Nuc, c: Idx, r: seq<Idx>, x: Idx)
    requires n.Ready() != [] && c !in n.Ready() && Ordered(n.pcb, n.Ready())
    requires r == InsertProcQ(a.pcb, n.Ready()[1..], c) && forall q: Idx :: a.pcb[q].prio == n.pcb[q].prio
    ensures n.Ready()[0] != c && c in r && Ordered(a.pcb, r)
    ensures x in n.Ready() ==> n.pcb[n.Ready()[0]].prio >= n.pcb[x].prio
    ensures x in n.Ready()[1..] ==> if n.pcb[x].prio >= n.pcb[c].prio then Before(r, x, c) else Before(r, c, x)
  {
    var tail := n.Ready()[1..];
    OrderedSame(n.pcb, a.pcb, n.Ready());
    OrderedDrop(a.pcb, n.Ready(), tail, 0);
    InsertOrdered(a.pcb, tail, c);
    assert r[InsertPos(a.pcb, tail, a.pcb[c].prio)] == c;
    if x in tail {
      SideOfNewcomer(a.pcb, tail, c, x);
    }
  }

  lemma SideOfNewcomer(pcb: PcbTable, s: seq<Idx>, c: Idx, x: Idx)
    requires Ordered(pcb, s) && x in s
    ensures if pcb[x].prio >= pcb[c].prio then Before(InsertProcQ(pcb, s, c), x, c)
            else Before(InsertProcQ(pcb, s, c), c, x)
  {
    var k, r := InsertPos(pcb, s, pcb[c].prio), InsertProcQ(pcb, s, c);
    var j :| 0 <= j < |s| && s[j] == x;
    assert r[k] == c;
    if j < k {
      assert r[j] == x;
    } else {
      NotEarlier(pcb, s, pcb[c].prio, j);
      assert r[j + 1] == x;
    }
  }

  lemma YieldPatient(n: Nuc, m: Nuc, c: Idx, q: Idx)
    requires n.Ready() != [] && q in n.Ready()[1..] && c !in n.Ready() && NoDup(n.Ready())
    requires Ordered(m.pcb, n.Ready()) && m.Ready() == InsertProcQ(m.pcb, n.Ready()[1..], c)
    ensures Patient(n, m, q)
  {
    var tail := n.Ready()[1..];
    InsertAtMembers(tail, InsertPos(m.pcb, tail, m.pcb[c].prio), c);
    forall x: Idx | Before(m.Ready(), x, q) ensures Rightly(n, m, x, q) {
      InsertBefore(m.pcb, tail, c, x, q);
      if Before(tail, x, q) {
        BeforeTail(n.Ready(), x, q);
      }
    }
  }

  lemma AfterEndTurn(n: Nuc, a: Nuc, c: Idx, ps: PState, t1: int, t2: int, q: Idx)
    requires Patient(n, a, q) && c !in n.Ready() && NoDup(a.Ready()) && Ordered(a.pcb, a.Ready())
    requires c !in a.Free() ==> c !in a.Ready()
    ensures Turn(n, if c in a.Free() then Scheduler(a.(current := None), t2)
                    else Scheduler(MakeReady(SaveState(a, c, ps, t1), c), t2), q, true)
  {
    if c in a.Free() {
      assert Patient(n, a.(current := None), q);
      DispatchTurn(n, a.(current := None), t2, q);
    } else {
      SliceTurn(n, a, c, ps, t1, t2, q);
    }
  }

  /** The state of the ready queue after a termination. */
  lemma EndFacts(n: Nuc, t: Idx, q: Idx)
    requires Inv(n) && t !in n.Free() && q in n.Ready() && q !in EndSubtree(n, t).Free()
    ensures
      var a := EndSubtree(n, t);
      && Patient(n, a, q) && NoDup(a.Ready()) && Ordered(a.pcb, a.Ready())
      && (n.current.Some? && n.current.value !in a.Free() ==> n.current.value !in a.Ready())
  {
    ReadyFacts(n);
    SubtreeKept(n, t);
    FromKept(n, EndSubtree(n, t), q);
    EndSubtreeExact(n, t);
    SoundReady(EndSubtree(n, t));
  }

  lemma SoundReady(a: Nuc)
    requires Sound(a, Held(a))
    ensures NoDup(a.Ready()) && Ordered(a.pcb, a.Ready())
    ensures a.current.Some? && a.current.value !in a.Free() ==> a.current.value !in a.Ready()
  {
  }

  lemma TerminateTurn(n: Nuc, ps: PState, pid: int, t1: int, t2: int, q: Idx)
    requires Inv(n) && n.current.Some? && q in n.Ready() && q !in TerminateProcess(n, ps, pid, t1, t2).Free()
    ensures Turn(n, TerminateProcess(n, ps, pid, t1, t2), q, true)
  {
    var c := n.current.value;
    var target := if pid == 0 then Some(c) else FindPid(n, pid, 0);
    if target.None? {
      ReadyFacts(n);
      PatientSame(n, n, q);
      AfterEndTurn(n, n, c, ps, t1, t2, q);
    } else {
      TerminatedFree(EndSubtree(n, target.value), c, ps, t1, t2);
      EndedTurn(n, target.value, ps, t1, t2, q);
    }
  }

  lemma TerminatedFree(a: Nuc, c: Idx, ps: PState, t1: int, t2: int)
    ensures Scheduler(a.(current := None), t2).Free() == a.Free()
    ensures Scheduler(MakeReady(SaveState(a, c, ps, t1), c), t2).Free() == a.Free()
  {
  }

  lemma EndedTurn(n: Nuc, t: Idx, ps: PState, t1: int, t2: int, q: Idx)
    requires Inv(n) && n.current.Some? && t !in n.Free() && q in n.Ready() && q !in EndSubtree(n, t).Free()
    ensures
      var a, c := EndSubtree(n, t), n.current.value;
      Turn(n, if c in a.Free() then Scheduler(a.(current := None), t2)
              else Scheduler(MakeReady(SaveState(a, c, ps, t1), c), t2), q, true)
  {
    ReadyFacts(n);
    EndFacts(n, t, q);
    AfterEndTurn(n, EndSubtree(n, t), n.current.value, ps, t1, t2, q);
  }

  lemma DieTurn(n: Nuc, t2: int, q: Idx)
    requires Inv(n) && n.current.Some? && q in n.Ready() && q !in Die(n, t2).Free()
    ensures Turn(n, Die(n, t2), q, true)
  {
    var a := EndSubtree(n, n.current.value);
    EndFacts(n, n.current.value, q);
    assert Patient(n, a.(current := None), q);
    DispatchTurn(n, a.(current := None), t2, q);
  }

  lemma BlockTurn(n: Nuc, k: int, ps: PState, t1: int, t2: int, q: Idx)
    requires n.current.Some? && q in n.Ready()
    ensures
      var b := Block(n, k, ps, t1);
      && b.Ready() == n.Ready() && Turn(n, Scheduler(b, t2), q, true)
      && Turn(n, Scheduler(b.(softBlockCount := b.softBlockCount + 1), t2), q, true)
  {
    var b := Block(n, k, ps, t1);
    BlockReady(SaveState(n, n.current.value, ps, t1), k, n.current.value);
    PatientSame(n, b, q);
    DispatchTurn(n, b, t2, q);
    PatientSame(n, b.(softBlockCount := b.softBlockCount + 1), q);
    DispatchTurn(n, b.(softBlockCount := b.softBlockCount + 1), t2, q);
  }

  lemma BlockReady(n: Nuc, k: int, p: Idx)
    ensures InsertBlocked(n, k, p).Ready() == n.Ready()
  {
  }

  lemma CreateTurn(n: Nuc, ps: PState, state: PState, prio: int, support: int, q: Idx)
    requires Inv(n) && n.current.Some? && q in n.Ready()
    ensures Turn(n, CreateProcess(n, ps, state, prio, support), q, false)
  {
    var m := CreateProcess(n, ps, state, prio, support);
    ReadyFacts(n);
    PatientSame(n, n, q);
    if n.Free() == [] {
      PatientSame(n, m, q);
    } else {
      var p := n.Free()[0];
      HeadIsMember(n.Free());
      CreatedReady(n, ps, state, prio, support);
      OrderedElsewhere(n.pcb, m.pcb, n.Ready(), p);
      PatientInsert(n, n, m, p, q);
    }
  }

  lemma CreatedReady(n: Nuc, ps: PState, state: PState, prio: int, support: int)
    requires n.current.Some? && n.Free() != []
    ensures
      var p, m := n.Free()[0], CreateProcess(n, ps, state, prio, support);
      && m.Ready() == InsertProcQ(m.pcb, n.Ready(), p)
      && forall x: Idx :: x != p ==> m.pcb[x].prio == n.pcb[x].prio
  {
    var p, m := n.Free()[0], CreateProcess(n, ps, state, prio, support);
    var a := AllocPcb(n).1.pcb[p := BLANKPCB.(pid := n.nextPid, ps := state, prio := prio, support := support)];
    InsertPosFrame(a, m.pcb, n.Ready(), prio);
  }

  lemma OrderedElsewhere(a: PcbTable, b: PcbTable, s: seq<Idx>, p: Idx)
    requires Ordered(a, s) && p !in s && forall q: Idx :: q != p ==> b[q].prio == a[q].prio
    ensures Ordered(b, s)
  {
    forall i | 0 <= i < |s| ensures b[s[i]].prio == a[s[i]].prio {
      assert s[i] in s;
    }
  }

  /** m has the ready queue of n with, possibly, the process a V has woken inserted. */
  lemma GrownTurn(n: Nuc, m: Nuc, q: Idx)
    requires Inv(n) && q in n.Ready() && Grown(n.pcb, n.Ready(), m.Ready())
    requires forall x: Idx :: m.pcb[x].prio == n.pcb[x].prio
    ensures Turn(n, m, q, false)
  {
    ReadyFacts(n);
    PatientSame(n, n, q);
    if m.Ready() == n.Ready() {
      PatientSame(n, m, q);
    } else {
      var p: Idx :| p !in n.Ready() && m.Ready() == InsertProcQ(n.pcb, n.Ready(), p);
      InsertPosFrame(n.pcb, m.pcb, n.Ready(), n.pcb[p].prio);
      OrderedSame(n.pcb, m.pcb, n.Ready());
      PatientInsert(n, n, m, p, q);
    }
  }

  lemma VGrows(n: Nuc, k: int)
    requires Inv(n)
    ensures Grown(n.pcb, n.Ready(), VOnSem(n, k).1.Ready())
    ensures forall x: Idx :: VOnSem(n, k).1.pcb[x].prio == n.pcb[x].prio
  {
    if n.Desc(k).Some? {
      HeadWaits(n, k, Held(n));
      var w := n.Queue(n.Desc(k).value)[0];
      NotReady(n, w, Roots(n), Held(n));
      var r := RemoveBlocked(n, k).1;
      InsertPosFrame(n.pcb, r.pcb, n.Ready(), n.pcb[w].prio);
      assert VOnSem(n, k).1.Ready() == InsertProcQ(n.pcb, n.Ready(), w);
    }
  }

  lemma InterruptTurn(n: Nuc, ps: PState, k: int, status: int, t1: int, t2: int, q: Idx)
    requires Inv(n) && n.current.Some? && q in n.Ready()
    ensures Turn(n, DeviceDone(n, ps, k, status, t1, t2), q, false)
  {
    var a := ChargeCurrent(n, t1);
    ChargeCurrentKeeps(n, t1);
    AnsweredTurn(a, ps, k, status, t2, q);
    TurnFrame(n, a, DeviceDone(n, ps, k, status, t1, t2), q);
  }

  lemma AnsweredTurn(a: Nuc, ps: PState, k: int, status: int, t2: int, q: Idx)
    requires Inv(a) && a.current.Some? && q in a.Ready()
    ensures Turn(a, Resume(Answer(a, k, status), ps, t2), q, false)
  {
    VGrows(a, k);
    VFrame(a, k);
    var m := Resume(Answer(a, k, status), ps, t2);
    assert m.Ready() == VOnSem(a, k).1.Ready();
    GrownTurn(a, m, q);
  }

  lemma TurnFrame(n: Nuc, a: Nuc, m: Nuc, q: Idx)
    requires a.Ready() == n.Ready() && Turn(a, m, q, false)
    ensures Turn(n, m, q, false)
  {
    if m.current != Some(q) {
      forall x: Idx | Before(m.Ready(), x, q) ensures Rightly(n, m, x, q) {
        assert Rightly(a, m, x, q);
      }
    }
  }

  lemma {:induction false} InsertAllBefore(pcb: PcbTable, s: seq<Idx>, ws: seq<Idx>, q: Idx)
    requires q in s && NoDup(s) && Ordered(pcb, s) && NoDup(ws) && forall w :: w in ws ==> w !in s
    ensures q in InsertAll(pcb, s, ws)
    ensures forall x: Idx :: Before(InsertAll(pcb, s, ws), x, q) ==>
              Before(s, x, q) || (x in ws && pcb[x].prio > pcb[q].prio)
    decreases |ws|
  {
    if ws != [] {
      var p := ws[0];
      HeadIsMember(ws);
      var r := InsertProcQ(pcb, s, p);
      var k := InsertPos(pcb, s, pcb[p].prio);
      InsertAtMembers(s, k, p);
      InsertAtNoDup(s, k, p);
      InsertOrdered(pcb, s, p);
      assert forall w :: w in ws[1..] ==> w in ws && w != p;
      InsertAllBefore(pcb, r, ws[1..], q);
      forall x: Idx | Before(InsertAll(pcb, s, ws), x, q)
        ensures Before(s, x, q) || (x in ws && pcb[x].prio > pcb[q].prio)
      {
        if Before(r, x, q) {
          InsertBefore(pcb, s, p, x, q);
        }
      }
    }
  }

  lemma {:induction false} ReleasedPrio(pcb: PcbTable, ws: seq<Idx>, x: Idx)
    ensures Released(pcb, ws)[x].prio == pcb[x].prio
    decreases |ws|
  {
    if ws != [] {
      ReleasedPrio(pcb[ws[0] := pcb[ws[0]].(semAdd := None)], ws[1..], x);
    }
  }

  lemma ClockWaitersApart(n: Nuc, d: Idx)
    requires Inv(n) && n.Desc(PSEUDOCLOCK) == Some(d)
    ensures NoDup(n.Queue(d)) && forall w :: w in n.Queue(d) ==> w !in n.Ready()
  {
    forall w | w in n.Queue(d) ensures w !in n.Ready() {
      assert w in n.plist[QUEUE(d)];
    }
  }

  lemma WakePatient(n: Nuc, m: Nuc, q: Idx)
    requires Inv(n) && q in n.Ready() && m == WakeClock(n)
    ensures Patient(n, m, q)
  {
    ReadyFacts(n);
    PatientSame(n, n, q);
    if n.Desc(PSEUDOCLOCK).Some? {
      var ws := n.Queue(n.Desc(PSEUDOCLOCK).value);
      ClockWaitersApart(n, n.Desc(PSEUDOCLOCK).value);
      InsertAllBefore(n.pcb, n.Ready(), ws, q);
      forall x: Idx | Before(m.Ready(), x, q) ensures Rightly(n, m, x, q) {
        ReleasedPrio(n.pcb, ws, x);
        ReleasedPrio(n.pcb, ws, q);
      }
    }
  }

  lemma TickTurn(n: Nuc, ps: PState, t1: int, t2: int, q: Idx)
    requires Inv(n) && n.current.Some? && q in n.Ready()
    ensures Turn(n, ClockTick(n, ps, t1, t2), q, false)
  {
    var a := ChargeCurrent(n, t1);
    ChargeCurrentKeeps(n, t1);
    WakePatient(a, WakeClock(a), q);
    WakeClockFrame(a);
    var m := ClockTick(n, ps, t1, t2);
    forall x: Idx | Before(m.Ready(), x, q) ensures Rightly(n, m, x, q) {
      assert Rightly(a, WakeClock(a), x, q);
    }
  }

  lemma SameTurn(n: Nuc, e: Event, q: Idx)
    requires Enabled(n, e) && q in n.Ready() && !Dispatches(n, e)
    requires e.P? || e.CpuTime? || e.SupportData? || e.ProcessId? || e.Trap?
    ensures Turn(n, Step(n, e), q, false)
  {
    PatientSame(n, Step(n, e), q);
  }

  lemma WaitTurn(n: Nuc, e: Event, q: Idx)
    requires Inv(n) && Enabled(n, e) && Dispatches(n, e) && q in n.Ready() && (e.P? || e.DoIO? || e.WaitClock?)
    ensures Turn(n, Step(n, e), q, true)
  {
    ReadyFacts(n);
    match e
    case P(ps, k, t1, t2) => BlockTurn(n, k, ps, t1, t2, q);
    case DoIO(ps, port, t1, t2) => PortsPair(port); BlockTurn(n, InterruptKey(port), ps, t1, t2, q);
    case WaitClock(ps, t1, t2) => BlockTurn(n, PSEUDOCLOCK, ps, t1, t2, q);
  }

  lemma WakeTurn(n: Nuc, e: Event, q: Idx)
    requires Inv(n) && Enabled(n, e) && q in n.Ready() && (e.V? || IsInterrupt(e))
    ensures Turn(n, Step(n, e), q, false)
  {
    ReadyFacts(n);
    match e
    case V(ps, k) => VGrows(n, k); GrownTurn(n, Verhogen(n, ps, k), q);
    case Interrupt(ps, signal, t1, t2) =>
      InterruptTurn(n, ps, InterruptKey(signal.Source()), signal.Answer(), t1, t2, q);
    case Tick(ps, t1, t2) => TickTurn(n, ps, t1, t2, q);
  }

  lemma PreemptTurn(n: Nuc, e: Event, q: Idx)
    requires Inv(n) && Enabled(n, e) && q in n.Ready() && (e.YieldCpu? || e.Slice?)
    ensures Turn(n, Step(n, e), q, true)
  {
    ReadyFacts(n);
    match e
    case YieldCpu(ps, t1, t2) => YieldTurn(n, ps, t1, t2, q);
    case Slice(ps, t1, t2) => PatientSame(n, n, q); SliceTurn(n, n, n.current.value, ps, t1, t2, q);
  }

  /** The ready queue is a stable priority queue: nobody is overtaken by an equal, whatever happens. */
  lemma StepTurn(n: Nuc, e: Event, q: Idx)
    requires Inv(n) && Enabled(n, e) && q in n.Ready() && q !in Step(n, e).Free()
    ensures Turn(n, Step(n, e), q, Dispatches(n, e))
  {
    if e.V? || IsInterrupt(e) {
      ReadyFacts(n);
      WakeTurn(n, e, q);
    } else if e.Create? {
      CreateTurn(n, e.ps, e.state, e.prio, e.support, q);
    } else if !Dispatches(n, e) {
      SameTurn(n, e, q);
    } else if e.Terminate? {
      TerminateTurn(n, e.ps, e.pid, e.t1, e.t2, q);
    } else if e.Trap? {
      DieTurn(n, e.t2, q);
    } else if e.YieldCpu? || e.Slice? {
      PreemptTurn(n, e, q);
    } else {
      WaitTurn(n, e, q);
    }
  }

  // ---- runs ----

  /** Somebody of strictly higher priority than q, not ready before, becomes ready or is dispatched. */
  ghost predicate Intrusion(n: Nuc, e: Event, m: Nuc, q: Idx)
    requires Enabled(n, e)
  {
    exists x: Idx :: x !in n.Ready() && m.pcb[x].prio > m.pcb[q].prio
                     && (x in m.Ready() || (Dispatches(n, e) && m.current == Some(x)))
  }

  lemma StepAhead(n: Nuc, e: Event, q: Idx)
    requires Inv(n) && Enabled(n, e) && q in n.Ready() && q !in Step(n, e).Free() && !Intrusion(n, e, Step(n, e), q)
    ensures
      var m := Step(n, e);
      m.current == Some(q) || (q in m.Ready() &&
        if Dispatches(n, e) then Ahead(m, q) < Ahead(n, q) else Ahead(m, q) <= Ahead(n, q))
  {
    var m := Step(n, e);
    StepTurn(n, e, q);
    StepKeeps(n, e);
    ReadyFacts(m);
    if m.current != Some(q) {
      forall x: Idx | Before(m.Ready(), x, q) ensures Before(n.Ready(), x, q) {
        assert Rightly(n, m, x, q) && x in m.Ready();
      }
      if Dispatches(n, e) {
        var h := m.current.value;
        assert h in Ahead(n, q) && h !in Ahead(m, q);
      }
    }
  }

  lemma Smaller<T>(a: set<T>, b: set<T>)
    requires a <= b
    ensures |a| <= |b| && (a != b ==> |a| < |b|)
  {
    assert b == a + (b - a);
    assert a != b ==> b - a != {};
  }

  /** The number of scheduler calls among events i to j - 1. */
  ghost function Calls(ss: seq<Nuc>, es: seq<Event>, i: nat, j: nat): nat
    requires Run(ss, es) && i <= j <= |es|
    decreases j
  {
    if i == j then 0
    else
      assert Stepped(ss, es, j - 1);
      Calls(ss, es, i, j - 1) + if Dispatches(ss[j - 1], es[j - 1]) then 1 else 0
  }

  /** q lives and nobody of higher priority intrudes during events i to j - 1. */
  ghost predicate Unintruded(ss: seq<Nuc>, es: seq<Event>, i: nat, j: nat, q: Idx)
    requires Run(ss, es) && i <= j <= |es|
  {
    forall m :: i <= m < j ==> Undisturbed(ss, es, m, q)
  }

  ghost predicate Undisturbed(ss: seq<Nuc>, es: seq<Event>, m: nat, q: Idx)
    requires Run(ss, es) && m < |es|
  {
    assert Stepped(ss, es, m);
    q !in ss[m + 1].Free() && !Intrusion(ss[m], es[m], ss[m + 1], q)
  }

  lemma RunAhead(ss: seq<Nuc>, es: seq<Event>, j: nat, q: Idx)
    requires Run(ss, es) && j < |es| && q in ss[j].Ready() && Undisturbed(ss, es, j, q)
    ensures Enabled(ss[j], es[j])
    ensures ss[j + 1].current == Some(q)
         || (q in ss[j + 1].Ready() &&
             |Ahead(ss[j + 1], q)| + (if Dispatches(ss[j], es[j]) then 1 else 0) <= |Ahead(ss[j], q)|)
  {
    assert Stepped(ss, es, j);
    RunInv(ss, es, j);
    StepAhead(ss[j], es[j], q);
    if ss[j + 1].current != Some(q) {
      Smaller(Ahead(ss[j + 1], q), Ahead(ss[j], q));
    }
  }

  lemma {:induction false} Waits(ss: seq<Nuc>, es: seq<Event>, i: nat, j: nat, q: Idx)
    requires Run(ss, es) && i <= j <= |es| && q in ss[i].Ready() && Unintruded(ss, es, i, j, q)
    ensures (exists m :: i < m <= j && ss[m].current == Some(q))
         || (q in ss[j].Ready() && |Ahead(ss[j], q)| + Calls(ss, es, i, j) <= |Ahead(ss[i], q)|)
    decreases j
  {
    if i < j {
      Waits(ss, es, i, j - 1, q);
      if q in ss[j - 1].Ready() {
        assert Undisturbed(ss, es, j - 1, q);
        RunAhead(ss, es, j - 1, q);
      }
    }
  }

  /** Bounded waiting: a ready process with k processes ahead of it is dispatched by the k+1st scheduler call,
      as long as it lives and nobody of strictly higher priority intrudes. */
  lemma BoundedWait(ss: seq<Nuc>, es: seq<Event>, i: nat, j: nat, q: Idx)
    requires Run(ss, es) && i <= j <= |es| && q in ss[i].Ready() && Unintruded(ss, es, i, j, q)
    requires Calls(ss, es, i, j) > |Ahead(ss[i], q)|
    ensures exists m :: i < m <= j && ss[m].current == Some(q)
  {
    Waits(ss, es, i, j, q);
  }

  /** The number of processes ahead of q is its position in the queue. */
  lemma {:induction false} AheadCount(s: seq<Idx>, q: Idx)
    requires NoDup(s) && q in s
    ensures |set x: Idx | 0 <= x < MAXPROC && Before(s, x, q)| == IndexOf(s, q)
  {
    var k := IndexOf(s, q);
    var a := set x: Idx | 0 <= x < MAXPROC && Before(s, x, q);
    PrefixCount(s, k);
    assert a == Members(s[..k]) by {
      forall x: Idx ensures Before(s, x, q) <==> x in s[..k] {
        if x in s[..k] {
          var i :| 0 <= i < k && s[..k][i] == x;
          assert s[i] == x && s[k] == q;
        }
        if Before(s, x, q) {
          var i, j :| 0 <= i < j < |s| && s[i] == x && s[j] == q;
          assert j == k && s[..k][i] == x;
        }
      }
    }
  }
}
