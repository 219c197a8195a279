/** The nucleus invariant, and how each primitive of phase 1 moves a PCB without breaking it. */
module Invariant {
  import opened Lists
  import opened ListX
  import opened Nucleus

  /** Children lists and parent fields say the same. */
  ghost predicate Kin(pcb: PcbTable, psib: Families) {
    && (forall c: Idx, h: Idx {:trigger c in psib[h]} :: c in psib[h] <==> pcb[c].parent == Some(h))
    && (forall h: Idx :: NoDup(psib[h]))
  }

  /** Pids of live processes are distinct, every parent is live and older (smaller pid) than its children,
      and the live processes without a parent are exactly those of orphans. */
  ghost predicate Lineage(pcb: PcbTable, free: seq<Idx>, nextPid: int, orphans: set<Idx>) {
    && 1 <= nextPid
    && (forall p: Idx :: p !in free ==> 1 <= pcb[p].pid < nextPid)
    && (forall p: Idx, q: Idx :: p !in free && q !in free && pcb[p].pid == pcb[q].pid ==> p == q)
    && (forall p: Idx :: pcb[p].parent.Some? ==> p !in free && pcb[p].parent.value !in free)
    && Descends(pcb)
    && (forall p: Idx :: p in orphans <==> p !in free && pcb[p].parent.None?)
  }

  ghost predicate Tree(pcb: PcbTable, psib: Families, free: seq<Idx>, nextPid: int, orphans: set<Idx>) {
    Kin(pcb, psib) && Lineage(pcb, free, nextPid, orphans)
  }

  /** Going from a process to its parent lowers the pid, so no chain of parents is infinite. */
  ghost predicate Descends(pcb: PcbTable) {
    forall p: Idx :: pcb[p].parent.Some? ==> 0 <= pcb[pcb[p].parent.value].pid < pcb[p].pid
  }

  /** No PCB is chained twice, and those of out are chained nowhere. */
  ghost predicate Apartness(plist: PLists, out: set<Idx>) {
    && Separate(plist)
    && (forall p: Idx, h {:trigger p in plist[h]} :: 0 <= h < MAXPROC + 2 && p in plist[h] ==> p !in out)
  }

  /** A PCB that waits for nothing is free, ready or held outside the lists; any other is on the queue of
      the active descriptor that its p_semAdd names. With Apartness: every PCB is in exactly one place. */
  ghost predicate Places(pcb: PcbTable, plist: PLists, active: seq<Idx>, skey: KeyTable, out: set<Idx>) {
    && (forall p: Idx :: pcb[p].semAdd.None? <==> p in plist[FREE] || p in plist[READY] || p in out)
    && (forall p: Idx :: pcb[p].semAdd.Some? ==> Queued(plist, active, skey, p, pcb[p].semAdd.value))
    && (forall h, p: Idx {:trigger p in plist[h]} :: 2 <= h < MAXPROC + 2 && p in plist[h] ==>
          h - 2 in active && pcb[p].semAdd == Some(skey[h - 2]))
  }

  ghost predicate Queued(plist: PLists, active: seq<Idx>, skey: KeyTable, p: Idx, k: int) {
    var d := DescOf(skey, active, k);
    d.Some? && p in plist[QUEUE(d.value)]
  }

  /** The ASL: each descriptor is either free or active, active ones have distinct keys and a waiter. */
  ghost predicate Asl(plist: PLists, slink: SLists, skey: KeyTable) {
    && NoDup(slink[SFREE]) && NoDup(slink[ACTIVE])
    && (forall d: Idx :: d in slink[SFREE] <==> d !in slink[ACTIVE])
    && (forall d: Idx, e: Idx :: d in slink[ACTIVE] && e in slink[ACTIVE] && skey[d] == skey[e] ==> d == e)
    && (forall d: Idx :: d in slink[ACTIVE] ==> plist[QUEUE(d)] != [])
  }

  ghost predicate Ordered(pcb: PcbTable, s: seq<Idx>) {
    forall i, j :: 0 <= i < j < |s| ==> pcb[s[i]].prio >= pcb[s[j]].prio
  }

  /** Semaphores are never negative, and one with waiters is 0. */
  ghost predicate Sems(n: Nuc) {
    && (forall k :: k in n.sem ==> n.sem[k] >= 0)
    && (forall d: Idx :: d in n.Active() ==> n.Val(n.skey[d]) == 0)
  }

  ghost predicate Core(n: Nuc, orphans: set<Idx>, out: set<Idx>) {
    && Tree(n.pcb, n.psib, n.Free(), n.nextPid, orphans)
    && Apartness(n.plist, out)
    && Places(n.pcb, n.plist, n.Active(), n.skey, out)
    && Asl(n.plist, n.slink, n.skey)
    && Ordered(n.pcb, n.Ready())
    && Sems(n)
  }

  ghost function Live(n: Nuc): set<Idx> {
    set p: Idx | 0 <= p < MAXPROC && p !in n.Free()
  }

  /** Processes blocked on a device semaphore or on the clock. */
  ghost function DeviceBlocked(n: Nuc): set<Idx> {
    set p: Idx | 0 <= p < MAXPROC && n.pcb[p].semAdd.Some? && IsDevice(n.pcb[p].semAdd.value)
  }

  // ---- ready queue ----

  lemma InsertOrdered(pcb: PcbTable, s: seq<Idx>, p: Idx)
    requires Ordered(pcb, s)
    ensures Ordered(pcb, InsertProcQ(pcb, s, p))
  {
    var i := InsertPos(pcb, s, pcb[p].prio);
    var t := InsertProcQ(pcb, s, p);
    forall a, b | 0 <= a < b < |t| ensures pcb[t[a]].prio >= pcb[t[b]].prio {
      if a == i {
        assert t[b] == s[b - 1] && pcb[s[i]].prio >= pcb[s[b - 1]].prio;
      } else if b == i {
        assert t[a] == s[a];
      } else {
        assert t[a] == s[if a < i then a else a - 1] && t[b] == s[if b < i then b else b - 1];
      }
    }
  }

  lemma EnterApart(q: PLists, h: nat, i: nat, p: Idx, out: set<Idx>)
    requires Apartness(q, out) && p in out && h < MAXPROC + 2 && i <= |q[h]|
    ensures Apartness(q[h := InsertAt(q[h], i, p)], out - {p})
  {
    SeparateInsert(q, h, i, p);
    InsertAtMembers(q[h], i, p);
  }

  lemma LeaveApart(q: PLists, h: nat, p: Idx, out: set<Idx>)
    requires Apartness(q, out) && h < MAXPROC + 2 && p in q[h]
    ensures Apartness(q[h := Without(q[h], p)], out + {p})
  {
    SeparateDelete(q, h, IndexOf(q[h], p));
    WithoutMembers(q[h], p);
  }

  lemma MakeReadyPlaces(n: Nuc, p: Idx, i: nat, out: set<Idx>)
    requires Places(n.pcb, n.plist, n.Active(), n.skey, out) && p in out && i <= |n.Ready()|
    ensures Places(n.pcb, n.plist[READY := InsertAt(n.Ready(), i, p)], n.Active(), n.skey, out - {p})
  {
    InsertAtMembers(n.Ready(), i, p);
    var plist := n.plist[READY := InsertAt(n.Ready(), i, p)];
    forall q: Idx | n.pcb[q].semAdd.Some?
      ensures Queued(plist, n.Active(), n.skey, q, n.pcb[q].semAdd.value)
    {
      assert Queued(n.plist, n.Active(), n.skey, q, n.pcb[q].semAdd.value);
    }
  }

  lemma MakeReadyKeeps(n: Nuc, p: Idx, orphans: set<Idx>, out: set<Idx>)
    requires Core(n, orphans, out) && p in out
    ensures Core(MakeReady(n, p), orphans, out - {p})
  {
    var i := InsertPos(n.pcb, n.Ready(), n.pcb[p].prio);
    EnterApart(n.plist, READY, i, p, out);
    MakeReadyPlaces(n, p, i, out);
    InsertOrdered(n.pcb, n.Ready(), p);
  }

  lemma OutReadyPlaces(n: Nuc, p: Idx, out: set<Idx>)
    requires Places(n.pcb, n.plist, n.Active(), n.skey, out) && NoDup(n.Ready()) && p in n.Ready()
    ensures Places(n.pcb, n.plist[READY := Without(n.Ready(), p)], n.Active(), n.skey, out + {p})
  {
    WithoutMembers(n.Ready(), p);
    var plist := n.plist[READY := Without(n.Ready(), p)];
    forall q: Idx | n.pcb[q].semAdd.Some?
      ensures Queued(plist, n.Active(), n.skey, q, n.pcb[q].semAdd.value)
    {
      assert Queued(n.plist, n.Active(), n.skey, q, n.pcb[q].semAdd.value);
    }
  }

  lemma OrderedDrop(pcb: PcbTable, s: seq<Idx>, t: seq<Idx>, i: nat)
    requires Ordered(pcb, s) && i < |s| == |t| + 1
    requires forall a {:trigger t[a]} :: 0 <= a < |t| ==> t[a] == s[if a < i then a else a + 1]
    ensures Ordered(pcb, t)
  {
  }

  lemma WithoutOrdered(pcb: PcbTable, s: seq<Idx>, p: Idx)
    requires Ordered(pcb, s) && p in s
    ensures Ordered(pcb, Without(s, p))
  {
    OrderedDrop(pcb, s, Without(s, p), IndexOf(s, p));
  }

  lemma OutReadyKeeps(n: Nuc, p: Idx, orphans: set<Idx>, out: set<Idx>)
    requires Core(n, orphans, out) && p in n.Ready()
    ensures Core(OutReady(n, p), orphans, out + {p})
  {
    LeaveApart(n.plist, READY, p, out);
    OutReadyPlaces(n, p, out);
    WithoutOrdered(n.pcb, n.Ready(), p);
  }

  // ---- pool and tree ----

  lemma AllocTree(n: Nuc, p: Idx, orphans: set<Idx>)
    requires Tree(n.pcb, n.psib, n.Free(), n.nextPid, orphans)
    requires n.Free() != [] && p == n.Free()[0] && NoDup(n.Free())
    ensures Tree(n.pcb[p := BLANKPCB.(pid := n.nextPid)], n.psib[p := []], n.Free()[1..], n.nextPid + 1,
                 orphans + {p})
  {
    RemoveAtMembers(n.Free(), 0);
    assert RemoveAt(n.Free(), 0) == n.Free()[1..];
    assert p in n.Free();
  }

  lemma AllocPlaces(n: Nuc, p: Idx, b: Pcb, out: set<Idx>)
    requires Places(n.pcb, n.plist, n.Active(), n.skey, out) && Separate(n.plist)
    requires n.Free() != [] && p == n.Free()[0] && b.semAdd.None?
    ensures Places(n.pcb[p := b], n.plist[FREE := n.Free()[1..]], n.Active(), n.skey, out + {p})
  {
    RemoveAtMembers(n.Free(), 0);
    assert RemoveAt(n.Free(), 0) == n.Free()[1..];
    assert p in n.Free();
    var pcb, plist := n.pcb[p := b], n.plist[FREE := n.Free()[1..]];
    forall q: Idx | pcb[q].semAdd.Some? ensures Queued(plist, n.Active(), n.skey, q, pcb[q].semAdd.value) {
      assert Queued(n.plist, n.Active(), n.skey, q, n.pcb[q].semAdd.value);
    }
  }

  /** Changing a PCB that is not on the ready queue leaves the queue's order alone. */
  lemma OrderedFrame(pcb: PcbTable, s: seq<Idx>, p: Idx, b: Pcb)
    requires Ordered(pcb, s) && (p !in s || b.prio == pcb[p].prio)
    ensures Ordered(pcb[p := b], s)
  {
    forall i | 0 <= i < |s| ensures pcb[p := b][s[i]].prio == pcb[s[i]].prio {
      assert s[i] in s;
    }
  }

  lemma AllocKeeps(n: Nuc, orphans: set<Idx>, out: set<Idx>)
    requires Core(n, orphans, out) && n.Free() != []
    ensures
      var (r, m) := AllocPcb(n);
      && r.Some? && r.value in n.Free() && r.value !in m.Free()
      && Core(m, orphans + {r.value}, out + {r.value})
  {
    var p := n.Free()[0];
    AllocApart(n, p, out);
    AllocCore(n, p, BLANKPCB.(pid := n.nextPid), orphans, out);
  }

  lemma AllocCore(n: Nuc, p: Idx, b: Pcb, orphans: set<Idx>, out: set<Idx>)
    requires Core(n, orphans, out) && n.Free() != [] && p == n.Free()[0] && b == BLANKPCB.(pid := n.nextPid)
    ensures Core(n.(plist := n.plist[FREE := n.Free()[1..]], psib := n.psib[p := []], pcb := n.pcb[p := b],
                    nextPid := n.nextPid + 1), orphans + {p}, out + {p})
  {
    AllocApart(n, p, out);
    AllocTree(n, p, orphans);
    AllocPlaces(n, p, b, out);
    OrderedFrame(n.pcb, n.Ready(), p, b);
  }

  lemma AllocApart(n: Nuc, p: Idx, out: set<Idx>)
    requires Apartness(n.plist, out) && n.Free() != [] && p == n.Free()[0]
    ensures Apartness(n.plist[FREE := n.Free()[1..]], out + {p})
    ensures p in n.Free() && p !in n.Free()[1..] && p !in n.Ready()
  {
    assert p in n.plist[FREE];
    LeaveApart(n.plist, FREE, p, out);
    IndexUnique(n.Free(), 0);
    assert Without(n.Free(), p) == n.Free()[1..];
    WithoutMembers(n.Free(), p);
  }

  lemma FreeTree(n: Nuc, p: Idx, b: Pcb, orphans: set<Idx>)
    requires Tree(n.pcb, n.psib, n.Free(), n.nextPid, orphans)
    requires p in orphans && n.psib[p] == [] && b.parent.None?
    ensures Tree(n.pcb[p := b], n.psib[p := []], n.Free() + [p], n.nextPid, orphans - {p})
  {
    assert n.psib[p := []] == n.psib;
    forall q: Idx ensures n.pcb[q].parent != Some(p) {
      assert q !in n.psib[p];
    }
  }

  lemma FreePlaces(n: Nuc, p: Idx, b: Pcb, out: set<Idx>)
    requires Places(n.pcb, n.plist, n.Active(), n.skey, out) && p in out && b.semAdd.None?
    ensures Places(n.pcb[p := b], n.plist[FREE := n.Free() + [p]], n.Active(), n.skey, out - {p})
  {
    var pcb, plist := n.pcb[p := b], n.plist[FREE := n.Free() + [p]];
    forall q: Idx | pcb[q].semAdd.Some? ensures Queued(plist, n.Active(), n.skey, q, pcb[q].semAdd.value) {
      assert Queued(n.plist, n.Active(), n.skey, q, n.pcb[q].semAdd.value);
    }
  }

  lemma FreeKeeps(n: Nuc, p: Idx, orphans: set<Idx>, out: set<Idx>)
    requires Core(n, orphans, out) && p in out && p in orphans && n.psib[p] == []
    ensures Core(FreePcb(n, p), orphans - {p}, out - {p})
  {
    var b := BLANKPCB.(ps := n.pcb[p].ps);
    EnterApart(n.plist, FREE, |n.Free()|, p, out);
    assert InsertAt(n.Free(), |n.Free()|, p) == n.Free() + [p];
    FreeTree(n, p, b, orphans);
    FreePlaces(n, p, b, out);
    assert p !in n.Ready();
    OrderedFrame(n.pcb, n.Ready(), p, b);
  }

  /** A step that only changes fields the invariant does not mention. */
  lemma PlacesFrame(n: Nuc, pcb: PcbTable, out: set<Idx>)
    requires Places(n.pcb, n.plist, n.Active(), n.skey, out)
    requires forall q: Idx :: pcb[q].semAdd == n.pcb[q].semAdd
    ensures Places(pcb, n.plist, n.Active(), n.skey, out)
  {
  }

  lemma InsertChildTree(n: Nuc, h: Idx, p: Idx, orphans: set<Idx>)
    requires Tree(n.pcb, n.psib, n.Free(), n.nextPid, orphans)
    requires p in orphans && h !in n.Free() && n.pcb[h].pid < n.pcb[p].pid
    ensures var m := InsertChild(n, h, p); Tree(m.pcb, m.psib, m.Free(), m.nextPid, orphans - {p})
  {
    var m := InsertChild(n, h, p);
    InsertChildKin(n.pcb, n.psib, h, p);
    assert Lineage(m.pcb, m.Free(), m.nextPid, orphans - {p});
  }

  lemma InsertChildKin(pcb: PcbTable, psib: Families, h: Idx, p: Idx)
    requires Kin(pcb, psib) && pcb[p].parent.None?
    ensures Kin(pcb[p := pcb[p].(parent := Some(h))], psib[h := psib[h] + [p]])
  {
    assert p !in psib[h];
    InsertAtNoDup(psib[h], |psib[h]|, p);
    assert InsertAt(psib[h], |psib[h]|, p) == psib[h] + [p];
  }

  lemma InsertChildKeeps(n: Nuc, h: Idx, p: Idx, orphans: set<Idx>, out: set<Idx>)
    requires Core(n, orphans, out) && p in orphans && h !in n.Free() && n.pcb[h].pid < n.pcb[p].pid
    ensures Core(InsertChild(n, h, p), orphans - {p}, out)
  {
    InsertChildTree(n, h, p, orphans);
    PlacesFrame(n, InsertChild(n, h, p).pcb, out);
    OrderedFrame(n.pcb, n.Ready(), p, n.pcb[p].(parent := Some(h)));
  }

  lemma OutChildKin(pcb: PcbTable, psib: Families, h: Idx, p: Idx)
    requires Kin(pcb, psib) && pcb[p].parent == Some(h)
    ensures Kin(pcb[p := pcb[p].(parent := None)], psib[h := Without(psib[h], p)])
  {
    WithoutMembers(psib[h], p);
  }

  lemma OutChildTree(n: Nuc, p: Idx, orphans: set<Idx>)
    requires Tree(n.pcb, n.psib, n.Free(), n.nextPid, orphans) && p !in n.Free()
    ensures var m := OutChild(n, p); Tree(m.pcb, m.psib, m.Free(), m.nextPid, orphans + {p})
  {
    var m := OutChild(n, p);
    if n.pcb[p].parent.Some? {
      OutChildKin(n.pcb, n.psib, n.pcb[p].parent.value, p);
    }
    assert Lineage(m.pcb, m.Free(), m.nextPid, orphans + {p});
  }

  lemma OutChildKeeps(n: Nuc, p: Idx, orphans: set<Idx>, out: set<Idx>)
    requires Core(n, orphans, out) && p !in n.Free()
    ensures Core(OutChild(n, p), orphans + {p}, out)
  {
    OutChildTree(n, p, orphans);
    PlacesFrame(n, OutChild(n, p).pcb, out);
    OrderedFrame(n.pcb, n.Ready(), p, n.pcb[p].(parent := None));
  }

  lemma RemoveChildIsOutChild(n: Nuc, t: Idx, orphans: set<Idx>)
    requires Tree(n.pcb, n.psib, n.Free(), n.nextPid, orphans) && n.psib[t] != []
    ensures RemoveChild(n, t) == OutChild(n, n.psib[t][0])
  {
    var s := n.psib[t];
    assert s[0] in s;
    IndexUnique(s, 0);
    assert Without(s, s[0]) == s[1..];
  }

  // ---- semaphore queues ----

  lemma DescIs(skey: KeyTable, s: seq<Idx>, d: Idx)
    requires d in s
    requires forall e: Idx :: e in s && skey[e] == skey[d] ==> e == d
    ensures DescOf(skey, s, skey[d]) == Some(d)
  {
  }

  lemma UnqueuePlaces(n: Nuc, d: Idx, p: Idx, spare: seq<Idx>, out: set<Idx>)
    requires Places(n.pcb, n.plist, n.Active(), n.skey, out) && Separate(n.plist)
    requires Asl(n.plist, n.slink, n.skey) && p in n.Queue(d)
    ensures var m := Unqueue(n, d, p, spare); Places(m.pcb, m.plist, m.Active(), m.skey, out + {p})
  {
    var m := Unqueue(n, d, p, spare);
    WithoutMembers(n.Queue(d), p);
    WithoutMembers(n.Active(), d);
    forall q: Idx | m.pcb[q].semAdd.Some?
      ensures Queued(m.plist, m.Active(), m.skey, q, m.pcb[q].semAdd.value)
    {
      StillQueued(n, d, p, spare, q, out);
    }
  }

  lemma StillQueued(n: Nuc, d: Idx, p: Idx, spare: seq<Idx>, q: Idx, out: set<Idx>)
    requires Places(n.pcb, n.plist, n.Active(), n.skey, out) && Separate(n.plist)
    requires Asl(n.plist, n.slink, n.skey) && p in n.Queue(d) && q != p && n.pcb[q].semAdd.Some?
    ensures var m := Unqueue(n, d, p, spare); Queued(m.plist, m.Active(), m.skey, q, n.pcb[q].semAdd.value)
  {
    var m := Unqueue(n, d, p, spare);
    WithoutMembers(n.Queue(d), p);
    WithoutMembers(n.Active(), d);
    assert Queued(n.plist, n.Active(), n.skey, q, n.pcb[q].semAdd.value);
    DescIs(m.skey, m.Active(), n.Desc(n.pcb[q].semAdd.value).value);
  }

  lemma UnqueueAsl(n: Nuc, d: Idx, p: Idx, spare: seq<Idx>)
    requires Asl(n.plist, n.slink, n.skey) && d in n.Active() && p in n.Queue(d)
    requires spare == n.FreeDescriptors() + [d] || spare == [d] + n.FreeDescriptors()
    ensures var m := Unqueue(n, d, p, spare); Asl(m.plist, m.slink, m.skey)
  {
    WithoutMembers(n.Active(), d);
  }

  lemma TreeFrame(n: Nuc, pcb: PcbTable, orphans: set<Idx>)
    requires Tree(n.pcb, n.psib, n.Free(), n.nextPid, orphans)
    requires forall q: Idx :: pcb[q].parent == n.pcb[q].parent && pcb[q].pid == n.pcb[q].pid
    ensures Tree(pcb, n.psib, n.Free(), n.nextPid, orphans)
  {
  }

  lemma UnqueueKeeps(n: Nuc, d: Idx, p: Idx, spare: seq<Idx>, orphans: set<Idx>, out: set<Idx>)
    requires Core(n, orphans, out) && p in n.Queue(d)
    requires spare == n.FreeDescriptors() + [d] || spare == [d] + n.FreeDescriptors()
    ensures Core(Unqueue(n, d, p, spare), orphans, out + {p})
  {
    LeaveApart(n.plist, QUEUE(d), p, out);
    UnqueuePlaces(n, d, p, spare, out);
    UnqueueAsl(n, d, p, spare);
    var m := Unqueue(n, d, p, spare);
    TreeFrame(n, m.pcb, orphans);
    assert Sems(m) by { WithoutMembers(n.Active(), d); }
    OrderedFrame(n.pcb, n.Ready(), p, n.pcb[p].(semAdd := None));
  }

  // ---- blocking ----

  ghost function Below(i: nat): set<Idx>
    requires i <= MAXPROC
  {
    if i == 0 then {} else Below(i - 1) + {i - 1}
  }

  lemma BelowCount(i: nat)
    requires i <= MAXPROC
    ensures |Below(i)| == i && forall x: Idx :: x in Below(i) <==> x < i
  {
    if i > 0 {
      BelowCount(i - 1);
    }
  }

  /** No MAXPROC pool positions leave room for another one. */
  lemma PoolIsFull(s: set<Idx>, p: Idx)
    requires |s| == MAXPROC
    ensures p in s
  {
    BelowCount(MAXPROC);
    var rest := Below(MAXPROC) - s;
    assert |rest| == |Below(MAXPROC)| - |s|;
    assert p in Below(MAXPROC) && p !in rest;
  }

  /** The first waiter of d waits for the key of d. */
  ghost predicate HasWaiter(n: Nuc, d: Idx) {
    && n.Queue(d) != []
    && n.pcb[n.Queue(d)[0]].semAdd.Some? && n.Desc(n.pcb[n.Queue(d)[0]].semAdd.value) == Some(d)
  }

  /** The first waiters of descriptors 0..i-1. */
  ghost function FirstWaiters(n: Nuc, i: nat): set<Idx>
    requires i <= MAXPROC && forall d: Idx :: HasWaiter(n, d)
  {
    if i == 0 then {}
    else
      assert HasWaiter(n, i - 1);
      FirstWaiters(n, i - 1) + {n.Queue(i - 1)[0]}
  }

  ghost predicate WaitsBelow(n: Nuc, x: Idx, i: nat) {
    n.pcb[x].semAdd.Some? && n.Desc(n.pcb[x].semAdd.value).Some? && n.Desc(n.pcb[x].semAdd.value).value < i
  }

  lemma FirstWaiterOf(n: Nuc, d: Idx, out: set<Idx>)
    requires Places(n.pcb, n.plist, n.Active(), n.skey, out) && Asl(n.plist, n.slink, n.skey)
    requires n.Queue(d) != []
    ensures HasWaiter(n, d)
  {
    assert n.Queue(d)[0] in n.plist[QUEUE(d)];
    DescIs(n.skey, n.Active(), d);
  }

  lemma {:induction false} FirstWaitersCount(n: Nuc, i: nat)
    requires i <= MAXPROC && forall d: Idx :: HasWaiter(n, d)
    ensures |FirstWaiters(n, i)| == i
    ensures forall x :: x in FirstWaiters(n, i) ==> WaitsBelow(n, x, i)
  {
    if i > 0 {
      var d: Idx := i - 1;
      FirstWaitersCount(n, d);
      assert HasWaiter(n, d);
      OneMore(n, FirstWaiters(n, d), n.Queue(d)[0], d);
    }
  }

  lemma OneMore(n: Nuc, s: set<Idx>, x: Idx, d: Idx)
    requires |s| == d && forall y :: y in s ==> WaitsBelow(n, y, d)
    requires n.pcb[x].semAdd.Some? && n.Desc(n.pcb[x].semAdd.value) == Some(d)
    ensures |s + {x}| == d + 1 && forall y :: y in s + {x} ==> WaitsBelow(n, y, d + 1)
  {
    assert !WaitsBelow(n, x, d);
  }

  lemma AllActiveAllWait(n: Nuc, p: Idx, out: set<Idx>)
    requires Places(n.pcb, n.plist, n.Active(), n.skey, out) && Asl(n.plist, n.slink, n.skey)
    requires n.FreeDescriptors() == []
    ensures n.pcb[p].semAdd.Some?
  {
    assert forall d: Idx :: d in n.Active();
    forall d: Idx ensures HasWaiter(n, d) {
      FirstWaiterOf(n, d, out);
    }
    FirstWaitersCount(n, MAXPROC);
    PoolIsFull(FirstWaiters(n, MAXPROC), p);
    assert WaitsBelow(n, p, MAXPROC);
  }

  /** Blocking never runs out of descriptors: were all of them active, their first waiters would be MAXPROC
      different PCBs, so every PCB would be waiting, and p, which is in no list, is not. */
  lemma DescriptorAvailable(n: Nuc, p: Idx, out: set<Idx>)
    requires Places(n.pcb, n.plist, n.Active(), n.skey, out) && Asl(n.plist, n.slink, n.skey) && p in out
    ensures n.FreeDescriptors() != []
  {
    if n.FreeDescriptors() == [] {
      AllActiveAllWait(n, p, out);
    }
  }

  lemma EmptyIfInactive(n: Nuc, d: Idx, out: set<Idx>)
    requires Places(n.pcb, n.plist, n.Active(), n.skey, out) && d !in n.Active()
    ensures n.Queue(d) == []
  {
    HeadIsMember(n.Queue(d));
    forall p: Idx ensures p !in n.Queue(d) {
      assert n.Queue(d) == n.plist[QUEUE(d)];
    }
  }

  lemma BlockPlaces(n: Nuc, k: int, p: Idx, out: set<Idx>)
    requires Places(n.pcb, n.plist, n.Active(), n.skey, out) && Apartness(n.plist, out) && p in out
    requires n.Desc(k).Some?
    ensures var m := InsertBlocked(n, k, p); Places(m.pcb, m.plist, m.Active(), m.skey, out - {p})
  {
    var m := InsertBlocked(n, k, p);
    forall q: Idx | m.pcb[q].semAdd.Some?
      ensures Queued(m.plist, m.Active(), m.skey, q, m.pcb[q].semAdd.value)
    {
      assert q != p ==> Queued(n.plist, n.Active(), n.skey, q, n.pcb[q].semAdd.value);
    }
  }

  lemma DescAppend(skey: KeyTable, s: seq<Idx>, d: Idx, k: int, k': int)
    requires d !in s && DescOf(skey, s, k).None?
    ensures DescOf(skey[d := k], s + [d], k') == if k' == k then Some(d) else DescOf(skey, s, k')
  {
    if s != [] {
      assert (s + [d])[1..] == s[1..] + [d];
      assert s == [s[0]] + s[1..];
      DescAppend(skey, s[1..], d, k, k');
    }
  }

  lemma BlockPlacesNew(n: Nuc, k: int, p: Idx, out: set<Idx>)
    requires Places(n.pcb, n.plist, n.Active(), n.skey, out) && Apartness(n.plist, out) && p in out
    requires Asl(n.plist, n.slink, n.skey) && n.FreeDescriptors() != [] && n.Desc(k).None?
    ensures var m := InsertBlocked(n, k, p); Places(m.pcb, m.plist, m.Active(), m.skey, out - {p})
  {
    var m := InsertBlocked(n, k, p);
    var d := n.FreeDescriptors()[0];
    assert d in n.FreeDescriptors();
    EmptyIfInactive(n, d, out);
    forall q: Idx | m.pcb[q].semAdd.Some?
      ensures Queued(m.plist, m.Active(), m.skey, q, m.pcb[q].semAdd.value)
    {
      DescAppend(n.skey, n.Active(), d, k, m.pcb[q].semAdd.value);
      if q != p {
        assert Queued(n.plist, n.Active(), n.skey, q, n.pcb[q].semAdd.value);
      }
    }
  }

  lemma BlockAsl(n: Nuc, k: int, p: Idx)
    requires Asl(n.plist, n.slink, n.skey) && n.FreeDescriptors() != []
    ensures var m := InsertBlocked(n, k, p); Asl(m.plist, m.slink, m.skey)
  {
    if n.Desc(k).None? {
      var d := n.FreeDescriptors()[0];
      assert d in n.FreeDescriptors();
      InsertAtNoDup(n.Active(), |n.Active()|, d);
      assert InsertAt(n.Active(), |n.Active()|, d) == n.Active() + [d];
      RemoveAtMembers(n.FreeDescriptors(), 0);
      assert RemoveAt(n.FreeDescriptors(), 0) == n.FreeDescriptors()[1..];
    }
  }

  lemma BlockSems(n: Nuc, k: int, p: Idx)
    requires Sems(n) && n.Val(k) == 0
    ensures Sems(InsertBlocked(n, k, p))
  {
  }

  lemma BlockApart(n: Nuc, k: int, p: Idx, out: set<Idx>)
    requires Places(n.pcb, n.plist, n.Active(), n.skey, out) && Apartness(n.plist, out) && p in out
    requires Asl(n.plist, n.slink, n.skey) && n.FreeDescriptors() != []
    ensures Apartness(InsertBlocked(n, k, p).plist, out - {p})
  {
    var d := if n.Desc(k).Some? then n.Desc(k).value else n.FreeDescriptors()[0];
    HeadIsMember(n.FreeDescriptors());
    if n.Desc(k).None? {
      EmptyIfInactive(n, d, out);
    }
    EnterApart(n.plist, QUEUE(d), |n.Queue(d)|, p, out);
    assert InsertAt(n.Queue(d), |n.Queue(d)|, p) == n.Queue(d) + [p];
  }

  lemma BlockKeeps(n: Nuc, k: int, p: Idx, orphans: set<Idx>, out: set<Idx>)
    requires Core(n, orphans, out) && p in out && n.Val(k) == 0
    ensures Core(InsertBlocked(n, k, p), orphans, out - {p})
    ensures InsertBlocked(n, k, p).pcb == n.pcb[p := n.pcb[p].(semAdd := Some(k))]
    ensures InsertBlocked(n, k, p).Free() == n.Free()
  {
    DescriptorAvailable(n, p, out);
    BlockAsl(n, k, p);
    BlockSems(n, k, p);
    BlockApart(n, k, p, out);
    TreeFrame(n, InsertBlocked(n, k, p).pcb, orphans);
    OrderedFrame(n.pcb, n.Ready(), p, n.pcb[p].(semAdd := Some(k)));
    if n.Desc(k).None? {
      BlockPlacesNew(n, k, p, out);
    } else {
      BlockPlaces(n, k, p, out);
    }
  }

  // ---- V ----

  lemma HeadWaits(n: Nuc, k: int, out: set<Idx>)
    requires Places(n.pcb, n.plist, n.Active(), n.skey, out) && Asl(n.plist, n.slink, n.skey) && n.Desc(k).Some?
    ensures
      var q := n.Queue(n.Desc(k).value);
      q != [] && q[0] in q && n.pcb[q[0]].semAdd == Some(k)
  {
    var d := n.Desc(k).value;
    HeadIsMember(n.Queue(d));
    assert n.Queue(d)[0] in n.plist[QUEUE(d)];
  }

  lemma WakeKeeps(n: Nuc, k: int, orphans: set<Idx>, out: set<Idx>)
    requires Core(n, orphans, out) && n.Desc(k).Some?
    ensures
      var d := n.Desc(k).value;
      var (w, m) := VOnSem(n, k);
      && n.Queue(d) != [] && w == Some(n.Queue(d)[0]) && w.value in n.Queue(d)
      && Core(m, orphans, out)
      && m.pcb == n.pcb[w.value := n.pcb[w.value].(semAdd := None)] && m.Free() == n.Free()
      && n.pcb[w.value].semAdd == Some(k) && w.value in m.Ready()
  {
    HeadWaits(n, k, out);
    var d := n.Desc(k).value;
    var p := n.Queue(d)[0];
    var m := Unqueue(n, d, p, n.FreeDescriptors() + [d]);
    assert Core(m, orphans, out + {p}) by { UnqueueKeeps(n, d, p, n.FreeDescriptors() + [d], orphans, out); }
    assert p !in out;
    assert out + {p} - {p} == out;
    MakeReadyKeeps(m, p, orphans, out + {p});
    InsertAtMembers(m.Ready(), InsertPos(m.pcb, m.Ready(), m.pcb[p].prio), p);
  }

  lemma RaiseKeeps(n: Nuc, k: int, orphans: set<Idx>, out: set<Idx>)
    requires Core(n, orphans, out) && n.Desc(k).None?
    ensures VOnSem(n, k) == (None, n.(sem := n.sem[k := n.Val(k) + 1]))
    ensures Core(VOnSem(n, k).1, orphans, out)
  {
  }

  lemma VOnSemKeeps(n: Nuc, k: int, orphans: set<Idx>, out: set<Idx>)
    requires Core(n, orphans, out)
    ensures Core(VOnSem(n, k).1, orphans, out)
    ensures VOnSem(n, k).1.Free() == n.Free()
  {
    if n.Desc(k).Some? {
      WakeKeeps(n, k, orphans, out);
    } else {
      RaiseKeeps(n, k, orphans, out);
    }
  }
}
