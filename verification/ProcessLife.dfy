/** Creation and termination of processes keep the invariant; whom a termination ends. */
module ProcessLife {
  import opened Lists
  import opened ListX
  import opened Nucleus
  import opened Invariant
  import opened Termination
  import opened Soundness

  // ---- the process tree ----

  /** Every live process descends from an orphan. */
  lemma {:induction false} Ancestor(n: Nuc, p: Idx, orphans: set<Idx>) returns (a: Idx)
    requires Tree(n.pcb, n.psib, n.Free(), n.nextPid, orphans) && p !in n.Free()
    ensures a in orphans && Under(n.pcb, a, p)
    decreases n.pcb[p].pid
  {
    if n.pcb[p].parent.None? {
      a := p;
    } else {
      a := Ancestor(n, n.pcb[p].parent.value, orphans);
    }
  }

  /** While any process lives, the root does, and everybody descends from it. */
  lemma RootOfAll(n: Nuc, p: Idx, out: set<Idx>)
    requires Core(n, Roots(n), out) && p !in n.Free()
    ensures n.root !in n.Free() && Descends(n.pcb) && Under(n.pcb, n.root, p)
  {
    var a := Ancestor(n, p, Roots(n));
  }

  lemma SetupKeeps(n: Nuc, p: Idx, state: PState, prio: int, support: int, orphans: set<Idx>, out: set<Idx>)
    requires Core(n, orphans, out) && p in out
    ensures Core(n.SetPcb(p, n.pcb[p].(ps := state, prio := prio, support := support)), orphans, out)
  {
    var b := n.pcb[p].(ps := state, prio := prio, support := support);
    TreeFrame(n, n.pcb[p := b], orphans);
    PlacesFrame(n, n.pcb[p := b], out);
    assert p !in n.plist[READY];
    OrderedFrame(n.pcb, n.Ready(), p, b);
  }

  lemma CreateCore(n: Nuc, c: Idx, state: PState, prio: int, support: int, orphans: set<Idx>, out: set<Idx>)
    requires Core(n, orphans, out) && n.Free() != [] && c !in n.Free() && AllocPcb(n).0.Some?
    ensures
      var (r, m) := AllocPcb(n);
      var a := m.SetPcb(r.value, m.pcb[r.value].(ps := state, prio := prio, support := support));
      Core(InsertChild(MakeReady(a, r.value), c, r.value), orphans, out)
  {
    var (r, m) := AllocPcb(n);
    var p := r.value;
    AllocKeeps(n, orphans, out);
    SetupKeeps(m, p, state, prio, support, orphans + {p}, out + {p});
    var a := m.SetPcb(p, m.pcb[p].(ps := state, prio := prio, support := support));
    MakeReadyKeeps(a, p, orphans + {p}, out + {p});
    InPlaceOf(n, p, orphans, out);
    OlderThanNew(n, c, p, orphans);
    InsertChildKeeps(MakeReady(a, p), c, p, orphans + {p}, out);
  }

  lemma InPlaceOf(n: Nuc, p: Idx, orphans: set<Idx>, out: set<Idx>)
    requires Core(n, orphans, out) && p in n.Free()
    ensures out + {p} - {p} == out && orphans + {p} - {p} == orphans
  {
    assert p in n.plist[FREE];
  }

  lemma OlderThanNew(n: Nuc, c: Idx, p: Idx, orphans: set<Idx>)
    requires Tree(n.pcb, n.psib, n.Free(), n.nextPid, orphans) && c !in n.Free()
    ensures n.pcb[c].pid < n.nextPid
  {
  }

  /** The processes left when one is taken from the free list. */
  lemma OneLives(n: Nuc, m: Nuc)
    requires NoDup(n.Free()) && n.Free() != [] && m.Free() == n.Free()[1..]
    ensures Live(m) == Live(n) + {n.Free()[0]} && |Live(m)| == |Live(n)| + 1
  {
    HeadIsMember(n.Free());
    RemoveAtMembers(n.Free(), 0);
    assert RemoveAt(n.Free(), 0) == n.Free()[1..];
    assert n.Free()[0] !in Live(n);
  }

  lemma CreateCounts(n: Nuc, ps: PState, state: PState, prio: int, support: int, orphans: set<Idx>, out: set<Idx>)
    requires Core(n, orphans, out) && n.current.Some? && n.Free() != []
    ensures
      var m := CreateProcess(n, ps, state, prio, support);
      && ProcessGap(m) == ProcessGap(n) && SoftGap(m) == SoftGap(n)
      && m.sem == n.sem && m.root == n.root && m.current == n.current && m.mode == n.mode
      && m.Free() == n.Free()[1..] && n.pcb[n.Free()[0]].semAdd.None?
  {
    var m := CreateProcess(n, ps, state, prio, support);
    HeadIsMember(n.Free());
    OneLives(n, m);
    SameBlocked(n, m);
  }

  lemma SameBlocked(n: Nuc, m: Nuc)
    requires forall q: Idx :: m.pcb[q].semAdd == n.pcb[q].semAdd
    ensures DeviceBlocked(m) == DeviceBlocked(n)
  {
  }

  lemma CreateKeeps(n: Nuc, ps: PState, state: PState, prio: int, support: int)
    requires Inv(n) && n.current.Some?
    ensures Inv(CreateProcess(n, ps, state, prio, support))
  {
    var m := CreateProcess(n, ps, state, prio, support);
    if n.Free() == [] {
      SimilarKeeps(n, m, Held(n));
    } else {
      var c := n.current.value;
      RootOfAll(n, c, Held(n));
      CreateCore(n, c, state, prio, support, Roots(n), Held(n));
      CreateCounts(n, ps, state, prio, support, Roots(n), Held(n));
      var (r, a) := AllocPcb(n);
      var b := a.SetPcb(r.value, a.pcb[r.value].(ps := state, prio := prio, support := support));
      CoreFrame(InsertChild(MakeReady(b, r.value), c, r.value), m, Roots(n), Held(n));
      CreatedPlace(n, m);
    }
  }

  lemma CreatedPlace(n: Nuc, m: Nuc)
    requires m.root == n.root && m.current == n.current && n.Free() != [] && m.Free() == n.Free()[1..]
    requires n.root !in n.Free() && n.current.Some? && n.current.value !in n.Free()
    ensures Roots(m) == Roots(n) && Held(m) == Held(n) && m.current.value !in m.Free()
  {
    assert n.Free() == [n.Free()[0]] + m.Free();
  }

  // ---- termination ----

  lemma OutChildCounts(n: Nuc, t: Idx)
    ensures
      var m := OutChild(n, t);
      && ProcessGap(m) == ProcessGap(n) && SoftGap(m) == SoftGap(n) && Held(m) == Held(n) && Roots(m) == Roots(n)
      && m.sem == n.sem && m.current == n.current && m.mode == n.mode && m.Free() == n.Free()
      && m.processCount == n.processCount
  {
    assert Live(OutChild(n, t)) == Live(n);
    assert DeviceBlocked(OutChild(n, t)) == DeviceBlocked(n);
  }

  /** Cutting t out of the tree does not change who descends from it. */
  lemma {:induction false} OutChildUnder(n: Nuc, t: Idx, p: Idx)
    requires Descends(n.pcb) && Descends(OutChild(n, t).pcb)
    ensures Under(OutChild(n, t).pcb, t, p) <==> Under(n.pcb, t, p)
    decreases n.pcb[p].pid
  {
    if p != t && n.pcb[p].parent.Some? {
      OutChildUnder(n, t, n.pcb[p].parent.value);
    }
  }

  lemma RootUnder(n: Nuc, t: Idx, out: set<Idx>)
    requires Core(n, Roots(n), out) && Descends(n.pcb)
    ensures n.root in Family(n, t) ==> n.root == t
  {
  }

  lemma KillDeviceSems(n: Nuc, t: Idx, k: int)
    requires IsDevice(k)
    ensures Kill(n, t).Val(k) == n.Val(k)
  {
  }

  /** Termination performs no V on device semaphores. */
  lemma {:induction false} ChildrenDeviceSems(n: Nuc, t: Idx, k: int)
    requires IsDevice(k)
    ensures KillChildren(n, t).Val(k) == n.Val(k)
    decreases Links(n.psib), 0
  {
    if n.psib[t] != [] {
      TerminationDeviceSems(RemoveChild(n, t), n.psib[t][0], k);
      ChildrenDeviceSems(RecursiveTermination(RemoveChild(n, t), n.psib[t][0]), t, k);
    }
  }

  lemma {:induction false} TerminationDeviceSems(n: Nuc, t: Idx, k: int)
    requires IsDevice(k)
    ensures RecursiveTermination(n, t).Val(k) == n.Val(k)
    decreases Links(n.psib), 1
  {
    ChildrenDeviceSems(n, t, k);
    KillDeviceSems(KillChildren(n, t), t, k);
  }

  /** The subtree of t cut off and terminated: what terminateProcess and passUpOrDie do before rescheduling. */
  function EndSubtree(n: Nuc, t: Idx): Nuc {
    RecursiveTermination(OutChild(n, t), t)
  }

  lemma OutChildFamily(n: Nuc, t: Idx, o: Nuc)
    requires LiveParents(n) && LiveParents(o) && o == OutChild(n, t)
    ensures Family(o, t) == Family(n, t)
  {
    forall p: Idx ensures Under(o.pcb, t, p) <==> Under(n.pcb, t, p) {
      OutChildUnder(n, t, p);
    }
  }

  /** Ending the subtree of a live process frees exactly its descendants and keeps the invariant; the only
      PCB still outside the lists is the running process, if it survived. */
  lemma EndSubtreeExact(n: Nuc, t: Idx)
    requires Inv(n) && t !in n.Free()
    ensures LiveParents(n)
    ensures
      var m := EndSubtree(n, t);
      && Sound(m, Held(n) - Family(n, t)) && Held(m) == Held(n) - Family(n, t)
      && Freed(n, m, Family(n, t))
      && m.current == n.current && m.root == n.root && m.mode == n.mode && m.start == n.start && m.now == n.now
  {
    var o := OutChild(n, t);
    ParentsLive(n, Roots(n), Held(n));
    OutChildKeeps(n, t, Roots(n), Held(n));
    OutChildCounts(n, t);
    RecursiveTerminationExact(o, t, Roots(n) + {t});
    OutChildFamily(n, t, o);
    TerminationDeviceSems(o, t, PSEUDOCLOCK);
    RootUnder(n, t, Held(n));
    WithSelf(n, t);
    EndRoots(n, EndSubtree(n, t), t, Family(n, t));
  }

  lemma EndRoots(n: Nuc, m: Nuc, t: Idx, f: set<Idx>)
    requires Freed(n, m, f) && m.root == n.root && t in f && t !in n.Free() && (n.root in f ==> n.root == t)
    ensures Roots(n) + {t} - {t} == Roots(m)
  {
  }

  lemma TerminateKeeps(n: Nuc, ps: PState, pid: int, t1: int, t2: int)
    requires Inv(n) && n.current.Some?
    ensures Inv(TerminateProcess(n, ps, pid, t1, t2))
  {
    var c := n.current.value;
    var target := if pid == 0 then Some(c) else FindPid(n, pid, 0);
    if target.None? {
      AfterTermination(n, n, c, ps, t1, t2);
    } else {
      EndSubtreeExact(n, target.value);
      AfterTermination(n, EndSubtree(n, target.value), c, ps, t1, t2);
    }
  }

  lemma AfterTermination(n: Nuc, m: Nuc, c: Idx, ps: PState, t1: int, t2: int)
    requires Sound(m, Held(m)) && m.current == Some(c)
    ensures Inv(if c in m.Free() then Scheduler(m.(current := None), t2)
                else Scheduler(MakeReady(SaveState(m, c, ps, t1), c), t2))
  {
    if c in m.Free() {
      SimilarKeeps(m, m.(current := None), {});
      SchedulerKeeps(m.(current := None), t2);
    } else {
      SaveSound(m, c, ps, t1, {c});
      RequeueKeeps(SaveState(m, c, ps, t1), c, t2);
    }
  }

  lemma DieKeeps(n: Nuc, t2: int)
    requires Inv(n) && n.current.Some?
    ensures Inv(Die(n, t2))
  {
    var c := n.current.value;
    EndSubtreeExact(n, c);
    WithSelf(n, c);
    var m := EndSubtree(n, c);
    SimilarKeeps(m, m.(current := None), {});
    SchedulerKeeps(m.(current := None), t2);
  }
}
