/** The nucleus as it is written: PCBs and descriptors in static pools, chained by intrusive links, and
    globals updated in place. Every method computes the function of Nucleus.dfy that has its name. */
module Kernels {
  import opened Lists
  import opened ListX
  import opened Nucleus
  import opened Devices
  import opened Invariant
  import opened Termination
  import opened Soundness
  import opened ClockTicks
  import opened ProcessLife
  import opened Steps
  import opened Runs

  class Kernel {
    const pList: ListHeap   // p_list of every PCB; heads: pcbFree_h, readyQueue, s_procq of every descriptor
    const pSib: ListHeap    // p_sib of every PCB; heads: p_child of every PCB
    const sLink: ListHeap   // s_link of every descriptor; heads: semdFree_h, semd_h
    var pcb: PcbTable       // the other fields of pcbFree_table
    var sKey: KeyTable      // s_key of semd_table
    var nextPid: int
    var currentProcess: Option<Idx>
    var rootProcess: Idx
    var sem: map<int, int>  // the memory cells used as semaphores
    var processCount: int
    var softBlockCount: int
    var startRunningTime: int
    ghost var now: int      // the last clock value read
    var cpu: PState         // the state last loaded with LDST
    var mode: Mode          // whether the processor runs, waits, or has been stopped

    ghost predicate Valid()
      reads this, pList, pSib, sLink
    {
      && pList != pSib && pList != sLink && pSib != sLink
      && pList.Valid() && |pList.Q| == MAXPROC + 2
      && pSib.Valid() && |pSib.Q| == MAXPROC
      && sLink.Valid() && |sLink.Q| == 2
    }

    ghost function View(): Nuc
      requires Valid()
      reads this, pList, pSib, sLink
    {
      Nuc(pcb, pList.Q, pSib.Q, sLink.Q, sKey, nextPid, currentProcess, rootProcess, sem,
          processCount, softBlockCount, startRunningTime, now, cpu, mode)
    }

    // ---- phase2/initial.c, with initPcbs and initASL ----

    /** initNucleusData. */
    constructor (memory: map<int, int>, skey: KeyTable, t: int)
      ensures Valid() && fresh(pList) && fresh(pSib) && fresh(sLink)
      ensures View() == Blank(memory, skey, t)
    {
      pList := new ListHeap(MAXPROC + 2);
      pSib := new ListHeap(MAXPROC);
      sLink := new ListHeap(2);
      pcb := seq(MAXPROC, _ => BLANKPCB);
      sKey := skey;
      nextPid := 1;
      currentProcess := None;
      rootProcess := 0;
      sem := ClearDevices(memory);
      processCount := 0;
      softBlockCount := 0;
      startRunningTime := t;
      now := t;
      cpu := ZEROSTATE;
      mode := Waiting;
      new;
      assert pSib.Q == seq(MAXPROC, _ => []);
      InitPcbs();
      InitASL();
    }

    method InitPcbs()
      requires Valid() && forall h :: 0 <= h < MAXPROC + 2 ==> pList.Q[h] == []
      modifies pList
      ensures Valid() && pList.Q == [Ascending()] + seq(MAXPROC + 1, _ => [])
    {
      assert pList.Q == [Ascending()[..0]] + seq(MAXPROC + 1, _ => []);
      for i := 0 to MAXPROC
        invariant Valid() && pList.Q == [Ascending()[..i]] + seq(MAXPROC + 1, _ => [])
      {
        assert i !in Ascending()[..i];
        assert forall h :: 1 <= h < MAXPROC + 2 ==> pList.Q[h] == [];
        pList.AddTail(i, FREE);
        assert Ascending()[..i] + [i] == Ascending()[..i + 1];
      }
      assert Ascending()[..MAXPROC] == Ascending();
    }

    method InitASL()
      requires Valid() && sLink.Q == [[], []]
      modifies sLink
      ensures Valid() && sLink.Q == [Descending(), []]
    {
      assert Descending()[MAXPROC..] == [];
      for i := 0 to MAXPROC
        invariant Valid() && sLink.Q == [Descending()[MAXPROC - i..], []]
      {
        assert i !in Descending()[MAXPROC - i..];
        sLink.Add(i, SFREE);
        assert [i as Idx] + Descending()[MAXPROC - i..] == Descending()[MAXPROC - (i + 1)..];
      }
      assert Descending()[0..] == Descending();
    }

    /** initFirstProcess: the first PCB of the pool becomes the root process and goes on the ready queue. */
    method InitFirstProcess(state: PState)
      requires Valid() && View().Free() != [] && !Chained(pSib.Q, View().Free()[0])
      modifies this, pList, pSib
      ensures Valid() && View() == FirstProcess(old(View()), state)
      ensures rootProcess == old(View().Free()[0]) && processCount == old(processCount) + 1
      ensures pcb[rootProcess] == Pcb(None, 0, None, 0, 0, old(nextPid), state)
      ensures old(View().Ready()) == [] ==> View().Ready() == [rootProcess]
    {
      FirstIs(View(), state);
      var firstProcess := AllocPcb();
      SetFirst(firstProcess.value, state);
      MakeReady(firstProcess.value);
    }

    method SetFirst(p: Idx, state: PState)
      requires Valid()
      modifies this
      ensures Valid()
      ensures View() == old(View()).SetPcb(p, old(pcb)[p].(ps := state))
                        .(processCount := old(processCount) + 1, root := p)
    {
      processCount := processCount + 1;
      pcb := pcb[p := pcb[p].(ps := state)];
      rootProcess := p;
    }

    /** main, after the hardware set-up: the kernel starts in a state that satisfies the invariant. */
    static method BootKernel(memory: map<int, int>, skey: KeyTable, state: PState, t: int) returns (kernel: Kernel)
      requires forall k :: k in memory ==> memory[k] >= 0
      ensures fresh(kernel) && kernel.Valid() && fresh({kernel.pList, kernel.pSib, kernel.sLink})
      ensures kernel.View() == Boot(memory, skey, state, t) && Inv(kernel.View())
      ensures kernel.mode == Running && kernel.cpu == state && kernel.currentProcess == Some(kernel.rootProcess)
      ensures kernel.pcb[kernel.rootProcess] == Pcb(None, 0, None, 0, 0, 1, state)
      ensures kernel.processCount == 1 && kernel.softBlockCount == 0 && Live(kernel.View()) == {kernel.rootProcess}
      ensures forall k :: kernel.View().Val(k) == if k in memory && !(0 <= k <= 48) then memory[k] else 0
    {
      kernel := new Kernel(memory, skey, t);
      BlankFree(memory, skey, t);
      kernel.InitFirstProcess(state);
      kernel.Scheduler(t);
      BootInv(memory, skey, state, t);
      forall k ensures kernel.View().Val(k) == if k in memory && !(0 <= k <= 48) then memory[k] else 0 {
        BootState(memory, skey, state, t, k);
      }
      BootState(memory, skey, state, t, 0);
    }

    // ---- phase1/pcb.c ----

    /** insertProcQ: scans for the first PCB of lower priority and links p just before it. */
    method InsertProcQ(h: nat, p: Idx)
      requires Valid() && h < MAXPROC + 2 && !Chained(pList.Q, p)
      modifies pList
      ensures Valid()
      ensures View() == old(View()).(plist := old(pList.Q)[h := Nucleus.InsertProcQ(pcb, old(pList.Q)[h], p)])
    {
      ghost var s, j := pList.Q[h], 0;
      var insertPos := Head(h);
      var iter := pList.next[Head(h)];
      while iter != Head(h)
        invariant 0 <= j <= |s| && iter == At(h, s, j) && insertPos == Head(h)
        invariant forall i :: 0 <= i < j ==> pcb[s[i]].prio >= pcb[p].prio
        decreases |s| - j
      {
        assert Elem(s[j]) in pList.next;
        if pcb[iter.e].prio < pcb[p].prio {
          insertPos := iter;
          break;
        }
        iter := pList.next[iter];
        j := j + 1;
      }
      assert j == InsertPos(pcb, s, pcb[p].prio);
      pList.AddBefore(p, insertPos, h, j);
    }

    method RemoveProcQ(h: nat) returns (r: Option<Idx>)
      requires Valid() && h < MAXPROC + 2
      modifies pList
      ensures Valid()
      ensures old(pList.Q)[h] == [] ==> r == None && View() == old(View())
      ensures old(pList.Q)[h] != [] ==>
                && r == Some(old(pList.Q)[h][0])
                && View() == old(View()).(plist := old(pList.Q)[h := old(pList.Q)[h][1..]])
                && !Chained(pList.Q, r.value)
    {
      var removed := pList.RemoveFirst(h);
      r := if removed == Head(h) then None else Some(removed.e);
    }

    /** outProcQ: scans for p and unlinks it. */
    method OutProcQ(h: nat, p: Idx) returns (r: Option<Idx>)
      requires Valid() && h < MAXPROC + 2
      modifies pList
      ensures Valid()
      ensures r == if p in old(pList.Q)[h] then Some(p) else None
      ensures View() == old(View()).(plist := old(pList.Q)[h := Without(old(pList.Q)[h], p)])
    {
      ghost var s, j := pList.Q[h], 0;
      var iter := pList.next[Head(h)];
      while iter != Head(h)
        invariant 0 <= j <= |s| && iter == At(h, s, j) && p !in s[..j]
        decreases |s| - j
      {
        assert Elem(s[j]) in pList.next;
        if iter.e == p {
          pList.Delete(p, h);
          return Some(p);
        }
        iter := pList.next[iter];
        j := j + 1;
      }
      assert s[..j] == s && pList.Q[h := s] == pList.Q;
      r := None;
    }

    /** allocPcb; a PCB on the free list is nobody's child. */
    method AllocPcb() returns (r: Option<Idx>)
      requires Valid() && (pList.Q[FREE] != [] ==> !Chained(pSib.Q, pList.Q[FREE][0]))
      modifies this, pList, pSib
      ensures Valid()
      ensures (r, View()) == Nucleus.AllocPcb(old(View()))
      ensures r.Some? ==> !Chained(pList.Q, r.value)
    {
      r := RemoveProcQ(FREE);
      if r.Some? {
        BlankPcb(r.value);
      }
    }

    /** The part of allocPcb that initialises the PCB. */
    method BlankPcb(p: Idx)
      requires Valid() && !Chained(pSib.Q, p)
      modifies this, pSib
      ensures Valid()
      ensures View() == old(View()).(psib := old(pSib.Q)[p := []], pcb := old(pcb)[p := BLANKPCB.(pid := old(nextPid))],
                                     nextPid := old(nextPid) + 1)
    {
      pcb := pcb[p := pcb[p].(parent := None)];
      pSib.InitHead(p);
      pSib.InitElem(p);
      pcb := pcb[p := pcb[p].(ps := ZEROSTATE, time := 0, semAdd := None, support := 0, prio := 0)];
      pcb := pcb[p := pcb[p].(pid := nextPid)];
      nextPid := nextPid + 1;
    }

    method FreePcb(p: Idx)
      requires Valid() && !Chained(pList.Q, p) && !Chained(pSib.Q, p)
      modifies this, pList, pSib
      ensures Valid() && View() == Nucleus.FreePcb(old(View()), p)
    {
      pcb := pcb[p := pcb[p].(parent := None)];
      pSib.InitHead(p);
      pSib.InitElem(p);
      pcb := pcb[p := pcb[p].(semAdd := None, support := 0, prio := 0, time := 0, pid := 0)];
      pList.AddTail(p, FREE);
    }

    method InsertChild(parent: Idx, p: Idx)
      requires Valid() && !Chained(pSib.Q, p)
      modifies this, pSib
      ensures Valid() && View() == Nucleus.InsertChild(old(View()), parent, p)
    {
      pSib.AddTail(p, parent);
      pcb := pcb[p := pcb[p].(parent := Some(parent))];
    }

    /** removeChild, which finds a child only if there is one. */
    method RemoveChild(p: Idx) returns (r: Option<Idx>)
      requires Valid()
      modifies this, pSib
      ensures Valid()
      ensures old(pSib.Q)[p] == [] ==> r == None && View() == old(View())
      ensures old(pSib.Q)[p] != [] ==>
                r == Some(old(pSib.Q)[p][0]) && View() == Nucleus.RemoveChild(old(View()), p)
    {
      var removed := pSib.RemoveFirst(p);
      if removed == Head(p) {
        return None;
      }
      pcb := pcb[removed.e := pcb[removed.e].(parent := None)];
      r := Some(removed.e);
    }

    method OutChild(p: Idx) returns (r: Option<Idx>)
      requires Valid() && Kin(pcb, pSib.Q)
      modifies this, pSib
      ensures Valid() && View() == Nucleus.OutChild(old(View()), p)
      ensures r == if old(pcb[p].parent).Some? then Some(p) else None
    {
      if pcb[p].parent.None? {
        return None;
      }
      pSib.Delete(p, pcb[p].parent.value);
      pcb := pcb[p := pcb[p].(parent := None)];
      r := Some(p);
    }

    // ---- phase1/asl.c ----

    /** The scan of the ASL that insertBlocked, removeBlocked, outBlocked and headBlocked all start with. */
    method FindDescriptor(k: int) returns (r: Option<Idx>)
      requires Valid()
      ensures r == View().Desc(k)
    {
      ghost var s, j := sLink.Q[ACTIVE], 0;
      var current := sLink.next[Head(ACTIVE)];
      while current != Head(ACTIVE)
        invariant 0 <= j <= |s| && current == At(ACTIVE, s, j) && DescOf(sKey, s[j..], k) == DescOf(sKey, s, k)
        decreases |s| - j
      {
        assert Elem(s[j]) in sLink.next;
        if sKey[current.e] == k {
          return Some(current.e);
        }
        assert s[j..][1..] == s[j + 1..];
        current := sLink.next[current];
        j := j + 1;
      }
      r := None;
    }

    /** insertBlocked; the caller ignores the result, which is 1 when no descriptor is left. */
    method InsertBlocked(k: int, p: Idx) returns (code: int)
      requires Valid() && !Chained(pList.Q, p)
      requires sLink.Q[SFREE] != [] ==> pList.Q[QUEUE(sLink.Q[SFREE][0])] == []
      modifies this, pList, sLink
      ensures Valid() && View() == Nucleus.InsertBlocked(old(View()), k, p)
      ensures code == if old(View().Desc(k)).None? && old(View()).FreeDescriptors() == [] then 1 else 0
    {
      var found := FindDescriptor(k);
      if found.Some? {
        pList.AddTail(p, QUEUE(found.value));
        pcb := pcb[p := pcb[p].(semAdd := Some(k))];
        return 0;
      }
      var none := sLink.Empty(SFREE);
      if none {
        return 1;
      }
      NewDescriptor(k, p);
      code := 0;
    }

    /** The second half of insertBlocked: a free descriptor becomes active with p on its queue. */
    method NewDescriptor(k: int, p: Idx)
      requires Valid() && !Chained(pList.Q, p) && sLink.Q[SFREE] != []
      requires pList.Q[QUEUE(sLink.Q[SFREE][0])] == []
      modifies this, pList, sLink
      ensures Valid()
      ensures
        var n, d := old(View()), old(sLink.Q)[SFREE][0];
        View() == n.(slink := [n.FreeDescriptors()[1..], n.Active() + [d]], skey := n.skey[d := k],
                     plist := n.plist[QUEUE(d) := [p]], pcb := n.pcb[p := n.pcb[p].(semAdd := Some(k))])
    {
      var newSem := sLink.RemoveFirst(SFREE);
      var d := newSem.e;
      sKey := sKey[d := k];
      pList.InitHead(QUEUE(d));
      assert pList.Q == old(pList.Q);
      pList.AddTail(p, QUEUE(d));
      assert [] + [p] == [p];
      pcb := pcb[p := pcb[p].(semAdd := Some(k))];
      sLink.AddTail(d, ACTIVE);
      assert sLink.Q == [old(sLink.Q)[SFREE][1..], old(sLink.Q)[ACTIVE] + [d]];
    }

    /** removeBlocked. */
    method RemoveBlocked(k: int) returns (r: Option<Idx>)
      requires Valid() && Asl(pList.Q, sLink.Q, sKey)
      modifies this, pList, sLink
      ensures Valid() && (r, View()) == Nucleus.RemoveBlocked(old(View()), k)
      ensures r.Some? ==> !Chained(pList.Q, r.value)
    {
      var found := FindDescriptor(k);
      if found.None? {
        return None;
      }
      var d := found.value;
      ghost var q := pList.Q[QUEUE(d)];
      var p := pList.next[Head(QUEUE(d))].e;
      assert p == q[0] && p in q && IndexOf(q, p) == 0;
      pList.Delete(p, QUEUE(d));
      pcb := pcb[p := pcb[p].(semAdd := None)];
      ReleaseIfEmpty(d, false);
      r := Some(p);
    }

    /** outBlocked. */
    method OutBlocked(p: Idx) returns (r: Option<Idx>)
      requires Valid() && Asl(pList.Q, sLink.Q, sKey)
      requires pcb[p].semAdd.Some? && Queued(pList.Q, sLink.Q[ACTIVE], sKey, p, pcb[p].semAdd.value)
      modifies this, pList, sLink
      ensures Valid() && r == Some(p) && View() == Nucleus.OutBlocked(old(View()), p)
      ensures !Chained(pList.Q, p)
    {
      var found := FindDescriptor(pcb[p].semAdd.value);
      var d := found.value;
      pList.Delete(p, QUEUE(d));
      pcb := pcb[p := pcb[p].(semAdd := None)];
      ReleaseIfEmpty(d, true);
      r := Some(p);
    }

    /** A descriptor whose queue became empty goes back to the free list: to its end in removeBlocked, to its
        front in outBlocked. */
    method ReleaseIfEmpty(d: Idx, front: bool)
      requires Valid() && d in sLink.Q[ACTIVE]
      modifies sLink
      ensures Valid()
      ensures sLink.Q ==
              if pList.Q[QUEUE(d)] != [] then old(sLink.Q)
              else [if front then [d] + old(sLink.Q)[SFREE] else old(sLink.Q)[SFREE] + [d],
                    Without(old(sLink.Q)[ACTIVE], d)]
    {
      var empty := pList.Empty(QUEUE(d));
      if empty {
        sLink.Delete(d, ACTIVE);
        if front {
          sLink.Add(d, SFREE);
        } else {
          sLink.AddTail(d, SFREE);
        }
      }
    }

    method HeadBlocked(k: int) returns (r: Option<Idx>)
      requires Valid()
      ensures r == if View().Waiters(k) == [] then None else Some(View().Waiters(k)[0])
    {
      var found := FindDescriptor(k);
      if found.None? {
        return None;
      }
      var empty := pList.Empty(QUEUE(found.value));
      r := if empty then None else Some(pList.next[Head(QUEUE(found.value))].e);
    }

    // ---- phase2/utils.c ----

    method UpdateProcessState(ps: PState, p: Idx, actTime: int)
      requires Valid()
      modifies this
      ensures Valid() && View() == SaveState(old(View()), p, ps, actTime)
    {
      now := actTime;
      pcb := pcb[p := pcb[p].(ps := ps)];
      pcb := pcb[p := pcb[p].(time := pcb[p].time + (actTime - startRunningTime))];
    }

    method MakeReady(p: Idx)
      requires Valid() && !Chained(pList.Q, p)
      modifies pList
      ensures Valid() && View() == Nucleus.MakeReady(old(View()), p)
    {
      InsertProcQ(READY, p);
    }

    function Val(k: int): int
      reads this
    {
      if k in sem then sem[k] else 0
    }

    method VOnSem(k: int) returns (r: Option<Idx>)
      requires Valid() && Asl(pList.Q, sLink.Q, sKey)
      modifies this, pList, sLink
      ensures Valid() && (r, View()) == Nucleus.VOnSem(old(View()), k)
    {
      r := RemoveBlocked(k);
      if r.Some? {
        MakeReady(r.value);
        return;
      }
      sem := sem[k := Val(k) + 1];
    }

    // ---- phase2/scheduler.c ----

    method Scheduler(t: int)
      requires Valid()
      modifies this, pList
      ensures Valid() && View() == Nucleus.Scheduler(old(View()), t)
    {
      var processToRun := RemoveProcQ(READY);
      if processToRun.Some? {
        Dispatch(processToRun.value, t);
      } else {
        Idle(t);
      }
    }

    method Dispatch(p: Idx, t: int)
      requires Valid()
      modifies this
      ensures Valid()
      ensures View() == old(View()).(current := Some(p), start := t, now := t, cpu := pcb[p].ps, mode := Running)
    {
      now := t;
      currentProcess := Some(p);
      startRunningTime := t;
      cpu := pcb[p].ps;  // LDST
      mode := Running;
    }

    /** The three ways in which the scheduler finds nobody to run. */
    method Idle(t: int)
      requires Valid()
      modifies this
      ensures Valid()
      ensures View() == old(View()).(
                now := t,
                mode := if processCount == 0 then Halted
                        else if processCount > 0 && softBlockCount > 0 then Waiting
                        else if processCount > 0 && softBlockCount == 0 then Panicked
                        else old(mode))
    {
      now := t;
      if processCount == 0 {
        mode := Halted;  // HALT
      } else if processCount > 0 && softBlockCount > 0 {
        mode := Waiting;  // WAIT
      } else if processCount > 0 && softBlockCount == 0 {
        mode := Panicked;  // PANIC
      }
    }

    // ---- phase2/exceptions.c: termination ----

    /** searchByPid: depth first through the children lists. */
    method SearchByPid(pid: int, at: Idx, ghost n: Nuc) returns (r: Option<Idx>)
      requires Valid() && n == View() && Searchable(n) && at !in n.Free()
      ensures if r.Some? then r.value in Family(n, at) && n.pcb[r.value].pid == pid else Absent(n, at, pid)
      decreases n.nextPid - n.pcb[at].pid
    {
      if pcb[at].pid == pid {
        return Some(at);
      }
      ghost var s, j := n.psib[at], 0;
      var child := pSib.next[Head(at)];
      while child != Head(at)
        invariant 0 <= j <= |s| && child == At(at, s, j)
        invariant forall i :: 0 <= i < j ==> Absent(n, s[i], pid)
        decreases |s| - j
      {
        assert Elem(s[j]) in pSib.next;
        ChildOf(n, at, s[j]);
        r := SearchByPid(pid, child.e, n);
        if r.Some? {
          FamilyOfChild(n, at, s[j], r.value);
          return;
        }
        child := pSib.next[child];
        j := j + 1;
      }
      AbsentAbove(n, at, pid);
      r := None;
    }

    /** The first half of what recursiveTermination does to t itself. */
    method Detach(t: Idx, ghost orphans: set<Idx>)
      requires Valid() && Core(View(), orphans, Held(View())) && t !in View().Free()
      modifies this, pList, sLink
      ensures Valid() && View() == Nucleus.Detach(old(View()), t)
      ensures !Chained(pList.Q, t)
    {
      ghost var n, out := View(), Held(View());
      if pcb[t].semAdd.Some? {
        DetachBlocked(t, orphans);
      } else if currentProcess != Some(t) {
        var _ := OutProcQ(READY, t);
        NowUnchained(n, t, orphans, out);
      } else {
        OutUnchained(n, t, orphans, out);
      }
    }

    method DetachBlocked(t: Idx, ghost orphans: set<Idx>)
      requires Valid() && Core(View(), orphans, Held(View())) && pcb[t].semAdd.Some?
      modifies this, pList, sLink
      ensures Valid() && View() == Nucleus.Detach(old(View()), t)
      ensures !Chained(pList.Q, t)
    {
      ghost var n, out := View(), Held(View());
      var savedSemAdd := pcb[t].semAdd.value;
      QueuedOn(n, t, orphans, out);
      var _ := OutBlocked(t);
      OutBlockedKeeps(n, t, orphans, out);
      if IsDevice(savedSemAdd) {
        softBlockCount := softBlockCount - 1;
      } else {
        ghost var o := View();
        var _ := VOnSem(savedSemAdd);
        VOnSemKeeps(o, savedSemAdd, orphans, out + {t});
        OutUnchained(View(), t, orphans, out + {t});
      }
    }

    /** The part of recursiveTermination after its loop: t has no children left. */
    method KillOne(t: Idx, ghost orphans: set<Idx>)
      requires Valid() && Core(View(), orphans, Held(View())) && t in orphans && pSib.Q[t] == []
      modifies this, pList, pSib, sLink
      ensures Valid() && View() == Kill(old(View()), t)
    {
      OrphanUnchained(View(), t, orphans, Held(View()));
      Detach(t, orphans);
      processCount := processCount - 1;
      FreePcb(t);
    }

    /** The body of the loop of recursiveTermination: the first child is cut off and ended. */
    method EndFirstChild(t: Idx, ghost orphans: set<Idx>) returns (killed: bool)
      requires Valid() && Core(View(), orphans, Held(View())) && t in orphans && pSib.Q[t] != []
      modifies this, pList, pSib, sLink
      ensures Valid()
      ensures
        var c, a := old(pSib.Q)[t][0], Nucleus.RemoveChild(old(View()), t);
        && View() == Nucleus.RecursiveTermination(a, c) && LiveParents(a)
        && (killed <==> a.current.Some? && a.current.value in Family(a, c))
      decreases Links(pSib.Q), 0
    {
      CutChild(View(), t, orphans);
      var c := RemoveChild(t);
      killed := RecursiveTermination(c.value, orphans + {c.value});
    }

    /** recursiveTermination; the result says whether the running process was among those ended. */
    method RecursiveTermination(t: Idx, ghost orphans: set<Idx>) returns (killed: bool)
      requires Valid() && Core(View(), orphans, Held(View())) && t in orphans
      modifies this, pList, pSib, sLink
      ensures Valid() && View() == Nucleus.RecursiveTermination(old(View()), t)
      ensures LiveParents(old(View()))
      ensures killed <==> old(currentProcess).Some? && old(currentProcess).value in Family(old(View()), t)
      decreases Links(pSib.Q), 1
    {
      ghost var n := View();
      FirstTurn(n, t, orphans);
      var terminatedCurrent := if currentProcess == Some(t) then 1 else 0;
      var leaf := pSib.Empty(t);
      while !leaf
        invariant Valid() && leaf == (pSib.Q[t] == [])
        invariant Turning(n, View(), t, orphans)
        invariant terminatedCurrent >= 0 && (terminatedCurrent > 0 <==> CurrentEnded(n, View(), t))
        decreases Links(pSib.Q)
      {
        Turn(n, View(), t, orphans);
        var k := EndFirstChild(t, orphans);
        terminatedCurrent := terminatedCurrent + if k then 1 else 0;
        leaf := pSib.Empty(t);
      }
      LastTurn(n, View(), t, orphans);
      KillOne(t, orphans);
      killed := terminatedCurrent > 0;
    }

    /** The lookup of terminateProcess: pid 0 is the caller. */
    method Target(pid: int) returns (r: Option<Idx>)
      requires Valid() && Inv(View()) && currentProcess.Some?
      ensures r == if pid == 0 then currentProcess else FindPid(View(), pid, 0)
    {
      if pid == 0 {
        return currentProcess;
      }
      ghost var n := View();
      CoreSearchable(n, Roots(n), Held(n));
      RootOfAll(n, currentProcess.value, Held(n));
      r := SearchByPid(pid, rootProcess, n);
      SearchFinds(n, pid, r);
    }

    /** outChild, then recursiveTermination. */
    method EndSubtree(t: Idx) returns (killed: bool)
      requires Valid() && Inv(View()) && currentProcess.Some? && t !in View().Free()
      modifies this, pList, pSib, sLink
      ensures Valid() && View() == ProcessLife.EndSubtree(old(View()), t)
      ensures Sound(View(), Held(View())) && currentProcess == old(currentProcess)
      ensures killed <==> currentProcess.value in View().Free()
    {
      ghost var n := View();
      OutChildKeeps(n, t, Roots(n), Held(n));
      OutChildCounts(n, t);
      EndSubtreeExact(n, t);
      FlagMeans(n, t);
      var _ := OutChild(t);
      killed := RecursiveTermination(t, Roots(n) + {t});
    }

    method TerminateProcess(ps: PState, pid: int, t1: int, t2: int)
      requires Valid() && Inv(View()) && currentProcess.Some?
      modifies this, pList, pSib, sLink
      ensures Valid() && View() == Nucleus.TerminateProcess(old(View()), ps, pid, t1, t2)
    {
      var terminatedCurrent := false;
      var toTerminate := Target(pid);
      if toTerminate.Some? {
        terminatedCurrent := EndSubtree(toTerminate.value);
      }
      AfterTermination(terminatedCurrent, ps, t1, t2);
    }

    /** The end of terminateProcess: a surviving caller is requeued. */
    method AfterTermination(terminatedCurrent: bool, ps: PState, t1: int, t2: int)
      requires Valid() && currentProcess.Some? && Sound(View(), Held(View()))
      requires terminatedCurrent <==> currentProcess.value in View().Free()
      modifies this, pList
      ensures Valid()
      ensures
        var n, c := old(View()), old(currentProcess).value;
        View() == if c in n.Free() then Nucleus.Scheduler(n.(current := None), t2)
                  else Nucleus.Scheduler(Nucleus.MakeReady(SaveState(n, c, ps, t1), c), t2)
    {
      if !terminatedCurrent {
        HeldUnchained(View(), currentProcess.value);
        Requeue(ps, t1);
      } else {
        currentProcess := None;
      }
      Scheduler(t2);
    }

    /** The running process is saved and put on the ready queue. */
    method Requeue(ps: PState, t: int)
      requires Valid() && currentProcess.Some? && !Chained(pList.Q, currentProcess.value)
      modifies this, pList
      ensures Valid()
      ensures
        var n, c := old(View()), old(currentProcess).value;
        View() == Nucleus.MakeReady(SaveState(n, c, ps, t), c)
    {
      UpdateProcessState(ps, currentProcess.value, t);
      MakeReady(currentProcess.value);
    }

    /** The running process ends with its descendants. */
    method EndCurrent()
      requires Valid() && Inv(View()) && currentProcess.Some?
      modifies this, pList, pSib, sLink
      ensures Valid()
      ensures View() == ProcessLife.EndSubtree(old(View()), old(currentProcess).value).(current := None)
    {
      var _ := EndSubtree(currentProcess.value);
      currentProcess := None;
    }

    /** passUpOrDie without a support structure; with one, the exception is passed up. */
    method PassUpOrDie(t2: int)
      requires Valid() && Inv(View()) && currentProcess.Some?
      modifies this, pList, pSib, sLink
      ensures Valid()
      ensures View() == if old(pcb)[old(currentProcess).value].support == 0 then Die(old(View()), t2)
                        else old(View()).(now := t2)
    {
      if pcb[currentProcess.value].support == 0 {
        EndCurrent();
        Scheduler(t2);
      } else {
        now := t2;
      }
    }

    // ---- phase2/exceptions.c: the other system calls ----

    method CreateProcess(ps: PState, state: PState, prio: int, support: int)
      requires Valid() && Inv(View()) && currentProcess.Some?
      modifies this, pList, pSib
      ensures Valid() && View() == Nucleus.CreateProcess(old(View()), ps, state, prio, support)
    {
      ghost var n := View();
      FreeUnchained(n);
      var newPcb := AllocPcb();
      if newPcb.None? {
        cpu := ps.(a0 := -1);
        return;
      }
      var p := newPcb.value;
      AllocKeeps(n, Roots(n), Held(n));
      OrphanUnchained(View(), p, Roots(n) + {p}, Held(n) + {p});
      Enroll(p, currentProcess.value, state, prio, support);
      cpu := ps.(a0 := pcb[p].pid);
    }

    /** The part of createProcess that fills in the new PCB and links it. */
    method Enroll(p: Idx, parent: Idx, state: PState, prio: int, support: int)
      requires Valid() && !Chained(pList.Q, p) && !Chained(pSib.Q, p)
      modifies this, pList, pSib
      ensures Valid() && View() == Nucleus.Enroll(old(View()), p, parent, state, prio, support)
    {
      SetParameters(p, state, prio, support);
      MakeReady(p);
      InsertChild(parent, p);
      processCount := processCount + 1;
    }

    method SetParameters(p: Idx, state: PState, prio: int, support: int)
      requires Valid()
      modifies this
      ensures Valid()
      ensures View() == old(View()).SetPcb(p, old(pcb)[p].(ps := state, prio := prio, support := support))
    {
      pcb := pcb[p := pcb[p].(ps := state)];
      pcb := pcb[p := pcb[p].(prio := prio)];
      pcb := pcb[p := pcb[p].(support := support)];
    }

    /** pOnSem: whether the caller blocked shows in currentProcess. */
    method POnSem(k: int, ps: PState, t: int)
      requires Valid() && currentProcess.Some? && MayBlock(View())
      modifies this, pList, sLink
      ensures Valid() && View() == Nucleus.POnSem(old(View()), k, ps, t)
    {
      if Val(k) > 0 {
        sem := sem[k := Val(k) - 1];
      } else {
        Block(k, ps, t);
      }
    }

    method Block(k: int, ps: PState, t: int)
      requires Valid() && currentProcess.Some? && MayBlock(View())
      modifies this, pList, sLink
      ensures Valid() && View() == Nucleus.Block(old(View()), k, ps, t)
    {
      UpdateProcessState(ps, currentProcess.value, t);
      var _ := InsertBlocked(k, currentProcess.value);
      currentProcess := None;
    }

    method Passeren(ps: PState, k: int, t1: int, t2: int)
      requires Valid() && Inv(View()) && currentProcess.Some?
      modifies this, pList, sLink
      ensures Valid() && View() == Nucleus.Passeren(old(View()), ps, k, t1, t2)
    {
      InvMayBlock(View());
      POnSem(k, ps, t1);
      if currentProcess == None {
        Scheduler(t2);
      } else {
        cpu := ps;
      }
    }

    method Verhogen(ps: PState, k: int)
      requires Valid() && Inv(View())
      modifies this, pList, sLink
      ensures Valid() && View() == Nucleus.Verhogen(old(View()), ps, k)
    {
      var _ := VOnSem(k);
      cpu := ps;
    }

    method DoIO(ps: PState, commandAddr: nat, t1: int, t2: int)
      requires Valid() && Inv(View()) && currentProcess.Some?
      modifies this, pList, sLink
      ensures Valid()
      ensures View() == Nucleus.DeviceWait(old(View()), MapDeviceSemaphoreByAddr(commandAddr), ps, t1, t2)
    {
      InvMayBlock(View());
      var semaphoreIndex := MapDeviceSemaphoreByAddr(commandAddr);
      DeviceWait(semaphoreIndex, ps, t1, t2);
    }

    method WaitForClock(ps: PState, t1: int, t2: int)
      requires Valid() && Inv(View()) && currentProcess.Some?
      modifies this, pList, sLink
      ensures Valid() && View() == Nucleus.DeviceWait(old(View()), PSEUDOCLOCK, ps, t1, t2)
    {
      InvMayBlock(View());
      DeviceWait(PSEUDOCLOCK, ps, t1, t2);
    }

    /** The common end of doIO and WaitForClock. */
    method DeviceWait(k: int, ps: PState, t1: int, t2: int)
      requires Valid() && currentProcess.Some? && MayBlock(View())
      modifies this, pList, sLink
      ensures Valid() && View() == Nucleus.DeviceWait(old(View()), k, ps, t1, t2)
    {
      PCounted(k, ps, t1);
      Scheduler(t2);
    }

    /** The P of doIO and WaitForClock, counted as a soft block. */
    method PCounted(k: int, ps: PState, t: int)
      requires Valid() && currentProcess.Some? && MayBlock(View())
      modifies this, pList, sLink
      ensures Valid()
      ensures var m := Nucleus.POnSem(old(View()), k, ps, t); View() == m.(softBlockCount := m.softBlockCount + 1)
    {
      POnSem(k, ps, t);
      softBlockCount := softBlockCount + 1;
    }

    method GetCPUTime(ps: PState, currentTime: int)
      requires Valid() && currentProcess.Some?
      modifies this
      ensures Valid() && View() == Nucleus.GetCPUTime(old(View()), ps, currentTime)
    {
      now := currentTime;
      cpu := ps.(a0 := pcb[currentProcess.value].time + (currentTime - startRunningTime));
    }

    method GetSupportData(ps: PState)
      requires Valid() && currentProcess.Some?
      modifies this
      ensures Valid() && View() == Nucleus.GetSupportData(old(View()), ps)
    {
      cpu := ps.(a0 := pcb[currentProcess.value].support);
    }

    method GetProcessID(ps: PState, a1: int)
      requires Valid() && currentProcess.Some?
      modifies this
      ensures Valid() && View() == Nucleus.GetProcessID(old(View()), ps, a1)
    {
      var b := pcb[currentProcess.value];
      if a1 == 0 {
        cpu := ps.(a0 := b.pid);
      } else if b.parent.Some? {
        cpu := ps.(a0 := pcb[b.parent.value].pid);
      } else {
        cpu := ps.(a0 := 0);
      }
    }

    method Yield(ps: PState, t1: int, t2: int)
      requires Valid() && Inv(View()) && currentProcess.Some?
      modifies this, pList
      ensures Valid() && View() == Nucleus.Yield(old(View()), ps, t1, t2)
    {
      HeldUnchained(View(), currentProcess.value);
      UpdateProcessState(ps, currentProcess.value, t1);
      GiveWay(currentProcess.value);
      currentProcess := None;
      Scheduler(t2);
    }

    method GiveWay(c: Idx)
      requires Valid() && !Chained(pList.Q, c)
      modifies pList
      ensures Valid() && View() == Nucleus.GiveWay(old(View()), c)
    {
      var empty := pList.Empty(READY);
      if !empty {
        ghost var q := pList.Q;
        HeadIsMember(q[READY]);
        var nextToRun := RemoveProcQ(READY);
        var next := nextToRun.value;
        ghost var r := pList.Q[READY];
        MakeReady(c);
        InsertAtMembers(r, InsertPos(pcb, r, pcb[c].prio), c);
        pList.Add(next, READY);
      } else {
        MakeReady(c);
      }
    }

    // ---- phase2/interrupts.c ----

    method ProcessorLocalTimer(ps: PState, t1: int, t2: int)
      requires Valid() && Inv(View()) && currentProcess.Some?
      modifies this, pList
      ensures Valid() && View() == LocalTimer(old(View()), ps, t1, t2)
    {
      HeldUnchained(View(), currentProcess.value);
      Requeue(ps, t1);
      currentProcess := None;
      Scheduler(t2);
    }

    method ChargeCurrent(actTime: int)
      requires Valid()
      modifies this
      ensures Valid() && View() == Nucleus.ChargeCurrent(old(View()), actTime)
    {
      if currentProcess.Some? {
        var p := currentProcess.value;
        now := actTime;
        pcb := pcb[p := pcb[p].(time := pcb[p].time + (actTime - startRunningTime))];
      }
    }

    method Resume(ps: PState, t: int)
      requires Valid()
      modifies this, pList
      ensures Valid() && View() == Nucleus.Resume(old(View()), ps, t)
    {
      if currentProcess.Some? {
        startRunningTime := t;
        now := t;
        cpu := ps;
      } else {
        Scheduler(t);
      }
    }

    /** nonTimerInterrupts, for a line on which some device is pending. */
    method NonTimerInterrupts(ps: PState, signal: Signal, t1: int, t2: int)
      requires Valid() && Inv(View()) && signal.Genuine()
      modifies this, pList, sLink
      ensures Valid()
      ensures View() == DeviceDone(old(View()), ps, InterruptKey(signal.Source()), signal.Answer(), t1, t2)
    {
      AslAfterCharge(View(), t1);
      ChargeCurrent(t1);
      SourceExact(signal);
      var semIndex, status := Decode(signal);
      Answer(semIndex, status);
      Resume(ps, t2);
    }

    /** A V that ends a soft block; m is the state right after the V itself. */
    method CountedV(k: int) returns (r: Option<Idx>, ghost m: Nuc)
      requires Valid() && Asl(pList.Q, sLink.Q, sKey)
      modifies this, pList, sLink
      ensures Valid() && (r, m) == Nucleus.VOnSem(old(View()), k)
      ensures View() == if r.Some? then m.(softBlockCount := m.softBlockCount - 1) else m
    {
      r := VOnSem(k);
      m := View();
      if r.Some? {
        EndSoftBlock();
      }
    }

    method EndSoftBlock()
      requires Valid()
      modifies this
      ensures Valid() && View() == old(View()).(softBlockCount := old(softBlockCount) - 1)
    {
      softBlockCount := softBlockCount - 1;
    }

    /** The V of nonTimerInterrupts, and what it does for the process it wakes. */
    method Answer(semIndex: int, status: int)
      requires Valid() && Asl(pList.Q, sLink.Q, sKey)
      modifies this, pList, sLink
      ensures Valid() && View() == Nucleus.Answer(old(View()), semIndex, status)
    {
      var readyProc, _ := CountedV(semIndex);
      if readyProc.Some? {
        SetA0(readyProc.value, status);
      }
    }

    method SetA0(p: Idx, a0: int)
      requires Valid()
      modifies this
      ensures Valid() && View() == old(View()).SetPcb(p, old(pcb)[p].(ps := old(pcb)[p].ps.(a0 := a0)))
    {
      pcb := pcb[p := pcb[p].(ps := pcb[p].ps.(a0 := a0))];
    }

    /** intervalTimer: V on the clock until nobody is woken, then back to 0. */
    method IntervalTimer(ps: PState, t1: int, t2: int)
      requires Valid() && Inv(View())
      modifies this, pList, sLink
      ensures Valid() && View() == ClockTick(old(View()), ps, t1, t2)
    {
      ChargeCurrentKeeps(View(), t1);
      ChargeCurrent(t1);
      WakeAll(Held(View()));
      Resume(ps, t2);
    }

    /** The do-while loop of intervalTimer and the reset that follows it. */
    method WakeAll(ghost out: set<Idx>)
      requires Valid() && Sound(View(), out)
      modifies this, pList, sLink
      ensures Valid()
      ensures var m := WakeClock(old(View())); View() == m.(sem := m.sem[PSEUDOCLOCK := 0])
    {
      ghost var w := WakeClock(View());
      var again := true;
      while again
        invariant Valid()
        invariant again ==> Waking(View(), w, out)
        invariant !again ==> Woken(View(), w)
        decreases again, |View().Waiters(PSEUDOCLOCK)|
      {
        again := WakeNext(w, out);
      }
      WokenAll(View(), w);
      sem := sem[PSEUDOCLOCK := 0];
    }

    /** The body of that loop. */
    method WakeNext(ghost w: Nuc, ghost out: set<Idx>) returns (again: bool)
      requires Valid() && Waking(View(), w, out)
      modifies this, pList, sLink
      ensures Valid()
      ensures again ==> Waking(View(), w, out)
                        && |View().Waiters(PSEUDOCLOCK)| < |old(View()).Waiters(PSEUDOCLOCK)|
      ensures !again ==> Woken(View(), w)
    {
      ClockTurn(View(), w, out);
      var unblocked, _ := CountedV(PSEUDOCLOCK);
      again := unblocked.Some?;
    }

    // ---- exceptionHandler and deviceInterruptHandler ----

    /** syscallExceptionHandler and the traps, for calls that create or end processes. */
    method HandleLife(e: Event)
      requires Valid() && Inv(View()) && Enabled(View(), e) && (e.Create? || e.Terminate? || e.Trap?)
      modifies this, pList, pSib, sLink
      ensures Valid() && View() == Step(old(View()), e)
    {
      match e
      case Create(ps, state, prio, support) => CreateProcess(ps, state, prio, support);
      case Terminate(ps, pid, t1, t2) => TerminateProcess(ps, pid, t1, t2);
      case Trap(t2) => PassUpOrDie(t2);
    }

    method HandleSemaphores(e: Event)
      requires Valid() && Inv(View()) && Enabled(View(), e) && (e.P? || e.V? || e.DoIO? || e.WaitClock?)
      modifies this, pList, sLink
      ensures Valid() && View() == Step(old(View()), e)
    {
      match e
      case P(ps, k, t1, t2) => Passeren(ps, k, t1, t2);
      case V(ps, k) => Verhogen(ps, k);
      case DoIO(ps, port, t1, t2) => DoIO(ps, CommandAddr(port), t1, t2);
      case WaitClock(ps, t1, t2) => WaitForClock(ps, t1, t2);
    }

    method HandleOwn(e: Event)
      requires Valid() && Inv(View()) && Enabled(View(), e)
      requires e.CpuTime? || e.SupportData? || e.ProcessId? || e.YieldCpu?
      modifies this, pList
      ensures Valid() && View() == Step(old(View()), e)
    {
      match e
      case CpuTime(ps, t1) => GetCPUTime(ps, t1);
      case SupportData(ps) => GetSupportData(ps);
      case ProcessId(ps, a1) => GetProcessID(ps, a1);
      case YieldCpu(ps, t1, t2) => Yield(ps, t1, t2);
    }

    /** deviceInterruptHandler. */
    method HandleInterrupt(e: Event)
      requires Valid() && Inv(View()) && Enabled(View(), e) && (e.Slice? || e.Interrupt? || e.Tick?)
      modifies this, pList, sLink
      ensures Valid() && View() == Step(old(View()), e)
    {
      match e
      case Slice(ps, t1, t2) => ProcessorLocalTimer(ps, t1, t2);
      case Interrupt(ps, signal, t1, t2) => NonTimerInterrupts(ps, signal, t1, t2);
      case Tick(ps, t1, t2) => IntervalTimer(ps, t1, t2);
    }

    /** exceptionHandler: every event takes the kernel from one state of the machine of Steps.dfy to the next,
        and leaves behind the invariant that every method relies on. */
    method Handle(e: Event)
      requires Valid() && Inv(View()) && Enabled(View(), e)
      modifies this, pList, pSib, sLink
      ensures Valid() && View() == Step(old(View()), e) && Inv(View())
    {
      StepKeeps(View(), e);
      match e
      case Create(_, _, _, _) => HandleLife(e);
      case Terminate(_, _, _, _) => HandleLife(e);
      case Trap(_) => HandleLife(e);
      case P(_, _, _, _) => HandleSemaphores(e);
      case V(_, _) => HandleSemaphores(e);
      case DoIO(_, _, _, _) => HandleSemaphores(e);
      case WaitClock(_, _, _) => HandleSemaphores(e);
      case Slice(_, _, _) => HandleInterrupt(e);
      case Interrupt(_, _, _, _) => HandleInterrupt(e);
      case Tick(_, _, _) => HandleInterrupt(e);
      case _ => HandleOwn(e);
    }
  }

  // ---- lemmas for the methods ----

  /** What the depth-first search needs of the tree. */
  ghost predicate Searchable(n: Nuc) {
    && LiveParents(n) && Kin(n.pcb, n.psib)
    && forall p: Idx :: (p !in n.Free() ==> n.pcb[p].pid < n.nextPid) && (n.pcb[p].parent.Some? ==> p !in n.Free())
  }

  lemma CoreSearchable(n: Nuc, orphans: set<Idx>, out: set<Idx>)
    requires Core(n, orphans, out)
    ensures Searchable(n)
  {
  }

  lemma ChildOf(n: Nuc, at: Idx, c: Idx)
    requires Searchable(n) && c in n.psib[at]
    ensures c !in n.Free() && n.pcb[c].parent == Some(at) && n.pcb[at].pid < n.pcb[c].pid < n.nextPid
  {
  }

  lemma FamilyOfChild(n: Nuc, at: Idx, c: Idx, p: Idx)
    requires LiveParents(n) && n.pcb[c].parent == Some(at) && p in Family(n, c)
    ensures p in Family(n, at)
  {
    assert Under(n.pcb, at, at);
    UnderTrans(n.pcb, at, c, p);
  }

  /** Nobody in the family of a has this pid. */
  ghost predicate Absent(n: Nuc, a: Idx, pid: int)
    requires LiveParents(n)
  {
    forall p :: p in Family(n, a) ==> n.pcb[p].pid != pid
  }

  lemma AbsentAbove(n: Nuc, at: Idx, pid: int)
    requires Searchable(n) && n.pcb[at].pid != pid
    requires forall c :: c in n.psib[at] ==> Absent(n, c, pid)
    ensures Absent(n, at, pid)
  {
    forall p | p in Family(n, at) ensures n.pcb[p].pid != pid {
      if p != at {
        var c := ThroughChild(n, at, p);
        assert Absent(n, c, pid);
      }
    }
  }

  /** A proper descendant descends from one of the children. */
  lemma ThroughChild(n: Nuc, at: Idx, p: Idx) returns (c: Idx)
    requires Searchable(n) && p in Family(n, at) && p != at
    ensures c in n.psib[at] && p in Family(n, c)
    decreases n.pcb[p].pid
  {
    var q := n.pcb[p].parent.value;
    if q == at {
      c := p;
    } else {
      c := ThroughChild(n, at, q);
    }
  }

  lemma QueuedOn(n: Nuc, t: Idx, orphans: set<Idx>, out: set<Idx>)
    requires Core(n, orphans, out) && n.pcb[t].semAdd.Some?
    ensures Asl(n.plist, n.slink, n.skey) && Queued(n.plist, n.Active(), n.skey, t, n.pcb[t].semAdd.value)
  {
  }

  lemma OutUnchained(n: Nuc, p: Idx, orphans: set<Idx>, out: set<Idx>)
    requires Core(n, orphans, out)
    requires p in out || (p !in n.Free() && p !in n.Ready() && n.pcb[p].semAdd.None?)
    ensures !Chained(n.plist, p)
  {
  }

  lemma NowUnchained(n: Nuc, t: Idx, orphans: set<Idx>, out: set<Idx>)
    requires Core(n, orphans, out) && t !in n.Free() && n.pcb[t].semAdd.None?
    ensures !Chained(n.plist[READY := Without(n.Ready(), t)], t)
  {
    WithoutMembers(n.Ready(), t);
    if t in n.Ready() {
      assert t in n.plist[READY];
    }
  }

  lemma FreeUnchained(n: Nuc)
    requires Inv(n)
    ensures n.Free() != [] ==> !Chained(n.psib, n.Free()[0])
  {
    HeadIsMember(n.Free());
  }

  lemma OrphanUnchained(n: Nuc, t: Idx, orphans: set<Idx>, out: set<Idx>)
    requires Core(n, orphans, out) && n.pcb[t].parent.None?
    ensures !Chained(n.psib, t)
  {
  }

  /** The loop of recursiveTermination(t) started in n and has reached m: what is left of the family of t was
      in it from the start, and ending the rest is all that is left to do. */
  ghost predicate Turning(n: Nuc, m: Nuc, t: Idx, orphans: set<Idx>) {
    && LiveParents(n) && LiveParents(m) && Core(m, orphans, Held(m))
    && Family(m, t) <= Family(n, t) && t in Family(m, t) && m.current == n.current
    && KillChildren(m, t) == KillChildren(n, t) && Links(m.psib) <= Links(n.psib)
  }

  ghost predicate CurrentEnded(n: Nuc, m: Nuc, t: Idx)
    requires LiveParents(n) && LiveParents(m)
  {
    n.current.Some? && (n.current.value == t || n.current.value in Family(n, t) - Family(m, t))
  }

  lemma FirstTurn(n: Nuc, t: Idx, orphans: set<Idx>)
    requires Core(n, orphans, Held(n)) && t in orphans
    ensures Turning(n, n, t, orphans)
  {
    ParentsLive(n, orphans, Held(n));
  }

  /** Cutting the first child of t off m and ending it takes exactly its family from that of t. */
  lemma TurnFamilies(m: Nuc, t: Idx, orphans: set<Idx>)
    requires LiveParents(m) && Core(m, orphans, Held(m)) && t in orphans && m.psib[t] != []
    ensures
      var c, a := m.psib[t][0], Nucleus.RemoveChild(m, t);
      var b := Nucleus.RecursiveTermination(a, c);
      && LiveParents(a) && LiveParents(b) && Core(b, orphans, Held(b))
      && Family(a, c) <= Family(m, t) && t !in Family(a, c) && Family(b, t) == Family(m, t) - Family(a, c)
      && a.current == m.current && b.current == m.current
  {
    var c, a := m.psib[t][0], Nucleus.RemoveChild(m, t);
    CutChild(m, t, orphans);
    CutFamilies(m, a, c, t);
    assert orphans + {c} - {c} == orphans;
    RecursiveTerminationExact(a, c, orphans + {c});
    var b := Nucleus.RecursiveTermination(a, c);
    ParentsLive(b, orphans, Held(b));
    FamilyAfter(a, b, c, t);
  }

  lemma Turn(n: Nuc, m: Nuc, t: Idx, orphans: set<Idx>)
    requires Turning(n, m, t, orphans) && t in orphans && m.psib[t] != []
    ensures
      var c, a := m.psib[t][0], Nucleus.RemoveChild(m, t);
      var b := Nucleus.RecursiveTermination(a, c);
      && LiveParents(a) && Turning(n, b, t, orphans) && Links(b.psib) < Links(m.psib)
      && (CurrentEnded(n, b, t) <==>
           CurrentEnded(n, m, t) || (a.current.Some? && a.current.value in Family(a, c)))
  {
    TurnFamilies(m, t, orphans);
  }

  lemma LastTurn(n: Nuc, m: Nuc, t: Idx, orphans: set<Idx>)
    requires Turning(n, m, t, orphans) && t in orphans && m.psib[t] == []
    ensures CurrentEnded(n, m, t) <==> n.current.Some? && n.current.value in Family(n, t)
    ensures Kill(m, t) == Nucleus.RecursiveTermination(n, t)
  {
    LeafFamily(m, t, orphans);
  }

  /** The depth-first search from the root and the search of the table agree. */
  lemma SearchFinds(n: Nuc, pid: int, r: Option<Idx>)
    requires Inv(n) && LiveParents(n)
    requires if r.Some? then r.value in Family(n, n.root) && n.pcb[r.value].pid == pid else Absent(n, n.root, pid)
    ensures r == FindPid(n, pid, 0)
  {
    if r.Some? {
      PidIsUnique(n, pid, r.value);
    } else if FindPid(n, pid, 0).Some? {
      OneTree(n, FindPid(n, pid, 0).value);
    }
  }

  /** The flag of recursiveTermination tells the caller what the free list would. */
  lemma FlagMeans(n: Nuc, t: Idx)
    requires Inv(n) && n.current.Some? && t !in n.Free()
    ensures
      var o := OutChild(n, t);
      LiveParents(o) && (n.current.value in Family(o, t) <==> n.current.value in ProcessLife.EndSubtree(n, t).Free())
  {
    var o := OutChild(n, t);
    ParentsLive(n, Roots(n), Held(n));
    OutChildKeeps(n, t, Roots(n), Held(n));
    ParentsLive(o, Roots(n) + {t}, Held(n));
    OutChildFamily(n, t, o);
    EndSubtreeExact(n, t);
  }

  lemma HeldUnchained(n: Nuc, c: Idx)
    requires Sound(n, Held(n)) && n.current == Some(c) && c !in n.Free()
    ensures !Chained(n.plist, c)
  {
  }

  /** The running process can be queued, and a spare descriptor comes with an empty queue. */
  ghost predicate MayBlock(n: Nuc) {
    && (n.current.Some? ==> !Chained(n.plist, n.current.value))
    && (n.FreeDescriptors() != [] ==> n.Queue(n.FreeDescriptors()[0]) == [])
  }

  lemma InvMayBlock(n: Nuc)
    requires Inv(n)
    ensures MayBlock(n)
  {
    if n.current.Some? {
      HeldUnchained(n, n.current.value);
    }
    HeadIsMember(n.FreeDescriptors());
    SpareQueuesEmpty(n, Roots(n), Held(n));
  }

  lemma SpareQueuesEmpty(n: Nuc, orphans: set<Idx>, out: set<Idx>)
    requires Core(n, orphans, out)
    ensures forall d: Idx :: d in n.FreeDescriptors() ==> n.Queue(d) == []
  {
    forall d: Idx | d in n.FreeDescriptors() ensures n.Queue(d) == [] {
      EmptyIfInactive(n, d, out);
    }
  }

  /** The wake-up loop, on its way to w, has reached m. */
  ghost predicate Waking(m: Nuc, w: Nuc, out: set<Idx>) {
    Sound(m, out) && WakeClock(m) == w
  }

  /** The loop has ended in m, which is w but for the clock semaphore that the last V raised. */
  ghost predicate Woken(m: Nuc, w: Nuc) {
    m == w.(sem := w.sem[PSEUDOCLOCK := m.Val(PSEUDOCLOCK)])
  }

  lemma WokenAll(m: Nuc, w: Nuc)
    requires Woken(m, w)
    ensures m.(sem := m.sem[PSEUDOCLOCK := 0]) == w.(sem := w.sem[PSEUDOCLOCK := 0])
  {
    assert w.sem[PSEUDOCLOCK := m.Val(PSEUDOCLOCK)][PSEUDOCLOCK := 0] == w.sem[PSEUDOCLOCK := 0];
  }

  /** One turn of the wake-up loop, with and without a waiter left. */
  lemma ClockTurn(m: Nuc, w: Nuc, out: set<Idx>)
    requires Waking(m, w, out)
    ensures Asl(m.plist, m.slink, m.skey)
    ensures
      var (r, z) := Nucleus.VOnSem(m, PSEUDOCLOCK);
      if r.Some? then
        var next := z.(softBlockCount := z.softBlockCount - 1);
        Waking(next, w, out) && |next.Waiters(PSEUDOCLOCK)| < |m.Waiters(PSEUDOCLOCK)|
      else
        Woken(z, w)
  {
    if m.Desc(PSEUDOCLOCK).Some? {
      var d := m.Desc(PSEUDOCLOCK).value;
      ClockQueue(m, out);
      WakeOneSound(m, out);
      if |m.Queue(d)| == 1 {
        WakeClockLast(m, d, m.Queue(d));
      } else {
        WakeClockStep(m, d, m.Queue(d));
      }
    }
  }

  lemma AslAfterCharge(n: Nuc, t: int)
    requires Inv(n)
    ensures var m := Nucleus.ChargeCurrent(n, t); Asl(m.plist, m.slink, m.skey)
  {
  }
}
