/** Boot, runs of any length, and what holds in every state of every run. */
module Runs {
  import opened Lists
  import opened ListX
  import opened Nucleus
  import opened Invariant
  import opened Termination
  import opened Soundness
  import opened ProcessLife
  import opened Steps

  // ---- phase2/initial.c ----

  function Ascending(): seq<Idx> { seq(MAXPROC, i requires 0 <= i < MAXPROC => i as Idx) }
  function Descending(): seq<Idx> { seq(MAXPROC, i requires 0 <= i < MAXPROC => (MAXPROC - 1 - i) as Idx) }

  /** Contents of memory with the device semaphores cleared. */
  function ClearDevices(memory: map<int, int>): map<int, int> {
    map k | k in memory && !IsDevice(k) :: memory[k]
  }

  /** initNucleusData: every PCB free, every descriptor free, nothing running. */
  function Blank(memory: map<int, int>, skey: KeyTable, t: int): Nuc {
    Nuc(seq(MAXPROC, _ => BLANKPCB), [Ascending()] + seq(MAXPROC + 1, _ => []), seq(MAXPROC, _ => []),
        [Descending(), []], skey, 1, None, 0, ClearDevices(memory), 0, 0, t, t, ZEROSTATE, Waiting)
  }

  /** initFirstProcess. */
  function FirstProcess(n: Nuc, state: PState): Nuc
    requires n.Free() != []
  {
    var m := AllocPcb(n).1;
    var p := n.Free()[0];
    MakeReady(m.SetPcb(p, m.pcb[p].(ps := state)).(processCount := m.processCount + 1, root := p), p)
  }

  lemma BlankFree(memory: map<int, int>, skey: KeyTable, t: int)
    ensures Blank(memory, skey, t).Free() == Ascending() != []
  {
  }

  function Boot(memory: map<int, int>, skey: KeyTable, state: PState, t: int): Nuc {
    BlankFree(memory, skey, t);
    Scheduler(FirstProcess(Blank(memory, skey, t), state), t)
  }

  lemma BlankCore(memory: map<int, int>, skey: KeyTable, t: int)
    requires forall k :: k in memory ==> memory[k] >= 0
    ensures Core(Blank(memory, skey, t), {}, {})
  {
    var n := Blank(memory, skey, t);
    assert n.plist[FREE] == Ascending();
    assert forall h :: 1 <= h < MAXPROC + 2 ==> n.plist[h] == [];
    assert n.slink[SFREE] == Descending() && n.slink[ACTIVE] == [];
    forall p: Idx ensures p in n.Free() && p in n.slink[SFREE] {
      assert Ascending()[p] == p && Descending()[MAXPROC - 1 - p] == p;
    }
    assert Separate(n.plist);
    assert Asl(n.plist, n.slink, n.skey);
  }

  lemma FirstProcessSound(n: Nuc, state: PState)
    requires Core(n, {}, {}) && n.Free() != [] && n.processCount == |Live(n)| && n.softBlockCount == |DeviceBlocked(n)|
    requires n.Val(PSEUDOCLOCK) == 0
    ensures Sound(FirstProcess(n, state), {}) && FirstProcess(n, state).Ready() != []
  {
    var (r, m) := AllocPcb(n);
    var p := r.value;
    AllocKeeps(n, {}, {});
    InPlaceOf(n, p, {}, {});
    assert {} + {p} == {p};
    SetupKeeps(m, p, state, 0, 0, {p}, {p});
    var a := m.SetPcb(p, m.pcb[p].(ps := state));
    assert a == m.SetPcb(p, m.pcb[p].(ps := state, prio := 0, support := 0));
    var b := a.(processCount := m.processCount + 1, root := p);
    CoreFrame(a, b, {p}, {p});
    FirstCounts(n, b, p);
    MakeReadySound(b, p, {p});
    assert {p} - {p} == {};
  }

  lemma FirstCounts(n: Nuc, b: Nuc, p: Idx)
    requires n.Free() != [] && p == n.Free()[0] && b.Free() == n.Free()[1..] && p !in b.Free()
    requires b.processCount == n.processCount + 1 && b.softBlockCount == n.softBlockCount
    requires forall q: Idx :: q != p ==> b.pcb[q].semAdd == n.pcb[q].semAdd
    requires b.pcb[p].semAdd.None? && n.pcb[p].semAdd.None?
    ensures ProcessGap(b) == ProcessGap(n) && SoftGap(b) == SoftGap(n)
  {
    assert n.Free() == [p] + b.Free();
    assert Live(b) == Live(n) + {p} && p !in Live(n);
    assert DeviceBlocked(b) == DeviceBlocked(n);
  }

  /** The system starts in a state that satisfies the invariant, with the first process running. */
  lemma BootInv(memory: map<int, int>, skey: KeyTable, state: PState, t: int)
    requires forall k :: k in memory ==> memory[k] >= 0
    ensures Inv(Boot(memory, skey, state, t))
    ensures Boot(memory, skey, state, t).mode == Running
  {
    var n := Blank(memory, skey, t);
    BlankFree(memory, skey, t);
    BlankCore(memory, skey, t);
    assert Live(n) == {} by {
      forall p: Idx ensures p in n.Free() { assert Ascending()[p] == p; }
    }
    assert DeviceBlocked(n) == {};
    FirstProcessSound(n, state);
    SchedulerKeeps(FirstProcess(n, state), t);
  }

  /** The first process has the state given, no parent, no support structure and no CPU time. */
  lemma FirstIs(n: Nuc, state: PState)
    requires n.Free() != []
    ensures
      var m, p := FirstProcess(n, state), n.Free()[0];
      && m.root == p && (n.Ready() == [] ==> m.Ready() == [p]) && m.Free() == n.Free()[1..]
      && m.pcb[p] == Pcb(None, 0, None, 0, 0, n.nextPid, state)
      && m.processCount == n.processCount + 1 && m.nextPid == n.nextPid + 1 && m.sem == n.sem
      && m.softBlockCount == n.softBlockCount
  {
  }

  /** What the system starts with: one process, the root, runs in the state given, without parent, support
      structure or CPU time; device semaphores and the clock are 0, and the rest of memory is as it was. */
  lemma BootState(memory: map<int, int>, skey: KeyTable, state: PState, t: int, k: int)
    ensures
      var m := Boot(memory, skey, state, t);
      && m.cpu == state && m.current == Some(m.root) && m.mode == Running && m.start == m.now == t
      && m.pcb[m.root] == Pcb(None, 0, None, 0, 0, 1, state)
      && m.processCount == 1 && m.softBlockCount == 0 && Live(m) == {m.root} && m.Ready() == []
      && (0 <= k <= 48 ==> m.Val(k) == 0) && (!(0 <= k <= 48) && k in memory ==> m.Val(k) == memory[k])
      && (k !in memory ==> m.Val(k) == 0)
  {
    var n := Blank(memory, skey, t);
    BlankFree(memory, skey, t);
    FirstIs(n, state);
    var m := Boot(memory, skey, state, t);
    forall p: Idx ensures p in Live(m) <==> p == m.root {
      assert m.Free() == Ascending()[1..];
      assert p > 0 ==> Ascending()[1..][p - 1] == p;
    }
  }

  // ---- runs ----

  ghost predicate IsBoot(n: Nuc) {
    exists memory: map<int, int>, skey: KeyTable, state: PState, t: int ::
      (forall k :: k in memory ==> memory[k] >= 0) && n == Boot(memory, skey, state, t)
  }

  ghost predicate Stepped(ss: seq<Nuc>, es: seq<Event>, i: nat)
    requires |ss| == |es| + 1 && i < |es|
  {
    Enabled(ss[i], es[i]) && ss[i + 1] == Step(ss[i], es[i])
  }

  ghost predicate Run(ss: seq<Nuc>, es: seq<Event>) {
    && |ss| == |es| + 1
    && IsBoot(ss[0])
    && forall i :: 0 <= i < |es| ==> Stepped(ss, es, i)
  }

  lemma NextState(ss: seq<Nuc>, es: seq<Event>, j: nat, i: nat)
    requires Run(ss, es) && i == j + 1 <= |es|
    ensures Enabled(ss[j], es[j]) && ss[i] == Step(ss[j], es[j])
  {
    assert Stepped(ss, es, j);
  }

  lemma NextInv(ss: seq<Nuc>, es: seq<Event>, j: nat, i: nat)
    requires Run(ss, es) && i == j + 1 <= |es| && Inv(ss[j])
    ensures Inv(ss[i])
  {
    NextState(ss, es, j, i);
    StepKeeps(ss[j], es[j]);
  }

  lemma BootedInv(n: Nuc)
    requires IsBoot(n)
    ensures Inv(n)
  {
    var memory: map<int, int>, skey: KeyTable, state: PState, t: int :|
      (forall k :: k in memory ==> memory[k] >= 0) && n == Boot(memory, skey, state, t);
    BootInv(memory, skey, state, t);
  }

  /** The invariant holds in every state of every run. */
  lemma {:induction false} RunInv(ss: seq<Nuc>, es: seq<Event>, i: nat)
    requires Run(ss, es) && i < |ss|
    ensures Inv(ss[i])
  {
    if i == 0 {
      BootedInv(ss[0]);
    } else {
      var j: nat := i - 1;
      RunInv(ss, es, j);
      NextInv(ss, es, j, i);
    }
  }

  // ---- what the invariant says ----

  /** p is in list h and in no other, and is not the running process. */
  ghost predicate OnlyIn(n: Nuc, p: Idx, h: nat)
    requires h < MAXPROC + 2
  {
    && p in n.plist[h] && NoDup(n.plist[h]) && n.current != Some(p)
    && forall g :: 0 <= g < MAXPROC + 2 && g != h ==> p !in n.plist[g]
  }

  /** Every PCB is in exactly one place - free, ready, queued on the semaphore its p_semAdd names, or
      running - and p_semAdd says which kind of place. */
  lemma OnePlace(n: Nuc, p: Idx)
    requires Inv(n)
    ensures n.pcb[p].semAdd.None? ==>
              if n.current == Some(p) then !Chained(n.plist, p) else OnlyIn(n, p, FREE) || OnlyIn(n, p, READY)
    ensures n.pcb[p].semAdd.Some? ==>
              var d := n.Desc(n.pcb[p].semAdd.value);
              d.Some? && d.value in n.Active() && n.skey[d.value] == n.pcb[p].semAdd.value
              && OnlyIn(n, p, QUEUE(d.value))
  {
    if n.pcb[p].semAdd.Some? {
      assert Queued(n.plist, n.Active(), n.skey, p, n.pcb[p].semAdd.value);
    }
  }

  /** The two counters are exact, and a process blocks on the clock or a device in just one way. */
  lemma Counters(n: Nuc)
    requires Inv(n)
    ensures n.processCount == |Live(n)| && n.softBlockCount == |DeviceBlocked(n)|
    ensures DeviceBlocked(n) <= Live(n)
  {
    forall p: Idx | n.pcb[p].semAdd.Some? ensures p !in n.Free() {
    }
  }

  /** The system has halted exactly when no process is left; it idles exactly when nobody is ready but some
      process awaits a device or the clock; it has panicked exactly when all live processes, of which there
      are some, wait on ordinary semaphores; otherwise a live process is running. */
  lemma ModeMeans(n: Nuc)
    requires Inv(n)
    ensures n.mode == Halted <==> Live(n) == {}
    ensures n.mode == Waiting <==> n.current.None? && DeviceBlocked(n) != {}
    ensures n.mode == Panicked <==>
              Live(n) != {} && forall p :: p in Live(n) ==>
                n.pcb[p].semAdd.Some? && !IsDevice(n.pcb[p].semAdd.value)
    ensures n.mode == Running <==> n.current.Some? && n.current.value in Live(n)
    ensures n.mode != Running ==> n.Ready() == []
  {
    Counters(n);
    if n.current.Some? {
      assert n.current.value in Live(n);
    } else {
      forall p: Idx | p !in n.Free() ensures n.pcb[p].semAdd.Some? {
      }
      if DeviceBlocked(n) != {} {
        var p :| p in DeviceBlocked(n);
        assert p in Live(n);
      }
    }
  }

  /** The search for a pid finds the one live process that has it, exactly when there is one. */
  lemma PidIsUnique(n: Nuc, pid: int, p: Idx)
    requires Inv(n)
    ensures p !in n.Free() && n.pcb[p].pid == pid <==> FindPid(n, pid, 0) == Some(p)
  {
  }

  /** The live processes form one tree: each descends from rootProcess through live parents. */
  lemma OneTree(n: Nuc, p: Idx)
    requires Inv(n) && p !in n.Free()
    ensures LiveParents(n) && n.root !in n.Free() && Under(n.pcb, n.root, p)
    ensures p in Family(n, n.root)
  {
    RootOfAll(n, p, Held(n));
  }

  /** A terminated process takes its live descendants along, and nobody else: the processes that
      TerminateProcess frees are exactly the family of the one its pid names. */
  lemma TerminateEnds(n: Nuc, ps: PState, pid: int, t1: int, t2: int, q: Idx)
    requires Inv(n) && n.current.Some?
    ensures LiveParents(n)
    ensures
      var target := if pid == 0 then n.current else FindPid(n, pid, 0);
      var m := TerminateProcess(n, ps, pid, t1, t2);
      q in m.Free() <==> q in n.Free() || (target.Some? && q in Family(n, target.value))
  {
    ParentsLive(n, Roots(n), Held(n));
    var target := if pid == 0 then n.current else FindPid(n, pid, 0);
    if target.Some? {
      EndSubtreeExact(n, target.value);
    }
  }

  // ---- doIO and WaitForClock on a semaphore that is not 0 ----

  /** doIO relies on its semaphore being 0: the caller is always counted as blocked and another process
      dispatched, so the invariant survives exactly when the P does block. */
  lemma DeviceWaitExact(n: Nuc, k: int, ps: PState, t1: int, t2: int)
    requires Inv(n) && n.current.Some? && IsDevice(k)
    ensures Inv(DeviceWait(n, k, ps, t1, t2)) <==> n.Val(k) == 0
  {
    if n.Val(k) == 0 {
      DeviceWaitKeeps(n, k, ps, t1, t2);
    } else {
      var m := DeviceWait(n, k, ps, t1, t2);
      assert m.pcb == n.pcb && m.softBlockCount == n.softBlockCount + 1;
      assert DeviceBlocked(m) == DeviceBlocked(n);
      assert n.Val(k) > 0;
    }
  }

  /** An interrupt that finds nobody waiting leaves the device semaphore at 1, so it is such an interrupt
      that the next doIO on that device trips over; one that finds a waiter leaves it at 0. */
  lemma StrayInterrupt(n: Nuc, ps: PState, k: int, status: int, t1: int, t2: int)
    requires Inv(n) && IsDevice(k) && k != PSEUDOCLOCK
    ensures
      var m := DeviceDone(n, ps, k, status, t1, t2);
      m.Val(k) == if n.Waiters(k) == [] then n.Val(k) + 1 else 0
  {
    ChargeCurrentKeeps(n, t1);
    ChargedValue(n, ChargeCurrent(n, t1), k);
    DeviceDoneSem(n, ps, k, status, t1, t2);
  }

  lemma ChargedValue(n: Nuc, a: Nuc, k: int)
    requires Inv(a) && a.plist == n.plist && a.slink == n.slink && a.skey == n.skey && a.sem == n.sem
    ensures VOnSem(a, k).1.Val(k) == if n.Waiters(k) == [] then n.Val(k) + 1 else 0
  {
    VValue(a, k, Roots(a), Held(a));
    assert a.Waiters(k) == n.Waiters(k);
  }

  lemma DeviceDoneSem(n: Nuc, ps: PState, k: int, status: int, t1: int, t2: int)
    ensures DeviceDone(n, ps, k, status, t1, t2).sem == VOnSem(ChargeCurrent(n, t1), k).1.sem
  {
  }

  lemma VValue(n: Nuc, k: int, orphans: set<Idx>, out: set<Idx>)
    requires Core(n, orphans, out)
    ensures VOnSem(n, k).1.Val(k) == if n.Waiters(k) == [] then n.Val(k) + 1 else 0
    ensures VOnSem(n, k).0.Some? <==> n.Waiters(k) != []
  {
    if n.Desc(k).Some? {
      HeadWaits(n, k, out);
    }
  }
}
