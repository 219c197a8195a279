/** The invariant between two events, and the handlers that neither create nor end a process. */
module Soundness {
  import opened Lists
  import opened ListX
  import opened Nucleus
  import opened Invariant
  import opened Termination

  ghost function Roots(n: Nuc): set<Idx> {
    if n.root in n.Free() then {} else {n.root}
  }

  /** The invariant between steps, but for what the processor is doing: out are the PCBs in no list. */
  ghost predicate Sound(n: Nuc, out: set<Idx>) {
    && Core(n, Roots(n), out)
    && ProcessGap(n) == 0 && SoftGap(n) == 0
    && n.Val(PSEUDOCLOCK) == 0
  }

  ghost predicate Inv(n: Nuc) {
    && Sound(n, Held(n))
    && (n.current.Some? ==> n.current.value !in n.Free())
    && (n.mode == Running <==> n.current.Some?)
    && (n.current.None? ==> n.Ready() == [] && n.mode == IdleMode(n))
  }

  /** What an idle processor is doing, by the counters. */
  function IdleMode(n: Nuc): Mode {
    if n.processCount == 0 then Halted else if n.softBlockCount > 0 then Waiting else Panicked
  }

  // ---- the scheduler ----

  /** Changes to time, saved states and scalars that leave the invariant alone. */
  ghost predicate Similar(n: Nuc, m: Nuc) {
    && (forall q: Idx :: m.pcb[q].parent == n.pcb[q].parent && m.pcb[q].pid == n.pcb[q].pid
                         && m.pcb[q].semAdd == n.pcb[q].semAdd && m.pcb[q].prio == n.pcb[q].prio)
    && m.plist == n.plist && m.psib == n.psib && m.slink == n.slink
    && m.skey == n.skey && m.nextPid == n.nextPid && m.sem == n.sem && m.root == n.root
    && m.processCount == n.processCount && m.softBlockCount == n.softBlockCount
  }

  lemma SimilarKeeps(n: Nuc, m: Nuc, out: set<Idx>)
    requires Sound(n, out) && Similar(n, m)
    ensures Sound(m, out)
  {
    SimilarCore(n, m, Roots(n), out);
    SimilarCounts(n, m);
  }

  lemma SimilarCore(n: Nuc, m: Nuc, orphans: set<Idx>, out: set<Idx>)
    requires Core(n, orphans, out) && Similar(n, m)
    ensures Core(m, orphans, out)
  {
    TreeFrame(n, m.pcb, orphans);
    PlacesFrame(n, m.pcb, out);
  }

  lemma SimilarCounts(n: Nuc, m: Nuc)
    requires Similar(n, m)
    ensures ProcessGap(m) == ProcessGap(n) && SoftGap(m) == SoftGap(n) && Roots(m) == Roots(n)
  {
    assert Live(m) == Live(n);
    assert DeviceBlocked(m) == DeviceBlocked(n);
  }

  lemma OutReadySound(n: Nuc, p: Idx, out: set<Idx>)
    requires Sound(n, out) && p in n.Ready()
    ensures Sound(OutReady(n, p), out + {p}) && p !in n.Free() && p !in out
  {
    OutReadyKeeps(n, p, Roots(n), out);
    assert p in n.plist[READY];
    assert Live(OutReady(n, p)) == Live(n);
    assert DeviceBlocked(OutReady(n, p)) == DeviceBlocked(n);
  }

  lemma MakeReadySound(n: Nuc, p: Idx, out: set<Idx>)
    requires Sound(n, out) && p in out
    ensures Sound(MakeReady(n, p), out - {p})
    ensures MakeReady(n, p).Ready() != []
  {
    MakeReadyKeeps(n, p, Roots(n), out);
    assert Live(MakeReady(n, p)) == Live(n);
    assert DeviceBlocked(MakeReady(n, p)) == DeviceBlocked(n);
  }

  lemma FirstOut(n: Nuc)
    requires n.Ready() != []
    ensures OutReady(n, n.Ready()[0]) == n.SetReady(n.Ready()[1..])
  {
    var s := n.Ready();
    assert IndexOf(s, s[0]) == 0;
    assert RemoveAt(s, 0) == s[1..];
  }

  lemma DispatchKeeps(n: Nuc, t: int)
    requires Sound(n, {}) && n.Ready() != []
    ensures Inv(Scheduler(n, t))
  {
    var p := n.Ready()[0];
    HeadIsMember(n.Ready());
    OutReadySound(n, p, {});
    FirstOut(n);
    var o, m := OutReady(n, p), Scheduler(n, t);
    assert {} + {p} == {p};
    DispatchedInv(o, m, p);
  }

  lemma SchedulerKeeps(n: Nuc, t: int)
    requires Sound(n, {}) && (n.current.None? || n.Ready() != [])
    ensures Inv(Scheduler(n, t))
  {
    if n.Ready() != [] {
      DispatchKeeps(n, t);
    } else {
      SimilarKeeps(n, Scheduler(n, t), {});
    }
  }

  // ---- system calls and interrupts ----

  lemma SaveSound(n: Nuc, c: Idx, ps: PState, t: int, out: set<Idx>)
    requires Sound(n, out)
    ensures Sound(SaveState(n, c, ps, t), out) && Sound(Charge(n, c, t), out)
  {
    SimilarKeeps(n, SaveState(n, c, ps, t), out);
    SimilarKeeps(n, Charge(n, c, t), out);
  }

  /** The running process is put back on the ready queue and the scheduler called. */
  lemma RequeueKeeps(n: Nuc, c: Idx, t: int)
    requires Sound(n, {c})
    ensures Inv(Scheduler(MakeReady(n, c), t)) && Inv(Scheduler(MakeReady(n, c).(current := None), t))
  {
    MakeReadySound(n, c, {c});
    assert {c} - {c} == {};
    var r := MakeReady(n, c);
    SchedulerKeeps(r, t);
    SimilarKeeps(r, r.(current := None), {});
    SchedulerKeeps(r.(current := None), t);
  }

  lemma SliceKeeps(n: Nuc, ps: PState, t1: int, t2: int)
    requires Inv(n) && n.current.Some?
    ensures Inv(LocalTimer(n, ps, t1, t2))
  {
    var c := n.current.value;
    SaveSound(n, c, ps, t1, {c});
    RequeueKeeps(SaveState(n, c, ps, t1), c, t2);
  }

  lemma YieldKeeps(n: Nuc, ps: PState, t1: int, t2: int)
    requires Inv(n) && n.current.Some?
    ensures Inv(Yield(n, ps, t1, t2))
  {
    var c := n.current.value;
    var m := SaveState(n, c, ps, t1);
    SaveSound(n, c, ps, t1, {c});
    if m.Ready() == [] {
      RequeueKeeps(m, c, t2);
    } else {
      YieldToKeeps(m, c, t2);
    }
  }

  lemma DispatchedInv(n: Nuc, m: Nuc, p: Idx)
    requires Sound(n, {p}) && p !in n.Free() && Similar(n, m) && m.current == Some(p) && m.mode == Running
    ensures Inv(m)
  {
    SimilarKeeps(n, m, {p});
    assert Held(m) == {p};
  }

  /** One ready process taken off the queue and c put in its place among the others. */
  lemma SwapSound(m: Nuc, c: Idx, next: Idx, o: Nuc)
    requires Sound(m, {c}) && next in m.Ready() && o == OutReady(m, next)
    ensures Sound(MakeReady(o, c), {next}) && next !in m.Free()
  {
    OutReadySound(m, next, {c});
    SwapSets(c, next);
    MakeReadySound(o, c, {c} + {next});
  }

  lemma SwapSets(c: Idx, next: Idx)
    requires next !in {c}
    ensures {c} + {next} - {c} == {next}
  {
  }

  /** Yield with somebody else ready: c goes to its place among the others, the head is dispatched. */
  lemma YieldToKeeps(m: Nuc, c: Idx, t: int)
    requires Sound(m, {c}) && m.Ready() != []
    ensures Inv(Scheduler(GiveWay(m, c).(current := None), t))
  {
    var next := m.Ready()[0];
    HeadIsMember(m.Ready());
    FirstOut(m);
    var back := MakeReady(m.SetReady(m.Ready()[1..]), c);
    SwapSound(m, c, next, m.SetReady(m.Ready()[1..]));
    HeadDispatched(back, next, t);
    DispatchedInv(back, Scheduler(back.SetReady([next] + back.Ready()).(current := None), t), next);
  }

  /** A PCB put at the very head of the ready queue is dispatched at once. */
  lemma HeadDispatched(n: Nuc, p: Idx, t: int)
    ensures
      var m := Scheduler(n.SetReady([p] + n.Ready()).(current := None), t);
      Similar(n, m) && m.current == Some(p) && m.mode == Running
  {
    var r := n.SetReady([p] + n.Ready()).(current := None);
    assert r.Ready()[1..] == n.Ready();
    assert r.plist[READY := n.Ready()] == n.plist;
  }

  /** A change of what one PCB waits for, and the counters. */
  lemma WaitGaps(n: Nuc, m: Nuc, c: Idx)
    requires m.pcb == n.pcb[c := n.pcb[c].(semAdd := m.pcb[c].semAdd)] && m.Free() == n.Free()
    requires m.processCount == n.processCount && m.softBlockCount == n.softBlockCount
    ensures ProcessGap(m) == ProcessGap(n)
    ensures SoftGap(m) == SoftGap(n) + (if c in DeviceBlocked(n) then 1 else 0)
                                     - (if c in DeviceBlocked(m) then 1 else 0)
  {
    assert Live(m) == Live(n);
    assert DeviceBlocked(m) - {c} == DeviceBlocked(n) - {c};
    Removed(DeviceBlocked(n), c);
    Removed(DeviceBlocked(m), c);
  }

  lemma BlockSound(n: Nuc, k: int, c: Idx, out: set<Idx>)
    requires Sound(n, out) && c in out && n.Val(k) == 0
    ensures
      var m := InsertBlocked(n, k, c);
      && Core(m, Roots(m), out - {c}) && ProcessGap(m) == 0 && m.Val(PSEUDOCLOCK) == 0
      && SoftGap(m) == if IsDevice(k) then -1 else 0
  {
    BlockKeeps(n, k, c, Roots(n), out);
    WaitGaps(n, InsertBlocked(n, k, c), c);
    assert n.pcb[c].semAdd.None?;
  }

  lemma PassKeeps(n: Nuc, ps: PState, k: int, t1: int, t2: int)
    requires Inv(n) && n.current.Some? && !IsDevice(k)
    ensures Inv(Passeren(n, ps, k, t1, t2))
  {
    var c := n.current.value;
    if n.Val(k) > 0 {
      LowerKeeps(n, k);
      SimilarKeeps(n.(sem := n.sem[k := n.Val(k) - 1]), Passeren(n, ps, k, t1, t2), {c});
    } else {
      var m := SaveState(n, c, ps, t1);
      SaveSound(n, c, ps, t1, {c});
      BlockSound(m, k, c, {c});
      var b := InsertBlocked(m, k, c);
      assert {c} - {c} == {};
      SimilarKeeps(b, b.(current := None), {});
      SchedulerKeeps(b.(current := None), t2);
    }
  }

  lemma LowerKeeps(n: Nuc, k: int)
    requires Sound(n, Held(n)) && n.Val(k) > 0 && !IsDevice(k)
    ensures Sound(n.(sem := n.sem[k := n.Val(k) - 1]), Held(n))
  {
    var m := n.(sem := n.sem[k := n.Val(k) - 1]);
    assert Live(m) == Live(n);
    assert DeviceBlocked(m) == DeviceBlocked(n);
  }

  lemma DeviceWaitKeeps(n: Nuc, k: int, ps: PState, t1: int, t2: int)
    requires Inv(n) && n.current.Some? && IsDevice(k) && n.Val(k) == 0
    ensures Inv(DeviceWait(n, k, ps, t1, t2))
  {
    var c := n.current.value;
    var m := SaveState(n, c, ps, t1);
    SaveSound(n, c, ps, t1, {c});
    BlockSound(m, k, c, {c});
    assert {c} - {c} == {};
    CountedSound(InsertBlocked(m, k, c));
    var b := InsertBlocked(m, k, c);
    SchedulerKeeps(b.(current := None).(softBlockCount := b.softBlockCount + 1), t2);
  }

  /** The soft-block count catches up with a process that has just blocked on a device. */
  lemma CountedSound(b: Nuc)
    requires Core(b, Roots(b), {}) && ProcessGap(b) == 0 && SoftGap(b) == -1 && b.Val(PSEUDOCLOCK) == 0
    ensures Sound(b.(current := None).(softBlockCount := b.softBlockCount + 1), {})
  {
    var r := b.(current := None).(softBlockCount := b.softBlockCount + 1);
    CoreFrame(b, r, Roots(b), {});
    assert Live(r) == Live(b);
    assert DeviceBlocked(r) == DeviceBlocked(b);
  }

  /** V on k keeps everything but the soft-block count, which still counts a process woken from a device. */
  lemma VSound(n: Nuc, k: int, out: set<Idx>)
    requires Sound(n, out) && (k != PSEUDOCLOCK || n.Desc(k).Some?)
    ensures
      var (w, m) := VOnSem(n, k);
      && Core(m, Roots(m), out) && ProcessGap(m) == 0 && m.Val(PSEUDOCLOCK) == 0
      && SoftGap(m) == if IsDevice(k) && w.Some? then 1 else 0
  {
    if n.Desc(k).Some? {
      WakeKeeps(n, k, Roots(n), out);
      WaitGaps(n, VOnSem(n, k).1, VOnSem(n, k).0.value);
    } else {
      RaiseKeeps(n, k, Roots(n), out);
      assert Live(VOnSem(n, k).1) == Live(n);
      assert DeviceBlocked(VOnSem(n, k).1) == DeviceBlocked(n);
    }
  }

  lemma ResumeKeeps(n: Nuc, ps: PState, t: int)
    requires Sound(n, Held(n)) && (n.current.Some? ==> n.current.value !in n.Free())
    requires n.mode == Running <==> n.current.Some?
    ensures Inv(Resume(n, ps, t))
  {
    if n.current.Some? {
      SimilarKeeps(n, Resume(n, ps, t), Held(n));
    } else {
      SchedulerKeeps(n, t);
    }
  }

  /** The bookkeeping of nonTimerInterrupts after its V. */
  lemma AnswerSound(m: Nuc, r: Nuc, w: Idx, status: int, out: set<Idx>)
    requires Core(m, Roots(m), out) && ProcessGap(m) == 0 && m.Val(PSEUDOCLOCK) == 0 && SoftGap(m) == 1
    requires r == m.SetPcb(w, m.pcb[w].(ps := m.pcb[w].ps.(a0 := status))).(softBlockCount := m.softBlockCount - 1)
    ensures Sound(r, out)
  {
    var s := m.(softBlockCount := m.softBlockCount - 1);
    CoreFrame(m, s, Roots(m), out);
    assert Live(s) == Live(m);
    assert DeviceBlocked(s) == DeviceBlocked(m);
    assert Sound(s, out);
    SimilarKeeps(s, r, out);
  }

  lemma VFrame(n: Nuc, k: int)
    ensures
      var m := VOnSem(n, k).1;
      && m.current == n.current && m.mode == n.mode && m.cpu == n.cpu && m.start == n.start && m.now == n.now
      && m.Free() == n.Free() && m.root == n.root && m.nextPid == n.nextPid && m.psib == n.psib
      && m.processCount == n.processCount && m.softBlockCount == n.softBlockCount
  {
  }

  lemma ChargeCurrentKeeps(n: Nuc, t: int)
    requires Inv(n)
    ensures Inv(ChargeCurrent(n, t))
  {
    if n.current.Some? {
      SimilarKeeps(n, ChargeCurrent(n, t), Held(n));
    }
  }

  lemma DeviceDoneKeeps(n: Nuc, ps: PState, k: int, status: int, t1: int, t2: int)
    requires Inv(n) && IsDevice(k) && k != PSEUDOCLOCK
    ensures Inv(DeviceDone(n, ps, k, status, t1, t2))
  {
    var a := ChargeCurrent(n, t1);
    ChargeCurrentKeeps(n, t1);
    VSound(a, k, Held(a));
    VFrame(a, k);
    var (w, m) := VOnSem(a, k);
    var r := Answer(a, k, status);
    if w.Some? {
      AnswerSound(m, r, w.value, status, Held(a));
    }
    ResumeKeeps(r, ps, t2);
  }
}
