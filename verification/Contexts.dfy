/** Context switching: a process goes on with exactly the processor state it stopped with, except that a0 may
    hold the result of a system call or the answer of a device. */
module Contexts {
  import opened Lists
  import opened ListX
  import opened Nucleus
  import opened Devices
  import opened Invariant
  import opened Termination
  import opened Soundness
  import opened ClockTicks
  import opened ProcessLife
  import opened Steps
  import opened Runs
  import opened Semaphores
  import opened BoundedWaiting
  import opened WakeUps
  import opened CpuTimes

  /** The state p runs with, or will run with when it is dispatched. */
  function Context(n: Nuc, p: Idx): PState {
    if n.current == Some(p) then n.cpu else n.pcb[p].ps
  }

  /** The context that an event leaves to the process that was running. */
  function After(n: Nuc, e: Event): PState
    requires Enabled(n, e) && n.current.Some?
  {
    var b := n.pcb[n.current.value];
    match e
    case Create(ps, _, _, _) => ps.(a0 := if n.Free() == [] then -1 else n.nextPid)
    case CpuTime(ps, t1) => ps.(a0 := b.time + t1 - n.start)
    case SupportData(ps) => ps.(a0 := b.support)
    case ProcessId(ps, a1) =>
      ps.(a0 := if a1 == 0 then b.pid else if b.parent.Some? then n.pcb[b.parent.value].pid else 0)
    case Trap(_) => n.cpu
    case Terminate(ps, _, _, _) => ps
    case P(ps, _, _, _) => ps
    case V(ps, _) => ps
    case DoIO(ps, _, _, _) => ps
    case WaitClock(ps, _, _) => ps
    case YieldCpu(ps, _, _) => ps
    case Slice(ps, _, _) => ps
    case Interrupt(ps, _, _, _) => ps
    case Tick(ps, _, _) => ps
  }

  /** The interrupt e answers the request of p. */
  predicate Answers(n: Nuc, e: Event, p: Idx)
    requires Enabled(n, e)
  {
    e.Interrupt? && n.Waiters(InterruptKey(e.signal.Source())) != [] &&
    n.Waiters(InterruptKey(e.signal.Source()))[0] == p
  }

  function Expected(n: Nuc, e: Event, p: Idx): PState
    requires Enabled(n, e)
  {
    if n.current == Some(p) then After(n, e)
    else if Answers(n, e, p) then n.pcb[p].ps.(a0 := e.signal.Answer())
    else n.pcb[p].ps
  }

  // ---- pieces ----

  lemma SchedulerContext(r: Nuc, t: int, p: Idx)
    requires r.current.None? || r.Ready() != []
    ensures Context(Scheduler(r, t), p) == r.pcb[p].ps
  {
  }

  lemma ResumeContext(r: Nuc, ps: PState, t: int, p: Idx)
    ensures Context(Resume(r, ps, t), p) == if r.current == Some(p) then ps else r.pcb[p].ps
  {
    if r.current.None? {
      SchedulerContext(r, t, p);
    }
  }

  lemma BlockContext(n: Nuc, k: int, ps: PState, t1: int, t2: int, p: Idx)
    requires n.current.Some?
    ensures
      var b := Block(n, k, ps, t1);
      var c := b.(softBlockCount := b.softBlockCount + 1);
      var r := if n.current == Some(p) then ps else n.pcb[p].ps;
      Context(Scheduler(b, t2), p) == r && Context(Scheduler(c, t2), p) == r
  {
    var b := Block(n, k, ps, t1);
    SchedulerContext(b, t2, p);
    SchedulerContext(b.(softBlockCount := b.softBlockCount + 1), t2, p);
  }

  lemma RequeueContext(n: Nuc, c: Idx, ps: PState, t1: int, t2: int, p: Idx)
    ensures
      var b := MakeReady(SaveState(n, c, ps, t1), c);
      var r := if c == p then ps else n.pcb[p].ps;
      Context(Scheduler(b, t2), p) == r && Context(Scheduler(b.(current := None), t2), p) == r
  {
    var b := MakeReady(SaveState(n, c, ps, t1), c);
    Inserted(SaveState(n, c, ps, t1), c);
    SchedulerContext(b, t2, p);
    SchedulerContext(b.(current := None), t2, p);
  }

  lemma YieldContext(n: Nuc, ps: PState, t1: int, t2: int, p: Idx)
    requires n.current.Some?
    ensures Context(Yield(n, ps, t1, t2), p) == if n.current == Some(p) then ps else n.pcb[p].ps
  {
    var b := GiveWay(SaveState(n, n.current.value, ps, t1), n.current.value);
    SchedulerContext(b.(current := None), t2, p);
  }

  /** Termination does not touch the saved state of a survivor. */
  lemma EndContext(n: Nuc, t: Idx, p: Idx)
    requires Inv(n) && t !in n.Free() && p !in EndSubtree(n, t).Free()
    ensures EndSubtree(n, t).pcb[p].ps == n.pcb[p].ps
  {
    var o := OutChild(n, t);
    OutChildKeeps(n, t, Roots(n), Held(n));
    OutChildCounts(n, t);
    RecursiveTerminationExact(o, t, Roots(n) + {t});
    AlikeContext(o, EndSubtree(n, t), Family(o, t), p);
  }

  lemma AlikeContext(n: Nuc, m: Nuc, gone: set<Idx>, p: Idx)
    requires Alike(n, m, gone) && Freed(n, m, gone) && p !in m.Free()
    ensures m.pcb[p].ps == n.pcb[p].ps
  {
    assert Spared(n.pcb[p], m.pcb[p]);
  }

  lemma AfterEndContext(a: Nuc, c: Idx, ps: PState, t1: int, t2: int, p: Idx)
    requires p !in a.Free() && a.current == Some(c)
    ensures
      var m := if c in a.Free() then Scheduler(a.(current := None), t2)
               else Scheduler(MakeReady(SaveState(a, c, ps, t1), c), t2);
      Context(m, p) == if c == p then ps else a.pcb[p].ps
  {
    if c in a.Free() {
      SchedulerContext(a.(current := None), t2, p);
    } else {
      RequeueContext(a, c, ps, t1, t2, p);
    }
  }

  /** What terminateProcess does after ending the family of t, if it has found a t. */
  lemma EndedContext(n: Nuc, t: Idx, ps: PState, t1: int, t2: int, p: Idx)
    requires Inv(n) && n.current.Some? && t !in n.Free() && p !in EndSubtree(n, t).Free()
    ensures
      var a, c := EndSubtree(n, t), n.current.value;
      var m := if c in a.Free() then Scheduler(a.(current := None), t2)
               else Scheduler(MakeReady(SaveState(a, c, ps, t1), c), t2);
      Context(m, p) == if n.current == Some(p) then ps else n.pcb[p].ps
  {
    assert EndSubtree(n, t).current == n.current by { EndSubtreeExact(n, t); }
    assert EndSubtree(n, t).pcb[p].ps == n.pcb[p].ps by { EndContext(n, t, p); }
    AfterEndContext(EndSubtree(n, t), n.current.value, ps, t1, t2, p);
  }

  lemma TerminateContext(n: Nuc, ps: PState, pid: int, t1: int, t2: int, p: Idx)
    requires Inv(n) && n.current.Some? && p !in TerminateProcess(n, ps, pid, t1, t2).Free()
    ensures Context(TerminateProcess(n, ps, pid, t1, t2), p) == if n.current == Some(p) then ps else n.pcb[p].ps
  {
    TerminateEffect(n, ps, pid, t1, t2, 0);
    var target := if pid == 0 then n.current else FindPid(n, pid, 0);
    if target.None? {
      AfterEndContext(n, n.current.value, ps, t1, t2, p);
    } else {
      EndedContext(n, target.value, ps, t1, t2, p);
    }
  }

  lemma DieContext(n: Nuc, t2: int, p: Idx)
    requires Inv(n) && n.current.Some? && p !in Die(n, t2).Free()
    ensures n.current != Some(p) && Context(Die(n, t2), p) == n.pcb[p].ps
  {
    var c := n.current.value;
    EndSubtreeExact(n, c);
    WithSelf(n, c);
    EndContext(n, c, p);
    SchedulerContext(EndSubtree(n, c).(current := None), t2, p);
  }

  lemma CreateContext(n: Nuc, ps: PState, state: PState, prio: int, support: int, p: Idx)
    requires n.current.Some? && p !in n.Free()
    ensures
      var m := CreateProcess(n, ps, state, prio, support);
      Context(m, p) == if n.current != Some(p) then n.pcb[p].ps
                       else ps.(a0 := if n.Free() == [] then -1 else n.nextPid)
  {
    HeadIsMember(n.Free());
  }

  lemma VContext(n: Nuc, k: int, p: Idx)
    ensures VOnSem(n, k).1.pcb[p].ps == n.pcb[p].ps
  {
  }

  lemma FirstWoken(n: Nuc, k: int)
    requires Inv(n)
    ensures VOnSem(n, k).0 == if n.Waiters(k) == [] then None else Some(n.Waiters(k)[0])
  {
    if n.Desc(k).Some? {
      HeadWaits(n, k, Held(n));
    }
  }

  lemma InterruptContext(n: Nuc, ps: PState, k: int, status: int, t1: int, t2: int, p: Idx)
    requires Inv(n)
    ensures
      Context(DeviceDone(n, ps, k, status, t1, t2), p) ==
        if n.current == Some(p) then ps
        else if n.Waiters(k) != [] && n.Waiters(k)[0] == p then n.pcb[p].ps.(a0 := status)
        else n.pcb[p].ps
  {
    var a := ChargeCurrent(n, t1);
    ChargeCurrentKeeps(n, t1);
    ChargeQuiet(n, t1, k);
    FirstWoken(a, k);
    VContext(a, k, p);
    VFrame(a, k);
    ResumeContext(Answer(a, k, status), ps, t2, p);
  }

  lemma TickContext(n: Nuc, ps: PState, t1: int, t2: int, p: Idx)
    requires Inv(n)
    ensures Context(ClockTick(n, ps, t1, t2), p) == if n.current == Some(p) then ps else n.pcb[p].ps
  {
    var a := ChargeCurrent(n, t1);
    ChargeCurrentKeeps(n, t1);
    ClockWakeUp(a, p, p);
    WakeClockFrame(a);
    var b := WakeClock(a);
    ResumeContext(b.(sem := b.sem[PSEUDOCLOCK := 0]), ps, t2, p);
  }

  lemma OwnContext(n: Nuc, e: Event, p: Idx)
    requires Enabled(n, e) && !Dispatches(n, e) && n.current.Some?
    requires e.P? || e.V? || e.CpuTime? || e.SupportData? || e.ProcessId? || e.Trap?
    ensures Context(Step(n, e), p) == Expected(n, e, p)
  {
    if e.V? {
      VContext(n, e.k, p);
      VFrame(n, e.k);
    }
  }

  // ---- events and runs ----

  lemma WaitContext(n: Nuc, e: Event, p: Idx)
    requires Inv(n) && Enabled(n, e) && Dispatches(n, e) && (e.P? || e.DoIO? || e.WaitClock?)
    ensures Context(Step(n, e), p) == Expected(n, e, p)
  {
    match e
    case P(ps, k, t1, t2) => BlockContext(n, k, ps, t1, t2, p);
    case DoIO(ps, port, t1, t2) => PortsPair(port); BlockContext(n, InterruptKey(port), ps, t1, t2, p);
    case WaitClock(ps, t1, t2) => BlockContext(n, PSEUDOCLOCK, ps, t1, t2, p);
  }

  lemma PreemptContext(n: Nuc, e: Event, p: Idx)
    requires Enabled(n, e) && (e.YieldCpu? || e.Slice?)
    ensures Context(Step(n, e), p) == Expected(n, e, p)
  {
    if e.YieldCpu? {
      YieldContext(n, e.ps, e.t1, e.t2, p);
    } else {
      RequeueContext(n, n.current.value, e.ps, e.t1, e.t2, p);
    }
  }

  lemma LifeContext(n: Nuc, e: Event, p: Idx)
    requires Inv(n) && Enabled(n, e) && p !in n.Free() && p !in Step(n, e).Free()
    requires e.Create? || e.Terminate? || (e.Trap? && Dispatches(n, e))
    ensures Context(Step(n, e), p) == Expected(n, e, p)
  {
    match e
    case Create(ps, state, prio, support) => CreateContext(n, ps, state, prio, support, p);
    case Terminate(ps, pid, t1, t2) => TerminateContext(n, ps, pid, t1, t2, p);
    case Trap(t2) => DieContext(n, t2, p);
  }

  lemma InterruptedContext(n: Nuc, e: Event, p: Idx)
    requires Inv(n) && Enabled(n, e) && IsInterrupt(e)
    ensures Context(Step(n, e), p) == Expected(n, e, p)
  {
    match e
    case Interrupt(ps, signal, t1, t2) =>
      InterruptContext(n, ps, InterruptKey(signal.Source()), signal.Answer(), t1, t2, p);
    case Tick(ps, t1, t2) => TickContext(n, ps, t1, t2, p);
  }

  /** Every event leaves every surviving process with the context it should have. */
  lemma StepContext(n: Nuc, e: Event, p: Idx)
    requires Inv(n) && Enabled(n, e) && p !in n.Free() && p !in Step(n, e).Free()
    ensures Context(Step(n, e), p) == Expected(n, e, p)
  {
    if IsInterrupt(e) {
      InterruptedContext(n, e, p);
    } else if e.Create? || e.Terminate? || (e.Trap? && Dispatches(n, e)) {
      LifeContext(n, e, p);
    } else if e.YieldCpu? || e.Slice? {
      PreemptContext(n, e, p);
    } else if Dispatches(n, e) {
      WaitContext(n, e, p);
    } else {
      OwnContext(n, e, p);
    }
  }

  lemma RunContext(ss: seq<Nuc>, es: seq<Event>, j: nat, i: nat, p: Idx)
    requires Run(ss, es) && i == j + 1 <= |es| && p !in ss[j].Free() && p !in ss[i].Free()
    ensures Enabled(ss[j], es[j]) && Context(ss[i], p) == Expected(ss[j], es[j], p)
  {
    NextState(ss, es, j, i);
    RunInv(ss, es, j);
    StepContext(ss[j], es[j], p);
  }

  /** A process that is not running keeps all its registers, a0 included unless a device answers it. */
  lemma {:induction false} ContextKept(ss: seq<Nuc>, es: seq<Event>, i: nat, j: nat, p: Idx)
    requires Run(ss, es) && i <= j <= |es| && forall m :: i <= m <= j ==> p !in ss[m].Free()
    requires forall m :: i <= m < j ==> ss[m].current != Some(p)
    ensures Context(ss[j], p).regs == Context(ss[i], p).regs
    ensures Context(ss[j], p) == Context(ss[i], p)
         || exists m :: i <= m < j && es[m].Interrupt? && Context(ss[j], p).a0 == es[m].signal.Answer()
    decreases j
  {
    if i < j {
      var h: nat := j - 1;
      assert p !in ss[h].Free() && p !in ss[j].Free() && ss[h].current != Some(p);
      ContextKept(ss, es, i, h, p);
      RunContext(ss, es, h, j, p);
    }
  }

  /** A process that was running at event i and runs again in state j, not having run in between, goes on with
      the registers it had at the exception; its a0 is what its own system call or a device put there. */
  lemma GoesOn(ss: seq<Nuc>, es: seq<Event>, i: nat, j: nat, p: Idx)
    requires Run(ss, es) && i < j <= |es| && forall m :: i <= m <= j ==> p !in ss[m].Free()
    requires ss[i].current == Some(p) && ss[j].current == Some(p)
    requires forall m :: i < m < j ==> ss[m].current != Some(p)
    ensures Enabled(ss[i], es[i]) && ss[j].cpu.regs == After(ss[i], es[i]).regs
    ensures ss[j].cpu == After(ss[i], es[i])
         || exists m :: i < m < j && es[m].Interrupt? && ss[j].cpu.a0 == es[m].signal.Answer()
  {
    var h := i + 1;
    assert p !in ss[h].Free() && p !in ss[i].Free();
    RunContext(ss, es, i, h, p);
    ContextKept(ss, es, h, j, p);
  }

  // ---- creation ----

  lemma CreatedFields(n: Nuc, ps: PState, state: PState, prio: int, support: int, q: Idx)
    requires n.current.Some? && n.Free() != [] && n.current.value != n.Free()[0]
    ensures
      var m, c, p := CreateProcess(n, ps, state, prio, support), n.current.value, n.Free()[0];
      && m.pcb[p] == Pcb(Some(c), 0, None, support, prio, n.nextPid, state) && m.cpu == ps.(a0 := n.nextPid)
      && m.psib[c] == n.psib[c] + [p] && m.psib[p] == [] && m.Free() == n.Free()[1..]
      && (q != p ==> m.pcb[q] == n.pcb[q]) && m.processCount == n.processCount + 1
  {
  }

  /** A created process starts in the state its creator passed, with time 0, ready, as the last child of the
      creator, under a pid that no other live process has and that the creator finds in its a0; nothing happens
      to any other live process. */
  lemma Created(n: Nuc, ps: PState, state: PState, prio: int, support: int, q: Idx)
    requires Inv(n) && n.current.Some? && n.Free() != []
    ensures
      var m, c, p := CreateProcess(n, ps, state, prio, support), n.current.value, n.Free()[0];
      && m.pcb[p] == Pcb(Some(c), 0, None, support, prio, m.cpu.a0, state)
      && p in m.Ready() && m.psib[c] == n.psib[c] + [p] && m.psib[p] == []
      && (q !in n.Free() ==> n.pcb[q].pid != m.cpu.a0 && m.pcb[q] == n.pcb[q])
      && (q in m.Free() <==> q in n.Free() && q != p) && m.processCount == n.processCount + 1
  {
    var p := n.Free()[0];
    HeadIsMember(n.Free());
    FirstFree(n);
    CreatedFields(n, ps, state, prio, support, q);
    CreatedReady(n, ps, state, prio, support);
    var m := CreateProcess(n, ps, state, prio, support);
    InsertAtMembers(n.Ready(), InsertPos(m.pcb, n.Ready(), m.pcb[p].prio), p);
    LivePid(n, q);
  }

  lemma FirstFree(n: Nuc)
    requires Inv(n) && n.Free() != []
    ensures forall q: Idx :: q in n.Free()[1..] <==> q in n.Free() && q != n.Free()[0]
  {
    RemoveAtMembers(n.Free(), 0);
    assert RemoveAt(n.Free(), 0) == n.Free()[1..];
  }

  lemma LivePid(n: Nuc, q: Idx)
    requires Inv(n)
    ensures q !in n.Free() ==> n.pcb[q].pid < n.nextPid
  {
  }
}
