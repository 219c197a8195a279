/** Who has the processor after an event: an interrupt gives it back to the process it interrupted, only that
    process's own exception or the end of its slice takes it away, and it then goes to the best ready process. */
module Processor {
  import opened Lists
  import opened ListX
  import opened Nucleus
  import opened Devices
  import opened Invariant
  import opened Termination
  import opened Soundness
  import opened ClockTicks
  import opened ProcessLife
  import opened Steps
  import opened Runs
  import opened BoundedWaiting
  import opened Contexts

  // ---- the running process goes on ----

  lemma DoneRuns(n: Nuc, ps: PState, k: int, status: int, t1: int, t2: int)
    requires n.current.Some?
    ensures var m := DeviceDone(n, ps, k, status, t1, t2); m.current == n.current && m.cpu == ps && m.mode == n.mode
  {
    VFrame(ChargeCurrent(n, t1), k);
  }

  lemma TickRuns(n: Nuc, ps: PState, t1: int, t2: int)
    requires n.current.Some?
    ensures var m := ClockTick(n, ps, t1, t2); m.current == n.current && m.cpu == ps && m.mode == n.mode
  {
    WakeClockFrame(ChargeCurrent(n, t1));
  }

  /** A process that is interrupted goes on at once with the registers it had, whoever the interrupt wakes. */
  lemma InterruptedGoesOn(n: Nuc, e: Event)
    requires Inv(n) && Enabled(n, e) && (e.Interrupt? || e.Tick?) && n.current.Some?
    ensures Step(n, e).current == n.current && Step(n, e).cpu == e.ps && Step(n, e).mode == Running
  {
    match e
    case Interrupt(ps, signal, t1, t2) => DoneRuns(n, ps, InterruptKey(signal.Source()), signal.Answer(), t1, t2);
    case Tick(ps, t1, t2) => TickRuns(n, ps, t1, t2);
  }

  /** The events at which the running process leaves the processor: its own terminating, waiting and yielding calls,
      a P that blocks, a trap it does not survive, and the end of its slice. */
  predicate GivesUp(n: Nuc, e: Event)
    requires Enabled(n, e)
  {
    match e
    case Terminate(_, _, _, _) => true
    case P(_, k, _, _) => n.Val(k) <= 0
    case DoIO(_, _, _, _) => true
    case WaitClock(_, _, _) => true
    case YieldCpu(_, _, _) => true
    case Slice(_, _, _) => true
    case Trap(_) => n.pcb[n.current.value].support == 0
    case _ => false
  }

  /** At any other event it goes on, with the state the event leaves to it. */
  lemma StaysOn(n: Nuc, e: Event)
    requires Inv(n) && Enabled(n, e) && n.current.Some? && !GivesUp(n, e)
    ensures Step(n, e).current == n.current && Step(n, e).cpu == After(n, e) && Step(n, e).mode == Running
  {
    if e.Interrupt? || e.Tick? {
      InterruptedGoesOn(n, e);
    } else if e.V? {
      VFrame(n, e.k);
    } else {
      CallStays(n, e);
    }
  }

  lemma CallStays(n: Nuc, e: Event)
    requires Enabled(n, e) && !GivesUp(n, e)
    requires e.Create? || e.P? || e.CpuTime? || e.SupportData? || e.ProcessId? || e.Trap?
    ensures Step(n, e).current == n.current && Step(n, e).cpu == After(n, e) && Step(n, e).mode == n.mode
  {
  }

  /** Over any run: the processor stays with a process until that process itself gives it up. */
  lemma {:induction false} KeepsProcessor(ss: seq<Nuc>, es: seq<Event>, i: nat, j: nat, c: Idx)
    requires Run(ss, es) && i <= j <= |es| && ss[i].current == Some(c)
    requires forall m :: i <= m < j ==> Enabled(ss[m], es[m]) && !GivesUp(ss[m], es[m])
    ensures ss[j].current == Some(c)
    decreases j
  {
    if i < j {
      var h: nat := j - 1;
      KeepsProcessor(ss, es, i, h, c);
      NextState(ss, es, h, j);
      RunInv(ss, es, h);
      StaysOn(ss[h], es[h]);
    }
  }

  // ---- the scheduler's choice ----

  /** Nobody who is ready has a higher priority than the running process. */
  ghost predicate BestRuns(m: Nuc) {
    m.current.Some? ==> forall x: Idx :: x in m.Ready() ==> m.pcb[x].prio <= m.pcb[m.current.value].prio
  }

  lemma SchedulerBest(r: Nuc, t: int)
    requires Ordered(r.pcb, r.Ready()) && (r.current.None? || r.Ready() != [])
    ensures BestRuns(Scheduler(r, t))
  {
    var m := Scheduler(r, t);
    if r.Ready() != [] {
      forall x: Idx | x in m.Ready() ensures m.pcb[x].prio <= r.pcb[r.Ready()[0]].prio {
        var i :| 0 <= i < |m.Ready()| && m.Ready()[i] == x;
        assert r.Ready()[i + 1] == x;
      }
    }
  }

  lemma SlicedBest(n: Nuc, c: Idx, ps: PState, t1: int, t2: int)
    requires Ordered(n.pcb, n.Ready())
    ensures
      var b := MakeReady(SaveState(n, c, ps, t1), c);
      BestRuns(Scheduler(b, t2)) && BestRuns(Scheduler(b.(current := None), t2))
  {
    var a := SaveState(n, c, ps, t1);
    var b := MakeReady(a, c);
    OrderedSame(n.pcb, a.pcb, n.Ready());
    InsertOrdered(a.pcb, a.Ready(), c);
    SchedulerBest(b, t2);
    SchedulerBest(b.(current := None), t2);
  }

  lemma BlockedBest(n: Nuc, k: int, ps: PState, t1: int, t2: int)
    requires Ordered(n.pcb, n.Ready()) && n.current.Some?
    ensures
      var b := Block(n, k, ps, t1);
      BestRuns(Scheduler(b, t2)) && BestRuns(Scheduler(b.(softBlockCount := b.softBlockCount + 1), t2))
  {
    var b := Block(n, k, ps, t1);
    BlockReady(SaveState(n, n.current.value, ps, t1), k, n.current.value);
    BlockPrio(n, k, ps, t1);
    OrderedSame(n.pcb, b.pcb, n.Ready());
    SchedulerBest(b, t2);
    SchedulerBest(b.(softBlockCount := b.softBlockCount + 1), t2);
  }

  lemma BlockPrio(n: Nuc, k: int, ps: PState, t1: int)
    requires n.current.Some?
    ensures forall q: Idx :: Block(n, k, ps, t1).pcb[q].prio == n.pcb[q].prio
  {
  }

  lemma EndedBest(a: Nuc, c: Idx, ps: PState, t1: int, t2: int)
    requires Ordered(a.pcb, a.Ready())
    ensures BestRuns(if c in a.Free() then Scheduler(a.(current := None), t2)
                     else Scheduler(MakeReady(SaveState(a, c, ps, t1), c), t2))
  {
    SlicedBest(a, c, ps, t1, t2);
    SchedulerBest(a.(current := None), t2);
  }

  lemma EndOrdered(n: Nuc, t: Idx)
    requires Inv(n) && t !in n.Free()
    ensures Ordered(EndSubtree(n, t).pcb, EndSubtree(n, t).Ready())
  {
    EndSubtreeExact(n, t);
  }

  lemma TerminateBest(n: Nuc, ps: PState, pid: int, t1: int, t2: int)
    requires Inv(n) && n.current.Some?
    ensures BestRuns(TerminateProcess(n, ps, pid, t1, t2))
  {
    var target := if pid == 0 then n.current else FindPid(n, pid, 0);
    ReadyFacts(n);
    if target.Some? {
      EndOrdered(n, target.value);
      EndedBest(EndSubtree(n, target.value), n.current.value, ps, t1, t2);
    } else {
      EndedBest(n, n.current.value, ps, t1, t2);
    }
  }

  lemma DieBest(n: Nuc, t2: int)
    requires Inv(n) && n.current.Some?
    ensures BestRuns(Die(n, t2))
  {
    EndOrdered(n, n.current.value);
    SchedulerBest(EndSubtree(n, n.current.value).(current := None), t2);
  }

  lemma AnswerOrdered(n: Nuc, k: int, status: int)
    requires Inv(n)
    ensures Ordered(Answer(n, k, status).pcb, Answer(n, k, status).Ready())
  {
    VOnSemKeeps(n, k, Roots(n), Held(n));
    var m := VOnSem(n, k).1;
    OrderedSame(m.pcb, Answer(n, k, status).pcb, m.Ready());
  }

  lemma IdleBest(n: Nuc, e: Event)
    requires Inv(n) && Enabled(n, e) && (e.Interrupt? || e.Tick?) && n.current.None?
    ensures BestRuns(Step(n, e))
  {
    match e
    case Interrupt(ps, signal, t1, t2) => AnsweredBest(n, ps, InterruptKey(signal.Source()), signal.Answer(), t1, t2);
    case Tick(ps, t1, t2) => TickedBest(n, ps, t1, t2);
  }

  lemma AnsweredBest(n: Nuc, ps: PState, k: int, status: int, t1: int, t2: int)
    requires Inv(n) && n.current.None?
    ensures BestRuns(DeviceDone(n, ps, k, status, t1, t2))
  {
    AnswerOrdered(n, k, status);
    VFrame(n, k);
    SchedulerBest(Answer(n, k, status), t2);
  }

  lemma TickedBest(n: Nuc, ps: PState, t1: int, t2: int)
    requires Inv(n) && n.current.None?
    ensures BestRuns(ClockTick(n, ps, t1, t2))
  {
    var b := WakeClock(n);
    WakeClockSound(n, Held(n));
    WakeClockFrame(n);
    SchedulerBest(b.(sem := b.sem[PSEUDOCLOCK := 0]), t2);
  }

  /** Whenever the scheduler is called, other than by Yield, the processor goes to a process of the highest priority
      among those that are ready, the caller included if it still is. */
  lemma BestDispatched(n: Nuc, e: Event)
    requires Inv(n) && Enabled(n, e) && Dispatches(n, e) && !e.YieldCpu?
    ensures BestRuns(Step(n, e))
  {
    ReadyFacts(n);
    match e
    case Terminate(ps, pid, t1, t2) => TerminateBest(n, ps, pid, t1, t2);
    case Trap(t2) => DieBest(n, t2);
    case Slice(ps, t1, t2) => SlicedBest(n, n.current.value, ps, t1, t2);
    case Interrupt(_, _, _, _) => IdleBest(n, e);
    case Tick(_, _, _) => IdleBest(n, e);
    case _ => WaitBest(n, e);
  }

  lemma WaitBest(n: Nuc, e: Event)
    requires Inv(n) && Enabled(n, e) && Dispatches(n, e) && (e.P? || e.DoIO? || e.WaitClock?)
    ensures BestRuns(Step(n, e))
  {
    ReadyFacts(n);
    if e.DoIO? {
      PortsPair(e.port);
    }
    BlockedBest(n, if e.P? then e.k else if e.DoIO? then InterruptKey(e.port) else PSEUDOCLOCK, e.ps, e.t1, e.t2);
  }
}
