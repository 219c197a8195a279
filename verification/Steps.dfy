/** The nucleus as a state machine: one event per system call or interrupt, each keeping the invariant. */
module Steps {
  import opened Nucleus
  import opened Termination
  import opened Devices
  import opened Soundness
  import opened ClockTicks
  import opened ProcessLife

  /** ps is the processor state saved at the exception, t1 and t2 the clock values the handler reads. */
  datatype Event =
    | Create(ps: PState, state: PState, prio: int, support: int)
    | Terminate(ps: PState, pid: int, t1: int, t2: int)
    | P(ps: PState, k: int, t1: int, t2: int)
    | V(ps: PState, k: int)
    | DoIO(ps: PState, port: Port, t1: int, t2: int)
    | CpuTime(ps: PState, t1: int)
    | WaitClock(ps: PState, t1: int, t2: int)
    | SupportData(ps: PState)
    | ProcessId(ps: PState, a1: int)
    | YieldCpu(ps: PState, t1: int, t2: int)
    | Trap(t2: int)
    | Slice(ps: PState, t1: int, t2: int)
    | Interrupt(ps: PState, signal: Signal, t1: int, t2: int)
    | Tick(ps: PState, t1: int, t2: int)

  predicate IsInterrupt(e: Event) { e.Interrupt? || e.Tick? }

  function First(n: Nuc, e: Event): int {
    match e
    case Terminate(_, _, t1, _) => t1
    case P(_, _, t1, _) => t1
    case DoIO(_, _, t1, _) => t1
    case CpuTime(_, t1) => t1
    case WaitClock(_, t1, _) => t1
    case YieldCpu(_, t1, _) => t1
    case Trap(t2) => t2
    case Slice(_, t1, _) => t1
    case Interrupt(_, _, t1, _) => t1
    case Tick(_, t1, _) => t1
    case _ => n.now
  }

  function Second(n: Nuc, e: Event): int {
    match e
    case Terminate(_, _, _, t2) => t2
    case P(_, _, _, t2) => t2
    case DoIO(_, _, _, t2) => t2
    case WaitClock(_, _, t2) => t2
    case YieldCpu(_, _, t2) => t2
    case Slice(_, _, t2) => t2
    case Interrupt(_, _, _, t2) => t2
    case Tick(_, _, t2) => t2
    case _ => First(n, e)
  }

  /** When an event can happen. The clock is monotone; a system call, a trap or the end of a time slice
      needs a running process; an interrupt also finds an idle processor. User code applies P and V to its
      own semaphores only, and a device is asked for I/O while its semaphore is 0. */
  predicate Enabled(n: Nuc, e: Event) {
    && n.now <= First(n, e) <= Second(n, e)
    && (n.mode == Running || (IsInterrupt(e) && n.mode == Waiting))
    && (n.mode == Running ==> n.current.Some?)
    && match e
       case P(_, k, _, _) => !IsDevice(k)
       case V(_, k) => !IsDevice(k)
       case DoIO(_, port, _, _) => IsPort(port) && n.Val(InterruptKey(port)) == 0
       case Interrupt(_, signal, _, _) => signal.Genuine()
       case _ => true
  }

  function Step(n: Nuc, e: Event): Nuc
    requires Enabled(n, e)
  {
    match e
    case Create(ps, state, prio, support) => CreateProcess(n, ps, state, prio, support)
    case Terminate(ps, pid, t1, t2) => TerminateProcess(n, ps, pid, t1, t2)
    case P(ps, k, t1, t2) => Passeren(n, ps, k, t1, t2)
    case V(ps, k) => Verhogen(n, ps, k)
    case DoIO(ps, port, t1, t2) => DeviceWait(n, MapDeviceSemaphoreByAddr(CommandAddr(port)), ps, t1, t2)
    case CpuTime(ps, t1) => GetCPUTime(n, ps, t1)
    case WaitClock(ps, t1, t2) => DeviceWait(n, PSEUDOCLOCK, ps, t1, t2)
    case SupportData(ps) => GetSupportData(n, ps)
    case ProcessId(ps, a1) => GetProcessID(n, ps, a1)
    case YieldCpu(ps, t1, t2) => Yield(n, ps, t1, t2)
    case Trap(t2) => if n.pcb[n.current.value].support == 0 then Die(n, t2) else n.(now := t2)
    case Slice(ps, t1, t2) => LocalTimer(n, ps, t1, t2)
    case Interrupt(ps, signal, t1, t2) =>
      DeviceDone(n, ps, InterruptKey(signal.Source()), signal.Answer(), t1, t2)
    case Tick(ps, t1, t2) => ClockTick(n, ps, t1, t2)
  }

  lemma VerhogenKeeps(n: Nuc, ps: PState, k: int)
    requires Inv(n) && n.current.Some? && !IsDevice(k)
    ensures Inv(Verhogen(n, ps, k))
  {
    VSound(n, k, Held(n));
    VFrame(n, k);
    var m := VOnSem(n, k).1;
    assert Held(m) == Held(n);
    SimilarKeeps(m, m.(cpu := ps), Held(n));
  }

  /** Requests for I/O and the interrupts that answer them. */
  lemma DeviceKeeps(n: Nuc, e: Event)
    requires Inv(n) && Enabled(n, e) && (e.DoIO? || e.WaitClock? || e.Interrupt?)
    ensures Inv(Step(n, e))
  {
    match e
    case DoIO(ps, port, t1, t2) =>
      PortsPair(port);
      DeviceWaitKeeps(n, InterruptKey(port), ps, t1, t2);
    case WaitClock(ps, t1, t2) => DeviceWaitKeeps(n, PSEUDOCLOCK, ps, t1, t2);
    case Interrupt(ps, signal, t1, t2) =>
      PortsPair(signal.Source());
      DeviceDoneKeeps(n, ps, InterruptKey(signal.Source()), signal.Answer(), t1, t2);
  }

  /** System calls that change nothing but the caller's registers. */
  lemma QueryKeeps(n: Nuc, e: Event)
    requires Inv(n) && Enabled(n, e) && (e.CpuTime? || e.SupportData? || e.ProcessId?)
    ensures Inv(Step(n, e))
  {
    SimilarKeeps(n, Step(n, e), Held(n));
  }

  lemma TrapKeeps(n: Nuc, t: int)
    requires Inv(n) && n.current.Some?
    ensures Inv(if n.pcb[n.current.value].support == 0 then Die(n, t) else n.(now := t))
  {
    DieKeeps(n, t);
    SimilarKeeps(n, n.(now := t), Held(n));
  }

  lemma StepKeeps(n: Nuc, e: Event)
    requires Inv(n) && Enabled(n, e)
    ensures Inv(Step(n, e))
  {
    match e
    case Create(ps, state, prio, support) => CreateKeeps(n, ps, state, prio, support);
    case Terminate(ps, pid, t1, t2) => TerminateKeeps(n, ps, pid, t1, t2);
    case P(ps, k, t1, t2) => PassKeeps(n, ps, k, t1, t2);
    case V(ps, k) => VerhogenKeeps(n, ps, k);
    case DoIO(_, _, _, _) => DeviceKeeps(n, e);
    case CpuTime(_, _) => QueryKeeps(n, e);
    case WaitClock(_, _, _) => DeviceKeeps(n, e);
    case SupportData(_) => QueryKeeps(n, e);
    case ProcessId(_, _) => QueryKeeps(n, e);
    case YieldCpu(ps, t1, t2) => YieldKeeps(n, ps, t1, t2);
    case Trap(t2) => TrapKeeps(n, t2);
    case Slice(ps, t1, t2) => SliceKeeps(n, ps, t1, t2);
    case Interrupt(_, _, _, _) => DeviceKeeps(n, e);
    case Tick(ps, t1, t2) => TickKeeps(n, ps, t1, t2);
  }
}
