/** Time accounting: no instant is charged twice, and what a process is told about its CPU time never drops. */
module CpuTimes {
  import opened Lists
  import opened ListX
  import opened Nucleus
  import opened Devices
  import opened Invariant
  import opened Termination
  import opened Soundness
  import opened ClockTicks
  import opened ProcessLife
  import opened Steps
  import opened Runs
  import opened BoundedWaiting

  /** The processor time p has had: its account, and the current slice if p is running. */
  function Cpu(n: Nuc, p: Idx): int {
    n.pcb[p].time + if n.current == Some(p) then n.now - n.start else 0
  }

  /** Sum of the first k accounts. */
  ghost function Total(pcb: PcbTable, k: nat): int
    requires k <= MAXPROC
  {
    if k == 0 then 0 else Total(pcb, k - 1) + pcb[k - 1].time
  }

  /** Sum of what all processes have had. */
  ghost function TotalCpu(n: Nuc, k: nat): int
    requires k <= MAXPROC
  {
    if k == 0 then 0 else TotalCpu(n, k - 1) + Cpu(n, k - 1)
  }

  /** The accounts are covered by the time from boot to the start of the slice now running. */
  ghost predicate Accounts(n: Nuc, boot: int) {
    && boot <= n.start <= n.now
    && (forall p: Idx :: n.pcb[p].time >= 0)
    && Total(n.pcb, MAXPROC) <= (if n.current.Some? then n.start else n.now) - boot
  }

  /** Events at which the running process, if there is one, is charged its slice. */
  predicate Charges(n: Nuc, e: Event)
    requires Enabled(n, e)
  {
    (Dispatches(n, e) && !e.Trap?) || IsInterrupt(e)
  }

  /** What the event adds to the account of q. */
  function Bill(n: Nuc, e: Event, q: Idx): int
    requires Enabled(n, e)
  {
    if Charges(n, e) && n.current == Some(q) then First(n, e) - n.start else 0
  }

  /** Accounts after an event: those alive throughout are billed, any other is cleared or was empty before. */
  ghost predicate Billed(n: Nuc, e: Event, m: Nuc)
    requires Enabled(n, e)
  {
    forall q: Idx ::
      if q in n.Free() || q in m.Free() then m.pcb[q].time == 0 || m.pcb[q].time == n.pcb[q].time
      else m.pcb[q].time == n.pcb[q].time + Bill(n, e, q)
  }

  /** The clock after an event: a new slice starts at t2 after a dispatch or an interrupt. */
  ghost predicate Clocked(n: Nuc, e: Event, m: Nuc)
    requires Enabled(n, e)
  {
    if Dispatches(n, e) || IsInterrupt(e) then
      m.now == Second(n, e) && (if m.current.Some? then m.start == m.now else m.start == n.start)
    else n.now <= m.now <= First(n, e) && m.start == n.start && m.current == n.current
  }

  // ---- events ----

  lemma EndTimes(n: Nuc, t: Idx, q: Idx)
    requires Inv(n) && t !in n.Free()
    ensures
      var m := EndSubtree(n, t);
      m.pcb[q].time == if q in m.Free() && q !in n.Free() then 0 else n.pcb[q].time
  {
    var o := OutChild(n, t);
    OutChildKeeps(n, t, Roots(n), Held(n));
    OutChildCounts(n, t);
    RecursiveTerminationExact(o, t, Roots(n) + {t});
    AlikeTime(o, EndSubtree(n, t), Family(o, t), q);
    assert o.pcb[q].time == n.pcb[q].time;
  }

  lemma AlikeTime(n: Nuc, m: Nuc, gone: set<Idx>, q: Idx)
    requires Alike(n, m, gone) && Freed(n, m, gone) && forall p :: p in gone ==> p !in n.Free()
    ensures m.pcb[q].time == if q in m.Free() && q !in n.Free() then 0 else n.pcb[q].time
  {
    assert q !in gone ==> Spared(n.pcb[q], m.pcb[q]);
  }

  lemma TerminateBills(n: Nuc, e: Event)
    requires Inv(n) && Enabled(n, e) && e.Terminate?
    ensures Billed(n, e, Step(n, e)) && Clocked(n, e, Step(n, e))
  {
    var c := n.current.value;
    var target := if e.pid == 0 then Some(c) else FindPid(n, e.pid, 0);
    if target.None? {
      AfterBills(n, e, n);
    } else {
      var a := EndSubtree(n, target.value);
      EndSubtreeExact(n, target.value);
      forall q: Idx ensures a.pcb[q].time == if q in a.Free() && q !in n.Free() then 0 else n.pcb[q].time {
        EndTimes(n, target.value, q);
      }
      AfterBills(n, e, a);
    }
  }

  /** What terminateProcess does after the termination a. */
  lemma AfterBills(n: Nuc, e: Event, a: Nuc)
    requires Enabled(n, e) && e.Terminate? && n.current.Some? && n.current.value !in n.Free()
    requires forall q: Idx :: a.pcb[q].time == if q in a.Free() && q !in n.Free() then 0 else n.pcb[q].time
    requires forall q: Idx :: q in n.Free() ==> q in a.Free()
    requires a.start == n.start && a.current == n.current
    ensures
      var c := n.current.value;
      var m := if c in a.Free() then Scheduler(a.(current := None), e.t2)
               else Scheduler(MakeReady(SaveState(a, c, e.ps, e.t1), c), e.t2);
      Billed(n, e, m) && Clocked(n, e, m)
  {
    var c := n.current.value;
    if c !in a.Free() {
      Inserted(SaveState(a, c, e.ps, e.t1), c);
    }
  }

  lemma Inserted(n: Nuc, c: Idx)
    ensures MakeReady(n, c).Ready() != []
  {
  }

  lemma CreateTimes(n: Nuc, ps: PState, state: PState, prio: int, support: int)
    requires n.current.Some?
    ensures
      var m := CreateProcess(n, ps, state, prio, support);
      && m.now == n.now && m.start == n.start && m.current == n.current
      && forall q: Idx :: m.pcb[q].time == n.pcb[q].time || (q in n.Free() && m.pcb[q].time == 0)
  {
    HeadIsMember(n.Free());
  }

  lemma CreateBills(n: Nuc, e: Event)
    requires Inv(n) && Enabled(n, e) && e.Create?
    ensures Billed(n, e, Step(n, e)) && Clocked(n, e, Step(n, e))
  {
    CreateTimes(n, e.ps, e.state, e.prio, e.support);
    NotFreeStays(n, e);
    CreateBilled(n, e, CreateProcess(n, e.ps, e.state, e.prio, e.support));
  }

  lemma CreateBilled(n: Nuc, e: Event, m: Nuc)
    requires Enabled(n, e) && e.Create? && m.now == n.now && m.start == n.start && m.current == n.current
    requires forall q: Idx :: m.pcb[q].time == n.pcb[q].time || (q in n.Free() && m.pcb[q].time == 0)
    requires forall q: Idx :: q in m.Free() ==> q in n.Free()
    ensures Billed(n, e, m) && Clocked(n, e, m)
  {
  }

  lemma NotFreeStays(n: Nuc, e: Event)
    requires Enabled(n, e) && e.Create?
    ensures forall q: Idx :: q in Step(n, e).Free() ==> q in n.Free()
  {
    if n.Free() != [] {
      assert n.Free() == [n.Free()[0]] + n.Free()[1..];
    }
  }

  /** The bill is in the accounts when the scheduler is called. */
  lemma Finish(n: Nuc, e: Event, r: Nuc)
    requires Enabled(n, e) && Dispatches(n, e) && Billed(n, e, r) && r.start == n.start
    requires r.current.None? || r.Ready() != []
    ensures Billed(n, e, Scheduler(r, Second(n, e))) && Clocked(n, e, Scheduler(r, Second(n, e)))
  {
  }

  lemma BlockTimes(n: Nuc, k: int, ps: PState, t: int, q: Idx)
    requires n.current.Some?
    ensures
      var b := Block(n, k, ps, t);
      && b.pcb[q].time == n.pcb[q].time + (if n.current == Some(q) then t - n.start else 0)
      && b.Free() == n.Free() && b.start == n.start && b.current.None?
  {
  }

  lemma BlockedTimes(n: Nuc, k: int, ps: PState, t: int)
    requires n.current.Some?
    ensures
      var b := Block(n, k, ps, t);
      && b.Free() == n.Free() && b.start == n.start && b.current.None?
      && forall q: Idx :: b.pcb[q].time == n.pcb[q].time + (if n.current == Some(q) then t - n.start else 0)
  {
    BlockTimes(n, k, ps, t, 0);
    var b := Block(n, k, ps, t);
    forall q: Idx ensures b.pcb[q].time == n.pcb[q].time + (if n.current == Some(q) then t - n.start else 0) {
      BlockTimes(n, k, ps, t, q);
    }
  }

  lemma BlockBills(n: Nuc, e: Event, k: int, ps: PState, t1: int)
    requires Enabled(n, e) && Dispatches(n, e) && !e.Trap? && n.current.Some? && n.current.value !in n.Free()
    requires t1 == First(n, e)
    ensures
      var b := Block(n, k, ps, t1);
      var t2 := Second(n, e);
      && Billed(n, e, Scheduler(b, t2)) && Clocked(n, e, Scheduler(b, t2))
      && Billed(n, e, Scheduler(b.(softBlockCount := b.softBlockCount + 1), t2))
      && Clocked(n, e, Scheduler(b.(softBlockCount := b.softBlockCount + 1), t2))
  {
    var b := Block(n, k, ps, t1);
    BlockedTimes(n, k, ps, t1);
    FinishPlainly(n, e, b);
    FinishPlainly(n, e, b.(softBlockCount := b.softBlockCount + 1));
  }

  lemma BilledPlainly(n: Nuc, e: Event, b: Nuc)
    requires Enabled(n, e) && Charges(n, e) && b.Free() == n.Free()
    requires n.current.Some? && n.current.value !in n.Free()
    requires forall q: Idx ::
      b.pcb[q].time == n.pcb[q].time + (if n.current == Some(q) then First(n, e) - n.start else 0)
    ensures Billed(n, e, b)
  {
  }

  lemma FinishPlainly(n: Nuc, e: Event, b: Nuc)
    requires Enabled(n, e) && Dispatches(n, e) && !e.Trap? && b.Free() == n.Free() && b.start == n.start
    requires n.current.Some? && n.current.value !in n.Free()
    requires forall q: Idx ::
      b.pcb[q].time == n.pcb[q].time + (if n.current == Some(q) then First(n, e) - n.start else 0)
    ensures
      var m := Scheduler(b.(current := None), Second(n, e));
      Billed(n, e, m) && Clocked(n, e, m)
  {
    BilledPlainly(n, e, b.(current := None));
    Finish(n, e, b.(current := None));
  }

  lemma RequeueTimes(n: Nuc, c: Idx, ps: PState, t: int, q: Idx)
    ensures
      var b := MakeReady(SaveState(n, c, ps, t), c);
      && b.pcb[q].time == n.pcb[q].time + (if c == q then t - n.start else 0)
      && b.Free() == n.Free() && b.start == n.start
  {
  }

  lemma YieldTimes(n: Nuc, c: Idx, ps: PState, t: int, q: Idx)
    ensures
      var b := GiveWay(SaveState(n, c, ps, t), c);
      && b.pcb[q].time == n.pcb[q].time + (if c == q then t - n.start else 0)
      && b.Free() == n.Free() && b.start == n.start
  {
  }

  lemma SliceBills(n: Nuc, e: Event)
    requires Inv(n) && Enabled(n, e) && e.Slice?
    ensures Billed(n, e, Step(n, e)) && Clocked(n, e, Step(n, e))
  {
    var c := n.current.value;
    var b := MakeReady(SaveState(n, c, e.ps, e.t1), c);
    forall q: Idx
      ensures b.pcb[q].time == n.pcb[q].time + (if c == q then e.t1 - n.start else 0)
      ensures b.Free() == n.Free() && b.start == n.start
    {
      RequeueTimes(n, c, e.ps, e.t1, q);
    }
    FinishPlainly(n, e, b);
  }

  lemma YieldBills(n: Nuc, e: Event)
    requires Inv(n) && Enabled(n, e) && e.YieldCpu?
    ensures Billed(n, e, Step(n, e)) && Clocked(n, e, Step(n, e))
  {
    var c := n.current.value;
    var b := GiveWay(SaveState(n, c, e.ps, e.t1), c);
    forall q: Idx
      ensures b.pcb[q].time == n.pcb[q].time + (if c == q then e.t1 - n.start else 0)
      ensures b.Free() == n.Free() && b.start == n.start
    {
      YieldTimes(n, c, e.ps, e.t1, q);
    }
    FinishPlainly(n, e, b);
  }

  lemma DieBills(n: Nuc, e: Event)
    requires Inv(n) && Enabled(n, e) && e.Trap? && Dispatches(n, e)
    ensures Billed(n, e, Step(n, e)) && Clocked(n, e, Step(n, e))
  {
    var c := n.current.value;
    var a := EndSubtree(n, c);
    EndSubtreeExact(n, c);
    WithSelf(n, c);
    forall q: Idx ensures a.pcb[q].time == if q in a.Free() && q !in n.Free() then 0 else n.pcb[q].time {
      EndTimes(n, c, q);
    }
    EndBilled(n, e, a);
  }

  lemma EndBilled(n: Nuc, e: Event, a: Nuc)
    requires Enabled(n, e) && e.Trap? && Dispatches(n, e) && n.current.Some? && n.current.value in a.Free()
    requires a.start == n.start && forall q: Idx :: q in n.Free() ==> q in a.Free()
    requires forall q: Idx :: a.pcb[q].time == if q in a.Free() && q !in n.Free() then 0 else n.pcb[q].time
    ensures
      var m := Scheduler(a.(current := None), e.t2);
      Billed(n, e, m) && Clocked(n, e, m)
  {
    Finish(n, e, a.(current := None));
  }

  lemma DoneTimes(n: Nuc, ps: PState, k: int, status: int, t1: int, t2: int, q: Idx)
    ensures
      var m := DeviceDone(n, ps, k, status, t1, t2);
      && m.pcb[q].time == n.pcb[q].time + (if n.current == Some(q) then t1 - n.start else 0)
      && m.Free() == n.Free() && m.now == t2 && (if m.current.Some? then m.start == t2 else m.start == n.start)
  {
    var a := ChargeCurrent(n, t1);
    VFrame(a, k);
    VTimes(a, k);
  }

  lemma InterruptBilled(n: Nuc, e: Event, m: Nuc)
    requires Enabled(n, e) && IsInterrupt(e) && (n.current.Some? ==> n.current.value !in n.Free())
    requires m.Free() == n.Free() && m.now == Second(n, e)
    requires if m.current.Some? then m.start == m.now else m.start == n.start
    requires forall q: Idx ::
      m.pcb[q].time == n.pcb[q].time + (if n.current == Some(q) then First(n, e) - n.start else 0)
    ensures Billed(n, e, m) && Clocked(n, e, m)
  {
  }

  lemma InterruptBills(n: Nuc, e: Event)
    requires Inv(n) && Enabled(n, e) && e.Interrupt?
    ensures Billed(n, e, Step(n, e)) && Clocked(n, e, Step(n, e))
  {
    var k, status := InterruptKey(e.signal.Source()), e.signal.Answer();
    var m := DeviceDone(n, e.ps, k, status, e.t1, e.t2);
    forall q: Idx
      ensures m.pcb[q].time == n.pcb[q].time + (if n.current == Some(q) then e.t1 - n.start else 0)
    {
      DoneTimes(n, e.ps, k, status, e.t1, e.t2, q);
    }
    DoneTimes(n, e.ps, k, status, e.t1, e.t2, 0);
    InterruptBilled(n, e, m);
  }

  lemma VTimes(n: Nuc, k: int)
    ensures forall q: Idx :: VOnSem(n, k).1.pcb[q].time == n.pcb[q].time
  {
  }

  lemma {:induction false} ReleasedTime(pcb: PcbTable, ws: seq<Idx>, x: Idx)
    ensures Released(pcb, ws)[x].time == pcb[x].time
    decreases |ws|
  {
    if ws != [] {
      ReleasedTime(pcb[ws[0] := pcb[ws[0]].(semAdd := None)], ws[1..], x);
    }
  }

  lemma WakeTimes(a: Nuc, q: Idx)
    ensures WakeClock(a).pcb[q].time == a.pcb[q].time
  {
    if a.Desc(PSEUDOCLOCK).Some? {
      ReleasedTime(a.pcb, a.Queue(a.Desc(PSEUDOCLOCK).value), q);
    }
  }

  lemma ResumeTimes(a: Nuc, ps: PState, t: int)
    ensures
      var m := Resume(a, ps, t);
      m.pcb == a.pcb && m.Free() == a.Free() && m.now == t && m.start == if m.current.Some? then t else a.start
  {
  }

  lemma TickTimes(n: Nuc, ps: PState, t1: int, t2: int)
    ensures
      var m := ClockTick(n, ps, t1, t2);
      && (forall q: Idx ::
            m.pcb[q].time == n.pcb[q].time + (if n.current == Some(q) then t1 - n.start else 0))
      && m.Free() == n.Free() && m.now == t2 && m.start == if m.current.Some? then t2 else n.start
  {
    var a := ChargeCurrent(n, t1);
    WakeClockFrame(a);
    var b := WakeClock(a);
    ResumeTimes(b.(sem := b.sem[PSEUDOCLOCK := 0]), ps, t2);
    forall q: Idx ensures b.pcb[q].time == a.pcb[q].time {
      WakeTimes(a, q);
    }
  }

  lemma TickBills(n: Nuc, e: Event)
    requires Inv(n) && Enabled(n, e) && e.Tick?
    ensures Billed(n, e, Step(n, e)) && Clocked(n, e, Step(n, e))
  {
    var m := Step(n, e);
    assert m == ClockTick(n, e.ps, e.t1, e.t2);
    TickTimes(n, e.ps, e.t1, e.t2);
    InterruptBilled(n, e, m);
  }

  lemma QuietBills(n: Nuc, e: Event)
    requires Enabled(n, e) && (e.V? || e.CpuTime? || e.SupportData? || e.ProcessId? || (e.P? && n.Val(e.k) > 0)
                               || (e.Trap? && !Dispatches(n, e)))
    ensures Billed(n, e, Step(n, e)) && Clocked(n, e, Step(n, e))
  {
    if e.V? {
      VTimes(n, e.k);
      VFrame(n, e.k);
    }
  }

  /** The events at which the running process blocks. */
  lemma WaitBills(n: Nuc, e: Event)
    requires Inv(n) && Enabled(n, e) && (e.WaitClock? || (e.P? && n.Val(e.k) <= 0))
    ensures Billed(n, e, Step(n, e)) && Clocked(n, e, Step(n, e))
  {
    BlockBills(n, e, if e.P? then e.k else PSEUDOCLOCK, e.ps, e.t1);
  }

  lemma RequestBills(n: Nuc, e: Event)
    requires Inv(n) && Enabled(n, e) && e.DoIO?
    ensures Billed(n, e, Step(n, e)) && Clocked(n, e, Step(n, e))
  {
    PortsPair(e.port);
    BlockBills(n, e, InterruptKey(e.port), e.ps, e.t1);
  }

  /** Every event bills exactly the running process for exactly its slice, or nobody. */
  lemma StepBills(n: Nuc, e: Event)
    requires Inv(n) && Enabled(n, e)
    ensures Billed(n, e, Step(n, e)) && Clocked(n, e, Step(n, e))
  {
    match e
    case Create(_, _, _, _) => CreateBills(n, e);
    case Terminate(_, _, _, _) => TerminateBills(n, e);
    case P(_, k, _, _) => if n.Val(k) <= 0 { WaitBills(n, e); } else { QuietBills(n, e); }
    case DoIO(_, _, _, _) => RequestBills(n, e);
    case WaitClock(_, _, _) => WaitBills(n, e);
    case YieldCpu(_, _, _) => YieldBills(n, e);
    case Trap(_) => if Dispatches(n, e) { DieBills(n, e); } else { QuietBills(n, e); }
    case Slice(_, _, _) => SliceBills(n, e);
    case Interrupt(_, _, _, _) => InterruptBills(n, e);
    case Tick(_, _, _) => TickBills(n, e);
    case V(_, _) => QuietBills(n, e);
    case CpuTime(_, _) => QuietBills(n, e);
    case SupportData(_) => QuietBills(n, e);
    case ProcessId(_, _) => QuietBills(n, e);
  }

  // ---- sums ----

  /** Accounts that grow by at most d for one process c, and for nobody else, grow by at most d in all. */
  lemma {:induction false} TotalGrows(a: PcbTable, b: PcbTable, c: Idx, d: nat, k: nat)
    requires k <= MAXPROC
    requires forall q: Idx :: b[q].time <= a[q].time + if q == c then d else 0
    ensures Total(b, k) <= Total(a, k) + if c < k then d else 0
  {
    if k > 0 {
      TotalGrows(a, b, c, d, k - 1);
    }
  }

  lemma {:induction false} TotalOfCpu(n: Nuc, k: nat)
    requires k <= MAXPROC
    ensures TotalCpu(n, k) == Total(n.pcb, k) + if n.current.Some? && n.current.value < k then n.now - n.start else 0
  {
    if k > 0 {
      TotalOfCpu(n, k - 1);
    }
  }

  lemma BilledAccounts(n: Nuc, e: Event, m: Nuc, boot: int)
    requires Enabled(n, e) && Accounts(n, boot) && Billed(n, e, m) && Clocked(n, e, m)
    requires n.current.Some? <==> n.mode == Running
    ensures Accounts(m, boot)
  {
    var c := if n.current.Some? then n.current.value else 0;
    var d := if Charges(n, e) && n.current.Some? then First(n, e) - n.start else 0;
    forall q: Idx ensures 0 <= m.pcb[q].time <= n.pcb[q].time + if q == c then d else 0 {
    }
    TotalGrows(n.pcb, m.pcb, c, d, MAXPROC);
  }

  /** Accounts stay covered by elapsed time in every state of every run. */
  lemma {:induction false} RunAccounts(ss: seq<Nuc>, es: seq<Event>, i: nat)
    requires Run(ss, es) && i <= |es|
    ensures Accounts(ss[i], ss[0].now)
  {
    if i == 0 {
      BootAccounts(ss[0]);
    } else {
      var j: nat := i - 1;
      RunAccounts(ss, es, j);
      NextAccounts(ss, es, j, i);
    }
  }

  lemma NextAccounts(ss: seq<Nuc>, es: seq<Event>, j: nat, i: nat)
    requires Run(ss, es) && i == j + 1 <= |es| && Accounts(ss[j], ss[0].now)
    ensures Accounts(ss[i], ss[0].now)
  {
    NextState(ss, es, j, i);
    RunInv(ss, es, j);
    StepBills(ss[j], es[j]);
    BilledAccounts(ss[j], es[j], ss[i], ss[0].now);
  }

  lemma BootAccounts(n: Nuc)
    requires IsBoot(n)
    ensures Accounts(n, n.now)
  {
    var memory: map<int, int>, skey: KeyTable, state: PState, t: int :|
      (forall k :: k in memory ==> memory[k] >= 0) && n == Boot(memory, skey, state, t);
    BootInv(memory, skey, state, t);
    forall p: Idx ensures n.pcb[p].time == 0 {
    }
    AllZero(n.pcb, MAXPROC);
  }

  lemma {:induction false} AllZero(pcb: PcbTable, k: nat)
    requires k <= MAXPROC && forall p: Idx :: pcb[p].time == 0
    ensures Total(pcb, k) == 0
  {
    if k > 0 {
      AllZero(pcb, k - 1);
    }
  }

  /** Time is never charged twice: all processes together have had no more than the time since boot. */
  lemma NeverTwice(ss: seq<Nuc>, es: seq<Event>, i: nat)
    requires Run(ss, es) && i <= |es|
    ensures TotalCpu(ss[i], MAXPROC) <= ss[i].now - ss[0].now
    ensures forall p: Idx :: Cpu(ss[i], p) >= 0
  {
    RunAccounts(ss, es, i);
    TotalOfCpu(ss[i], MAXPROC);
  }

  lemma StepCpu(n: Nuc, e: Event, p: Idx)
    requires Inv(n) && Enabled(n, e) && n.start <= n.now && p !in n.Free() && p !in Step(n, e).Free()
    ensures Cpu(n, p) <= Cpu(Step(n, e), p)
  {
    StepBills(n, e);
    if n.current == Some(p) && e.Trap? {
      TrapSurvived(n, e, p);
    }
  }

  /** The running process survives a trap only if it has a support structure. */
  lemma TrapSurvived(n: Nuc, e: Event, p: Idx)
    requires Inv(n) && Enabled(n, e) && e.Trap? && n.current == Some(p) && p !in Step(n, e).Free()
    ensures !Dispatches(n, e)
  {
    if Dispatches(n, e) {
      EndSubtreeExact(n, p);
      WithSelf(n, p);
    }
  }

  /** While p lives, its CPU time never decreases. */
  lemma {:induction false} CpuGrows(ss: seq<Nuc>, es: seq<Event>, i: nat, j: nat, p: Idx)
    requires Run(ss, es) && i <= j <= |es| && forall m :: i <= m <= j ==> p !in ss[m].Free()
    ensures Cpu(ss[i], p) <= Cpu(ss[j], p)
    decreases j
  {
    if i < j {
      CpuGrows(ss, es, i, j - 1, p);
      assert p !in ss[j - 1].Free() && p !in ss[j].Free();
      RunCpu(ss, es, j - 1, p);
    }
  }

  lemma RunCpu(ss: seq<Nuc>, es: seq<Event>, j: nat, p: Idx)
    requires Run(ss, es) && j < |es| && p !in ss[j].Free() && p !in ss[j + 1].Free()
    ensures Cpu(ss[j], p) <= Cpu(ss[j + 1], p)
  {
    assert Stepped(ss, es, j);
    RunInv(ss, es, j);
    RunAccounts(ss, es, j);
    StepCpu(ss[j], es[j], p);
  }

  lemma Reported(ss: seq<Nuc>, es: seq<Event>, i: nat, p: Idx)
    requires Run(ss, es) && i < |es| && es[i].CpuTime? && ss[i].current == Some(p)
    ensures ss[i + 1].cpu.a0 == Cpu(ss[i + 1], p) && ss[i + 1].Free() == ss[i].Free()
  {
    assert Stepped(ss, es, i);
  }

  /** GetCPUTime reports Cpu, so of two reports to the same life of a process the later is no smaller. */
  lemma ReportsGrow(ss: seq<Nuc>, es: seq<Event>, i: nat, j: nat, p: Idx)
    requires Run(ss, es) && i < j < |es| && es[i].CpuTime? && es[j].CpuTime?
    requires ss[i].current == Some(p) && ss[j].current == Some(p)
    requires forall m :: i < m <= j ==> p !in ss[m].Free()
    ensures 0 <= ss[i + 1].cpu.a0 == Cpu(ss[i + 1], p) <= Cpu(ss[j + 1], p) == ss[j + 1].cpu.a0
  {
    Reported(ss, es, i, p);
    Reported(ss, es, j, p);
    NeverTwice(ss, es, i + 1);
    CpuGrows(ss, es, i + 1, j + 1, p);
  }
}
