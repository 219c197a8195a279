/** What a process is: its parent, priority, pid and support structure never change, its children come and go in
    order, and no pid is ever given out twice. */
module Identities {
  import opened Lists
  import opened ListX
  import opened Nucleus
  import opened Devices
  import opened Invariant
  import opened Termination
  import opened Soundness
  import opened ProcessLife
  import opened Steps
  import opened Runs
  import opened Semaphores
  import opened Contexts

  ghost predicate SameIdentity(a: Pcb, b: Pcb) {
    a.parent == b.parent && a.prio == b.prio && a.pid == b.pid && a.support == b.support
  }

  /** p has the same identity and the same children. */
  ghost predicate Same(n: Nuc, m: Nuc, p: Idx) {
    SameIdentity(n.pcb[p], m.pcb[p]) && m.psib[p] == n.psib[p]
  }

  /** Nothing changes about the pool of processes as a whole. */
  ghost predicate SamePool(n: Nuc, m: Nuc) {
    m.Free() == n.Free() && m.root == n.root && m.nextPid == n.nextPid
  }

  // ---- events ----

  /** A process is created: somebody asks for one, and there is a free PCB. */
  predicate Creates(n: Nuc, e: Event) { e.Create? && n.Free() != [] }

  /** The children of p once the process t has been cut off the tree. */
  function ChildrenWithout(n: Nuc, t: Idx, p: Idx): seq<Idx> {
    if n.pcb[t].parent == Some(p) then Without(n.psib[p], t) else n.psib[p]
  }

  /** The children of p after an event: a child it creates is the last; one that terminates goes, the others keep
      their order. */
  ghost function ChildrenAfter(n: Nuc, e: Event, p: Idx): seq<Idx>
    requires Enabled(n, e)
  {
    if Creates(n, e) && n.current == Some(p) then n.psib[p] + [n.Free()[0]]
    else if Target(n, e).Some? then ChildrenWithout(n, Target(n, e).value, p)
    else n.psib[p]
  }

  lemma SchedulerSame(r: Nuc, t: int, p: Idx)
    ensures Same(r, Scheduler(r, t), p) && SamePool(r, Scheduler(r, t))
  {
  }

  lemma ResumeSame(r: Nuc, ps: PState, t: int, p: Idx)
    ensures Same(r, Resume(r, ps, t), p) && SamePool(r, Resume(r, ps, t))
  {
    SchedulerSame(r, t, p);
  }

  lemma SavedSame(n: Nuc, c: Idx, ps: PState, t: int, p: Idx)
    ensures Same(n, MakeReady(SaveState(n, c, ps, t), c), p) && SamePool(n, MakeReady(SaveState(n, c, ps, t), c))
  {
  }

  lemma BlockSame(n: Nuc, k: int, ps: PState, t: int, p: Idx)
    requires n.current.Some?
    ensures Same(n, Block(n, k, ps, t), p) && SamePool(n, Block(n, k, ps, t))
  {
  }

  lemma VSame(n: Nuc, k: int, p: Idx)
    ensures Same(n, VOnSem(n, k).1, p) && SamePool(n, VOnSem(n, k).1)
  {
  }

  lemma AnswerSame(n: Nuc, k: int, status: int, p: Idx)
    ensures Same(n, Answer(n, k, status), p) && SamePool(n, Answer(n, k, status))
  {
    VSame(n, k, p);
  }

  lemma {:induction false} ReleasedSame(pcb: PcbTable, q: seq<Idx>, p: Idx)
    ensures SameIdentity(pcb[p], Released(pcb, q)[p])
    decreases |q|
  {
    if q != [] {
      ReleasedSame(pcb[q[0] := pcb[q[0]].(semAdd := None)], q[1..], p);
    }
  }

  lemma WakeSame(n: Nuc, p: Idx)
    ensures Same(n, WakeClock(n), p) && SamePool(n, WakeClock(n))
  {
    if n.Desc(PSEUDOCLOCK).Some? {
      ReleasedSame(n.pcb, n.Queue(n.Desc(PSEUDOCLOCK).value), p);
    }
  }

  lemma InterruptSame(n: Nuc, e: Event, p: Idx)
    requires Enabled(n, e) && IsInterrupt(e)
    ensures Same(n, Step(n, e), p) && SamePool(n, Step(n, e))
  {
    match e
    case Interrupt(ps, signal, t1, t2) =>
      var k := InterruptKey(signal.Source());
      AnswerSame(ChargeCurrent(n, t1), k, signal.Answer(), p);
      ResumeSame(Answer(ChargeCurrent(n, t1), k, signal.Answer()), ps, t2, p);
    case Tick(ps, t1, t2) =>
      var m := WakeClock(ChargeCurrent(n, t1));
      WakeSame(ChargeCurrent(n, t1), p);
      ResumeSame(m.(sem := m.sem[PSEUDOCLOCK := 0]), ps, t2, p);
  }

  lemma WaitSame(n: Nuc, k: int, ps: PState, t1: int, t2: int, p: Idx)
    requires n.current.Some?
    ensures Same(n, DeviceWait(n, k, ps, t1, t2), p) && SamePool(n, DeviceWait(n, k, ps, t1, t2))
    ensures Same(n, Passeren(n, ps, k, t1, t2), p) && SamePool(n, Passeren(n, ps, k, t1, t2))
  {
    BlockSame(n, k, ps, t1, p);
  }

  lemma YieldSame(n: Nuc, ps: PState, t1: int, t2: int, p: Idx)
    requires n.current.Some?
    ensures Same(n, Yield(n, ps, t1, t2), p) && SamePool(n, Yield(n, ps, t1, t2))
  {
    var b := GiveWay(SaveState(n, n.current.value, ps, t1), n.current.value);
    SchedulerSame(b.(current := None), t2, p);
  }

  lemma CallSame(n: Nuc, e: Event, p: Idx)
    requires Enabled(n, e) && (e.P? || e.DoIO? || e.WaitClock? || e.YieldCpu? || e.Slice?)
    ensures Same(n, Step(n, e), p) && SamePool(n, Step(n, e))
  {
    match e
    case P(ps, k, t1, t2) => WaitSame(n, k, ps, t1, t2, p);
    case DoIO(ps, port, t1, t2) => WaitSame(n, MapDeviceSemaphoreByAddr(CommandAddr(port)), ps, t1, t2, p);
    case WaitClock(ps, t1, t2) => WaitSame(n, PSEUDOCLOCK, ps, t1, t2, p);
    case YieldCpu(ps, t1, t2) => YieldSame(n, ps, t1, t2, p);
    case Slice(ps, t1, t2) =>
      SavedSame(n, n.current.value, ps, t1, p);
      SchedulerSame(MakeReady(SaveState(n, n.current.value, ps, t1), n.current.value).(current := None), t2, p);
  }

  lemma QuerySame(n: Nuc, e: Event, p: Idx)
    requires Enabled(n, e) && Target(n, e).None?
    requires e.V? || e.CpuTime? || e.SupportData? || e.ProcessId? || e.Trap?
    ensures Same(n, Step(n, e), p) && SamePool(n, Step(n, e))
  {
    if e.V? {
      VSame(n, e.k, p);
    }
  }

  // ---- termination ----

  lemma EndSame(n: Nuc, t: Idx, p: Idx)
    requires Inv(n) && t !in n.Free() && p !in EndSubtree(n, t).Free()
    ensures SameIdentity(n.pcb[p], EndSubtree(n, t).pcb[p]) && EndSubtree(n, t).psib[p] == ChildrenWithout(n, t, p)
    ensures EndSubtree(n, t).root == n.root && EndSubtree(n, t).nextPid == n.nextPid
  {
    var o := OutChild(n, t);
    OutChildKeeps(n, t, Roots(n), Held(n));
    OutChildCounts(n, t);
    RecursiveTerminationExact(o, t, Roots(n) + {t});
    WithSelf(o, t);
    SparedSame(o, EndSubtree(n, t), Family(o, t), p);
    CutSame(n, t, p);
  }

  lemma CutSame(n: Nuc, t: Idx, p: Idx)
    requires p != t
    ensures SameIdentity(n.pcb[p], OutChild(n, t).pcb[p]) && OutChild(n, t).psib[p] == ChildrenWithout(n, t, p)
    ensures OutChild(n, t).root == n.root && OutChild(n, t).nextPid == n.nextPid
  {
  }

  lemma SparedSame(n: Nuc, m: Nuc, gone: set<Idx>, p: Idx)
    requires Alike(n, m, gone) && Freed(n, m, gone) && SameFamilies(n, m, gone) && p !in m.Free()
    ensures Same(n, m, p) && m.root == n.root && m.nextPid == n.nextPid && p !in gone
  {
    assert Spared(n.pcb[p], m.pcb[p]);
  }

  lemma AfterSame(a: Nuc, c: Idx, ps: PState, t1: int, t2: int, p: Idx)
    ensures
      var m := if c in a.Free() then Scheduler(a.(current := None), t2)
               else Scheduler(MakeReady(SaveState(a, c, ps, t1), c), t2);
      Same(a, m, p) && SamePool(a, m)
  {
    SavedSame(a, c, ps, t1, p);
    SchedulerSame(a.(current := None), t2, p);
    SchedulerSame(MakeReady(SaveState(a, c, ps, t1), c), t2, p);
  }

  lemma EndStepIs(n: Nuc, e: Event, p: Idx)
    requires Inv(n) && Enabled(n, e) && (e.Terminate? || Target(n, e).Some?)
    ensures
      var a := if Target(n, e).Some? then EndSubtree(n, Target(n, e).value) else n;
      Same(a, Step(n, e), p) && SamePool(a, Step(n, e))
  {
    var a := if Target(n, e).Some? then EndSubtree(n, Target(n, e).value) else n;
    if e.Terminate? {
      AfterSame(a, n.current.value, e.ps, e.t1, e.t2, p);
    } else {
      SchedulerSame(a.(current := None), e.t2, p);
    }
  }

  lemma TargetLives(n: Nuc, e: Event)
    requires Inv(n) && Enabled(n, e) && Target(n, e).Some?
    ensures Target(n, e).value !in n.Free()
  {
  }

  lemma EndStepSame(n: Nuc, e: Event, p: Idx)
    requires Inv(n) && Enabled(n, e) && (e.Terminate? || Target(n, e).Some?) && p !in Step(n, e).Free()
    ensures SameIdentity(n.pcb[p], Step(n, e).pcb[p])
    ensures Step(n, e).psib[p] == ChildrenAfter(n, e, p)
  {
    EndStepIs(n, e, p);
    if Target(n, e).Some? {
      TargetLives(n, e);
      EndSame(n, Target(n, e).value, p);
    }
  }

  /** No event changes the parent, priority, pid or support structure of a process that lives before and after it,
      nor its children other than by creation and termination. */
  lemma StepIdentity(n: Nuc, e: Event, p: Idx)
    requires Inv(n) && Enabled(n, e) && p !in n.Free() && p !in Step(n, e).Free()
    ensures SameIdentity(n.pcb[p], Step(n, e).pcb[p]) && Step(n, e).psib[p] == ChildrenAfter(n, e, p)
  {
    if e.Create? {
      CreateSame(n, e, p);
    } else if e.Terminate? || Target(n, e).Some? {
      EndStepSame(n, e, p);
    } else {
      OtherIdentity(n, e, p);
    }
  }

  lemma OtherIdentity(n: Nuc, e: Event, p: Idx)
    requires Enabled(n, e) && !e.Create? && !e.Terminate? && Target(n, e).None?
    ensures SameIdentity(n.pcb[p], Step(n, e).pcb[p]) && Step(n, e).psib[p] == ChildrenAfter(n, e, p)
  {
    OtherSame(n, e, p);
  }

  lemma OtherSame(n: Nuc, e: Event, p: Idx)
    requires Enabled(n, e) && !e.Create? && !e.Terminate? && Target(n, e).None?
    ensures Same(n, Step(n, e), p) && SamePool(n, Step(n, e))
  {
    if IsInterrupt(e) {
      InterruptSame(n, e, p);
    } else if e.P? || e.DoIO? || e.WaitClock? || e.YieldCpu? || e.Slice? {
      CallSame(n, e, p);
    } else {
      QuerySame(n, e, p);
    }
  }

  lemma CreateSame(n: Nuc, e: Event, p: Idx)
    requires Inv(n) && Enabled(n, e) && e.Create? && p !in n.Free()
    ensures SameIdentity(n.pcb[p], Step(n, e).pcb[p]) && Step(n, e).psib[p] == ChildrenAfter(n, e, p)
  {
    HeadIsMember(n.Free());
  }

  /** PCBs are taken from the head of the free list and come back at its tail; the root stays the root; pids are given
      out in order. */
  lemma StepPool(n: Nuc, e: Event)
    requires Inv(n) && Enabled(n, e)
    ensures
      var m := Step(n, e);
      && m.root == n.root && m.nextPid == n.nextPid + (if Creates(n, e) then 1 else 0)
      && (if Creates(n, e) then m.Free() == n.Free()[1..]
          else if Target(n, e).Some? then n.Free() <= m.Free() else m.Free() == n.Free())
  {
    if e.Create? {
    } else if e.Terminate? || Target(n, e).Some? {
      EndStepPool(n, e);
    } else {
      OtherSame(n, e, 0);
    }
  }

  lemma EndStepPool(n: Nuc, e: Event)
    requires Inv(n) && Enabled(n, e) && (e.Terminate? || Target(n, e).Some?)
    ensures Step(n, e).root == n.root && Step(n, e).nextPid == n.nextPid
    ensures if Target(n, e).Some? then n.Free() <= Step(n, e).Free() else Step(n, e).Free() == n.Free()
  {
    EndStepIs(n, e, 0);
    if Target(n, e).Some? {
      var t := Target(n, e).value;
      TargetLives(n, e);
      EndPool(n, t);
      EndFrees(OutChild(n, t), t);
    }
  }

  lemma EndPool(n: Nuc, t: Idx)
    requires Inv(n) && t !in n.Free()
    ensures EndSubtree(n, t).root == n.root && EndSubtree(n, t).nextPid == n.nextPid
    ensures OutChild(n, t).Free() == n.Free()
  {
    OutChildKeeps(n, t, Roots(n), Held(n));
    OutChildCounts(n, t);
    RecursiveTerminationExact(OutChild(n, t), t, Roots(n) + {t});
  }

  /** Who lives after an event: a created process takes the first free PCB; a terminated one, or one that does not
      survive a trap, goes with all its descendants; nobody else comes or goes. */
  lemma StepLives(n: Nuc, e: Event, q: Idx)
    requires Inv(n) && Enabled(n, e)
    ensures LiveParents(n)
    ensures q in Step(n, e).Free() <==>
              (q in n.Free() && !(Creates(n, e) && q == n.Free()[0]))
              || (Target(n, e).Some? && q in Family(n, Target(n, e).value))
  {
    ParentsLive(n, Roots(n), Held(n));
    if Target(n, e).Some? {
      TargetLives(n, e);
      EndStepIs(n, e, 0);
      EndSubtreeExact(n, Target(n, e).value);
    } else {
      StepPool(n, e);
      if Creates(n, e) {
        FirstFree(n);
      }
    }
  }

  lemma KillFrees(n: Nuc, t: Idx)
    ensures Kill(n, t).Free() == n.Free() + [t]
  {
    DetachFrees(n, t);
  }

  lemma DetachFrees(n: Nuc, t: Idx)
    ensures Detach(n, t).Free() == n.Free()
  {
    if n.pcb[t].semAdd.Some? {
      VSame(OutBlocked(n, t), n.pcb[t].semAdd.value, t);
    }
  }

  lemma {:induction false} ChildrenFree(n: Nuc, t: Idx)
    ensures n.Free() <= KillChildren(n, t).Free()
    decreases Links(n.psib), 0
  {
    if n.psib[t] != [] {
      var a := RemoveChild(n, t);
      EndFrees(a, n.psib[t][0]);
      ChildrenFree(RecursiveTermination(a, n.psib[t][0]), t);
    }
  }

  lemma {:induction false} EndFrees(n: Nuc, t: Idx)
    ensures n.Free() <= RecursiveTermination(n, t).Free()
    decreases Links(n.psib), 1
  {
    ChildrenFree(n, t);
    KillFrees(KillChildren(n, t), t);
  }

  // ---- runs ----

  /** How many processes have been created before state i. */
  ghost function Creations(ss: seq<Nuc>, es: seq<Event>, i: nat): nat
    requires |ss| == |es| + 1 && i <= |es|
  {
    if i == 0 then 0 else Creations(ss, es, i - 1) + if Creates(ss[i - 1], es[i - 1]) then 1 else 0
  }

  lemma BootPids(n: Nuc)
    requires IsBoot(n)
    ensures n.nextPid == 2
  {
    var memory: map<int, int>, skey: KeyTable, state: PState, t: int :|
      (forall k :: k in memory ==> memory[k] >= 0) && n == Boot(memory, skey, state, t);
    BlankFree(memory, skey, t);
    FirstIs(Blank(memory, skey, t), state);
  }

  lemma {:induction false} PidsInOrder(ss: seq<Nuc>, es: seq<Event>, i: nat)
    requires Run(ss, es) && i <= |es|
    ensures ss[i].nextPid == 2 + Creations(ss, es, i)
  {
    if i == 0 {
      BootPids(ss[0]);
    } else {
      var j: nat := i - 1;
      PidsInOrder(ss, es, j);
      NextPid(ss, es, j, i);
    }
  }

  lemma NextPid(ss: seq<Nuc>, es: seq<Event>, j: nat, i: nat)
    requires Run(ss, es) && i == j + 1 <= |es|
    ensures ss[i].nextPid - ss[j].nextPid == Creations(ss, es, i) - Creations(ss, es, j)
  {
    NextState(ss, es, j, i);
    RunInv(ss, es, j);
    StepPool(ss[j], es[j]);
  }

  /** The first process has pid 1, the k-th to be created gets pid k + 1 and its creator is told so: no pid is given
      out twice in a run. */
  lemma PidGiven(ss: seq<Nuc>, es: seq<Event>, i: nat)
    requires Run(ss, es) && i < |es| && Creates(ss[i], es[i])
    ensures
      var m, p := ss[i + 1], ss[i].Free()[0];
      m.pcb[p].pid == m.cpu.a0 == 2 + Creations(ss, es, i) == 1 + Creations(ss, es, i + 1)
  {
    var h := i + 1;
    NextState(ss, es, i, h);
    RunInv(ss, es, i);
    PidsInOrder(ss, es, i);
    var e := es[i];
    Created(ss[i], e.ps, e.state, e.prio, e.support, 0);
    NewPid(ss[i], e.ps, e.state, e.prio, e.support);
  }

  lemma NewPid(n: Nuc, ps: PState, state: PState, prio: int, support: int)
    requires Inv(n) && n.current.Some? && n.Free() != []
    ensures CreateProcess(n, ps, state, prio, support).cpu.a0 == n.nextPid
  {
    HeadIsMember(n.Free());
    CreatedFields(n, ps, state, prio, support, 0);
  }

  /** A process keeps its identity for life. */
  lemma {:induction false} IdentityForLife(ss: seq<Nuc>, es: seq<Event>, i: nat, j: nat, p: Idx)
    requires Run(ss, es) && i <= j <= |es| && forall m :: i <= m <= j ==> p !in ss[m].Free()
    ensures SameIdentity(ss[i].pcb[p], ss[j].pcb[p])
    decreases j
  {
    if i < j {
      var h: nat := j - 1;
      assert p !in ss[h].Free() && p !in ss[j].Free();
      IdentityForLife(ss, es, i, h, p);
      NextState(ss, es, h, j);
      RunInv(ss, es, h);
      StepIdentity(ss[h], es[h], p);
    }
  }
}
