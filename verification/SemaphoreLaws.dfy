/** Laws of semaphores over runs of any length: conservation, first-come-first-served, and the pairing of an
    I/O request with the interrupt that answers it. */
module SemaphoreLaws {
  import opened Lists
  import opened ListX
  import opened Nucleus
  import opened Devices
  import opened Invariant
  import opened Termination
  import opened Soundness
  import opened ProcessLife
  import opened Steps
  import opened Runs
  import opened Semaphores

  lemma InvAsl(n: Nuc)
    requires Inv(n)
    ensures Asl(n.plist, n.slink, n.skey)
  {
  }

  lemma QuietEvents(n: Nuc, e: Event, k: int)
    requires Enabled(n, e)
    requires e.Create? || e.CpuTime? || e.SupportData? || e.ProcessId? || e.YieldCpu? || e.Slice?
    ensures Unmoved(n, Step(n, e), k)
  {
    match e
    case Create(ps, state, prio, support) => CreateQuiet(n, ps, state, prio, support, k);
    case YieldCpu(ps, t1, t2) => YieldQuiet(n, ps, t1, t2, k);
    case Slice(ps, t1, t2) => RequeueQuiet(n, n.current.value, ps, t1, t2, k);
    case CpuTime(_, _) => Quietly(n, Step(n, e), k);
    case SupportData(_) => Quietly(n, Step(n, e), k);
    case ProcessId(_, _) => Quietly(n, Step(n, e), k);
  }

  /** What an event does to semaphore k: termination lets waiters go, a tick empties the clock, a V wakes the
      first waiter or raises the value, a P lowers it or queues the caller, anything else leaves k alone. */
  ghost predicate Effect(n: Nuc, e: Event, m: Nuc, k: int)
    requires Enabled(n, e)
  {
    if e.Terminate? || e.Trap? then
      Thinned(n, m, k) && Balance(m, k) == Balance(n, k) + Withdrawn(n, e, k)
    else if e.Tick? && k == PSEUDOCLOCK then m.Waiters(k) == [] && m.Val(k) == 0
    else if Vs(e, k) == 1 then Raised(n, m, k)
    else if Ps(e, k) == 1 || (e.WaitClock? && k == PSEUDOCLOCK) then
      if n.Val(k) > 0 then m.Waiters(k) == n.Waiters(k) && m.Val(k) == n.Val(k) - 1
      else n.current.Some? && Joined(n, m, k, n.current.value)
    else Unmoved(n, m, k)
  }

  lemma CallEffect(n: Nuc, e: Event, k: int)
    requires Inv(n) && Enabled(n, e) && (e.P? || e.V?)
    ensures Effect(n, e, Step(n, e), k)
  {
    InvAsl(n);
    match e
    case P(ps, key, t1, t2) => PassEffect(n, ps, key, t1, t2, k);
    case V(ps, key) => VEffect(n, ps, key, k);
  }

  lemma WaitEffect(n: Nuc, e: Event, k: int)
    requires Inv(n) && Enabled(n, e) && (e.DoIO? || e.WaitClock?)
    ensures Effect(n, e, Step(n, e), k)
  {
    match e
    case DoIO(ps, port, t1, t2) =>
      PortsPair(port);
      DeviceWaitEffect(n, ps, InterruptKey(port), t1, t2, k);
    case WaitClock(ps, t1, t2) => DeviceWaitEffect(n, ps, PSEUDOCLOCK, t1, t2, k);
  }

  lemma HandlerEffect(n: Nuc, e: Event, k: int)
    requires Inv(n) && Enabled(n, e) && IsInterrupt(e)
    ensures Effect(n, e, Step(n, e), k)
  {
    InvAsl(n);
    match e
    case Interrupt(ps, signal, t1, t2) =>
      InterruptEffect(n, ps, InterruptKey(signal.Source()), signal.Answer(), t1, t2, k);
    case Tick(ps, t1, t2) => TickEffect(n, ps, t1, t2, k);
  }

  lemma StepEffect(n: Nuc, e: Event, k: int)
    requires Inv(n) && Enabled(n, e)
    ensures Effect(n, e, Step(n, e), k)
  {
    if e.Terminate? || e.Trap? {
      EndBalance(n, e, k);
    } else if e.P? || e.V? {
      CallEffect(n, e, k);
    } else if e.DoIO? || e.WaitClock? {
      WaitEffect(n, e, k);
    } else if IsInterrupt(e) {
      HandlerEffect(n, e, k);
    } else {
      QuietEvents(n, e, k);
    }
  }

  /** One event changes the balance of k by its Vs and Ps, and by the withdrawals of those it kills. */
  lemma StepBalance(n: Nuc, e: Event, k: int)
    requires Inv(n) && Enabled(n, e) && k != PSEUDOCLOCK
    ensures Balance(Step(n, e), k) == Balance(n, k) + Vs(e, k) - Ps(e, k) + Withdrawn(n, e, k)
  {
    StepEffect(n, e, k);
    EffectBalance(n, e, Step(n, e), k);
  }

  lemma EffectBalance(n: Nuc, e: Event, m: Nuc, k: int)
    requires Enabled(n, e) && Effect(n, e, m, k) && k != PSEUDOCLOCK
    ensures Balance(m, k) == Balance(n, k) + Vs(e, k) - Ps(e, k) + Withdrawn(n, e, k)
  {
  }

  ghost function VsBefore(es: seq<Event>, k: int, i: nat): nat
    requires i <= |es|
  {
    if i == 0 then 0 else VsBefore(es, k, i - 1) + Vs(es[i - 1], k)
  }

  ghost function PsBefore(es: seq<Event>, k: int, i: nat): nat
    requires i <= |es|
  {
    if i == 0 then 0 else PsBefore(es, k, i - 1) + Ps(es[i - 1], k)
  }

  ghost function WithdrawnBefore(ss: seq<Nuc>, es: seq<Event>, k: int, i: nat): nat
    requires Run(ss, es) && i <= |es|
  {
    if i == 0 then 0
    else
      assert Stepped(ss, es, i - 1);
      WithdrawnBefore(ss, es, k, i - 1) + Withdrawn(ss[i - 1], es[i - 1], k)
  }

  lemma BootWaiters(n: Nuc, k: int)
    requires IsBoot(n)
    ensures n.Waiters(k) == []
  {
    var memory: map<int, int>, skey: KeyTable, state: PState, t: int :| n == Boot(memory, skey, state, t);
    assert n.Active() == [];
  }

  lemma RunStepBalance(ss: seq<Nuc>, es: seq<Event>, k: int, i: nat)
    requires Run(ss, es) && i < |es| && k != PSEUDOCLOCK
    ensures Enabled(ss[i], es[i])
    ensures Balance(ss[i + 1], k) == Balance(ss[i], k) + Vs(es[i], k) - Ps(es[i], k) + Withdrawn(ss[i], es[i], k)
  {
    assert Stepped(ss, es, i);
    RunInv(ss, es, i);
    StepBalance(ss[i], es[i], k);
  }

  lemma {:induction false} RunBalance(ss: seq<Nuc>, es: seq<Event>, k: int, i: nat)
    requires Run(ss, es) && i <= |es| && k != PSEUDOCLOCK
    ensures Balance(ss[i], k) ==
            ss[0].Val(k) + VsBefore(es, k, i) - PsBefore(es, k, i) + WithdrawnBefore(ss, es, k, i)
  {
    if i == 0 {
      BootWaiters(ss[0], k);
    } else {
      RunBalance(ss, es, k, i - 1);
      RunStepBalance(ss, es, k, i - 1);
    }
  }

  /** The semaphore law. Let b be the initial value plus all Vs minus all Ps, plus what killed waiters
      withdrew. In every state of every run the value is b where b is positive and 0 otherwise, and exactly as
      many processes wait as b falls short of 0. */
  lemma SemaphoreLaw(ss: seq<Nuc>, es: seq<Event>, k: int, i: nat)
    requires Run(ss, es) && i <= |es| && k != PSEUDOCLOCK
    ensures
      var b := ss[0].Val(k) + VsBefore(es, k, i) - PsBefore(es, k, i) + WithdrawnBefore(ss, es, k, i);
      && ss[i].Val(k) == (if b > 0 then b else 0)
      && |ss[i].Waiters(k)| == (if b < 0 then -b else 0)
  {
    RunBalance(ss, es, k, i);
    RunInv(ss, es, i);
    SemsNonNegative(ss[i], k);
  }

  // ---- withdrawals ----

  /** The members of the family of t that wait on k. */
  ghost function WaitingIn(n: Nuc, t: Idx, k: int): set<Idx>
    requires LiveParents(n)
  {
    set p: Idx | 0 <= p < MAXPROC && p in Family(n, t) && n.pcb[p].semAdd == Some(k)
  }

  /** What w withdrawals are for c waiters that die: one each for a device. For a user semaphore a process withdraws
      its own P and gives a V besides, or nothing if such a V has woken it before its turn; so there are between one
      and two for each, and an even number in all. */
  ghost predicate Counts(k: int, w: nat, c: nat) {
    if IsDevice(k) then w == c else c <= w <= 2 * c && Even(w)
  }

  ghost predicate AtMost(k: int, w: nat, c: nat) {
    if IsDevice(k) then w == c else w <= 2 * c
  }

  predicate Even(w: nat) { w % 2 == 0 }

  lemma EvenSum(a: nat, b: nat)
    requires Even(a) && Even(b)
    ensures Even(a + b)
  {
  }

  lemma {:induction false} ChildrenEven(n: Nuc, t: Idx, k: int)
    requires !IsDevice(k)
    ensures Even(ChildrenWithdraw(n, t, k))
    decreases Links(n.psib), 0
  {
    if n.psib[t] != [] {
      var c, a := n.psib[t][0], RemoveChild(n, t);
      var b := RecursiveTermination(a, c);
      WithdrawEven(a, c, k);
      ChildrenEven(b, t, k);
      EvenSum(Withdraw(a, c, k), ChildrenWithdraw(b, t, k));
    }
  }

  lemma {:induction false} WithdrawEven(n: Nuc, t: Idx, k: int)
    requires !IsDevice(k)
    ensures Even(Withdraw(n, t, k))
    decreases Links(n.psib), 1
  {
    ChildrenEven(n, t, k);
    EvenSum(ChildrenWithdraw(n, t, k), 2);
  }

  lemma TwoParts(w: set<Idx>, x: set<Idx>, y: set<Idx>)
    requires x <= w && y <= w - x
    ensures |x| + |y| <= |w| && (y == w - x ==> |x| + |y| == |w|)
  {
    assert |x + y| == |x| + |y|;
    assert w == (x + y) + (w - (x + y));
  }

  /** Somebody who is not killed waits on k afterwards only if he did before, and goes on waiting for a device. */
  lemma SparedWaits(n: Nuc, m: Nuc, gone: set<Idx>, k: int, out: set<Idx>, out': set<Idx>,
                    orphans: set<Idx>, orphans': set<Idx>)
    requires Core(n, orphans, out) && Core(m, orphans', out')
    requires Alike(n, m, gone) && Freed(n, m, gone) && Thinned(n, m, k)
    ensures forall q: Idx :: q !in gone && m.pcb[q].semAdd == Some(k) ==> n.pcb[q].semAdd == Some(k)
    ensures forall q: Idx :: q !in gone && q !in n.Free() && IsDevice(k) && n.pcb[q].semAdd == Some(k) ==>
              m.pcb[q].semAdd == Some(k)
  {
    WaitersNoDup(n, k, orphans, out);
    WaitersNoDup(m, k, orphans', out');
  }

  lemma ChildrenSpare(n: Nuc, t: Idx, k: int, orphans: set<Idx>)
    requires Core(n, orphans, Held(n)) && t in orphans
    ensures var m := KillChildren(n, t);
            && (m.pcb[t].semAdd == Some(k) ==> n.pcb[t].semAdd == Some(k))
            && (IsDevice(k) && n.pcb[t].semAdd == Some(k) ==> m.pcb[t].semAdd == Some(k))
  {
    KillChildrenExact(n, t, orphans);
    ChildrenCore(n, t, orphans);
    ChildrenThin(n, t, k, orphans);
    var m := KillChildren(n, t);
    SparedWaits(n, m, Family(n, t) - {t}, k, Held(n), Held(m), orphans, orphans);
  }

  /** The family of t that waits on k, split at its first child c. */
  lemma SplitWaiting(n: Nuc, a: Nuc, b: Nuc, c: Idx, t: Idx, k: int)
    requires LiveParents(n) && LiveParents(a) && LiveParents(b) && Cut(n, a, c, t)
    requires Alike(a, b, Family(a, c)) && Freed(a, b, Family(a, c))
    requires forall q: Idx :: q !in Family(a, c) && b.pcb[q].semAdd == Some(k) ==> a.pcb[q].semAdd == Some(k)
    requires forall q: Idx :: q !in Family(a, c) && q !in a.Free() && IsDevice(k) && a.pcb[q].semAdd == Some(k) ==>
               b.pcb[q].semAdd == Some(k)
    ensures WaitingIn(a, c, k) <= WaitingIn(n, t, k) - {t}
    ensures WaitingIn(b, t, k) - {t} <= WaitingIn(n, t, k) - {t} - WaitingIn(a, c, k)
    ensures IsDevice(k) ==> WaitingIn(b, t, k) - {t} == WaitingIn(n, t, k) - {t} - WaitingIn(a, c, k)
  {
    CutFamilies(n, a, c, t);
    FamilyAfter(a, b, c, t);
  }

  lemma ChildWaiting(n: Nuc, a: Nuc, b: Nuc, c: Idx, t: Idx, k: int, orphans: set<Idx>)
    requires Core(n, orphans, Held(n)) && t in orphans && n.psib[t] != []
    requires c == n.psib[t][0] && a == RemoveChild(n, t) && b == RecursiveTermination(a, c)
    requires LiveParents(n) && LiveParents(a) && LiveParents(b)
    ensures WaitingIn(a, c, k) <= WaitingIn(n, t, k) - {t}
    ensures WaitingIn(b, t, k) - {t} <= WaitingIn(n, t, k) - {t} - WaitingIn(a, c, k)
    ensures IsDevice(k) ==> WaitingIn(b, t, k) - {t} == WaitingIn(n, t, k) - {t} - WaitingIn(a, c, k)
  {
    CutChild(n, t, orphans);
    ChildCore(n, t, orphans);
    RecursiveTerminationExact(a, c, orphans + {c});
    TerminationThins(a, c, k, orphans + {c});
    SparedWaits(a, b, Family(a, c), k, Held(a), Held(b), orphans + {c}, orphans);
    SplitWaiting(n, a, b, c, t, k);
  }

  lemma {:induction false} ChildrenCount(n: Nuc, t: Idx, k: int, orphans: set<Idx>)
    requires Core(n, orphans, Held(n)) && t in orphans && LiveParents(n)
    ensures AtMost(k, ChildrenWithdraw(n, t, k), |WaitingIn(n, t, k) - {t}|)
    decreases Links(n.psib), 0
  {
    if n.psib[t] == [] {
      LeafFamily(n, t, orphans);
      assert WaitingIn(n, t, k) - {t} == {};
    } else {
      var c, a := n.psib[t][0], RemoveChild(n, t);
      var b := RecursiveTermination(a, c);
      ChildCore(n, t, orphans);
      ParentsLive(a, orphans + {c}, Held(a));
      ParentsLive(b, orphans, Held(b));
      ChildWaiting(n, a, b, c, t, k, orphans);
      WithdrawAtMost(a, c, k, orphans + {c});
      ChildrenCount(b, t, k, orphans);
      TwoParts(WaitingIn(n, t, k) - {t}, WaitingIn(a, c, k), WaitingIn(b, t, k) - {t});
    }
  }

  lemma {:induction false} WithdrawAtMost(n: Nuc, t: Idx, k: int, orphans: set<Idx>)
    requires Core(n, orphans, Held(n)) && t in orphans && LiveParents(n)
    ensures AtMost(k, Withdraw(n, t, k), |WaitingIn(n, t, k)|)
    decreases Links(n.psib), 1
  {
    ChildrenCount(n, t, k, orphans);
    ChildrenSpare(n, t, k, orphans);
    WithSelf(n, t);
    Removed(WaitingIn(n, t, k), t);
    assert t in WaitingIn(n, t, k) <==> n.pcb[t].semAdd == Some(k);
  }

  /** Those who wait in q and not in r any more. */
  lemma LeftQueue(q: seq<Idx>, r: seq<Idx>, gone: set<Idx>)
    requires NoDup(q) && NoDup(r) && (forall x :: x in r ==> x in q) && forall x :: x in gone ==> x in q && x !in r
    ensures |gone| + |r| <= |q|
  {
    var a, b := Members(q), Members(r);
    MemberCount(q);
    MemberCount(r);
    TwoParts(a, b, gone);
  }

  /** The withdrawals of a termination counted in the state before it: from a device semaphore, exactly one for
      every member of the family that waits on it; from a user semaphore, an even number, at least one and at most
      two for every member. */
  lemma WithdrawCount(n: Nuc, t: Idx, k: int, orphans: set<Idx>)
    requires Core(n, orphans, Held(n)) && t in orphans && LiveParents(n)
    ensures Counts(k, Withdraw(n, t, k), |WaitingIn(n, t, k)|)
  {
    var m := RecursiveTermination(n, t);
    WithdrawAtMost(n, t, k, orphans);
    if !IsDevice(k) {
      WithdrawEven(n, t, k);
    }
    TerminationBalance(n, t, k, orphans);
    TerminationThins(n, t, k, orphans);
    RecursiveTerminationExact(n, t, orphans);
    QueueShrinks(n, m, t, k, orphans);
  }

  /** The members of the family have all left the queue of k. */
  lemma QueueShrinks(n: Nuc, m: Nuc, t: Idx, k: int, orphans: set<Idx>)
    requires Core(n, orphans, Held(n)) && LiveParents(n) && Core(m, orphans - {t}, Held(m))
    requires Thinned(n, m, k) && Freed(n, m, Family(n, t))
    ensures |WaitingIn(n, t, k)| + |m.Waiters(k)| <= |n.Waiters(k)|
    ensures m.Val(k) >= 0 && (n.Waiters(k) != [] ==> n.Val(k) == 0)
  {
    WaitersNoDup(n, k, orphans, Held(n));
    WaitersNoDup(m, k, orphans - {t}, Held(m));
    FreeWaitsNot(m, orphans - {t});
    LeftQueue(n.Waiters(k), m.Waiters(k), WaitingIn(n, t, k));
  }

  lemma FreeWaitsNot(m: Nuc, orphans: set<Idx>)
    requires Core(m, orphans, Held(m))
    ensures forall p: Idx :: p in m.Free() ==> m.pcb[p].semAdd.None?
  {
  }

  /** So a termination withdraws nothing from a semaphore that none of the family waits on. */
  lemma NoWaiterNoWithdrawal(n: Nuc, t: Idx, k: int, orphans: set<Idx>)
    requires Core(n, orphans, Held(n)) && t in orphans && LiveParents(n)
    requires forall p :: p in Family(n, t) ==> n.pcb[p].semAdd != Some(k)
    ensures Withdraw(n, t, k) == 0
  {
    WithdrawAtMost(n, t, k, orphans);
    assert WaitingIn(n, t, k) == {};
  }

  /** What an event withdraws from k, in terms of the family that it ends. */
  lemma WithdrawnCount(n: Nuc, e: Event, k: int, t: Idx)
    requires Inv(n) && Enabled(n, e) && Target(n, e) == Some(t)
    ensures LiveParents(n) && Counts(k, Withdrawn(n, e, k), |WaitingIn(n, t, k)|)
  {
    assert t !in n.Free();
    CutCount(n, t, k);
  }

  lemma CutCount(n: Nuc, t: Idx, k: int)
    requires Inv(n) && t !in n.Free()
    ensures LiveParents(n) && Counts(k, Withdraw(OutChild(n, t), t, k), |WaitingIn(n, t, k)|)
  {
    var o := OutChild(n, t);
    OutChildKeeps(n, t, Roots(n), Held(n));
    OutChildCounts(n, t);
    ParentsLive(n, Roots(n), Held(n));
    ParentsLive(o, Roots(n) + {t}, Held(o));
    WithdrawCount(o, t, k, Roots(n) + {t});
    CutWaiting(n, t, o, k);
  }

  lemma CutWaiting(n: Nuc, t: Idx, o: Nuc, k: int)
    requires LiveParents(n) && LiveParents(o) && o == OutChild(n, t)
    ensures WaitingIn(o, t, k) == WaitingIn(n, t, k)
  {
    OutChildFamily(n, t, o);
  }

  // ---- first come, first served ----

  lemma FairFrame(n: Nuc, m: Nuc, k: int)
    requires m.Waiters(k) == n.Waiters(k) || m.Waiters(k) == []
    ensures Fair(n, m, k)
  {
  }

  lemma FairJoin(n: Nuc, m: Nuc, k: int, c: Idx)
    requires m.Waiters(k) == n.Waiters(k) + [c]
    ensures Fair(n, m, k)
  {
    forall x: Idx, y: Idx | Before(n.Waiters(k), x, y) ensures Before(m.Waiters(k), x, y) {
      AppendBefore(n.Waiters(k), c, x, y);
    }
  }

  lemma FairRaise(n: Nuc, m: Nuc, k: int)
    requires NoDup(n.Waiters(k)) && Raised(n, m, k)
    ensures Fair(n, m, k)
  {
    if n.Waiters(k) != [] {
      forall x: Idx, y: Idx | Before(n.Waiters(k), x, y) && x in m.Waiters(k) ensures Before(m.Waiters(k), x, y) {
        TailBefore(n.Waiters(k), x, y);
      }
    }
  }

  lemma StepFair(n: Nuc, e: Event, k: int)
    requires Inv(n) && Enabled(n, e)
    ensures Fair(n, Step(n, e), k)
  {
    StepEffect(n, e, k);
    WaitersNoDup(n, k, Roots(n), Held(n));
    EffectFair(n, e, Step(n, e), k);
  }

  lemma EffectFair(n: Nuc, e: Event, m: Nuc, k: int)
    requires Enabled(n, e) && Effect(n, e, m, k) && NoDup(n.Waiters(k))
    ensures Fair(n, m, k)
  {
    if e.Terminate? || e.Trap? {
    } else if e.Tick? && k == PSEUDOCLOCK {
      FairFrame(n, m, k);
    } else {
      FairMove(n, m, k);
    }
  }

  lemma FairMove(n: Nuc, m: Nuc, k: int)
    requires NoDup(n.Waiters(k))
    requires m.Waiters(k) == n.Waiters(k) || Raised(n, m, k) || exists c: Idx :: Joined(n, m, k, c)
    ensures Fair(n, m, k)
  {
    if m.Waiters(k) == n.Waiters(k) {
      FairFrame(n, m, k);
    } else if Raised(n, m, k) {
      FairRaise(n, m, k);
    } else {
      var c: Idx :| Joined(n, m, k, c);
      FairJoin(n, m, k, c);
    }
  }

  /** Nobody overtakes: if x is ahead of y in the queue of k and has been waiting ever since, then y is still
      behind him, unless y has been killed on the way. */
  lemma {:induction false} FirstComeFirstServed(ss: seq<Nuc>, es: seq<Event>, k: int, i: nat, j: nat, x: Idx, y: Idx)
    requires Run(ss, es) && i <= j <= |es|
    requires Before(ss[i].Waiters(k), x, y)
    requires forall m :: i <= m <= j ==> x in ss[m].Waiters(k)
    ensures Before(ss[j].Waiters(k), x, y) || exists m :: i < m <= j && y in ss[m].Free()
  {
    if forall m :: i < m <= j ==> y !in ss[m].Free() {
      forall m | i <= m < j ensures Fair(ss[m], ss[m + 1], k) {
        RunFair(ss, es, k, m);
      }
      FairChain(ss, k, i, j, x, y);
    }
  }

  lemma {:induction false} FairChain(ss: seq<Nuc>, k: int, i: nat, j: nat, x: Idx, y: Idx)
    requires i <= j < |ss| && Before(ss[i].Waiters(k), x, y)
    requires forall m :: i <= m < j ==> Fair(ss[m], ss[m + 1], k)
    requires forall m :: i < m <= j ==> x in ss[m].Waiters(k) && y !in ss[m].Free()
    ensures Before(ss[j].Waiters(k), x, y)
    decreases j - i
  {
    if i < j {
      assert Fair(ss[i], ss[i + 1], k);
      assert x in ss[i + 1].Waiters(k) && y !in ss[i + 1].Free();
      FairChain(ss, k, i + 1, j, x, y);
    }
  }

  lemma RunFair(ss: seq<Nuc>, es: seq<Event>, k: int, j: nat)
    requires Run(ss, es) && j < |es|
    ensures Fair(ss[j], ss[j + 1], k)
  {
    assert Stepped(ss, es, j);
    RunInv(ss, es, j);
    StepFair(ss[j], es[j], k);
  }

  // ---- I/O ----

  /** While c alone waits for a device, nothing but its death or that device's interrupt ends the wait, as long
      as nobody else asks for the device. */
  lemma RequestStays(n: Nuc, e: Event, k: int, c: Idx)
    requires Inv(n) && Enabled(n, e) && IsDevice(k) && k != PSEUDOCLOCK
    requires n.Waiters(k) == [c] && Vs(e, k) == 0 && Ps(e, k) == 0
    ensures c in Step(n, e).Free() || Step(n, e).Waiters(k) == [c]
  {
    StepEffect(n, e, k);
    StepKeeps(n, e);
    EffectStays(n, e, Step(n, e), k, c);
  }

  lemma EffectStays(n: Nuc, e: Event, m: Nuc, k: int, c: Idx)
    requires Enabled(n, e) && Effect(n, e, m, k) && Inv(m) && IsDevice(k) && k != PSEUDOCLOCK
    requires n.Waiters(k) == [c] && Vs(e, k) == 0 && Ps(e, k) == 0
    ensures c in m.Free() || m.Waiters(k) == [c]
  {
    if e.Terminate? || e.Trap? {
      OnlyOne(n, m, k, c);
    }
  }

  lemma OnlyOne(n: Nuc, m: Nuc, k: int, c: Idx)
    requires Inv(m) && IsDevice(k) && n.Waiters(k) == [c] && Thinned(n, m, k)
    ensures c in m.Free() || m.Waiters(k) == [c]
  {
    WaitersNoDup(m, k, Roots(m), Held(m));
    assert c in n.Waiters(k);
    if c in m.Waiters(k) {
      Alone(m.Waiters(k), c);
    }
  }

  lemma Alone(q: seq<Idx>, c: Idx)
    requires NoDup(q) && c in q && forall x :: x in q ==> x == c
    ensures q == [c]
  {
    WithoutMembers(q, c);
    HeadIsMember(Without(q, c));
    WithoutLength(q, c);
  }

  /** The interrupt of a device for which c alone waits makes c ready or running with the device's answer in
      its a0, and leaves nobody waiting. */
  lemma AnswerReaches(n: Nuc, ps: PState, k: int, status: int, t1: int, t2: int, c: Idx)
    requires Inv(n) && n.Waiters(k) == [c]
    ensures
      var m := DeviceDone(n, ps, k, status, t1, t2);
      && m.Waiters(k) == [] && m.pcb[c].ps.a0 == status && m.pcb[c].semAdd == None
      && (c in m.Ready() || (m.current == Some(c) && m.cpu == m.pcb[c].ps))
  {
    var a := ChargeCurrent(n, t1);
    ChargeQuiet(n, t1, k);
    InvAsl(n);
    InterruptEffect(n, ps, k, status, t1, t2, k);
    ChargeCurrentKeeps(n, t1);
    WakeKeeps(a, k, Roots(a), Held(a));
    var r := Answer(a, k, status);
    assert c in r.Ready();
    HeadOrTail(r.Ready(), c);
  }

  lemma HeadOrTail(s: seq<Idx>, c: Idx)
    requires c in s
    ensures c == s[0] || c in s[1..]
  {
    assert s == [s[0]] + s[1..];
  }

  ghost predicate Undisturbed(es: seq<Event>, k: int, i: nat, j: nat)
    requires i <= j <= |es|
  {
    forall m :: i <= m < j ==> Vs(es[m], k) == 0 && Ps(es[m], k) == 0
  }

  lemma {:induction false} RequestWaits(ss: seq<Nuc>, es: seq<Event>, k: int, i: nat, j: nat, c: Idx)
    requires Run(ss, es) && i <= j <= |es| && IsDevice(k) && k != PSEUDOCLOCK && Undisturbed(es, k, i, j)
    requires ss[i].Waiters(k) == [c] && forall m :: i < m <= j ==> c !in ss[m].Free()
    ensures ss[j].Waiters(k) == [c]
    decreases j - i
  {
    if i < j {
      RequestWaits(ss, es, k, i, j - 1, c);
      RunRequest(ss, es, k, j - 1, c);
    }
  }

  lemma RunRequest(ss: seq<Nuc>, es: seq<Event>, k: int, j: nat, c: Idx)
    requires Run(ss, es) && j < |es| && IsDevice(k) && k != PSEUDOCLOCK
    requires ss[j].Waiters(k) == [c] && Vs(es[j], k) == 0 && Ps(es[j], k) == 0
    ensures c in ss[j + 1].Free() || ss[j + 1].Waiters(k) == [c]
  {
    assert Stepped(ss, es, j);
    RunInv(ss, es, j);
    RequestStays(ss[j], es[j], k, c);
  }

  lemma RequestMade(ss: seq<Nuc>, es: seq<Event>, i: nat, c: Idx)
    requires Run(ss, es) && i < |es| && es[i].DoIO? && ss[i].current == Some(c)
    requires IsPort(es[i].port) && ss[i].Waiters(InterruptKey(es[i].port)) == []
    ensures var k := InterruptKey(es[i].port); IsDevice(k) && k != PSEUDOCLOCK && ss[i + 1].Waiters(k) == [c]
  {
    assert Stepped(ss, es, i);
    PortsPair(es[i].port);
    RunInv(ss, es, i);
    DeviceWaitEffect(ss[i], es[i].ps, InterruptKey(es[i].port), es[i].t1, es[i].t2, InterruptKey(es[i].port));
  }

  lemma RequestAnswered(ss: seq<Nuc>, es: seq<Event>, j: nat, c: Idx)
    requires Run(ss, es) && j < |es| && es[j].Interrupt? && IsPort(es[j].signal.Source())
    requires ss[j].Waiters(InterruptKey(es[j].signal.Source())) == [c]
    ensures
      var k := InterruptKey(es[j].signal.Source());
      var m := ss[j + 1];
      && m.Waiters(k) == [] && m.pcb[c].ps.a0 == es[j].signal.Answer() && m.pcb[c].semAdd == None
      && (c in m.Ready() || (m.current == Some(c) && m.cpu == m.pcb[c].ps))
  {
    assert Stepped(ss, es, j);
    RunInv(ss, es, j);
    var e := es[j];
    AnswerReaches(ss[j], e.ps, InterruptKey(e.signal.Source()), e.signal.Answer(), e.t1, e.t2, c);
  }

  /** An interrupt that the handler takes for another port leaves the waiters of k alone. */
  lemma RequestMissed(ss: seq<Nuc>, es: seq<Event>, j: nat, k: int)
    requires Run(ss, es) && j < |es| && es[j].Interrupt? && es[j].signal.Genuine()
    requires InterruptKey(es[j].signal.Source()) != k
    ensures ss[j + 1].Waiters(k) == ss[j].Waiters(k)
  {
    assert Stepped(ss, es, j);
    RunInv(ss, es, j);
    InvAsl(ss[j]);
    var e := es[j];
    InterruptEffect(ss[j], e.ps, InterruptKey(e.signal.Source()), e.signal.Answer(), e.t1, e.t2, k);
  }

  /** A request made at event i by a process c, with nobody else using the port, and the next interrupt raised
      by that port, at event j, if c has not been killed meanwhile. The request is answered - c and nobody else
      is woken, with the port's status in a0 - exactly under the guard; otherwise c goes on waiting. */
  lemma IoPairing(ss: seq<Nuc>, es: seq<Event>, i: nat, j: nat, c: Idx)
    requires Run(ss, es) && i < j < |es| && es[i].DoIO? && es[j].Interrupt?
    requires IsPort(es[i].port) && es[j].signal.raised == es[i].port && ss[i].current == Some(c)
    requires ss[i].Waiters(InterruptKey(es[i].port)) == []
    requires Undisturbed(es, InterruptKey(es[i].port), i + 1, j)
    requires forall m :: i < m <= j ==> c !in ss[m].Free()
    ensures
      var k := InterruptKey(es[i].port);
      var m := ss[j + 1];
      && ss[j].Waiters(k) == [c]
      && if es[j].signal.Telling() then
           && m.Waiters(k) == [] && m.pcb[c].ps.a0 == es[j].signal.Reported() && m.pcb[c].semAdd == None
           && (c in m.Ready() || (m.current == Some(c) && m.cpu == m.pcb[c].ps))
         else m.Waiters(k) == [c]
  {
    RequestPending(ss, es, i, j, c);
    SourceExact(es[j].signal);
    if es[j].signal.Telling() {
      RequestAnswered(ss, es, j, c);
    } else {
      RequestMissed(ss, es, j, InterruptKey(es[i].port));
    }
  }

  lemma RequestPending(ss: seq<Nuc>, es: seq<Event>, i: nat, j: nat, c: Idx)
    requires Run(ss, es) && i < j < |es| && es[i].DoIO? && es[j].Interrupt?
    requires IsPort(es[i].port) && ss[i].current == Some(c) && ss[i].Waiters(InterruptKey(es[i].port)) == []
    requires Undisturbed(es, InterruptKey(es[i].port), i + 1, j)
    requires forall m :: i < m <= j ==> c !in ss[m].Free()
    ensures ss[j].Waiters(InterruptKey(es[i].port)) == [c] && es[j].signal.Genuine()
  {
    RequestMade(ss, es, i, c);
    RequestWaits(ss, es, InterruptKey(es[i].port), i + 1, j, c);
    assert Stepped(ss, es, j);
  }

  /** A transmission that fails is taken for a reception: the writer stays blocked, and a process that waits for
      a character is woken and told the receiver's status. */
  lemma FailedTransmission(n: Nuc, ps: PState, signal: Signal, t1: int, t2: int, writer: Idx, reader: Idx)
    requires Inv(n) && signal.Genuine() && signal.raised.line == 7 && !signal.raised.rx
    requires signal.transm % 0x100 != OKCHARTRANS
    requires n.Waiters(InterruptKey(signal.raised)) == [writer]
    requires n.Waiters(InterruptKey(signal.raised.(rx := true))) == [reader]
    ensures !signal.Telling() && IsPort(signal.Source())
    ensures
      var m := DeviceDone(n, ps, InterruptKey(signal.Source()), signal.Answer(), t1, t2);
      && m.Waiters(InterruptKey(signal.raised)) == [writer]
      && m.Waiters(InterruptKey(signal.raised.(rx := true))) == []
      && m.pcb[reader].ps.a0 == signal.recv && m.pcb[reader].semAdd == None
  {
    Misread(signal);
    WrongQueue(n, ps, InterruptKey(signal.raised), InterruptKey(signal.Source()), signal.Answer(), t1, t2, reader);
  }

  /** An interrupt taken for that of k' answers the process waiting there and nobody else. */
  lemma WrongQueue(n: Nuc, ps: PState, k: int, k': int, status: int, t1: int, t2: int, c: Idx)
    requires Inv(n) && k != k' && n.Waiters(k') == [c]
    ensures
      var m := DeviceDone(n, ps, k', status, t1, t2);
      m.Waiters(k) == n.Waiters(k) && m.Waiters(k') == [] && m.pcb[c].ps.a0 == status && m.pcb[c].semAdd == None
  {
    InvAsl(n);
    InterruptEffect(n, ps, k', status, t1, t2, k);
    AnswerReaches(n, ps, k', status, t1, t2, c);
  }
}
