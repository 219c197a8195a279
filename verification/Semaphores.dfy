/** What waits on a semaphore and what its value is, step by step: the conservation law, FIFO order and the
    pairing of I/O requests with interrupts. */
module Semaphores {
  import opened Lists
  import opened ListX
  import opened Nucleus
  import opened Devices
  import opened Invariant
  import opened Termination
  import opened Soundness
  import opened ClockTicks
  import opened ProcessLife
  import opened Steps

  // ---- primitives ----

  ghost predicate SameQueues(n: Nuc, m: Nuc) {
    m.slink == n.slink && m.skey == n.skey && forall h :: 2 <= h < MAXPROC + 2 ==> m.plist[h] == n.plist[h]
  }

  lemma WaitersFrame(n: Nuc, m: Nuc, k: int)
    requires SameQueues(n, m)
    ensures m.Waiters(k) == n.Waiters(k) && m.Desc(k) == n.Desc(k)
  {
  }

  lemma DescWithout(skey: KeyTable, s: seq<Idx>, d: Idx, k: int)
    requires NoDup(s) && d in s
    requires forall a: Idx, b: Idx :: a in s && b in s && skey[a] == skey[b] ==> a == b
    ensures DescOf(skey, Without(s, d), k) == if skey[d] == k then None else DescOf(skey, s, k)
  {
    WithoutMembers(s, d);
    var r := DescOf(skey, s, k);
    if r.Some? && skey[d] != k {
      DescIs(skey, Without(s, d), r.value);
    }
  }

  /** p leaves its queue; every other queue stays as it is. */
  lemma UnqueueWaiters(n: Nuc, d: Idx, p: Idx, spare: seq<Idx>, k: int)
    requires Asl(n.plist, n.slink, n.skey) && d in n.Active()
    ensures
      var m := Unqueue(n, d, p, spare);
      m.Waiters(k) == if k == n.skey[d] then Without(n.Waiters(k), p) else n.Waiters(k)
  {
    DescIs(n.skey, n.Active(), d);
    DescWithout(n.skey, n.Active(), d, k);
    UnqueueDesc(n, d, p, spare, k);
  }

  lemma UnqueueDesc(n: Nuc, d: Idx, p: Idx, spare: seq<Idx>, k: int)
    ensures
      var m, q := Unqueue(n, d, p, spare), Without(n.Queue(d), p);
      && m.Queue(d) == q && (forall e: Idx :: e != d ==> m.Queue(e) == n.Queue(e))
      && m.Desc(k) == DescOf(n.skey, if q == [] then Without(n.Active(), d) else n.Active(), k)
  {
  }

  lemma BlockWaiters(n: Nuc, key: int, p: Idx, k: int)
    requires Asl(n.plist, n.slink, n.skey) && n.FreeDescriptors() != []
    ensures InsertBlocked(n, key, p).Waiters(k) == if k == key then n.Waiters(k) + [p] else n.Waiters(k)
  {
    if n.Desc(key).None? {
      HeadIsMember(n.FreeDescriptors());
      DescAppend(n.skey, n.Active(), n.FreeDescriptors()[0], key, k);
    }
  }

  /** V in terms of the queue: the first waiter leaves, or the value goes up. */
  lemma VWaiters(n: Nuc, key: int, k: int)
    requires Asl(n.plist, n.slink, n.skey)
    ensures
      var m := VOnSem(n, key).1;
      if k != key then m.Waiters(k) == n.Waiters(k) && m.Val(k) == n.Val(k)
      else if n.Waiters(k) == [] then m.Waiters(k) == [] && m.Val(k) == n.Val(k) + 1
      else m.Waiters(k) == n.Waiters(k)[1..] && m.Val(k) == n.Val(k)
  {
    if n.Desc(key).Some? {
      var d := n.Desc(key).value;
      var p := n.Queue(d)[0];
      var spare := n.FreeDescriptors() + [d];
      UnqueueWaiters(n, d, p, spare, k);
      WaitersFrame(Unqueue(n, d, p, spare), VOnSem(n, key).1, k);
      assert IndexOf(n.Queue(d), p) == 0;
      assert RemoveAt(n.Queue(d), 0) == n.Queue(d)[1..];
    }
  }

  lemma WaitersNoDup(n: Nuc, k: int, orphans: set<Idx>, out: set<Idx>)
    requires Core(n, orphans, out)
    ensures NoDup(n.Waiters(k))
    ensures forall p: Idx :: p in n.Waiters(k) <==> n.pcb[p].semAdd == Some(k)
  {
    forall p: Idx ensures p in n.Waiters(k) <==> n.pcb[p].semAdd == Some(k) {
      if n.pcb[p].semAdd == Some(k) {
        assert Queued(n.plist, n.Active(), n.skey, p, k);
      }
      if p in n.Waiters(k) {
        assert p in n.plist[QUEUE(n.Desc(k).value)];
      }
    }
  }

  // ---- termination ----

  /** The value of a semaphore less the number of processes waiting on it. */
  ghost function Balance(n: Nuc, k: int): int { n.Val(k) - |n.Waiters(k)| }

  /** What killing a waiter adds to the balance: its P is withdrawn, and a user semaphore gets a V besides. */
  ghost function KillWeight(k: int): nat { if IsDevice(k) then 1 else 2 }

  lemma WithoutLength(s: seq<Idx>, p: Idx)
    ensures |Without(s, p)| == |s| - if p in s then 1 else 0
  {
  }

  /** t leaves its queue. */
  lemma OutWaiters(n: Nuc, t: Idx, k: int, orphans: set<Idx>, out: set<Idx>)
    requires Core(n, orphans, out) && n.pcb[t].semAdd.Some?
    ensures
      var o := OutBlocked(n, t);
      && o.Waiters(k) == (if n.pcb[t].semAdd == Some(k) then Without(n.Waiters(k), t) else n.Waiters(k))
      && o.sem == n.sem && Asl(o.plist, o.slink, o.skey)
    ensures n.pcb[t].semAdd == Some(k) ==> t in n.Waiters(k)
  {
    var key := n.pcb[t].semAdd.value;
    assert Queued(n.plist, n.Active(), n.skey, t, key);
    UnqueueWaiters(n, n.Desc(key).value, t, [n.Desc(key).value] + n.FreeDescriptors(), k);
    OutBlockedKeeps(n, t, orphans, out);
  }

  lemma DetachWaiters(n: Nuc, t: Idx, k: int, orphans: set<Idx>, out: set<Idx>)
    requires Core(n, orphans, out) && n.pcb[t].semAdd.Some?
    ensures
      var key := n.pcb[t].semAdd.value;
      var q := Without(n.Waiters(k), t);
      var m := Detach(n, t);
      if k != key then m.Waiters(k) == n.Waiters(k) && m.Val(k) == n.Val(k)
      else if IsDevice(k) then m.Waiters(k) == q && m.Val(k) == n.Val(k)
      else m.Waiters(k) == (if q == [] then [] else q[1..]) && m.Val(k) == n.Val(k) + if q == [] then 1 else 0
    ensures n.pcb[t].semAdd == Some(k) ==> t in n.Waiters(k)
  {
    var key, o := n.pcb[t].semAdd.value, OutBlocked(n, t);
    OutWaiters(n, t, k, orphans, out);
    DetachIs(n, t, k);
    if !IsDevice(key) {
      VWaiters(o, key, k);
    }
    AfterDetach(n, o, Detach(n, t), t, key, k);
  }

  /** t has left its queue in o, and m is o after the V that a user semaphore gets. */
  lemma AfterDetach(n: Nuc, o: Nuc, m: Nuc, t: Idx, key: int, k: int)
    requires o.Waiters(k) == (if key == k then Without(n.Waiters(k), t) else n.Waiters(k)) && o.sem == n.sem
    requires if IsDevice(key) || k != key then Unmoved(o, m, k) else Raised(o, m, k)
    ensures
      var q := Without(n.Waiters(k), t);
      if k != key then m.Waiters(k) == n.Waiters(k) && m.Val(k) == n.Val(k)
      else if IsDevice(k) then m.Waiters(k) == q && m.Val(k) == n.Val(k)
      else m.Waiters(k) == (if q == [] then [] else q[1..]) && m.Val(k) == n.Val(k) + if q == [] then 1 else 0
  {
  }

  /** What follows outBlocked: nothing that concerns queues, or a V. */
  lemma DetachIs(n: Nuc, t: Idx, k: int)
    requires n.pcb[t].semAdd.Some?
    ensures
      var key, o := n.pcb[t].semAdd.value, OutBlocked(n, t);
      if IsDevice(key) then Unmoved(o, Detach(n, t), k) else Detach(n, t) == VOnSem(o, key).1
  {
    if IsDevice(n.pcb[t].semAdd.value) {
      Quietly(OutBlocked(n, t), Detach(n, t), k);
    }
  }

  lemma KillWaiters(n: Nuc, t: Idx, k: int)
    ensures Kill(n, t).Waiters(k) == Detach(n, t).Waiters(k) && Kill(n, t).Val(k) == Detach(n, t).Val(k)
    ensures n.pcb[t].semAdd.None? ==> Detach(n, t).Waiters(k) == n.Waiters(k) && Detach(n, t).Val(k) == n.Val(k)
  {
    WaitersFrame(Detach(n, t), Kill(n, t), k);
    if n.pcb[t].semAdd.None? {
      WaitersFrame(n, Detach(n, t), k);
    }
  }

  lemma KillBalance(n: Nuc, t: Idx, k: int, orphans: set<Idx>, out: set<Idx>)
    requires Core(n, orphans, out)
    ensures Balance(Kill(n, t), k) == Balance(n, k) + if n.pcb[t].semAdd == Some(k) then KillWeight(k) else 0
  {
    KillWaiters(n, t, k);
    if n.pcb[t].semAdd.Some? {
      DetachWaiters(n, t, k, orphans, out);
      WithoutLength(n.Waiters(k), t);
    }
  }

  /** The withdrawals from k that killing brings about: by the loop of recursiveTermination, and in all. A
      process that a compensating V wakes before its turn comes does not count. */
  ghost function ChildrenWithdraw(n: Nuc, t: Idx, k: int): nat
    decreases Links(n.psib), 0
  {
    if n.psib[t] == [] then 0
    else
      var a := RemoveChild(n, t);
      Withdraw(a, n.psib[t][0], k) + ChildrenWithdraw(RecursiveTermination(a, n.psib[t][0]), t, k)
  }

  ghost function Withdraw(n: Nuc, t: Idx, k: int): nat
    decreases Links(n.psib), 1
  {
    ChildrenWithdraw(n, t, k) + if KillChildren(n, t).pcb[t].semAdd == Some(k) then KillWeight(k) else 0
  }

  lemma {:induction false} ChildrenBalance(n: Nuc, t: Idx, k: int, orphans: set<Idx>)
    requires Core(n, orphans, Held(n)) && t in orphans
    ensures Balance(KillChildren(n, t), k) == Balance(n, k) + ChildrenWithdraw(n, t, k)
    decreases Links(n.psib), 0
  {
    if n.psib[t] != [] {
      var c, a := n.psib[t][0], RemoveChild(n, t);
      ChildCore(n, t, orphans);
      WaitersFrame(n, a, k);
      TerminationBalance(a, c, k, orphans + {c});
      ChildrenBalance(RecursiveTermination(a, c), t, k, orphans);
    }
  }

  lemma {:induction false} TerminationBalance(n: Nuc, t: Idx, k: int, orphans: set<Idx>)
    requires Core(n, orphans, Held(n)) && t in orphans
    ensures Balance(RecursiveTermination(n, t), k) == Balance(n, k) + Withdraw(n, t, k)
    decreases Links(n.psib), 1
  {
    ChildrenBalance(n, t, k, orphans);
    ChildrenCore(n, t, orphans);
    KillBalance(KillChildren(n, t), t, k, orphans, Held(KillChildren(n, t)));
  }

  // ---- order ----

  lemma WithoutBefore(s: seq<Idx>, t: Idx, x: Idx, y: Idx)
    requires Before(s, x, y) && x != t && y != t
    ensures Before(Without(s, t), x, y)
  {
    if t in s {
      var i, j :| 0 <= i < j < |s| && s[i] == x && s[j] == y;
      var k := IndexOf(s, t);
      RemoveAtIndex(s, k, i);
      RemoveAtIndex(s, k, j);
    }
  }

  lemma TailBefore(s: seq<Idx>, x: Idx, y: Idx)
    requires NoDup(s) && Before(s, x, y) && x in s[1..]
    ensures Before(s[1..], x, y)
  {
    var i, j :| 0 <= i < j < |s| && s[i] == x && s[j] == y;
    var k :| 0 <= k < |s[1..]| && s[1..][k] == x;
    assert s[k + 1] == x;
    assert s[1..][i - 1] == x && s[1..][j - 1] == y;
  }

  lemma AppendBefore(s: seq<Idx>, c: Idx, x: Idx, y: Idx)
    requires Before(s, x, y)
    ensures Before(s + [c], x, y)
  {
    var i, j :| 0 <= i < j < |s| && s[i] == x && s[j] == y;
    assert (s + [c])[i] == x && (s + [c])[j] == y;
  }

  /** From n to m nobody overtakes on k: those behind somebody who still waits are still waiting behind him,
      unless they were killed. */
  ghost predicate Fair(n: Nuc, m: Nuc, k: int) {
    forall x: Idx, y: Idx :: Before(n.Waiters(k), x, y) && x in m.Waiters(k) ==>
      y in m.Free() || Before(m.Waiters(k), x, y)
  }

  /** What termination does to a queue: fair, nobody new waits, and only death ends the wait for a device. */
  ghost predicate Thinned(n: Nuc, m: Nuc, k: int) {
    && Fair(n, m, k)
    && (IsDevice(k) ==> forall x: Idx :: x in n.Waiters(k) ==> x in m.Free() || x in m.Waiters(k))
    && (forall x: Idx :: x in m.Waiters(k) ==> x in n.Waiters(k))
    && (forall x: Idx :: x in n.Free() ==> x in m.Free())
  }

  lemma ThinnedTrans(a: Nuc, b: Nuc, c: Nuc, k: int)
    requires Thinned(a, b, k) && Thinned(b, c, k)
    ensures Thinned(a, c, k)
  {
  }

  /** Losing the process t, which dies, and possibly the first of the others is fair. */
  lemma ThinQueue(n: Nuc, m: Nuc, k: int, t: Idx)
    requires NoDup(n.Waiters(k)) && t in m.Free() && forall x: Idx :: x in n.Free() ==> x in m.Free()
    requires
      var q := Without(n.Waiters(k), t);
      m.Waiters(k) == n.Waiters(k) || m.Waiters(k) == q || (!IsDevice(k) && q != [] && m.Waiters(k) == q[1..])
    ensures Thinned(n, m, k)
  {
    var s, r := n.Waiters(k), m.Waiters(k);
    var q := Without(s, t);
    WithoutMembers(s, t);
    forall x: Idx, y: Idx | Before(s, x, y) && x in r ensures y in m.Free() || Before(r, x, y) {
      if y != t && x != t {
        WithoutBefore(s, t, x, y);
        if q != [] && r == q[1..] {
          TailBefore(q, x, y);
        }
      }
    }
  }

  lemma KillThins(n: Nuc, t: Idx, k: int, orphans: set<Idx>)
    requires Core(n, orphans, Held(n)) && t in orphans && n.psib[t] == []
    ensures Thinned(n, Kill(n, t), k)
  {
    WaitersNoDup(n, k, orphans, Held(n));
    KillKeeps(n, t, orphans, Held(n));
    KillWaiters(n, t, k);
    if n.pcb[t].semAdd.Some? {
      DetachWaiters(n, t, k, orphans, Held(n));
    }
    ThinQueue(n, Kill(n, t), k, t);
  }

  lemma CutThins(n: Nuc, a: Nuc, k: int)
    requires SameQueues(n, a) && a.Free() == n.Free()
    ensures Thinned(n, a, k)
  {
    WaitersFrame(n, a, k);
  }

  lemma {:induction false} ChildrenThin(n: Nuc, t: Idx, k: int, orphans: set<Idx>)
    requires Core(n, orphans, Held(n)) && t in orphans
    ensures Thinned(n, KillChildren(n, t), k)
    decreases Links(n.psib), 0
  {
    if n.psib[t] == [] {
      CutThins(n, n, k);
    } else {
      var c, a := n.psib[t][0], RemoveChild(n, t);
      var b := RecursiveTermination(a, c);
      ChildCore(n, t, orphans);
      CutThins(n, a, k);
      TerminationThins(a, c, k, orphans + {c});
      ThinnedTrans(n, a, b, k);
      ChildrenThin(b, t, k, orphans);
      ThinnedTrans(n, b, KillChildren(b, t), k);
    }
  }

  lemma {:induction false} TerminationThins(n: Nuc, t: Idx, k: int, orphans: set<Idx>)
    requires Core(n, orphans, Held(n)) && t in orphans
    ensures Thinned(n, RecursiveTermination(n, t), k)
    decreases Links(n.psib), 1
  {
    ChildrenThin(n, t, k, orphans);
    ChildrenCore(n, t, orphans);
    KillThins(KillChildren(n, t), t, k, orphans);
    ThinnedTrans(n, KillChildren(n, t), RecursiveTermination(n, t), k);
  }

  // ---- events ----

  ghost predicate Unmoved(n: Nuc, m: Nuc, k: int) {
    m.Waiters(k) == n.Waiters(k) && m.Val(k) == n.Val(k)
  }

  ghost predicate Joined(n: Nuc, m: Nuc, k: int, c: Idx) {
    m.Waiters(k) == n.Waiters(k) + [c] && m.Val(k) == n.Val(k) == 0
  }

  /** A V has reached k: its first waiter left, or its value rose. */
  ghost predicate Raised(n: Nuc, m: Nuc, k: int) {
    if n.Waiters(k) == [] then m.Waiters(k) == [] && m.Val(k) == n.Val(k) + 1
    else m.Waiters(k) == n.Waiters(k)[1..] && m.Val(k) == n.Val(k)
  }

  lemma Quietly(n: Nuc, m: Nuc, k: int)
    requires SameQueues(n, m) && m.sem == n.sem
    ensures Unmoved(n, m, k)
  {
    WaitersFrame(n, m, k);
  }

  lemma BlockEffect(n: Nuc, key: int, ps: PState, t: int, k: int)
    requires Inv(n) && n.current.Some? && n.Val(key) == 0
    ensures var m := Block(n, key, ps, t);
            if k == key then Joined(n, m, k, n.current.value) else Unmoved(n, m, k)
  {
    var c := n.current.value;
    var a := SaveState(n, c, ps, t);
    Quietly(n, a, k);
    DescriptorAvailable(n, c, Held(n));
    BlockWaiters(a, key, c, k);
    Quietly(InsertBlocked(a, key, c), Block(n, key, ps, t), k);
  }

  lemma SchedulerQuiet(n: Nuc, t: int, k: int)
    ensures Unmoved(n, Scheduler(n, t), k)
  {
    Quietly(n, Scheduler(n, t), k);
  }

  lemma RequeueQuiet(n: Nuc, c: Idx, ps: PState, t1: int, t2: int, k: int)
    ensures Unmoved(n, Scheduler(MakeReady(SaveState(n, c, ps, t1), c), t2), k)
    ensures Unmoved(n, Scheduler(MakeReady(SaveState(n, c, ps, t1), c).(current := None), t2), k)
  {
    var m := MakeReady(SaveState(n, c, ps, t1), c);
    Quietly(n, m, k);
    Quietly(n, m.(current := None), k);
    SchedulerQuiet(m, t2, k);
    SchedulerQuiet(m.(current := None), t2, k);
  }

  lemma YieldQuiet(n: Nuc, ps: PState, t1: int, t2: int, k: int)
    requires n.current.Some?
    ensures Unmoved(n, Yield(n, ps, t1, t2), k)
  {
    var c := n.current.value;
    var m := GiveWay(SaveState(n, c, ps, t1), c).(current := None);
    Quietly(n, m, k);
    SchedulerQuiet(m, t2, k);
  }

  lemma CreateQuiet(n: Nuc, ps: PState, state: PState, prio: int, support: int, k: int)
    requires n.current.Some?
    ensures Unmoved(n, CreateProcess(n, ps, state, prio, support), k)
  {
    Quietly(n, CreateProcess(n, ps, state, prio, support), k);
  }

  lemma ResumeQuiet(n: Nuc, ps: PState, t: int, k: int)
    ensures Unmoved(n, Resume(n, ps, t), k)
  {
    Quietly(n, Resume(n, ps, t), k);
  }

  lemma PassEffect(n: Nuc, ps: PState, key: int, t1: int, t2: int, k: int)
    requires Inv(n) && n.current.Some?
    ensures
      var m := Passeren(n, ps, key, t1, t2);
      if k != key then Unmoved(n, m, k)
      else if n.Val(k) > 0 then m.Waiters(k) == n.Waiters(k) && m.Val(k) == n.Val(k) - 1
      else Joined(n, m, k, n.current.value)
  {
    if n.Val(key) > 0 {
      LowerEffect(n, ps, key, t1, t2, k);
    } else {
      SemsNonNegative(n, key);
      BlockEffect(n, key, ps, t1, k);
      SchedulerQuiet(Block(n, key, ps, t1), t2, k);
    }
  }

  lemma LowerEffect(n: Nuc, ps: PState, key: int, t1: int, t2: int, k: int)
    requires n.current.Some? && n.Val(key) > 0
    ensures
      var m := Passeren(n, ps, key, t1, t2);
      m.Waiters(k) == n.Waiters(k) && m.Val(k) == n.Val(k) - if k == key then 1 else 0
  {
    WaitersFrame(n, Passeren(n, ps, key, t1, t2), k);
  }

  lemma SemsNonNegative(n: Nuc, k: int)
    requires Inv(n)
    ensures n.Val(k) >= 0 && (n.Waiters(k) != [] ==> n.Val(k) == 0)
  {
  }

  lemma DeviceWaitEffect(n: Nuc, ps: PState, key: int, t1: int, t2: int, k: int)
    requires Inv(n) && n.current.Some? && n.Val(key) == 0
    ensures var m := DeviceWait(n, key, ps, t1, t2);
            if k == key then Joined(n, m, k, n.current.value) else Unmoved(n, m, k)
  {
    BlockEffect(n, key, ps, t1, k);
    var m := Block(n, key, ps, t1);
    Quietly(m, m.(softBlockCount := m.softBlockCount + 1), k);
    SchedulerQuiet(m.(softBlockCount := m.softBlockCount + 1), t2, k);
  }

  lemma VEffect(n: Nuc, ps: PState, key: int, k: int)
    requires Asl(n.plist, n.slink, n.skey)
    ensures var m := Verhogen(n, ps, key); if k == key then Raised(n, m, k) else Unmoved(n, m, k)
  {
    VWaiters(n, key, k);
    Quietly(VOnSem(n, key).1, Verhogen(n, ps, key), k);
  }

  lemma AnswerQuiet(n: Nuc, key: int, status: int, k: int)
    ensures Unmoved(VOnSem(n, key).1, Answer(n, key, status), k)
  {
    Quietly(VOnSem(n, key).1, Answer(n, key, status), k);
  }

  lemma ChargeQuiet(n: Nuc, t: int, k: int)
    ensures
      var a := ChargeCurrent(n, t);
      Unmoved(n, a, k) && a.plist == n.plist && a.slink == n.slink && a.skey == n.skey
  {
    Quietly(n, ChargeCurrent(n, t), k);
  }

  lemma InterruptEffect(n: Nuc, ps: PState, key: int, status: int, t1: int, t2: int, k: int)
    requires Asl(n.plist, n.slink, n.skey)
    ensures var m := DeviceDone(n, ps, key, status, t1, t2); if k == key then Raised(n, m, k) else Unmoved(n, m, k)
  {
    var a := ChargeCurrent(n, t1);
    ChargeQuiet(n, t1, k);
    VWaiters(a, key, k);
    AnswerQuiet(a, key, status, k);
    ResumeQuiet(Answer(a, key, status), ps, t2, k);
  }

  lemma TickEffect(n: Nuc, ps: PState, t1: int, t2: int, k: int)
    requires Inv(n)
    ensures var m := ClockTick(n, ps, t1, t2);
            if k == PSEUDOCLOCK then m.Waiters(k) == [] && m.Val(k) == 0 else Unmoved(n, m, k)
  {
    var a := ChargeCurrent(n, t1);
    ChargeCurrentKeeps(n, t1);
    ChargeQuiet(n, t1, k);
    WakeClockWaiters(a, k);
    var m := WakeClock(a);
    WaitersFrame(m, m.(sem := m.sem[PSEUDOCLOCK := 0]), k);
    ResumeQuiet(m.(sem := m.sem[PSEUDOCLOCK := 0]), ps, t2, k);
  }

  lemma WakeClockWaiters(n: Nuc, k: int)
    requires Inv(n)
    ensures if k == PSEUDOCLOCK then WakeClock(n).Waiters(k) == [] else Unmoved(n, WakeClock(n), k)
  {
    if k == PSEUDOCLOCK {
      WakeClockSound(n, Held(n));
    } else if n.Desc(PSEUDOCLOCK).Some? {
      OtherQueues(n, WakeClock(n), n.Desc(PSEUDOCLOCK).value, k);
    }
  }

  /** Giving the descriptor d back leaves the other semaphores alone. */
  lemma OtherQueues(n: Nuc, m: Nuc, d: Idx, k: int)
    requires Asl(n.plist, n.slink, n.skey) && d in n.Active() && n.skey[d] != k
    requires m.Active() == Without(n.Active(), d) && m.skey == n.skey && m.sem == n.sem
    requires forall e: Idx :: e != d ==> m.plist[QUEUE(e)] == n.plist[QUEUE(e)]
    ensures Unmoved(n, m, k)
  {
    DescWithout(n.skey, n.Active(), d, k);
  }

  /** The process whose family an event ends, if it ends any. */
  function Target(n: Nuc, e: Event): Option<Idx>
    requires Enabled(n, e)
  {
    match e
    case Terminate(_, pid, _, _) => if pid == 0 then n.current else FindPid(n, pid, 0)
    case Trap(_) => if n.pcb[n.current.value].support == 0 then n.current else None
    case _ => None
  }

  lemma TerminateEffect(n: Nuc, ps: PState, pid: int, t1: int, t2: int, k: int)
    requires n.current.Some?
    ensures
      var target := if pid == 0 then n.current else FindPid(n, pid, 0);
      var m := if target.Some? then EndSubtree(n, target.value) else n;
      Unmoved(m, TerminateProcess(n, ps, pid, t1, t2), k)
      && TerminateProcess(n, ps, pid, t1, t2).Free() == m.Free()
  {
    var target := if pid == 0 then n.current else FindPid(n, pid, 0);
    var m := if target.Some? then EndSubtree(n, target.value) else n;
    AfterEffect(m, n.current.value, ps, t1, t2, k);
  }

  lemma AfterEffect(m: Nuc, c: Idx, ps: PState, t1: int, t2: int, k: int)
    ensures
      var r := if c in m.Free() then Scheduler(m.(current := None), t2)
               else Scheduler(MakeReady(SaveState(m, c, ps, t1), c), t2);
      Unmoved(m, r, k) && r.Free() == m.Free()
  {
    RequeueQuiet(m, c, ps, t1, t2, k);
    Quietly(m, m.(current := None), k);
    SchedulerQuiet(m.(current := None), t2, k);
  }

  lemma DieEffect(n: Nuc, t2: int, k: int)
    requires n.current.Some?
    ensures
      var m := EndSubtree(n, n.current.value);
      Unmoved(m, Die(n, t2), k) && Die(n, t2).Free() == m.Free()
  {
    var m := EndSubtree(n, n.current.value);
    Quietly(m, m.(current := None), k);
    SchedulerQuiet(m.(current := None), t2, k);
  }

  lemma SubtreeBalance(n: Nuc, t: Idx, k: int)
    requires Inv(n) && t !in n.Free()
    ensures Balance(EndSubtree(n, t), k) == Balance(n, k) + Withdraw(OutChild(n, t), t, k)
    ensures Thinned(n, EndSubtree(n, t), k)
  {
    var o := OutChild(n, t);
    OutChildKeeps(n, t, Roots(n), Held(n));
    OutChildCounts(n, t);
    CutThins(n, o, k);
    WaitersFrame(n, o, k);
    TerminationBalance(o, t, k, Roots(n) + {t});
    TerminationThins(o, t, k, Roots(n) + {t});
    ThinnedTrans(n, o, EndSubtree(n, t), k);
  }

  // ---- the conservation law ----

  ghost function Vs(e: Event, k: int): nat {
    match e
    case V(_, key) => if key == k then 1 else 0
    case Interrupt(_, signal, _, _) => if IsPort(signal.Source()) && InterruptKey(signal.Source()) == k then 1 else 0
    case _ => 0
  }

  ghost function Ps(e: Event, k: int): nat {
    match e
    case P(_, key, _, _) => if key == k then 1 else 0
    case DoIO(_, port, _, _) => if IsPort(port) && InterruptKey(port) == k then 1 else 0
    case _ => 0
  }

  ghost function Withdrawn(n: Nuc, e: Event, k: int): nat
    requires Enabled(n, e)
  {
    match Target(n, e)
    case Some(t) => Withdraw(OutChild(n, t), t, k)
    case None => 0
  }

  lemma TerminateBalance(n: Nuc, e: Event, k: int)
    requires Inv(n) && Enabled(n, e) && e.Terminate?
    ensures Balance(Step(n, e), k) == Balance(n, k) + Withdrawn(n, e, k)
    ensures Thinned(n, Step(n, e), k)
  {
    if Target(n, e).Some? {
      SubtreeBalance(n, Target(n, e).value, k);
    }
    TerminateEffect(n, e.ps, e.pid, e.t1, e.t2, k);
  }

  lemma DieBalance(n: Nuc, t2: int, k: int)
    requires Inv(n) && n.current.Some?
    ensures Balance(Die(n, t2), k) == Balance(n, k) + Withdraw(OutChild(n, n.current.value), n.current.value, k)
    ensures Thinned(n, Die(n, t2), k)
  {
    SubtreeBalance(n, n.current.value, k);
    DieEffect(n, t2, k);
  }

  lemma TrapBalance(n: Nuc, e: Event, k: int)
    requires Inv(n) && Enabled(n, e) && e.Trap?
    ensures Balance(Step(n, e), k) == Balance(n, k) + Withdrawn(n, e, k)
    ensures Thinned(n, Step(n, e), k)
  {
    if n.pcb[n.current.value].support == 0 {
      DieBalance(n, e.t2, k);
    } else {
      Quietly(n, n.(now := e.t2), k);
    }
  }

  lemma EndBalance(n: Nuc, e: Event, k: int)
    requires Inv(n) && Enabled(n, e) && (e.Terminate? || e.Trap?)
    ensures Balance(Step(n, e), k) == Balance(n, k) + Withdrawn(n, e, k)
    ensures Thinned(n, Step(n, e), k)
  {
    if e.Terminate? {
      TerminateBalance(n, e, k);
    } else {
      TrapBalance(n, e, k);
    }
  }
}
