/** State of the nucleus (phase1 and phase2) and, function by function, what its code does to that state.
    Semaphore addresses are int offsets from &deviceSemaphore[0], so keys 0..48 are the device semaphores
    and every other int is the address of a user semaphore. */
module Nucleus {
  import opened Lists
  import opened ListX

  /** A saved processor state: the a0 register and, opaquely, everything else. */
  datatype PState = PState(regs: int, a0: int)

  datatype Pcb = Pcb(parent: Option<Idx>, time: int, semAdd: Option<int>, support: int,
                     prio: int, pid: int, ps: PState)

  const ZEROSTATE := PState(0, 0)
  const BLANKPCB := Pcb(None, 0, None, 0, 0, 0, ZEROSTATE)

  type PcbTable = s: seq<Pcb> | |s| == MAXPROC witness seq(MAXPROC, _ => BLANKPCB)
  /** Lists built from p_list: the free list, the ready queue and one queue per semaphore descriptor. */
  type PLists = q: seq<seq<Idx>> | |q| == MAXPROC + 2 witness seq(MAXPROC + 2, _ => [])
  /** Lists built from p_sib: the children of each PCB. */
  type Families = q: seq<seq<Idx>> | |q| == MAXPROC witness seq(MAXPROC, _ => [])
  /** Lists built from s_link: the free descriptors and the ASL. */
  type SLists = q: seq<seq<Idx>> | |q| == 2 witness [[], []]
  type KeyTable = s: seq<int> | |s| == MAXPROC witness seq(MAXPROC, _ => 0)

  const FREE := 0
  const READY := 1
  function QUEUE(d: Idx): nat { d + 2 }
  const SFREE := 0
  const ACTIVE := 1

  const NRSEMAPHORES := 49
  const PSEUDOCLOCK := 0

  predicate IsDevice(k: int) { 0 <= k < NRSEMAPHORES }

  /** What the processor is doing once the nucleus has finished a step. */
  datatype Mode = Running | Waiting | Halted | Panicked

  datatype Nuc = Nuc(
    pcb: PcbTable, plist: PLists, psib: Families, slink: SLists, skey: KeyTable, nextPid: int,
    current: Option<Idx>, root: Idx, sem: map<int, int>,
    processCount: int, softBlockCount: int,
    start: int,   // startRunningTime
    now: int,     // the last value read from the time-of-day clock
    cpu: PState,  // the state last loaded into the processor
    mode: Mode)
  {
    function Free(): seq<Idx> { plist[FREE] }
    function Ready(): seq<Idx> { plist[READY] }
    function Queue(d: Idx): seq<Idx> { plist[QUEUE(d)] }
    function Active(): seq<Idx> { slink[ACTIVE] }
    function FreeDescriptors(): seq<Idx> { slink[SFREE] }

    /** Value of a semaphore; memory not mentioned by the map holds 0. */
    function Val(k: int): int { if k in sem then sem[k] else 0 }

    function Desc(k: int): Option<Idx> { DescOf(skey, Active(), k) }

    /** The PCBs waiting on k, in queue order. */
    function Waiters(k: int): seq<Idx> {
      match Desc(k)
      case Some(d) => Queue(d)
      case None => []
    }

    function SetReady(s: seq<Idx>): Nuc { this.(plist := plist[READY := s]) }
    function SetPcb(p: Idx, b: Pcb): Nuc { this.(pcb := pcb[p := b]) }
  }

  // ---- phase1/pcb.c: process queues ----

  /** Where a process of priority prio enters queue s: before the first one of lower priority. */
  function InsertPos(pcb: PcbTable, s: seq<Idx>, prio: int): (i: nat)
    ensures i <= |s|
    ensures forall j :: 0 <= j < i ==> pcb[s[j]].prio >= prio
    ensures i < |s| ==> pcb[s[i]].prio < prio
  {
    if s == [] || pcb[s[0]].prio < prio then 0
    else
      var r := 1 + InsertPos(pcb, s[1..], prio);
      assert forall j :: 0 < j < |s| ==> s[j] == s[1..][j - 1];
      r
  }

  function InsertProcQ(pcb: PcbTable, s: seq<Idx>, p: Idx): seq<Idx> {
    InsertAt(s, InsertPos(pcb, s, pcb[p].prio), p)
  }

  function MakeReady(n: Nuc, p: Idx): Nuc {
    n.SetReady(InsertProcQ(n.pcb, n.Ready(), p))
  }

  function OutReady(n: Nuc, p: Idx): Nuc {
    n.SetReady(Without(n.Ready(), p))
  }

  // ---- phase1/pcb.c: pool and process tree ----

  function AllocPcb(n: Nuc): (Option<Idx>, Nuc) {
    if n.Free() == [] then (None, n)
    else
      var p := n.Free()[0];
      (Some(p), n.(plist := n.plist[FREE := n.Free()[1..]], psib := n.psib[p := []],
                   pcb := n.pcb[p := BLANKPCB.(pid := n.nextPid)], nextPid := n.nextPid + 1))
  }

  function FreePcb(n: Nuc, p: Idx): Nuc {
    n.(plist := n.plist[FREE := n.Free() + [p]], psib := n.psib[p := []],
       pcb := n.pcb[p := BLANKPCB.(ps := n.pcb[p].ps)])
  }

  function InsertChild(n: Nuc, parent: Idx, p: Idx): Nuc {
    n.(psib := n.psib[parent := n.psib[parent] + [p]], pcb := n.pcb[p := n.pcb[p].(parent := Some(parent))])
  }

  /** outChild; removeChild(p) is the same step applied to the first child of p. */
  function OutChild(n: Nuc, p: Idx): Nuc {
    match n.pcb[p].parent
    case None => n
    case Some(h) => n.(psib := n.psib[h := Without(n.psib[h], p)], pcb := n.pcb[p := n.pcb[p].(parent := None)])
  }

  // ---- phase1/asl.c ----

  /** The first descriptor of s whose key is k. */
  function DescOf(skey: KeyTable, s: seq<Idx>, k: int): (r: Option<Idx>)
    ensures r.Some? ==> r.value in s && skey[r.value] == k
    ensures r.None? ==> forall d :: d in s ==> skey[d] != k
  {
    if s == [] then None
    else if skey[s[0]] == k then Some(s[0])
    else
      assert s == [s[0]] + s[1..];
      DescOf(skey, s[1..], k)
  }

  /** insertBlocked; without a free descriptor nothing changes and the code reports 1. */
  function InsertBlocked(n: Nuc, k: int, p: Idx): Nuc {
    var blocked := n.pcb[p := n.pcb[p].(semAdd := Some(k))];
    match n.Desc(k)
    case Some(d) => n.(plist := n.plist[QUEUE(d) := n.Queue(d) + [p]], pcb := blocked)
    case None =>
      if n.FreeDescriptors() == [] then n
      else
        var d := n.FreeDescriptors()[0];
        n.(slink := [n.FreeDescriptors()[1..], n.Active() + [d]], skey := n.skey[d := k],
           plist := n.plist[QUEUE(d) := [p]], pcb := blocked)
  }

  /** Takes p off queue d; a queue left empty gives its descriptor back, spare saying where to. */
  function Unqueue(n: Nuc, d: Idx, p: Idx, spare: seq<Idx>): Nuc {
    var q := Without(n.Queue(d), p);
    n.(plist := n.plist[QUEUE(d) := q], pcb := n.pcb[p := n.pcb[p].(semAdd := None)],
       slink := if q == [] then [spare, Without(n.Active(), d)] else n.slink)
  }

  function RemoveBlocked(n: Nuc, k: int): (Option<Idx>, Nuc) {
    match n.Desc(k)
    case None => (None, n)
    case Some(d) =>
      if n.Queue(d) == [] then (None, n)  // never: an active descriptor has a waiter
      else
        var p := n.Queue(d)[0];
        (Some(p), Unqueue(n, d, p, n.FreeDescriptors() + [d]))
  }

  function OutBlocked(n: Nuc, p: Idx): Nuc {
    if n.pcb[p].semAdd.None? then n
    else
      match n.Desc(n.pcb[p].semAdd.value)
      case None => n
      case Some(d) => Unqueue(n, d, p, [d] + n.FreeDescriptors())
  }

  // ---- phase2/utils.c ----

  function Charge(n: Nuc, p: Idx, t: int): Nuc {
    n.(pcb := n.pcb[p := n.pcb[p].(time := n.pcb[p].time + (t - n.start))], now := t)
  }

  /** updateProcessState at clock value t. */
  function SaveState(n: Nuc, p: Idx, ps: PState, t: int): Nuc {
    var m := Charge(n, p, t);
    m.SetPcb(p, m.pcb[p].(ps := ps))
  }

  /** vOnSem: the woken PCB, if any, and the new state. */
  function VOnSem(n: Nuc, k: int): (Option<Idx>, Nuc) {
    var (w, m) := RemoveBlocked(n, k);
    match w
    case Some(p) => (w, MakeReady(m, p))
    case None => (None, m.(sem := m.sem[k := m.Val(k) + 1]))
  }

  /** A V on a device semaphore or the clock: a process it wakes is no longer soft-blocked. */
  function CountedV(n: Nuc, k: int): (Option<Idx>, Nuc) {
    var (w, m) := VOnSem(n, k);
    (w, if w.Some? then m.(softBlockCount := m.softBlockCount - 1) else m)
  }

  // ---- phase2/scheduler.c ----

  function Scheduler(n: Nuc, t: int): Nuc {
    if n.Ready() != [] then
      var p := n.Ready()[0];
      n.SetReady(n.Ready()[1..]).(current := Some(p), start := t, now := t, cpu := n.pcb[p].ps, mode := Running)
    else if n.processCount == 0 then n.(now := t, mode := Halted)
    else if n.processCount > 0 && n.softBlockCount > 0 then n.(now := t, mode := Waiting)
    else if n.processCount > 0 && n.softBlockCount == 0 then n.(now := t, mode := Panicked)
    else n.(now := t)
  }

  // ---- phase2/exceptions.c: termination ----

  /** Total length of the children lists: what recursiveTermination consumes. */
  ghost function Links(q: seq<seq<Idx>>): nat {
    if q == [] then 0 else |q[0]| + Links(q[1..])
  }

  lemma LinksUpdate(q: seq<seq<Idx>>, h: nat, s: seq<Idx>)
    requires h < |q|
    ensures Links(q[h := s]) == Links(q) - |q[h]| + |s|
  {
    if h == 0 {
      assert q[h := s][1..] == q[1..];
    } else {
      LinksUpdate(q[1..], h - 1, s);
      assert q[h := s][1..] == q[1..][h - 1 := s];
    }
  }

  /** Takes t out of whatever list it is in, with the V that compensates for a lost waiter. */
  function Detach(n: Nuc, t: Idx): (r: Nuc)
    ensures r.psib == n.psib
  {
    if n.pcb[t].semAdd.Some? then
      var k := n.pcb[t].semAdd.value;
      var o := OutBlocked(n, t);
      if IsDevice(k) then o.(softBlockCount := o.softBlockCount - 1) else VOnSem(o, k).1
    else if n.current != Some(t) then OutReady(n, t)
    else n
  }

  /** What happens to one process once it has no children left. */
  function Kill(n: Nuc, t: Idx): (r: Nuc)
    ensures r.psib == n.psib[t := []]
  {
    var m := Detach(n, t);
    FreePcb(m.(processCount := m.processCount - 1), t)
  }

  /** removeChild: the first child of t is cut off the tree. */
  function RemoveChild(n: Nuc, t: Idx): (r: Nuc)
    requires n.psib[t] != []
    ensures Links(r.psib) < Links(n.psib)
  {
    var c := n.psib[t][0];
    var r := n.(psib := n.psib[t := n.psib[t][1..]], pcb := n.pcb[c := n.pcb[c].(parent := None)]);
    assert Links(r.psib) < Links(n.psib) by { LinksUpdate(n.psib, t, n.psib[t][1..]); }
    r
  }

  function KillChildren(n: Nuc, t: Idx): (r: Nuc)
    ensures Links(r.psib) <= Links(n.psib)
    decreases Links(n.psib), 0
  {
    if n.psib[t] == [] then n
    else KillChildren(RecursiveTermination(RemoveChild(n, t), n.psib[t][0]), t)
  }

  function RecursiveTermination(n: Nuc, t: Idx): (r: Nuc)
    ensures Links(r.psib) <= Links(n.psib)
    decreases Links(n.psib), 1
  {
    var m := KillChildren(n, t);
    assert Links(m.psib[t := []]) <= Links(m.psib) by { LinksUpdate(m.psib, t, []); }
    Kill(m, t)
  }

  /** A live process with this pid, searched by table position from i on. */
  function FindPid(n: Nuc, pid: int, i: nat): (r: Option<Idx>)
    requires i <= MAXPROC
    ensures r.Some? ==> r.value !in n.Free() && n.pcb[r.value].pid == pid
    ensures r.None? ==> forall p: Idx :: i <= p && p !in n.Free() ==> n.pcb[p].pid != pid
    decreases MAXPROC - i
  {
    if i == MAXPROC then None
    else if i !in n.Free() && n.pcb[i].pid == pid then Some(i)
    else FindPid(n, pid, i + 1)
  }

  function TerminateProcess(n: Nuc, ps: PState, pid: int, t1: int, t2: int): Nuc
    requires n.current.Some?
  {
    var c := n.current.value;
    var target := if pid == 0 then Some(c) else FindPid(n, pid, 0);
    var m := match target
      case None => n
      case Some(t) => RecursiveTermination(OutChild(n, t), t);
    if c in m.Free() then Scheduler(m.(current := None), t2)
    else Scheduler(MakeReady(SaveState(m, c, ps, t1), c), t2)
  }

  /** passUpOrDie for a process without support structure. */
  function Die(n: Nuc, t2: int): Nuc
    requires n.current.Some?
  {
    var c := n.current.value;
    Scheduler(RecursiveTermination(OutChild(n, c), c).(current := None), t2)
  }

  // ---- phase2/exceptions.c: the other system calls ----

  /** The new PCB p gets its parameters, a place on the ready queue and a parent. */
  function Enroll(m: Nuc, p: Idx, parent: Idx, state: PState, prio: int, support: int): Nuc {
    var a := m.SetPcb(p, m.pcb[p].(ps := state, prio := prio, support := support));
    var b := InsertChild(MakeReady(a, p), parent, p);
    b.(processCount := b.processCount + 1)
  }

  function CreateProcess(n: Nuc, ps: PState, state: PState, prio: int, support: int): Nuc
    requires n.current.Some?
  {
    var (r, m) := AllocPcb(n);
    match r
    case None => n.(cpu := ps.(a0 := -1))
    case Some(p) =>
      var b := Enroll(m, p, n.current.value, state, prio, support);
      b.(cpu := ps.(a0 := b.pcb[p].pid))
  }

  function Block(n: Nuc, k: int, ps: PState, t: int): Nuc
    requires n.current.Some?
  {
    InsertBlocked(SaveState(n, n.current.value, ps, t), k, n.current.value).(current := None)
  }

  function POnSem(n: Nuc, k: int, ps: PState, t: int): Nuc
    requires n.current.Some?
  {
    if n.Val(k) > 0 then n.(sem := n.sem[k := n.Val(k) - 1])
    else Block(n, k, ps, t)
  }

  function Passeren(n: Nuc, ps: PState, k: int, t1: int, t2: int): Nuc
    requires n.current.Some?
  {
    var m := POnSem(n, k, ps, t1);
    if m.current.None? then Scheduler(m, t2) else m.(cpu := ps)
  }

  function Verhogen(n: Nuc, ps: PState, k: int): Nuc {
    VOnSem(n, k).1.(cpu := ps)
  }

  /** A P on a device semaphore, counted as a soft block, then the scheduler: doIO and WaitForClock. */
  function DeviceWait(n: Nuc, k: int, ps: PState, t1: int, t2: int): Nuc
    requires n.current.Some?
  {
    var m := POnSem(n, k, ps, t1);
    Scheduler(m.(softBlockCount := m.softBlockCount + 1), t2)
  }

  function GetCPUTime(n: Nuc, ps: PState, t: int): Nuc
    requires n.current.Some?
  {
    n.(now := t, cpu := ps.(a0 := n.pcb[n.current.value].time + (t - n.start)))
  }

  function GetProcessID(n: Nuc, ps: PState, a1: int): Nuc
    requires n.current.Some?
  {
    var b := n.pcb[n.current.value];
    n.(cpu := ps.(a0 := if a1 == 0 then b.pid else if b.parent.Some? then n.pcb[b.parent.value].pid else 0))
  }

  function GetSupportData(n: Nuc, ps: PState): Nuc
    requires n.current.Some?
  {
    n.(cpu := ps.(a0 := n.pcb[n.current.value].support))
  }

  /** How Yield queues c: if somebody else is ready, the best of them comes back to the very head. */
  function GiveWay(m: Nuc, c: Idx): Nuc {
    if m.Ready() != [] then
      var back := MakeReady(m.SetReady(m.Ready()[1..]), c);
      back.SetReady([m.Ready()[0]] + back.Ready())
    else MakeReady(m, c)
  }

  function Yield(n: Nuc, ps: PState, t1: int, t2: int): Nuc
    requires n.current.Some?
  {
    var c := n.current.value;
    Scheduler(GiveWay(SaveState(n, c, ps, t1), c).(current := None), t2)
  }

  // ---- phase2/interrupts.c ----

  /** Time up to the interrupt is charged to the running process, if there is one. */
  function ChargeCurrent(n: Nuc, t: int): Nuc {
    if n.current.Some? then Charge(n, n.current.value, t) else n
  }

  /** The end of a handler that may interrupt an idle processor. */
  function Resume(n: Nuc, ps: PState, t: int): Nuc {
    if n.current.Some? then n.(start := t, now := t, cpu := ps) else Scheduler(n, t)
  }

  function LocalTimer(n: Nuc, ps: PState, t1: int, t2: int): Nuc
    requires n.current.Some?
  {
    var c := n.current.value;
    Scheduler(MakeReady(SaveState(n, c, ps, t1), c).(current := None), t2)
  }

  /** The V on a device's semaphore; the process it wakes finds the status in its a0. */
  function Answer(n: Nuc, k: int, status: int): Nuc {
    var (w, m) := CountedV(n, k);
    match w
    case Some(p) => m.SetPcb(p, m.pcb[p].(ps := m.pcb[p].ps.(a0 := status)))
    case None => m
  }

  /** nonTimerInterrupts once the device is known: k is its semaphore, status what it reported. */
  function DeviceDone(n: Nuc, ps: PState, k: int, status: int, t1: int, t2: int): Nuc {
    Resume(Answer(ChargeCurrent(n, t1), k, status), ps, t2)
  }

  function InsertAll(pcb: PcbTable, s: seq<Idx>, q: seq<Idx>): seq<Idx>
    decreases |q|
  {
    if q == [] then s else InsertAll(pcb, InsertProcQ(pcb, s, q[0]), q[1..])
  }

  function Released(pcb: PcbTable, q: seq<Idx>): PcbTable
    decreases |q|
  {
    if q == [] then pcb else Released(pcb[q[0] := pcb[q[0]].(semAdd := None)], q[1..])
  }

  /** What the wake-up loop of intervalTimer amounts to: every clock waiter enters the ready queue in
      blocking order, the clock's descriptor is given back and the soft-block count drops accordingly. */
  function WakeClock(n: Nuc): Nuc {
    match n.Desc(PSEUDOCLOCK)
    case None => n
    case Some(d) =>
      var q := n.Queue(d);
      n.(plist := n.plist[READY := InsertAll(n.pcb, n.Ready(), q)][QUEUE(d) := []],
         pcb := Released(n.pcb, q),
         slink := [n.FreeDescriptors() + [d], Without(n.Active(), d)],
         softBlockCount := n.softBlockCount - |q|)
  }

  function ClockTick(n: Nuc, ps: PState, t1: int, t2: int): Nuc {
    var m := WakeClock(ChargeCurrent(n, t1));
    Resume(m.(sem := m.sem[PSEUDOCLOCK := 0]), ps, t2)
  }
}
