/** The mutexes of the support level (phase3): who holds and who asks for what, through the pager,
    releaseFrames, the terminal system calls, the creation of support structures and the death of a process.
    Mutexes are taken in one order, so no circular wait can arise; each keeps value + holders = 1 until a
    process dies holding it. */
module Locks {
  import opened Lists

  datatype Direction = Transmit | Receive

  /** The mutexes, in the order in which they are taken. */
  datatype Mutex = Terminal(d: Direction) | SwapPool | FlashDev(dev: nat) | HeaderBuffer

  function Rank(l: Mutex): nat {
    match l
    case Terminal(_) => 0
    case SwapPool => 1
    case FlashDev(_) => 2
    case HeaderBuffer => 3
  }

  /** Where a process is, as far as mutexes are concerned; back says where a page fault returns to, or where a
      process that terminates comes from: user code or the loop of a terminal system call. A process at an Ask
      is about to do the P, or blocked in it; at Failed, a flash transfer has failed. */
  datatype Pc =
    | User
    | AskTerminal(d: Direction)
    | InTerminal(d: Direction)
    | AskSwap(back: Option<Direction>)
    | InSwap(back: Option<Direction>)
    | AskVictim(back: Option<Direction>, dev: nat)
    | InVictim(back: Option<Direction>, dev: nat)
    | Cleaned(back: Option<Direction>)
    | AskOwn(back: Option<Direction>, dev: nat)
    | InOwn(back: Option<Direction>, dev: nat)
    | Publishing(back: Option<Direction>)
    | Failed(back: Option<Direction>)
    | AskRelease(back: Option<Direction>)
    | InRelease(back: Option<Direction>)
    | Dead(back: Option<Direction>)
    | AskFlash(dev: nat)
    | AskHeader(dev: nat)
    | InHeader(dev: nat)
    | InFlash(dev: nat)

  function Resumed(back: Option<Direction>): Pc {
    match back
    case None => User
    case Some(d) => InTerminal(d)
  }

  function OfTerminal(back: Option<Direction>): set<Mutex> {
    match back
    case None => {}
    case Some(d) => {Terminal(d)}
  }

  /** The mutexes held at each place. */
  function Holds(pc: Pc): set<Mutex> {
    match pc
    case User => {}
    case AskTerminal(_) => {}
    case InTerminal(d) => {Terminal(d)}
    case AskSwap(back) => OfTerminal(back)
    case InSwap(back) => OfTerminal(back) + {SwapPool}
    case AskVictim(back, _) => OfTerminal(back) + {SwapPool}
    case InVictim(back, dev) => OfTerminal(back) + {SwapPool, FlashDev(dev)}
    case Cleaned(back) => OfTerminal(back) + {SwapPool}
    case AskOwn(back, _) => OfTerminal(back) + {SwapPool}
    case InOwn(back, dev) => OfTerminal(back) + {SwapPool, FlashDev(dev)}
    case Publishing(back) => OfTerminal(back) + {SwapPool}
    case Failed(back) => OfTerminal(back) + {SwapPool}
    case AskRelease(back) => OfTerminal(back)
    case InRelease(back) => OfTerminal(back) + {SwapPool}
    case Dead(_) => {}
    case AskFlash(_) => {}
    case AskHeader(dev) => {FlashDev(dev)}
    case InHeader(dev) => {FlashDev(dev), HeaderBuffer}
    case InFlash(dev) => {FlashDev(dev)}
  }

  /** What a dead process never gave back. */
  function LostAt(pc: Pc): set<Mutex> { if pc.Dead? then OfTerminal(pc.back) else {} }

  function Claims(pc: Pc): set<Mutex> { Holds(pc) + LostAt(pc) }

  /** The P that comes next, if any, and the place behind it. */
  function Wants(pc: Pc): Option<Mutex> {
    match pc
    case AskTerminal(d) => Some(Terminal(d))
    case AskSwap(_) => Some(SwapPool)
    case AskVictim(_, dev) => Some(FlashDev(dev))
    case AskOwn(_, dev) => Some(FlashDev(dev))
    case AskRelease(_) => Some(SwapPool)
    case AskFlash(dev) => Some(FlashDev(dev))
    case AskHeader(_) => Some(HeaderBuffer)
    case _ => None
  }

  function AfterP(pc: Pc): Pc
    requires Wants(pc).Some?
  {
    match pc
    case AskTerminal(d) => InTerminal(d)
    case AskSwap(back) => InSwap(back)
    case AskVictim(back, dev) => InVictim(back, dev)
    case AskOwn(back, dev) => InOwn(back, dev)
    case AskRelease(back) => InRelease(back)
    case AskFlash(dev) => AskHeader(dev)
    case AskHeader(dev) => InHeader(dev)
  }

  /** The V that can come next, if any, and the place behind it. */
  function Returns(pc: Pc): Option<Mutex> {
    match pc
    case InTerminal(d) => Some(Terminal(d))
    case InVictim(_, dev) => Some(FlashDev(dev))
    case InOwn(_, dev) => Some(FlashDev(dev))
    case Publishing(_) => Some(SwapPool)
    case Failed(_) => Some(SwapPool)
    case InRelease(_) => Some(SwapPool)
    case InHeader(_) => Some(HeaderBuffer)
    case InFlash(dev) => Some(FlashDev(dev))
    case _ => None
  }

  function AfterV(pc: Pc): Pc
    requires Returns(pc).Some?
  {
    match pc
    case InTerminal(_) => User
    case InVictim(back, _) => Cleaned(back)
    case InOwn(back, _) => Publishing(back)
    case Publishing(back) => Resumed(back)
    case Failed(back) => AskRelease(back)
    case InRelease(back) => Dead(back)
    case InHeader(dev) => InFlash(dev)
    case InFlash(_) => User
  }

  /** Moves that involve no mutex: a system call, page fault or termination begins, the pager decides what to do
      next or finds that the write or read just done has failed, a new process takes the place of one that has
      ended in good order. A reader that stores a character into a page with D off is terminated where it stands. */
  predicate Internal(a: Pc, b: Pc) {
    match a
    case User => b.AskTerminal? || b == AskSwap(None) || b == AskRelease(None) || b.AskFlash?
    case InTerminal(d) => b == AskSwap(Some(d)) || (d == Receive && b == AskRelease(Some(d)))
    case Dead(back) => back == None && b == User
    case InSwap(back) => (b.AskVictim? || b.AskOwn?) && b.back == back
    case Cleaned(back) => (b.AskOwn? || b.Failed?) && b.back == back
    case Publishing(back) => b == Failed(back)
    case _ => false
  }

  /** The order of acquisition: whatever a process asks for ranks above everything it holds, page faults
      taken inside a terminal system call included. */
  lemma AskedAbove(pc: Pc, held: Mutex)
    requires Wants(pc).Some? && held in Holds(pc)
    ensures Rank(held) < Rank(Wants(pc).value)
  {
  }

  /** P takes and V gives back exactly the mutex named; what a process dies with it claims for ever. */
  lemma HoldsAfter(pc: Pc)
    ensures Wants(pc).Some? ==> Wants(pc).value !in Holds(pc) && Holds(AfterP(pc)) == Holds(pc) + {Wants(pc).value}
    ensures Returns(pc).Some? ==>
              && Returns(pc).value in Holds(pc)
              && Holds(AfterV(pc)) + LostAt(AfterV(pc)) == Holds(pc) - {Returns(pc).value}
    ensures Returns(pc).Some? && !pc.InRelease? ==> LostAt(AfterV(pc)) == {}
    ensures Wants(pc).Some? ==> Returns(pc).None?
    ensures forall b :: Internal(pc, b) ==> Holds(b) == Holds(pc) && Wants(pc).None?
  {
  }

  lemma ClaimsAfter(pc: Pc)
    ensures Wants(pc).Some? ==> Wants(pc).value !in Claims(pc) && Claims(AfterP(pc)) == Claims(pc) + {Wants(pc).value}
    ensures Returns(pc).Some? ==>
              Returns(pc).value in Claims(pc) && Claims(AfterV(pc)) == Claims(pc) - {Returns(pc).value}
    ensures forall b :: Internal(pc, b) ==> Claims(b) == Claims(pc) && Wants(pc).None?
  {
    HoldsAfter(pc);
  }

  // ---- the machine ----

  const PROCESSES: Positive
  type Proc = p: nat | p < PROCESSES witness 0
  type Places = s: seq<Pc> | |s| == PROCESSES witness seq(PROCESSES, _ => User)

  function ValOf(value: map<Mutex, int>, l: Mutex): int { if l in value then value[l] else 1 }
  function QueueOf(queue: map<Mutex, seq<Proc>>, l: Mutex): seq<Proc> { if l in queue then queue[l] else [] }

  /** Values and queues of the mutexes; initially every value is 1 and every queue empty. */
  datatype State = State(pc: Places, value: map<Mutex, int>, queue: map<Mutex, seq<Proc>>) {
    function Val(l: Mutex): int { ValOf(value, l) }
    function Queue(l: Mutex): seq<Proc> { QueueOf(queue, l) }
    predicate Blocked(p: Proc) { Wants(pc[p]).Some? && p in Queue(Wants(pc[p]).value) }
  }

  datatype Event = DoP(p: Proc) | DoV(p: Proc) | Go(p: Proc, to: Pc)

  predicate Enabled(n: State, e: Event) {
    !n.Blocked(e.p) &&
    match e
    case DoP(p) => Wants(n.pc[p]).Some?
    case DoV(p) => Returns(n.pc[p]).Some?
    case Go(p, to) => Internal(n.pc[p], to)
  }

  /** P and V as the nucleus performs them: P passes or joins the queue, V hands the mutex to the first in the
      queue or raises the value. */
  function Step(n: State, e: Event): State
    requires Enabled(n, e)
  {
    match e
    case DoP(p) =>
      var l := Wants(n.pc[p]).value;
      if n.Val(l) > 0 then n.(value := n.value[l := n.Val(l) - 1], pc := n.pc[p := AfterP(n.pc[p])])
      else n.(queue := n.queue[l := n.Queue(l) + [p]])
    case DoV(p) =>
      var l := Returns(n.pc[p]).value;
      var m := n.(pc := n.pc[p := AfterV(n.pc[p])]);
      if n.Queue(l) == [] then m.(value := n.value[l := n.Val(l) + 1])
      else
        var w := n.Queue(l)[0];
        m.(queue := n.queue[l := n.Queue(l)[1..]],
           pc := if Wants(m.pc[w]).Some? then m.pc[w := AfterP(m.pc[w])] else m.pc)
    case Go(p, to) => n.(pc := n.pc[p := to])
  }

  ghost function ClaimantsOf(pc: Places, l: Mutex): set<Proc> {
    set p: Proc | 0 <= p < PROCESSES && l in Claims(pc[p])
  }

  ghost function Holders(n: State, l: Mutex): set<Proc> {
    set p: Proc | 0 <= p < PROCESSES && l in Holds(n.pc[p])
  }

  /** Some process has died holding l. */
  ghost predicate Lost(n: State, l: Mutex) {
    exists p: Proc :: l in LostAt(n.pc[p])
  }

  /** Processes queue without repetition for the mutex they want, and only while its value is 0. */
  ghost predicate Queues(pc: Places, value: map<Mutex, int>, queue: map<Mutex, seq<Proc>>) {
    && (forall l :: NoDup(QueueOf(queue, l)))
    && (forall l, p: Proc :: p in QueueOf(queue, l) ==> Wants(pc[p]) == Some(l))
    && (forall l :: QueueOf(queue, l) != [] ==> ValOf(value, l) == 0)
  }

  /** Value, holders and losers of every mutex add up to 1. */
  ghost predicate Sums(pc: Places, value: map<Mutex, int>) {
    forall l :: ValOf(value, l) >= 0 && ValOf(value, l) + |ClaimantsOf(pc, l)| == 1
  }

  ghost predicate Inv(n: State) { Queues(n.pc, n.value, n.queue) && Sums(n.pc, n.value) }

  lemma InitialInv(n: State)
    requires n.value == map[] && n.queue == map[] && forall p: Proc :: n.pc[p] == User
    ensures Inv(n)
  {
    forall l ensures ClaimantsOf(n.pc, l) == {} {
    }
  }

  /** One process comes to claim l, or ceases to. */
  lemma ClaimantsMove(a: Places, p: Proc, to: Pc, l: Mutex)
    ensures |ClaimantsOf(a[p := to], l)| ==
            |ClaimantsOf(a, l)| + (if l in Claims(to) then 1 else 0) - (if l in Claims(a[p]) then 1 else 0)
  {
    var b := a[p := to];
    ClaimantsElsewhere(a, b, p, l);
    CountApart(ClaimantsOf(a, l), ClaimantsOf(b, l), p);
    ClaimantClaims(a, p, l);
    ClaimantClaims(b, p, l);
  }

  lemma ClaimantClaims(a: Places, p: Proc, l: Mutex)
    ensures p in ClaimantsOf(a, l) <==> l in Claims(a[p])
  {
  }

  lemma ClaimantsElsewhere(a: Places, b: Places, p: Proc, l: Mutex)
    requires forall q: Proc :: q != p ==> b[q] == a[q]
    ensures ClaimantsOf(b, l) - {p} == ClaimantsOf(a, l) - {p}
  {
    forall q: Proc | q != p ensures q in ClaimantsOf(a, l) <==> q in ClaimantsOf(b, l) {
      ClaimantClaims(a, q, l);
      ClaimantClaims(b, q, l);
    }
  }

  lemma CountApart(a: set<Proc>, b: set<Proc>, p: Proc)
    requires a - {p} == b - {p}
    ensures |b| == |a| + (if p in b then 1 else 0) - (if p in a then 1 else 0)
  {
    Removed(a, p);
    Removed(b, p);
  }

  /** A move of p that is not blocked leaves the queues right. */
  lemma MoveQueues(n: State, p: Proc, to: Pc, value: map<Mutex, int>)
    requires Inv(n) && !n.Blocked(p)
    requires forall l :: n.Queue(l) != [] ==> ValOf(value, l) == 0
    ensures Queues(n.pc[p := to], value, n.queue)
  {
    var wanted := Wants(n.pc[p]);
    forall l ensures p !in QueueOf(n.queue, l) {
      assert p in QueueOf(n.queue, l) ==> wanted == Some(l);
    }
  }

  /** A P on a mutex that is free. */
  lemma PassKeeps(n: State, p: Proc, l: Mutex)
    requires Inv(n) && !n.Blocked(p) && Wants(n.pc[p]) == Some(l) && n.Val(l) > 0
    ensures Inv(n.(value := n.value[l := n.Val(l) - 1], pc := n.pc[p := AfterP(n.pc[p])]))
  {
    var value, to := n.value[l := n.Val(l) - 1], AfterP(n.pc[p]);
    MoveQueues(n, p, to, value);
    forall k ensures ValOf(value, k) >= 0 && ValOf(value, k) + |ClaimantsOf(n.pc[p := to], k)| == 1 {
      TakesClaim(n.pc[p], k);
      ClaimantsMove(n.pc, p, to, k);
      assert ValOf(n.value, k) >= 0 && ValOf(n.value, k) + |ClaimantsOf(n.pc, k)| == 1;
    }
  }

  /** A P on a mutex that is taken. */
  lemma WaitKeeps(n: State, p: Proc, l: Mutex)
    requires Inv(n) && !n.Blocked(p) && Wants(n.pc[p]) == Some(l) && n.Val(l) <= 0
    ensures Inv(n.(queue := n.queue[l := n.Queue(l) + [p]]))
  {
    InsertAtNoDup(n.Queue(l), |n.Queue(l)|, p);
    assert InsertAt(n.Queue(l), |n.Queue(l)|, p) == n.Queue(l) + [p];
    assert ValOf(n.value, l) == 0;
    var queue := n.queue[l := n.Queue(l) + [p]];
    forall k ensures NoDup(QueueOf(queue, k)) {
      assert NoDup(QueueOf(n.queue, k));
    }
    forall k, x: Proc | x in QueueOf(queue, k) ensures Wants(n.pc[x]) == Some(k) {
      assert x in QueueOf(n.queue, k) || x == p;
    }
  }

  /** A V for which nobody waits. */
  lemma RaiseKeeps(n: State, p: Proc, l: Mutex)
    requires Inv(n) && !n.Blocked(p) && Returns(n.pc[p]) == Some(l) && n.Queue(l) == []
    ensures Inv(n.(pc := n.pc[p := AfterV(n.pc[p])], value := n.value[l := n.Val(l) + 1]))
  {
    var value, to := n.value[l := n.Val(l) + 1], AfterV(n.pc[p]);
    MoveQueues(n, p, to, value);
    forall k ensures ValOf(value, k) >= 0 && ValOf(value, k) + |ClaimantsOf(n.pc[p := to], k)| == 1 {
      GivesClaim(n.pc[p], k);
      ClaimantsMove(n.pc, p, to, k);
      assert ValOf(n.value, k) >= 0 && ValOf(n.value, k) + |ClaimantsOf(n.pc, k)| == 1;
    }
  }

  /** A V that hands the mutex to the first waiter. */
  lemma HandOverKeeps(n: State, p: Proc, l: Mutex, w: Proc)
    requires Inv(n) && !n.Blocked(p) && Returns(n.pc[p]) == Some(l) && n.Queue(l) != [] && w == n.Queue(l)[0]
    ensures w != p && Wants(n.pc[w]) == Some(l)
    ensures Inv(n.(pc := n.pc[p := AfterV(n.pc[p])][w := AfterP(n.pc[w])], queue := n.queue[l := n.Queue(l)[1..]]))
  {
    HeadIsMember(n.Queue(l));
    HoldsAfter(n.pc[p]);
    var a := n.pc[p := AfterV(n.pc[p])];
    MoveQueues(n, p, AfterV(n.pc[p]), n.value);
    HandOverQueues(a, n.value, n.queue, l, w);
    HandOverSums(n.pc, n.value, p, w, l);
  }

  /** p gives l back and w gets it. */
  lemma HandOverSums(pc: Places, value: map<Mutex, int>, p: Proc, w: Proc, l: Mutex)
    requires Sums(pc, value) && p != w && Returns(pc[p]) == Some(l) && Wants(pc[w]) == Some(l)
    ensures Sums(pc[p := AfterV(pc[p])][w := AfterP(pc[w])], value)
  {
    forall k ensures ValOf(value, k) >= 0
      && ValOf(value, k) + |ClaimantsOf(pc[p := AfterV(pc[p])][w := AfterP(pc[w])], k)| == 1
    {
      HandOverCount(pc, p, w, l, k);
      assert ValOf(value, k) >= 0 && ValOf(value, k) + |ClaimantsOf(pc, k)| == 1;
    }
  }

  lemma HandOverCount(pc: Places, p: Proc, w: Proc, l: Mutex, k: Mutex)
    requires p != w && Returns(pc[p]) == Some(l) && Wants(pc[w]) == Some(l)
    ensures |ClaimantsOf(pc[p := AfterV(pc[p])][w := AfterP(pc[w])], k)| == |ClaimantsOf(pc, k)|
  {
    var a := pc[p := AfterV(pc[p])];
    GivesClaim(pc[p], k);
    TakesClaim(pc[w], k);
    ClaimantsMove(pc, p, AfterV(pc[p]), k);
    ClaimantsMove(a, w, AfterP(pc[w]), k);
  }

  lemma GivesClaim(pc: Pc, k: Mutex)
    requires Returns(pc).Some?
    ensures Returns(pc).value in Claims(pc) && (k in Claims(AfterV(pc)) <==> k in Claims(pc) && k != Returns(pc).value)
  {
    ClaimsAfter(pc);
  }

  lemma TakesClaim(pc: Pc, k: Mutex)
    requires Wants(pc).Some?
    ensures Wants(pc).value !in Claims(pc) && (k in Claims(AfterP(pc)) <==> k in Claims(pc) || k == Wants(pc).value)
  {
    ClaimsAfter(pc);
  }

  lemma HandOverQueues(pc: Places, value: map<Mutex, int>, queue: map<Mutex, seq<Proc>>, l: Mutex, w: Proc)
    requires Queues(pc, value, queue) && QueueOf(queue, l) != [] && w == QueueOf(queue, l)[0] && Wants(pc[w]) == Some(l)
    ensures Queues(pc[w := AfterP(pc[w])], value, queue[l := QueueOf(queue, l)[1..]])
  {
    var q := QueueOf(queue, l);
    RemoveAtMembers(q, 0);
    assert RemoveAt(q, 0) == q[1..];
    var rest := queue[l := q[1..]];
    forall k ensures NoDup(QueueOf(rest, k)) && (QueueOf(rest, k) != [] ==> ValOf(value, k) == 0) {
      assert NoDup(QueueOf(queue, k)) && (QueueOf(queue, k) != [] ==> ValOf(value, k) == 0);
    }
    forall k, x: Proc | x in QueueOf(rest, k) ensures x != w && Wants(pc[x]) == Some(k) {
      assert x in QueueOf(queue, k);
    }
  }

  lemma GoKeeps(n: State, p: Proc, to: Pc)
    requires Inv(n) && !n.Blocked(p) && Internal(n.pc[p], to)
    ensures Inv(n.(pc := n.pc[p := to]))
  {
    ClaimsAfter(n.pc[p]);
    MoveQueues(n, p, to, n.value);
    forall k ensures ValOf(n.value, k) >= 0 && ValOf(n.value, k) + |ClaimantsOf(n.pc[p := to], k)| == 1 {
      ClaimantsMove(n.pc, p, to, k);
      assert ValOf(n.value, k) >= 0 && ValOf(n.value, k) + |ClaimantsOf(n.pc, k)| == 1;
    }
  }

  lemma StepKeeps(n: State, e: Event)
    requires Inv(n) && Enabled(n, e)
    ensures Inv(Step(n, e))
  {
    match e
    case DoP(p) =>
      var l := Wants(n.pc[p]).value;
      if n.Val(l) > 0 { PassKeeps(n, p, l); } else { WaitKeeps(n, p, l); }
    case DoV(p) =>
      var l := Returns(n.pc[p]).value;
      if n.Queue(l) == [] { RaiseKeeps(n, p, l); } else { HandOverKeeps(n, p, l, n.Queue(l)[0]); }
    case Go(p, to) => GoKeeps(n, p, to);
  }

  ghost predicate Run(ss: seq<State>, es: seq<Event>) {
    && |ss| == |es| + 1
    && ss[0].value == map[] && ss[0].queue == map[] && (forall p: Proc :: ss[0].pc[p] == User)
    && forall i {:trigger es[i]} :: 0 <= i < |es| ==> Enabled(ss[i], es[i]) && ss[i + 1] == Step(ss[i], es[i])
  }

  lemma NextState(ss: seq<State>, es: seq<Event>, j: nat, i: nat)
    requires Run(ss, es) && i == j + 1 <= |es|
    ensures Enabled(ss[j], es[j]) && ss[i] == Step(ss[j], es[j])
  {
  }

  /** The invariant holds in every state of every run, deaths included. */
  lemma {:induction false} RunInv(ss: seq<State>, es: seq<Event>, i: nat)
    requires Run(ss, es) && i <= |es|
    ensures Inv(ss[i])
  {
    if i == 0 {
      InitialInv(ss[0]);
    } else {
      var j: nat := i - 1;
      RunInv(ss, es, j);
      NextState(ss, es, j, i);
      StepKeeps(ss[j], es[j]);
    }
  }

  // ---- mutual exclusion, and what death does to it ----

  lemma OneClaimant(n: State, l: Mutex, p: Proc, q: Proc)
    requires Inv(n) && l in Claims(n.pc[p]) && l in Claims(n.pc[q])
    ensures p == q && n.Val(l) == 0
  {
    var s := ClaimantsOf(n.pc, l);
    assert ValOf(n.value, l) >= 0 && ValOf(n.value, l) + |s| == 1;
    ClaimantClaims(n.pc, p, l);
    ClaimantClaims(n.pc, q, l);
    Removed(s, p);
    assert |s - {p}| == 0;
  }

  /** A mutex is whole - value + holders = 1 - exactly if nobody has died holding it; a mutex that is lost has
      value 0 and no holder. */
  lemma WholeOrLost(n: State, l: Mutex)
    requires Inv(n)
    ensures if Lost(n, l) then n.Val(l) == 0 && Holders(n, l) == {} else n.Val(l) + |Holders(n, l)| == 1
  {
    if Lost(n, l) {
      var p: Proc :| l in LostAt(n.pc[p]);
      OneClaimant(n, l, p, p);
      forall q: Proc ensures q !in Holders(n, l) {
        if l in Holds(n.pc[q]) {
          OneClaimant(n, l, p, q);
        }
      }
    } else {
      assert ValOf(n.value, l) + |ClaimantsOf(n.pc, l)| == 1;
      assert Holders(n, l) == ClaimantsOf(n.pc, l);
    }
  }

  /** The event at which a process that was terminated in a terminal system call ends, with mutex l. */
  predicate Loses(n: State, e: Event, l: Mutex) {
    e.DoV? && n.pc[e.p].InRelease? && l in OfTerminal(n.pc[e.p].back)
  }

  /** What a process has lost after one move. */
  lemma LostAfter(pc: Pc)
    ensures Wants(pc).Some? ==> LostAt(pc) == {} && LostAt(AfterP(pc)) == {}
    ensures Returns(pc).Some? ==> LostAt(pc) == {}
    ensures Returns(pc).Some? ==> LostAt(AfterV(pc)) == if pc.InRelease? then OfTerminal(pc.back) else {}
    ensures forall b :: Internal(pc, b) ==> LostAt(pc) == {} && LostAt(b) == {}
  {
  }

  /** What each process has lost after an event. */
  lemma ProcLost(n: State, e: Event, q: Proc, l: Mutex)
    requires Inv(n) && Enabled(n, e)
    ensures l in LostAt(Step(n, e).pc[q]) <==> l in LostAt(n.pc[q]) || (Loses(n, e, l) && q == e.p)
  {
    LostAfter(n.pc[e.p]);
    if e.DoV? && n.Queue(Returns(n.pc[e.p]).value) != [] {
      var w := n.Queue(Returns(n.pc[e.p]).value)[0];
      HeadIsMember(n.Queue(Returns(n.pc[e.p]).value));
      HoldsAfter(n.pc[e.p]);
      LostAfter(n.pc[w]);
    }
  }

  /** A process that has lost l does nothing any more; nobody else loses l but at such an event. */
  lemma StepLost(n: State, e: Event, l: Mutex)
    requires Inv(n) && Enabled(n, e)
    ensures Lost(Step(n, e), l) <==> Lost(n, l) || Loses(n, e, l)
  {
    var m := Step(n, e);
    forall q: Proc ensures l in LostAt(m.pc[q]) <==> l in LostAt(n.pc[q]) || (Loses(n, e, l) && q == e.p) {
      ProcLost(n, e, q, l);
    }
  }

  ghost predicate LostBy(ss: seq<State>, es: seq<Event>, i: nat, l: Mutex)
    requires |ss| == |es| + 1 && i <= |es|
  {
    exists m :: 0 <= m < i && Loses(ss[m], es[m], l)
  }

  lemma LostByNext(ss: seq<State>, es: seq<Event>, j: nat, i: nat, l: Mutex)
    requires |ss| == |es| + 1 && i == j + 1 <= |es|
    ensures LostBy(ss, es, i, l) <==> LostBy(ss, es, j, l) || Loses(ss[j], es[j], l)
  {
  }

  lemma {:induction false} RunLost(ss: seq<State>, es: seq<Event>, i: nat, l: Mutex)
    requires Run(ss, es) && i <= |es|
    ensures Lost(ss[i], l) <==> LostBy(ss, es, i, l)
  {
    if i > 0 {
      var j: nat := i - 1;
      RunLost(ss, es, j, l);
      NextLost(ss, es, j, i, l);
      LostByNext(ss, es, j, i, l);
    }
  }

  lemma NextLost(ss: seq<State>, es: seq<Event>, j: nat, i: nat, l: Mutex)
    requires Run(ss, es) && i == j + 1 <= |es|
    ensures Lost(ss[i], l) <==> Lost(ss[j], l) || Loses(ss[j], es[j], l)
  {
    NextState(ss, es, j, i);
    RunInv(ss, es, j);
    StepLost(ss[j], es[j], l);
  }

  /** The law of the mutexes over any run: value + holders = 1 exactly as long as no process that was terminated
      in a terminal system call has died with the mutex. */
  lemma WholeExact(ss: seq<State>, es: seq<Event>, i: nat, l: Mutex)
    requires Run(ss, es) && i <= |es|
    ensures ss[i].Val(l) + |Holders(ss[i], l)| == 1 <==> !LostBy(ss, es, i, l)
  {
    RunInv(ss, es, i);
    WholeOrLost(ss[i], l);
    RunLost(ss, es, i, l);
  }

  /** No flash transfer has failed during the first i events. */
  ghost predicate NoFailure(es: seq<Event>, i: nat)
    requires i <= |es|
  {
    forall m :: 0 <= m < i ==> !(es[m].Go? && es[m].to.Failed?)
  }

  /** A place where a process that is not a writer killed by a failed transfer can be. */
  predicate Unharmed(pc: Pc) {
    !pc.Failed? && ((pc.AskRelease? || pc.InRelease? || pc.Dead?) ==> pc.back != Some(Transmit))
  }

  lemma UnharmedAfter(pc: Pc)
    requires Unharmed(pc)
    ensures Wants(pc).Some? ==> Unharmed(AfterP(pc))
    ensures Returns(pc).Some? ==> Unharmed(AfterV(pc))
    ensures forall b :: Internal(pc, b) && !b.Failed? ==> Unharmed(b)
  {
  }

  lemma StepUnharmed(n: State, e: Event)
    requires Enabled(n, e) && !(e.Go? && e.to.Failed?) && forall p: Proc :: Unharmed(n.pc[p])
    ensures forall p: Proc :: Unharmed(Step(n, e).pc[p])
  {
    forall p: Proc ensures Unharmed(Step(n, e).pc[p]) {
      UnharmedAfter(n.pc[p]);
      UnharmedAfter(n.pc[e.p]);
      if Wants(n.pc[p]).Some? {
        UnharmedAfter(AfterP(n.pc[p]));
      }
    }
  }

  lemma {:induction false} RunUnharmed(ss: seq<State>, es: seq<Event>, i: nat)
    requires Run(ss, es) && i <= |es| && NoFailure(es, i)
    ensures forall p: Proc :: Unharmed(ss[i].pc[p])
  {
    if i > 0 {
      var j: nat := i - 1;
      RunUnharmed(ss, es, j);
      NextState(ss, es, j, i);
      StepUnharmed(ss[j], es[j]);
    }
  }

  /** Only a terminal's mutex is ever lost; as long as flash transfers succeed, only the reader's. */
  lemma OnlyTerminalsLost(ss: seq<State>, es: seq<Event>, i: nat, l: Mutex)
    requires Run(ss, es) && i <= |es| && Lost(ss[i], l)
    ensures l.Terminal? && (NoFailure(es, i) ==> l == Terminal(Receive))
  {
    var p: Proc :| l in LostAt(ss[i].pc[p]);
    var d := ss[i].pc[p].back.value;
    assert d == Receive || d == Transmit;
    if NoFailure(es, i) {
      RunUnharmed(ss, es, i);
      assert Unharmed(ss[i].pc[p]);
    }
  }

  /** In every state of every run nobody shares a mutex, and every mutex is whole but those of the terminal; the
      writer's is, too, as long as flash transfers succeed. */
  lemma MutualExclusion(ss: seq<State>, es: seq<Event>, i: nat, l: Mutex)
    requires Run(ss, es) && i <= |es|
    ensures forall p: Proc, q: Proc :: l in Holds(ss[i].pc[p]) && l in Holds(ss[i].pc[q]) ==> p == q
    ensures !l.Terminal? || (l.d == Transmit && NoFailure(es, i)) ==> ss[i].Val(l) + |Holders(ss[i], l)| == 1
  {
    RunInv(ss, es, i);
    WholeOrLost(ss[i], l);
    if Lost(ss[i], l) {
      OnlyTerminalsLost(ss, es, i, l);
    }
    forall p: Proc, q: Proc | l in Holds(ss[i].pc[p]) && l in Holds(ss[i].pc[q]) ensures p == q {
      OneClaimant(ss[i], l, p, q);
    }
  }

  /** The end of a process that was terminated in a terminal system call: the mutex has value 0 and no holder. */
  lemma DeathLosesMutex(n: State, p: Proc, d: Direction)
    requires Inv(n) && Enabled(n, DoV(p)) && n.pc[p] == InRelease(Some(d))
    ensures
      var m := Step(n, DoV(p));
      m.pc[p] == Dead(Some(d)) && Lost(m, Terminal(d)) && m.Val(Terminal(d)) == 0 && Holders(m, Terminal(d)) == {}
  {
    var m := Step(n, DoV(p));
    StepLost(n, DoV(p), Terminal(d));
    StepKeeps(n, DoV(p));
    WholeOrLost(m, Terminal(d));
    if n.Queue(SwapPool) != [] {
      HeadIsMember(n.Queue(SwapPool));
    }
  }

  /** A process on its way out of a terminal system call: a transfer has failed, or a store has been trapped. */
  predicate Doomed(pc: Pc, d: Direction) {
    (pc.Failed? || pc.AskRelease? || pc.InRelease? || pc.Dead?) && pc.back == Some(d)
  }

  lemma DoomedAfter(pc: Pc, d: Direction)
    requires Doomed(pc, d)
    ensures Wants(pc).Some? ==> Doomed(AfterP(pc), d)
    ensures Returns(pc).Some? ==> Doomed(AfterV(pc), d)
    ensures forall b :: !Internal(pc, b)
    ensures Terminal(d) in Claims(pc)
  {
  }

  lemma StepDoomed(n: State, e: Event, p: Proc, d: Direction)
    requires Enabled(n, e) && Doomed(n.pc[p], d)
    ensures Doomed(Step(n, e).pc[p], d)
  {
    DoomedAfter(n.pc[p], d);
    if Returns(n.pc[p]).Some? {
      DoomedAfter(AfterV(n.pc[p]), d);
    }
  }

  /** From the moment a process is on its way out of a terminal system call, nobody else ever gets that terminal's
      mutex. */
  lemma {:induction false} NeverReturned(ss: seq<State>, es: seq<Event>, i: nat, j: nat, p: Proc, d: Direction)
    requires Run(ss, es) && i <= j <= |es| && Doomed(ss[i].pc[p], d)
    ensures Doomed(ss[j].pc[p], d) && ss[j].Val(Terminal(d)) == 0
    ensures forall q: Proc :: q != p ==> Terminal(d) !in Holds(ss[j].pc[q])
    decreases j
  {
    if i < j {
      var h: nat := j - 1;
      NeverReturned(ss, es, i, h, p, d);
      NextState(ss, es, h, j);
      StepDoomed(ss[h], es[h], p, d);
    }
    RunInv(ss, es, j);
    DoomedAfter(ss[j].pc[p], d);
    OneClaimant(ss[j], Terminal(d), p, p);
    forall q: Proc | q != p ensures Terminal(d) !in Holds(ss[j].pc[q]) {
      if Terminal(d) in Holds(ss[j].pc[q]) {
        OneClaimant(ss[j], Terminal(d), p, q);
      }
    }
  }

  /** A queue for a lost mutex only grows. */
  lemma LostQueueStays(n: State, e: Event, l: Mutex, p: Proc)
    requires Inv(n) && Enabled(n, e) && Lost(n, l) && p in n.Queue(l)
    ensures p in Step(n, e).Queue(l)
  {
    WholeOrLost(n, l);
    HoldsAfter(n.pc[e.p]);
    assert l in Holds(n.pc[e.p]) <==> e.p in Holders(n, l);
  }

  lemma LostAnswer(n: State, p: Proc, l: Mutex)
    requires Inv(n) && Lost(n, l) && Enabled(n, DoP(p)) && Wants(n.pc[p]) == Some(l)
    ensures p in Step(n, DoP(p)).Queue(l)
  {
    WholeOrLost(n, l);
  }

  lemma {:induction false} QueuedForEver(ss: seq<State>, es: seq<Event>, i: nat, j: nat, l: Mutex, p: Proc)
    requires Run(ss, es) && i <= j <= |es| && Lost(ss[i], l) && p in ss[i].Queue(l)
    ensures Lost(ss[j], l) && p in ss[j].Queue(l)
    decreases j
  {
    if i < j {
      var h: nat := j - 1;
      QueuedForEver(ss, es, i, h, l, p);
      NextState(ss, es, h, j);
      RunInv(ss, es, h);
      StepLost(ss[h], es[h], l);
      LostQueueStays(ss[h], es[h], l, p);
    }
  }

  /** Whoever asks for a lost mutex is blocked for the rest of the run. */
  lemma BlockedForEver(ss: seq<State>, es: seq<Event>, i: nat, j: nat, l: Mutex, p: Proc)
    requires Run(ss, es) && i < j <= |es| && Lost(ss[i], l) && es[i] == DoP(p) && Wants(ss[i].pc[p]) == Some(l)
    ensures ss[j].Blocked(p)
  {
    var h := i + 1;
    NextState(ss, es, i, h);
    RunInv(ss, es, i);
    StepLost(ss[i], es[i], l);
    LostAnswer(ss[i], p, l);
    QueuedForEver(ss, es, h, j, l, p);
    RunInv(ss, es, j);
    assert p in QueueOf(ss[j].queue, l);
  }

  /** The run of a process that reads into a page with D off: after five events the reader's mutex is lost. */
  lemma LosingRun(p: Proc, pc: Places) returns (ss: seq<State>, es: seq<Event>)
    requires forall q: Proc :: pc[q] == User
    ensures Run(ss, es) && |es| == 5 && ss[0].pc == pc && ss[2].pc[p] == InTerminal(Receive)
    ensures Lost(ss[5], Terminal(Receive)) && ss[5].Val(Terminal(Receive)) == 0
  {
    var a := State(pc, map[], map[]);
    es := [Go(p, AskTerminal(Receive)), DoP(p), Go(p, AskRelease(Some(Receive))), DoP(p), DoV(p)];
    var b := Step(a, es[0]);
    var c := Step(b, es[1]);
    var d := Step(c, es[2]);
    var e := Step(d, es[3]);
    var f := Step(e, es[4]);
    ss := [a, b, c, d, e, f];
    assert Terminal(Receive) in LostAt(f.pc[p]);
  }

  // ---- first come, first served ----

  /** What an event does to the queue of l: one more at its end, the first one gone, or nothing. */
  lemma StepQueue(n: State, e: Event, l: Mutex)
    requires Enabled(n, e)
    ensures
      var q, r := n.Queue(l), Step(n, e).Queue(l);
      r == q || (e.DoP? && r == q + [e.p]) || (e.DoV? && q != [] && r == q[1..])
  {
  }

  /** Nobody overtakes in the queue of a mutex. */
  lemma StepFair(n: State, e: Event, l: Mutex, x: Proc, y: Proc)
    requires Inv(n) && Enabled(n, e) && Before(n.Queue(l), x, y) && x in Step(n, e).Queue(l)
    ensures Before(Step(n, e).Queue(l), x, y)
  {
    var q, r := n.Queue(l), Step(n, e).Queue(l);
    StepQueue(n, e, l);
    assert NoDup(QueueOf(n.queue, l));
    var i, j :| 0 <= i < j < |q| && q[i] == x && q[j] == y;
    if r == q + [e.p] {
      assert r[i] == x && r[j] == y;
    } else if r != q {
      var k :| 0 <= k < |r| && r[k] == x;
      assert q[k + 1] == x && r[j - 1] == y;
    }
  }

  /** Over any run: if x is ahead of y in the queue of a mutex and has been waiting ever since, y is still behind. */
  lemma {:induction false} FirstComeFirstServed(
      ss: seq<State>, es: seq<Event>, i: nat, j: nat, l: Mutex, x: Proc, y: Proc)
    requires Run(ss, es) && i <= j <= |es| && Before(ss[i].Queue(l), x, y)
    requires forall m :: i <= m <= j ==> x in ss[m].Queue(l)
    ensures Before(ss[j].Queue(l), x, y)
    decreases j
  {
    if i < j {
      var h: nat := j - 1;
      FirstComeFirstServed(ss, es, i, h, l, x, y);
      NextState(ss, es, h, j);
      RunInv(ss, es, h);
      assert x in ss[j].Queue(l);
      StepFair(ss[h], es[h], l, x, y);
    }
  }

  // ---- no circular wait ----

  /** p is blocked on a mutex that q holds. */
  ghost predicate WaitsFor(n: State, p: Proc, q: Proc) {
    n.Blocked(p) && Wants(n.pc[p]).value in Holds(n.pc[q])
  }

  ghost predicate Chain(n: State, ps: seq<Proc>) {
    forall i :: 0 <= i < |ps| - 1 ==> WaitsFor(n, ps[i], ps[i + 1])
  }

  /** Along a chain of processes waiting for each other the rank of what they wait for goes up. */
  lemma {:induction false} RanksRise(n: State, ps: seq<Proc>, i: nat, j: nat)
    requires Chain(n, ps) && i < j < |ps| - 1
    ensures Wants(n.pc[ps[i]]).Some? && Wants(n.pc[ps[j]]).Some?
    ensures Rank(Wants(n.pc[ps[i]]).value) < Rank(Wants(n.pc[ps[j]]).value)
    decreases j
  {
    assert WaitsFor(n, ps[j - 1], ps[j]) && WaitsFor(n, ps[j], ps[j + 1]);
    AskedAbove(n.pc[ps[j]], Wants(n.pc[ps[j - 1]]).value);
    if i < j - 1 {
      RanksRise(n, ps, i, j - 1);
    }
  }

  lemma NotTwice(n: State, ps: seq<Proc>, i: nat, j: nat)
    requires Chain(n, ps) && i < j < |ps|
    ensures ps[i] != ps[j]
  {
    assert WaitsFor(n, ps[j - 1], ps[j]) && WaitsFor(n, ps[i], ps[i + 1]);
    if ps[i] == ps[j] {
      AskedAbove(n.pc[ps[i]], Wants(n.pc[ps[j - 1]]).value);
      if i < j - 1 {
        RanksRise(n, ps, i, j - 1);
      }
    }
  }

  lemma {:induction false} RankAtLeast(n: State, ps: seq<Proc>, i: nat)
    requires Chain(n, ps) && i < |ps| - 1
    ensures Wants(n.pc[ps[i]]).Some? && Rank(Wants(n.pc[ps[i]]).value) >= i
  {
    assert WaitsFor(n, ps[i], ps[i + 1]);
    if i > 0 {
      RankAtLeast(n, ps, i - 1);
      RanksRise(n, ps, i - 1, i);
    }
  }

  /** There is no circular wait: a chain of processes waiting for each other never comes back to a process
      that is already in it, and it has at most five processes. */
  lemma NoCircularWait(n: State, ps: seq<Proc>)
    requires Inv(n) && Chain(n, ps)
    ensures |ps| <= 5 && NoDup(ps)
  {
    forall i, j | 0 <= i < j < |ps| ensures ps[i] != ps[j] {
      NotTwice(n, ps, i, j);
    }
    if |ps| > 1 {
      RankAtLeast(n, ps, |ps| - 2);
    }
  }

  /** Whoever is blocked waits, in the end, for a process that holds a mutex and is not blocked, or for a mutex
      that is lost. */
  lemma {:induction false} SomebodyCanGo(n: State, p: Proc) returns (q: Proc)
    requires Inv(n) && n.Blocked(p)
    ensures if n.Blocked(q) then Lost(n, Wants(n.pc[q]).value) else Holds(n.pc[q]) != {}
    ensures (forall l :: !Lost(n, l)) ==> !n.Blocked(q)
    decreases 4 - Rank(Wants(n.pc[p]).value)
  {
    var l := Wants(n.pc[p]).value;
    assert n.Val(l) == 0;
    if Lost(n, l) {
      q := p;
    } else {
      WholeOrLost(n, l);
      q :| q in Holders(n, l);
      if n.Blocked(q) {
        AskedAbove(n.pc[q], l);
        q := SomebodyCanGo(n, q);
      }
    }
  }
}
