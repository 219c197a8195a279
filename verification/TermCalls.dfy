/** The terminal system calls, the pager, termination and the creation of support structures as they use the
    mutexes: each method of phase3 walks through the places of Locks.dfy. All come back with every mutex
    released, except for a terminal system call whose process is terminated at a page fault or a store; when that
    is, is stated exactly. */
module TermCalls {
  import opened Lists
  import opened PageNumbers
  import Paging
  import opened Locks

  const OKCHARTRANS := 5
  const RECVD := 5
  const NEWLINE := 10
  const PRINTCHR := 2

  /** One step of a process between two places: an internal move, a P or a V. */
  predicate Move(a: Pc, b: Pc) {
    || Internal(a, b)
    || (Wants(a).Some? && b == AfterP(a))
    || (Returns(a).Some? && b == AfterV(a))
  }

  ghost predicate Walk(path: seq<Pc>) {
    path != [] && forall i :: 0 <= i < |path| - 1 ==> Move(path[i], path[i + 1])
  }

  function Last(path: seq<Pc>): Pc
    requires path != []
  {
    path[|path| - 1]
  }

  lemma WalkOn(a: seq<Pc>, b: seq<Pc>)
    requires Walk(a) && Walk(b) && Move(Last(a), b[0])
    ensures Walk(a + b) && Last(a + b) == Last(b) && (a + b)[0] == a[0]
  {
    var s := a + b;
    forall i | 0 <= i < |s| - 1 ensures Move(s[i], s[i + 1]) {
      if i >= |a| {
        assert s[i] == b[i - |a|] && s[i + 1] == b[i - |a| + 1];
      }
    }
  }

  /** The mutexes held at each place of a walk. */
  function HeldAlong(path: seq<Pc>): (r: seq<set<Mutex>>)
    ensures |r| == |path| && forall i :: 0 <= i < |r| ==> r[i] == Holds(path[i])
  {
    seq(|path|, i requires 0 <= i < |path| => Holds(path[i]))
  }

  /** A page fault: the flash device the victim is written to, if it is, and the one the page comes from; whether
      these transfers succeed. */
  datatype Fault = Fault(victim: Option<nat>, own: nat, written: bool, read: bool) {
    predicate Reads() { victim.Some? ==> written }
    predicate Succeeds() { Reads() && read }
  }

  /** A walk of the pager holds the terminal's mutex throughout, if it has interrupted a terminal call. */
  ghost predicate PagerPath(back: Option<Direction>, fault: Fault, path: seq<Pc>) {
    && Walk(path) && path[0] == AskSwap(back)
    && (forall pc :: pc in path ==> OfTerminal(back) <= Holds(pc))
    && (forall dev: nat :: InOwn(back, dev) in path <==> fault.Reads() && dev == fault.own)
  }

  /** A walk of the pager: the flash devices it takes are those of the fault, one after the other, within the mutex of
      the swap pool and, if it has interrupted a terminal call, that of the terminal. */
  ghost predicate PagerWalk(back: Option<Direction>, fault: Fault, path: seq<Pc>) {
    && PagerPath(back, fault, path)
    && var t := OfTerminal(back);
       HeldAlong(path) == [t, t + {SwapPool}] + (if fault.victim.Some? then Around(t, fault.victim.value) else [])
                          + (if fault.Reads() then Around(t, fault.own) else [])
                          + (if fault.Succeeds() then [] else [t + {SwapPool}])
  }

  /** The mutex of a flash device is taken and given back. */
  function Around(t: set<Mutex>, dev: nat): seq<set<Mutex>> {
    [t + {SwapPool}, t + {SwapPool, FlashDev(dev)}, t + {SwapPool}]
  }

  /** TLBPagerHandler, from its first P to its last V: then the process goes on, or if a transfer has failed it is
      terminated. */
  method Pager(back: Option<Direction>, fault: Fault) returns (path: seq<Pc>)
    ensures PagerWalk(back, fault, path)
    ensures Last(path) == if fault.Succeeds() then Publishing(back) else Failed(back)
    ensures Move(Last(path), if fault.Succeeds() then Resumed(back) else AskRelease(back))
  {
    path := [AskSwap(back), InSwap(back)];
    if fault.victim.Some? {
      path := path + [AskVictim(back, fault.victim.value), InVictim(back, fault.victim.value), Cleaned(back)];
      if !fault.written {
        path := path + [Failed(back)];
        NotWritten(back, fault, path);
        PagerHolds(back, fault, path);
        return;
      }
    }
    path := path + [AskOwn(back, fault.own), InOwn(back, fault.own), Publishing(back)];
    if !fault.read {
      path := path + [Failed(back)];
    }
    if fault.victim.Some? {
      Evicting(back, fault, path);
    } else {
      Loading(back, fault, path);
    }
    PagerHolds(back, fault, path);
  }

  lemma HeldTwo(a: Pc, b: Pc)
    ensures HeldAlong([a, b]) == [Holds(a), Holds(b)]
  {
  }

  lemma HeldJoin(a: seq<Pc>, b: seq<Pc>, c: seq<Pc>, d: seq<Pc>)
    ensures HeldAlong(a + b + c + d) == HeldAlong(a) + HeldAlong(b) + HeldAlong(c) + HeldAlong(d)
  {
  }

  function Evict(back: Option<Direction>, dev: nat): seq<Pc> {
    [AskVictim(back, dev), InVictim(back, dev), Cleaned(back)]
  }

  function Bring(back: Option<Direction>, dev: nat): seq<Pc> {
    [AskOwn(back, dev), InOwn(back, dev), Publishing(back)]
  }

  lemma HeldAround(back: Option<Direction>, dev: nat)
    ensures HeldAlong(Evict(back, dev)) == Around(OfTerminal(back), dev)
    ensures HeldAlong(Bring(back, dev)) == Around(OfTerminal(back), dev)
  {
  }

  lemma HeldNone()
    ensures HeldAlong([]) == []
  {
  }

  lemma PagerHolds(back: Option<Direction>, fault: Fault, path: seq<Pc>)
    requires path == [AskSwap(back), InSwap(back)]
                     + (if fault.victim.Some? then Evict(back, fault.victim.value) else [])
                     + (if fault.Reads() then Bring(back, fault.own) else [])
                     + (if fault.Succeeds() then [] else [Failed(back)])
    ensures
      var t := OfTerminal(back);
      HeldAlong(path) == [t, t + {SwapPool}] + (if fault.victim.Some? then Around(t, fault.victim.value) else [])
                         + (if fault.Reads() then Around(t, fault.own) else [])
                         + (if fault.Succeeds() then [] else [t + {SwapPool}])
  {
    var b := if fault.victim.Some? then Evict(back, fault.victim.value) else [];
    var c := if fault.Reads() then Bring(back, fault.own) else [];
    var d := if fault.Succeeds() then [] else [Failed(back)];
    HeldJoin([AskSwap(back), InSwap(back)], b, c, d);
    HeldTwo(AskSwap(back), InSwap(back));
    HeldNone();
    if fault.victim.Some? {
      HeldAround(back, fault.victim.value);
    }
    HeldAround(back, fault.own);
    assert HeldAlong(d) == if fault.Succeeds() then [] else [OfTerminal(back) + {SwapPool}];
  }

  lemma NotWritten(back: Option<Direction>, fault: Fault, path: seq<Pc>)
    requires fault.victim.Some? && !fault.written
    requires path == [AskSwap(back), InSwap(back), AskVictim(back, fault.victim.value),
                      InVictim(back, fault.victim.value), Cleaned(back), Failed(back)]
    ensures PagerPath(back, fault, path)
  {
  }

  lemma Loading(back: Option<Direction>, fault: Fault, path: seq<Pc>)
    requires fault.victim.None?
    requires path == [AskSwap(back), InSwap(back), AskOwn(back, fault.own), InOwn(back, fault.own), Publishing(back)]
                     + (if fault.read then [] else [Failed(back)])
    ensures PagerPath(back, fault, path)
  {
    assert path[3] == InOwn(back, fault.own);
  }

  lemma Evicting(back: Option<Direction>, fault: Fault, path: seq<Pc>)
    requires fault.victim.Some? && fault.written
    requires path == [AskSwap(back), InSwap(back), AskVictim(back, fault.victim.value),
                      InVictim(back, fault.victim.value), Cleaned(back),
                      AskOwn(back, fault.own), InOwn(back, fault.own), Publishing(back)]
                     + (if fault.read then [] else [Failed(back)])
    ensures PagerPath(back, fault, path)
  {
    assert path[6] == InOwn(back, fault.own);
  }

  /** A load, or a store to a page whose D bit is dirty. */
  datatype Use = Load | Store(dirty: bool)

  predicate AllSucceed(faults: seq<Fault>) { forall i :: 0 <= i < |faults| ==> faults[i].Succeeds() }

  /** An access to user memory in a terminal system call, with the page faults it takes until its page is in
      memory. A failed transfer ends the process; otherwise a store raises a TLB-Modification exception, which
      ends it too, exactly if D is off. */
  method Access(d: Direction, use: Use, faults: seq<Fault>) returns (path: seq<Pc>, trapped: bool)
    ensures Walk(path) && path[0] == InTerminal(d) && Within(path, d)
    ensures trapped <==> !AllSucceed(faults) || use == Store(false)
    ensures Last(path) == if AllSucceed(faults) then InTerminal(d) else Failed(Some(d))
    ensures AllSucceed(faults) ==> forall i :: 0 <= i < |faults| ==> InOwn(Some(d), faults[i].own) in path
  {
    path := [InTerminal(d)];
    for i := 0 to |faults|
      invariant Walk(path) && path[0] == InTerminal(d) && Last(path) == InTerminal(d) && Within(path, d)
      invariant forall j :: 0 <= j < i ==> faults[j].Succeeds() && InOwn(Some(d), faults[j].own) in path
    {
      var fault := Pager(Some(d), faults[i]);
      WalkOn(path, fault);
      path := path + fault;
      if !faults[i].Succeeds() {
        return path, true;
      }
      WalkOn(path, [InTerminal(d)]);
      path := path + [InTerminal(d)];
    }
    trapped := use == Store(false);
  }

  /** The terminal's mutex is held all the way. */
  ghost predicate Within(path: seq<Pc>, d: Direction) {
    forall pc :: pc in path ==> Terminal(d) in Holds(pc)
  }

  /** A system call on terminal mutex d: asked for once, held until the end, nothing held afterwards. */
  ghost predicate TerminalCall(path: seq<Pc>, d: Direction) {
    && |path| >= 4 && Walk(path) && path[0] == User && path[1] == AskTerminal(d) && Last(path) == User
    && Within(path[2..|path| - 1], d)
  }

  /** The walk a to InTerminal(d), then an access. */
  lemma WalkThrough(a: seq<Pc>, b: seq<Pc>)
    requires Walk(a) && Walk(b) && Last(a) == b[0]
    ensures Walk(a + b[1..]) && Last(a + b[1..]) == Last(b) && (a + b[1..])[0] == a[0]
  {
    var s := a + b[1..];
    forall i | 0 <= i < |s| - 1 ensures Move(s[i], s[i + 1]) {
      if i >= |a| - 1 {
        assert s[i] == b[i - |a| + 1] && s[i + 1] == b[i - |a| + 2];
      }
    }
  }

  /** A system call under way in its loop. */
  ghost predicate Ongoing(path: seq<Pc>, d: Direction) {
    && |path| >= 3 && Walk(path) && path[0] == User && path[1] == AskTerminal(d)
    && Last(path) == InTerminal(d) && Within(path[2..], d)
  }

  /** A system call in whose loop the process has been terminated. */
  ghost predicate CallTrapped(path: seq<Pc>, d: Direction) {
    && |path| >= 6 && Walk(path) && path[0] == User && path[1] == AskTerminal(d) && Within(path[2..|path| - 1], d)
    && path[|path| - 3..] == [AskRelease(Some(d)), InRelease(Some(d)), Dead(Some(d))]
  }

  lemma GoOn(path: seq<Pc>, access: seq<Pc>, d: Direction)
    requires Ongoing(path, d) && Walk(access) && access[0] == InTerminal(d) == Last(access) && Within(access, d)
    ensures Ongoing(path + access[1..], d)
  {
    WalkThrough(path, access);
    assert (path + access[1..])[2..] == path[2..] + access[1..];
  }

  lemma ComeBack(path: seq<Pc>, d: Direction)
    requires Ongoing(path, d)
    ensures TerminalCall(path + [User], d)
  {
    WalkOn(path, [User]);
    assert (path + [User])[2..|path|] == path[2..];
  }

  /** The access at which the process is terminated, and its end. */
  lemma Trap(path: seq<Pc>, access: seq<Pc>, end: seq<Pc>, d: Direction)
    requires Ongoing(path, d) && Walk(access) && access[0] == InTerminal(d) && Within(access, d)
    requires Walk(end) && end == [AskRelease(Some(d)), InRelease(Some(d)), Dead(Some(d))] && Move(Last(access), end[0])
    ensures CallTrapped(path + access[1..] + end, d) && Claims(Last(path + access[1..] + end)) == {Terminal(d)}
  {
    WalkThrough(path, access);
    WalkOn(path + access[1..], end);
    var whole := path + access[1..] + end;
    assert whole[2..|whole| - 1] == path[2..] + access[1..] + end[..2];
    assert Last(whole) == Dead(Some(d));
  }

  /** terminate, called from user code or from the loop of a terminal system call: releaseFrames takes and gives
      back its one mutex, then the process ends. It gives back nothing else. */
  method Terminate(back: Option<Direction>) returns (path: seq<Pc>)
    ensures path == [AskRelease(back), InRelease(back), Dead(back)] && Walk(path)
  {
    path := [AskRelease(back), InRelease(back)];
    path := path + [Dead(back)];
  }

  /** An access in the loop of a terminal system call: the call goes on, or the process is terminated there. */
  method AccessInCall(soFar: seq<Pc>, d: Direction, use: Use, faults: seq<Fault>) returns (path: seq<Pc>, trapped: bool)
    requires Ongoing(soFar, d) && (use == Store(false) ==> d == Receive)
    ensures trapped <==> !AllSucceed(faults) || use == Store(false)
    ensures if trapped then CallTrapped(path, d) && Claims(Last(path)) == {Terminal(d)} else Ongoing(path, d)
  {
    var access;
    access, trapped := Access(d, use, faults);
    if trapped {
      var end := Terminate(Some(d));
      Trap(soFar, access, end, d);
      path := soFar + access[1..] + end;
    } else {
      GoOn(soFar, access, d);
      path := soFar + access[1..];
    }
  }

  /** initSupportStructure. */
  method InitSupportStructure(dev: nat) returns (path: seq<Pc>)
    ensures Walk(path) && path[0] == AskFlash(dev) && Move(Last(path), User)
    ensures HeldAlong(path) == [{}, {FlashDev(dev)}, {FlashDev(dev), HeaderBuffer}, {FlashDev(dev)}]
  {
    path := [AskFlash(dev), AskHeader(dev), InHeader(dev), InFlash(dev)];
  }

  /** The number of leading characters that the terminal accepted. */
  function Accepted(status: seq<int>): (n: nat)
    ensures n <= |status| && (n < |status| ==> status[n] % 0x100 != OKCHARTRANS)
    ensures forall i :: 0 <= i < n ==> status[i] % 0x100 == OKCHARTRANS
  {
    if status == [] || status[0] % 0x100 != OKCHARTRANS then 0
    else
      assert forall i :: 1 <= i < |status| ==> status[i] == status[1..][i - 1];
      1 + Accepted(status[1..])
  }

  lemma AcceptedExact(status: seq<int>)
    ensures (forall i :: 0 <= i < |status| ==> status[i] % 0x100 == 5) ==> Accepted(status) == |status|
    ensures forall i :: 0 <= i < |status| && status[i] % 0x100 != 5 ==>
              (forall j :: 0 <= j < i ==> status[j] % 0x100 == 5) ==> Accepted(status) == i
  {
  }

  predicate IsValidAddress(addr: nat) {
    0x80000000 <= addr < 0x8001E000 || 0xBFFFF000 <= addr < 0xC0000000
  }

  predicate IsValidArea(start: nat, end: nat) {
    (start >= 0x80000000 && end < 0x8001E000) || (start >= 0xBFFFF000 && end < 0xC0000000)
  }

  /** How a system call ends: it returns, or terminates the process because of a bad address, or the process is
      terminated at an access to its memory. */
  datatype Outcome = Returned(a0: int) | Terminated | Trapped

  /** The test of a buffer of len characters at addr. */
  predicate IsValidBuffer(addr: nat, len: nat)
    requires len > 0
  {
    IsValidAddress(addr) && IsValidAddress(addr + len - 1) && IsValidArea(addr, addr + len - 1)
  }

  /** The test accepts a buffer exactly if it is not empty of valid addresses anywhere. */
  lemma ValidBufferExact(addr: nat, len: nat)
    requires len > 0
    ensures IsValidBuffer(addr, len) <==> forall a: nat :: addr <= a < addr + len ==> IsValidAddress(a)
  {
    assert !IsValidAddress(0x8001E000);
    if forall a: nat :: addr <= a < addr + len ==> IsValidAddress(a) {
      assert IsValidAddress(addr) && IsValidAddress(addr + len - 1);
    }
  }

  /** The valid addresses are those of the pages that have a page table entry, but for entry 30. */
  lemma ValidAddressExact(addr: nat)
    ensures IsValidAddress(addr) <==> exists i: PageIdx :: i != 30 && VpnOf(i) == addr / PAGESIZE
  {
    if IsValidAddress(addr) {
      var i := EntryFor(addr / PAGESIZE).value;
      assert VpnOf(i) == addr / PAGESIZE;
    }
  }

  /** Every character that is fetched can be: all up to the first that the terminal rejects. */
  ghost predicate Fetches(faults: seq<seq<Fault>>, status: seq<int>) {
    forall i :: 0 <= i < |faults| && i <= Accepted(status) ==> AllSucceed(faults[i])
  }

  /** writeTerminal for len characters at addr, where text is: fetching character i takes the page faults
      faults[i], the terminal is given commands[i], and status[i] is what doIO returns for it. The call returns len if
      the terminal accepts all characters and else minus the first status that reports an error; it does so, with
      the mutex given back, exactly if every character it fetches can be. (The interrupt handler never passes an
      error status on to a transmitter, so in fact the call returns len or never.) */
  method WriteTerminal(addr: nat, len: int, text: seq<nat>, faults: seq<seq<Fault>>, status: seq<int>)
    returns (r: Outcome, commands: seq<nat>, path: seq<Pc>)
    requires len >= 0 ==> |text| == |faults| == |status| == len
    ensures r == Terminated <==> len < 0 || len > 128 || (len > 0 && !IsValidBuffer(addr, len))
    ensures r != Terminated ==> (r == Trapped <==> !Fetches(faults, status))
    ensures r.Returned? && (forall i :: 0 <= i < len ==> status[i] % 0x100 == 5) ==> r.a0 == len
    ensures forall i :: r.Returned? && 0 <= i < len && status[i] % 0x100 != 5 ==>
              (forall j :: 0 <= j < i ==> status[j] % 0x100 == 5) ==> r.a0 == -status[i]
    ensures forall i :: 0 <= i < |commands| ==> i < |text| && commands[i] == text[i] * 0x100 + 2
    ensures r.Returned? ==> |commands| == if Accepted(status) == len then len else Accepted(status) + 1
    ensures match r
            case Terminated => path == [User, AskRelease(None), InRelease(None), Dead(None)] && commands == []
            case Returned(_) => if len == 0 then path == [User] else TerminalCall(path, Transmit)
            case Trapped => CallTrapped(path, Transmit)
    ensures Claims(Last(path)) == {} <==> r != Trapped
  {
    if len < 0 || len > 128 {
      var end := Terminate(None);
      return Terminated, [], [User] + end;
    }
    if len == 0 {
      return Returned(0), [], [User];
    }
    if !IsValidBuffer(addr, len) {
      var end := Terminate(None);
      return Terminated, [], [User] + end;
    }
    r, commands, path := WriteLoop(len, text, faults, status, Accepted(status));
    AcceptedExact(status);
  }

  /** The loop of writeTerminal; good is the number of leading characters that the terminal accepts. */
  method WriteLoop(len: nat, text: seq<nat>, faults: seq<seq<Fault>>, status: seq<int>, ghost good: nat)
    returns (r: Outcome, commands: seq<nat>, path: seq<Pc>)
    requires |text| == |faults| == |status| == len > 0 && good <= len
    requires forall i :: 0 <= i < good ==> status[i] % 0x100 == 5
    requires good < len ==> status[good] % 0x100 != 5
    ensures if forall i :: 0 <= i < len && i <= good ==> AllSucceed(faults[i])
            then TerminalCall(path, Transmit) && r == Returned(if good == len then len else -status[good])
            else CallTrapped(path, Transmit) && r == Trapped
    ensures forall i :: 0 <= i < |commands| ==> i < len && commands[i] == text[i] * 0x100 + 2
    ensures r.Returned? ==> |commands| == if good == len then len else good + 1
    ensures Claims(Last(path)) == {} <==> r != Trapped
  {
    path, commands := [User, AskTerminal(Transmit), InTerminal(Transmit)], [];
    for i := 0 to len
      invariant Ongoing(path, Transmit) && |commands| == i <= good
      invariant forall j :: 0 <= j < i ==> AllSucceed(faults[j])
      invariant forall j :: 0 <= j < i ==> commands[j] == text[j] * 0x100 + 2
    {
      var trapped;
      path, trapped := AccessInCall(path, Transmit, Load, faults[i]);
      if trapped {
        return Trapped, commands, path;
      }
      commands := commands + [text[i] * 0x100 + PRINTCHR];
      if status[i] % 0x100 != OKCHARTRANS {
        ComeBack(path, Transmit);
        return Returned(-status[i]), commands, path + [User];
      }
    }
    ComeBack(path, Transmit);
    return Returned(len), commands, path + [User];
  }

  // ---- readTerminal ----

  /** D is on in the entry, as initPageTable leaves it, of the page that addr lies in; it stays so for as long as the
      process lives (TextPages.DirtyExact). */
  predicate Writable(textPages: nat, addr: nat)
    requires IsValidAddress(addr)
  {
    Paging.InitialTable(1, textPages)[EntryFor(addr / PAGESIZE).value].d
  }

  /** In other words: the page is the stack page, or its index is not below textPages. */
  lemma WritableExact(textPages: nat, addr: nat)
    requires IsValidAddress(addr)
    ensures Writable(textPages, addr) <==> addr >= 0xBFFFF000 || (addr - 0x80000000) / PAGESIZE >= textPages
  {
  }

  /** What happens to a character: the status with which the terminal answers the request for it, and the page
      faults on the way to its place in the buffer. */
  datatype Input = Input(status: int, faults: seq<Fault>)

  /** A readTerminal into a buffer at addr, by a process with textPages read-only pages. */
  datatype Request = Request(addr: nat, textPages: nat, input: seq<Input>) {
    predicate InBuffer(i: nat) { IsValidAddress(addr + i) && IsValidArea(addr, addr + i) }

    predicate Received(i: nat)
      requires i < |input|
    {
      input[i].status % 0x100 == RECVD
    }

    function Char(i: nat): nat
      requires i < |input|
    {
      input[i].status / 0x100 % 0x100
    }

    /** Character i can be stored: the page faults on the way succeed, and D is on. */
    predicate Storable(i: nat)
      requires i < |input| && IsValidAddress(addr + i)
    {
      AllSucceed(input[i].faults) && Writable(textPages, addr + i)
    }
  }

  /** The test of character i accepts its place exactly if all the buffer up to it is valid. */
  lemma InBufferExact(q: Request, i: nat)
    ensures q.InBuffer(i) <==> forall a: nat :: q.addr <= a <= q.addr + i ==> IsValidAddress(a)
  {
    ValidBufferExact(q.addr, i + 1);
  }

  /** Character i of the line is received and its place in the buffer is valid. */
  ghost predicate Accepts(q: Request, i: nat) {
    && i < |q.input| && q.InBuffer(i) && q.Received(i)
    && forall j :: 0 <= j < i ==> q.InBuffer(j) && q.Received(j) && q.Char(j) != NEWLINE
  }

  /** The input reaches as far as the call reads it if it is not terminated at a store. */
  ghost predicate Ends(q: Request) {
    exists i :: 0 <= i <= |q.input| &&
      (!q.InBuffer(i) || (i < |q.input| && (!q.Received(i) || q.Char(i) == NEWLINE)))
  }

  /** What is known after n characters have been received and stored. */
  ghost predicate Stored(q: Request, line: seq<nat>) {
    && |line| <= |q.input|
    && forall i {:trigger line[i]} {:trigger q.Char(i)} :: 0 <= i < |line| ==>
         q.InBuffer(i) && q.Received(i) && line[i] == q.Char(i) && q.Storable(i)
  }

  /** No newline yet. */
  ghost predicate GoesOn(line: seq<nat>) { forall i :: 0 <= i < |line| ==> line[i] != NEWLINE }

  /** The place of a process at the end of a readTerminal, and the walk that leads there. */
  ghost predicate ReadPath(r: Outcome, started: bool, path: seq<Pc>) {
    && Walk(path) && path[0] == User
    && match r
       case Returned(_) => TerminalCall(path, Receive)
       case Terminated =>
         && |path| >= 4 && path[|path| - 3..] == [AskRelease(None), InRelease(None), Dead(None)]
         && (if started then TerminalCall(path[..|path| - 3], Receive) else |path| == 4)
       case Trapped => CallTrapped(path, Receive)
  }

  /** Every character that is accepted can be stored: no page fault on the way fails, and no character falls on a
      page with D off. */
  ghost predicate Spares(q: Request) {
    forall i: nat :: Accepts(q, i) ==> q.Storable(i)
  }

  /** What each outcome says. Returned: the line ends with its first newline and a0 is its length, or a0 is minus
      the first status that reports an error. Terminated: the place of the next character is not valid. Trapped:
      the next character is accepted, but cannot be stored. */
  ghost predicate ReadResult(q: Request, r: Outcome, line: seq<nat>) {
    && Stored(q, line)
    && match r
       case Returned(a0) =>
         if line != [] && line[|line| - 1] == NEWLINE then a0 == |line| && GoesOn(line[..|line| - 1])
         else GoesOn(line) && |line| < |q.input| && q.InBuffer(|line|) && !q.Received(|line|)
              && a0 == -q.input[|line|].status
       case Terminated => GoesOn(line) && !q.InBuffer(|line|)
       case Trapped => GoesOn(line) && Accepts(q, |line|) && !q.Storable(|line|)
  }

  /** The terminal delivers the characters of typed, at places where they can be stored. */
  ghost predicate Delivers(q: Request, typed: seq<nat>) {
    && |typed| <= |q.input|
    && forall i :: 0 <= i < |typed| ==>
         typed[i] < 0x100 && q.input[i].status == typed[i] * 0x100 + 5 && q.InBuffer(i) && q.Storable(i)
  }

  /** What is typed is what arrives. */
  lemma Received(q: Request, typed: seq<nat>)
    requires Delivers(q, typed)
    ensures forall i :: 0 <= i < |typed| ==> q.Received(i) && q.Char(i) == typed[i]
  {
    forall i | 0 <= i < |typed| ensures q.Received(i) && q.Char(i) == typed[i] {
      Split(typed[i], 5);
    }
  }

  lemma Split(c: nat, low: nat)
    requires c < 0x100 && low < 0x100
    ensures (c * 0x100 + low) % 0x100 == low && (c * 0x100 + low) / 0x100 % 0x100 == c
  {
  }

  lemma ReadSoFar(q: Request, line: seq<nat>, typed: seq<nat>)
    requires Stored(q, line) && Delivers(q, typed)
    ensures forall i :: 0 <= i < |line| && i < |typed| ==> line[i] == typed[i]
    ensures line != [] && |line| <= |typed| ==> line[|line| - 1] == typed[|line| - 1]
    ensures typed != [] && |typed| <= |line| ==> line[|typed| - 1] == typed[|typed| - 1]
  {
    Received(q, typed);
    forall i | 0 <= i < |line| && i < |typed| ensures line[i] == typed[i] {
      assert line[i] == q.Char(i);
    }
  }

  lemma AllReceived(q: Request, line: seq<nat>)
    requires Stored(q, line)
    ensures forall i :: 0 <= i < |line| ==> q.InBuffer(i) && q.Storable(i) && q.input[i].status % 0x100 == 5
  {
    forall i | 0 <= i < |line| ensures q.InBuffer(i) && q.Storable(i) && q.input[i].status % 0x100 == 5 {
      assert line[i] == q.Char(i);
    }
  }

  /** Only a newline ends the line before its last character is delivered. */
  lemma StopsAt(q: Request, r: Outcome, line: seq<nat>, typed: seq<nat>)
    requires ReadResult(q, r, line) && Delivers(q, typed)
    ensures |line| < |typed| ==> line != [] && line[|line| - 1] == 10
  {
    Received(q, typed);
  }

  lemma NewlineLast(q: Request, r: Outcome, line: seq<nat>)
    requires ReadResult(q, r, line)
    ensures forall i :: 0 <= i < |line| - 1 ==> line[i] != 10
    ensures line != [] && line[|line| - 1] == 10 ==> r == Returned(|line|)
  {
    forall i | 0 <= i < |line| - 1 ensures line[i] != 10 {
      assert line[i] == line[..|line| - 1][i];
    }
  }

  /** A line is read as it was typed. */
  lemma LineRead(q: Request, r: Outcome, line: seq<nat>, typed: seq<nat>)
    requires ReadResult(q, r, line) && Delivers(q, typed) && typed != []
    requires forall i :: 0 <= i < |typed| ==> (typed[i] == 10 <==> i == |typed| - 1)
    ensures r == Returned(|typed|) && line == typed
  {
    ReadSoFar(q, line, typed);
    StopsAt(q, r, line, typed);
    NewlineLast(q, r, line);
    var last := |typed| - 1;
    assert typed[last] == 10;
    assert |line| <= |typed|;
    assert |line| == |typed|;
  }

  /** If the line is cut short after the characters of typed, they have been stored; the process is terminated if the
      next place is not valid, minus the status is returned if it is not that of a character, and a character that
      cannot be stored traps the process. */
  lemma CutShort(q: Request, r: Outcome, line: seq<nat>, typed: seq<nat>)
    requires ReadResult(q, r, line) && Delivers(q, typed) && forall i :: 0 <= i < |typed| ==> typed[i] != 10
    requires |typed| < |q.input| && q.InBuffer(|typed|) ==>
               q.input[|typed|].status % 0x100 != 5 || !q.Storable(|typed|)
    requires |typed| == |q.input| ==> !q.InBuffer(|typed|)
    ensures line == typed
    ensures if !q.InBuffer(|typed|) then r == Terminated
            else r == if q.input[|typed|].status % 0x100 != 5 then Returned(-q.input[|typed|].status) else Trapped
  {
    ReadSoFar(q, line, typed);
    StopsAt(q, r, line, typed);
    AllReceived(q, line);
    assert |line| <= |typed|;
    assert |line| == |typed|;
  }

  /** readTerminal. A line that is delivered is stored and its length returned. At the end every mutex has been given
      back exactly if every accepted character can be stored. */
  method ReadTerminal(q: Request) returns (r: Outcome, line: seq<nat>, path: seq<Pc>)
    requires Ends(q)
    ensures ReadResult(q, r, line)
    ensures forall typed: seq<nat> :: Delivers(q, typed) && typed != []
              && (forall i :: 0 <= i < |typed| ==> (typed[i] == 10 <==> i == |typed| - 1))
              ==> r == Returned(|typed|) && line == typed
    ensures ReadPath(r, IsValidAddress(q.addr), path)
    ensures Claims(Last(path)) == {} <==> Spares(q)
  {
    if IsValidAddress(q.addr) {
      r, line, path := ReadLoop(q);
    } else {
      var end := Terminate(None);
      NotStarted(q, end);
      r, line, path := Terminated, [], [User] + end;
    }
    forall typed: seq<nat> | Delivers(q, typed) && typed != []
      && (forall i :: 0 <= i < |typed| ==> (typed[i] == 10 <==> i == |typed| - 1))
      ensures r == Returned(|typed|) && line == typed
    {
      LineRead(q, r, line, typed);
    }
  }

  method ReadLoop(q: Request) returns (r: Outcome, line: seq<nat>, path: seq<Pc>)
    requires Ends(q) && IsValidAddress(q.addr)
    ensures ReadResult(q, r, line) && ReadPath(r, true, path)
    ensures Claims(Last(path)) == {} <==> Spares(q)
  {
    line := [];
    path := [User, AskTerminal(Receive), InTerminal(Receive)];
    while true
      invariant Ongoing(path, Receive) && Stored(q, line) && GoesOn(line)
      decreases |q.input| - |line|
    {
      if !q.InBuffer(|line|) {
        var end := Terminate(None);
        ReadsOut(q, line, path, end);
        return Terminated, line, path + [User] + end;
      }
      StillReading(q, line);
      if !q.Received(|line|) {
        ReadFails(q, line, path);
        return Returned(-q.input[|line|].status), line, path + [User];
      }
      var use := Store(Writable(q.textPages, q.addr + |line|));
      var trapped;
      path, trapped := AccessInCall(path, Receive, use, q.input[|line|].faults);
      if trapped {
        ReadTraps(q, line);
        return Trapped, line, path;
      }
      StoreOne(q, line);
      line := line + [q.Char(|line|)];
      if line[|line| - 1] == NEWLINE {
        ReadEnds(q, line, path);
        return Returned(|line|), line, path + [User];
      }
    }
  }

  lemma StillReading(q: Request, line: seq<nat>)
    requires Ends(q) && Stored(q, line) && GoesOn(line) && q.InBuffer(|line|)
    ensures |line| < |q.input|
  {
    forall j | 0 <= j < |line| ensures q.InBuffer(j) && q.Received(j) && q.Char(j) != NEWLINE {
      assert line[j] == q.Char(j);
    }
  }

  lemma StoreOne(q: Request, line: seq<nat>)
    requires Stored(q, line) && GoesOn(line) && |line| < |q.input|
    requires q.InBuffer(|line|) && q.Received(|line|) && q.Storable(|line|)
    ensures
      var more := line + [q.Char(|line|)];
      Stored(q, more) && more[..|line|] == line
      && (q.Char(|line|) != NEWLINE ==> GoesOn(more))
  {
    var more := line + [q.Char(|line|)];
    forall i | 0 <= i < |more|
      ensures q.InBuffer(i) && q.Received(i) && more[i] == q.Char(i) && q.Storable(i)
    {
      if i < |line| {
        assert more[i] == line[i];
      }
    }
  }

  /** When the line has come to its end without a trap, every accepted character has been stored. */
  lemma AcceptedIsStored(q: Request, line: seq<nat>, i: nat)
    requires Stored(q, line) && Accepts(q, i)
    requires !q.InBuffer(|line|) || (|line| < |q.input| && !q.Received(|line|))
          || (line != [] && line[|line| - 1] == NEWLINE)
    ensures i < |line| && q.Storable(i)
  {
    if line != [] {
      assert line[|line| - 1] == q.Char(|line| - 1);
    }
    assert i < |line|;
    assert line[i] == q.Char(i);
  }

  lemma AllStored(q: Request, line: seq<nat>)
    requires Stored(q, line)
    requires !q.InBuffer(|line|) || (|line| < |q.input| && !q.Received(|line|))
          || (line != [] && line[|line| - 1] == NEWLINE)
    ensures Spares(q)
  {
    forall i: nat | Accepts(q, i) ensures q.Storable(i) {
      AcceptedIsStored(q, line, i);
    }
  }

  lemma NotStarted(q: Request, end: seq<Pc>)
    requires !IsValidAddress(q.addr) && Walk(end) && end == [AskRelease(None), InRelease(None), Dead(None)]
    ensures ReadResult(q, Terminated, []) && ReadPath(Terminated, false, [User] + end)
    ensures Claims(Last([User] + end)) == {} && Spares(q)
  {
    WalkOn([User], end);
    AllStored(q, []);
    assert ([User] + end)[1..] == end;
  }

  lemma ReadsOut(q: Request, line: seq<nat>, path: seq<Pc>, end: seq<Pc>)
    requires Stored(q, line) && GoesOn(line) && !q.InBuffer(|line|) && Ongoing(path, Receive)
    requires Walk(end) && end == [AskRelease(None), InRelease(None), Dead(None)]
    ensures ReadResult(q, Terminated, line)
    ensures ReadPath(Terminated, true, path + [User] + end)
    ensures Claims(Last(path + [User] + end)) == {} && Spares(q)
  {
    ComeBack(path, Receive);
    WalkOn(path + [User], end);
    EndsWith(path + [User], end);
    AllStored(q, line);
  }

  lemma ReadFails(q: Request, line: seq<nat>, path: seq<Pc>)
    requires Stored(q, line) && GoesOn(line) && q.InBuffer(|line|) && Ongoing(path, Receive)
    requires |line| < |q.input| && !q.Received(|line|)
    ensures ReadResult(q, Returned(-q.input[|line|].status), line)
    ensures ReadPath(Returned(-q.input[|line|].status), true, path + [User])
    ensures Claims(Last(path + [User])) == {} && Spares(q)
  {
    ComeBack(path, Receive);
    AllStored(q, line);
  }

  lemma ReadEnds(q: Request, line: seq<nat>, path: seq<Pc>)
    requires Stored(q, line) && Ongoing(path, Receive)
    requires line != [] && line[|line| - 1] == NEWLINE && GoesOn(line[..|line| - 1])
    ensures ReadResult(q, Returned(|line|), line)
    ensures ReadPath(Returned(|line|), true, path + [User])
    ensures Claims(Last(path + [User])) == {} && Spares(q)
  {
    ComeBack(path, Receive);
    AllStored(q, line);
  }

  lemma ReadTraps(q: Request, line: seq<nat>)
    requires Stored(q, line) && GoesOn(line) && q.InBuffer(|line|)
    requires |line| < |q.input| && q.Received(|line|) && !q.Storable(|line|)
    ensures ReadResult(q, Trapped, line) && !Spares(q)
  {
    forall j | 0 <= j < |line| ensures q.InBuffer(j) && q.Received(j) && q.Char(j) != NEWLINE {
      assert line[j] == q.Char(j);
    }
    assert Accepts(q, |line|);
  }

  lemma EndsWith(path: seq<Pc>, end: seq<Pc>)
    requires TerminalCall(path, Receive) && |end| == 3
    ensures (path + end)[..|path + end| - 3] == path && (path + end)[|path + end| - 3..] == end
  {
  }

  /** A read into the first text page: whatever is received first is accepted and cannot be stored, so the
      process is terminated with the reader's mutex. */
  lemma TextBuffer(textPages: nat, input: seq<Input>)
    requires textPages >= 1 && input != [] && input[0].status % 0x100 == RECVD
    ensures !Spares(Request(0x80000000, textPages, input))
  {
    assert Accepts(Request(0x80000000, textPages, input), 0);
    WritableExact(textPages, 0x80000000);
  }
}
