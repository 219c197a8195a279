/** Over runs of any length paging is invisible: a user process sees a flat memory that only its own stores
    change. Also what the replacement policy does over a run. */
module FlatMemory {
  import opened Lists
  import opened PageNumbers
  import opened Paging
  import opened PagingInvariant

  // ---- what the invariant says ----

  /** Outside an eviction, frames and valid pages correspond one to one, and no back pointer dangles. */
  lemma OneToOne(v: Vm, f: FrameIdx, s: SuppIdx, i: PageIdx)
    requires Inv(v) && Trusted(v, s) && !InTransit(v, f)
    ensures v.PteOf(s, i).v && v.PteOf(s, i).frame == f <==>
              v.swap[f] == Swap(v.supp[s].asid, i, Some(PteRef(s, i)))
  {
    assert Occupied(v.swap[f]) ==> Owned(v, f);
    assert v.supp[s].pgTbl[i].v ==> Placed(v, s, i);
  }

  /** An occupied frame, in transit or not, points back at the page its entry names, in the structure of the
      living process that has that ASID, which is not on the free list. */
  lemma NoDanglingPointer(v: Vm, f: FrameIdx)
    requires Inv(v) && v.swap[f].asid != NOPROC
    ensures
      var w := v.swap[f];
      && w.pte.Some? && w.pte.value.i == w.pageNo
      && Alive(v.life[w.pte.value.s]) && v.supp[w.pte.value.s].asid == w.asid && w.pte.value.s !in v.free
  {
    assert Owned(v, f);
  }

  /** A TLB line for a page of a living process agrees with the page table and with the swap table; only
      living processes have valid lines, and no page has two lines. */
  lemma CoherentLine(v: Vm, k: Slot, s: SuppIdx)
    requires Inv(v) && v.tlb[k].Some? && Alive(v.life[s]) && v.tlb[k].value.asid == v.supp[s].asid
    ensures
      var e := v.tlb[k].value;
      && (e.v ==> e == v.PteOf(s, e.page) && v.swap[e.frame] == Swap(e.asid, e.page, Some(PteRef(s, e.page)))
                  && !InTransit(v, e.frame))
      && (!e.v && !BeingReleased(v, s) ==> !v.PteOf(s, e.page).v)
      && forall l: Slot {:trigger v.tlb[l]} :: l != k && v.tlb[l].Some? ==> !SamePage(v.tlb[l].value, e)
  {
    var e := v.tlb[k].value;
    if e.v {
      assert Mapped(v, e) && Owned(v, e.frame);
      var r := v.swap[e.frame].pte.value;
      assert v.supp[r.s].pgTbl[r.i].asid == v.supp[r.s].asid && v.supp[r.s].pgTbl[r.i].page == r.i;
      assert v.supp[r.s].asid == v.supp[s].asid;
    }
  }

  lemma ValidLineOwner(v: Vm, k: Slot) returns (s: SuppIdx)
    requires Inv(v) && v.tlb[k].Some? && v.tlb[k].value.v
    ensures Alive(v.life[s]) && v.supp[s].asid == v.tlb[k].value.asid
  {
    var e := v.tlb[k].value;
    assert Mapped(v, e) && Owned(v, e.frame);
    var r := v.swap[e.frame].pte.value;
    s := r.s;
    assert v.supp[r.s].pgTbl[r.i].asid == v.supp[r.s].asid;
  }

  // ---- contents ----

  /** The contents of a page: its frame while it is in memory or waits there to be written back, its flash
      block otherwise. */
  ghost function Content(v: Vm, s: SuppIdx, i: PageIdx): Page {
    if v.supp[s].pgTbl[i].v then v.ram[v.supp[s].pgTbl[i].frame]
    else if v.phase.Cleared? && Occupied(v.swap[v.phase.f]) && v.swap[v.phase.f].pte == Some(PteRef(s, i)) then
      v.ram[v.phase.f]
    else v.Block(v.supp[s].asid, i)
  }

  /** What a step does to the contents of a page of s: nothing, but for a store by s itself to that page. */
  ghost function Stored(e: Event, s: SuppIdx, i: PageIdx, before: Page): Page {
    match e
    case Write(t, pg, off, x) => if t == s && pg == i then before[off := x] else before
    case _ => before
  }

  lemma WriteContent(v: Vm, t: SuppIdx, pg: PageIdx, off: Offset, x: int, s: SuppIdx, i: PageIdx)
    requires Inv(v) && Enabled(v, Write(t, pg, off, x)) && Trusted(v, s)
    ensures Content(Step(v, Write(t, pg, off, x)), s, i) == Stored(Write(t, pg, off, x), s, i, Content(v, s, i))
  {
    Translation(v, t, pg);
    var f := v.PteOf(t, pg).frame;
    assert Placed(v, t, pg);
    assert v.supp[s].pgTbl[i].v ==> Placed(v, s, i);
  }

  lemma InvalidateContent(v: Vm, p: SuppIdx, pg: PageIdx, f: FrameIdx, s: SuppIdx, i: PageIdx)
    requires Inv(v) && v.phase == Chosen(p, pg, f) && Trusted(v, s)
    ensures Content(Invalidate(v, p, pg, f), s, i) == Content(v, s, i)
  {
    if Occupied(v.swap[f]) {
      assert Owned(v, f);
    }
    assert v.supp[s].pgTbl[i].v ==> Placed(v, s, i);
  }

  lemma WriteBackContent(v: Vm, p: SuppIdx, pg: PageIdx, f: FrameIdx, s: SuppIdx, i: PageIdx)
    requires Inv(v) && v.phase == Cleared(p, pg, f) && Trusted(v, s)
    ensures Content(WriteBack(v, p, pg, f), s, i) == Content(v, s, i)
  {
    if Occupied(v.swap[f]) {
      assert Owned(v, f);
      var r := v.swap[f].pte.value;
      assert v.supp[r.s].asid == v.supp[s].asid ==> r.s == s;
      assert v.supp[r.s].pgTbl[r.i].asid == v.supp[r.s].asid;
    }
  }

  lemma ReadInContent(v: Vm, p: SuppIdx, pg: PageIdx, f: FrameIdx, s: SuppIdx, i: PageIdx)
    requires Inv(v) && v.phase == Saved(p, pg, f) && Trusted(v, s)
    ensures Content(ReadIn(v, p, pg, f), s, i) == Content(v, s, i)
  {
    assert v.supp[s].pgTbl[i].v ==> Placed(v, s, i);
  }

  lemma PublishContent(v: Vm, p: SuppIdx, pg: PageIdx, f: FrameIdx, slot: Slot, s: SuppIdx, i: PageIdx)
    requires Inv(v) && v.phase == Loaded(p, pg, f) && Trusted(v, s)
    ensures Content(Publish(v, p, pg, f, slot), s, i) == Content(v, s, i)
  {
  }

  lemma ReleaseContent(v: Vm, p: SuppIdx, j: FrameIdx, s: SuppIdx, i: PageIdx)
    requires Inv(v) && v.phase == Releasing(p, j) && Trusted(v, s)
    ensures Content(ReleaseOne(v, p, j), s, i) == Content(v, s, i)
  {
  }

  /** No step of the pager, of a refill, of releaseFrames or of another process changes what a process finds in
      its memory; its own stores change exactly the word they name. */
  lemma StepContent(v: Vm, e: Event, s: SuppIdx, i: PageIdx)
    requires Inv(v) && Enabled(v, e) && Trusted(v, s) && Trusted(Step(v, e), s)
    ensures Content(Step(v, e), s, i) == Stored(e, s, i, Content(v, s, i))
  {
    match e
    case Write(t, pg, off, x) => WriteContent(v, t, pg, off, x, s, i);
    case DoInvalidate => InvalidateContent(v, v.phase.s, v.phase.pg, v.phase.f, s, i);
    case DoWriteBack => WriteBackContent(v, v.phase.s, v.phase.pg, v.phase.f, s, i);
    case DoRead => ReadInContent(v, v.phase.s, v.phase.pg, v.phase.f, s, i);
    case DoPublish(slot) => PublishContent(v, v.phase.s, v.phase.pg, v.phase.f, slot, s, i);
    case DoRelease => ReleaseContent(v, v.phase.s, v.phase.i, s, i);
    case _ =>
  }

  lemma StartContent(v: Vm, s: SuppIdx, asid: Asid, textPages: nat, i: PageIdx)
    requires Inv(v) && Enabled(v, DoStart(s, asid, textPages))
    ensures Content(Start(v, s, asid, textPages), s, i) == v.Block(asid, i)
  {
    if v.phase.Cleared? && Occupied(v.swap[v.phase.f]) {
      assert Owned(v, v.phase.f);
    }
  }

  /** A user load returns the contents. */
  lemma LoadContent(v: Vm, s: SuppIdx, pg: PageIdx, off: Offset)
    requires Inv(v) && Enabled(v, Read(s, pg, off))
    ensures Loads(v, s, pg, off) == Content(v, s, pg)[off]
  {
    Translation(v, s, pg);
  }

  /** Pages that are never written back, because D is off, always equal their flash block. */
  lemma CleanPage(v: Vm, s: SuppIdx, i: PageIdx)
    requires Inv(v) && Trusted(v, s) && !v.PteOf(s, i).d
    ensures Content(v, s, i) == v.Block(v.supp[s].asid, i)
  {
  }

  // ---- runs ----

  ghost predicate Run(vs: seq<Vm>, es: seq<Event>) {
    && |vs| == |es| + 1
    && (exists ram: Ram, flash: Flash, supp: Supports :: vs[0] == Boot(ram, flash, supp))
    && forall i :: 0 <= i < |es| ==> Stepped(vs, es, i)
  }

  ghost predicate Stepped(vs: seq<Vm>, es: seq<Event>, i: nat)
    requires |vs| == |es| + 1 && i < |es|
  {
    Enabled(vs[i], es[i]) && vs[i + 1] == Step(vs[i], es[i])
  }

  lemma {:induction false} RunInv(vs: seq<Vm>, es: seq<Event>, i: nat)
    requires Run(vs, es) && i < |vs|
    ensures Inv(vs[i])
  {
    if i == 0 {
      var ram: Ram, flash: Flash, supp: Supports :| vs[0] == Boot(ram, flash, supp);
      BootInv(ram, flash, supp);
    } else {
      RunInv(vs, es, i - 1);
      assert Stepped(vs, es, i - 1);
      StepKeeps(vs[i - 1], es[i - 1]);
    }
  }

  /** A machine without paging: every process owns all its pages; starting one fills them from its flash
      device, and stores change them. */
  ghost function FlatStep(mem: Flash, flash: Flash, e: Event): Flash {
    match e
    case Write(s, pg, off, x) => mem[s := mem[s][pg := mem[s][pg][off := x]]]
    case DoStart(s, asid, _) => mem[s := flash[asid - 1]]
    case _ => mem
  }

  ghost function Flat(vs: seq<Vm>, es: seq<Event>, i: nat): Flash
    requires |vs| == |es| + 1 && i <= |es|
  {
    if i == 0 then vs[0].flash else FlatStep(Flat(vs, es, i - 1), vs[i - 1].flash, es[i - 1])
  }

  lemma FlatStepIs(mem: Flash, flash: Flash, e: Event, s: SuppIdx, i: PageIdx)
    requires !(e.DoStart? && e.s == s)
    ensures FlatStep(mem, flash, e)[s][i] == Stored(e, s, i, mem[s][i])
  {
  }

  /** Only starting a process makes its page table trustworthy. */
  lemma TrustedBefore(v: Vm, e: Event, s: SuppIdx)
    requires Inv(v) && Enabled(v, e) && Trusted(Step(v, e), s) && !(e.DoStart? && e.s == s)
    ensures Trusted(v, s)
  {
  }

  lemma FlatStepContent(v: Vm, e: Event, mem: Flash, s: SuppIdx, pg: PageIdx)
    requires Inv(v) && Enabled(v, e) && Trusted(Step(v, e), s)
    requires Trusted(v, s) ==> Content(v, s, pg) == mem[s][pg]
    ensures Content(Step(v, e), s, pg) == FlatStep(mem, v.flash, e)[s][pg]
  {
    if e.DoStart? && e.s == s {
      StartContent(v, s, e.asid, e.textPages, pg);
    } else {
      TrustedBefore(v, e, s);
      StepContent(v, e, s, pg);
      FlatStepIs(mem, v.flash, e, s, pg);
    }
  }

  /** Paging is invisible: in every state of every run, every page of every living process has the contents
      it would have on the machine without paging. */
  lemma {:induction false} PagingInvisible(vs: seq<Vm>, es: seq<Event>, i: nat, s: SuppIdx, pg: PageIdx)
    requires Run(vs, es) && i <= |es| && Trusted(vs[i], s)
    ensures Content(vs[i], s, pg) == Flat(vs, es, i)[s][pg]
  {
    if i > 0 {
      RunInv(vs, es, i - 1);
      assert Stepped(vs, es, i - 1);
      if Trusted(vs[i - 1], s) {
        PagingInvisible(vs, es, i - 1, s, pg);
      }
      FlatStepContent(vs[i - 1], es[i - 1], Flat(vs, es, i - 1), s, pg);
    }
  }

  /** So every user load returns what the machine without paging would return. */
  lemma LoadsAreFlat(vs: seq<Vm>, es: seq<Event>, i: nat)
    requires Run(vs, es) && i < |es| && es[i].Read?
    ensures Enabled(vs[i], es[i])
    ensures Loads(vs[i], es[i].s, es[i].pg, es[i].off) == Flat(vs, es, i)[es[i].s][es[i].pg][es[i].off]
  {
    RunInv(vs, es, i);
    assert Stepped(vs, es, i);
    LoadContent(vs[i], es[i].s, es[i].pg, es[i].off);
    PagingInvisible(vs, es, i, es[i].s, es[i].pg);
  }

  // ---- replacement ----

  /** A choice made with every frame occupied. */
  predicate Evicts(v: Vm, e: Event) { e.DoChoose? && FirstFree(v.swap, 0).None? }

  /** The replacement algorithm never evicts while a frame is free. */
  lemma FreeFrameFirst(v: Vm, g: FrameIdx)
    requires Enabled(v, DoChoose) && !Occupied(v.swap[g])
    ensures Step(v, DoChoose).phase.Chosen? && !Occupied(v.swap[Step(v, DoChoose).phase.f])
    ensures Step(v, DoChoose).phase.f <= g && Step(v, DoChoose).nextFrame == v.nextFrame
  {
  }

  ghost function Evictions(vs: seq<Vm>, es: seq<Event>, i: nat): nat
    requires |vs| == |es| + 1 && i <= |es|
  {
    if i == 0 then 0 else Evictions(vs, es, i - 1) + if Evicts(vs[i - 1], es[i - 1]) then 1 else 0
  }

  /** The frame whose turn it is after n evictions, round robin from frame 0. */
  function Turn(n: nat): FrameIdx {
    if n == 0 then 0 else if Turn(n - 1) + 1 == SWAP_POOL_SIZE then 0 else Turn(n - 1) + 1
  }

  lemma Wraps(a: nat, n: nat)
    requires 0 < n && a <= n
    ensures a % n == if a == n then 0 else a
  {
  }

  lemma {:induction false} TurnAfter(n: nat, d: nat)
    requires d <= SWAP_POOL_SIZE
    ensures Turn(n + d) == if Turn(n) + d < SWAP_POOL_SIZE then Turn(n) + d else Turn(n) + d - SWAP_POOL_SIZE
  {
    if d > 0 {
      TurnAfter(n, d - 1);
    }
  }

  lemma TurnsDiffer(a: nat, b: nat)
    requires a < b < a + SWAP_POOL_SIZE
    ensures Turn(a) != Turn(b)
  {
    TurnAfter(a, b - a);
  }

  lemma StepNext(v: Vm, e: Event)
    requires Enabled(v, e)
    ensures Evicts(v, e) ==>
              Step(v, e).nextFrame == if v.nextFrame + 1 == SWAP_POOL_SIZE then 0 else v.nextFrame + 1
    ensures !Evicts(v, e) ==> Step(v, e).nextFrame == v.nextFrame
  {
    Wraps(v.nextFrame + 1, SWAP_POOL_SIZE);
  }

  lemma {:induction false} NextFrameCounts(vs: seq<Vm>, es: seq<Event>, i: nat)
    requires Run(vs, es) && i <= |es|
    ensures vs[i].nextFrame == Turn(Evictions(vs, es, i))
  {
    if i > 0 {
      NextFrameCounts(vs, es, i - 1);
      assert Stepped(vs, es, i - 1);
      StepNext(vs[i - 1], es[i - 1]);
    }
  }

  /** The evictions of a run take the frames in turn. */
  lemma VictimInTurn(vs: seq<Vm>, es: seq<Event>, i: nat)
    requires Run(vs, es) && i < |es| && Evicts(vs[i], es[i])
    ensures vs[i + 1].phase.Chosen? && vs[i + 1].phase.f == Turn(Evictions(vs, es, i))
  {
    NextFrameCounts(vs, es, i);
    assert Stepped(vs, es, i);
  }

  lemma {:induction false} EvictionsGrow(vs: seq<Vm>, es: seq<Event>, i: nat, j: nat)
    requires |vs| == |es| + 1 && i < j <= |es|
    ensures Evictions(vs, es, j) >= Evictions(vs, es, i) + if Evicts(vs[i], es[i]) then 1 else 0
    decreases j
  {
    if i + 1 < j {
      EvictionsGrow(vs, es, i, j - 1);
    }
  }

  /** Over any run, whatever is released in between, two evictions fewer than a pool's size apart take
      different frames: any SWAP_POOL_SIZE consecutive victims are pairwise distinct. */
  lemma VictimsDiffer(vs: seq<Vm>, es: seq<Event>, i: nat, j: nat)
    requires Run(vs, es) && i < j < |es| && Evicts(vs[i], es[i]) && Evicts(vs[j], es[j])
    requires Evictions(vs, es, j) - Evictions(vs, es, i) < SWAP_POOL_SIZE
    ensures vs[i + 1].phase.Chosen? && vs[j + 1].phase.Chosen? && vs[i + 1].phase.f != vs[j + 1].phase.f
  {
    VictimInTurn(vs, es, i);
    VictimInTurn(vs, es, j);
    EvictionsGrow(vs, es, i, j);
    TurnsDiffer(Evictions(vs, es, i), Evictions(vs, es, j));
  }
}
