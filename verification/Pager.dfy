/** phase3/vmSupport.c as it is written: loops over the swap pool table, whose entries, like the page tables
    and the TLB lines, are overwritten in place. Every method computes the function of Paging.dfy that has its
    name; the methods that run through several atomic steps are shown without the steps of others between. */
module Pagers {
  import opened Lists
  import opened PageNumbers
  import opened Paging
  import opened PagingInvariant
  import opened FlatMemory

  class Pager {
    const swapPoolTable: array<Swap>
    const tlb: array<Option<Pte>>
    const supportStructures: array<Support>
    var nextFrame: FrameIdx
    var ram: Ram
    var flash: Flash
    var supportFree: seq<SuppIdx>
    ghost var life: Lives
    ghost var phase: Phase

    ghost predicate Valid()
      reads this
    {
      swapPoolTable.Length == SWAP_POOL_SIZE && tlb.Length == TLBSIZE && supportStructures.Length == UPROCMAX
    }

    ghost function View(): Vm
      requires Valid()
      reads this, swapPoolTable, tlb, supportStructures
    {
      Vm(swapPoolTable[..], nextFrame, ram, flash, supportStructures[..], life, supportFree, tlb[..], phase)
    }

    /** Power-on: memory, flash and the support structures hold anything, no TLB line names a user page. */
    constructor (memory: Ram, devices: Flash, supp: Supports)
      ensures Valid() && fresh(swapPoolTable) && fresh(tlb) && fresh(supportStructures)
      ensures View() == Boot(memory, devices, supp)
    {
      swapPoolTable := new Swap[SWAP_POOL_SIZE](_ => FREEFRAME);
      tlb := new Option<Pte>[TLBSIZE](_ => None);
      supportStructures := new Support[UPROCMAX](i requires 0 <= i < UPROCMAX => supp[i]);
      nextFrame := 0;
      ram := memory;
      flash := devices;
      supportFree := [];
      life := seq(UPROCMAX, _ => Unused);
      phase := Idle;
      new;
      InitSwapStructs();
      InitSupportFreeList();
      assert supportStructures[..] == supp;
    }

    method InitSwapStructs()
      requires Valid()
      modifies swapPoolTable
      ensures swapPoolTable[..] == seq(SWAP_POOL_SIZE, _ => FREEFRAME)
    {
      for i := 0 to SWAP_POOL_SIZE
        invariant forall f :: 0 <= f < i ==> swapPoolTable[f] == FREEFRAME
      {
        swapPoolTable[i] := Swap(NOPROC, 0, None);
      }
    }

    method InitSupportFreeList()
      modifies `supportFree
      ensures supportFree == seq(UPROCMAX, i requires 0 <= i < UPROCMAX => i as SuppIdx)
    {
      supportFree := [];
      for i := 0 to UPROCMAX
        invariant |supportFree| == i && forall j :: 0 <= j < i ==> supportFree[j] == j
      {
        supportFree := supportFree + [i];
      }
    }

    /** replacementAlgorithm: the first free frame, or else the next in turn. */
    method ReplacementAlgorithm() returns (victim: FrameIdx)
      requires Valid()
      modifies `nextFrame
      ensures (victim, nextFrame) == Replacement(swapPoolTable[..], old(nextFrame))
    {
      for i := 0 to SWAP_POOL_SIZE
        invariant FirstFree(swapPoolTable[..], 0) == FirstFree(swapPoolTable[..], i)
        invariant nextFrame == old(nextFrame)
      {
        if swapPoolTable[i].asid == NOPROC {
          return i;
        }
      }
      victim := nextFrame;
      nextFrame := (nextFrame + 1) % SWAP_POOL_SIZE;
    }

    /** TLBP and, if the line is there, TLBWI. */
    method RefreshLine(e: Pte)
      requires Valid()
      modifies tlb
      ensures tlb[..] == Refresh(old(tlb[..]), e)
    {
      var index := Probe(tlb[..], e.page, e.asid);
      if index.Some? {
        tlb[index.value] := Some(e);
      }
    }

    method ChooseFrame(s: SuppIdx, pg: PageIdx) returns (f: FrameIdx)
      requires Valid()
      modifies this
      ensures Valid() && View() == Choose(old(View()), s, pg) && phase == Chosen(s, pg, f)
    {
      f := ReplacementAlgorithm();
      phase := Chosen(s, pg, f);
    }

    method InvalidateVictim(s: SuppIdx, pg: PageIdx, f: FrameIdx)
      requires Valid() && (Occupied(swapPoolTable[f]) ==> swapPoolTable[f].pte.Some?)
      modifies this, tlb, supportStructures
      ensures Valid() && View() == Invalidate(old(View()), s, pg, f)
    {
      if swapPoolTable[f].asid != NOPROC {
        var r := swapPoolTable[f].pte.value;
        var victim := supportStructures[r.s];
        var e := victim.pgTbl[r.i].(v := false);
        supportStructures[r.s] := victim.(pgTbl := victim.pgTbl[r.i := e]);
        RefreshLine(e);
      }
      phase := Cleared(s, pg, f);
    }

    method WriteVictim(s: SuppIdx, pg: PageIdx, f: FrameIdx)
      requires Valid()
      requires Occupied(swapPoolTable[f]) ==> swapPoolTable[f].pte.Some? && 1 <= swapPoolTable[f].asid <= UPROCMAX
      modifies this
      ensures Valid() && View() == WriteBack(old(View()), s, pg, f)
    {
      var w := swapPoolTable[f];
      if w.asid != NOPROC && supportStructures[w.pte.value.s].pgTbl[w.pte.value.i].d {
        flash := flash[w.asid - 1 := flash[w.asid - 1][w.pageNo := ram[f]]];
      }
      phase := Saved(s, pg, f);
    }

    method ReadPage(s: SuppIdx, pg: PageIdx, f: FrameIdx)
      requires Valid()
      modifies this
      ensures Valid() && View() == ReadIn(old(View()), s, pg, f)
    {
      ram := ram[f := flash[supportStructures[s].asid - 1][pg]];
      phase := Loaded(s, pg, f);
    }

    method PublishPage(s: SuppIdx, pg: PageIdx, f: FrameIdx, slot: Slot)
      requires Valid()
      modifies this, swapPoolTable, tlb, supportStructures
      ensures Valid() && View() == Publish(old(View()), s, pg, f, slot)
      ensures SameDirty(old(View()), View())
    {
      var owner := supportStructures[s];
      swapPoolTable[f] := Swap(owner.asid, pg, Some(PteRef(s, pg)));
      var e := owner.pgTbl[pg].(frame := f, v := true);
      supportStructures[s] := owner.(pgTbl := owner.pgTbl[pg := e]);
      var index := Probe(tlb[..], e.page, e.asid);
      if index.Some? {
        tlb[index.value] := Some(e);
      } else {
        tlb[slot] := Some(e);
      }
      life := life[s := Running];
      phase := Idle;
    }

    /** TLBPagerHandler for a page fault, once past the P on swapPoolSemaphore: the page ends up in memory and
        the TLB translates it, while nobody's memory contents change. */
    method TLBPagerHandler(s: SuppIdx, ghost pg: PageIdx, entryHi: nat, slot: Slot)
      requires Valid() && Inv(View()) && phase == Entered(s, pg)
      requires entryHi == EntryHi(VpnOf(pg), supportStructures[s].asid)
      modifies this, swapPoolTable, tlb, supportStructures
      ensures Valid() && View() == PageIn(old(View()), s, pg, slot) && Inv(View())
      ensures LineFor(View(), s, pg) == Some(View().PteOf(s, pg)) && View().PteOf(s, pg).v
      ensures SameContents(old(View()), View()) && SameDirty(old(View()), View())
    {
      PageInDirty(View(), s, pg, slot);
      PageInKeeps(View(), s, pg, slot);
      RoundTrip(pg, supportStructures[s].asid);
      var missed := IndexOf(entryHi);
      var f := EmptyFrame(s, missed);
      ReadPage(s, missed, f);
      PublishPage(s, missed, f, slot);
    }

    /** The first half of the pager: a frame is chosen, and what it holds invalidated and written back. */
    method EmptyFrame(s: SuppIdx, pg: PageIdx) returns (f: FrameIdx)
      requires Valid() && FramesOwned(View()) && phase == Entered(s, pg)
      modifies this, tlb, supportStructures
      ensures Valid() && f == old(Replacement(swapPoolTable[..], nextFrame)).0
      ensures View() == WriteBack(Invalidate(Choose(old(View()), s, pg), s, pg, f), s, pg, f)
    {
      f := ChooseFrame(s, pg);
      assert Occupied(View().swap[f]) ==> View().swap[f].pte.Some? && 1 <= View().swap[f].asid <= UPROCMAX;
      InvalidateVictim(s, pg, f);
      WriteVictim(s, pg, f);
    }

    /** The index both handlers compute from the EntryHi saved at the exception. */
    method IndexOf(entryHi: nat) returns (vpnMissed: nat)
      ensures vpnMissed == PageIndex(entryHi)
    {
      vpnMissed := entryHi / PAGESIZE % VPNMASK;
      if vpnMissed == 0x3FFFF {
        vpnMissed := 31;
      }
    }

    /** uTLB_RefillHandler after a miss on any page of kuseg that gives an index inside the page table: the entry
        goes into a line of the hardware's choice. The invariant is kept exactly if no other line names the page
        of that index, as is always so for a page with an entry of its own. */
    method RefillHandler(s: SuppIdx, vpn: Vpn, slot: Slot)
      requires Valid() && Inv(View()) && Missed(View(), s, vpn) && Index(View(), s, vpn) < USERPGTBLSIZE
      modifies tlb
      ensures View() == RefillTlb(old(View()), s, vpn, slot)
      ensures Inv(View()) <==> !LineElsewhere(old(View()), s, Index(old(View()), s, vpn), slot)
      ensures old(Own(View(), s, vpn)) ==> Inv(View())
    {
      RefillExact(View(), s, vpn, slot);
      if Own(View(), s, vpn) {
        RefillKeeps(View(), s, vpn, slot);
      }
      var vpnMissed := IndexOf(EntryHi(vpn, supportStructures[s].asid));
      tlb[slot] := Some(supportStructures[s].pgTbl[vpnMissed]);
    }

    method ReleaseFrame(s: SuppIdx, i: FrameIdx)
      requires Valid() && (Occupied(swapPoolTable[i]) ==> swapPoolTable[i].pte.Some?)
      modifies this, swapPoolTable, tlb
      ensures Valid() && View() == ReleaseOne(old(View()), s, i)
    {
      if swapPoolTable[i].asid == supportStructures[s].asid {
        var r := swapPoolTable[i].pte.value;
        RefreshLine(supportStructures[r.s].pgTbl[r.i].(frame := 0, v := false, d := false));
        swapPoolTable[i] := Swap(NOPROC, 0, None);
      }
      phase := Releasing(s, i + 1);
    }

    /** releaseFrames, once past the P on swapPoolSemaphore: no frame keeps a page of s, no TLB line for it
        stays valid, and everybody else's memory contents are what they were. */
    method ReleaseFrames(s: SuppIdx)
      requires Valid() && Inv(View()) && phase == Releasing(s, 0)
      modifies this, swapPoolTable, tlb
      ensures Valid() && Inv(View()) && phase == Idle && life == old(life)[s := Gone]
      ensures forall f: FrameIdx :: swapPoolTable[f] ==
                if old(swapPoolTable[..])[f].asid == supportStructures[s].asid then FREEFRAME
                else old(swapPoolTable[..])[f]
      ensures forall k: Slot :: tlb[k].Some? && tlb[k].value.asid == supportStructures[s].asid ==> !tlb[k].value.v
      ensures OthersKeep(old(View()), View(), s)
    {
      ghost var before := View();
      ReleaseBegins(before, s);
      for i := 0 to SWAP_POOL_SIZE
        invariant Valid() && ReleasedUpTo(before, View(), s, i)
      {
        ReleaseTurn(before, View(), s, i);
        ReleaseFrame(s, i);
      }
      ReleaseEnds(before, View(), s);
      life := life[s := Gone];
      phase := Idle;
    }

    /** initPageTable. */
    method InitPageTable(s: SuppIdx, asid: Asid, textPages: nat)
      requires Valid()
      modifies supportStructures
      ensures supportStructures[..] == old(supportStructures[..])[s := Support(asid, InitialTable(asid, textPages))]
    {
      ghost var was := supportStructures[..];
      var table := supportStructures[s].pgTbl;
      for i := 0 to USERPGTBLSIZE
        invariant forall j :: 0 <= j < i ==> table[j] == InitialTable(asid, textPages)[j]
      {
        if i < textPages && i < 31 {
          table := table[i := Pte(i, asid, 0, false, false)];
        } else {
          table := table[i := Pte(i, asid, 0, false, true)];
        }
      }
      assert table == InitialTable(asid, textPages);
      supportStructures[s] := Support(asid, table);
    }

    method AllocateSupport() returns (s: Option<SuppIdx>)
      requires Valid()
      modifies this
      ensures Valid()
      ensures if old(supportFree) == [] then s == None && View() == old(View())
              else s.Some? && [s.value] + supportFree == old(supportFree) && View() == Allocate(old(View()))
    {
      if supportFree == [] {
        return None;
      }
      s := Some(supportFree[0]);
      life := life[supportFree[0] := Starting];
      supportFree := supportFree[1..];
    }

    method DeallocateSupport(s: SuppIdx)
      requires Valid()
      modifies this
      ensures Valid() && View() == Recycle(old(View()), s) && supportFree == old(supportFree) + [s]
    {
      supportFree := supportFree + [s];
      life := life[s := Unused];
    }
  }

  /** The pager from its choice to its V, uninterrupted. */
  function PageIn(v: Vm, s: SuppIdx, pg: PageIdx, slot: Slot): Vm {
    var a := Choose(v, s, pg);
    var f := Replacement(v.swap, v.nextFrame).0;
    Publish(ReadIn(WriteBack(Invalidate(a, s, pg, f), s, pg, f), s, pg, f), s, pg, f, slot)
  }

  predicate InPager(e: Event) { e.DoChoose? || e.DoInvalidate? || e.DoWriteBack? || e.DoRead? || e.DoPublish? }

  /** No living process can tell m from v by its memory contents. */
  ghost predicate SameContents(v: Vm, m: Vm) {
    && (forall t: SuppIdx :: Alive(m.life[t]) ==> Alive(v.life[t]))
    && (forall t: SuppIdx, i: PageIdx :: Alive(m.life[t]) ==> Content(m, t, i) == Content(v, t, i))
  }

  /** Every page is as writable in m as it was in v. */
  ghost predicate SameDirty(v: Vm, m: Vm) {
    forall t: SuppIdx, i: PageIdx :: m.PteOf(t, i).d == v.PteOf(t, i).d
  }

  lemma PageInDirty(v: Vm, s: SuppIdx, pg: PageIdx, slot: Slot)
    ensures SameDirty(v, PageIn(v, s, pg, slot))
  {
    var f := Replacement(v.swap, v.nextFrame).0;
    var b := Invalidate(Choose(v, s, pg), s, pg, f);
    InvalidateDirty(Choose(v, s, pg), s, pg, f);
    var d := ReadIn(WriteBack(b, s, pg, f), s, pg, f);
    TransferDirty(b, s, pg, f);
    PublishDirty(d, s, pg, f, slot);
  }

  lemma InvalidateDirty(v: Vm, s: SuppIdx, pg: PageIdx, f: FrameIdx)
    ensures SameDirty(v, Invalidate(v, s, pg, f))
  {
  }

  lemma TransferDirty(v: Vm, s: SuppIdx, pg: PageIdx, f: FrameIdx)
    ensures SameDirty(v, ReadIn(WriteBack(v, s, pg, f), s, pg, f))
  {
  }

  lemma PublishDirty(v: Vm, s: SuppIdx, pg: PageIdx, f: FrameIdx, slot: Slot)
    ensures SameDirty(v, Publish(v, s, pg, f, slot))
  {
  }

  lemma StageKeeps(v: Vm, e: Event)
    requires Inv(v) && Enabled(v, e) && InPager(e)
    ensures Inv(Step(v, e)) && SameContents(v, Step(v, e))
  {
    var m := Step(v, e);
    StepKeeps(v, e);
    forall t: SuppIdx | Alive(m.life[t]) ensures Alive(v.life[t]) {
      TrustedBefore(v, e, t);
    }
    forall t: SuppIdx, i: PageIdx | Alive(m.life[t]) ensures Content(m, t, i) == Content(v, t, i) {
      StepContent(v, e, t, i);
    }
  }

  lemma PublishHits(v: Vm, s: SuppIdx, pg: PageIdx, f: FrameIdx, slot: Slot)
    requires Inv(v) && v.phase == Loaded(s, pg, f)
    ensures var m := Publish(v, s, pg, f, slot); LineFor(m, s, pg) == Some(m.PteOf(s, pg)) && m.PteOf(s, pg).v
  {
    var e := v.supp[s].pgTbl[pg].(frame := f, v := true);
    InstallLines(v.tlb, e, slot);
    InstalledLine(v.tlb, e, slot);
    var m := Publish(v, s, pg, f, slot);
    assert m.supp[s].pgTbl[pg] == e && e.page == pg && e.asid == m.supp[s].asid;
    assert m.tlb == Install(v.tlb, e, slot);
  }

  /** The probe for the page just installed finds it. */
  lemma InstalledLine(tlb: Tlb, e: Pte, slot: Slot)
    requires NoTwins(tlb)
    ensures
      var lines := Install(tlb, e, slot);
      Probe(lines, e.page, e.asid).Some? && lines[Probe(lines, e.page, e.asid).value] == Some(e)
  {
    InstallLines(tlb, e, slot);
    var lines := Install(tlb, e, slot);
    var index := Probe(tlb, e.page, e.asid);
    var k := if index.Some? then index.value else slot;
    assert Matches(lines[k], e.page, e.asid);
  }

  lemma PageInKeeps(v: Vm, s: SuppIdx, pg: PageIdx, slot: Slot)
    requires Inv(v) && v.phase == Entered(s, pg)
    ensures
      var m := PageIn(v, s, pg, slot);
      Inv(m) && LineFor(m, s, pg) == Some(m.PteOf(s, pg)) && m.PteOf(s, pg).v && SameContents(v, m)
  {
    var f := Replacement(v.swap, v.nextFrame).0;
    var a := Choose(v, s, pg);
    StageKeeps(v, DoChoose);
    var b := Invalidate(a, s, pg, f);
    StageKeeps(a, DoInvalidate);
    var c := WriteBack(b, s, pg, f);
    StageKeeps(b, DoWriteBack);
    var d := ReadIn(c, s, pg, f);
    StageKeeps(c, DoRead);
    StageKeeps(d, DoPublish(slot));
    PublishHits(d, s, pg, f, slot);
    ContentsChain(v, a, b, c, d, PageIn(v, s, pg, slot));
  }

  lemma ContentsChain(v: Vm, a: Vm, b: Vm, c: Vm, d: Vm, m: Vm)
    requires SameContents(v, a) && SameContents(a, b) && SameContents(b, c) && SameContents(c, d) && SameContents(d, m)
    ensures SameContents(v, m)
  {
  }

  /** releaseFrames has handled the frames below i, and nobody else has noticed. */
  ghost predicate ReleasedUpTo(before: Vm, v: Vm, s: SuppIdx, i: nat) {
    && Inv(v) && v.phase == Releasing(s, i) && i <= SWAP_POOL_SIZE
    && v.life == before.life && v.supp == before.supp
    && (forall f: FrameIdx :: v.swap[f] ==
          if f < i && before.swap[f].asid == v.supp[s].asid then FREEFRAME else before.swap[f])
    && OthersKeep(before, v, s)
  }

  ghost predicate OthersKeep(before: Vm, v: Vm, s: SuppIdx) {
    forall t: SuppIdx, p: PageIdx :: t != s && Alive(v.life[t]) ==> Content(v, t, p) == Content(before, t, p)
  }

  lemma ReleaseBegins(v: Vm, s: SuppIdx)
    requires Inv(v) && v.phase == Releasing(s, 0)
    ensures ReleasedUpTo(v, v, s, 0)
  {
  }

  lemma ReleaseTurn(before: Vm, v: Vm, s: SuppIdx, i: FrameIdx)
    requires ReleasedUpTo(before, v, s, i)
    ensures ReleasedUpTo(before, ReleaseOne(v, s, i), s, i + 1)
    ensures Occupied(v.swap[i]) ==> v.swap[i].pte.Some?
  {
    var m := ReleaseOne(v, s, i);
    assert Occupied(v.swap[i]) ==> Owned(v, i);
    assert Inv(m) by { StepKeeps(v, DoRelease); }
    forall t: SuppIdx, p: PageIdx | t != s && Alive(v.life[t]) ensures Content(m, t, p) == Content(before, t, p) {
      ReleaseContent(v, s, i, t, p);
    }
  }

  lemma ReleaseEnds(before: Vm, v: Vm, s: SuppIdx)
    requires ReleasedUpTo(before, v, s, SWAP_POOL_SIZE)
    ensures
      var m := v.SetLife(s, Gone).(phase := Idle);
      && Inv(m) && OthersKeep(before, m, s)
      && forall k: Slot :: m.tlb[k].Some? && m.tlb[k].value.asid == m.supp[s].asid ==> !m.tlb[k].value.v
  {
    AllReleased(v, s);
    LeaveReleaseKeeps(v, s);
  }
}
