/** What every step of the pager keeps: frames and valid pages correspond one to one, the TLB agrees with the
    page tables, and pages that are never written back equal their flash block. */
module PagingInvariant {
  import opened Lists
  import opened PageNumbers
  import opened Paging

  /** The frame being emptied or filled. */
  predicate InTransit(v: Vm, f: FrameIdx) {
    (v.phase.Cleared? || v.phase.Saved? || v.phase.Loaded?) && v.phase.f == f
  }

  predicate BeingReleased(v: Vm, s: SuppIdx) { v.phase.Releasing? && v.phase.s == s }

  /** The page table of s says where its pages are. */
  predicate Trusted(v: Vm, s: SuppIdx) { Alive(v.life[s]) && !BeingReleased(v, s) }

  /** An occupied frame holds the page of a living process that its back pointer names, valid unless the
      frame is in transit. */
  ghost predicate Owned(v: Vm, f: FrameIdx) {
    var w := v.swap[f];
    && w.pte.Some?
    && var r := w.pte.value;
       && Alive(v.life[r.s]) && r.i == w.pageNo && v.supp[r.s].asid == w.asid
       && (if InTransit(v, f) then !v.supp[r.s].pgTbl[r.i].v
           else v.supp[r.s].pgTbl[r.i].v && v.supp[r.s].pgTbl[r.i].frame == f)
  }

  ghost predicate FramesOwned(v: Vm) {
    forall f: FrameIdx :: Occupied(v.swap[f]) ==> Owned(v, f)
  }

  /** A valid page is in the frame its entry names, and the swap table knows. */
  ghost predicate Placed(v: Vm, s: SuppIdx, i: PageIdx) {
    var f := v.supp[s].pgTbl[i].frame;
    Occupied(v.swap[f]) && v.swap[f].pte == Some(PteRef(s, i)) && !InTransit(v, f)
  }

  ghost predicate PagesPlaced(v: Vm) {
    forall s: SuppIdx, i: PageIdx {:trigger v.supp[s].pgTbl[i]} ::
      Trusted(v, s) && v.supp[s].pgTbl[i].v ==> Placed(v, s, i)
  }

  /** Page tables name their own pages; two living processes never have the same ASID. */
  ghost predicate Headers(v: Vm) {
    && (forall s: SuppIdx, i: PageIdx {:trigger v.supp[s].pgTbl[i]} :: Alive(v.life[s]) ==>
          v.supp[s].pgTbl[i].page == i && v.supp[s].pgTbl[i].asid == v.supp[s].asid)
    && (forall s: SuppIdx, t: SuppIdx {:trigger v.supp[s], v.supp[t]} ::
          Alive(v.life[s]) && Alive(v.life[t]) && v.supp[s].asid == v.supp[t].asid ==> s == t)
  }

  /** A valid TLB line is the page table entry of the page that its frame holds. */
  ghost predicate Mapped(v: Vm, e: Pte) {
    var w := v.swap[e.frame];
    Occupied(w) && w.pte.Some? && v.supp[w.pte.value.s].pgTbl[w.pte.value.i] == e && !InTransit(v, e.frame)
  }

  predicate SamePage(a: Pte, b: Pte) { a.page == b.page && a.asid == b.asid }

  ghost predicate NoTwins(tlb: Tlb) {
    forall k: Slot, l: Slot {:trigger tlb[k], tlb[l]} ::
      tlb[k].Some? && tlb[l].Some? && SamePage(tlb[k].value, tlb[l].value) ==> k == l
  }

  ghost predicate ValidLines(v: Vm) {
    forall k: Slot {:trigger v.tlb[k]} :: v.tlb[k].Some? && v.tlb[k].value.v ==> Mapped(v, v.tlb[k].value)
  }

  /** A line with V off belongs to a page that is not in memory. */
  ghost predicate InvalidLines(v: Vm) {
    forall k: Slot, s: SuppIdx {:trigger v.tlb[k], v.supp[s]} ::
      v.tlb[k].Some? && !v.tlb[k].value.v && Trusted(v, s) && v.tlb[k].value.asid == v.supp[s].asid ==>
        !v.supp[s].pgTbl[v.tlb[k].value.page].v
  }

  ghost predicate Coherent(v: Vm) { NoTwins(v.tlb) && ValidLines(v) && InvalidLines(v) }

  /** A page in memory whose entry has D off equals its block on flash. */
  ghost predicate CleanPages(v: Vm) {
    forall s: SuppIdx, i: PageIdx {:trigger v.supp[s].pgTbl[i]} ::
      Trusted(v, s) && v.supp[s].pgTbl[i].v && !v.supp[s].pgTbl[i].d ==>
        v.ram[v.supp[s].pgTbl[i].frame] == v.Block(v.supp[s].asid, i)
  }

  /** The page that frame f still belongs to while it is in transit equals its block, because it has been
      written back or because it has D off. */
  ghost predicate SafeOnFlash(v: Vm, f: FrameIdx) {
    Occupied(v.swap[f]) && v.swap[f].pte.Some? ==>
      var r := v.swap[f].pte.value; v.ram[f] == v.Block(v.supp[r.s].asid, r.i)
  }

  ghost predicate CleanVictim(v: Vm, f: FrameIdx) {
    Occupied(v.swap[f]) && v.swap[f].pte.Some? ==>
      var r := v.swap[f].pte.value; !v.supp[r.s].pgTbl[r.i].d ==> SafeOnFlash(v, f)
  }

  /** What the holder of the mutex knows. */
  ghost predicate PhaseOk(v: Vm) {
    match v.phase
    case Idle => true
    case Entered(s, pg) => v.life[s] == Faulted(pg)
    case Chosen(s, pg, f) => v.life[s] == Faulted(pg)
    case Cleared(s, pg, f) => v.life[s] == Faulted(pg) && CleanVictim(v, f)
    case Saved(s, pg, f) => v.life[s] == Faulted(pg) && SafeOnFlash(v, f)
    case Loaded(s, pg, f) => v.life[s] == Faulted(pg) && v.ram[f] == v.Block(v.supp[s].asid, pg)
    case Releasing(s, i) =>
      v.life[s] == Dying && i <= SWAP_POOL_SIZE && forall f: FrameIdx :: f < i ==> v.swap[f].asid != v.supp[s].asid
  }

  /** The page a process has faulted on stays out of memory until its pager publishes it. */
  ghost predicate Faults(v: Vm) {
    forall s: SuppIdx {:trigger v.life[s]} :: v.life[s].Faulted? ==> !v.supp[s].pgTbl[v.life[s].pg].v
  }

  ghost predicate FreeList(v: Vm) {
    NoDup(v.free) && forall s: SuppIdx :: s in v.free <==> v.life[s] == Unused
  }

  ghost predicate Inv(v: Vm) {
    && FramesOwned(v) && PagesPlaced(v) && Headers(v) && Coherent(v) && CleanPages(v)
    && PhaseOk(v) && Faults(v) && FreeList(v)
  }

  lemma BootInv(ram: Ram, flash: Flash, supp: Supports)
    ensures Inv(Boot(ram, flash, supp))
  {
    var v := Boot(ram, flash, supp);
    forall s: SuppIdx ensures s in v.free && v.life[s] == Unused {
      assert v.free[s] == s;
    }
  }

  // ---- user steps ----

  /** The TLB translates for a running process exactly as its page table says. */
  lemma Translation(v: Vm, s: SuppIdx, pg: PageIdx)
    requires Inv(v) && v.life[s] == Running
    ensures LineFor(v, s, pg).Some? ==>
              if LineFor(v, s, pg).value.v then LineFor(v, s, pg).value == v.PteOf(s, pg) && Placed(v, s, pg)
              else !v.PteOf(s, pg).v
  {
    if LineFor(v, s, pg).Some? {
      var k := Probe(v.tlb, pg, v.supp[s].asid).value;
      var e := v.tlb[k].value;
      if e.v {
        var r := v.swap[e.frame].pte.value;
        assert Owned(v, e.frame);
        assert v.PteOf(r.s, r.i).page == r.i && v.supp[r.s].asid == v.supp[s].asid;
      }
    }
  }

  lemma InvalidKeeps(v: Vm, s: SuppIdx, vpn: Vpn)
    requires Inv(v) && Enabled(v, Invalid(s, vpn))
    ensures Inv(Step(v, Invalid(s, vpn)))
  {
    OwnEntryExact(vpn, v.supp[s].asid);
    Translation(v, s, EntryFor(vpn).value);
    FaultKeeps(v, s, EntryFor(vpn).value);
  }

  lemma FaultKeeps(v: Vm, s: SuppIdx, pg: PageIdx)
    requires Inv(v) && v.life[s] == Running && !v.supp[s].pgTbl[pg].v
    ensures Inv(v.SetLife(s, Faulted(pg)))
  {
  }

  lemma WriteKeeps(v: Vm, s: SuppIdx, pg: PageIdx, off: Offset, x: int)
    requires Inv(v) && Enabled(v, Write(s, pg, off, x))
    ensures Inv(Step(v, Write(s, pg, off, x)))
  {
    Translation(v, s, pg);
    var f := v.PteOf(s, pg).frame;
    var m := Store(v, f, off, x);
    assert Placed(v, s, pg);
  }

  /** Some line other than slot already names page i of s. */
  ghost predicate LineElsewhere(v: Vm, s: SuppIdx, i: PageIdx, slot: Slot) {
    exists k: Slot :: k != slot && Matches(v.tlb[k], i, v.supp[s].asid)
  }

  /** Writing the entry of page i into a line keeps the invariant exactly if no other line names that page. */
  lemma LineExact(v: Vm, s: SuppIdx, i: PageIdx, slot: Slot)
    requires Inv(v) && v.life[s] == Running
    ensures Inv(v.(tlb := v.tlb[slot := Some(v.PteOf(s, i))])) <==> !LineElsewhere(v, s, i, slot)
  {
    var e := v.supp[s].pgTbl[i];
    assert e.page == i && e.asid == v.supp[s].asid;
    if LineElsewhere(v, s, i, slot) {
      var k: Slot :| k != slot && Matches(v.tlb[k], i, v.supp[s].asid);
      Twins(v.tlb, e, slot, k);
    } else {
      assert forall k: Slot :: k != slot && v.tlb[k].Some? ==> !SamePage(v.tlb[k].value, e) by {
        forall k: Slot | k != slot && v.tlb[k].Some? ensures !SamePage(v.tlb[k].value, e) {
          assert !Matches(v.tlb[k], i, v.supp[s].asid);
        }
      }
      NewLine(v.tlb, e, slot);
      LineKeeps(v, s, i, slot);
    }
  }

  lemma Twins(tlb: Tlb, e: Pte, slot: Slot, k: Slot)
    requires k != slot && Matches(tlb[k], e.page, e.asid)
    ensures !NoTwins(tlb[slot := Some(e)])
  {
    var lines := tlb[slot := Some(e)];
    assert lines[k].Some? && lines[slot].Some? && SamePage(lines[k].value, lines[slot].value);
  }

  lemma LineKeeps(v: Vm, s: SuppIdx, i: PageIdx, slot: Slot)
    requires Inv(v) && v.life[s] == Running && NoTwins(v.tlb[slot := Some(v.supp[s].pgTbl[i])])
    ensures Inv(v.(tlb := v.tlb[slot := Some(v.supp[s].pgTbl[i])]))
  {
    if v.supp[s].pgTbl[i].v {
      assert Placed(v, s, i);
    }
  }

  /** A refill keeps the invariant exactly if no other line names the page that its index belongs to. */
  lemma RefillExact(v: Vm, s: SuppIdx, vpn: Vpn, slot: Slot)
    requires Inv(v) && Missed(v, s, vpn) && Index(v, s, vpn) < USERPGTBLSIZE
    ensures Inv(RefillTlb(v, s, vpn, slot)) <==> !LineElsewhere(v, s, Index(v, s, vpn), slot)
  {
    LineExact(v, s, Index(v, s, vpn), slot);
  }

  /** For a miss on a page that has an entry of its own, that is always so. */
  lemma RefillKeeps(v: Vm, s: SuppIdx, vpn: Vpn, slot: Slot)
    requires Inv(v) && Enabled(v, Refill(s, vpn, slot))
    ensures Inv(Step(v, Refill(s, vpn, slot)))
  {
    OwnEntryExact(vpn, v.supp[s].asid);
    RefillExact(v, s, vpn, slot);
  }

  /** For a miss on any other page it is not: the access misses again, and the second refill at the latest
      leaves two lines for the same page. */
  lemma AliasBreaks(v: Vm, s: SuppIdx, vpn: Vpn, slot: Slot, slot': Slot)
    requires Inv(v) && v.life[s] == Running && EntryFor(vpn).None? && Index(v, s, vpn) < USERPGTBLSIZE && slot != slot'
    ensures Missed(v, s, vpn)
    ensures var m := RefillTlb(v, s, vpn, slot); Missed(m, s, vpn) && !Inv(RefillTlb(m, s, vpn, slot'))
  {
    var m := RefillTlb(v, s, vpn, slot);
    var e := v.supp[s].pgTbl[Index(v, s, vpn)];
    assert e.page == Index(v, s, vpn) && e.asid == v.supp[s].asid;
    assert Matches(m.tlb[slot], e.page, e.asid);
    Twins(m.tlb, e, slot', slot);
  }

  /** An access to page 0x8001F is taken for one to the stack page: with the stack page in the TLB, the first
      refill already breaks the invariant. */
  lemma StackAlias(v: Vm, s: SuppIdx, slot: Slot)
    requires Inv(v) && v.life[s] == Running && LineElsewhere(v, s, 31, slot)
    ensures Missed(v, s, 0x8001F) && Index(v, s, 0x8001F) == 31 && !Own(v, s, 0x8001F)
    ensures !Inv(RefillTlb(v, s, 0x8001F, slot))
  {
    IndexOf18Bits(0x8001F, v.supp[s].asid);
    RefillExact(v, s, 0x8001F, slot);
  }

  // ---- pager steps ----

  lemma EnterKeeps(v: Vm, s: SuppIdx)
    requires Inv(v) && Enabled(v, Enter(s))
    ensures Inv(Step(v, Enter(s)))
  {
  }

  lemma ChooseKeeps(v: Vm)
    requires Inv(v) && Enabled(v, DoChoose)
    ensures Inv(Step(v, DoChoose))
  {
  }

  /** Clearing V in the victim's entry and in its TLB line. */
  lemma InvalidateTables(v: Vm, s: SuppIdx, pg: PageIdx, f: FrameIdx)
    requires Inv(v) && v.phase == Chosen(s, pg, f) && Occupied(v.swap[f])
    ensures
      var m := Invalidate(v, s, pg, f);
      FramesOwned(m) && PagesPlaced(m) && Headers(m)
  {
    assert Owned(v, f);
  }

  lemma InvalidateRest(v: Vm, s: SuppIdx, pg: PageIdx, f: FrameIdx)
    requires Inv(v) && v.phase == Chosen(s, pg, f) && Occupied(v.swap[f])
    ensures var m := Invalidate(v, s, pg, f); CleanPages(m) && PhaseOk(m) && Faults(m) && FreeList(m)
  {
    assert Owned(v, f);
  }

  lemma InvalidateLines(v: Vm, s: SuppIdx, pg: PageIdx, f: FrameIdx)
    requires Inv(v) && v.phase == Chosen(s, pg, f) && Occupied(v.swap[f])
    ensures Coherent(Invalidate(v, s, pg, f))
  {
    assert Owned(v, f);
    var r := v.swap[f].pte.value;
    var e := v.supp[r.s].pgTbl[r.i].(v := false);
    RefreshLines(v.tlb, e);
  }

  /** After a refresh with an invalid entry no valid line names its page, and no line is new. */
  lemma RefreshLines(tlb: Tlb, e: Pte)
    requires NoTwins(tlb) && !e.v
    ensures
      var lines := Refresh(tlb, e);
      && NoTwins(lines)
      && (forall k: Slot :: lines[k] == tlb[k] || (lines[k] == Some(e) && tlb[k].Some? && SamePage(tlb[k].value, e)))
      && forall k: Slot :: lines[k].Some? && SamePage(lines[k].value, e) ==> lines[k] == Some(e)
  {
    match Probe(tlb, e.page, e.asid)
    case Some(k) => OnlyLine(tlb, e, k);
    case None =>
  }

  lemma InvalidateFree(v: Vm, s: SuppIdx, pg: PageIdx, f: FrameIdx)
    requires Inv(v) && v.phase == Chosen(s, pg, f) && !Occupied(v.swap[f])
    ensures Inv(Invalidate(v, s, pg, f))
  {
  }

  lemma InvalidateKeeps(v: Vm)
    requires Inv(v) && Enabled(v, DoInvalidate)
    ensures Inv(Step(v, DoInvalidate))
  {
    var f := v.phase.f;
    if Occupied(v.swap[f]) {
      InvalidateTables(v, v.phase.s, v.phase.pg, f);
      InvalidateRest(v, v.phase.s, v.phase.pg, f);
      InvalidateLines(v, v.phase.s, v.phase.pg, f);
    } else {
      InvalidateFree(v, v.phase.s, v.phase.pg, f);
    }
  }

  lemma WriteBackDirty(v: Vm, s: SuppIdx, pg: PageIdx, f: FrameIdx)
    requires Inv(v) && v.phase == Cleared(s, pg, f) && Occupied(v.swap[f])
    ensures Inv(WriteBack(v, s, pg, f))
  {
    assert Owned(v, f);
  }

  lemma WriteBackKeeps(v: Vm)
    requires Inv(v) && Enabled(v, DoWriteBack)
    ensures Inv(Step(v, DoWriteBack))
  {
    if Occupied(v.swap[v.phase.f]) {
      WriteBackDirty(v, v.phase.s, v.phase.pg, v.phase.f);
    }
  }

  lemma ReadKeeps(v: Vm)
    requires Inv(v) && Enabled(v, DoRead)
    ensures Inv(Step(v, DoRead))
  {
  }

  lemma PublishTables(v: Vm, s: SuppIdx, pg: PageIdx, f: FrameIdx, slot: Slot)
    requires Inv(v) && v.phase == Loaded(s, pg, f)
    ensures
      var m := Publish(v, s, pg, f, slot);
      FramesOwned(m) && PagesPlaced(m) && Headers(m) && PhaseOk(m)
  {
  }

  lemma PublishRest(v: Vm, s: SuppIdx, pg: PageIdx, f: FrameIdx, slot: Slot)
    requires Inv(v) && v.phase == Loaded(s, pg, f)
    ensures var m := Publish(v, s, pg, f, slot); CleanPages(m) && Faults(m) && FreeList(m)
  {
  }

  lemma PublishLines(v: Vm, s: SuppIdx, pg: PageIdx, f: FrameIdx, slot: Slot)
    requires Inv(v) && v.phase == Loaded(s, pg, f)
    ensures var m := Publish(v, s, pg, f, slot); NoTwins(m.tlb) && ValidLines(m)
  {
    var m := Publish(v, s, pg, f, slot);
    var e := v.supp[s].pgTbl[pg].(frame := f, v := true);
    InstallLines(v.tlb, e, slot);
    assert Mapped(m, e);
    forall k: Slot | m.tlb[k].Some? && m.tlb[k].value.v ensures Mapped(m, m.tlb[k].value) {
      if m.tlb[k] != Some(e) {
        StillMapped(v, m, s, pg, f, v.tlb[k].value);
      }
    }
  }

  /** A page that was mapped before the publication still is. */
  lemma StillMapped(v: Vm, m: Vm, s: SuppIdx, pg: PageIdx, f: FrameIdx, e: Pte)
    requires Inv(v) && v.phase == Loaded(s, pg, f) && Mapped(v, e) && e.v
    requires m.swap == v.swap[f := m.swap[f]] && m.phase == Idle
    requires m.supp == v.supp[s := v.supp[s].(pgTbl := v.supp[s].pgTbl[pg := m.supp[s].pgTbl[pg]])]
    ensures Mapped(m, e)
  {
    var r := v.swap[e.frame].pte.value;
    assert r != PteRef(s, pg);
  }

  lemma PublishInvalidLines(v: Vm, s: SuppIdx, pg: PageIdx, f: FrameIdx, slot: Slot)
    requires Inv(v) && v.phase == Loaded(s, pg, f)
    ensures InvalidLines(Publish(v, s, pg, f, slot))
  {
    InstallLines(v.tlb, v.supp[s].pgTbl[pg].(frame := f, v := true), slot);
  }

  /** After an install the one line for the page is the new one, and no other line is new. */
  lemma InstallLines(tlb: Tlb, e: Pte, slot: Slot)
    requires NoTwins(tlb)
    ensures
      var lines := Install(tlb, e, slot);
      && NoTwins(lines)
      && (forall k: Slot :: lines[k] == tlb[k] || lines[k] == Some(e))
      && forall k: Slot :: lines[k].Some? && SamePage(lines[k].value, e) ==> lines[k] == Some(e)
  {
    match Probe(tlb, e.page, e.asid)
    case Some(k) => OnlyLine(tlb, e, k);
    case None => NewLine(tlb, e, slot);
  }

  /** Overwriting the line that matches e. */
  lemma OnlyLine(tlb: Tlb, e: Pte, k: Slot)
    requires NoTwins(tlb) && Matches(tlb[k], e.page, e.asid)
    ensures NoTwins(tlb[k := Some(e)])
    ensures forall l: Slot :: l != k && tlb[l].Some? ==> !SamePage(tlb[l].value, e)
  {
    forall l: Slot | l != k && tlb[l].Some? ensures !SamePage(tlb[l].value, e) {
      assert tlb[k].Some? && tlb[l].Some?;
    }
    NewLine(tlb, e, k);
  }

  /** Writing a line for e where no other line matches it. */
  lemma NewLine(tlb: Tlb, e: Pte, slot: Slot)
    requires NoTwins(tlb) && forall l: Slot :: l != slot && tlb[l].Some? ==> !SamePage(tlb[l].value, e)
    ensures NoTwins(tlb[slot := Some(e)])
  {
    var lines := tlb[slot := Some(e)];
    forall k: Slot, l: Slot | lines[k].Some? && lines[l].Some? && SamePage(lines[k].value, lines[l].value)
      ensures k == l
    {
      if k != slot && l != slot {
        assert lines[k] == tlb[k] && lines[l] == tlb[l];
      }
    }
  }

  lemma PublishKeeps(v: Vm, slot: Slot)
    requires Inv(v) && Enabled(v, DoPublish(slot))
    ensures Inv(Step(v, DoPublish(slot)))
  {
    var s, pg, f := v.phase.s, v.phase.pg, v.phase.f;
    PublishTables(v, s, pg, f, slot);
    PublishRest(v, s, pg, f, slot);
    PublishLines(v, s, pg, f, slot);
    PublishInvalidLines(v, s, pg, f, slot);
  }

  // ---- releaseFrames ----

  lemma ReleaseLines(v: Vm, s: SuppIdx, i: FrameIdx)
    requires Inv(v) && v.phase == Releasing(s, i) && v.swap[i].asid == v.supp[s].asid
    ensures Coherent(ReleaseOne(v, s, i))
  {
    assert Owned(v, i);
    var r := v.swap[i].pte.value;
    RefreshLines(v.tlb, v.supp[r.s].pgTbl[r.i].(frame := 0, v := false, d := false));
  }

  lemma ReleaseTables(v: Vm, s: SuppIdx, i: FrameIdx)
    requires Inv(v) && v.phase == Releasing(s, i) && v.swap[i].asid == v.supp[s].asid
    ensures
      var m := ReleaseOne(v, s, i);
      FramesOwned(m) && PagesPlaced(m) && Headers(m) && CleanPages(m) && PhaseOk(m) && Faults(m) && FreeList(m)
  {
    assert Owned(v, i);
  }

  lemma ReleaseSkips(v: Vm, s: SuppIdx, i: FrameIdx)
    requires Inv(v) && v.phase == Releasing(s, i) && v.swap[i].asid != v.supp[s].asid
    ensures Inv(ReleaseOne(v, s, i))
  {
  }

  lemma ReleaseKeeps(v: Vm)
    requires Inv(v) && Enabled(v, DoRelease)
    ensures Inv(Step(v, DoRelease))
  {
    var s, i := v.phase.s, v.phase.i;
    if v.swap[i].asid == v.supp[s].asid {
      ReleaseLines(v, s, i);
      ReleaseTables(v, s, i);
    } else {
      ReleaseSkips(v, s, i);
    }
  }

  /** Once releaseFrames is through, no frame holds a page of s and no valid TLB line names one. */
  lemma AllReleased(v: Vm, s: SuppIdx)
    requires Inv(v) && v.phase == Releasing(s, SWAP_POOL_SIZE)
    ensures forall f: FrameIdx :: Occupied(v.swap[f]) ==> v.swap[f].pte.Some? && v.swap[f].pte.value.s != s
    ensures forall k: Slot :: v.tlb[k].Some? && v.tlb[k].value.asid == v.supp[s].asid ==> !v.tlb[k].value.v
  {
    forall f: FrameIdx | Occupied(v.swap[f]) ensures v.swap[f].pte.Some? && v.swap[f].pte.value.s != s {
      assert Owned(v, f);
    }
    forall k: Slot | v.tlb[k].Some? && v.tlb[k].value.asid == v.supp[s].asid ensures !v.tlb[k].value.v {
      assert Occupied(v.swap[v.tlb[k].value.frame]) ==> Owned(v, v.tlb[k].value.frame);
    }
  }

  // ---- the life of a support structure ----

  lemma DieKeeps(v: Vm, s: SuppIdx)
    requires Inv(v) && v.life[s] == Running
    ensures Inv(v.SetLife(s, Dying))
  {
  }

  lemma EnterReleaseKeeps(v: Vm, s: SuppIdx)
    requires Inv(v) && v.life[s] == Dying && v.phase == Idle
    ensures Inv(v.(phase := Releasing(s, 0)))
  {
  }

  lemma LeaveReleaseKeeps(v: Vm, s: SuppIdx)
    requires Inv(v) && v.phase == Releasing(s, SWAP_POOL_SIZE)
    ensures Inv(v.SetLife(s, Gone).(phase := Idle))
  {
    AllReleased(v, s);
  }

  lemma RecycleKeeps(v: Vm, s: SuppIdx)
    requires Inv(v) && (v.life[s] == Gone || v.life[s] == Starting)
    ensures Inv(Recycle(v, s))
  {
    InsertAtNoDup(v.free, |v.free|, s);
    InsertAtMembers(v.free, |v.free|, s);
    assert InsertAt(v.free, |v.free|, s) == v.free + [s];
  }

  lemma AllocateKeeps(v: Vm)
    requires Inv(v) && v.free != []
    ensures Inv(Allocate(v))
  {
    HeadIsMember(v.free);
    RemoveAtMembers(v.free, 0);
    assert RemoveAt(v.free, 0) == v.free[1..];
    TakenKeeps(v, v.free[0]);
  }

  /** A structure that is not in use concerns only the free list. */
  lemma TakenKeeps(v: Vm, s: SuppIdx)
    requires Inv(v) && v.life[s] == Unused
    ensures
      var m := v.SetLife(s, Starting);
      FramesOwned(m) && PagesPlaced(m) && Headers(m) && Coherent(m) && CleanPages(m) && PhaseOk(m) && Faults(m)
  {
  }

  lemma StartTables(v: Vm, s: SuppIdx, asid: Asid, textPages: nat)
    requires Inv(v) && Enabled(v, DoStart(s, asid, textPages))
    ensures
      var m := Start(v, s, asid, textPages);
      FramesOwned(m) && PagesPlaced(m) && Headers(m) && CleanPages(m)
  {
  }

  lemma StartRest(v: Vm, s: SuppIdx, asid: Asid, textPages: nat)
    requires Inv(v) && Enabled(v, DoStart(s, asid, textPages))
    ensures var m := Start(v, s, asid, textPages); Coherent(m) && PhaseOk(m) && Faults(m) && FreeList(m)
  {
  }

  // ---- all steps ----

  /** Every step of every participant keeps the invariant. */
  lemma StepKeeps(v: Vm, e: Event)
    requires Inv(v) && Enabled(v, e)
    ensures Inv(Step(v, e))
  {
    match e
    case Invalid(s, vpn) => InvalidKeeps(v, s, vpn);
    case Enter(s) => EnterKeeps(v, s);
    case DoChoose => ChooseKeeps(v);
    case DoInvalidate => InvalidateKeeps(v);
    case DoWriteBack => WriteBackKeeps(v);
    case DoRead => ReadKeeps(v);
    case DoPublish(slot) => PublishKeeps(v, slot);
    case Read(_, _, _) =>
    case Write(s, pg, off, x) => WriteKeeps(v, s, pg, off, x);
    case Refill(s, vpn, slot) => RefillKeeps(v, s, vpn, slot);
    case Die(s) => DieKeeps(v, s);
    case EnterRelease(s) => EnterReleaseKeeps(v, s);
    case DoRelease => ReleaseKeeps(v);
    case LeaveRelease => LeaveReleaseKeeps(v, v.phase.s);
    case DoRecycle(s) => RecycleKeeps(v, s);
    case DoAllocate => AllocateKeeps(v);
    case DoStart(s, asid, textPages) => StartTables(v, s, asid, textPages); StartRest(v, s, asid, textPages);
    case Abandon(s) => RecycleKeeps(v, s);
  }
}
