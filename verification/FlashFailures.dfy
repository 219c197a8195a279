/** What the failure paths of TLBPagerHandler do: they release the mutex and terminate the process, and leave
    the swap table entry of the victim in place. */
module FlashFailures {
  import opened Lists
  import opened PageNumbers
  import opened Paging
  import opened PagingInvariant
  import opened FlatMemory

  /** The transfer failed, leaving left in the block being written or the frame being read; V on the mutex
      and programTrapHandler follow. */
  function FailedWrite(v: Vm, left: Page): Vm
    requires v.phase.Cleared?
  {
    var w := v.swap[v.phase.f];
    var m := v.SetLife(v.phase.s, Dying).(phase := Idle);
    if 1 <= w.asid <= UPROCMAX then m.(flash := v.flash[w.asid - 1 := v.flash[w.asid - 1][w.pageNo := left]]) else m
  }

  function FailedRead(v: Vm, left: Page): Vm
    requires v.phase.Saved?
  {
    v.SetLife(v.phase.s, Dying).(phase := Idle, ram := v.ram[v.phase.f := left])
  }

  /** After a failed write of a dirty victim the invariant is broken: its swap table entry names a page that is
      not valid any more. The owner of the page finds there whatever the device has left in the block; nobody
      else's memory has changed. */
  lemma AfterFailedWrite(v: Vm, left: Page, r: PteRef)
    requires Inv(v) && v.phase.Cleared? && Occupied(v.swap[v.phase.f])
    requires v.swap[v.phase.f].pte == Some(r) && v.PteOf(r.s, r.i).d
    ensures
      var m := FailedWrite(v, left);
      && !Inv(m) && Content(m, r.s, r.i) == left
      && forall s: SuppIdx, i: PageIdx :: Alive(v.life[s]) && PteRef(s, i) != r ==> Content(m, s, i) == Content(v, s, i)
  {
    var f := v.phase.f;
    assert Owned(v, f);
    var m := FailedWrite(v, left);
    assert !Owned(m, f);
    forall s: SuppIdx, i: PageIdx | Alive(v.life[s]) && PteRef(s, i) != r ensures Content(m, s, i) == Content(v, s, i) {
      OtherBlock(v, left, r, s, i);
    }
  }

  lemma OtherBlock(v: Vm, left: Page, r: PteRef, s: SuppIdx, i: PageIdx)
    requires Inv(v) && v.phase.Cleared? && Occupied(v.swap[v.phase.f]) && v.swap[v.phase.f].pte == Some(r)
    requires Alive(v.life[s]) && PteRef(s, i) != r
    ensures Content(FailedWrite(v, left), s, i) == Content(v, s, i)
  {
    assert Owned(v, v.phase.f);
    assert v.supp[r.s].asid == v.supp[s].asid ==> r.s == s;
  }

  /** After a failed read the invariant holds exactly if the frame was free when it was chosen; the contents
      of everybody's pages survive in any case. */
  lemma AfterFailedRead(v: Vm, left: Page)
    requires Inv(v) && v.phase.Saved?
    ensures Inv(FailedRead(v, left)) <==> !Occupied(v.swap[v.phase.f])
    ensures forall s: SuppIdx, i: PageIdx :: Alive(v.life[s]) ==> Content(FailedRead(v, left), s, i) == Content(v, s, i)
  {
    var f := v.phase.f;
    var m := FailedRead(v, left);
    if Occupied(v.swap[f]) {
      assert Owned(v, f);
      assert !Owned(m, f);
    } else {
      ReadFailsHarmlessly(v, left);
    }
    forall s: SuppIdx, i: PageIdx | Alive(v.life[s]) ensures Content(m, s, i) == Content(v, s, i) {
      assert v.supp[s].pgTbl[i].v ==> Placed(v, s, i);
    }
  }

  lemma ReadFailsHarmlessly(v: Vm, left: Page)
    requires Inv(v) && v.phase.Saved? && !Occupied(v.swap[v.phase.f])
    ensures Inv(FailedRead(v, left))
  {
  }
}
