/** Which pages a process can change, over runs of any length: its text pages stay read-only from its start to its
    end and always hold what its flash device held at the start; flash devices change only by write-backs of living
    processes. */
module TextPages {
  import opened Lists
  import opened PageNumbers
  import opened Paging
  import opened PagingInvariant
  import opened FlatMemory

  // ---- the D bit ----

  predicate Starts(e: Event, s: SuppIdx) { e.DoStart? && e.s == s }

  /** Only its start sets the ASID of a process and the D bits of its pages. */
  lemma StepDirty(v: Vm, e: Event, s: SuppIdx, p: PageIdx)
    requires Inv(v) && Enabled(v, e) && !Starts(e, s)
    ensures Step(v, e).PteOf(s, p).d == v.PteOf(s, p).d && Step(v, e).supp[s].asid == v.supp[s].asid
    ensures Alive(Step(v, e).life[s]) ==> Alive(v.life[s])
  {
  }

  /** The last of the first i events that starts a process in s. */
  ghost function LastStart(es: seq<Event>, i: nat, s: SuppIdx): (r: Option<nat>)
    requires i <= |es|
    ensures r.Some? ==> r.value < i && Starts(es[r.value], s) && forall m :: r.value < m < i ==> !Starts(es[m], s)
    ensures r.None? ==> forall m :: 0 <= m < i ==> !Starts(es[m], s)
  {
    if i == 0 then None else if Starts(es[i - 1], s) then Some(i - 1) else LastStart(es, i - 1, s)
  }

  lemma NextState(vs: seq<Vm>, es: seq<Event>, j: nat, i: nat)
    requires Run(vs, es) && i == j + 1 <= |es|
    ensures Enabled(vs[j], es[j]) && vs[i] == Step(vs[j], es[j])
  {
    assert Stepped(vs, es, j);
  }

  lemma BootDead(vs: seq<Vm>, es: seq<Event>, s: SuppIdx)
    requires Run(vs, es)
    ensures !Alive(vs[0].life[s])
  {
  }

  lemma StartDirty(v: Vm, s: SuppIdx, asid: Asid, textPages: nat, p: PageIdx)
    requires Enabled(v, DoStart(s, asid, textPages))
    ensures
      var m := Step(v, DoStart(s, asid, textPages));
      m.supp[s].asid == asid && (m.PteOf(s, p).d <==> !(p < textPages && p < 31))
  {
  }

  /** In every state of every run, a page of a living process has D off exactly if it is one of the text pages with
      which the process was started; nothing the pager does turns it on. */
  lemma {:induction false} DirtyExact(vs: seq<Vm>, es: seq<Event>, i: nat, s: SuppIdx, p: PageIdx)
    requires Run(vs, es) && i <= |es| && Alive(vs[i].life[s])
    ensures
      var start := LastStart(es, i, s);
      && start.Some? && vs[i].supp[s].asid == es[start.value].asid
      && (vs[i].PteOf(s, p).d <==> !(p < es[start.value].textPages && p < 31))
  {
    if i == 0 {
      BootDead(vs, es, s);
    } else {
      var j: nat := i - 1;
      NextState(vs, es, j, i);
      if Starts(es[j], s) {
        StartDirty(vs[j], s, es[j].asid, es[j].textPages, p);
      } else {
        RunInv(vs, es, j);
        StepDirty(vs[j], es[j], s, p);
        DirtyExact(vs, es, j, s, p);
      }
    }
  }

  /** The same of the TLB: a valid line for a page of a living process. */
  lemma LineDirtyExact(vs: seq<Vm>, es: seq<Event>, i: nat, s: SuppIdx, k: Slot)
    requires Run(vs, es) && i <= |es| && Alive(vs[i].life[s])
    requires vs[i].tlb[k].Some? && vs[i].tlb[k].value.v && vs[i].tlb[k].value.asid == vs[i].supp[s].asid
    ensures
      var start, e := LastStart(es, i, s), vs[i].tlb[k].value;
      start.Some? && (e.d <==> !(e.page < es[start.value].textPages && e.page < 31))
  {
    RunInv(vs, es, i);
    CoherentLine(vs[i], k, s);
    DirtyExact(vs, es, i, s, vs[i].tlb[k].value.page);
  }

  /** So no store to a text page is ever translated: it raises a TLB-Modification exception. */
  lemma NoTextStore(vs: seq<Vm>, es: seq<Event>, i: nat, s: SuppIdx, p: PageIdx, off: Offset, x: int)
    requires Run(vs, es) && i <= |es| && Enabled(vs[i], Write(s, p, off, x))
    ensures var start := LastStart(es, i, s); start.Some? && !(p < es[start.value].textPages && p < 31)
  {
    RunInv(vs, es, i);
    Translation(vs[i], s, p);
    DirtyExact(vs, es, i, s, p);
  }

  lemma NextContent(vs: seq<Vm>, es: seq<Event>, j: nat, i: nat, s: SuppIdx, p: PageIdx)
    requires Run(vs, es) && i == j + 1 <= |es| && Trusted(vs[i], s) && !Starts(es[j], s)
    requires LastStart(es, j, s).Some? ==> p < es[LastStart(es, j, s).value].textPages && p < 31
    ensures Trusted(vs[j], s) && Content(vs[i], s, p) == Content(vs[j], s, p)
  {
    NextState(vs, es, j, i);
    RunInv(vs, es, j);
    TrustedBefore(vs[j], es[j], s);
    StepContent(vs[j], es[j], s, p);
    if es[j].Write? {
      NoTextStore(vs, es, j, es[j].s, es[j].pg, es[j].off, es[j].x);
    }
  }

  lemma StartsWith(vs: seq<Vm>, es: seq<Event>, j: nat, i: nat, s: SuppIdx, p: PageIdx)
    requires Run(vs, es) && i == j + 1 <= |es| && Starts(es[j], s)
    ensures Content(vs[i], s, p) == vs[j].Block(es[j].asid, p)
  {
    NextState(vs, es, j, i);
    RunInv(vs, es, j);
    StartContent(vs[j], s, es[j].asid, es[j].textPages, p);
  }

  lemma {:induction false} TextKept(vs: seq<Vm>, es: seq<Event>, i: nat, s: SuppIdx, p: PageIdx)
    requires Run(vs, es) && i <= |es| && Trusted(vs[i], s)
    requires LastStart(es, i, s).Some? ==> p < es[LastStart(es, i, s).value].textPages && p < 31
    ensures
      var start := LastStart(es, i, s);
      start.Some? && Content(vs[i], s, p) == vs[start.value].Block(es[start.value].asid, p)
  {
    if i == 0 {
      BootDead(vs, es, s);
    } else {
      var j: nat := i - 1;
      if Starts(es[j], s) {
        StartsWith(vs, es, j, i, s, p);
      } else {
        NextContent(vs, es, j, i, s, p);
        TextKept(vs, es, j, s, p);
      }
    }
  }

  /** Whatever happens, a text page holds in every state what its block on the flash device held when the process was
      started, and so does the block. */
  lemma TextIsConstant(vs: seq<Vm>, es: seq<Event>, i: nat, s: SuppIdx, p: PageIdx)
    requires Run(vs, es) && i <= |es| && Trusted(vs[i], s)
    requires LastStart(es, i, s).Some? ==> p < es[LastStart(es, i, s).value].textPages && p < 31
    ensures
      var start := LastStart(es, i, s);
      && start.Some? && Content(vs[i], s, p) == vs[start.value].Block(es[start.value].asid, p)
      && vs[i].Block(es[start.value].asid, p) == vs[start.value].Block(es[start.value].asid, p)
  {
    TextKept(vs, es, i, s, p);
    RunInv(vs, es, i);
    DirtyExact(vs, es, i, s, p);
    CleanPage(vs[i], s, p);
  }

  // ---- flash ----

  /** A block changes only when a page with D on of the living process with that ASID is written back, and then it
      takes the contents of that page. */
  lemma StepFlash(v: Vm, e: Event, asid: Asid, i: PageIdx) returns (s: SuppIdx)
    requires Inv(v) && Enabled(v, e)
    ensures
      var m := Step(v, e);
      m.Block(asid, i) == v.Block(asid, i)
      || (e.DoWriteBack? && Alive(v.life[s]) && v.supp[s].asid == asid && v.PteOf(s, i).d
          && m.Block(asid, i) == Content(v, s, i))
  {
    s := 0;
    if e.DoWriteBack? && Occupied(v.swap[v.phase.f]) {
      assert Owned(v, v.phase.f);
      s := v.swap[v.phase.f].pte.value.s;
    }
  }

  /** As long as no living process has an ASID, its flash device does not change. */
  lemma {:induction false} FlashStays(vs: seq<Vm>, es: seq<Event>, i: nat, j: nat, asid: Asid, p: PageIdx)
    requires Run(vs, es) && i <= j <= |es|
    requires forall m, s: SuppIdx :: i <= m < j && Alive(vs[m].life[s]) ==> vs[m].supp[s].asid != asid
    ensures vs[j].Block(asid, p) == vs[i].Block(asid, p)
    decreases j
  {
    if i < j {
      var h: nat := j - 1;
      FlashStays(vs, es, i, h, asid, p);
      NextState(vs, es, h, j);
      RunInv(vs, es, h);
      var s := StepFlash(vs[h], es[h], asid, p);
    }
  }
}
