/** recursiveTermination frees exactly a process and its descendants, whatever its compensating V wakes. */
module Termination {
  import opened Lists
  import opened ListX
  import opened Nucleus
  import opened Invariant

  /** p is a or a descendant of a, read off the parent fields alone. */
  ghost predicate Under(pcb: PcbTable, a: Idx, p: Idx)
    requires Descends(pcb)
    decreases pcb[p].pid
  {
    p == a || (pcb[p].parent.Some? && Under(pcb, a, pcb[p].parent.value))
  }

  ghost function Family(n: Nuc, a: Idx): set<Idx>
    requires Descends(n.pcb)
  {
    set p: Idx | 0 <= p < MAXPROC && p !in n.Free() && Under(n.pcb, a, p)
  }

  /** The running process, as long as it is live: the only PCB the nucleus keeps outside every list. */
  ghost function Held(n: Nuc): set<Idx> {
    if n.current.Some? && n.current.value !in n.Free() then {n.current.value} else {}
  }

  /** The two counters of the nucleus minus what they should count. */
  ghost function ProcessGap(n: Nuc): int { n.processCount - |Live(n)| }
  ghost function SoftGap(n: Nuc): int { n.softBlockCount - |DeviceBlocked(n)| }

  /** A process that is not among those touched keeps every field, except that it may stop waiting. */
  ghost predicate Spared(a: Pcb, b: Pcb) {
    b == a || b == a.(semAdd := None)
  }

  ghost predicate Alike(n: Nuc, m: Nuc, touched: set<Idx>) {
    && (forall q: Idx :: q !in touched ==> Spared(n.pcb[q], m.pcb[q]))
    && m.current == n.current && m.root == n.root && m.cpu == n.cpu && m.mode == n.mode
    && m.start == n.start && m.now == n.now && m.nextPid == n.nextPid
    && ProcessGap(m) == ProcessGap(n) && SoftGap(m) == SoftGap(n)
  }

  /** Exactly the PCBs of gone moved to the free list, and their time accounts were cleared. */
  ghost predicate Freed(n: Nuc, m: Nuc, gone: set<Idx>) {
    && (forall q: Idx :: q in m.Free() <==> q in n.Free() || q in gone)
    && (forall q: Idx :: q in gone ==> m.pcb[q].time == 0)
  }

  lemma AlikeTrans(a: Nuc, b: Nuc, c: Nuc, s: set<Idx>, t: set<Idx>)
    requires Alike(a, b, s) && Alike(b, c, t)
    ensures Alike(a, c, s + t)
  {
  }

  // ---- descendants ----

  lemma UnderPid(pcb: PcbTable, a: Idx, p: Idx)
    requires Descends(pcb) && Under(pcb, a, p)
    ensures pcb[a].pid <= pcb[p].pid
    decreases pcb[p].pid
  {
    if p != a {
      UnderPid(pcb, a, pcb[p].parent.value);
    }
  }

  lemma UnderTrans(pcb: PcbTable, a: Idx, b: Idx, p: Idx)
    requires Descends(pcb) && Under(pcb, a, b) && Under(pcb, b, p)
    ensures Under(pcb, a, p)
    decreases pcb[p].pid
  {
    if p != b {
      UnderTrans(pcb, a, b, pcb[p].parent.value);
    }
  }

  /** Cutting child c off its parent t takes the descendants of c, and nothing else, away from t. */
  lemma CutUnder(pcb: PcbTable, c: Idx, t: Idx, p: Idx)
    requires Descends(pcb) && pcb[c].parent == Some(t)
    ensures
      var cut := pcb[c := pcb[c].(parent := None)];
      && Descends(cut)
      && (Under(cut, c, p) <==> Under(pcb, c, p))
      && (Under(cut, t, p) <==> Under(pcb, t, p) && !Under(pcb, c, p))
    decreases pcb[p].pid
  {
    if p == t && Under(pcb, c, t) {
      UnderPid(pcb, c, t);
    }
    if p != c && pcb[p].parent.Some? {
      CutUnder(pcb, c, t, pcb[p].parent.value);
    }
  }

  /** The descendants of t outside the family of c survive the termination of c with their ancestry. */
  lemma SparedUnder(n: Nuc, m: Nuc, c: Idx, t: Idx, p: Idx)
    requires Descends(n.pcb) && Descends(m.pcb)
    requires forall q: Idx :: n.pcb[q].parent.Some? ==> n.pcb[q].parent.value !in n.Free()
    requires forall q: Idx :: q !in Family(n, c) ==> Spared(n.pcb[q], m.pcb[q])
    requires p !in n.Free() && p !in Family(n, c)
    ensures Under(m.pcb, t, p) <==> Under(n.pcb, t, p)
    decreases n.pcb[p].pid
  {
    if p != t && n.pcb[p].parent.Some? {
      SparedUnder(n, m, c, t, n.pcb[p].parent.value);
    }
  }

  // ---- one process ----

  /** The invariant does not look at the counters, the processor or the clock. */
  lemma CoreFrame(n: Nuc, m: Nuc, orphans: set<Idx>, out: set<Idx>)
    requires Core(n, orphans, out)
    requires m.pcb == n.pcb && m.plist == n.plist && m.psib == n.psib && m.slink == n.slink
    requires m.skey == n.skey && m.nextPid == n.nextPid && m.sem == n.sem
    ensures Core(m, orphans, out)
  {
  }

  lemma KillReady(n: Nuc, t: Idx, orphans: set<Idx>, out: set<Idx>)
    requires Core(n, orphans, out) && t in n.Ready()
    ensures Core(OutReady(n, t), orphans, out + {t})
    ensures t !in out
  {
    OutReadyKeeps(n, t, orphans, out);
    assert t in n.plist[READY];
  }

  /** The last step of Kill: t, already outside the lists, is counted out and freed. */
  lemma KillLast(n: Nuc, t: Idx, orphans: set<Idx>, out: set<Idx>)
    requires Core(n, orphans, out) && t in orphans && t in out && n.psib[t] == []
    ensures Core(FreePcb(n.(processCount := n.processCount - 1), t), orphans - {t}, out - {t})
  {
    CoreFrame(n, n.(processCount := n.processCount - 1), orphans, out);
    FreeKeeps(n.(processCount := n.processCount - 1), t, orphans, out);
  }

  lemma KillUnblocked(n: Nuc, t: Idx, orphans: set<Idx>, out: set<Idx>)
    requires Core(n, orphans, out) && t in orphans && n.psib[t] == [] && out == Held(n)
    requires n.pcb[t].semAdd.None?
    ensures Core(Kill(n, t), orphans - {t}, out - {t})
  {
    assert t in n.Ready() || t in out;
    if n.current == Some(t) {
      KillLast(n, t, orphans, out);
    } else {
      KillReady(n, t, orphans, out);
      KillLast(OutReady(n, t), t, orphans, out + {t});
      assert out + {t} - {t} == out - {t};
    }
  }

  lemma KillBlocked(n: Nuc, t: Idx, orphans: set<Idx>, out: set<Idx>)
    requires Core(n, orphans, out) && t in orphans && n.psib[t] == []
    requires n.pcb[t].semAdd.Some?
    ensures Core(Kill(n, t), orphans - {t}, out - {t})
  {
    var k := n.pcb[t].semAdd.value;
    var o := OutBlocked(n, t);
    OutBlockedKeeps(n, t, orphans, out);
    assert out + {t} - {t} == out - {t};
    if IsDevice(k) {
      CoreFrame(o, Detach(n, t), orphans, out + {t});
    } else {
      VOnSemKeeps(o, k, orphans, out + {t});
    }
    KillLast(Detach(n, t), t, orphans, out + {t});
  }

  lemma OutBlockedKeeps(n: Nuc, t: Idx, orphans: set<Idx>, out: set<Idx>)
    requires Core(n, orphans, out) && n.pcb[t].semAdd.Some?
    ensures Core(OutBlocked(n, t), orphans, out + {t})
    ensures OutBlocked(n, t).pcb == n.pcb[t := n.pcb[t].(semAdd := None)]
    ensures OutBlocked(n, t).Free() == n.Free()
  {
    assert Queued(n.plist, n.Active(), n.skey, t, n.pcb[t].semAdd.value);
    var d := n.Desc(n.pcb[t].semAdd.value).value;
    UnqueueKeeps(n, d, t, [d] + n.FreeDescriptors(), orphans, out);
  }

  /** The processes Kill changes: t, and possibly one w that its compensating V takes off a user queue. */
  ghost predicate KillsAndWakes(n: Nuc, m: Nuc, t: Idx, w: Idx) {
    && (w == t || (n.pcb[w].semAdd.Some? && !IsDevice(n.pcb[w].semAdd.value)))
    && m.pcb == n.pcb[w := n.pcb[w].(semAdd := None)][t := BLANKPCB.(ps := n.pcb[t].ps)]
    && m.Free() == n.Free() + [t]
    && m.processCount == n.processCount - 1
    && m.softBlockCount == n.softBlockCount - (if t in DeviceBlocked(n) then 1 else 0)
    && m.current == n.current && m.root == n.root && m.cpu == n.cpu && m.mode == n.mode
    && m.start == n.start && m.now == n.now && m.nextPid == n.nextPid
  }

  /** The V that Kill performs on a user semaphore k, seen from the state o where t has left its queue. */
  lemma CompensatingV(o: Nuc, k: int, orphans: set<Idx>, out: set<Idx>, t: Idx) returns (w: Idx)
    requires Core(o, orphans, out) && !IsDevice(k) && o.pcb[t].semAdd.None?
    ensures w == t || o.pcb[w].semAdd == Some(k)
    ensures VOnSem(o, k).1.pcb == o.pcb[w := o.pcb[w].(semAdd := None)]
    ensures VOnSem(o, k).1.Free() == o.Free()
  {
    if o.Desc(k).Some? {
      WakeKeeps(o, k, orphans, out);
      w := VOnSem(o, k).0.value;
    } else {
      w := t;
    }
  }

  lemma KillEffect(n: Nuc, t: Idx, orphans: set<Idx>, out: set<Idx>) returns (w: Idx)
    requires Core(n, orphans, out) && t !in n.Free()
    ensures KillsAndWakes(n, Kill(n, t), t, w)
  {
    if n.pcb[t].semAdd.None? {
      w := t;
    } else {
      OutBlockedKeeps(n, t, orphans, out);
      var k, o := n.pcb[t].semAdd.value, OutBlocked(n, t);
      if IsDevice(k) {
        w := t;
      } else {
        w := CompensatingV(o, k, orphans, out + {t}, t);
      }
      EffectOfBlocked(n, o, t, w, k);
    }
  }

  lemma EffectOfBlocked(n: Nuc, o: Nuc, t: Idx, w: Idx, k: int)
    requires o == OutBlocked(n, t) && n.pcb[t].semAdd == Some(k)
    requires o.pcb == n.pcb[t := n.pcb[t].(semAdd := None)] && o.Free() == n.Free()
    requires if IsDevice(k) then w == t else
               && (w == t || o.pcb[w].semAdd == Some(k))
               && VOnSem(o, k).1.pcb == o.pcb[w := o.pcb[w].(semAdd := None)]
               && VOnSem(o, k).1.Free() == o.Free()
    ensures KillsAndWakes(n, Kill(n, t), t, w)
  {
  }

  lemma KillAlike(n: Nuc, m: Nuc, t: Idx, w: Idx)
    requires KillsAndWakes(n, m, t, w) && t !in n.Free()
    ensures Alike(n, m, {t}) && Freed(n, m, {t})
  {
    assert Live(m) == Live(n) - {t} && t in Live(n);
    assert DeviceBlocked(m) == DeviceBlocked(n) - {t};
  }

  lemma KillKeeps(n: Nuc, t: Idx, orphans: set<Idx>, out: set<Idx>)
    requires Core(n, orphans, out) && t in orphans && n.psib[t] == [] && out == Held(n)
    ensures var m := Kill(n, t); Core(m, orphans - {t}, out - {t}) && Alike(n, m, {t}) && Freed(n, m, {t})
  {
    if n.pcb[t].semAdd.Some? {
      KillBlocked(n, t, orphans, out);
    } else {
      KillUnblocked(n, t, orphans, out);
    }
    var w := KillEffect(n, t, orphans, out);
    KillAlike(n, Kill(n, t), t, w);
  }

  // ---- the whole subtree ----

  /** The children lists of processes outside s keep their order and contents. */
  ghost predicate SameFamilies(n: Nuc, m: Nuc, s: set<Idx>) {
    forall q: Idx :: q !in s ==> m.psib[q] == n.psib[q]
  }

  /** What the termination of gone leaves behind. */
  ghost predicate Ended(n: Nuc, m: Nuc, gone: set<Idx>, orphans: set<Idx>) {
    && Core(m, orphans, Held(n) - gone)
    && Held(m) == Held(n) - gone
    && Alike(n, m, gone) && Freed(n, m, gone)
  }

  lemma HeldAfter(n: Nuc, m: Nuc, gone: set<Idx>)
    requires m.current == n.current && Freed(n, m, gone)
    ensures Held(m) == Held(n) - gone
  {
  }

  /** m is n with the first child c of t cut off the tree. */
  ghost predicate Cut(n: Nuc, m: Nuc, c: Idx, t: Idx) {
    && c != t && n.pcb[c].parent == Some(t)
    && m.pcb == n.pcb[c := n.pcb[c].(parent := None)] && m.Free() == n.Free()
    && Alike(n, m, {c}) && SameFamilies(n, m, {t})
  }

  lemma CutChild(n: Nuc, t: Idx, orphans: set<Idx>)
    requires Core(n, orphans, Held(n)) && t in orphans && n.psib[t] != []
    ensures
      var c, m := n.psib[t][0], RemoveChild(n, t);
      Cut(n, m, c, t) && c !in orphans && c !in n.Free() && Held(m) == Held(n) && Core(m, orphans + {c}, Held(m))
  {
    var c := n.psib[t][0];
    HeadIsMember(n.psib[t]);
    assert c in n.psib[t];
    RemoveChildIsOutChild(n, t, orphans);
    OutChildKeeps(n, c, orphans, Held(n));
    CutAlike(n, RemoveChild(n, t), c);
  }

  lemma CutAlike(n: Nuc, m: Nuc, c: Idx)
    requires m == n.(pcb := n.pcb[c := n.pcb[c].(parent := None)], psib := m.psib)
    ensures Alike(n, m, {c}) && Held(m) == Held(n)
  {
    assert Live(m) == Live(n);
    assert DeviceBlocked(m) == DeviceBlocked(n);
  }

  lemma CutFamilies(n: Nuc, m: Nuc, c: Idx, t: Idx)
    requires Descends(n.pcb) && Cut(n, m, c, t)
    ensures Descends(m.pcb) && Family(m, c) == Family(n, c) && Family(m, t) == Family(n, t) - Family(n, c)
    ensures Family(n, c) <= Family(n, t) && t !in Family(n, c)
  {
    forall p: Idx
      ensures Descends(m.pcb)
      ensures Under(m.pcb, c, p) <==> Under(n.pcb, c, p)
      ensures Under(m.pcb, t, p) <==> Under(n.pcb, t, p) && !Under(n.pcb, c, p)
      ensures Under(n.pcb, c, p) ==> Under(n.pcb, t, p)
    {
      CutUnder(n.pcb, c, t, p);
      assert Under(n.pcb, t, t);
      if Under(n.pcb, c, p) {
        UnderTrans(n.pcb, t, c, p);
      }
    }
    if Under(n.pcb, c, t) {
      UnderPid(n.pcb, c, t);
    }
  }

  ghost predicate LiveParents(n: Nuc) {
    Descends(n.pcb) && forall q: Idx :: n.pcb[q].parent.Some? ==> n.pcb[q].parent.value !in n.Free()
  }

  lemma ParentsLive(n: Nuc, orphans: set<Idx>, out: set<Idx>)
    requires Core(n, orphans, out)
    ensures LiveParents(n)
  {
  }

  /** After the family of c is gone, t keeps the rest of its own. */
  lemma FamilyAfter(n: Nuc, m: Nuc, c: Idx, t: Idx)
    requires LiveParents(n) && LiveParents(m) && Alike(n, m, Family(n, c)) && Freed(n, m, Family(n, c))
    requires Family(n, c) !! Family(n, t)
    ensures Family(m, t) == Family(n, t)
  {
    forall p: Idx | p !in n.Free() && p !in Family(n, c)
      ensures Under(m.pcb, t, p) <==> Under(n.pcb, t, p)
    {
      SparedUnder(n, m, c, t, p);
    }
  }

  lemma AlikeStages(n: Nuc, a: Nuc, b: Nuc, m: Nuc, c: Idx, f: set<Idx>, g: set<Idx>)
    requires Alike(n, a, {c}) && Alike(a, b, f) && Alike(b, m, g) && c in f
    ensures Alike(n, m, f + g)
  {
    AlikeTrans(n, a, b, {c}, f);
    assert {c} + f == f;
    AlikeTrans(n, b, m, f, g);
  }

  lemma FreedStages(n: Nuc, a: Nuc, b: Nuc, m: Nuc, f: set<Idx>, g: set<Idx>)
    requires a.Free() == n.Free() && Freed(a, b, f) && Freed(b, m, g) && Alike(b, m, g)
    ensures Freed(n, m, f + g)
  {
  }

  /** Joins three stages: cutting c off, ending its family f, ending a further set g. */
  lemma Stages(n: Nuc, a: Nuc, b: Nuc, m: Nuc, c: Idx, t: Idx, f: set<Idx>, g: set<Idx>, orphans: set<Idx>)
    requires Cut(n, a, c, t) && Held(a) == Held(n) && Ended(a, b, f, orphans) && Ended(b, m, g, orphans) && c in f
    ensures Ended(n, m, f + g, orphans)
  {
    AlikeStages(n, a, b, m, c, f, g);
    FreedStages(n, a, b, m, f, g);
    assert Held(b) - g == Held(n) - (f + g);
  }

  lemma FamiliesStages(n: Nuc, a: Nuc, b: Nuc, m: Nuc, t: Idx, f: set<Idx>, g: set<Idx>)
    requires SameFamilies(n, a, {t}) && SameFamilies(a, b, f) && SameFamilies(b, m, g) && t in g
    ensures SameFamilies(n, m, f + g)
  {
  }

  /** One turn of the loop over the children of t: c is cut off and ended, then the loop goes on. */
  lemma ChildrenStep(n: Nuc, a: Nuc, b: Nuc, m: Nuc, c: Idx, t: Idx, orphans: set<Idx>)
    requires LiveParents(n) && LiveParents(a) && LiveParents(b) && c !in n.Free() && t !in n.Free()
    requires Cut(n, a, c, t) && Held(a) == Held(n)
    requires Ended(a, b, Family(a, c), orphans) && SameFamilies(a, b, Family(a, c))
    requires Ended(b, m, Family(b, t) - {t}, orphans) && SameFamilies(b, m, Family(b, t))
    ensures Ended(n, m, Family(n, t) - {t}, orphans) && SameFamilies(n, m, Family(n, t))
  {
    CutFamilies(n, a, c, t);
    OwnFamily(n, c, t);
    FamilyAfter(a, b, c, t);
    var f, g := Family(n, c), Family(b, t);
    Stages(n, a, b, m, c, t, f, g - {t}, orphans);
    FamiliesStages(n, a, b, m, t, f, g);
    assert f + (g - {t}) == Family(n, t) - {t};
    assert f + g == Family(n, t);
  }

  lemma {:induction false} KillChildrenExact(n: Nuc, t: Idx, orphans: set<Idx>)
    requires Core(n, orphans, Held(n)) && t in orphans
    ensures LiveParents(n)
    ensures Ended(n, KillChildren(n, t), Family(n, t) - {t}, orphans)
    ensures SameFamilies(n, KillChildren(n, t), Family(n, t))
    decreases Links(n.psib), 0
  {
    ParentsLive(n, orphans, Held(n));
    if n.psib[t] == [] {
      LeafStage(n, t, orphans);
    } else {
      var c, a := n.psib[t][0], RemoveChild(n, t);
      CutChild(n, t, orphans);
      assert orphans + {c} - {c} == orphans;
      RecursiveTerminationExact(a, c, orphans + {c});
      var b := RecursiveTermination(a, c);
      KillChildrenExact(b, t, orphans);
      ChildrenStep(n, a, b, KillChildren(b, t), c, t, orphans);
    }
  }

  lemma OwnFamily(n: Nuc, c: Idx, t: Idx)
    requires LiveParents(n) && n.pcb[c].parent == Some(t)
    requires c !in n.Free()
    ensures c in Family(n, c) && t in Family(n, t)
  {
  }

  lemma {:induction false} KillChildrenEmpties(n: Nuc, t: Idx)
    ensures KillChildren(n, t).psib[t] == []
    decreases Links(n.psib)
  {
    if n.psib[t] != [] {
      KillChildrenEmpties(RecursiveTermination(RemoveChild(n, t), n.psib[t][0]), t);
    }
  }

  lemma LeafStage(n: Nuc, t: Idx, orphans: set<Idx>)
    requires Core(n, orphans, Held(n)) && t in orphans && n.psib[t] == []
    ensures LiveParents(n) && Ended(n, n, Family(n, t) - {t}, orphans) && SameFamilies(n, n, Family(n, t))
  {
    LeafFamily(n, t, orphans);
    assert Held(n) - {} == Held(n);
  }

  lemma LeafFamily(n: Nuc, t: Idx, orphans: set<Idx>)
    requires Core(n, orphans, Held(n)) && t in orphans && n.psib[t] == []
    ensures LiveParents(n) && Family(n, t) == {t} && Family(n, t) - {t} == {}
  {
    forall p: Idx | Under(n.pcb, t, p) ensures p == t {
      LeafUnder(n, t, p);
    }
  }

  lemma LeafUnder(n: Nuc, t: Idx, p: Idx)
    requires Kin(n.pcb, n.psib) && Descends(n.pcb) && n.psib[t] == [] && Under(n.pcb, t, p)
    ensures p == t
    decreases n.pcb[p].pid
  {
    assert p !in n.psib[t];
    if p != t {
      LeafUnder(n, t, n.pcb[p].parent.value);
    }
  }

  /** The last stage: t itself. */
  lemma LastStage(n: Nuc, a: Nuc, t: Idx, f: set<Idx>, orphans: set<Idx>)
    requires Ended(n, a, f, orphans) && t in orphans && a.psib[t] == []
    ensures Ended(n, Kill(a, t), f + {t}, orphans - {t})
  {
    var m := Kill(a, t);
    KillKeeps(a, t, orphans, Held(a));
    HeldAfter(a, m, {t});
    AlikeTrans(n, a, m, f, {t});
    assert Held(n) - f - {t} == Held(n) - (f + {t});
  }

  /** The theorem: recursiveTermination(t) frees t and its descendants, and nothing else; every other
      process keeps all its fields and children, but for waits that a compensating V ended; the counters
      stay as exact as they were; t is no orphan any more. */
  lemma {:induction false} RecursiveTerminationExact(n: Nuc, t: Idx, orphans: set<Idx>)
    requires Core(n, orphans, Held(n)) && t in orphans
    ensures LiveParents(n)
    ensures Ended(n, RecursiveTermination(n, t), Family(n, t), orphans - {t})
    ensures SameFamilies(n, RecursiveTermination(n, t), Family(n, t))
    decreases Links(n.psib), 1
  {
    KillChildrenExact(n, t, orphans);
    KillChildrenEmpties(n, t);
    var a := KillChildren(n, t);
    WithSelf(n, t);
    LastStage(n, a, t, Family(n, t) - {t}, orphans);
    LastFamilies(n, a, t, Family(n, t));
  }

  lemma WithSelf(n: Nuc, t: Idx)
    requires LiveParents(n) && t !in n.Free()
    ensures t in Family(n, t) && Family(n, t) - {t} + {t} == Family(n, t)
  {
  }

  lemma LastFamilies(n: Nuc, a: Nuc, t: Idx, f: set<Idx>)
    requires SameFamilies(n, a, f) && t in f
    ensures SameFamilies(n, Kill(a, t), f)
  {
  }

  /** The invariant half of the two theorems above. */
  lemma ChildrenCore(n: Nuc, t: Idx, orphans: set<Idx>)
    requires Core(n, orphans, Held(n)) && t in orphans
    ensures var m := KillChildren(n, t); Core(m, orphans, Held(m)) && m.psib[t] == []
  {
    KillChildrenExact(n, t, orphans);
    KillChildrenEmpties(n, t);
  }

  lemma ChildCore(n: Nuc, t: Idx, orphans: set<Idx>)
    requires Core(n, orphans, Held(n)) && t in orphans && n.psib[t] != []
    ensures
      var c, a := n.psib[t][0], RemoveChild(n, t);
      var b := RecursiveTermination(a, c);
      Core(a, orphans + {c}, Held(a)) && Core(b, orphans, Held(b))
  {
    var c, a := n.psib[t][0], RemoveChild(n, t);
    CutChild(n, t, orphans);
    assert orphans + {c} - {c} == orphans;
    TerminationCore(a, c, orphans + {c});
  }

  lemma TerminationCore(n: Nuc, t: Idx, orphans: set<Idx>)
    requires Core(n, orphans, Held(n)) && t in orphans
    ensures var m := RecursiveTermination(n, t); Core(m, orphans - {t}, Held(m))
  {
    RecursiveTerminationExact(n, t, orphans);
  }
}
