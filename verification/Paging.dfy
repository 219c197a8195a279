/** The demand pager (phase3/vmSupport.c, with uTLB_RefillHandler and the support structures of
    phase3/initProc.c): its state, and every atomic step of its code as a function of that state. */
module Paging {
  import opened Lists
  import opened PageNumbers

  /** Number of user processes that can exist at a time, hence of support structures and flash devices; their
      ASIDs fit into the six bits that EntryHI has for them. */
  type AsidCount = n: nat | 1 <= n < ASIDUNIT witness 1
  const UPROCMAX: AsidCount
  const SWAP_POOL_SIZE: Positive := 2 * UPROCMAX
  const TLBSIZE: Positive
  const PAGEWORDS: Positive := 1024
  const NOPROC := -1

  type FrameIdx = f: nat | f < SWAP_POOL_SIZE witness 0
  type SuppIdx = s: nat | s < UPROCMAX witness 0
  type Asid = a: nat | 1 <= a <= UPROCMAX witness 1
  type Slot = k: nat | k < TLBSIZE witness 0
  type Offset = o: nat | o < PAGEWORDS witness 0
  type Page = w: seq<int> | |w| == PAGEWORDS witness seq(PAGEWORDS, _ => 0)

  /** A page table entry or TLB line: EntryHI names a page and an ASID, EntryLO a frame, V and D. */
  datatype Pte = Pte(page: PageIdx, asid: Asid, frame: FrameIdx, v: bool, d: bool)

  /** A pointer to entry i of the page table of support structure s. */
  datatype PteRef = PteRef(s: SuppIdx, i: PageIdx)

  datatype Swap = Swap(asid: int, pageNo: PageIdx, pte: Option<PteRef>)
  const FREEFRAME := Swap(NOPROC, 0, None)

  const BLANKPTE := Pte(0, 1, 0, false, false)
  type PageTable = t: seq<Pte> | |t| == USERPGTBLSIZE witness seq(USERPGTBLSIZE, _ => BLANKPTE)

  datatype Support = Support(asid: Asid, pgTbl: PageTable)

  type SwapTable = t: seq<Swap> | |t| == SWAP_POOL_SIZE witness seq(SWAP_POOL_SIZE, _ => FREEFRAME)
  const ZEROPAGE: Page := seq(PAGEWORDS, _ => 0)
  type Ram = r: seq<Page> | |r| == SWAP_POOL_SIZE witness seq(SWAP_POOL_SIZE, _ => ZEROPAGE)
  type Supports = t: seq<Support> | |t| == UPROCMAX 
    witness seq(UPROCMAX, _ => Support(1, seq(USERPGTBLSIZE, _ => BLANKPTE)))
  type Tlb = t: seq<Option<Pte>> | |t| == TLBSIZE witness seq(TLBSIZE, _ => None)
  /** The blocks of one flash device. */
  type Blocks = b: seq<Page> | |b| == USERPGTBLSIZE witness seq(USERPGTBLSIZE, _ => ZEROPAGE)
  const ZEROBLOCKS: Blocks := seq(USERPGTBLSIZE, _ => ZEROPAGE)
  type Flash = d: seq<Blocks> | |d| == UPROCMAX witness seq<Blocks>(UPROCMAX, _ => ZEROBLOCKS)

  /** The use a support structure is put to, and what the U-proc that owns it is doing. */
  datatype Life =
    | Unused              // on supportFree_h
    | Starting            // allocated, its page table not yet initialised
    | Running             // the U-proc executes user code, or a system call of the support level
    | Faulted(pg: PageIdx) // a TLB-Invalid exception on page pg is being handled
    | Dying               // in terminate, its frames not yet all released
    | Gone                // in terminate, past releaseFrames
  type Lives = l: seq<Life> | |l| == UPROCMAX witness seq(UPROCMAX, _ => Unused)

  /** What the holder of swapPoolSemaphore has done so far; Idle if nobody holds it. */
  datatype Phase =
    | Idle
    | Entered(s: SuppIdx, pg: PageIdx)
    | Chosen(s: SuppIdx, pg: PageIdx, f: FrameIdx)   // replacementAlgorithm returned f
    | Cleared(s: SuppIdx, pg: PageIdx, f: FrameIdx)  // the page that occupied f, if any, is invalid
    | Saved(s: SuppIdx, pg: PageIdx, f: FrameIdx)    // and has been written back if it could be dirty
    | Loaded(s: SuppIdx, pg: PageIdx, f: FrameIdx)   // f holds the block read from flash
    | Releasing(s: SuppIdx, i: nat)                  // releaseFrames has done frames 0..i-1

  datatype Vm = Vm(swap: SwapTable, nextFrame: FrameIdx, ram: Ram, flash: Flash, supp: Supports, life: Lives,
                   free: seq<SuppIdx>, tlb: Tlb, phase: Phase)
  {
    function PteOf(s: SuppIdx, i: PageIdx): Pte { supp[s].pgTbl[i] }
    function Block(asid: Asid, i: PageIdx): Page { flash[asid - 1][i] }

    function SetPte(s: SuppIdx, i: PageIdx, e: Pte): Vm {
      this.(supp := supp[s := supp[s].(pgTbl := supp[s].pgTbl[i := e])])
    }
    function SetLife(s: SuppIdx, l: Life): Vm { this.(life := life[s := l]) }
  }

  predicate Occupied(w: Swap) { w.asid != NOPROC }

  // ---- TLB ----

  predicate Matches(line: Option<Pte>, page: PageIdx, asid: Asid) {
    line.Some? && line.value.page == page && line.value.asid == asid
  }

  /** TLBP from line k on. */
  function ProbeFrom(tlb: Tlb, page: PageIdx, asid: Asid, k: nat): (r: Option<Slot>)
    requires k <= TLBSIZE
    ensures r.Some? ==> k <= r.value && Matches(tlb[r.value], page, asid)
    ensures r.None? ==> forall j: Slot :: k <= j ==> !Matches(tlb[j], page, asid)
    decreases TLBSIZE - k
  {
    if k == TLBSIZE then None
    else if Matches(tlb[k], page, asid) then Some(k)
    else ProbeFrom(tlb, page, asid, k + 1)
  }

  function Probe(tlb: Tlb, page: PageIdx, asid: Asid): (r: Option<Slot>)
    ensures r.Some? ==> Matches(tlb[r.value], page, asid)
    ensures r.None? ==> forall j: Slot :: !Matches(tlb[j], page, asid)
  {
    ProbeFrom(tlb, page, asid, 0)
  }

  /** Probe for the page of e and, if it is there, TLBWI with e. */
  function Refresh(tlb: Tlb, e: Pte): Tlb {
    match Probe(tlb, e.page, e.asid)
    case Some(k) => tlb[k := Some(e)]
    case None => tlb
  }

  /** Probe for the page of e; TLBWI if it is there, else TLBWR into a line the hardware picks. */
  function Install(tlb: Tlb, e: Pte, slot: Slot): Tlb {
    match Probe(tlb, e.page, e.asid)
    case Some(k) => tlb[k := Some(e)]
    case None => tlb[slot := Some(e)]
  }

  // ---- page replacement ----

  /** The first free frame from f on. */
  function FirstFree(swap: SwapTable, f: nat): (r: Option<FrameIdx>)
    requires f <= SWAP_POOL_SIZE
    ensures r.Some? ==> f <= r.value && !Occupied(swap[r.value])
    ensures r.Some? ==> forall g: FrameIdx :: f <= g < r.value ==> Occupied(swap[g])
    ensures r.None? ==> forall g: FrameIdx :: f <= g ==> Occupied(swap[g])
    decreases SWAP_POOL_SIZE - f
  {
    if f == SWAP_POOL_SIZE then None
    else if !Occupied(swap[f]) then Some(f)
    else FirstFree(swap, f + 1)
  }

  /** replacementAlgorithm: the frame chosen and the new next_frame. */
  function Replacement(swap: SwapTable, nextFrame: FrameIdx): (FrameIdx, FrameIdx) {
    match FirstFree(swap, 0)
    case Some(f) => (f, nextFrame)
    case None => (nextFrame, (nextFrame + 1) % SWAP_POOL_SIZE)
  }

  // ---- the steps of TLBPagerHandler ----

  function Choose(v: Vm, s: SuppIdx, pg: PageIdx): Vm {
    var (f, next) := Replacement(v.swap, v.nextFrame);
    v.(nextFrame := next, phase := Chosen(s, pg, f))
  }

  /** With interrupts off: V is cleared in the victim's page table entry and in its TLB line. */
  function Invalidate(v: Vm, s: SuppIdx, pg: PageIdx, f: FrameIdx): Vm {
    if Occupied(v.swap[f]) && v.swap[f].pte.Some? then
      var r := v.swap[f].pte.value;
      var e := v.PteOf(r.s, r.i).(v := false);
      v.SetPte(r.s, r.i, e).(tlb := Refresh(v.tlb, e), phase := Cleared(s, pg, f))
    else v.(phase := Cleared(s, pg, f))
  }

  /** A page with D set is written to the block of its page number on the flash device of its ASID. */
  function WriteBack(v: Vm, s: SuppIdx, pg: PageIdx, f: FrameIdx): Vm {
    var w := v.swap[f];
    if Occupied(w) && w.pte.Some? && v.PteOf(w.pte.value.s, w.pte.value.i).d && 1 <= w.asid <= UPROCMAX then
      v.(flash := v.flash[w.asid - 1 := v.flash[w.asid - 1][w.pageNo := v.ram[f]]], phase := Saved(s, pg, f))
    else v.(phase := Saved(s, pg, f))
  }

  function ReadIn(v: Vm, s: SuppIdx, pg: PageIdx, f: FrameIdx): Vm {
    v.(ram := v.ram[f := v.Block(v.supp[s].asid, pg)], phase := Loaded(s, pg, f))
  }

  /** With interrupts off: swap table, page table and TLB learn where the page is; the mutex is released. */
  function Publish(v: Vm, s: SuppIdx, pg: PageIdx, f: FrameIdx, slot: Slot): Vm {
    var e := v.PteOf(s, pg).(frame := f, v := true);
    v.SetPte(s, pg, e).SetLife(s, Running)
     .(swap := v.swap[f := Swap(v.supp[s].asid, pg, Some(PteRef(s, pg)))], tlb := Install(v.tlb, e, slot),
       phase := Idle)
  }

  // ---- releaseFrames ----

  /** One turn of the loop of releaseFrames. */
  function ReleaseOne(v: Vm, s: SuppIdx, i: FrameIdx): Vm {
    var w := v.swap[i];
    if w.asid == v.supp[s].asid && w.pte.Some? then
      var e := v.PteOf(w.pte.value.s, w.pte.value.i);
      v.(tlb := Refresh(v.tlb, e.(frame := 0, v := false, d := false)), swap := v.swap[i := FREEFRAME],
         phase := Releasing(s, i + 1))
    else v.(phase := Releasing(s, i + 1))
  }

  // ---- support structures ----

  function Allocate(v: Vm): Vm
    requires v.free != []
  {
    v.SetLife(v.free[0], Starting).(free := v.free[1..])
  }

  /** initPageTable: nothing is in memory, and the text pages, but for the stack page, are read-only. */
  function InitialTable(asid: Asid, textPages: nat): PageTable {
    seq(USERPGTBLSIZE, i requires 0 <= i < USERPGTBLSIZE => Pte(i, asid, 0, false, !(i < textPages && i < 31)))
  }

  function Start(v: Vm, s: SuppIdx, asid: Asid, textPages: nat): Vm {
    v.SetLife(s, Running).(supp := v.supp[s := Support(asid, InitialTable(asid, textPages))])
  }

  function Recycle(v: Vm, s: SuppIdx): Vm {
    v.SetLife(s, Unused).(free := v.free + [s])
  }

  // ---- the machine ----

  /** A step of the pager, of releaseFrames, of the refill handler, of a user process, or of the life of a
      support structure. */
  datatype Event =
    | Invalid(s: SuppIdx, vpn: Vpn)                 // an access to page vpn finds a TLB line with V off
    | Enter(s: SuppIdx)                             // the pager gets past the P on swapPoolSemaphore
    | DoChoose | DoInvalidate | DoWriteBack | DoRead
    | DoPublish(slot: Slot)
    | Read(s: SuppIdx, pg: PageIdx, off: Offset)    // a user load that the TLB translates
    | Write(s: SuppIdx, pg: PageIdx, off: Offset, x: int)
    | Refill(s: SuppIdx, vpn: Vpn, slot: Slot)      // uTLB_RefillHandler, after a miss on page vpn
    | Die(s: SuppIdx)                               // terminate is called, by SYS2 or a program trap
    | EnterRelease(s: SuppIdx)
    | DoRelease
    | LeaveRelease
    | DoRecycle(s: SuppIdx)
    | DoAllocate
    | DoStart(s: SuppIdx, asid: Asid, textPages: nat)
    | Abandon(s: SuppIdx)                           // CREATEPROCESS failed

  /** The line that translates page pg of the process of s. */
  function LineFor(v: Vm, s: SuppIdx, pg: PageIdx): Option<Pte> {
    match Probe(v.tlb, pg, v.supp[s].asid)
    case Some(k) => v.tlb[k]
    case None => None
  }

  /** What the TLB has for an access to page vpn: lines only name pages that have a page table entry. */
  function LineAt(v: Vm, s: SuppIdx, vpn: Vpn): Option<Pte> {
    match EntryFor(vpn)
    case Some(i) => LineFor(v, s, i)
    case None => None
  }

  /** The index that the handlers compute for an access of s to page vpn. */
  function Index(v: Vm, s: SuppIdx, vpn: Vpn): nat {
    PageIndex(EntryHi(vpn, v.supp[s].asid))
  }

  predicate Alive(l: Life) { l.Running? || l.Faulted? || l.Dying? }

  /** A running process misses the TLB with an access to page vpn. */
  predicate Missed(v: Vm, s: SuppIdx, vpn: Vpn) {
    v.life[s] == Running && LineAt(v, s, vpn) == None
  }

  /** The entry that the handlers find for page vpn is that page's own. */
  predicate Own(v: Vm, s: SuppIdx, vpn: Vpn) {
    Index(v, s, vpn) < USERPGTBLSIZE && VpnOf(Index(v, s, vpn)) == vpn
  }

  /** uTLB_RefillHandler, whatever page its index belongs to. */
  function RefillTlb(v: Vm, s: SuppIdx, vpn: Vpn, slot: Slot): Vm
    requires Index(v, s, vpn) < USERPGTBLSIZE
  {
    v.(tlb := v.tlb[slot := Some(v.PteOf(s, Index(v, s, vpn)))])
  }

  /** When an event can happen. A miss is on a page that has a page table entry, and a user process with the
      ASID of a living one is never started. */
  predicate Enabled(v: Vm, e: Event) {
    match e
    case Invalid(s, vpn) =>
      v.life[s] == Running && var l := LineAt(v, s, vpn); l.Some? && !l.value.v
    case Enter(s) => v.life[s].Faulted? && v.phase == Idle
    case DoChoose => v.phase.Entered?
    case DoInvalidate => v.phase.Chosen?
    case DoWriteBack => v.phase.Cleared?
    case DoRead => v.phase.Saved?
    case DoPublish(_) => v.phase.Loaded?
    case Read(s, pg, _) => v.life[s] == Running && var l := LineFor(v, s, pg); l.Some? && l.value.v
    case Write(s, pg, _, _) =>
      v.life[s] == Running && var l := LineFor(v, s, pg); l.Some? && l.value.v && l.value.d
    case Refill(s, vpn, _) => Missed(v, s, vpn) && Own(v, s, vpn)
    case Die(s) => v.life[s] == Running
    case EnterRelease(s) => v.life[s] == Dying && v.phase == Idle
    case DoRelease => v.phase.Releasing? && v.phase.i < SWAP_POOL_SIZE
    case LeaveRelease => v.phase.Releasing? && v.phase.i == SWAP_POOL_SIZE
    case DoRecycle(s) => v.life[s] == Gone
    case DoAllocate => v.free != []
    case DoStart(s, asid, _) =>
      v.life[s] == Starting && forall t: SuppIdx :: Alive(v.life[t]) ==> v.supp[t].asid != asid
    case Abandon(s) => v.life[s] == Starting
  }

  /** What a user load returns. */
  function Loads(v: Vm, s: SuppIdx, pg: PageIdx, off: Offset): int
    requires Enabled(v, Read(s, pg, off))
  {
    v.ram[LineFor(v, s, pg).value.frame][off]
  }

  function Store(v: Vm, f: FrameIdx, off: Offset, x: int): Vm {
    v.(ram := v.ram[f := v.ram[f][off := x]])
  }

  function Step(v: Vm, e: Event): Vm
    requires Enabled(v, e)
  {
    match e
    case Invalid(s, vpn) =>
      OwnEntryExact(vpn, v.supp[s].asid);
      v.SetLife(s, Faulted(Index(v, s, vpn)))
    case Enter(s) => v.(phase := Entered(s, v.life[s].pg))
    case DoChoose => Choose(v, v.phase.s, v.phase.pg)
    case DoInvalidate => Invalidate(v, v.phase.s, v.phase.pg, v.phase.f)
    case DoWriteBack => WriteBack(v, v.phase.s, v.phase.pg, v.phase.f)
    case DoRead => ReadIn(v, v.phase.s, v.phase.pg, v.phase.f)
    case DoPublish(slot) => Publish(v, v.phase.s, v.phase.pg, v.phase.f, slot)
    case Read(_, _, _) => v
    case Write(s, pg, off, x) => Store(v, LineFor(v, s, pg).value.frame, off, x)
    case Refill(s, vpn, slot) => RefillTlb(v, s, vpn, slot)
    case Die(s) => v.SetLife(s, Dying)
    case EnterRelease(s) => v.(phase := Releasing(s, 0))
    case DoRelease => ReleaseOne(v, v.phase.s, v.phase.i)
    case LeaveRelease => v.SetLife(v.phase.s, Gone).(phase := Idle)
    case DoRecycle(s) => Recycle(v, s)
    case DoAllocate => Allocate(v)
    case DoStart(s, asid, textPages) => Start(v, s, asid, textPages)
    case Abandon(s) => Recycle(v, s)
  }

  /** initSwapStructs and initSupportFreeList: no frame is in use and every support structure is free. The
      flash devices and the memory of frames hold anything; no TLB line matches a user page yet. */
  function Boot(ram: Ram, flash: Flash, supp: Supports): Vm {
    Vm(seq(SWAP_POOL_SIZE, _ => FREEFRAME), 0, ram, flash, supp, seq(UPROCMAX, _ => Unused),
       seq(UPROCMAX, i requires 0 <= i < UPROCMAX => i as SuppIdx), seq(TLBSIZE, _ => None), Idle)
  }
}
