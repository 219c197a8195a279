/** Virtual page numbers: how a page table entry names its page (initPageTable in phase3/initProc.c) and how a
    faulting address is turned back into an index (TLBPagerHandler and uTLB_RefillHandler). */
module PageNumbers {
  import opened Lists

  const USERPGTBLSIZE: Positive := 32
  type PageIdx = p: nat | p < USERPGTBLSIZE witness 0

  const PAGESIZE := 4096
  const ASIDUNIT := 64           // 1 << ASIDSHIFT
  const KUSEGPAGES := 0x80000    // number of the first page of kuseg
  const STACKPAGE := 0xBFFFF
  const VPNMASK := 0x40000       // GETPAGENO keeps 18 bits of the page number

  /** The number of a page that a user access can name: kuseg is the upper half of the address space. */
  type Vpn = n: nat | KUSEGPAGES <= n < 0x100000 witness KUSEGPAGES

  /** The virtual page number of entry i, and its EntryHI. */
  function VpnOf(i: PageIdx): Vpn { if i < 31 then KUSEGPAGES + i else STACKPAGE }

  function EntryHi(vpn: Vpn, asid: nat): nat { vpn * PAGESIZE + asid * ASIDUNIT }

  /** ENTRYHI_GET_VPN. */
  function GetVpn(entryHi: nat): nat { entryHi / PAGESIZE % VPNMASK }

  /** The index that the pager and the refill handler compute. */
  function PageIndex(entryHi: nat): nat {
    var vpn := GetVpn(entryHi);
    if vpn == 0x3FFFF then 31 else vpn
  }

  /** The entry for page vpn, if the page table has one. */
  function EntryFor(vpn: Vpn): (r: Option<PageIdx>)
    ensures r.Some? ==> VpnOf(r.value) == vpn
    ensures r.None? ==> forall i: PageIdx :: VpnOf(i) != vpn
  {
    if vpn < KUSEGPAGES + 31 then Some(vpn - KUSEGPAGES) else if vpn == STACKPAGE then Some(31) else None
  }

  lemma IndexOf18Bits(vpn: Vpn, asid: nat)
    requires asid < ASIDUNIT
    ensures GetVpn(EntryHi(vpn, asid)) == if vpn < 0xC0000 then vpn - KUSEGPAGES else vpn - 0xC0000
  {
    assert asid * ASIDUNIT < PAGESIZE;
    assert EntryHi(vpn, asid) / PAGESIZE == vpn;
  }

  /** A fault on the page of an entry leads back to that entry. */
  lemma RoundTrip(i: PageIdx, asid: nat)
    requires asid < ASIDUNIT
    ensures PageIndex(EntryHi(VpnOf(i), asid)) == i
  {
    IndexOf18Bits(VpnOf(i), asid);
  }

  /** EntryHI tells pages and address spaces apart. */
  lemma EntryHiInjective(i: PageIdx, a: nat, j: PageIdx, b: nat)
    requires a < ASIDUNIT && b < ASIDUNIT && EntryHi(VpnOf(i), a) == EntryHi(VpnOf(j), b)
    ensures i == j && a == b
  {
    RoundTrip(i, a);
    RoundTrip(j, b);
  }

  /** Which accesses to kuseg give the handlers an index inside the page table: those to the lowest 32 pages and
      the highest page of either quarter of the address space. */
  lemma IndexExact(vpn: Vpn, asid: nat)
    requires asid < ASIDUNIT
    ensures PageIndex(EntryHi(vpn, asid)) < USERPGTBLSIZE <==>
              KUSEGPAGES <= vpn < KUSEGPAGES + 32 || vpn == STACKPAGE
              || 0xC0000 <= vpn < 0xC0000 + 32 || vpn == 0xFFFFF
  {
    IndexOf18Bits(vpn, asid);
  }

  /** The entry they find there is the page's own exactly for the pages that have an entry; for any other page
      it is another page's. */
  lemma OwnEntryExact(vpn: Vpn, asid: nat)
    requires asid < ASIDUNIT
    ensures
      var i := PageIndex(EntryHi(vpn, asid));
      && (EntryFor(vpn).Some? ==> i == EntryFor(vpn).value)
      && (i < USERPGTBLSIZE ==> (VpnOf(i) == vpn <==> EntryFor(vpn).Some?))
      && (EntryFor(vpn).Some? <==> vpn < KUSEGPAGES + 31 || vpn == STACKPAGE)
  {
    IndexOf18Bits(vpn, asid);
  }

  // ---- stacks of the support level handlers ----

  function TlbStackSP(supportStacksBase: int, asid: int): int { supportStacksBase - (2 * (asid - 1)) * PAGESIZE }
  function GenStackSP(supportStacksBase: int, asid: int): int { supportStacksBase - (2 * (asid - 1) + 1) * PAGESIZE }

  /** The page below a stack pointer. */
  predicate InStack(sp: int, addr: int) { sp - PAGESIZE <= addr < sp }

  /** Every handler of every U-proc has a page of its own, below the base. */
  lemma StacksApart(base: int, a: int, b: int, addr: int)
    requires a >= 1 && b >= 1
    ensures InStack(TlbStackSP(base, a), addr) || InStack(GenStackSP(base, a), addr) ==> addr < base
    ensures !(InStack(TlbStackSP(base, a), addr) && InStack(GenStackSP(base, b), addr))
    ensures InStack(TlbStackSP(base, a), addr) && InStack(TlbStackSP(base, b), addr) ==> a == b
    ensures InStack(GenStackSP(base, a), addr) && InStack(GenStackSP(base, b), addr) ==> a == b
  {
  }
}
