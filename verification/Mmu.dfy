/** The Sv32 memory management unit: the page-table walker, the one-entry instruction and data
    TLBs, the permission checks, and the multiplexer that shares the data port with the walker. */
module Mmu {

  // ---------------------------------------------------------------------------- Addresses

  /** A 20-bit page number in two halves, and a virtual address with its page in the same halves. */
  datatype Page = Page(hi: bv10, lo: bv10)

  datatype Address = Address(page: Page, offset: bv12)

  /** The permission bits of a page-table entry. */
  datatype Flags = Flags(valid: bool, read: bool, write: bool, exec: bool, user: bool)

  const NO_FLAGS := Flags(false, false, false, false, false)

  /** A page-table entry; its physical page number has 22 bits. */
  datatype Pte = Pte(top: bv2, hi: bv10, lo: bv10, flags: Flags)

  /** The page tables: the entry at an index of the table in a page. */
  type Tables = (Page, bv10) -> Pte

  /** What a TLB keeps: a physical page and its permissions. */
  datatype Entry = Entry(page: Page, flags: Flags)

  const NO_ENTRY := Entry(Page(0, 0), NO_FLAGS)

  datatype Privilege = User | Supervisor | Machine

  // ---------------------------------------------------------------------------- Registers

  datatype State = Idle | First | Second | Update

  datatype Tlb = Tlb(valid: bool, page: Page, entry: Entry)

  /** The page-table walker. */
  datatype Walker = Walker(state: State, table: Page, index: bv10, entry: Entry, virt: Address, forData: bool)

  /** The walker's read request and the multiplexer of the data port. */
  datatype Port = Port(memReq: bool, hold: bool, holdMmu: bool)

  datatype Regs = Regs(load: bool, store: bv4, lsuAddr: Address, w: Walker, itlb: Tlb, dtlb: Tlb, port: Port)

  /** One clock of inputs: the fetch port, the data port, and the bus behind it. `response` is an
      answer to the walker. */
  datatype In = In(
    fetch: bool, pc: Address, fetchPriv: Privilege, fetchAccept: bool,
    rd: bool, wr: bv4, addr: Address, dataPriv: Privilege, sum: bool, mxr: bool,
    flush: bool, accept: bool, response: bool, error: bool, pte: Pte)

  /** The translation root and whether translation is on. */
  datatype Satp = Satp(enable: bool, root: Page)

  // ---------------------------------------------------------------------------- Signals

  predicate LoadW(s: Regs, i: In) { i.rd || s.load }

  function StoreW(s: Regs, i: In): bv4 { i.wr | s.store }

  predicate Active(s: Regs, i: In) { LoadW(s, i) || StoreW(s, i) != 0 }

  function LsuAddr(s: Regs, i: In): Address { if Active(s, i) then i.addr else s.lsuAddr }

  predicate FetchVm(i: In) { i.fetchPriv != Machine }

  predicate DataVm(satp: Satp, i: In) { satp.enable && i.dataPriv != Machine }

  predicate ItlbHit(s: Regs, i: In) { i.fetch && s.itlb.valid && s.itlb.page == i.pc.page }

  predicate DtlbHit(s: Regs, i: In) { s.dtlb.valid && s.dtlb.page == LsuAddr(s, i).page }

  predicate ItlbMiss(s: Regs, i: In) { i.fetch && FetchVm(i) && !ItlbHit(s, i) }

  predicate DtlbMiss(satp: Satp, s: Regs, i: In) { Active(s, i) && DataVm(satp, i) && !DtlbHit(s, i) }

  /** The address the walker works on; a data miss goes first. */
  function RequestAddr(satp: Satp, s: Regs, i: In): Address {
    if (if s.w.state == Idle then DtlbMiss(satp, s, i) else s.w.forData) then LsuAddr(s, i) else i.pc
  }

  predicate Walk(satp: Satp, s: Regs, i: In) {
    s.w.state == Idle && (ItlbMiss(s, i) || DtlbMiss(satp, s, i))
  }

  /** An entry that points to the next table. */
  predicate Pointer(f: Flags) { !(f.read || f.write || f.exec) }

  predicate Descend(s: Regs, i: In) {
    s.w.state == First && i.response && !i.error && i.pte.flags.valid && Pointer(i.pte.flags)
  }

  // ---------------------------------------------------------------------------- Permissions

  predicate FetchFault(s: Regs, i: In) {
    var f := s.itlb.entry.flags;
    && FetchVm(i) && ItlbHit(s, i)
    && (if i.fetchPriv == Supervisor then f.user || !f.exec else !f.exec || !f.user)
  }

  predicate LoadFault(satp: Satp, s: Regs, i: In) {
    var f := s.dtlb.entry.flags;
    && DataVm(satp, i) && LoadW(s, i) && DtlbHit(s, i)
    && (if i.dataPriv == Supervisor then (f.user && !i.sum) || !(f.read || (i.mxr && f.exec))
        else !f.read || !f.user)
  }

  predicate StoreFault(satp: Satp, s: Regs, i: In) {
    var f := s.dtlb.entry.flags;
    && DataVm(satp, i) && StoreW(s, i) != 0 && DtlbHit(s, i)
    && (if i.dataPriv == Supervisor then (f.user && !i.sum) || !f.read || !f.write
        else !f.read || !f.write || !f.user)
  }

  // ---------------------------------------------------------------------------- Outputs

  predicate FetchOut(s: Regs, i: In) {
    (!FetchVm(i) && i.fetch) || (ItlbHit(s, i) && !FetchFault(s, i))
  }

  function FetchPc(s: Regs, i: In): Address {
    if FetchVm(i) then Address(s.itlb.entry.page, i.pc.offset) else i.pc
  }

  predicate CpuRd(satp: Satp, s: Regs, i: In) {
    if DataVm(satp, i) then LoadW(s, i) && DtlbHit(s, i) && !LoadFault(satp, s, i) else i.rd
  }

  function CpuWr(satp: Satp, s: Regs, i: In): bv4 {
    if DataVm(satp, i) then (if DtlbHit(s, i) && !StoreFault(satp, s, i) then StoreW(s, i) else 0) else i.wr
  }

  function CpuAddr(satp: Satp, s: Regs, i: In): Address {
    if DataVm(satp, i) then Address(s.dtlb.entry.page, LsuAddr(s, i).offset) else LsuAddr(s, i)
  }

  /** The walker owns the data port. */
  predicate SrcMmu(s: Regs) { if s.port.hold then s.port.holdMmu else s.port.memReq }

  /** What the data port shows the bus: the walker's read of a table entry, or the access. */
  predicate BusRd(satp: Satp, s: Regs, i: In) { if SrcMmu(s) then s.port.memReq else CpuRd(satp, s, i) }

  function BusWr(satp: Satp, s: Regs, i: In): bv4 { if SrcMmu(s) then 0 else CpuWr(satp, s, i) }

  function BusAddr(satp: Satp, s: Regs, i: In): Address {
    if SrcMmu(s) then EntryAddr(s.w.table, s.w.index) else CpuAddr(satp, s, i)
  }

  /** The address of a table entry; entries are four bytes. */
  function EntryAddr(table: Page, index: bv10): (a: Address)
    ensures a.page == table && a.offset as int == 4 * (index as int)
  {
    TimesFour(index);
    Address(table, (index as bv12) << 2)
  }

  lemma TimesFour(index: bv10)
    ensures ((index as bv12) << 2) as int == 4 * (index as int)
  {
  }

  predicate DataOut(satp: Satp, s: Regs, i: In) { BusRd(satp, s, i) || BusWr(satp, s, i) != 0 }

  predicate DataAccept(satp: Satp, s: Regs, i: In) {
    || (!DataVm(satp, i) && !SrcMmu(s) && i.accept)
    || (DataVm(satp, i) && DtlbHit(s, i) && !SrcMmu(s) && i.accept)
    || StoreFault(satp, s, i) || LoadFault(satp, s, i)
  }

  // ---------------------------------------------------------------------------- Clock

  /** A superpage entry takes the low half of the page number from the address. */
  function FromFirst(p: Pte, lo: bv10): Entry { Entry(Page(p.hi, p.lo | lo), p.flags) }

  function FromSecond(q: Pte): Entry {
    if q.flags.valid then Entry(Page(q.hi, q.lo), q.flags) else NO_ENTRY
  }

  /** The walker after a clock in which the request to walk for is `a`. */
  function NextWalker(root: Page, w: Walker, start: bool, data: bool, a: Address, i: In): Walker {
    var p := i.pte;
    match w.state
    case Idle => if start then Walker(First, root, a.page.hi, w.entry, a, data) else w
    case First =>
      if !i.response then w
      else if i.error || !p.flags.valid then w.(entry := NO_ENTRY, state := Update)
      else if Pointer(p.flags) then w.(table := Page(p.hi, p.lo), index := a.page.lo, state := Second)
      else w.(entry := FromFirst(p, a.page.lo), state := Update)
    case Second =>
      if !i.response then w
      else w.(entry := FromSecond(p), state := Update)
    case Update => w.(state := Idle)
  }

  /** The instruction TLB is valid after a walk only if it held the fetched page before it. */
  function NextItlb(s: Regs, i: In): Tlb {
    var mine := s.w.state == Update && !s.w.forData;
    Tlb(if i.flush then false
        else if mine then s.itlb.page == i.pc.page
        else if s.w.state != Idle && !s.w.forData then false
        else s.itlb.valid,
        if mine then s.w.virt.page else s.itlb.page,
        if mine then s.w.entry else s.itlb.entry)
  }

  function NextDtlb(s: Regs, i: In): Tlb {
    var mine := s.w.state == Update && s.w.forData;
    Tlb(if i.flush then false else mine || s.dtlb.valid,
        if mine then s.w.virt.page else s.dtlb.page,
        if mine then s.w.entry else s.dtlb.entry)
  }

  /** The port after a clock in which the bus was `asked`. */
  function NextPort(p: Port, request: bool, asked: bool, accept: bool): Port {
    var mmu := if p.hold then p.holdMmu else p.memReq;
    Port(if request then true else if mmu && accept then false else p.memReq,
         if asked && !accept then true else if accept then false else p.hold,
         if asked && !accept then mmu else p.holdMmu)
  }

  /** One rising clock edge. */
  function Next(satp: Satp, s: Regs, i: In): Regs {
    Regs(if i.rd then !DataAccept(satp, s, i) else s.load,
         if i.wr != 0 then (if DataAccept(satp, s, i) then 0 else i.wr) else s.store,
         if Active(s, i) then i.addr else s.lsuAddr,
         NextWalker(satp.root, s.w, Walk(satp, s, i), DtlbMiss(satp, s, i), RequestAddr(satp, s, i), i),
         NextItlb(s, i), NextDtlb(s, i),
         NextPort(s.port, Walk(satp, s, i) || Descend(s, i), DataOut(satp, s, i), i.accept))
  }

  // ---------------------------------------------------------------------------- Architecture

  /** What the walk of section 4.3.2 of the RISC-V Privileged Architecture 1.10 finds. */
  datatype Found = Leaf(page: Page, flags: Flags) | Missing

  /** An entry that is not valid, or of the reserved kind that is writable but not readable. */
  predicate Bad(f: Flags) { !f.valid || (!f.read && f.write) }

  predicate IsLeaf(f: Flags) { f.read || f.exec }

  /** The second-level entry that a first-level pointer leads to. */
  function Below(t: Tables, p: Pte, lo: bv10): Pte { t(Page(p.hi, p.lo), lo) }

  /** The two-level walk, for physical page numbers that fit 20 bits. */
  function Sv32(t: Tables, root: Page, va: Page): Found {
    Sv32Of(t(root, va.hi), Below(t, t(root, va.hi), va.lo), va.lo)
  }

  /** The walk's result from the two entries it may meet. */
  function Sv32Of(p: Pte, q: Pte, lo: bv10): Found {
    if Bad(p.flags) then Missing
    else if IsLeaf(p.flags) then (if p.lo == 0 then Leaf(Page(p.hi, lo), p.flags) else Missing)
    else if Bad(q.flags) || !IsLeaf(q.flags) then Missing
    else Leaf(Page(q.hi, q.lo), q.flags)
  }

  /** An entry whose page number fits 20 bits and that is not executable, writable and unreadable. */
  predicate PlainEntry(p: Pte) {
    p.flags.valid ==> p.top == 0 && !(p.flags.write && !p.flags.read && p.flags.exec)
  }

  /** The entries met on the way to `va` are plain, and a superpage there is aligned. */
  predicate Plain(t: Tables, root: Page, va: Page) {
    PlainOf(t(root, va.hi), Below(t, t(root, va.hi), va.lo))
  }

  predicate PlainOf(p: Pte, q: Pte) {
    && PlainEntry(p) && (p.flags.valid && IsLeaf(p.flags) ==> p.lo == 0)
    && (p.flags.valid && Pointer(p.flags) ==> PlainEntry(q))
  }

  predicate MayFetch(f: Found, priv: Privilege) {
    f.Leaf? && f.flags.exec && (if priv == Supervisor then !f.flags.user else f.flags.user)
  }

  predicate MayLoad(f: Found, priv: Privilege, sum: bool, mxr: bool) {
    && f.Leaf? && (f.flags.read || (mxr && f.flags.exec))
    && (if priv == Supervisor then sum || !f.flags.user else f.flags.user)
  }

  predicate MayStore(f: Found, priv: Privilege, sum: bool) {
    f.Leaf? && f.flags.write && (if priv == Supervisor then sum || !f.flags.user else f.flags.user)
  }

  // ---------------------------------------------------------------------------- Walker

  /** What the walker leaves in its entry register for a page. */
  function Walked(t: Tables, root: Page, va: Page): Entry {
    WalkedOf(t(root, va.hi), Below(t, t(root, va.hi), va.lo), va.lo)
  }

  function WalkedOf(p: Pte, q: Pte, lo: bv10): Entry {
    if !p.flags.valid then NO_ENTRY
    else if Pointer(p.flags) then FromSecond(q)
    else FromFirst(p, lo)
  }

  /** The walker finds the architecture's leaf, or an entry that nobody may use. */
  lemma WalkedLeaf(p: Pte, q: Pte, lo: bv10)
    requires PlainOf(p, q)
    ensures var e, f := WalkedOf(p, q, lo), Sv32Of(p, q, lo);
            && (f.Leaf? ==> e == Entry(f.page, f.flags) && f.flags.valid && (f.flags.write ==> f.flags.read))
            && (f.Missing? ==> !e.flags.read && !e.flags.exec)
  {
    hide FromFirst;
    AlignedFirst(p, lo);
  }

  lemma AlignedFirst(p: Pte, lo: bv10)
    ensures FromFirst(p, lo).flags == p.flags && (p.lo == 0 ==> FromFirst(p, lo).page == Page(p.hi, lo))
  {
    OrZero(p.lo, lo);
  }

  lemma OrZero(x: bv10, y: bv10)
    ensures x == 0 ==> x | y == y
  {
  }

  /** The walker's entry and the architecture's leaf allow the same accesses. A load in user mode is
      checked as if MXR were clear. */
  lemma WalkedIsSv32(t: Tables, root: Page, va: Page, priv: Privilege, sum: bool, mxr: bool)
    requires Plain(t, root, va)
    ensures var e, f := Walked(t, root, va), Sv32(t, root, va);
            && (MayFetch(f, priv) <==> e.flags.exec && (if priv == Supervisor then !e.flags.user else e.flags.user))
            && (MayLoad(f, priv, sum, mxr && priv == Supervisor) <==>
                  if priv == Supervisor then (sum || !e.flags.user) && (e.flags.read || (mxr && e.flags.exec))
                  else e.flags.read && e.flags.user)
            && (MayStore(f, priv, sum) <==>
                  && e.flags.read && e.flags.write
                  && (if priv == Supervisor then sum || !e.flags.user else e.flags.user))
  {
    hide WalkedOf, Sv32Of, PlainOf;
    WalkedLeaf(t(root, va.hi), Below(t, t(root, va.hi), va.lo), va.lo);
  }

  // ---------------------------------------------------------------------------- Invariant

  /** The table read that the bus owes the walker. */
  datatype Owed = Nothing | Owes(table: Page, index: bv10)

  /** The bus answers, error-free and after any delay, what it has accepted. */
  predicate EnvOk(t: Tables, o: Owed, i: In) {
    i.response ==> o.Owes? && i.pte == t(o.table, o.index) && !i.error
  }

  function NextOwed(satp: Satp, s: Regs, o: Owed, i: In): Owed {
    if SrcMmu(s) && s.port.memReq && i.accept then Owes(s.w.table, s.w.index) else if i.response then Nothing else o
  }

  /** The requester being walked for still asks for the same page when a table entry arrives. */
  predicate Holds(satp: Satp, s: Regs, i: In) {
    i.response ==> RequestAddr(satp, s, i).page == s.w.virt.page
  }

  predicate TlbFits(t: Tables, root: Page, b: Tlb) {
    b.valid ==> b.entry == Walked(t, root, b.page)
  }

  predicate WalkerFits(t: Tables, root: Page, w: Walker) {
    match w.state
    case Idle => true
    case First => w.table == root && w.index == w.virt.page.hi
    case Second =>
      var p := t(root, w.virt.page.hi);
      p.flags.valid && Pointer(p.flags) && w.table == Page(p.hi, p.lo) && w.index == w.virt.page.lo
    case Update => w.entry == Walked(t, root, w.virt.page)
  }

  predicate Walking(w: Walker) { w.state == First || w.state == Second }

  /** The walker's read is either asked for or owed, and nothing is owed otherwise. */
  predicate PortFits(w: Walker, p: Port, o: Owed) {
    && (p.hold && p.holdMmu ==> p.memReq)
    && (if Walking(w) then (if p.memReq then o == Nothing else o == Owes(w.table, w.index))
        else !p.memReq && o == Nothing)
  }

  predicate Inv(satp: Satp, t: Tables, s: Regs, o: Owed) {
    && TlbFits(t, satp.root, s.itlb) && TlbFits(t, satp.root, s.dtlb)
    && WalkerFits(t, satp.root, s.w) && PortFits(s.w, s.port, o)
  }

  lemma StepWalker(t: Tables, root: Page, w: Walker, p: Port, o: Owed, start: bool, data: bool, a: Address, i: In)
    requires WalkerFits(t, root, w) && PortFits(w, p, o) && EnvOk(t, o, i)
    requires i.response ==> a.page == w.virt.page
    ensures WalkerFits(t, root, NextWalker(root, w, start, data, a, i))
  {
    hide FromFirst, FromSecond;
  }

  lemma StepPort(t: Tables, root: Page, w: Walker, p: Port, o: Owed, start: bool, data: bool, a: Address, asked: bool, i: In)
    requires PortFits(w, p, o) && EnvOk(t, o, i) && (start ==> w.state == Idle)
    ensures var mmu := if p.hold then p.holdMmu else p.memReq;
            var down := w.state == First && i.response && !i.error && i.pte.flags.valid && Pointer(i.pte.flags);
            var o' := if mmu && p.memReq && i.accept then Owes(w.table, w.index) else if i.response then Nothing else o;
            (mmu ==> asked == p.memReq) ==>
              PortFits(NextWalker(root, w, start, data, a, i), NextPort(p, start || down, asked, i.accept), o')
  {
    hide Walked;
  }

  lemma StepTlbs(satp: Satp, t: Tables, s: Regs, i: In)
    requires TlbFits(t, satp.root, s.itlb) && TlbFits(t, satp.root, s.dtlb) && WalkerFits(t, satp.root, s.w)
    ensures TlbFits(t, satp.root, NextItlb(s, i)) && TlbFits(t, satp.root, NextDtlb(s, i))
  {
    hide Walked;
  }

  /** Every clock keeps every valid TLB entry equal to the walk of its page. */
  lemma Step(satp: Satp, t: Tables, s: Regs, o: Owed, i: In)
    requires Inv(satp, t, s, o) && EnvOk(t, o, i) && Holds(satp, s, i)
    ensures Inv(satp, t, Next(satp, s, i), NextOwed(satp, s, o, i))
  {
    hide WalkerFits, PortFits, TlbFits, NextWalker, NextPort, NextItlb, NextDtlb, RequestAddr, DtlbMiss, ItlbMiss, EnvOk;
    hide CpuRd, CpuWr, DataAccept, Active;
    var a, start, data := RequestAddr(satp, s, i), Walk(satp, s, i), DtlbMiss(satp, s, i);
    StepWalker(t, satp.root, s.w, s.port, o, start, data, a, i);
    StepPort(t, satp.root, s.w, s.port, o, start, data, a, DataOut(satp, s, i), i);
    StepTlbs(satp, t, s, i);
  }

  // ---------------------------------------------------------------------------- Every access

  /** The architecture's answer for the page an access uses. */
  function FetchLeaf(satp: Satp, t: Tables, i: In): Found { Sv32(t, satp.root, i.pc.page) }

  function DataLeaf(satp: Satp, t: Tables, s: Regs, i: In): Found { Sv32(t, satp.root, LsuAddr(s, i).page) }

  /** With translation on, a fetch that reaches the bus is one the architecture allows, at its physical
      address, and one that the architecture refuses faults; off, every fetch passes as it is. */
  predicate FetchesRight(satp: Satp, t: Tables, s: Regs, i: In) {
    var f := FetchLeaf(satp, t, i);
    if FetchVm(i) then
      && (FetchOut(s, i) ==> i.fetch && MayFetch(f, i.fetchPriv) && FetchPc(s, i) == Address(f.page, i.pc.offset))
      && (FetchFault(s, i) ==> i.fetch && !MayFetch(f, i.fetchPriv))
      && (ItlbHit(s, i) ==> FetchOut(s, i) || FetchFault(s, i))
    else (FetchOut(s, i) <==> i.fetch) && !FetchFault(s, i) && FetchPc(s, i) == i.pc
  }

  /** The same for loads and stores, which keep their byte enables; loads in user mode are checked as
      if MXR were clear. */
  predicate AccessesRight(satp: Satp, t: Tables, s: Regs, i: In) {
    var f, p := DataLeaf(satp, t, s, i), i.dataPriv;
    var load, store := MayLoad(f, p, i.sum, i.mxr && p == Supervisor), MayStore(f, p, i.sum);
    if DataVm(satp, i) then
      && (CpuRd(satp, s, i) ==>
            (i.rd || s.load) && load && CpuAddr(satp, s, i) == Address(f.page, LsuAddr(s, i).offset))
      && (CpuWr(satp, s, i) != 0 ==>
            && CpuWr(satp, s, i) == (i.wr | s.store)
            && store && CpuAddr(satp, s, i) == Address(f.page, LsuAddr(s, i).offset))
      && (LoadFault(satp, s, i) ==> (i.rd || s.load) && !load)
      && (StoreFault(satp, s, i) ==> (i.wr | s.store) != 0 && !store)
      && (DtlbHit(s, i) && (i.rd || s.load) ==> CpuRd(satp, s, i) || LoadFault(satp, s, i))
      && (DtlbHit(s, i) && (i.wr | s.store) != 0 ==> CpuWr(satp, s, i) != 0 || StoreFault(satp, s, i))
    else
      && (CpuRd(satp, s, i) <==> i.rd) && CpuWr(satp, s, i) == i.wr && !LoadFault(satp, s, i) && !StoreFault(satp, s, i)
      && (i.rd || i.wr != 0 ==> CpuAddr(satp, s, i) == i.addr)
  }

  /** The bus sees one of the two: the walker's read of the entry it is at, or the access as checked. */
  predicate BusRight(satp: Satp, s: Regs, i: In) {
    if SrcMmu(s) then
      BusWr(satp, s, i) == 0 && (BusRd(satp, s, i) ==> Walking(s.w) && BusAddr(satp, s, i) == EntryAddr(s.w.table, s.w.index))
    else
      && (BusRd(satp, s, i) <==> CpuRd(satp, s, i)) && BusWr(satp, s, i) == CpuWr(satp, s, i)
      && BusAddr(satp, s, i) == CpuAddr(satp, s, i)
  }

  /** The entries met on the way to the pages in use are plain. */
  predicate PlainAccess(satp: Satp, t: Tables, s: Regs, i: In) {
    Plain(t, satp.root, i.pc.page) && Plain(t, satp.root, LsuAddr(s, i).page)
  }

  lemma FetchIsTranslated(satp: Satp, t: Tables, s: Regs, i: In)
    requires TlbFits(t, satp.root, s.itlb) && Plain(t, satp.root, i.pc.page)
    ensures FetchesRight(satp, t, s, i)
  {
    if !FetchVm(i) {
      Untranslated(satp, t, s, i);
      return;
    }
    hide Sv32, Plain, Walked, Sv32Of;
    if ItlbHit(s, i) {
      LeafOf(t, satp.root, i.pc.page);
      WalkedIsSv32(t, satp.root, i.pc.page, i.fetchPriv, false, false);
    }
  }

  lemma AccessIsTranslated(satp: Satp, t: Tables, s: Regs, i: In)
    requires TlbFits(t, satp.root, s.dtlb) && Plain(t, satp.root, LsuAddr(s, i).page)
    ensures AccessesRight(satp, t, s, i)
  {
    if !DataVm(satp, i) {
      Untranslated(satp, t, s, i);
      return;
    }
    hide Sv32, Plain, Walked, Sv32Of, LsuAddr;
    if DtlbHit(s, i) {
      var a := LsuAddr(s, i).page;
      LeafOf(t, satp.root, a);
      WalkedIsSv32(t, satp.root, a, i.dataPriv, i.sum, i.mxr);
      hide MayLoad, MayStore;
    }
  }

  lemma LeafOf(t: Tables, root: Page, va: Page)
    requires Plain(t, root, va)
    ensures var f := Sv32(t, root, va); f.Leaf? ==> Walked(t, root, va) == Entry(f.page, f.flags)
  {
    hide WalkedOf, Sv32Of, PlainOf;
    WalkedLeaf(t(root, va.hi), Below(t, t(root, va.hi), va.lo), va.lo);
  }

  /** An access is accepted only in a clock that passes it on to the bus, or that faults it: never
      while the walker owns the port or the translation is missing. */
  lemma AcceptedIsForwarded(satp: Satp, s: Regs, i: In)
    requires DataAccept(satp, s, i) && !LoadFault(satp, s, i) && !StoreFault(satp, s, i)
    ensures i.accept && !SrcMmu(s) && (DataVm(satp, i) ==> DtlbHit(s, i))
    ensures i.rd ==> CpuRd(satp, s, i)
    ensures i.wr != 0 ==> CpuWr(satp, s, i) != 0
  {
    OrKeeps(i.wr, s.store);
  }

  /** An access that is asked for is accepted exactly when it faults or the bus takes it. */
  lemma AcceptedExactly(satp: Satp, s: Regs, i: In)
    requires i.rd || i.wr != 0
    ensures DataAccept(satp, s, i) <==>
            || LoadFault(satp, s, i) || StoreFault(satp, s, i)
            || (i.accept && !SrcMmu(s) && (CpuRd(satp, s, i) || CpuWr(satp, s, i) != 0))
  {
    OrKeeps(i.wr, s.store);
  }

  /** What the port shows the bus and the bus does not take is shown by the same side in the next clock,
      until it is taken. */
  lemma PortStays(satp: Satp, s: Regs, i: In)
    ensures (BusRd(satp, s, i) || BusWr(satp, s, i) != 0) && !i.accept ==>
              Next(satp, s, i).port.hold && SrcMmu(Next(satp, s, i)) == SrcMmu(s)
    ensures i.accept ==> !Next(satp, s, i).port.hold
  {
    hide CpuRd, CpuWr, NextItlb, NextDtlb, NextWalker, DataAccept, LsuAddr;
  }

  /** A walk for a fetch closes the instruction TLB until it is over, and a walk for data leaves it alone. */
  lemma FetchWalkClosesTlb(satp: Satp, s: Regs, i: In)
    requires s.w.state != Update && !i.flush
    ensures Next(satp, s, i).itlb.valid <==> s.itlb.valid && (s.w.state == Idle || s.w.forData)
  {
  }

  lemma OrKeeps(x: bv4, y: bv4)
    ensures x != 0 ==> x | y != 0
  {
  }

  // ---------------------------------------------------------------------------- Runs

  /** Everything is as the bus, the tables and the requesters promise, over a run. */
  predicate Legal(satp: Satp, t: Tables, s: Regs, o: Owed, ins: seq<In>)
    decreases |ins|
  {
    ins == [] ||
    (EnvOk(t, o, ins[0]) && Holds(satp, s, ins[0])
     && Legal(satp, t, Next(satp, s, ins[0]), NextOwed(satp, s, o, ins[0]), ins[1..]))
  }

  function Run(satp: Satp, s: Regs, ins: seq<In>): Regs
    decreases |ins|
  {
    if ins == [] then s else Run(satp, Next(satp, s, ins[0]), ins[1..])
  }

  function RunOwed(satp: Satp, s: Regs, o: Owed, ins: seq<In>): Owed
    decreases |ins|
  {
    if ins == [] then o else RunOwed(satp, Next(satp, s, ins[0]), NextOwed(satp, s, o, ins[0]), ins[1..])
  }

  /** The walker is idle and both TLBs have been flushed. */
  predicate Flushed(s: Regs) {
    s.w.state == Idle && !s.itlb.valid && !s.dtlb.valid && s.port == Port(false, false, s.port.holdMmu)
  }

  lemma {:induction false} RunKeepsInv(satp: Satp, t: Tables, s: Regs, o: Owed, ins: seq<In>)
    requires Inv(satp, t, s, o) && Legal(satp, t, s, o, ins)
    ensures Inv(satp, t, Run(satp, s, ins), RunOwed(satp, s, o, ins))
    decreases |ins|
  {
    hide Inv, Next, EnvOk, Holds, NextOwed;
    if ins != [] {
      Step(satp, t, s, o, ins[0]);
      RunKeepsInv(satp, t, Next(satp, s, ins[0]), NextOwed(satp, s, o, ins[0]), ins[1..]);
    }
  }

  /** The TLBs agree with the walk: after a flush, while the tables stay as they are, for every run
      and every bus delay, each fetch, load or store that is passed on uses the physical page and
      the permissions of the architecture's walk, and each one whose leaf is missing or refuses it
      faults as soon as it hits; what is not translated passes unchanged. */
  lemma TranslationIsSv32(satp: Satp, t: Tables, s: Regs, ins: seq<In>, i: In)
    requires Flushed(s) && Legal(satp, t, s, Nothing, ins)
    requires PlainAccess(satp, t, Run(satp, s, ins), i)
    ensures FetchesRight(satp, t, Run(satp, s, ins), i) && AccessesRight(satp, t, Run(satp, s, ins), i)
    ensures BusRight(satp, Run(satp, s, ins), i)
  {
    hide FetchesRight, AccessesRight, Plain, WalkerFits, PortFits, TlbFits, Run, Legal, RunOwed;
    FlushedFits(satp, t, s);
    RunKeepsInv(satp, t, s, Nothing, ins);
    var r := Run(satp, s, ins);
    FetchIsTranslated(satp, t, r, i);
    AccessIsTranslated(satp, t, r, i);
    BusIsEither(satp, r, RunOwed(satp, s, Nothing, ins), i);
  }

  lemma FlushedFits(satp: Satp, t: Tables, s: Regs)
    requires Flushed(s)
    ensures Inv(satp, t, s, Nothing)
  {
  }

  lemma BusIsEither(satp: Satp, s: Regs, o: Owed, i: In)
    requires PortFits(s.w, s.port, o)
    ensures BusRight(satp, s, i)
  {
    hide CpuRd, CpuWr, CpuAddr;
  }

  /** With translation off nothing is changed. */
  lemma Untranslated(satp: Satp, t: Tables, s: Regs, i: In)
    ensures !FetchVm(i) ==> FetchesRight(satp, t, s, i)
    ensures !DataVm(satp, i) ==> AccessesRight(satp, t, s, i)
  {
  }

  // ---------------------------------------------------------------------------- Where it departs

  /** The load check agrees with the architecture's exactly when it is not a user-mode load, with
      MXR set, from a user page that can be executed and not read. */
  lemma UserMxrDeparts(satp: Satp, t: Tables, s: Regs, i: In)
    requires TlbFits(t, satp.root, s.dtlb) && Plain(t, satp.root, LsuAddr(s, i).page)
    requires DataVm(satp, i) && LoadW(s, i) && DtlbHit(s, i)
    ensures var f := DataLeaf(satp, t, s, i);
            (LoadFault(satp, s, i) <==> !MayLoad(f, i.dataPriv, i.sum, i.mxr)) <==>
            !(i.dataPriv == User && i.mxr && f.Leaf? && f.flags.user && f.flags.exec && !f.flags.read)
  {
    hide Sv32, Plain, Walked, Sv32Of, LsuAddr;
    var a := LsuAddr(s, i).page;
    LeafOf(t, satp.root, a);
    WalkedIsSv32(t, satp.root, a, i.dataPriv, i.sum, i.mxr);
  }

  /** The condition on the entries is exact: among entries whose page numbers fit 20 bits, the walker
      finds the architecture's leaf, or for a missing one an entry that nobody may use, if and only
      if no superpage is misaligned and no entry is executable and writable but not readable. */
  lemma WalkedExactlyWhenPlain(p: Pte, q: Pte, lo: bv10)
    requires (p.flags.valid ==> p.top == 0) && (q.flags.valid ==> q.top == 0)
    ensures PlainOf(p, q) <==>
            var e, f := WalkedOf(p, q, lo), Sv32Of(p, q, lo);
            if f.Leaf? then e == Entry(f.page, f.flags) && (e.flags.write ==> e.flags.read)
            else !e.flags.read && !e.flags.exec
  {
    hide FromFirst;
    AlignedFirst(p, lo);
  }

  /** The requester must hold its page: when the first table entry arrives, valid and naming an aligned
      superpage or another table, the walk goes on as for the page it began with if and only if the
      requester's address still has the low half of that page's number. */
  lemma MovedRequestMixes(w: Walker, a: Address, i: In)
    requires w.state == First && i.response && !i.error && i.pte.flags.valid
    requires !Pointer(i.pte.flags) ==> i.pte.lo == 0
    ensures NextWalker(w.table, w, false, false, a, i) == NextWalker(w.table, w, false, false, w.virt, i)
            <==> a.page.lo == w.virt.page.lo
  {
    OrZero(i.pte.lo, a.page.lo);
    OrZero(i.pte.lo, w.virt.page.lo);
  }

  /** The architecture translates nothing while satp is off; the fetch port does outside machine mode,
      so the two agree on what is translated if and only if satp is on or the mode is machine. */
  lemma BareFetchDeparts(satp: Satp, i: In)
    ensures (FetchVm(i) <==> satp.enable && i.fetchPriv != Machine) <==> satp.enable || i.fetchPriv == Machine
    ensures DataVm(satp, i) <==> satp.enable && i.dataPriv != Machine
  {
  }

  /** An idle walker starts exactly for a translated fetch or access whose page its TLB does not name. */
  lemma WalksExactlyForMisses(satp: Satp, s: Regs, i: In)
    requires s.w.state == Idle
    ensures Next(satp, s, i).w.state == First <==>
            || (i.fetch && i.fetchPriv != Machine && !(s.itlb.valid && s.itlb.page == i.pc.page))
            || ((i.rd || s.load || (i.wr | s.store) != 0) && satp.enable && i.dataPriv != Machine
                && !(s.dtlb.valid && s.dtlb.page == LsuAddr(s, i).page))
  {
    hide LsuAddr, NextItlb, NextDtlb, DataAccept, DataOut;
  }

  // ---------------------------------------------------------------------------- Progress

  /** A translated fetch that stays, with the data port quiet and no flush. */
  predicate Stays(s: Regs, pc: Address, i: In) {
    && i.fetch && i.pc == pc && i.fetchPriv != Machine && !i.flush
    && !i.rd && i.wr == 0 && !s.load && s.store == 0
  }

  /** Nothing but this fetch is being walked for. */
  predicate ForFetch(s: Regs, pc: Address) {
    s.w.state != Idle ==> !s.w.forData && s.w.virt == pc
  }

  /** Steps left before the fetch hits: a walk, and a second one unless the TLB names the page. */
  function Rank(s: Regs, pc: Address): (r: nat)
    ensures r >= 3
  {
    (if s.itlb.page == pc.page then 0 else 10)
    + match s.w.state
      case Idle => 8
      case First => if s.port.memReq then 7 else 6
      case Second => if s.port.memReq then 5 else 4
      case Update => 3
  }

  /** The walker waits for its read to be accepted or answered. */
  predicate Waits(s: Regs, i: In) {
    Walking(s.w) && (if s.port.memReq then !(SrcMmu(s) && i.accept) else !i.response)
  }

  lemma FetchStep(satp: Satp, t: Tables, s: Regs, o: Owed, pc: Address, i: In)
    requires PortFits(s.w, s.port, o) && EnvOk(t, o, i) && Stays(s, pc, i) && ForFetch(s, pc) && !ItlbHit(s, i)
    ensures var n := Next(satp, s, i);
            && ForFetch(n, pc) && !n.load && n.store == 0
            && (if Waits(s, i) then Rank(n, pc) == Rank(s, pc)
                else Rank(n, pc) < Rank(s, pc) || (n.itlb.valid && n.itlb.page == pc.page))
  {
    hide DataOut, DataAccept, FromFirst, FromSecond;
  }

  predicate AllStay(satp: Satp, s: Regs, pc: Address, ins: seq<In>)
    decreases |ins|
  {
    ins == [] || (Stays(s, pc, ins[0]) && AllStay(satp, Next(satp, s, ins[0]), pc, ins[1..]))
  }

  /** The clocks of a run in which the walker does not wait for the bus. */
  function Moving(satp: Satp, s: Regs, ins: seq<In>): nat
    decreases |ins|
  {
    if ins == [] then 0 else (if Waits(s, ins[0]) then 0 else 1) + Moving(satp, Next(satp, s, ins[0]), ins[1..])
  }

  /** Some clock of the run finds the fetched page in the instruction TLB. */
  predicate Served(satp: Satp, s: Regs, ins: seq<In>)
    decreases |ins|
  {
    ins != [] && (ItlbHit(s, ins[0]) || Served(satp, Next(satp, s, ins[0]), ins[1..]))
  }

  /** A fetch that stays is served, by its second walk at the latest, however slow the bus. */
  lemma {:induction false} FetchIsServed(satp: Satp, t: Tables, s: Regs, o: Owed, pc: Address, ins: seq<In>)
    requires Inv(satp, t, s, o) && Legal(satp, t, s, o, ins) && AllStay(satp, s, pc, ins) && ForFetch(s, pc)
    requires Moving(satp, s, ins) > Rank(s, pc)
    ensures Served(satp, s, ins)
    decreases |ins|
  {
    hide Next, EnvOk, Holds, TlbFits, WalkerFits, PortFits, Waits, Rank;
    var i, n := ins[0], Next(satp, s, ins[0]);
    if !ItlbHit(s, i) {
      FetchStep(satp, t, s, o, pc, i);
      Step(satp, t, s, o, i);
      if n.itlb.valid && n.itlb.page == pc.page {
        ServedNext(satp, n, pc, ins[1..], Moving(satp, n, ins[1..]));
      } else {
        FetchIsServed(satp, t, n, NextOwed(satp, s, o, i), pc, ins[1..]);
      }
    }
  }

  /** A TLB that names the page serves the next clock. */
  lemma ServedNext(satp: Satp, n: Regs, pc: Address, ins: seq<In>, moving: nat)
    requires AllStay(satp, n, pc, ins) && n.itlb.valid && n.itlb.page == pc.page
    requires moving == Moving(satp, n, ins) > 0
    ensures Served(satp, n, ins)
  {
    hide Next;
  }

  /** A translated load or store that stays, with no flush, whatever is fetched beside it. */
  predicate AccessStays(satp: Satp, a: Address, i: In) {
    DataVm(satp, i) && (i.rd || i.wr != 0) && i.addr == a && !i.flush
  }

  /** A walk for data is for this access. */
  predicate ForAccess(s: Regs, a: Address) {
    s.w.state != Idle && s.w.forData ==> s.w.virt == a
  }

  /** Steps left before the access hits: a walk for a fetch, if one is under way, and one for it. */
  function AccessRank(s: Regs): (r: nat)
    ensures r >= 3
  {
    match s.w.state
    case Idle => 8
    case First => (if s.w.forData then 6 else 14) + (if s.port.memReq then 1 else 0)
    case Second => (if s.w.forData then 4 else 12) + (if s.port.memReq then 1 else 0)
    case Update => if s.w.forData then 3 else 11
  }

  lemma AccessStep(satp: Satp, t: Tables, s: Regs, o: Owed, a: Address, i: In)
    requires PortFits(s.w, s.port, o) && EnvOk(t, o, i) && AccessStays(satp, a, i) && ForAccess(s, a)
    requires !DtlbHit(s, i)
    ensures var n := Next(satp, s, i);
            && ForAccess(n, a)
            && (if Waits(s, i) then AccessRank(n) == AccessRank(s)
                else AccessRank(n) < AccessRank(s) || (n.dtlb.valid && n.dtlb.page == a.page))
  {
    hide DataOut, DataAccept, FromFirst, FromSecond, NextItlb, ItlbHit, CpuRd, CpuWr;
    OrKeeps(i.wr, s.store);
  }

  predicate AllAccessStay(satp: Satp, a: Address, ins: seq<In>) {
    forall i <- ins :: AccessStays(satp, a, i)
  }

  /** Some clock of the run finds the page of the access in the data TLB, and passes the access on or
      faults it. */
  predicate AccessServed(satp: Satp, s: Regs, ins: seq<In>)
    decreases |ins|
  {
    ins != [] && (DtlbHit(s, ins[0]) || AccessServed(satp, Next(satp, s, ins[0]), ins[1..]))
  }

  /** A load or store that stays is served by the next walk for data, however slow the bus. */
  lemma {:induction false} AccessIsServed(satp: Satp, t: Tables, s: Regs, o: Owed, a: Address, ins: seq<In>)
    requires Inv(satp, t, s, o) && Legal(satp, t, s, o, ins) && AllAccessStay(satp, a, ins) && ForAccess(s, a)
    requires Moving(satp, s, ins) > AccessRank(s)
    ensures AccessServed(satp, s, ins)
    decreases |ins|
  {
    hide Next, EnvOk, Holds, TlbFits, WalkerFits, PortFits, Waits, AccessRank;
    var i, n := ins[0], Next(satp, s, ins[0]);
    assert AccessStays(satp, a, i) && AllAccessStay(satp, a, ins[1..]);
    if !DtlbHit(s, i) {
      AccessStep(satp, t, s, o, a, i);
      Step(satp, t, s, o, i);
      if n.dtlb.valid && n.dtlb.page == a.page {
        assert |ins| > 1 && AccessStays(satp, a, ins[1]) && DtlbHit(n, ins[1]) by { HitsNow(satp, n, a, ins[1..]); }
      } else {
        AccessIsServed(satp, t, n, NextOwed(satp, s, o, i), a, ins[1..]);
      }
    }
  }

  lemma HitsNow(satp: Satp, n: Regs, a: Address, ins: seq<In>)
    requires AllAccessStay(satp, a, ins) && n.dtlb.valid && n.dtlb.page == a.page && Moving(satp, n, ins) > 0
    ensures ins != [] && DtlbHit(n, ins[0])
  {
    hide Next;
    assert AccessStays(satp, a, ins[0]);
    OrKeeps(ins[0].wr, n.store);
  }

  // ---------------------------------------------------------------------------- The request itself

  /** A load or store that is not accepted is asked for again. */
  predicate Steady(satp: Satp, s: Regs, i: In, j: In) {
    (i.rd || i.wr != 0) && !DataAccept(satp, s, i) ==> (j.rd, j.wr) == (i.rd, i.wr)
  }

  predicate AllSteady(satp: Satp, s: Regs, ins: seq<In>, last: In)
    decreases |ins|
  {
    ins == [] ||
    (Steady(satp, s, ins[0], if |ins| == 1 then last else ins[1]) && AllSteady(satp, Next(satp, s, ins[0]), ins[1..], last))
  }

  /** What is remembered is what is asked for. */
  predicate AsAsked(s: Regs, i: In) {
    (s.load ==> i.rd) && (s.store == 0 || s.store == i.wr)
  }

  lemma {:induction false} RemembersRequest(satp: Satp, s: Regs, ins: seq<In>, last: In)
    requires AllSteady(satp, s, ins, last) && AsAsked(s, if ins == [] then last else ins[0])
    ensures AsAsked(Run(satp, s, ins), last)
    decreases |ins|
  {
    hide DataAccept;
    if ins != [] {
      RemembersRequest(satp, Next(satp, s, ins[0]), ins[1..], last);
    }
  }

  /** What is forwarded is what is asked for: over every run of a requester that keeps asking until it is
      accepted, the data port carries a load only if one is asked for, and a store with exactly the
      byte enables that are asked for. */
  lemma ForwardsRequest(satp: Satp, s: Regs, ins: seq<In>, i: In)
    requires Flushed(s) && !s.load && s.store == 0 && AllSteady(satp, s, ins, i)
    ensures var r := Run(satp, s, ins);
            && (CpuRd(satp, r, i) ==> i.rd) && (CpuWr(satp, r, i) == 0 || CpuWr(satp, r, i) == i.wr)
            && (i.rd || i.wr != 0 ==> LsuAddr(r, i) == i.addr)
  {
    RemembersRequest(satp, s, ins, i);
    var r := Run(satp, s, ins);
    hide Run, AllSteady;
    OrKeeps(i.wr, r.store);
    OrSame(i.wr);
  }

  lemma OrSame(x: bv4)
    ensures x | x == x && x | 0 == x
  {
  }

  // ---------------------------------------------------------------------------- Machine

  /** biriscv_mmu: registers updated in place. */
  class MmuBlock {
    var load: bool
    var store: bv4
    var lsuAddr: Address
    var w: Walker
    var itlb: Tlb
    var dtlb: Tlb
    var port: Port

    function View(): Regs reads this {
      Regs(load, store, lsuAddr, w, itlb, dtlb, port)
    }

    constructor ()
      ensures Flushed(View()) && !load && store == 0
    {
      load, store, lsuAddr := false, 0, Address(Page(0, 0), 0);
      w := Walker(Idle, Page(0, 0), 0, NO_ENTRY, Address(Page(0, 0), 0), false);
      itlb, dtlb := Tlb(false, Page(0, 0), NO_ENTRY), Tlb(false, Page(0, 0), NO_ENTRY);
      port := Port(false, false, false);
    }

    method ClockWalker(root: Page, start: bool, data: bool, a: Address, i: In)
      modifies this`w
      ensures w == NextWalker(root, old(w), start, data, a, i)
    {
      if w.state == Idle && start {
        w := w.(table := root, index := a.page.hi, virt := a, forData := data, state := First);
      } else if w.state == First && i.response {
        if i.error || !i.pte.flags.valid {
          w := w.(entry := NO_ENTRY, state := Update);
        } else if Pointer(i.pte.flags) {
          w := w.(table := Page(i.pte.hi, i.pte.lo), index := a.page.lo, state := Second);
        } else {
          w := w.(entry := FromFirst(i.pte, a.page.lo), state := Update);
        }
      } else if w.state == Second && i.response {
        w := w.(entry := FromSecond(i.pte), state := Update);
      } else if w.state == Update {
        w := w.(state := Idle);
      }
    }

    method ClockTlbs(i: In)
      modifies this`itlb, this`dtlb
      ensures itlb == NextItlb(old(View()), i) && dtlb == NextDtlb(old(View()), i)
    {
      if w.state == Update && !w.forData {
        itlb := Tlb(!i.flush && itlb.page == i.pc.page, w.virt.page, w.entry);
      } else if i.flush || (w.state != Idle && !w.forData) {
        itlb := itlb.(valid := false);
      }
      if w.state == Update && w.forData {
        dtlb := Tlb(!i.flush, w.virt.page, w.entry);
      } else if i.flush {
        dtlb := dtlb.(valid := false);
      }
    }

    method ClockPort(request: bool, asked: bool, accept: bool)
      modifies this`port
      ensures port == NextPort(old(port), request, asked, accept)
    {
      var mmu := if port.hold then port.holdMmu else port.memReq;
      if request {
        port := port.(memReq := true);
      } else if mmu && accept {
        port := port.(memReq := false);
      }
      if asked && !accept {
        port := port.(hold := true, holdMmu := mmu);
      } else if accept {
        port := port.(hold := false);
      }
    }

    /** A load or store that is not taken is remembered. */
    method ClockRequest(i: In, active: bool, accepted: bool)
      modifies this`load, this`store, this`lsuAddr
      ensures load == if i.rd then !accepted else old(load)
      ensures store == if i.wr != 0 then (if accepted then 0 else i.wr) else old(store)
      ensures lsuAddr == if active then i.addr else old(lsuAddr)
    {
      if i.rd {
        load := !accepted;
      }
      if i.wr != 0 {
        store := if accepted then 0 else i.wr;
      }
      if active {
        lsuAddr := i.addr;
      }
    }

    /** One rising clock edge. */
    method Clock(satp: Satp, i: In)
      modifies this
      ensures View() == Next(satp, old(View()), i)
    {
      hide Walk, DtlbMiss, RequestAddr, Descend, DataOut, DataAccept, NextItlb, NextDtlb, NextWalker, NextPort, Active;
      var s := View();
      var start, data, a := Walk(satp, s, i), DtlbMiss(satp, s, i), RequestAddr(satp, s, i);
      var request, asked := start || Descend(s, i), DataOut(satp, s, i);
      var active, accepted := Active(s, i), DataAccept(satp, s, i);
      ClockTlbs(i);
      ClockWalker(satp.root, start, data, a, i);
      ClockPort(request, asked, i.accept);
      ClockRequest(i, active, accepted);
    }
  }
}
