/** The write-back data cache as a clocked machine: its registers and RAMs, the combinational
    signals computed from them, and one clock step. */
module DCacheCore {
  import opened Words

  const LINES := 256
  const WORDS := 8
  const RAM_WORDS := 2048
  const TAGS := 0x8_0000
  const WORD_INDICES := 0x4000_0000

  /** A byte address as its slices [31:13], [12:5] and [4:2]; bits [1:0] are never used. */
  datatype AddrFields = Addr(tag: nat, line: nat, word: nat)
  type Addr = a: AddrFields | a.tag < TAGS && a.line < LINES && a.word < WORDS witness Addr(0, 0, 0)

  /** Address bits [31:2] as a number. */
  function Index(a: Addr): (n: nat) {
    a.tag * 2048 + a.line * 8 + a.word
  }

  function LineBase(a: Addr): Addr {
    Addr(a.tag, a.line, 0)
  }

  function RamIndex(line: nat, word: nat): nat {
    line * 8 + word
  }

  type TagAddr = n: nat | n < TAGS

  datatype Tag = Tag(valid: bool, dirty: bool, addr: TagAddr)

  const NO_TAG := Tag(false, false, 0)

  datatype State =
    | Reset | FlushAddr | Flush | Lookup | Read | Write | Refill | Evict | EvictWait | Writeback

  // ---------------------------------------------------------------------------- RAMs

  /** Tag RAM with a registered read port; a write is visible to a read in the same clock. */
  datatype TagRam = TagRam(ram: seq<Tag>, out: Tag)

  function TagRamNext(t: TagRam, raddr: nat, waddr: nat, data: Tag, we: bool): TagRam
    requires raddr < |t.ram| && waddr < |t.ram|
  {
    var ram := if we then t.ram[waddr := data] else t.ram;
    TagRam(ram, ram[raddr])
  }

  /** Data RAM with a registered read port; a read sees the contents before the clock. */
  datatype DataRam = DataRam(ram: seq<Word>, out: Word)

  function DataRamNext(d: DataRam, raddr: nat, waddr: nat, data: Word, we: Strobe): DataRam
    requires raddr < |d.ram| && waddr < |d.ram|
  {
    var ram := if Any(we) then d.ram[waddr := Merge(d.ram[waddr], data, we)] else d.ram;
    DataRam(ram, d.ram[raddr])
  }

  // ---------------------------------------------------------------------------- Registers

  /** The request buffer. */
  datatype Buffer = Buffer(
    addr: Addr, data: Word, wr: Strobe, rd: bool, tag: nat, writeback: bool, flush: bool)

  const NO_REQUEST := Buffer(Addr(0, 0, 0), ZERO_WORD, NO_STROBE, false, 0, false, false)

  /** Every register of the cache. A way is a bool: false is way 0. */
  datatype Core = Core(
    state: State,
    m: Buffer,
    // RAMs
    tag0: TagRam, tag1: TagRam, data0: DataRam, data1: DataRam,
    // counters and policy
    dataWriteAddr: nat, flushAddr: nat, flushing: bool, flushLast: bool, replaceWay: bool,
    // outport
    pmemRd: bool, pmemWr0: bool, pmemLen: nat, pmemAddr: nat, pmemWr: bool, pmemWriteData: Word)

  /** The widths of the registers and the depths of the RAMs. */
  predicate Sized(c: Core) {
    && |c.tag0.ram| == LINES && |c.tag1.ram| == LINES
    && |c.data0.ram| == RAM_WORDS && |c.data1.ram| == RAM_WORDS
    && c.dataWriteAddr < RAM_WORDS && c.flushAddr < LINES && c.pmemLen < 256 && c.pmemAddr < WORD_INDICES
  }

  /** One clock of inputs: the request port and the outport's answers. */
  datatype In = In(
    addr: Addr, data: Word, rd: bool, wr: Strobe, reqTag: nat, writeback: bool, flush: bool,
    accept: bool, ack: bool, readData: Word)

  /** A requester asks for at most one thing at a time. */
  predicate OneRequest(i: In) {
    var kinds := (if i.rd then 1 else 0) + (if Any(i.wr) then 1 else 0)
               + (if i.writeback then 1 else 0) + (if i.flush then 1 else 0);
    kinds <= 1
  }

  // ---------------------------------------------------------------------------- Lookup

  predicate Hit0(c: Core) { c.tag0.out.valid && c.tag0.out.addr == c.m.addr.tag }

  predicate Hit1(c: Core) { c.tag1.out.valid && c.tag1.out.addr == c.m.addr.tag }

  predicate HitAny(c: Core) { Hit0(c) || Hit1(c) }

  predicate HitAndDirty(c: Core) {
    || (Hit0(c) && c.tag0.out.dirty)
    || (Hit1(c) && c.tag1.out.dirty)
  }

  predicate DirtyAny(c: Core) {
    || (c.tag0.out.valid && c.tag0.out.dirty)
    || (c.tag1.out.valid && c.tag1.out.dirty)
  }

  function VictimTag(c: Core): Tag {
    if c.replaceWay then c.tag1.out else c.tag0.out
  }

  predicate EvictWay(c: Core) {
    (c.flushing || !HitAny(c)) && VictimTag(c).valid && VictimTag(c).dirty
  }

  function EvictLine(c: Core): nat {
    if c.flushing then c.flushAddr else c.m.addr.line
  }

  function EvictData(c: Core): Word {
    if c.replaceWay then c.data1.out else c.data0.out
  }

  /** The request in the buffer is a read or write that the tags do not hold. */
  predicate Missed(c: Core) {
    (c.m.rd || Any(c.m.wr)) && !HitAny(c)
  }

  predicate Accept(c: Core, i: In) {
    && c.state == Lookup
    && !Missed(c)
    // a read directly behind a write to the same word waits a clock
    && !(Any(c.m.wr) && i.rd && i.addr == c.m.addr)
  }

  predicate Ack(c: Core) {
    && c.state == Lookup
    && (((c.m.rd || Any(c.m.wr)) && HitAny(c)) || c.m.flush || c.m.writeback)
  }

  function ReadValue(c: Core): Word {
    if Hit0(c) then c.data0.out else if Hit1(c) then c.data1.out else c.data0.out
  }

  // ---------------------------------------------------------------------------- Next state

  predicate LastBeat(c: Core) { c.pmemLen == 0 }

  function NextState(c: Core, i: In): State {
    match c.state
    case Reset => if c.flushLast then Lookup else Reset
    case FlushAddr => Flush
    case Flush =>
      if DirtyAny(c) then (if EvictWay(c) then Evict else Flush)
      else if c.flushLast then Lookup
      else FlushAddr
    case Lookup =>
      if Missed(c) then (if EvictWay(c) then Evict else Refill)
      else if i.writeback && Accept(c, i) then Writeback
      else if i.flush && Accept(c, i) then FlushAddr
      else Lookup
    case Refill =>
      if i.ack && LastBeat(c) then (if Any(c.m.wr) then Write else Read) else Refill
    case Write => Lookup
    case Read => Lookup
    case Evict => if i.accept && LastBeat(c) then EvictWait else Evict
    case EvictWait =>
      if i.ack && c.m.writeback then Lookup
      else if i.ack && c.flushing then FlushAddr
      else if i.ack then Refill
      else EvictWait
    case Writeback => if HitAndDirty(c) then Evict else Lookup
  }

  predicate Enters(c: Core, i: In, s: State) {
    c.state != s && NextState(c, i) == s
  }

  // ---------------------------------------------------------------------------- Outport

  predicate PmemRd(c: Core, i: In) {
    Enters(c, i, Refill) || c.pmemRd
  }

  predicate PmemWr(c: Core) {
    (c.state == Evict && (EvictWay(c) || c.m.writeback)) || c.pmemWr
  }

  function PmemLen(c: Core, i: In): nat {
    if PmemRd(c, i) || (c.state == Evict && c.pmemWr0) then 7 else 0
  }

  function PmemAddr(c: Core, i: In): nat
    requires Sized(c)
  {
    if PmemLen(c, i) != 0 then
      if PmemRd(c, i) then Index(LineBase(c.m.addr)) else Index(Addr(VictimTag(c).addr, EvictLine(c), 0))
    else c.pmemAddr
  }

  function PmemWriteData(c: Core): Word {
    if c.pmemWr then c.pmemWriteData else EvictData(c)
  }

  // ---------------------------------------------------------------------------- RAM ports

  function TagAddrX(c: Core, i: In): nat {
    if c.state == Lookup && (NextState(c, i) == Lookup || NextState(c, i) == Writeback) then i.addr.line
    else if c.flushing then c.flushAddr
    else c.m.addr.line
  }

  function TagAddrM(c: Core): nat {
    if c.flushing || c.state == Reset then c.flushAddr else c.m.addr.line
  }

  function TagDataIn(c: Core): Tag {
    if c.state == Flush || c.state == Reset || c.flushing then NO_TAG
    else if c.state == Refill then Tag(true, false, c.m.addr.tag)
    else if c.state == EvictWait then Tag(true, false, c.m.addr.tag)
    else if c.state == Write || (c.state == Lookup && Any(c.m.wr)) then Tag(true, true, c.m.addr.tag)
    else NO_TAG
  }

  predicate TagWrite(c: Core, i: In, way: bool) {
    match c.state
    case Reset => true
    case Flush => !DirtyAny(c)
    case Lookup => Any(c.m.wr) && (if way then Hit1(c) else Hit0(c))
    case Write => c.replaceWay == way
    case EvictWait => i.ack && c.replaceWay == way
    case Refill => i.ack && LastBeat(c) && c.replaceWay == way
    case _ => false
  }

  function DataAddrX(c: Core, i: In): nat {
    if c.state == Refill || c.state == Evict then c.dataWriteAddr
    else if c.state == Flush || c.state == Reset then RamIndex(c.flushAddr, 0)
    else if Enters(c, i, Evict) then RamIndex(c.m.addr.line, 0)
    else if c.state == Read then RamIndex(c.m.addr.line, c.m.addr.word)
    else RamIndex(i.addr.line, i.addr.word)
  }

  function DataAddrM(c: Core, i: In): nat {
    if c.state == Refill || c.state == Evict then c.dataWriteAddr
    else if c.state == Flush || c.state == Reset then RamIndex(c.flushAddr, 0)
    else if Enters(c, i, Evict) then RamIndex(c.m.addr.line, 0)
    else RamIndex(c.m.addr.line, c.m.addr.word)
  }

  function DataWrite(c: Core, i: In, way: bool): Strobe {
    if c.state == Refill then
      if i.ack && c.replaceWay == way then Strobe(true, true, true, true) else NO_STROBE
    else if c.state == Write || c.state == Lookup then
      if (if way then Hit1(c) else Hit0(c)) then c.m.wr else NO_STROBE
    else NO_STROBE
  }

  function DataIn(c: Core, i: In): Word {
    if c.state == Refill then i.readData else c.m.data
  }

  // ---------------------------------------------------------------------------- Clock

  function NextBuffer(c: Core, i: In): Buffer {
    if Accept(c, i) then Buffer(i.addr, i.data, i.wr, i.rd, i.reqTag, i.writeback, i.flush)
    else if Ack(c) then NO_REQUEST
    else c.m
  }

  function NextReplaceWay(c: Core, i: In): bool {
    if c.state == Write || c.state == Read then !c.replaceWay
    else if c.flushing && DirtyAny(c) && !EvictWay(c) && c.state != FlushAddr then !c.replaceWay
    else if c.state == EvictWait && NextState(c, i) == FlushAddr then false
    else if c.state == Flush && NextState(c, i) == Lookup then false
    else if c.state == Lookup && NextState(c, i) == FlushAddr then false
    else if c.state == Writeback then
      if Hit0(c) then false else if Hit1(c) then true else c.replaceWay
    else c.replaceWay
  }

  function NextFlushAddr(c: Core, i: In): nat {
    if c.state == Reset || (c.state == Flush && NextState(c, i) == FlushAddr) then (c.flushAddr + 1) % 256
    else if c.state == Lookup then 0
    else c.flushAddr
  }

  predicate NextFlushing(c: Core, i: In) {
    if c.state == Lookup && NextState(c, i) == FlushAddr then true
    else if c.state == Flush && NextState(c, i) == Lookup then false
    else c.flushing
  }

  predicate NextFlushLast(c: Core) {
    if c.state == Lookup then false else if c.flushAddr == LINES - 1 then true else c.flushLast
  }

  function NextDataWriteAddr(c: Core, i: In): nat
    requires Sized(c)
  {
    if Enters(c, i, Refill) then PmemAddr(c, i) % 2048
    else if Enters(c, i, Evict) then (DataAddrM(c, i) + 1) % 2048
    else if c.state == Refill && i.ack then (c.dataWriteAddr + 1) % 2048
    else if c.state == Evict && i.accept then (c.dataWriteAddr + 1) % 2048
    else c.dataWriteAddr
  }

  function NextPmemLen(c: Core, i: In): nat {
    if Enters(c, i, Evict) then 7
    else if PmemRd(c, i) && i.accept then PmemLen(c, i)
    else if c.state == Refill && i.ack then (c.pmemLen + 255) % 256
    else if c.state == Evict && i.accept then (c.pmemLen + 255) % 256
    else c.pmemLen
  }

  predicate NextPmemWr0(c: Core, i: In) {
    if Enters(c, i, Evict) then true else if i.accept then false else c.pmemWr0
  }

  /** The skid buffer keeps a write beat that was not taken. */
  predicate NextPmemWr(c: Core, i: In) {
    if PmemWr(c) && !i.accept then true else if i.accept then false else c.pmemWr
  }

  function NextPmemAddr(c: Core, i: In): nat
    requires Sized(c)
  {
    if PmemLen(c, i) != 0 && i.accept then (PmemAddr(c, i) + 1) % 0x4000_0000
    else if i.accept then (c.pmemAddr + 1) % 0x4000_0000
    else c.pmemAddr
  }

  /** One rising clock edge. */
  function Next(c: Core, i: In): Core
    requires Sized(c)
  {
    Core(
      NextState(c, i),
      NextBuffer(c, i),
      TagRamNext(c.tag0, TagAddrX(c, i), TagAddrM(c), TagDataIn(c), TagWrite(c, i, false)),
      TagRamNext(c.tag1, TagAddrX(c, i), TagAddrM(c), TagDataIn(c), TagWrite(c, i, true)),
      DataRamNext(c.data0, DataAddrX(c, i), DataAddrM(c, i), DataIn(c, i), DataWrite(c, i, false)),
      DataRamNext(c.data1, DataAddrX(c, i), DataAddrM(c, i), DataIn(c, i), DataWrite(c, i, true)),
      NextDataWriteAddr(c, i),
      NextFlushAddr(c, i),
      NextFlushing(c, i),
      NextFlushLast(c),
      NextReplaceWay(c, i),
      if PmemRd(c, i) then !i.accept else c.pmemRd,
      NextPmemWr0(c, i),
      NextPmemLen(c, i),
      NextPmemAddr(c, i),
      NextPmemWr(c, i),
      if i.accept then c.pmemWriteData else PmemWriteData(c))
  }

  /** The widths and depths are kept, so Next can be applied again. */
  lemma NextSized(c: Core, i: In)
    requires Sized(c)
    ensures Sized(Next(c, i))
  {
  }
}
