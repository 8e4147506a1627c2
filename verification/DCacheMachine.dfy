/** The data cache as it is built: RAM blocks and registers updated in place at each clock. */
module DCacheMachine {
  import opened Words
  import opened DCacheCore

  /** dcache_core_tag_ram: an array written, then read, in the same clock. */
  class TagRamBlock {
    const ram: array<Tag>
    var out: Tag

    ghost predicate Valid() reads this {
      ram.Length == LINES
    }

    function View(): TagRam reads this, ram {
      TagRam(ram[..], out)
    }

    constructor (contents: array<Tag>, initial: Tag)
      requires contents.Length == LINES
      ensures Valid() && ram == contents && out == initial
    {
      ram := contents;
      out := initial;
    }

    method Clock(raddr: nat, waddr: nat, data: Tag, we: bool)
      requires Valid() && raddr < LINES && waddr < LINES
      modifies this, ram
      ensures Valid() && View() == TagRamNext(old(View()), raddr, waddr, data, we)
    {
      if we {
        ram[waddr] := data;
      }
      out := ram[raddr];
    }
  }

  /** dcache_core_data_ram: an array read before its lanes are written in the same clock. */
  class DataRamBlock {
    const ram: array<Word>
    var out: Word

    ghost predicate Valid() reads this {
      ram.Length == RAM_WORDS
    }

    function View(): DataRam reads this, ram {
      DataRam(ram[..], out)
    }

    constructor (contents: array<Word>, initial: Word)
      requires contents.Length == RAM_WORDS
      ensures Valid() && ram == contents && out == initial
    {
      ram := contents;
      out := initial;
    }

    method Clock(raddr: nat, waddr: nat, data: Word, we: Strobe)
      requires Valid() && raddr < RAM_WORDS && waddr < RAM_WORDS
      modifies this, ram
      ensures Valid() && View() == DataRamNext(old(View()), raddr, waddr, data, we)
    {
      out := ram[raddr];
      if we.s0 { ram[waddr] := ram[waddr].(b0 := data.b0); }
      if we.s1 { ram[waddr] := ram[waddr].(b1 := data.b1); }
      if we.s2 { ram[waddr] := ram[waddr].(b2 := data.b2); }
      if we.s3 { ram[waddr] := ram[waddr].(b3 := data.b3); }
    }
  }

  /** What the cache drives in one clock. */
  datatype Out = Out(
    accept: bool, ack: bool, respTag: nat, readData: Word,
    pmemRd: bool, pmemWr: bool, pmemLen: nat, pmemAddr: nat, pmemWriteData: Word)

  function OutOf(c: Core, i: In): Out
    requires Sized(c)
  {
    Out(Accept(c, i), Ack(c), c.m.tag, ReadValue(c),
        PmemRd(c, i), PmemWr(c), PmemLen(c, i), PmemAddr(c, i), PmemWriteData(c))
  }

  /** Signals inside the cache in one clock. */
  datatype Wires = Wires(
    next: State, hit0: bool, hit1: bool, evictWay: bool, dirtyAny: bool,
    tagX: nat, tagM: nat, tagIn: Tag, tagWe0: bool, tagWe1: bool,
    dataX: nat, dataM: nat, dataIn: Word, dataWe0: Strobe, dataWe1: Strobe)

  function WiresOf(c: Core, i: In): Wires {
    Wires(NextState(c, i), Hit0(c), Hit1(c), EvictWay(c), DirtyAny(c),
          TagAddrX(c, i), TagAddrM(c), TagDataIn(c), TagWrite(c, i, false), TagWrite(c, i, true),
          DataAddrX(c, i), DataAddrM(c, i), DataIn(c, i), DataWrite(c, i, false), DataWrite(c, i, true))
  }

  // The registers after a clock, block by block.

  predicate RequestBufferAfter(c: Core, i: In, n: Core) {
    && n.state == NextState(c, i)
    && n.m == NextBuffer(c, i)
  }

  predicate CountersAfter(c: Core, i: In, n: Core)
    requires Sized(c)
  {
    && n.dataWriteAddr == NextDataWriteAddr(c, i) && n.flushAddr == NextFlushAddr(c, i)
    && n.flushing == NextFlushing(c, i) && n.flushLast == NextFlushLast(c) && n.replaceWay == NextReplaceWay(c, i)
  }

  predicate OutportAfter(c: Core, i: In, n: Core)
    requires Sized(c)
  {
    && n.pmemRd == (if PmemRd(c, i) then !i.accept else c.pmemRd)
    && n.pmemWr0 == NextPmemWr0(c, i) && n.pmemLen == NextPmemLen(c, i) && n.pmemAddr == NextPmemAddr(c, i)
    && n.pmemWr == NextPmemWr(c, i)
    && n.pmemWriteData == (if i.accept then c.pmemWriteData else PmemWriteData(c))
  }

  predicate RamsAfter(c: Core, i: In, n: Core)
    requires Sized(c)
  {
    var w := WiresOf(c, i);
    && n.tag0 == TagRamNext(c.tag0, w.tagX, w.tagM, w.tagIn, w.tagWe0)
    && n.tag1 == TagRamNext(c.tag1, w.tagX, w.tagM, w.tagIn, w.tagWe1)
    && n.data0 == DataRamNext(c.data0, w.dataX, w.dataM, w.dataIn, w.dataWe0)
    && n.data1 == DataRamNext(c.data1, w.dataX, w.dataM, w.dataIn, w.dataWe1)
  }

  lemma Assembled(c: Core, i: In, n: Core)
    requires Sized(c) && RequestBufferAfter(c, i, n) && CountersAfter(c, i, n) && OutportAfter(c, i, n) && RamsAfter(c, i, n)
    ensures n == Next(c, i)
  {
    hide NextState, Accept, Ack, PmemRd, PmemWriteData, TagDataIn, TagWrite, TagAddrX, TagAddrM;
    hide DataAddrX, DataAddrM, DataWrite, DataIn, TagRamNext, DataRamNext;
    hide NextReplaceWay, NextFlushAddr, NextFlushing, NextFlushLast, NextDataWriteAddr, NextPmemLen, NextPmemAddr;
    hide NextPmemWr0, NextPmemWr;
  }

  /** Clocking the RAMs leaves the registers alone. */
  lemma SameRegisters(c: Core, i: In, r: Core, n: Core)
    requires Sized(c) && RequestBufferAfter(c, i, r) && CountersAfter(c, i, r) && OutportAfter(c, i, r)
    requires n == r.(tag0 := n.tag0, tag1 := n.tag1, data0 := n.data0, data1 := n.data1)
    ensures RequestBufferAfter(c, i, n) && CountersAfter(c, i, n) && OutportAfter(c, i, n)
  {
  }

  /** dcache_core. */
  class DCache {
    var state: State
    var m: Buffer
    const tag0: TagRamBlock
    const tag1: TagRamBlock
    const data0: DataRamBlock
    const data1: DataRamBlock
    var dataWriteAddr: nat
    var flushAddr: nat
    var flushing: bool
    var flushLast: bool
    var replaceWay: bool
    var pmemRd: bool
    var pmemWr0: bool
    var pmemLen: nat
    var pmemAddr: nat
    var pmemWr: bool
    var pmemWriteData: Word

    ghost function Repr(): set<object> reads this {
      {this, tag0, tag1, data0, data1, tag0.ram, tag1.ram, data0.ram, data1.ram}
    }

    function View(): Core reads Repr() {
      Core(state, m, tag0.View(), tag1.View(), data0.View(), data1.View(),
           dataWriteAddr, flushAddr, flushing, flushLast, replaceWay,
           pmemRd, pmemWr0, pmemLen, pmemAddr, pmemWr, pmemWriteData)
    }

    ghost predicate Valid() reads Repr() {
      && tag0 != tag1 && data0 != data1 && tag0.ram != tag1.ram && data0.ram != data1.ram
      && tag0.Valid() && tag1.Valid() && data0.Valid() && data1.Valid()
      && Sized(View())
    }

    /** The state the reset input leaves; the RAMs keep whatever they contain. */
    constructor (t0: TagRamBlock, t1: TagRamBlock, d0: DataRamBlock, d1: DataRamBlock)
      requires t0 != t1 && d0 != d1 && t0.ram != t1.ram && d0.ram != d1.ram
      requires t0.Valid() && t1.Valid() && d0.Valid() && d1.Valid()
      ensures Valid() && state == Reset && flushAddr == 0 && !flushing && !flushLast && !replaceWay
      ensures m == NO_REQUEST && !pmemRd && !pmemWr && !pmemWr0
    {
      state := Reset;
      m := NO_REQUEST;
      tag0, tag1, data0, data1 := t0, t1, d0, d1;
      dataWriteAddr, flushAddr, flushing, flushLast, replaceWay := 0, 0, false, false, false;
      pmemRd, pmemWr0, pmemLen, pmemAddr, pmemWr, pmemWriteData := false, false, 0, 0, false, ZERO_WORD;
    }

    /** The tag comparators and the dirty-line tests. */
    method Compare() returns (hit0: bool, hit1: bool, evictWay: bool, dirtyAny: bool)
      requires Valid()
      ensures hit0 == Hit0(View()) && hit1 == Hit1(View())
      ensures evictWay == EvictWay(View()) && dirtyAny == DirtyAny(View())
    {
      hit0 := tag0.out.valid && tag0.out.addr == m.addr.tag;
      hit1 := tag1.out.valid && tag1.out.addr == m.addr.tag;
      var dirty0, dirty1 := tag0.out.valid && tag0.out.dirty, tag1.out.valid && tag1.out.dirty;
      evictWay := (flushing || !(hit0 || hit1)) && (if replaceWay then dirty1 else dirty0);
      dirtyAny := dirty0 || dirty1;
    }

    /** The answer to the requester. */
    method Handshake(i: In, hit0: bool, hit1: bool) returns (accept: bool, ack: bool, tag: nat, value: Word)
      requires Valid() && hit0 == Hit0(View()) && hit1 == Hit1(View())
      ensures accept == Accept(View(), i) && ack == Ack(View()) && tag == View().m.tag && value == ReadValue(View())
    {
      var hit := hit0 || hit1;
      var access := m.rd || Any(m.wr);
      accept := state == Lookup && !(access && !hit) && !(Any(m.wr) && i.rd && i.addr == m.addr);
      ack := state == Lookup && ((access && hit) || m.flush || m.writeback);
      tag := m.tag;
      value := if hit0 then data0.out else if hit1 then data1.out else data0.out;
    }

    /** The next-state block, for the states that look at the tags. */
    method NextFromTags(i: In, hit0: bool, hit1: bool, evictWay: bool, dirtyAny: bool) returns (next: State)
      requires Valid() && (state == Lookup || state == Flush || state == Writeback)
      requires hit0 == Hit0(View()) && hit1 == Hit1(View())
      requires evictWay == EvictWay(View()) && dirtyAny == DirtyAny(View())
      ensures next == NextState(View(), i)
    {
      var miss := (m.rd || Any(m.wr)) && !(hit0 || hit1);
      var accept := !miss && !(Any(m.wr) && i.rd && i.addr == m.addr);
      if state == Flush {
        next := if dirtyAny then (if evictWay then Evict else Flush) else if flushLast then Lookup else FlushAddr;
      } else if state == Writeback {
        next := if (hit0 && tag0.out.dirty) || (hit1 && tag1.out.dirty) then Evict else Lookup;
      } else if miss {
        next := if evictWay then Evict else Refill;
      } else if i.writeback && accept {
        next := Writeback;
      } else if i.flush && accept {
        next := FlushAddr;
      } else {
        next := Lookup;
      }
    }

    /** The next-state block. */
    method NextStateLogic(i: In, hit0: bool, hit1: bool, evictWay: bool, dirtyAny: bool) returns (next: State)
      requires Valid() && hit0 == Hit0(View()) && hit1 == Hit1(View())
      requires evictWay == EvictWay(View()) && dirtyAny == DirtyAny(View())
      ensures next == NextState(View(), i)
    {
      match state
      case Reset => next := if flushLast then Lookup else Reset;
      case FlushAddr => next := Flush;
      case Refill => next := if i.ack && pmemLen == 0 then (if Any(m.wr) then Write else Read) else Refill;
      case Read => next := Lookup;
      case Write => next := Lookup;
      case Evict => next := if i.accept && pmemLen == 0 then EvictWait else Evict;
      case EvictWait =>
        next := if !i.ack then EvictWait else if m.writeback then Lookup else if flushing then FlushAddr else Refill;
      case _ => next := NextFromTags(i, hit0, hit1, evictWay, dirtyAny);
    }

    /** The outport's combinational outputs. */
    method Outport(i: In, next: State, evictWay: bool) returns (rd: bool, wr: bool, len: nat, addr: nat, data: Word)
      requires Valid() && next == NextState(View(), i) && evictWay == EvictWay(View())
      ensures rd == PmemRd(View(), i) && wr == PmemWr(View()) && len == PmemLen(View(), i)
      ensures addr == PmemAddr(View(), i) && data == PmemWriteData(View())
    {
      hide NextState;
      rd := (state != Refill && next == Refill) || pmemRd;
      wr := (state == Evict && (evictWay || m.writeback)) || pmemWr;
      len := if rd || (state == Evict && pmemWr0) then 7 else 0;
      if len == 0 {
        addr := pmemAddr;
      } else if rd {
        addr := Index(LineBase(m.addr));
      } else {
        addr := Index(Addr(if replaceWay then tag1.out.addr else tag0.out.addr,
                           if flushing then flushAddr else m.addr.line, 0));
      }
      data := if pmemWr then pmemWriteData else if replaceWay then data1.out else data0.out;
    }

    /** The tag RAM ports. */
    method TagPorts(i: In, next: State, hit0: bool, hit1: bool, dirtyAny: bool)
      returns (x: nat, y: nat, data: Tag, we0: bool, we1: bool)
      requires Valid() && next == NextState(View(), i)
      requires hit0 == Hit0(View()) && hit1 == Hit1(View()) && dirtyAny == DirtyAny(View())
      ensures x == TagAddrX(View(), i) && y == TagAddrM(View()) && data == TagDataIn(View())
      ensures we0 == TagWrite(View(), i, false) && we1 == TagWrite(View(), i, true)
      ensures x < LINES && y < LINES
    {
      hide NextState;
      x := if state == Lookup && (next == Lookup || next == Writeback) then i.addr.line
           else if flushing then flushAddr else m.addr.line;
      y := if flushing || state == Reset then flushAddr else m.addr.line;
      data := NO_TAG;
      if state == Flush || state == Reset || flushing {
      } else if state == Refill || state == EvictWait {
        data := Tag(true, false, m.addr.tag);
      } else if state == Write || (state == Lookup && Any(m.wr)) {
        data := Tag(true, true, m.addr.tag);
      }
      we0, we1 := false, false;
      if state == Reset {
        we0, we1 := true, true;
      } else if state == Flush {
        we0, we1 := !dirtyAny, !dirtyAny;
      } else if state == Lookup && Any(m.wr) {
        we0, we1 := hit0, hit1;
      } else if state == Write || (state == EvictWait && i.ack) || (state == Refill && i.ack && pmemLen == 0) {
        we0, we1 := !replaceWay, replaceWay;
      }
    }

    /** The data RAM ports. */
    method DataPorts(i: In, next: State, hit0: bool, hit1: bool)
      returns (x: nat, y: nat, data: Word, we0: Strobe, we1: Strobe)
      requires Valid() && next == NextState(View(), i) && hit0 == Hit0(View()) && hit1 == Hit1(View())
      ensures x == DataAddrX(View(), i) && y == DataAddrM(View(), i) && data == DataIn(View(), i)
      ensures we0 == DataWrite(View(), i, false) && we1 == DataWrite(View(), i, true)
      ensures x < RAM_WORDS && y < RAM_WORDS
    {
      hide NextState;
      x, y := RamIndex(i.addr.line, i.addr.word), RamIndex(m.addr.line, m.addr.word);
      if state == Refill || state == Evict {
        x, y := dataWriteAddr, dataWriteAddr;
      } else if state == Flush || state == Reset {
        x, y := RamIndex(flushAddr, 0), RamIndex(flushAddr, 0);
      } else if next == Evict {
        x, y := RamIndex(m.addr.line, 0), RamIndex(m.addr.line, 0);
      } else if state == Read {
        x := y;
      }
      data := if state == Refill then i.readData else m.data;
      we0, we1 := NO_STROBE, NO_STROBE;
      if state == Refill && i.ack {
        if replaceWay { we1 := Strobe(true, true, true, true); } else { we0 := Strobe(true, true, true, true); }
      } else if state == Write || state == Lookup {
        we0, we1 := if hit0 then m.wr else NO_STROBE, if hit1 then m.wr else NO_STROBE;
      }
    }

    /** All combinational signals of this clock. */
    method Combine(i: In) returns (o: Out, w: Wires)
      requires Valid()
      ensures o == OutOf(View(), i) && w == WiresOf(View(), i)
      ensures w.tagX < LINES && w.tagM < LINES && w.dataX < RAM_WORDS && w.dataM < RAM_WORDS
    {
      var hit0, hit1, evictWay, dirtyAny := Compare();
      var accept, ack, tag, value := Handshake(i, hit0, hit1);
      hide DCache.View, NextState, Accept, Ack, EvictWay, DirtyAny, Hit0, Hit1, ReadValue;
      hide PmemRd, PmemWr, PmemLen, PmemAddr, PmemWriteData, TagDataIn, TagWrite, TagAddrX, TagAddrM;
      hide DataAddrX, DataAddrM, DataWrite, DataIn;
      var next := NextStateLogic(i, hit0, hit1, evictWay, dirtyAny);
      var rd, wr, len, addr, wdata := Outport(i, next, evictWay);
      o := Out(accept, ack, tag, value, rd, wr, len, addr, wdata);
      var tagX, tagM, tagIn, tagWe0, tagWe1 := TagPorts(i, next, hit0, hit1, dirtyAny);
      var dataX, dataM, dataIn, dataWe0, dataWe1 := DataPorts(i, next, hit0, hit1);
      w := Wires(next, hit0, hit1, evictWay, dirtyAny, tagX, tagM, tagIn, tagWe0, tagWe1,
                 dataX, dataM, dataIn, dataWe0, dataWe1);
    }

    /** One rising clock edge: every register is updated from the values before it. */
    method Clock(i: In) returns (o: Out)
      requires Valid()
      modifies Repr()
      ensures Valid() && View() == Next(old(View()), i) && o == old(OutOf(View(), i))
    {
      hide Next, OutOf, WiresOf, RequestBufferAfter, CountersAfter, OutportAfter, TagRamNext, DataRamNext;
      ghost var c := View();
      NextSized(c, i);
      var w: Wires;
      o, w := Combine(i);
      RegistersOfView();
      ClockRegisters(c, i, o, w);
      ghost var r := View();
      ClockRams(w);
      RegistersOfView();
      SameRegisters(c, i, r, View());
      Assembled(c, i, View());
    }

    /** `c` has this cache's register values. */
    ghost predicate Registers(c: Core) reads this {
      && (c.state, c.m, c.dataWriteAddr, c.flushAddr) == (state, m, dataWriteAddr, flushAddr)
      && (c.flushing, c.flushLast, c.replaceWay, c.pmemRd) == (flushing, flushLast, replaceWay, pmemRd)
      && (c.pmemWr0, c.pmemLen, c.pmemAddr, c.pmemWr, c.pmemWriteData)
         == (pmemWr0, pmemLen, pmemAddr, pmemWr, pmemWriteData)
    }

    lemma RegistersOfView()
      ensures Registers(View())
      ensures (View().tag0, View().tag1) == (tag0.View(), tag1.View())
      ensures (View().data0, View().data1) == (data0.View(), data1.View())
    {
    }

    method ClockRams(w: Wires)
      requires tag0 != tag1 && data0 != data1 && tag0.ram != tag1.ram && data0.ram != data1.ram
      requires tag0.Valid() && tag1.Valid() && data0.Valid() && data1.Valid()
      requires w.tagX < LINES && w.tagM < LINES && w.dataX < RAM_WORDS && w.dataM < RAM_WORDS
      modifies tag0, tag1, data0, data1, tag0.ram, tag1.ram, data0.ram, data1.ram
      ensures tag0.Valid() && tag1.Valid() && data0.Valid() && data1.Valid()
      ensures tag0.View() == TagRamNext(old(tag0.View()), w.tagX, w.tagM, w.tagIn, w.tagWe0)
      ensures tag1.View() == TagRamNext(old(tag1.View()), w.tagX, w.tagM, w.tagIn, w.tagWe1)
      ensures data0.View() == DataRamNext(old(data0.View()), w.dataX, w.dataM, w.dataIn, w.dataWe0)
      ensures data1.View() == DataRamNext(old(data1.View()), w.dataX, w.dataM, w.dataIn, w.dataWe1)
    {
      tag0.Clock(w.tagX, w.tagM, w.tagIn, w.tagWe0);
      tag1.Clock(w.tagX, w.tagM, w.tagIn, w.tagWe1);
      data0.Clock(w.dataX, w.dataM, w.dataIn, w.dataWe0);
      data1.Clock(w.dataX, w.dataM, w.dataIn, w.dataWe1);
    }

    /** The registers, one always-block after another. */
    method ClockRegisters(ghost c: Core, i: In, o: Out, w: Wires)
      requires Sized(c) && Registers(c) && o == OutOf(c, i) && w == WiresOf(c, i)
      modifies this
      ensures RequestBufferAfter(c, i, View()) && CountersAfter(c, i, View()) && OutportAfter(c, i, View())
    {
      hide NextState, Accept, Ack, EvictWay, DirtyAny, Hit0, Hit1, ReadValue;
      hide PmemRd, PmemWr, PmemLen, PmemAddr, PmemWriteData, TagDataIn, TagWrite, TagAddrX, TagAddrM;
      hide DataAddrX, DataAddrM, DataWrite, DataIn, TagRamNext, DataRamNext;
      hide NextReplaceWay, NextFlushAddr, NextFlushing, NextFlushLast, NextDataWriteAddr, NextPmemLen, NextPmemAddr;
      hide NextPmemWr0, NextPmemWr;
      ClockRequestBuffer(c, i, o.accept, o.ack);
      ClockCounters(c, i, o, w);
      ClockPmem(c, i, o, w);
      state := w.next;
    }

    method ClockCounters(ghost c: Core, i: In, o: Out, w: Wires)
      requires Sized(c) && o == OutOf(c, i) && w == WiresOf(c, i)
      requires (c.state, c.dataWriteAddr, c.flushAddr) == (state, dataWriteAddr, flushAddr)
      requires (c.flushing, c.flushLast, c.replaceWay) == (flushing, flushLast, replaceWay)
      modifies this`dataWriteAddr, this`flushAddr, this`flushing, this`flushLast, this`replaceWay
      ensures CountersAfter(c, i, View())
    {
      hide NextReplaceWay, NextFlushAddr, NextFlushing, NextFlushLast, NextDataWriteAddr, NextState;
      ClockRefillAddress(c, i, w.next, w.dataM, o.pmemAddr);
      ClockReplaceWay(c, i, w.next, w.hit0, w.hit1, w.evictWay, w.dirtyAny);
      ClockFlushCounter(c, i, w.next);
    }

    method ClockPmem(ghost c: Core, i: In, o: Out, w: Wires)
      requires Sized(c) && o == OutOf(c, i) && w == WiresOf(c, i)
      requires (c.state, c.pmemRd, c.pmemWr0, c.pmemLen) == (state, pmemRd, pmemWr0, pmemLen)
      requires (c.pmemAddr, c.pmemWr, c.pmemWriteData) == (pmemAddr, pmemWr, pmemWriteData)
      modifies this`pmemRd, this`pmemWr0, this`pmemLen, this`pmemAddr, this`pmemWr, this`pmemWriteData
      ensures OutportAfter(c, i, View())
    {
      hide NextPmemLen, NextPmemAddr, NextPmemWr0, NextPmemWr, NextState;
      ClockBurst(c, i, w.next, o.pmemRd, o.pmemLen, o.pmemAddr);
      ClockOutport(c, i, w.next, o.pmemRd, o.pmemWr, o.pmemWriteData);
    }

    method ClockRequestBuffer(ghost c: Core, i: In, accept: bool, ack: bool)
      requires c.m == m && accept == Accept(c, i) && ack == Ack(c)
      modifies this`m
      ensures m == NextBuffer(c, i)
    {
      hide Accept, Ack;
      if accept {
        m := Buffer(i.addr, i.data, i.wr, i.rd, i.reqTag, i.writeback, i.flush);
      } else if ack {
        m := NO_REQUEST;
      }
    }

    method ClockRefillAddress(ghost c: Core, i: In, next: State, dataM: nat, addr: nat)
      requires Sized(c) && (c.state, c.dataWriteAddr) == (state, dataWriteAddr)
      requires next == NextState(c, i) && dataM == DataAddrM(c, i) && addr == PmemAddr(c, i)
      modifies this`dataWriteAddr
      ensures dataWriteAddr == NextDataWriteAddr(c, i)
    {
      hide NextState, DataAddrM, PmemAddr;
      if state != Refill && next == Refill {
        dataWriteAddr := addr % 2048;
      } else if state != Evict && next == Evict {
        dataWriteAddr := (dataM + 1) % 2048;
      } else if (state == Refill && i.ack) || (state == Evict && i.accept) {
        dataWriteAddr := (dataWriteAddr + 1) % 2048;
      }
    }

    method ClockReplaceWay(ghost c: Core, i: In, next: State, hit0: bool, hit1: bool, evictWay: bool, dirtyAny: bool)
      requires (c.state, c.replaceWay) == (state, replaceWay) && next == NextState(c, i)
      requires hit0 == Hit0(c) && hit1 == Hit1(c) && evictWay == EvictWay(c) && dirtyAny == DirtyAny(c)
      requires c.flushing == flushing
      modifies this`replaceWay
      ensures replaceWay == NextReplaceWay(c, i)
    {
      hide NextState, Hit0, Hit1, EvictWay, DirtyAny;
      if state == Write || state == Read {
        replaceWay := !replaceWay;
      } else if flushing && dirtyAny && !evictWay && state != FlushAddr {
        replaceWay := !replaceWay;
      } else if state == EvictWait && next == FlushAddr {
        replaceWay := false;
      } else if state == Flush && next == Lookup {
        replaceWay := false;
      } else if state == Lookup && next == FlushAddr {
        replaceWay := false;
      } else if state == Writeback {
        if hit0 { replaceWay := false; } else if hit1 { replaceWay := true; }
      }
    }

    method ClockFlushCounter(ghost c: Core, i: In, next: State)
      requires (c.state, c.flushAddr, c.flushing, c.flushLast) == (state, flushAddr, flushing, flushLast)
      requires next == NextState(c, i)
      modifies this`flushAddr, this`flushing, this`flushLast
      ensures flushAddr == NextFlushAddr(c, i) && flushing == NextFlushing(c, i) && flushLast == NextFlushLast(c)
    {
      hide NextState;
      if state == Lookup {
        flushLast := false;
      } else if flushAddr == LINES - 1 {
        flushLast := true;
      }
      if state == Reset || (state == Flush && next == FlushAddr) {
        flushAddr := (flushAddr + 1) % 256;
      } else if state == Lookup {
        flushAddr := 0;
      }
      if state == Lookup && next == FlushAddr {
        flushing := true;
      } else if state == Flush && next == Lookup {
        flushing := false;
      }
    }

    /** The burst counters of the outport. */
    method ClockBurst(ghost c: Core, i: In, next: State, rd: bool, len: nat, addr: nat)
      requires Sized(c) && (c.state, c.pmemLen, c.pmemAddr) == (state, pmemLen, pmemAddr)
      requires next == NextState(c, i) && rd == PmemRd(c, i) && len == PmemLen(c, i) && addr == PmemAddr(c, i)
      modifies this`pmemLen, this`pmemAddr
      ensures pmemLen == NextPmemLen(c, i) && pmemAddr == NextPmemAddr(c, i)
    {
      hide NextState, PmemRd, PmemLen, PmemAddr;
      if state != Evict && next == Evict {
        pmemLen := 7;
      } else if rd && i.accept {
        pmemLen := len;
      } else if (state == Refill && i.ack) || (state == Evict && i.accept) {
        pmemLen := (pmemLen + 255) % 256;
      }
      if len != 0 && i.accept {
        pmemAddr := (addr + 1) % 0x4000_0000;
      } else if i.accept {
        pmemAddr := (pmemAddr + 1) % 0x4000_0000;
      }
    }

    /** The outport request flags and the write skid buffer. */
    method ClockOutport(ghost c: Core, i: In, next: State, rd: bool, wr: bool, wdata: Word)
      requires (c.state, c.pmemRd, c.pmemWr0, c.pmemWr, c.pmemWriteData)
            == (state, pmemRd, pmemWr0, pmemWr, pmemWriteData)
      requires next == NextState(c, i) && rd == PmemRd(c, i) && wr == PmemWr(c) && wdata == PmemWriteData(c)
      modifies this`pmemRd, this`pmemWr0, this`pmemWr, this`pmemWriteData
      ensures pmemRd == (if PmemRd(c, i) then !i.accept else c.pmemRd)
      ensures pmemWr0 == NextPmemWr0(c, i) && pmemWr == NextPmemWr(c, i)
      ensures pmemWriteData == (if i.accept then c.pmemWriteData else PmemWriteData(c))
    {
      hide NextState, PmemRd, PmemWr, PmemWriteData;
      if rd { pmemRd := !i.accept; }
      if state != Evict && next == Evict {
        pmemWr0 := true;
      } else if i.accept {
        pmemWr0 := false;
      }
      if wr && !i.accept {
        pmemWr := true;
      } else if i.accept {
        pmemWr := false;
      }
      if !i.accept { pmemWriteData := wdata; }
    }
  }
}
