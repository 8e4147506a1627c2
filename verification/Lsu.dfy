/** The load/store unit: byte lanes, one outstanding access, and the squash behind a fault. */
module Lsu {
  import opened Words
  import Fifo

  // ---------------------------------------------------------------------------- Instructions

  datatype Kind = Load | Store | Maintain | Other

  datatype Size = Byte | Half | Full

  /** What the unit decodes from an instruction. Maintain stands for the three cache operations;
      Other for everything the unit ignores. `offset` is the sign-extended immediate. */
  datatype Op = Op(kind: Kind, size: Size, signed: bool, base: nat, offset: int, data: Word)

  const NO_OP := Op(Other, Byte, false, 0, 0, ZERO_WORD)

  function Address(op: Op): nat {
    if op.kind == Maintain then op.base else (op.base + op.offset) % 0x1_0000_0000
  }

  predicate Misaligned(op: Op) {
    && (op.kind == Load || op.kind == Store)
    && (match op.size case Byte => false case Half => Address(op) % 2 != 0 case Full => Address(op) % 4 != 0)
  }

  predicate IsMemory(op: Op) { op.kind != Other }

  // ---------------------------------------------------------------------------- Instruction set

  function Bytes(size: Size): nat { match size case Byte => 1 case Half => 2 case Full => 4 }

  /** Section 2.6 of the RISC-V Unprivileged ISA 20191213: a load or store is to the word congruent to
      its base plus its offset; a cache operation names the address in its register. */
  function Effective(op: Op): (a: nat)
    ensures a < 0x1_0000_0000 || op.kind == Maintain
    ensures op.kind != Maintain ==> (a - (op.base + op.offset)) % 0x1_0000_0000 == 0
    ensures op.kind == Maintain ==> a == op.base
  {
    if op.kind == Maintain then op.base
    else
      var sum := op.base + op.offset;
      var q := sum / 0x1_0000_0000;
      MultipleOf(-q);
      assert sum - q * 0x1_0000_0000 - sum == -q * 0x1_0000_0000;
      sum - q * 0x1_0000_0000
  }

  lemma MultipleOf(k: int)
    ensures (k * 0x1_0000_0000) % 0x1_0000_0000 == 0
  {
  }

  /** The access is a load or store whose address is not a multiple of its size. */
  predicate Unaligned(op: Op) {
    (op.kind == Load || op.kind == Store) && Effective(op) % Bytes(op.size) != 0
  }

  /** The unit's adder and its alignment check are those of the instruction set. */
  lemma AddressIsEffective(op: Op)
    ensures Address(op) == Effective(op) && (Misaligned(op) <==> Unaligned(op))
  {
    if op.kind != Maintain {
      var sum := op.base + op.offset;
      var k, l := (Effective(op) - sum) / 0x1_0000_0000, -(sum / 0x1_0000_0000);
      assert Effective(op) - Address(op) == 0x1_0000_0000 * (k - l);
    }
  }

  // ---------------------------------------------------------------------------- Lanes

  /** The store data, moved to the lanes it is for. */
  function StoreData(op: Op): Word {
    var d, lane := op.data, Address(op) % 4;
    match op.size
    case Full => d
    case Half => if lane == 2 then Word(0, 0, d.b0, d.b1) else Word(d.b0, d.b1, 0, 0)
    case Byte =>
      if lane == 3 then Word(0, 0, 0, d.b0) else if lane == 2 then Word(0, 0, d.b0, 0)
      else if lane == 1 then Word(0, d.b0, 0, 0) else Word(d.b0, 0, 0, 0)
  }

  function StoreLanes(op: Op): Strobe {
    var lane := Address(op) % 4;
    match op.size
    case Full => Strobe(true, true, true, true)
    case Half => if lane == 2 then Strobe(false, false, true, true) else Strobe(true, true, false, false)
    case Byte => Strobe(lane == 0, lane == 1, lane == 2, lane == 3)
  }

  /** What is filled in above a loaded byte or half word. */
  function Fill(signed: bool, top: bv8): bv8 {
    if signed && top >= 0x80 then 0xFF else 0
  }

  /** The loaded value, taken from its lanes. */
  function Extract(w: Word, lane: nat, byte: bool, half: bool, signed: bool): Word {
    if byte then
      var b := if lane == 3 then w.b3 else if lane == 2 then w.b2 else if lane == 1 then w.b1 else w.b0;
      var f := Fill(signed, b);
      Word(b, f, f, f)
    else if half then
      var lo, hi := if lane >= 2 then w.b2 else w.b0, if lane >= 2 then w.b3 else w.b1;
      var f := Fill(signed, hi);
      Word(lo, hi, f, f)
    else w
  }

  // ---------------------------------------------------------------------------- Bytes

  function Lane(w: Word, k: nat): bv8 {
    if k == 0 then w.b0 else if k == 1 then w.b1 else if k == 2 then w.b2 else w.b3
  }

  /** One byte of memory. */
  function ByteAt(m: Mem, a: nat): bv8 { Lane(Rd(m, a / 4), a % 4) }

  /** The value a load must return: the bytes at its address, little-endian, extended. */
  function Loaded(m: Mem, a: nat, size: Size, signed: bool): Word {
    match size
    case Byte => var f := Fill(signed, ByteAt(m, a)); Word(ByteAt(m, a), f, f, f)
    case Half => var f := Fill(signed, ByteAt(m, a + 1)); Word(ByteAt(m, a), ByteAt(m, a + 1), f, f)
    case Full => Word(ByteAt(m, a), ByteAt(m, a + 1), ByteAt(m, a + 2), ByteAt(m, a + 3))
  }

  /** The number a word, read without or with its sign, and one of fewer bits stand for. */
  function Unsigned(w: Word): int {
    w.b0 as int + 0x100 * (w.b1 as int) + 0x1_0000 * (w.b2 as int) + 0x100_0000 * (w.b3 as int)
  }

  function WithSign(n: int, half: int): int { if n < half then n else n - 2 * half }

  /** A load extends: read with its sign after a signed load, and without it after an unsigned one, the
      result is the number in the bytes at the address. */
  lemma LoadedExtends(m: Mem, a: nat, size: Size, signed: bool)
    ensures var byte := ByteAt(m, a) as int;
            var half := byte + 0x100 * (ByteAt(m, a + 1) as int);
            var n := Unsigned(Loaded(m, a, size, signed));
            && (size == Byte ==> if signed then WithSign(n, 0x8000_0000) == WithSign(byte, 0x80) else n == byte)
            && (size == Half ==> if signed then WithSign(n, 0x8000_0000) == WithSign(half, 0x8000) else n == half)
            && (size == Full ==>
                  n == half + 0x1_0000 * (ByteAt(m, a + 2) as int) + 0x100_0000 * (ByteAt(m, a + 3) as int))
  {
    hide ByteAt;
    SignBit(ByteAt(m, a));
    SignBit(ByteAt(m, a + 1));
  }

  lemma SignBit(x: bv8)
    ensures x >= 0x80 <==> x as int >= 0x80
    ensures 0 <= x as int < 0x100
  {
  }

  /** The memory after a store. */
  function Stored(m: Mem, op: Op): Mem {
    Wr(m, Effective(op) / 4, StoreData(op), StoreLanes(op))
  }

  lemma ByteOfWord(m: Mem, a: nat, k: nat)
    requires a % 4 + k < 4
    ensures ByteAt(m, a + k) == Lane(Rd(m, a / 4), a % 4 + k)
  {
    assert (a + k) / 4 == a / 4 && (a + k) % 4 == a % 4 + k;
  }

  /** Extraction finds the bytes at the address. */
  lemma ExtractIsLoaded(m: Mem, op: Op)
    requires op.kind == Load && !Unaligned(op)
    ensures Extract(Rd(m, Effective(op) / 4), Effective(op) % 4, op.size == Byte, op.size == Half, op.signed)
         == Loaded(m, Effective(op), op.size, op.signed)
  {
    var a := Effective(op);
    AddressIsEffective(op);
    if op.size != Byte { ByteOfWord(m, a, 1); }
    if op.size == Full { ByteOfWord(m, a, 2); ByteOfWord(m, a, 3); }
  }

  /** A store changes exactly the bytes it names. */
  lemma StoreChanges(m: Mem, op: Op, x: nat)
    requires op.kind == Store && !Unaligned(op)
    ensures var a := Effective(op);
            ByteAt(Stored(m, op), x) == if a <= x < a + Bytes(op.size) then Lane(op.data, x - a) else ByteAt(m, x)
  {
    var a := Effective(op);
    AddressIsEffective(op);
    if x / 4 == a / 4 {
      assert x - a == x % 4 - a % 4;
    }
  }

  /** A load of the size and address just stored returns the stored bytes, extended. */
  lemma LoadAfterStore(m: Mem, st: Op, signed: bool)
    requires st.kind == Store && !Unaligned(st)
    ensures Loaded(Stored(m, st), Effective(st), st.size, signed) == Extract(st.data, 0, st.size == Byte, st.size == Half, signed)
  {
    var a := Effective(st);
    StoreChanges(m, st, a);
    StoreChanges(m, st, a + 1);
    StoreChanges(m, st, a + 2);
    StoreChanges(m, st, a + 3);
  }

  // ---------------------------------------------------------------------------- Registers

  /** The access waiting to be presented. */
  datatype Stage = Stage(
    addr: nat, data: Word, rd: bool, wr: Strobe, maintain: bool, unaligned: bool,
    load: bool, byte: bool, half: bool, signed: bool)

  const NO_STAGE := Stage(0, ZERO_WORD, false, NO_STROBE, false, false, false, false, false, false)

  /** What the response FIFO remembers of an access. */
  datatype Entry = Entry(addr: nat, signed: bool, half: bool, byte: bool, load: bool)

  datatype Regs = Regs(q: Stage, unalignedE2: bool, pending: bool, fifo: seq<Entry>)

  const RESET := Regs(NO_STAGE, false, false, [])

  /** Why the bus refused an access. */
  datatype Fault = BusFault | LoadPageFault | StorePageFault

  /** One clock of inputs: the issued instruction (if `issue`), and the data port's answers. */
  datatype In = In(issue: bool, op: Op, accept: bool, ack: bool, error: bool, fault: Fault, readData: Word)

  // ---------------------------------------------------------------------------- Signals

  predicate Delay(s: Regs, i: In) { s.pending && !(i.ack && !i.error) }

  /** An access or cache operation is on the data port. */
  predicate Presents(s: Regs, i: In) {
    ((s.q.rd || Any(s.q.wr)) && !Delay(s, i)) || s.q.maintain
  }

  predicate Stall(s: Regs, i: In) {
    (Presents(s, i) && !i.accept) || Delay(s, i) || s.q.unaligned
  }

  predicate Push(s: Regs, i: In) {
    (Presents(s, i) && i.accept) || (s.q.unaligned && !Delay(s, i))
  }

  predicate Pop(s: Regs, i: In) { i.ack || s.unalignedE2 }

  /** The stage an issued instruction enters. */
  function Decode(op: Op): Stage {
    if op.kind == Other then NO_STAGE
    else
      var bad := Misaligned(op);
      var store := op.kind == Store && !bad;
      Stage(Address(op),
            if store then StoreData(op) else ZERO_WORD, op.kind == Load && !bad,
            if store then StoreLanes(op) else NO_STROBE, op.kind == Maintain, bad,
            op.kind == Load, op.kind != Maintain && op.size == Byte, op.kind != Maintain && op.size == Half,
            op.kind == Load && op.signed)
  }

  function EntryOf(q: Stage): Entry { Entry(q.addr, q.signed, q.half, q.byte, q.load) }

  // ---------------------------------------------------------------------------- Write-back

  datatype Code = NoFault | MisalignedLoad | MisalignedStore | FaultLoad | FaultStore | PageFaultLoad | PageFaultStore

  /** A completed access: the loaded value, or the address that faulted. */
  datatype Result = Value(word: Word) | BadAddress(addr: nat)

  datatype Completion = Completion(result: Result, code: Code)

  /** The unit's answer in a clock that completes an access described by `r`. */
  function Writeback(s: Regs, r: Entry, i: In): Completion {
    Completion(
      if (i.ack && i.error) || s.unalignedE2 then BadAddress(r.addr)
      else if i.ack && r.load then Value(Extract(i.readData, r.addr % 4, r.byte, r.half, r.signed))
      else Value(ZERO_WORD),
      if s.unalignedE2 then (if r.load then MisalignedLoad else MisalignedStore)
      else if i.error && i.fault == LoadPageFault then PageFaultLoad
      else if i.error && i.fault == StorePageFault then PageFaultStore
      else if i.error then (if r.load then FaultLoad else FaultStore)
      else NoFault)
  }

  // ---------------------------------------------------------------------------- Clock

  function NextStage(s: Regs, i: In): Stage {
    if (i.ack && i.error) || s.unalignedE2 then NO_STAGE
    else if (s.q.rd || Any(s.q.wr) || s.q.unaligned) && Delay(s, i) then s.q
    else if Presents(s, i) && !i.accept then s.q
    else if i.issue then Decode(i.op)
    else NO_STAGE
  }

  /** One rising clock edge. */
  function Next(s: Regs, i: In): Regs {
    Regs(NextStage(s, i),
         s.q.unaligned && !Delay(s, i),
         if Presents(s, i) && i.accept then true else if i.ack then false else s.pending,
         Fifo.Clocked(s.fifo, Push(s, i), EntryOf(s.q), Pop(s, i)))
  }

  // ---------------------------------------------------------------------------- Data port

  /** The access the data port has accepted and not answered. */
  datatype Request = Request(addr: nat, data: Word, rd: bool, wr: Strobe)

  datatype Port = Idle | Busy(req: Request)

  /** Memory behind the port; a store takes effect when it is acknowledged without error. */
  datatype Bus = Bus(mem: Mem, port: Port)

  function Presented(s: Regs): Request { Request(s.q.addr, s.q.data, s.q.rd, s.q.wr) }

  /** The port answers only what it has accepted, and a read with the word in memory. */
  predicate EnvOk(b: Bus, i: In) {
    && (i.ack ==> b.port.Busy?)
    && (i.ack && !i.error && b.port.Busy? && b.port.req.rd ==> i.readData == Rd(b.mem, b.port.req.addr / 4))
    && (i.error ==> i.ack)
  }

  function NextBus(s: Regs, b: Bus, i: In): Bus {
    var done := i.ack && !i.error && b.port.Busy? && Any(b.port.req.wr);
    Bus(if done then Wr(b.mem, b.port.req.addr / 4, b.port.req.data, b.port.req.wr) else b.mem,
        if Presents(s, i) && i.accept then Busy(Presented(s)) else if i.ack then Idle else b.port)
  }

  /** The pipeline issues only when the unit does not stall, and a cache operation only when no
      load or store stands before it. */
  predicate IssueOk(s: Regs, i: In) {
    && (i.issue ==> !Stall(s, i) && 0 <= i.op.base < 0x1_0000_0000)
    && (i.issue && i.op.kind == Maintain ==> s.q == NO_STAGE)
  }

  // ---------------------------------------------------------------------------- In-order memory

  /** A machine that serves its instructions one at a time, in order, on bytes of memory. */
  datatype Spec = Spec(mem: Mem, queue: seq<Op>, log: seq<Completion>)

  /** What an instruction ends in, if the bus answers it with `error`. */
  function Outcome(m: Mem, op: Op, error: bool, fault: Fault): Completion {
    if Unaligned(op) then
      Completion(BadAddress(Effective(op)), if op.kind == Load then MisalignedLoad else MisalignedStore)
    else if error then
      Completion(BadAddress(Effective(op)),
                 if fault == LoadPageFault then PageFaultLoad
                 else if fault == StorePageFault then PageFaultStore
                 else if op.kind == Load then FaultLoad else FaultStore)
    else Completion(Value(if op.kind == Load then Loaded(m, Address(op), op.size, op.signed) else ZERO_WORD), NoFault)
  }

  function Enqueue(p: Spec, op: Op): Spec {
    if IsMemory(op) then p.(queue := p.queue + [op]) else p
  }

  /** The oldest instruction completes. A fault drops everything behind it. */
  function Complete(p: Spec, error: bool, fault: Fault): Spec
    requires p.queue != []
  {
    var h := p.queue[0];
    var r := Outcome(p.mem, h, error, fault);
    if r.code != NoFault then Spec(p.mem, [], p.log + [r])
    else Spec(if h.kind == Store then Stored(p.mem, h) else p.mem, p.queue[1..], p.log + [r])
  }

  /** What one clock of the unit means for the in-order machine. */
  function SpecNext(s: Regs, p: Spec, i: In): Spec {
    var q := if i.issue then Enqueue(p, i.op) else p;
    if Pop(s, i) && q.queue != [] then Complete(q, i.error, i.fault) else q
  }

  /** The completion the unit announces in one clock. */
  function Announced(s: Regs, i: In): seq<Completion> {
    if Pop(s, i) && s.fifo != [] then [Writeback(s, s.fifo[0], i)] else []
  }

  // ---------------------------------------------------------------------------- Relation

  function RequestOf(op: Op): Request {
    var q := Decode(op);
    Request(q.addr, q.data, q.rd, q.wr)
  }

  /** The instruction in flight: accepted by the port, or a misaligned one about to be reported. */
  predicate InFlight(s: Regs, b: Bus, h: Op) {
    && IsMemory(h) && s.fifo == [EntryOf(Decode(h))]
    && (if s.pending then !s.unalignedE2 && !Misaligned(h) && b.port == Busy(RequestOf(h))
        else s.unalignedE2 && Misaligned(h) && b.port == Idle && s.q == NO_STAGE)
  }

  /** The instruction waiting to be presented. */
  predicate Waiting(s: Regs, rest: seq<Op>) {
    if rest == [] then s.q == NO_STAGE
    else |rest| == 1 && IsMemory(rest[0]) && s.q == Decode(rest[0]) && (rest[0].kind == Maintain ==> !s.pending)
  }

  /** The queue is the instruction in flight, if any, and the one waiting, if any. */
  predicate Rel(s: Regs, b: Bus, p: Spec) {
    && p.mem == b.mem
    && (if s.pending || s.unalignedE2 then p.queue != [] && InFlight(s, b, p.queue[0]) && Waiting(s, p.queue[1..])
        else s.fifo == [] && b.port == Idle && Waiting(s, p.queue))
  }

  lemma DecodeShape(op: Op)
    ensures var q := Decode(op);
            && (op.kind == Other ==> q == NO_STAGE)
            && (op.kind != Other ==> q.addr == Address(op) && q.load == (op.kind == Load) && q.unaligned == Misaligned(op))
            && q.rd == (op.kind == Load && !Misaligned(op)) && Any(q.wr) == (op.kind == Store && !Misaligned(op))
            && q.maintain == (op.kind == Maintain) && (op.kind == Maintain ==> !Misaligned(op))
  {
  }

  /** The completion announced is the in-order machine's. */
  lemma AnnouncesOutcome(s: Regs, b: Bus, p: Spec, i: In)
    requires Rel(s, b, p) && EnvOk(b, i) && Pop(s, i)
    ensures p.queue != [] && s.fifo != []
    ensures Writeback(s, s.fifo[0], i) == Outcome(p.mem, p.queue[0], i.error, i.fault)
  {
    hide Loaded, Extract;
    var h := p.queue[0];
    DecodeShape(h);
    AddressIsEffective(h);
    if s.pending && !i.error && h.kind == Load {
      ExtractIsLoaded(b.mem, h);
    }
  }

  /** The port's memory after a clock is the in-order machine's. */
  lemma SameMemory(s: Regs, b: Bus, p: Spec, i: In)
    requires Rel(s, b, p) && EnvOk(b, i)
    ensures NextBus(s, b, i).mem == SpecNext(s, p, i).mem
  {
    hide Loaded, StoreData, StoreLanes;
    if p.queue != [] {
      var h := p.queue[0];
      DecodeShape(h);
      AddressIsEffective(h);
      if h.kind == Store && !Misaligned(h) { StoreOf(h); }
    }
  }

  lemma StoreOf(op: Op)
    requires op.kind == Store && !Misaligned(op)
    ensures Decode(op).data == StoreData(op) && Decode(op).wr == StoreLanes(op)
  {
  }

  /** Every clock of the unit is a step of the in-order machine. */
  lemma Step(s: Regs, b: Bus, p: Spec, i: In)
    requires Rel(s, b, p) && EnvOk(b, i) && IssueOk(s, i)
    ensures Rel(Next(s, i), NextBus(s, b, i), SpecNext(s, p, i))
    ensures SpecNext(s, p, i).log == p.log + Announced(s, i)
  {
    SameMemory(s, b, p, i);
    hide Decode, Loaded, Stored, Address, Misaligned, Writeback, Effective, Unaligned;
    if i.issue { DecodeShape(i.op); }
    if Pop(s, i) {
      AnnouncesOutcome(s, b, p, i);
      hide Outcome;
      assert i.issue && IsMemory(i.op) ==> (p.queue + [i.op])[0] == p.queue[0];
      StepPop(s, b, p, i);
    } else {
      StepHold(s, b, p, i);
    }
  }

  lemma StepHold(s: Regs, b: Bus, p: Spec, i: In)
    requires Rel(s, b, p) && EnvOk(b, i) && IssueOk(s, i) && !Pop(s, i)
    requires NextBus(s, b, i).mem == SpecNext(s, p, i).mem
    ensures Rel(Next(s, i), NextBus(s, b, i), SpecNext(s, p, i))
  {
    hide Decode, Loaded, Stored, Address, Misaligned, Writeback, Effective, Unaligned;
    DecodeShape(i.op);
    DecodeShape(NO_OP);
    if p.queue != [] { DecodeShape(p.queue[0]); }
    if |p.queue| > 1 { DecodeShape(p.queue[1]); }
    }

  lemma StepPop(s: Regs, b: Bus, p: Spec, i: In)
    requires Rel(s, b, p) && EnvOk(b, i) && IssueOk(s, i) && Pop(s, i)
    requires NextBus(s, b, i).mem == SpecNext(s, p, i).mem
    ensures Rel(Next(s, i), NextBus(s, b, i), SpecNext(s, p, i))
  {
    hide Decode, Loaded, Stored, Address, Misaligned, Writeback, Effective, Unaligned;
    DecodeShape(i.op);
    DecodeShape(NO_OP);
    DecodeShape(p.queue[0]);
    AddressIsEffective(p.queue[0]);
    if |p.queue| > 1 { DecodeShape(p.queue[1]); }
  }

  // ---------------------------------------------------------------------------- Runs

  function Run(s: Regs, ins: seq<In>): Regs
    decreases |ins|
  {
    if ins == [] then s else Run(Next(s, ins[0]), ins[1..])
  }

  function RunBus(s: Regs, b: Bus, ins: seq<In>): Bus
    decreases |ins|
  {
    if ins == [] then b else RunBus(Next(s, ins[0]), NextBus(s, b, ins[0]), ins[1..])
  }

  function RunSpec(s: Regs, p: Spec, ins: seq<In>): Spec
    decreases |ins|
  {
    if ins == [] then p else RunSpec(Next(s, ins[0]), SpecNext(s, p, ins[0]), ins[1..])
  }

  predicate Legal(s: Regs, b: Bus, ins: seq<In>)
    decreases |ins|
  {
    ins == [] ||
    (EnvOk(b, ins[0]) && IssueOk(s, ins[0]) && Legal(Next(s, ins[0]), NextBus(s, b, ins[0]), ins[1..]))
  }

  /** The completions announced over a run. */
  function Completions(s: Regs, ins: seq<In>): seq<Completion>
    decreases |ins|
  {
    if ins == [] then [] else Announced(s, ins[0]) + Completions(Next(s, ins[0]), ins[1..])
  }

  lemma {:induction false} RunIsInOrder(s: Regs, b: Bus, p: Spec, ins: seq<In>)
    requires Rel(s, b, p) && Legal(s, b, ins)
    ensures Rel(Run(s, ins), RunBus(s, b, ins), RunSpec(s, p, ins))
    ensures RunSpec(s, p, ins).log == p.log + Completions(s, ins)
    decreases |ins|
  {
    hide Rel, Next, NextBus, SpecNext, EnvOk, IssueOk, Announced;
    if ins != [] {
      Step(s, b, p, ins[0]);
      RunIsInOrder(Next(s, ins[0]), NextBus(s, b, ins[0]), SpecNext(s, p, ins[0]), ins[1..]);
    }
  }

  /** The unit serves loads and stores in program order: after reset, for every stream of issued
      instructions and every accept and answer delay, the announced completions and the memory are
      those of the machine that serves one instruction at a time, and drops what stands behind a
      faulting or misaligned one. */
  lemma LsuIsInOrder(m: Mem, ins: seq<In>)
    requires Legal(RESET, Bus(m, Idle), ins)
    ensures var p := RunSpec(RESET, Spec(m, [], []), ins);
            p.log == Completions(RESET, ins) && p.mem == RunBus(RESET, Bus(m, Idle), ins).mem
  {
    RunIsInOrder(RESET, Bus(m, Idle), Spec(m, [], []), ins);
    hide Legal, RunBus, RunSpec, Completions;
  }

  /** At most one access is outstanding, the FIFO describes it, and what is presented is the oldest
      instruction that no fault has dropped. */
  lemma OneOutstanding(m: Mem, ins: seq<In>, i: In)
    requires Legal(RESET, Bus(m, Idle), ins)
    requires EnvOk(RunBus(RESET, Bus(m, Idle), ins), i) && IssueOk(Run(RESET, ins), i)
    ensures var s, b, p := Run(RESET, ins), RunBus(RESET, Bus(m, Idle), ins), RunSpec(RESET, Spec(m, [], []), ins);
            && (s.pending <==> b.port.Busy?) && |s.fifo| <= 1
            && (i.ack ==> p.queue != [] && s.fifo == [EntryOf(Decode(p.queue[0]))] && b.port == Busy(RequestOf(p.queue[0])))
            && (Presents(s, i) && i.accept ==> b.port == Idle || (i.ack && !i.error))
            && (Presents(s, i) ==>
                  var n := SpecNext(s, p, i).queue; n != [] && Presented(s) == RequestOf(n[0]) && !Unaligned(n[0]) && s.q.addr == Effective(n[0]))
  {
    RunIsInOrder(RESET, Bus(m, Idle), Spec(m, [], []), ins);
    hide Legal, RunBus, RunSpec, Completions, Run, Loaded, Stored;
    var s, b, p := Run(RESET, ins), RunBus(RESET, Bus(m, Idle), ins), RunSpec(RESET, Spec(m, [], []), ins);
    if Presents(s, i) { PresentsOldest(s, b, p, i); }
  }

  lemma PresentsOldest(s: Regs, b: Bus, p: Spec, i: In)
    requires Rel(s, b, p) && EnvOk(b, i) && IssueOk(s, i) && Presents(s, i)
    ensures var n := SpecNext(s, p, i).queue;
            n != [] && Presented(s) == RequestOf(n[0]) && !Unaligned(n[0]) && s.q.addr == Effective(n[0])
  {
    AddressIsEffective(i.op);
    if p.queue != [] { AddressIsEffective(p.queue[0]); }
    if |p.queue| > 1 { AddressIsEffective(p.queue[1]); }
    hide Effective, Unaligned, Bytes;
    hide Decode, Loaded, Stored, Address, Misaligned, Writeback, Effective, Unaligned;
    DecodeShape(i.op);
    DecodeShape(NO_OP);
    if p.queue != [] { DecodeShape(p.queue[0]); }
    if |p.queue| > 1 { DecodeShape(p.queue[1]); }
  }

  /** Why a cache operation may not be issued directly behind a load or store: it is presented whether
      or not an access is outstanding. In the clock after its issue one is outstanding if and only if
      something stood before it. */
  lemma CacheOperationOvertakes(s: Regs, b: Bus, p: Spec, i: In, j: In)
    requires Rel(s, b, p) && EnvOk(b, i)
    requires i.issue && i.op.kind == Maintain && !Stall(s, i) && !i.error && !s.unalignedE2
    ensures Presents(Next(s, i), j)
    ensures Next(s, i).pending <==> s.q != NO_STAGE
  {
    DecodeShape(i.op);
    DecodeShape(NO_OP);
    if p.queue != [] { DecodeShape(p.queue[0]); }
    if |p.queue| > 1 { DecodeShape(p.queue[1]); }
    hide Decode;
  }

  // ---------------------------------------------------------------------------- Progress

  /** Nothing is waiting or in flight: the unit takes an instruction. */
  lemma FreeUnitTakes(s: Regs, b: Bus, p: Spec, i: In)
    requires Rel(s, b, p) && p.queue == []
    ensures !Stall(s, i)
  {
  }

  /** Clocks before the oldest instruction completes, not counting those spent waiting for the port:
      its presentation, its answer, and for a misaligned one the clock that reports it. */
  function Rank(s: Regs): (r: nat)
    ensures r > 0
  {
    if s.pending || s.unalignedE2 then 1 else 2
  }

  predicate Waits(s: Regs, i: In) {
    if s.pending then !i.ack else Presents(s, i) && !i.accept
  }

  lemma RankShrinks(s: Regs, b: Bus, p: Spec, i: In)
    requires Rel(s, b, p) && EnvOk(b, i) && p.queue != []
    ensures Pop(s, i) || (if Waits(s, i) then Rank(Next(s, i)) == Rank(s) else Rank(Next(s, i)) < Rank(s))
  {
    DecodeShape(p.queue[0]);
    hide Decode;
  }

  /** The clocks of a run in which the unit does not wait for the port. */
  function Moving(s: Regs, ins: seq<In>): nat
    decreases |ins|
  {
    if ins == [] then 0 else (if Waits(s, ins[0]) then 0 else 1) + Moving(Next(s, ins[0]), ins[1..])
  }

  /** Every load, store and cache operation completes: two clocks that do not wait for the port are
      enough for the oldest. */
  lemma {:induction false} EveryAccessCompletes(s: Regs, b: Bus, p: Spec, ins: seq<In>)
    requires Rel(s, b, p) && Legal(s, b, ins) && p.queue != [] && Moving(s, ins) >= Rank(s)
    ensures Completions(s, ins) != []
    decreases |ins|
  {
    hide Rel, Next, NextBus, SpecNext, EnvOk, IssueOk, Waits, Pop, Rank;
    var i := ins[0];
    if Pop(s, i) {
      AnnouncesOutcome(s, b, p, i);
    } else {
      RankShrinks(s, b, p, i);
      Step(s, b, p, i);
      StillWaiting(s, p, i);
      EveryAccessCompletes(Next(s, i), NextBus(s, b, i), SpecNext(s, p, i), ins[1..]);
    }
  }

  lemma StillWaiting(s: Regs, p: Spec, i: In)
    requires p.queue != [] && !Pop(s, i)
    ensures SpecNext(s, p, i).queue != []
  {
  }

  // ---------------------------------------------------------------------------- Machine

  /** biriscv_lsu: registers and response FIFO updated in place. */
  class LsuBlock {
    var q: Stage
    var unalignedE2: bool
    var pending: bool
    const fifo: Fifo.Ring<Entry>

    ghost predicate Valid() reads this, fifo {
      fifo.Valid()
    }

    function View(): Regs
      requires Valid()
      reads this, fifo, fifo.ram
    {
      Regs(q, unalignedE2, pending, fifo.Contents())
    }

    constructor (f: Fifo.Ring<Entry>)
      requires f.Valid() && f.Contents() == []
      ensures Valid() && fifo == f && View() == RESET
    {
      q, unalignedE2, pending, fifo := NO_STAGE, false, false, f;
    }

    /** The access stage and the two flags; a stage behind a fault is cleared whatever it holds. */
    method ClockStage(i: In, presents: bool, delay: bool)
      requires Valid() && presents == Presents(View(), i) && delay == Delay(View(), i)
      modifies this`q, this`unalignedE2, this`pending
      ensures q == NextStage(old(View()), i) && unalignedE2 == (old(q.unaligned) && !delay)
      ensures pending == if presents && i.accept then true else if i.ack then false else old(pending)
    {
      hide Decode, Fifo.Ring.Contents, Presents, Delay;
      if presents && i.accept {
        pending := true;
      } else if i.ack {
        pending := false;
      }
      var clear := (i.ack && i.error) || unalignedE2;
      unalignedE2 := q.unaligned && !delay;
      if clear {
        q := NO_STAGE;
      } else if !((q.rd || Any(q.wr) || q.unaligned) && delay) && !(presents && !i.accept) {
        q := if i.issue then Decode(i.op) else NO_STAGE;
      }
    }

    /** One rising clock edge. */
    method Clock(i: In)
      requires Valid()
      modifies this, fifo, fifo.ram
      ensures Valid() && View() == Next(old(View()), i)
    {
      var delay := pending && !(i.ack && !i.error);
      var presents := ((q.rd || Any(q.wr)) && !delay) || q.maintain;
      var push, pop, entry := (presents && i.accept) || (q.unaligned && !delay), i.ack || unalignedE2, EntryOf(q);
      assert presents == Presents(View(), i) && delay == Delay(View(), i);
      hide Fifo.Clocked, Fifo.Ring.Contents, EntryOf, NextStage, Presents, Delay;
      ClockStage(i, presents, delay);
      fifo.Clock(push, entry, pop);
    }
  }
}
