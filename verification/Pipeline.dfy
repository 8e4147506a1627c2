/** The dual-issue back end: two lanes of three stages each, the scoreboard that decides what may
    issue, and the bypass network that supplies operands. Interrupts are not modelled. */
module Pipeline {
  import opened Regfile

  // ---------------------------------------------------------------------------- Instructions

  /** The class the decoder gives an instruction; Bubble marks a stage that holds none. A word
      that could not be fetched is decoded as Csr. */
  datatype Kind = Bubble | Exec | Branch | Load | Store | Mul | Div | Csr

  /** A decoded instruction. `fault` is the fetch fault code it carries, or zero; `id` stands for
      the opcode and pc, and tells apart the dynamic instances of one opcode. */
  datatype Instr = Instr(kind: Kind, rdValid: bool, rd: RegIndex, ra: RegIndex, rb: RegIndex, fault: nat, id: nat)

  const NO_INSTR := Instr(Bubble, false, 0, 0, 0, 0, 0)

  /** What the decoder guarantees. */
  predicate Decoded(op: Instr) {
    && op.kind != Bubble
    && (op.kind == Load ==> op.rdValid) && (op.kind == Store ==> !op.rdValid)
    && (op.fault != 0 ==> op.kind == Csr && !op.rdValid)
  }

  /** What the functional units compute: the result and the exception code (zero for none) of an
      instruction with given operands. For a load this includes what the memory will answer. */
  datatype Meaning = Meaning(value: (Instr, Value, Value) -> Value, code: (Instr, Value, Value) -> nat)

  /** The exception an instruction with these operands ends in, or zero. */
  function Exception(m: Meaning, op: Instr, a: Value, b: Value): nat {
    if op.fault != 0 then op.fault
    else if op.kind == Branch || op.kind == Load || op.kind == Store || op.kind == Csr then m.code(op, a, b)
    else 0
  }

  /** Synthesis options: a second lane, and early results of loads and multiplications. */
  datatype Config = Config(dualIssue: bool, loadBypass: bool, mulBypass: bool)

  // ---------------------------------------------------------------------------- Registers

  /** Stage E1 of a lane. */
  datatype Stage1 = Stage1(valid: bool, kind: Kind, rdValid: bool, op: Instr, a: Value, b: Value, code: nat)

  /** Stages E2 and WB of a lane. */
  datatype Stage2 = Stage2(valid: bool, kind: Kind, rdValid: bool, op: Instr, a: Value, b: Value, result: Value, code: nat)

  const EMPTY1 := Stage1(false, Bubble, false, NO_INSTR, 0, 0, 0)
  const EMPTY2 := Stage2(false, Bubble, false, NO_INSTR, 0, 0, 0, 0)

  /** One lane and its squash register. */
  datatype Lane = Lane(e1: Stage1, e2: Stage2, wb: Stage2, squash: bool)

  /** What the multiplier latches. */
  datatype MulIn = MulIn(op: Instr, a: Value, b: Value)

  const NO_MUL := MulIn(NO_INSTR, 0, 0)

  /** The result registers of the units: both ALUs, the multiplier's operands and product, and
      the CSR unit's read value and exception. */
  datatype Units = Units(alu0: Value, alu1: Value, mul: MulIn, product: Value, csrValue: Value, csrCode: nat)

  datatype Pipe = Pipe(lane0: Lane, lane1: Lane, divPending: bool, csrPending: bool, units: Units, regs: Regs)

  /** One clock of inputs: the words in the two issue slots (NO_INSTR for none) after slot selection, and the
      answers of the units outside this model. */
  datatype In = In(
    a: Instr, b: Instr, csrBranch: bool, lsuStall: bool,
    memComplete: bool, memValue: Value, memCode: nat, divValid: bool, divValue: Value)

  // ---------------------------------------------------------------------------- Lane signals

  predicate Memory(k: Kind) { k == Load || k == Store }

  predicate LaneStall(n: Lane, i: In) {
    || (n.e1.kind == Div && !i.divValid)
    || (Memory(n.e2.kind) && !i.memComplete)
  }

  predicate Stall(p: Pipe, i: In) {
    LaneStall(p.lane0, i) || LaneStall(p.lane1, i)
  }

  /** The exception code of the instruction in E2. */
  function Code2(s: Stage2, i: In): nat {
    if s.valid && Memory(s.kind) && i.memComplete then i.memCode else s.code
  }

  predicate LaneSquash(n: Lane, i: In) {
    Code2(n.e2, i) != 0 || n.squash
  }

  predicate Squash(p: Pipe, i: In) {
    LaneSquash(p.lane0, i) || LaneSquash(p.lane1, i)
  }

  function Rd1(s: Stage1): RegIndex {
    if s.rdValid then s.op.rd else 0
  }

  function Rd2(s: Stage2, stall: bool): RegIndex {
    if s.valid && !stall && s.rdValid then s.op.rd else 0
  }

  /** The result offered from E2. */
  function Result2(cfg: Config, s: Stage2, stall: bool, i: In, product: Value): Value {
    if cfg.loadBypass && s.valid && !stall && Memory(s.kind) then i.memValue
    else if cfg.mulBypass && s.valid && !stall && s.kind == Mul then product
    else s.result
  }

  /** The result stored into WB. */
  function ResultWb(s: Stage2, stall: bool, i: In, product: Value): Value {
    if s.valid && !stall && Memory(s.kind) then i.memValue
    else if s.valid && !stall && s.kind == Mul then product
    else s.result
  }

  // ---------------------------------------------------------------------------- Scheduling

  /** Registers awaiting a result in E2 for which the early-result option is off. */
  predicate BusyE2(cfg: Config, p: Pipe, i: In, r: RegIndex) {
    var l0, l1, stall := p.lane0, p.lane1, Stall(p, i);
    || (!cfg.loadBypass && l0.e2.kind == Load && Rd2(l0.e2, stall) == r)
    || (!cfg.loadBypass && l1.e2.kind == Load && Rd2(l1.e2, stall) == r)
    || (!cfg.mulBypass && l0.e2.kind == Mul && Rd2(l0.e2, stall) == r)
    || (!cfg.mulBypass && l1.e2.kind == Mul && Rd2(l1.e2, stall) == r)
  }

  /** Registers awaiting a load or multiplication in E1. */
  predicate BusyE1(p: Pipe, r: RegIndex) {
    var s0, s1 := p.lane0.e1, p.lane1.e1;
    || ((s0.kind == Load || s0.kind == Mul) && Rd1(s0) == r)
    || ((s1.kind == Load || s1.kind == Mul) && Rd1(s1) == r)
  }

  /** Registers whose value no bypass can supply in this clock, from the instructions in flight. */
  predicate Busy(cfg: Config, p: Pipe, i: In, r: RegIndex) {
    BusyE2(cfg, p, i, r) || BusyE1(p, r) || AfterAccess(p, i)
  }

  /** A multiplication, division or CSR access does not start in the clock after a memory access. */
  predicate AfterAccess(p: Pipe, i: In) {
    && (Memory(p.lane0.e1.kind) || Memory(p.lane1.e1.kind))
    && (i.a.kind == Mul || i.a.kind == Div || i.a.kind == Csr)
  }

  predicate Blocked(p: Pipe, i: In) {
    i.lsuStall || Stall(p, i) || p.divPending || p.csrPending
  }

  /** No slot is valid during a squash or a CSR branch. */
  predicate Flushing(p: Pipe, i: In) {
    i.csrBranch || Squash(p, i)
  }

  predicate IssueA(cfg: Config, p: Pipe, i: In) {
    && i.a.kind != Bubble && !Flushing(p, i) && !Blocked(p, i)
    && !Busy(cfg, p, i, i.a.ra) && !Busy(cfg, p, i, i.a.rb) && !Busy(cfg, p, i, i.a.rd)
  }

  /** The classes that may go down the two lanes together. */
  predicate Pairs(a: Kind, b: Kind) {
    || ((a == Exec || Memory(a) || a == Mul) && (b == Exec || b == Branch))
    || ((a == Exec || a == Mul) && Memory(b))
    || ((a == Exec || Memory(a)) && b == Mul)
  }

  /** The register the instruction in slot A has just claimed. */
  predicate Claimed(a: Instr, r: RegIndex) {
    a.rdValid && a.rd != 0 && a.rd == r
  }

  predicate IssueB(cfg: Config, p: Pipe, i: In) {
    && cfg.dualIssue && IssueA(cfg, p, i) && i.b.kind != Bubble && Pairs(i.a.kind, i.b.kind)
    && !(Busy(cfg, p, i, i.b.ra) || Claimed(i.a, i.b.ra))
    && !(Busy(cfg, p, i, i.b.rb) || Claimed(i.a, i.b.rb))
    && !(Busy(cfg, p, i, i.b.rd) || Claimed(i.a, i.b.rd))
  }

  // ---------------------------------------------------------------------------- Operands

  /** The newest value of a register that the bypass network finds. */
  function Operand(cfg: Config, p: Pipe, i: In, r: RegIndex): Value {
    var l0, l1, stall := p.lane0, p.lane1, Stall(p, i);
    if r == 0 then 0
    else if Rd1(l1.e1) == r then p.units.alu1
    else if Rd1(l0.e1) == r then p.units.alu0
    else if Rd2(l1.e2, stall) == r then Result2(cfg, l1.e2, stall, i, p.units.product)
    else if Rd2(l0.e2, stall) == r then Result2(cfg, l0.e2, stall, i, p.units.product)
    else if Rd2(l1.wb, stall) == r then l1.wb.result
    else if Rd2(l0.wb, stall) == r then l0.wb.result
    else Read(p.regs, r)
  }

  /** The exception known when an instruction issues: a fetch fault or a misaligned branch target. */
  function IssueCode(m: Meaning, op: Instr, a: Value, b: Value): nat {
    if op.fault != 0 then op.fault else if op.kind == Branch then m.code(op, a, b) else 0
  }

  function Issued(m: Meaning, op: Instr, a: Value, b: Value): Stage1 {
    Stage1(true, op.kind, op.rdValid, op, a, b, IssueCode(m, op, a, b))
  }

  // ---------------------------------------------------------------------------- Clock

  function NextE1(n: Lane, stall: bool, squash: bool, issue: bool, s: Stage1): Stage1 {
    if stall then n.e1 else if issue && !squash then s else EMPTY1
  }

  function NextE2(n: Lane, i: In, stall: bool, squash: bool, alu: Value, u: Units): Stage2 {
    if stall then n.e2
    else if squash then EMPTY2
    else
      var s := n.e1;
      var result := if s.kind == Div then i.divValue else if s.kind == Csr then u.csrValue else alu;
      // an exception known at issue clears the valid bit and hides what the CSR unit says
      Stage2(s.valid && s.code == 0, s.kind, s.rdValid, s.op, s.a, s.b, result, if s.code != 0 then s.code else u.csrCode)
  }

  /** The codes of memory exceptions: misaligned, access and page faults of loads and stores. */
  predicate MemoryCode(code: nat) {
    code in {0x14, 0x15, 0x16, 0x17, 0x1d, 0x1f}
  }

  function NextWb(n: Lane, i: In, stall: bool, squashWb: bool, product: Value): Stage2 {
    if stall then n.wb
    else if squashWb then EMPTY2
    else
      var s, code := n.e2, Code2(n.e2, i);
      Stage2(s.valid && !MemoryCode(code), s.kind, s.rdValid && code == 0, s.op, s.a, s.b,
             ResultWb(s, stall, i, product), code)
  }

  function NextLane(n: Lane, i: In, stall: bool, squash: bool, squashWb: bool, issue: bool, s: Stage1, alu: Value, u: Units): Lane {
    Lane(NextE1(n, stall, squash, issue, s),
         NextE2(n, i, stall, squash, alu, u),
         NextWb(n, i, stall, squashWb, u.product),
         if stall then n.squash else Code2(n.e2, i) != 0)
  }

  /** The ALU passes zero for the classes it does not compute. */
  function Alu(m: Meaning, op: Instr, a: Value, b: Value): Value {
    if op.kind == Exec || op.kind == Branch then m.value(op, a, b) else 0
  }

  /** The multiplier serves slot B when that multiplies, else slot A. */
  function MulTaken(i: In, issueA: bool, issueB: bool, a0: Value, b0: Value, a1: Value, b1: Value): MulIn {
    if issueB && i.b.kind == Mul then MulIn(i.b, a1, b1)
    else if issueA && i.a.kind == Mul then MulIn(i.a, a0, b0)
    else NO_MUL
  }

  function Product(m: Meaning, x: MulIn): Value {
    if x.op.kind == Mul then m.value(x.op, x.a, x.b) else 0
  }

  /** The CSR unit's outputs are not held: they last one clock. */
  function NextUnits(cfg: Config, m: Meaning, p: Pipe, i: In): Units {
    var u, issueA, issueB := p.units, IssueA(cfg, p, i), IssueB(cfg, p, i);
    var a0, b0 := Operand(cfg, p, i, i.a.ra), Operand(cfg, p, i, i.a.rb);
    var a1, b1 := Operand(cfg, p, i, i.b.ra), Operand(cfg, p, i, i.b.rb);
    var csr := issueA && i.a.kind == Csr;
    var csrValue, csrCode := if csr then m.value(i.a, a0, b0) else 0, if csr then m.code(i.a, a0, b0) else 0;
    if Stall(p, i) then u.(csrValue := csrValue, csrCode := csrCode)
    else Units(Alu(m, i.a, a0, b0), Alu(m, i.b, a1, b1), MulTaken(i, issueA, issueB, a0, b0, a1, b1),
               Product(m, u.mul), csrValue, csrCode)
  }

  /** The register file's write ports in this clock. */
  function WritePorts(p: Pipe, i: In): Ports {
    var stall := Stall(p, i);
    Ports(Rd2(p.lane0.wb, stall), p.lane0.wb.result, Rd2(p.lane1.wb, stall), p.lane1.wb.result)
  }

  predicate NextDivPending(cfg: Config, p: Pipe, i: In) {
    if Squash(p, i) then false
    else if IssueA(cfg, p, i) && i.a.kind == Div then true
    else if i.divValid then false
    else p.divPending
  }

  predicate NextCsrPending(cfg: Config, p: Pipe, i: In) {
    if Squash(p, i) then false
    else if IssueA(cfg, p, i) && i.a.kind == Csr then true
    else if p.lane0.wb.kind == Csr && !Stall(p, i) then false
    else p.csrPending
  }

  /** One rising clock edge. Lane 0's squash also empties lane 1's write-back stage; lane 1's
      squash lets the older instruction beside it in lane 0 finish. */
  function Next(cfg: Config, m: Meaning, p: Pipe, i: In): Pipe {
    var stall, squash, u := Stall(p, i), Squash(p, i), p.units;
    var a := Issued(m, i.a, Operand(cfg, p, i, i.a.ra), Operand(cfg, p, i, i.a.rb));
    var b := Issued(m, i.b, Operand(cfg, p, i, i.b.ra), Operand(cfg, p, i, i.b.rb));
    Pipe(
      NextLane(p.lane0, i, stall, squash, false, IssueA(cfg, p, i), a, u.alu0, u),
      NextLane(p.lane1, i, stall, squash, LaneSquash(p.lane0, i), IssueB(cfg, p, i), b, u.alu1, u),
      NextDivPending(cfg, p, i),
      NextCsrPending(cfg, p, i),
      NextUnits(cfg, m, p, i),
      FlopNext(p.regs, WritePorts(p, i)))
  }
}
