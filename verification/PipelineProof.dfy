/** The pipeline executes its instruction stream as a machine that takes one instruction at a
    time: operands, register writes, and the point at which an exception cuts the stream. */
module PipelineProof {
  import opened Regfile
  import opened Pipeline

  // ---------------------------------------------------------------------------- Sequential machine

  datatype Write = Write(rd: RegIndex, value: Value)

  /** One instruction at a time. `live` is false from an exception until the redirect to its
      handler; `log` lists every register write. */
  datatype Seq = Seq(regs: Regs, live: bool, log: seq<Write>)

  function Execute(m: Meaning, q: Seq, op: Instr): Seq {
    if op.kind == Bubble || !q.live then q
    else
      var a, b := Read(q.regs, op.ra), Read(q.regs, op.rb);
      if Exception(m, op, a, b) != 0 then q.(live := false)
      else if op.rdValid && op.rd != 0 then
        Seq(q.regs[op.rd := m.value(op, a, b)], true, q.log + [Write(op.rd, m.value(op, a, b))])
      else q
  }

  function Restart(q: Seq): Seq { q.(live := true) }

  datatype Event = Issue(op: Instr) | Redirect

  function Apply(m: Meaning, q: Seq, e: Event): Seq {
    match e
    case Issue(op) => Execute(m, q, op)
    case Redirect => Restart(q)
  }

  function ApplyAll(m: Meaning, q: Seq, es: seq<Event>): Seq
    decreases |es|
  {
    if es == [] then q else ApplyAll(m, Apply(m, q, es[0]), es[1..])
  }

  // ---------------------------------------------------------------------------- Hardware trace

  /** The instructions that issue in this clock, or the redirect that empties the pipeline. */
  function Events(cfg: Config, p: Pipe, i: In): seq<Event> {
    if Stall(p, i) then []
    else if Code2(p.lane0.e2, i) != 0 || Code2(p.lane1.e2, i) != 0 then [Redirect]
    else (if IssueA(cfg, p, i) then [Issue(i.a)] else []) + (if IssueB(cfg, p, i) then [Issue(i.b)] else [])
  }

  /** The register writes of this clock, lane 0 first. */
  function Writes(p: Pipe, i: In): seq<Write> {
    var w := WritePorts(p, i);
    (if w.rd0 != 0 then [Write(w.rd0, w.value0)] else []) + (if w.rd1 != 0 then [Write(w.rd1, w.value1)] else [])
  }

  // ---------------------------------------------------------------------------- Abstraction

  /** The sequential machine after the instructions that have left the pipeline, then after those
      in WB, in E2 and in E1. */
  function Base(p: Pipe, log: seq<Write>): Seq { Seq(p.regs, true, log) }

  function AfterWb(m: Meaning, p: Pipe, log: seq<Write>): Seq {
    Execute(m, Execute(m, Base(p, log), p.lane0.wb.op), p.lane1.wb.op)
  }

  function AfterE2(m: Meaning, p: Pipe, log: seq<Write>): Seq {
    Execute(m, Execute(m, AfterWb(m, p, log), p.lane0.e2.op), p.lane1.e2.op)
  }

  function AfterE1(m: Meaning, p: Pipe, log: seq<Write>): Seq {
    Execute(m, Execute(m, AfterE2(m, p, log), p.lane0.e1.op), p.lane1.e1.op)
  }

  /** The sequential machine after everything that has issued and every redirect so far. */
  function Abs(m: Meaning, p: Pipe, log: seq<Write>): Seq {
    if p.lane0.squash || p.lane1.squash then Restart(AfterE1(m, p, log)) else AfterE1(m, p, log)
  }

  // ---------------------------------------------------------------------------- Invariant

  /** The operands a stage carries are those of the sequential machine `q` just before it. */
  predicate Carries(q: Seq, op: Instr, a: Value, b: Value) {
    op.kind != Bubble && q.live ==> a == Read(q.regs, op.ra) && b == Read(q.regs, op.rb)
  }

  predicate Fits1(m: Meaning, q: Seq, s: Stage1) {
    && s.kind == s.op.kind && s.rdValid == s.op.rdValid && Carries(q, s.op, s.a, s.b)
    && (s.kind == Bubble ==> s == EMPTY1)
    && (s.kind != Bubble ==> s.valid && Decoded(s.op) && s.code == IssueCode(m, s.op, s.a, s.b))
  }

  predicate Fits2(m: Meaning, q: Seq, s: Stage2) {
    && s.kind == s.op.kind && s.rdValid == s.op.rdValid && Carries(q, s.op, s.a, s.b)
    && (s.kind == Bubble ==> s.op == NO_INSTR && !s.valid)
    && (s.kind != Bubble ==>
          && Decoded(s.op) && s.valid == (IssueCode(m, s.op, s.a, s.b) == 0)
          && s.code == (if Memory(s.kind) then 0 else Exception(m, s.op, s.a, s.b))
          && (s.kind == Exec || s.kind == Branch || s.kind == Div || s.kind == Csr ==> s.result == m.value(s.op, s.a, s.b)))
  }

  predicate FitsWb(m: Meaning, q: Seq, s: Stage2) {
    && s.kind == s.op.kind && s.rdValid == (s.op.rdValid && s.code == 0) && Carries(q, s.op, s.a, s.b)
    && (s.kind == Bubble ==> s.op == NO_INSTR && !s.valid)
    && (s.kind != Bubble ==>
          && Decoded(s.op) && s.code == Exception(m, s.op, s.a, s.b)
          && (s.code == 0 ==> s.valid && (s.rdValid ==> s.result == m.value(s.op, s.a, s.b))))
  }

  /** Two instructions that went down the lanes together. */
  predicate Together(a: Instr, b: Instr) {
    b.kind != Bubble ==> Pairs(a.kind, b.kind) && !(b.rdValid && Claimed(a, b.rd))
  }

  ghost predicate WbFits(m: Meaning, p: Pipe, log: seq<Write>) {
    var l0, l1 := p.lane0, p.lane1;
    && FitsWb(m, Base(p, log), l0.wb) && FitsWb(m, Execute(m, Base(p, log), l0.wb.op), l1.wb)
    && Together(l0.wb.op, l1.wb.op)
    && (l0.wb.code != 0 ==> l0.squash && l1.wb.kind == Bubble) && (l1.wb.code != 0 ==> l1.squash)
  }

  ghost predicate E2Fits(m: Meaning, p: Pipe, log: seq<Write>) {
    var l0, l1, q := p.lane0, p.lane1, AfterWb(m, p, log);
    && Fits2(m, q, l0.e2) && Fits2(m, Execute(m, q, l0.e2.op), l1.e2) && Together(l0.e2.op, l1.e2.op)
    && (l0.e2.kind == Bubble ==> l0.e2.code == 0)
    && (l1.e2.kind == Bubble && l1.e2.code != 0 ==> l0.e2.code != 0)
    && (l0.e2.kind == Mul ==> p.units.product == m.value(l0.e2.op, l0.e2.a, l0.e2.b))
    && (l1.e2.kind == Mul ==> p.units.product == m.value(l1.e2.op, l1.e2.a, l1.e2.b))
  }

  /** The unit registers hold what the instructions in E1 need. */
  ghost predicate UnitsFit(m: Meaning, p: Pipe) {
    var s0, s1, u := p.lane0.e1, p.lane1.e1, p.units;
    && (s0.kind == Exec || s0.kind == Branch ==> u.alu0 == m.value(s0.op, s0.a, s0.b))
    && (s1.kind == Exec || s1.kind == Branch ==> u.alu1 == m.value(s1.op, s1.a, s1.b))
    && (s0.kind == Mul ==> u.mul == MulIn(s0.op, s0.a, s0.b))
    && (s1.kind == Mul ==> u.mul == MulIn(s1.op, s1.a, s1.b))
    && (if s0.kind == Csr then u.csrValue == m.value(s0.op, s0.a, s0.b) && u.csrCode == m.code(s0.op, s0.a, s0.b)
        else u.csrCode == 0)
  }

  ghost predicate E1Fits(m: Meaning, p: Pipe, log: seq<Write>) {
    var l0, l1, q := p.lane0, p.lane1, AfterE2(m, p, log);
    && Fits1(m, q, l0.e1) && Fits1(m, Execute(m, q, l0.e1.op), l1.e1) && Together(l0.e1.op, l1.e1.op)
    && UnitsFit(m, p)
    // a division or CSR access has no memory access in front of it, and keeps others from issuing
    && (l0.e1.kind == Div || l0.e1.kind == Csr ==> !Memory(l0.e2.kind) && !Memory(l1.e2.kind))
    && (l0.e1.kind == Div ==> p.divPending || l0.e2.code != 0 || l1.e2.code != 0)
    && (l0.e1.kind == Csr ==> p.csrPending)
  }

  /** A squash register is set only behind an emptied pipeline. */
  predicate SquashFits(p: Pipe) {
    p.lane0.squash || p.lane1.squash ==>
      p.lane0.e1 == EMPTY1 && p.lane1.e1 == EMPTY1 && p.lane0.e2 == EMPTY2 && p.lane1.e2 == EMPTY2
  }

  ghost predicate Inv(m: Meaning, p: Pipe, log: seq<Write>) {
    WbFits(m, p, log) && E2Fits(m, p, log) && E1Fits(m, p, log) && SquashFits(p)
  }

  // ---------------------------------------------------------------------------- Environment

  predicate MemoryAnswers(m: Meaning, s: Stage2, i: In) {
    Memory(s.kind) && i.memComplete ==> i.memValue == m.value(s.op, s.a, s.b) && i.memCode == m.code(s.op, s.a, s.b)
  }

  /** Words come from the decoder, and a memory access or division ends with the value and
      exception of the instruction that asked for it, after any delay. */
  predicate EnvOk(m: Meaning, p: Pipe, i: In) {
    && (i.a != NO_INSTR ==> Decoded(i.a)) && (i.b != NO_INSTR ==> Decoded(i.b))
    && MemoryAnswers(m, p.lane0.e2, i) && MemoryAnswers(m, p.lane1.e2, i)
    && (p.lane0.e1.kind == Div && i.divValid ==> i.divValue == m.value(p.lane0.e1.op, p.lane0.e1.a, p.lane0.e1.b))
  }

  // ---------------------------------------------------------------------------- Operands

  /** One stage of the bypass network: what a register reads after two instructions. */
  lemma ReadAfterPair(m: Meaning, q: Seq, x: Instr, xa: Value, xb: Value, y: Instr, ya: Value, yb: Value, r: RegIndex)
    requires r != 0 && q.live
    requires Carries(q, x, xa, xb) && Carries(Execute(m, q, x), y, ya, yb)
    ensures var n := Execute(m, Execute(m, q, x), y);
            n.live ==> Read(n.regs, r) == (if y.kind != Bubble && y.rdValid && y.rd == r then m.value(y, ya, yb)
                                           else if x.kind != Bubble && x.rdValid && x.rd == r then m.value(x, xa, xb)
                                           else Read(q.regs, r))
  {
  }

  /** An instruction that may issue and whose source register is not busy gets the value the
      sequential machine holds once every older instruction has executed. */
  lemma OperandIsSequential(cfg: Config, m: Meaning, p: Pipe, log: seq<Write>, i: In, r: RegIndex)
    requires Inv(m, p, log) && EnvOk(m, p, i)
    requires !Squash(p, i) && !Blocked(p, i) && !Busy(cfg, p, i, r)
    ensures var q := Abs(m, p, log); q.live ==> Operand(cfg, p, i, r) == Read(q.regs, r)
  {
    hide WbFits, E2Fits, E1Fits, SquashFits, EnvOk, AfterWb, AfterE2, AfterE1, Busy, Result2, LaneStall, Code2;
    if r != 0 && AfterE1(m, p, log).live {
      assert Inv(m, p, log) ==> WbFits(m, p, log) && E2Fits(m, p, log) && E1Fits(m, p, log);
      LiveBefore(m, p, log);
      WbBypass(m, p, log, i, r);
      E2Bypass(cfg, m, p, log, i, r);
      E1Bypass(cfg, m, p, log, i, r);
    }
  }

  /** Only a redirect revives the machine. */
  lemma LiveBefore(m: Meaning, p: Pipe, log: seq<Write>)
    ensures AfterE1(m, p, log).live ==> AfterE2(m, p, log).live
    ensures AfterE2(m, p, log).live ==> AfterWb(m, p, log).live
  {
  }

  lemma WbBypass(m: Meaning, p: Pipe, log: seq<Write>, i: In, r: RegIndex)
    requires WbFits(m, p, log) && r != 0 && !Squash(p, i) && !Stall(p, i)
    ensures AfterWb(m, p, log).live
    ensures Read(AfterWb(m, p, log).regs, r) ==
            if Rd2(p.lane1.wb, false) == r then p.lane1.wb.result
            else if Rd2(p.lane0.wb, false) == r then p.lane0.wb.result
            else Read(p.regs, r)
  {
    var s0, s1 := p.lane0.wb, p.lane1.wb;
    ReadAfterPair(m, Base(p, log), s0.op, s0.a, s0.b, s1.op, s1.a, s1.b, r);
  }

  lemma E2Bypass(cfg: Config, m: Meaning, p: Pipe, log: seq<Write>, i: In, r: RegIndex)
    requires E2Fits(m, p, log) && EnvOk(m, p, i) && AfterWb(m, p, log).live && AfterE2(m, p, log).live
    requires r != 0 && !Squash(p, i) && !Stall(p, i) && !Busy(cfg, p, i, r)
    ensures Read(AfterE2(m, p, log).regs, r) ==
            if Rd2(p.lane1.e2, false) == r then Result2(cfg, p.lane1.e2, false, i, p.units.product)
            else if Rd2(p.lane0.e2, false) == r then Result2(cfg, p.lane0.e2, false, i, p.units.product)
            else Read(AfterWb(m, p, log).regs, r)
  {
    hide AfterWb, Execute;
    var s0, s1 := p.lane0.e2, p.lane1.e2;
    ReadAfterPair(m, AfterWb(m, p, log), s0.op, s0.a, s0.b, s1.op, s1.a, s1.b, r);
  }

  lemma E1Bypass(cfg: Config, m: Meaning, p: Pipe, log: seq<Write>, i: In, r: RegIndex)
    requires E1Fits(m, p, log) && AfterE2(m, p, log).live && AfterE1(m, p, log).live
    requires r != 0 && !Squash(p, i) && !Blocked(p, i) && !Busy(cfg, p, i, r)
    ensures Read(AfterE1(m, p, log).regs, r) ==
            if Rd1(p.lane1.e1) == r then p.units.alu1
            else if Rd1(p.lane0.e1) == r then p.units.alu0
            else Read(AfterE2(m, p, log).regs, r)
  {
    hide AfterE2, Execute;
    var s0, s1 := p.lane0.e1, p.lane1.e1;
    ReadAfterPair(m, AfterE2(m, p, log), s0.op, s0.a, s0.b, s1.op, s1.a, s1.b, r);
  }

  // ---------------------------------------------------------------------------- Retirement

  /** Lane 0 and lane 1 never write one register in the same clock. */
  lemma PortsApart(m: Meaning, p: Pipe, log: seq<Write>, i: In)
    requires WbFits(m, p, log)
    ensures Apart(WritePorts(p, i))
  {
  }

  /** What leaves WB is what the sequential machine does with those two instructions. */
  lemma Retire(m: Meaning, p: Pipe, log: seq<Write>, i: In)
    requires WbFits(m, p, log) && !Stall(p, i)
    ensures var q := AfterWb(m, p, log);
            q.regs == FlopNext(p.regs, WritePorts(p, i)) && q.log == log + Writes(p, i)
    ensures p.lane0.wb.code == 0 && p.lane1.wb.code == 0 ==> AfterWb(m, p, log).live
  {
    hide FlopNext, Execute, FitsWb;
    PortsApart(m, p, log, i);
    FlopIsTwoWrites(p.regs, WritePorts(p, i));
    var s0, s1, base := p.lane0.wb, p.lane1.wb, Base(p, log);
    RetireOne(m, base, s0);
    if s0.code == 0 {
      RetireOne(m, Execute(m, base, s0.op), s1);
    } else {
      RetireNone(m, Execute(m, base, s0.op), s1);
    }
    assert log + Writes(p, i) == (log + WriteOf(s0)) + WriteOf(s1);
  }

  /** The register write of a stage in WB. */
  function WriteOf(s: Stage2): seq<Write> {
    if Rd2(s, false) != 0 then [Write(Rd2(s, false), s.result)] else []
  }

  lemma RetireOne(m: Meaning, q: Seq, s: Stage2)
    requires FitsWb(m, q, s) && q.live
    ensures var n := Execute(m, q, s.op);
            && n.regs == (if Rd2(s, false) != 0 then q.regs[Rd2(s, false) := s.result] else q.regs)
            && n.log == q.log + WriteOf(s)
            && (s.code == 0 ==> n.live)
  {
  }

  lemma RetireNone(m: Meaning, q: Seq, s: Stage2)
    requires FitsWb(m, q, s) && s.kind == Bubble
    ensures Execute(m, q, s.op) == q && WriteOf(s) == []
  {
  }

  /** The registers after a held clock. */
  lemma Held(cfg: Config, m: Meaning, p: Pipe, i: In)
    requires Stall(p, i)
    ensures var n, u := Next(cfg, m, p, i), p.units;
            && n.lane0 == p.lane0 && n.lane1 == p.lane1 && n.regs == p.regs
            && n.units == u.(csrValue := 0, csrCode := 0)
            && n.divPending == (p.divPending && !Squash(p, i) && !i.divValid)
    ensures Writes(p, i) == []
  {
    hide Operand, Busy;
    FlopIsTwoWrites(p.regs, WritePorts(p, i));
  }

  /** A held clock changes nothing but the CSR unit's outputs and the blocking flags. */
  lemma StepStall(cfg: Config, m: Meaning, p: Pipe, log: seq<Write>, i: In)
    requires Inv(m, p, log) && EnvOk(m, p, i) && Stall(p, i)
    ensures Inv(m, Next(cfg, m, p, i), log) && Writes(p, i) == []
    ensures Abs(m, Next(cfg, m, p, i), log) == Abs(m, p, log)
  {
    hide Execute, Fits1, Fits2, FitsWb, Together, AfterWb, AfterE2, AfterE1, Next, Writes;
    Held(cfg, m, p, i);
    SameStages(m, p, Next(cfg, m, p, i), log);
    Lane1Kind(m, p, log);
  }

  /** Divisions and CSR accesses use lane 0 only, and a CSR access goes alone. */
  lemma Lane1Kind(m: Meaning, p: Pipe, log: seq<Write>)
    requires E1Fits(m, p, log)
    ensures p.lane1.e1.kind != Div && p.lane1.e1.kind != Csr
    ensures p.lane1.e1.kind != Bubble ==> p.lane0.e1.kind != Csr
    ensures p.lane0.e1.kind == Bubble ==> p.lane0.e1 == EMPTY1
    ensures p.lane1.e1.kind == Bubble ==> p.lane1.e1 == EMPTY1
    ensures p.lane0.e1.kind == p.lane0.e1.op.kind && p.lane1.e1.kind == p.lane1.e1.op.kind
  {
  }

  lemma SameStages(m: Meaning, p: Pipe, n: Pipe, log: seq<Write>)
    requires n.regs == p.regs && n.lane0 == p.lane0 && n.lane1 == p.lane1
    ensures AfterWb(m, n, log) == AfterWb(m, p, log)
    ensures AfterE2(m, n, log) == AfterE2(m, p, log) && AfterE1(m, n, log) == AfterE1(m, p, log)
  {
    hide Execute;
  }

  // ---------------------------------------------------------------------------- One stage on

  /** An instruction keeps what it carries from E2 to WB. */
  lemma ToWb(m: Meaning, q: Seq, n: Lane, i: In, product: Value)
    requires Fits2(m, q, n.e2) && MemoryAnswers(m, n.e2, i) && (Memory(n.e2.kind) ==> i.memComplete)
    requires n.e2.kind == Mul ==> product == m.value(n.e2.op, n.e2.a, n.e2.b)
    ensures FitsWb(m, q, NextWb(n, i, false, false, product))
    ensures var w := NextWb(n, i, false, false, product); w.code == Code2(n.e2, i) && w.op == n.e2.op && w.kind == n.e2.kind
  {
  }

  /** The result an instruction takes from E1 to E2. */
  function ResultE1(s: Stage1, i: In, alu: Value, u: Units): Value {
    if s.kind == Div then i.divValue else if s.kind == Csr then u.csrValue else alu
  }

  lemma E2Registers(n: Lane, i: In, alu: Value, u: Units)
    ensures var s, t := n.e1, NextE2(n, i, false, false, alu, u);
            && t.kind == s.kind && t.rdValid == s.rdValid && t.op == s.op && t.a == s.a && t.b == s.b
            && t.valid == (s.valid && s.code == 0) && t.result == ResultE1(s, i, alu, u)
            && t.code == if s.code != 0 then s.code else u.csrCode
  {
  }

  /** An instruction keeps what it carries from E1 to E2. */
  lemma ToE2(m: Meaning, q: Seq, n: Lane, i: In, alu: Value, u: Units)
    requires Fits1(m, q, n.e1)
    requires n.e1.kind == Exec || n.e1.kind == Branch ==> alu == m.value(n.e1.op, n.e1.a, n.e1.b)
    requires n.e1.kind == Div ==> i.divValue == m.value(n.e1.op, n.e1.a, n.e1.b)
    requires if n.e1.kind == Csr
             then u.csrValue == m.value(n.e1.op, n.e1.a, n.e1.b) && u.csrCode == m.code(n.e1.op, n.e1.a, n.e1.b)
             else n.e1.kind != Bubble ==> u.csrCode == 0
    ensures Fits2(m, q, NextE2(n, i, false, false, alu, u))
  {
    hide Carries, NextE2;
    E2Registers(n, i, alu, u);
  }

  /** An instruction enters E1 with the operands of the sequential machine. */
  lemma ToE1(cfg: Config, m: Meaning, p: Pipe, log: seq<Write>, i: In)
    requires Inv(m, p, log) && EnvOk(m, p, i) && IssueA(cfg, p, i)
    ensures Fits1(m, AfterE1(m, p, log), Issued(m, i.a, Operand(cfg, p, i, i.a.ra), Operand(cfg, p, i, i.a.rb)))
  {
    hide Busy, Operand, Inv, Read, LaneStall, Code2, AfterE1;
    assert Abs(m, p, log) == AfterE1(m, p, log);
    OperandIsSequential(cfg, m, p, log, i, i.a.ra);
    OperandIsSequential(cfg, m, p, log, i, i.a.rb);
  }

  /** So does the one beside it in lane 1, which does not read or write what lane 0 writes. */
  lemma ToE1Beside(cfg: Config, m: Meaning, p: Pipe, log: seq<Write>, i: In)
    requires Inv(m, p, log) && EnvOk(m, p, i) && IssueB(cfg, p, i)
    ensures Fits1(m, Execute(m, AfterE1(m, p, log), i.a),
                  Issued(m, i.b, Operand(cfg, p, i, i.b.ra), Operand(cfg, p, i, i.b.rb)))
    ensures Together(i.a, i.b)
  {
    hide Busy, Operand, Inv, LaneStall, Code2, AfterE1, Pairs;
    assert Abs(m, p, log) == AfterE1(m, p, log);
    OperandIsSequential(cfg, m, p, log, i, i.b.ra);
    OperandIsSequential(cfg, m, p, log, i, i.b.rb);
    UnclaimedReads(m, AfterE1(m, p, log), i.a, i.b.ra);
    UnclaimedReads(m, AfterE1(m, p, log), i.a, i.b.rb);
  }

  lemma UnclaimedReads(m: Meaning, q: Seq, op: Instr, r: RegIndex)
    requires !Claimed(op, r)
    ensures Execute(m, q, op).live ==> q.live && Read(Execute(m, q, op).regs, r) == Read(q.regs, r)
  {
  }

  // ---------------------------------------------------------------------------- Advance

  /** The instruction lane 0 or lane 1 takes in this clock. */
  function TakenA(cfg: Config, p: Pipe, i: In): Instr { if IssueA(cfg, p, i) then i.a else NO_INSTR }
  function TakenB(cfg: Config, p: Pipe, i: In): Instr { if IssueB(cfg, p, i) then i.b else NO_INSTR }

  /** The registers after a clock that is neither held nor squashed. */
  lemma Moves(cfg: Config, m: Meaning, p: Pipe, i: In)
    requires !Stall(p, i) && !Squash(p, i)
    ensures var n, u := Next(cfg, m, p, i), p.units;
            && n.lane0.e2 == NextE2(p.lane0, i, false, false, u.alu0, u)
            && n.lane1.e2 == NextE2(p.lane1, i, false, false, u.alu1, u)
            && n.lane0.wb == NextWb(p.lane0, i, false, false, u.product)
            && n.lane1.wb == NextWb(p.lane1, i, false, false, u.product)
            && !n.lane0.squash && !n.lane1.squash
            && n.regs == FlopNext(p.regs, WritePorts(p, i)) && n.units == NextUnits(cfg, m, p, i)
    ensures var n := Next(cfg, m, p, i);
            && n.lane0.e1 == (if IssueA(cfg, p, i)
                              then Issued(m, i.a, Operand(cfg, p, i, i.a.ra), Operand(cfg, p, i, i.a.rb)) else EMPTY1)
            && n.lane1.e1 == (if IssueB(cfg, p, i)
                              then Issued(m, i.b, Operand(cfg, p, i, i.b.ra), Operand(cfg, p, i, i.b.rb)) else EMPTY1)
            && (IssueA(cfg, p, i) && i.a.kind == Div ==> n.divPending)
            && (IssueA(cfg, p, i) && i.a.kind == Csr ==> n.csrPending)
    ensures Code2(p.lane0.e2, i) == 0 && Code2(p.lane1.e2, i) == 0
  {
    hide Operand, Busy, IssueA, IssueB, NextUnits, FlopNext, WritePorts, NextE2, NextWb, LaneStall, Code2;
  }

  lemma Advanced(cfg: Config, m: Meaning, p: Pipe, log: seq<Write>, i: In)
    requires Inv(m, p, log) && !Stall(p, i) && !Squash(p, i)
    ensures var n, log' := Next(cfg, m, p, i), log + Writes(p, i);
            && Base(n, log') == AfterWb(m, p, log)
            && AfterWb(m, n, log') == AfterE2(m, p, log) && AfterE2(m, n, log') == AfterE1(m, p, log)
            && AfterE1(m, n, log') == Execute(m, Execute(m, AfterE1(m, p, log), TakenA(cfg, p, i)), TakenB(cfg, p, i))
            && Abs(m, n, log') == AfterE1(m, n, log')
  {
    hide Next, Execute, Operand, Busy, IssueA, IssueB, FlopNext, Writes, E1Fits, E2Fits, LaneStall, Code2;
    Moves(cfg, m, p, i);
    Retire(m, p, log, i);
  }

  lemma StepAdvance(cfg: Config, m: Meaning, p: Pipe, log: seq<Write>, i: In)
    requires Inv(m, p, log) && EnvOk(m, p, i) && !Stall(p, i) && !Squash(p, i)
    ensures Inv(m, Next(cfg, m, p, i), log + Writes(p, i))
    ensures Abs(m, Next(cfg, m, p, i), log + Writes(p, i)) == ApplyAll(m, Abs(m, p, log), Events(cfg, p, i))
  {
    hide Next, Execute, Operand, Busy, WbFits, E2Fits, E1Fits, SquashFits, Writes, AfterE1, EnvOk, LaneStall;
    Moves(cfg, m, p, i);
    Advanced(cfg, m, p, log, i);
    AdvanceWb(cfg, m, p, log, i);
    AdvanceE2(cfg, m, p, log, i);
    AdvanceE1(cfg, m, p, log, i);
    assert Abs(m, p, log) == AfterE1(m, p, log);
    NoneIsSkipped(m, AfterE1(m, p, log));
    NoneIsSkipped(m, Execute(m, AfterE1(m, p, log), i.a));
    ApplyIssues(m, Abs(m, p, log), i.a, i.b);
  }

  lemma NoneIsSkipped(m: Meaning, q: Seq)
    ensures Execute(m, q, NO_INSTR) == q
  {
  }

  lemma ApplyIssues(m: Meaning, q: Seq, a: Instr, b: Instr)
    ensures ApplyAll(m, q, []) == q
    ensures ApplyAll(m, q, [Issue(a)] + []) == Execute(m, q, a)
    ensures ApplyAll(m, q, [Issue(a)] + [Issue(b)]) == Execute(m, Execute(m, q, a), b)
  {
    assert [Issue(a)] + [] == [Issue(a)] && [Issue(a)][1..] == [] && [Issue(b)][1..] == [];
    var es := [Issue(a)] + [Issue(b)];
    assert es[0] == Issue(a) && es[1..] == [Issue(b)];
    assert ApplyAll(m, Execute(m, q, a), [Issue(b)]) == ApplyAll(m, Execute(m, Execute(m, q, a), b), []);
  }

  lemma AdvanceWb(cfg: Config, m: Meaning, p: Pipe, log: seq<Write>, i: In)
    requires Inv(m, p, log) && EnvOk(m, p, i) && !Stall(p, i) && !Squash(p, i)
    ensures WbFits(m, Next(cfg, m, p, i), log + Writes(p, i))
  {
    hide Next, Execute, Operand, Busy, Fits2, FitsWb, AfterWb, AfterE2, AfterE1, Writes, IssueA, IssueB, FlopNext;
    Moves(cfg, m, p, i);
    Advanced(cfg, m, p, log, i);
    var q := AfterWb(m, p, log);
    ToWb(m, q, p.lane0, i, p.units.product);
    ToWb(m, Execute(m, q, p.lane0.e2.op), p.lane1, i, p.units.product);
  }

  /** The product of a multiplication in E1 arrives with it in E2. */
  lemma ProductArrives(cfg: Config, m: Meaning, p: Pipe, log: seq<Write>, i: In)
    requires E1Fits(m, p, log) && !Stall(p, i)
    ensures var u := NextUnits(cfg, m, p, i);
            && (p.lane0.e1.kind == Mul ==> u.product == m.value(p.lane0.e1.op, p.lane0.e1.a, p.lane0.e1.b))
            && (p.lane1.e1.kind == Mul ==> u.product == m.value(p.lane1.e1.op, p.lane1.e1.a, p.lane1.e1.b))
  {
    hide Operand, Busy, IssueA, IssueB, AfterE2, Execute, Together;
  }

  lemma AdvanceE2(cfg: Config, m: Meaning, p: Pipe, log: seq<Write>, i: In)
    requires Inv(m, p, log) && EnvOk(m, p, i) && !Stall(p, i) && !Squash(p, i)
    ensures E2Fits(m, Next(cfg, m, p, i), log + Writes(p, i))
  {
    hide Next, NextUnits, Execute, Operand, Busy, Fits1, Fits2, FitsWb, AfterWb, AfterE2, AfterE1, Writes, IssueA, IssueB, FlopNext;
    hide WbFits, NextE2, NextWb, Together;
    Moves(cfg, m, p, i);
    Advanced(cfg, m, p, log, i);
    ProductArrives(cfg, m, p, log, i);
    Lane1Kind(m, p, log);
    var q := AfterE2(m, p, log);
    E2Registers(p.lane0, i, p.units.alu0, p.units);
    E2Registers(p.lane1, i, p.units.alu1, p.units);
    ToE2(m, q, p.lane0, i, p.units.alu0, p.units);
    ToE2(m, Execute(m, q, p.lane0.e1.op), p.lane1, i, p.units.alu1, p.units);
  }

  /** The unit registers after an issue hold what the issued instructions need. */
  lemma UnitsAfterIssue(cfg: Config, m: Meaning, p: Pipe, i: In)
    requires !Stall(p, i) && !Squash(p, i)
    ensures UnitsFit(m, Next(cfg, m, p, i))
  {
    hide Operand, Busy, FlopNext, WritePorts, NextE2, NextWb, LaneStall, Code2, Next;
    Moves(cfg, m, p, i);
  }

  lemma EmptyFits(m: Meaning, q: Seq, op: Instr)
    ensures Fits1(m, q, EMPTY1) && Together(op, NO_INSTR)
  {
  }

  /** A division or CSR access does not issue right behind a memory access. */
  lemma NotBehindAccess(cfg: Config, p: Pipe, i: In)
    requires IssueA(cfg, p, i) && (i.a.kind == Div || i.a.kind == Csr)
    ensures !Memory(p.lane0.e1.kind) && !Memory(p.lane1.e1.kind)
  {
  }

  lemma AdvanceE1(cfg: Config, m: Meaning, p: Pipe, log: seq<Write>, i: In)
    requires Inv(m, p, log) && EnvOk(m, p, i) && !Stall(p, i) && !Squash(p, i)
    ensures E1Fits(m, Next(cfg, m, p, i), log + Writes(p, i)) && SquashFits(Next(cfg, m, p, i))
  {
    hide Next, NextUnits, Execute, Operand, AfterWb, AfterE2, AfterE1, Writes, NextE2, NextWb, UnitsFit, Together, FlopNext;
    hide Fits1, Inv, EnvOk, Busy, LaneStall, Code2;
    Moves(cfg, m, p, i);
    Advanced(cfg, m, p, log, i);
    UnitsAfterIssue(cfg, m, p, i);
    E2Registers(p.lane0, i, p.units.alu0, p.units);
    E2Registers(p.lane1, i, p.units.alu1, p.units);
    var q := AfterE1(m, p, log);
    if IssueA(cfg, p, i) {
      ToE1(cfg, m, p, log, i);
      if i.a.kind == Div || i.a.kind == Csr { NotBehindAccess(cfg, p, i); }
    }
    EmptyFits(m, q, i.a);
    EmptyFits(m, q, NO_INSTR);
    EmptyFits(m, Execute(m, q, TakenA(cfg, p, i)), i.a);
    if IssueB(cfg, p, i) { ToE1Beside(cfg, m, p, log, i); }
  }

  // ---------------------------------------------------------------------------- Squash

  /** A squash clock empties E1 and E2; what was in E2 reaches WB, except that lane 0's exception
      drops the instruction beside it in lane 1. */
  lemma Empties(cfg: Config, m: Meaning, p: Pipe, i: In)
    requires !Stall(p, i) && Squash(p, i)
    ensures var n := Next(cfg, m, p, i);
            && n.lane0.e1 == EMPTY1 && n.lane1.e1 == EMPTY1 && n.lane0.e2 == EMPTY2 && n.lane1.e2 == EMPTY2
            && n.lane0.wb == NextWb(p.lane0, i, false, false, p.units.product)
            && n.lane1.wb == (if LaneSquash(p.lane0, i) then EMPTY2 else NextWb(p.lane1, i, false, false, p.units.product))
            && n.lane0.squash == (Code2(p.lane0.e2, i) != 0) && n.lane1.squash == (Code2(p.lane1.e2, i) != 0)
            && n.regs == FlopNext(p.regs, WritePorts(p, i)) && n.units.csrCode == 0
  {
    hide Operand, Busy, FlopNext, WritePorts, ResultWb, Code2, LaneStall;
  }

  lemma DeadIsStuck(m: Meaning, q: Seq, op: Instr)
    ensures !q.live ==> Execute(m, q, op) == q
  {
  }

  /** The exception code seen in E2 is the one that stops the sequential machine. */
  lemma CodeStops(m: Meaning, q: Seq, s: Stage2, i: In)
    requires Fits2(m, q, s) && MemoryAnswers(m, s, i) && s.kind != Bubble && Code2(s, i) != 0
    ensures !Execute(m, q, s.op).live
  {
  }

  lemma EmptyToWb(n: Lane, i: In, product: Value)
    ensures n.e2 == EMPTY2 ==> NextWb(n, i, false, false, product) == EMPTY2
  {
  }

  lemma EmptyE1(m: Meaning, p: Pipe, log: seq<Write>)
    requires SquashFits(p) && (p.lane0.squash || p.lane1.squash)
    ensures AfterE1(m, p, log) == AfterWb(m, p, log)
  {
  }

  /** The clock after an exception: only WB holds instructions, and they retire. */
  lemma StepSecondSquash(cfg: Config, m: Meaning, p: Pipe, log: seq<Write>, i: In)
    requires Inv(m, p, log) && (p.lane0.squash || p.lane1.squash)
    ensures !Stall(p, i) && Inv(m, Next(cfg, m, p, i), log + Writes(p, i)) && Events(cfg, p, i) == []
    ensures Abs(m, Next(cfg, m, p, i), log + Writes(p, i)) == Abs(m, p, log)
  {
    hide Next, Busy, FlopNext, Writes, FitsWb, Execute, NextWb, E2Fits, E1Fits;
    Empties(cfg, m, p, i);
    Retire(m, p, log, i);
    EmptyToWb(p.lane0, i, p.units.product);
    EmptyToWb(p.lane1, i, p.units.product);
    EmptyE1(m, p, log);
    NoneIsSkipped(m, Base(Next(cfg, m, p, i), log + Writes(p, i)));
    SquashedFits(m, Next(cfg, m, p, i), log + Writes(p, i));
  }

  lemma E2Codes(m: Meaning, p: Pipe, log: seq<Write>, i: In)
    requires E2Fits(m, p, log)
    ensures p.lane0.e2.kind == Bubble ==> Code2(p.lane0.e2, i) == 0
    ensures p.lane1.e2.kind == Bubble && Code2(p.lane1.e2, i) != 0 ==> Code2(p.lane0.e2, i) != 0
    ensures p.lane0.e2.kind == p.lane0.e2.op.kind
  {
  }

  /** The exception's clock: everything younger goes, and what is older stays. */
  lemma Cut(m: Meaning, p: Pipe, log: seq<Write>, i: In)
    requires E2Fits(m, p, log) && EnvOk(m, p, i) && (Code2(p.lane0.e2, i) != 0 || Code2(p.lane1.e2, i) != 0)
    ensures var x := Execute(m, AfterWb(m, p, log), p.lane0.e2.op);
            AfterE1(m, p, log) == if Code2(p.lane0.e2, i) != 0 then x else Execute(m, x, p.lane1.e2.op)
  {
    hide Execute, AfterWb, Code2, Fits2, Together;
    E2Codes(m, p, log, i);
    var q, o0, o1 := AfterWb(m, p, log), p.lane0.e2.op, p.lane1.e2.op;
    var x := Execute(m, q, o0);
    if Code2(p.lane0.e2, i) != 0 {
      CodeStops(m, q, p.lane0.e2, i);
      DeadIsStuck(m, x, o1);
    } else {
      CodeStops(m, x, p.lane1.e2, i);
    }
    var y := Execute(m, x, o1);
    DeadIsStuck(m, y, p.lane0.e1.op);
    DeadIsStuck(m, y, p.lane1.e1.op);
  }

  lemma StepFirstSquash(cfg: Config, m: Meaning, p: Pipe, log: seq<Write>, i: In)
    requires Inv(m, p, log) && EnvOk(m, p, i) && !Stall(p, i) && !p.lane0.squash && !p.lane1.squash && Squash(p, i)
    ensures Inv(m, Next(cfg, m, p, i), log + Writes(p, i)) && Events(cfg, p, i) == [Redirect]
    ensures Abs(m, Next(cfg, m, p, i), log + Writes(p, i)) == Restart(Abs(m, p, log))
  {
    hide Next, Operand, Busy, FlopNext, Writes, Execute, NextWb, FitsWb, Fits2, Code2, Together, E1Fits;
    Empties(cfg, m, p, i);
    Retire(m, p, log, i);
    Cut(m, p, log, i);
    E2Codes(m, p, log, i);
    var n, q := Next(cfg, m, p, i), AfterWb(m, p, log);
    ToWb(m, q, p.lane0, i, p.units.product);
    ToWb(m, Execute(m, q, p.lane0.e2.op), p.lane1, i, p.units.product);
    SquashedFits(m, n, log + Writes(p, i));
    assert Base(n, log + Writes(p, i)) == q;
    assert WbFits(m, n, log + Writes(p, i));
  }

  /** An emptied pipeline fits whatever is in WB. */
  lemma SquashedFits(m: Meaning, n: Pipe, log: seq<Write>)
    requires n.lane0.e1 == EMPTY1 && n.lane1.e1 == EMPTY1 && n.lane0.e2 == EMPTY2 && n.lane1.e2 == EMPTY2
    requires n.units.csrCode == 0
    ensures E2Fits(m, n, log) && E1Fits(m, n, log) && SquashFits(n)
    ensures AfterE1(m, n, log) == AfterWb(m, n, log)
    ensures forall q :: FitsWb(m, q, EMPTY2) && Execute(m, q, EMPTY2.op) == q
    ensures forall op :: Together(op, NO_INSTR)
  {
  }

  // ---------------------------------------------------------------------------- Every clock

  /** The pipeline empties itself only when the sequential machine has met an exception. */
  lemma RedirectIsEarned(cfg: Config, m: Meaning, p: Pipe, log: seq<Write>, i: In)
    requires Inv(m, p, log) && EnvOk(m, p, i) && Redirect in Events(cfg, p, i)
    ensures Events(cfg, p, i) == [Redirect] && !Abs(m, p, log).live && !p.lane0.squash && !p.lane1.squash
  {
    hide AfterWb, Execute, IssueA, IssueB, E1Fits, WbFits, LaneStall, Fits2, Together, MemoryAnswers;
    Cut(m, p, log, i);
    E2Codes(m, p, log, i);
    var q := AfterWb(m, p, log);
    if Code2(p.lane0.e2, i) != 0 {
      CodeStops(m, q, p.lane0.e2, i);
    } else {
      CodeStops(m, Execute(m, q, p.lane0.e2.op), p.lane1.e2, i);
    }
  }

  /** Every clock keeps the invariant and moves the abstract machine by the clock's events. */
  lemma Step(cfg: Config, m: Meaning, p: Pipe, log: seq<Write>, i: In)
    requires Inv(m, p, log) && EnvOk(m, p, i)
    ensures Inv(m, Next(cfg, m, p, i), log + Writes(p, i))
    ensures Abs(m, Next(cfg, m, p, i), log + Writes(p, i)) == ApplyAll(m, Abs(m, p, log), Events(cfg, p, i))
  {
    hide Inv, Next, Abs, EnvOk, Writes, Execute, IssueA, IssueB, LaneStall, Code2;
    if Stall(p, i) {
      StepStall(cfg, m, p, log, i);
      assert log + Writes(p, i) == log;
    } else if !Squash(p, i) {
      StepAdvance(cfg, m, p, log, i);
    } else if p.lane0.squash || p.lane1.squash {
      StepSecondSquash(cfg, m, p, log, i);
    } else {
      StepFirstSquash(cfg, m, p, log, i);
      assert [Redirect][1..] == [];
    }
  }

  // ---------------------------------------------------------------------------- Runs

  function Run(cfg: Config, m: Meaning, p: Pipe, ins: seq<In>): Pipe
    decreases |ins|
  {
    if ins == [] then p else Run(cfg, m, Next(cfg, m, p, ins[0]), ins[1..])
  }

  predicate Legal(cfg: Config, m: Meaning, p: Pipe, ins: seq<In>)
    decreases |ins|
  {
    ins == [] || (EnvOk(m, p, ins[0]) && Legal(cfg, m, Next(cfg, m, p, ins[0]), ins[1..]))
  }

  /** Everything issued over a run, in program order, with the redirects between. */
  function Program(cfg: Config, m: Meaning, p: Pipe, ins: seq<In>): seq<Event>
    decreases |ins|
  {
    if ins == [] then [] else Events(cfg, p, ins[0]) + Program(cfg, m, Next(cfg, m, p, ins[0]), ins[1..])
  }

  /** Every register write over a run. */
  function Retired(cfg: Config, m: Meaning, p: Pipe, ins: seq<In>): seq<Write>
    decreases |ins|
  {
    if ins == [] then [] else Writes(p, ins[0]) + Retired(cfg, m, Next(cfg, m, p, ins[0]), ins[1..])
  }

  /** The register file's ports over a run. */
  function PortTrace(cfg: Config, m: Meaning, p: Pipe, ins: seq<In>): seq<Ports>
    decreases |ins|
  {
    if ins == [] then [] else [WritePorts(p, ins[0])] + PortTrace(cfg, m, Next(cfg, m, p, ins[0]), ins[1..])
  }

  lemma {:induction false} ApplyConcat(m: Meaning, q: Seq, es: seq<Event>, fs: seq<Event>)
    ensures ApplyAll(m, q, es + fs) == ApplyAll(m, ApplyAll(m, q, es), fs)
    decreases |es|
  {
    if es == [] {
      assert es + fs == fs;
    } else {
      assert (es + fs)[1..] == es[1..] + fs;
      ApplyConcat(m, Apply(m, q, es[0]), es[1..], fs);
    }
  }

  lemma {:induction false} RunIsSequential(cfg: Config, m: Meaning, p: Pipe, log: seq<Write>, ins: seq<In>)
    requires Inv(m, p, log) && Legal(cfg, m, p, ins)
    ensures var log' := log + Retired(cfg, m, p, ins);
            && Inv(m, Run(cfg, m, p, ins), log')
            && Abs(m, Run(cfg, m, p, ins), log') == ApplyAll(m, Abs(m, p, log), Program(cfg, m, p, ins))
    ensures forall w <- PortTrace(cfg, m, p, ins) :: Apart(w)
    ensures FlopRun(p.regs, PortTrace(cfg, m, p, ins)) == Run(cfg, m, p, ins).regs
    decreases |ins|
  {
    hide Inv, Abs, EnvOk, Events, Writes, Execute, FlopNext, WritePorts, Next, Apart;
    if ins == [] {
      assert log + Retired(cfg, m, p, ins) == log;
    } else {
      var i, n := ins[0], Next(cfg, m, p, ins[0]);
      Step(cfg, m, p, log, i);
      RunIsSequential(cfg, m, n, log + Writes(p, i), ins[1..]);
      ApplyConcat(m, Abs(m, p, log), Events(cfg, p, i), Program(cfg, m, n, ins[1..]));
      assert log + (Writes(p, i) + Retired(cfg, m, n, ins[1..])) == (log + Writes(p, i)) + Retired(cfg, m, n, ins[1..]);
      PortsOf(cfg, m, p, log, i);
      var rest := PortTrace(cfg, m, n, ins[1..]);
      assert ([WritePorts(p, i)] + rest)[1..] == rest;
    }
  }

  lemma PortsOf(cfg: Config, m: Meaning, p: Pipe, log: seq<Write>, i: In)
    requires Inv(m, p, log)
    ensures Apart(WritePorts(p, i)) && Next(cfg, m, p, i).regs == FlopNext(p.regs, WritePorts(p, i))
  {
    hide FlopNext, E2Fits, E1Fits, Operand, Busy, NextLane;
    PortsApart(m, p, log, i);
  }

  /** The state the reset input leaves. */
  predicate AfterReset(p: Pipe) {
    var empty := Lane(EMPTY1, EMPTY2, EMPTY2, false);
    && p.lane0 == empty && p.lane1 == empty && !p.divPending && !p.csrPending
    && p.units == Units(0, 0, NO_MUL, 0, 0, 0) && p.regs == seq(32, _ => 0 as Value)
  }

  /** The sequential machine after reset. */
  function Start(): Seq { Seq(seq(32, _ => 0 as Value), true, []) }

  lemma ResetFits(m: Meaning, p: Pipe)
    requires AfterReset(p)
    ensures Inv(m, p, []) && Abs(m, p, []) == Start()
  {
  }

  lemma LogGrows(m: Meaning, p: Pipe, log: seq<Write>)
    ensures log <= Abs(m, p, log).log
  {
    hide Execute;
    PairGrows(m, Base(p, log), p.lane0.wb.op, p.lane1.wb.op);
    PairGrows(m, AfterWb(m, p, log), p.lane0.e2.op, p.lane1.e2.op);
    PairGrows(m, AfterE2(m, p, log), p.lane0.e1.op, p.lane1.e1.op);
  }

  lemma PairGrows(m: Meaning, q: Seq, x: Instr, y: Instr)
    ensures q.log <= Execute(m, Execute(m, q, x), y).log
  {
  }

  /** No instruction is left in the pipeline. */
  predicate Drained(p: Pipe) {
    && p.lane0.e1.op == NO_INSTR && p.lane0.e2.op == NO_INSTR && p.lane0.wb.op == NO_INSTR
    && p.lane1.e1.op == NO_INSTR && p.lane1.e2.op == NO_INSTR && p.lane1.wb.op == NO_INSTR
  }

  /** In-order precise retirement: after reset, for every program and every pattern of stalls and
      exceptions, the register writes that reach the register file are, in order, those of the
      machine that executes the issued instructions one at a time and skips, from an exception to
      the next redirect, everything; and once the pipeline has drained they are all of them. */
  lemma RetirementIsSequential(cfg: Config, m: Meaning, p: Pipe, ins: seq<In>)
    requires AfterReset(p) && Legal(cfg, m, p, ins)
    ensures var q, r := ApplyAll(m, Start(), Program(cfg, m, p, ins)), Run(cfg, m, p, ins);
            && Retired(cfg, m, p, ins) <= q.log
            && (Drained(r) ==> Retired(cfg, m, p, ins) == q.log && r.regs == q.regs)
  {
    hide Inv, Legal, Program;
    ResetFits(m, p);
    RunIsSequential(cfg, m, p, [], ins);
    var log := Retired(cfg, m, p, ins);
    assert [] + log == log;
    LogGrows(m, Run(cfg, m, p, ins), log);
  }

  /** Bypass correctness: after any run, an instruction that issues from the first slot is handed the
      operands of the sequential machine that has executed every older instruction, unless one of
      those has already ended in an exception, which drops it. */
  lemma OperandsAreSequential(cfg: Config, m: Meaning, p: Pipe, ins: seq<In>, i: In, r: RegIndex)
    requires AfterReset(p) && Legal(cfg, m, p, ins) && EnvOk(m, Run(cfg, m, p, ins), i)
    requires IssueA(cfg, Run(cfg, m, p, ins), i) && (r == i.a.ra || r == i.a.rb)
    requires ApplyAll(m, Start(), Program(cfg, m, p, ins)).live
    ensures Operand(cfg, Run(cfg, m, p, ins), i, r) == Read(ApplyAll(m, Start(), Program(cfg, m, p, ins)).regs, r)
  {
    hide Inv, Legal, Program, Busy, Operand, LaneStall, Code2, AfterE1, EnvOk, Pairs, Execute;
    var log := AfterRun(cfg, m, p, ins);
    ToE1(cfg, m, Run(cfg, m, p, ins), log, i);
  }

  /** So is its companion from the second slot, with the first slot's instruction executed too. */
  lemma PairedOperandsAreSequential(cfg: Config, m: Meaning, p: Pipe, ins: seq<In>, i: In, r: RegIndex)
    requires AfterReset(p) && Legal(cfg, m, p, ins) && EnvOk(m, Run(cfg, m, p, ins), i)
    requires IssueB(cfg, Run(cfg, m, p, ins), i) && (r == i.b.ra || r == i.b.rb)
    requires Execute(m, ApplyAll(m, Start(), Program(cfg, m, p, ins)), i.a).live
    ensures Operand(cfg, Run(cfg, m, p, ins), i, r)
         == Read(Execute(m, ApplyAll(m, Start(), Program(cfg, m, p, ins)), i.a).regs, r)
  {
    hide Inv, Legal, Program, Busy, Operand, LaneStall, Code2, AfterE1, EnvOk, Pairs, Execute;
    var log := AfterRun(cfg, m, p, ins);
    ToE1Beside(cfg, m, Run(cfg, m, p, ins), log, i);
  }

  /** The invariant and the abstract machine after a run from reset. */
  lemma AfterRun(cfg: Config, m: Meaning, p: Pipe, ins: seq<In>) returns (log: seq<Write>)
    requires AfterReset(p) && Legal(cfg, m, p, ins)
    ensures Inv(m, Run(cfg, m, p, ins), log)
    ensures Abs(m, Run(cfg, m, p, ins), log) == ApplyAll(m, Start(), Program(cfg, m, p, ins))
  {
    hide Inv, Legal, Program, Run, Abs, ApplyAll;
    log := Retired(cfg, m, p, ins);
    ResetFits(m, p);
    RunIsSequential(cfg, m, p, [], ins);
    assert [] + log == log;
  }

  /** In every run the flop register file and the two-bank one answer every read alike. */
  lemma RegisterFilesAgree(cfg: Config, m: Meaning, p: Pipe, b: Banks, ins: seq<In>)
    requires AfterReset(p) && Legal(cfg, m, p, ins) && Sized(b) && SameReads(p.regs, b)
    ensures SameReads(Run(cfg, m, p, ins).regs, BanksRun(b, PortTrace(cfg, m, p, ins)))
  {
    hide Inv, Legal, SameReads, Run, PortTrace;
    ResetFits(m, p);
    RunIsSequential(cfg, m, p, [], ins);
    BanksAreFlops(p.regs, b, PortTrace(cfg, m, p, ins));
  }

  // ---------------------------------------------------------------------------- Progress

  /** A blocking flag is up only for an instruction that will clear it. */
  predicate FlagsFit(p: Pipe) {
    && (p.divPending ==> p.lane0.e1.kind == Div)
    && (p.csrPending ==> p.lane0.e1.kind == Csr || p.lane0.e2.kind == Csr || p.lane0.wb.kind == Csr)
  }

  lemma FlagsStep(cfg: Config, m: Meaning, p: Pipe, i: In)
    requires FlagsFit(p)
    ensures FlagsFit(Next(cfg, m, p, i))
  {
    hide Operand, Busy, Code2, NextUnits, FlopNext, ResultWb;
  }

  lemma {:induction false} RunFlagsFit(cfg: Config, m: Meaning, p: Pipe, ins: seq<In>)
    requires FlagsFit(p)
    ensures FlagsFit(Run(cfg, m, p, ins))
    decreases |ins|
  {
    hide FlagsFit, Next;
    if ins != [] {
      FlagsStep(cfg, m, p, ins[0]);
      RunFlagsFit(cfg, m, Next(cfg, m, p, ins[0]), ins[1..]);
    }
  }

  /** The units outside answer, and nothing redirects. */
  predicate Calm(i: In) { i.divValid && i.memComplete && !i.lsuStall && !i.csrBranch }

  predicate EmptyE1s(p: Pipe) { p.lane0.e1 == EMPTY1 && p.lane1.e1 == EMPTY1 && p.units.csrCode == 0 }

  predicate EmptyE2s(p: Pipe) {
    && p.lane0.e2.kind == Bubble && p.lane0.e2.op == NO_INSTR && p.lane0.e2.code == 0
    && p.lane1.e2.kind == Bubble && p.lane1.e2.op == NO_INSTR && p.lane1.e2.code == 0
  }

  /** A calm clock in which nothing issues moves the emptiness on by one stage. */
  lemma IdleClock(cfg: Config, m: Meaning, p: Pipe, i: In)
    requires FlagsFit(p) && Calm(i) && !IssueA(cfg, p, i)
    ensures var n := Next(cfg, m, p, i);
            && FlagsFit(n) && EmptyE1s(n) && !n.divPending
            && (EmptyE1s(p) ==> EmptyE2s(n))
            && (EmptyE2s(p) ==> !n.lane0.squash && !n.lane1.squash)
            && (EmptyE2s(p) ==> n.lane0.wb.kind == Bubble && n.lane0.wb.op == NO_INSTR && n.lane1.wb.op == NO_INSTR)
  {
    FlagsStep(cfg, m, p, i);
    hide FlagsFit, Operand, Busy, FlopNext, ResultWb;
  }

  /** The pipeline does not block for ever: an instruction that is offered for four calm clocks issues in
      one of them, whatever was in the pipeline before. */
  lemma OfferedInstructionIssues(cfg: Config, m: Meaning, p: Pipe, ins: seq<In>, i0: In, i1: In, i2: In, i3: In)
    requires AfterReset(p) && Calm(i0) && Calm(i1) && Calm(i2) && Calm(i3)
    requires i0.a == i1.a == i2.a == i3.a && i0.a.kind != Bubble
    ensures var p0 := Run(cfg, m, p, ins);
            var p1 := Next(cfg, m, p0, i0);
            var p2 := Next(cfg, m, p1, i1);
            IssueA(cfg, p0, i0) || IssueA(cfg, p1, i1) || IssueA(cfg, p2, i2) || IssueA(cfg, Next(cfg, m, p2, i2), i3)
  {
    RunFlagsFit(cfg, m, p, ins);
    hide Run, Next, FlagsFit, IssueA;
    var p0 := Run(cfg, m, p, ins);
    var p1 := Next(cfg, m, p0, i0);
    var p2 := Next(cfg, m, p1, i1);
    if !IssueA(cfg, p0, i0) && !IssueA(cfg, p1, i1) && !IssueA(cfg, p2, i2) {
      IdleClock(cfg, m, p0, i0);
      IdleClock(cfg, m, p1, i1);
      IdleClock(cfg, m, p2, i2);
      EmptyIssues(cfg, Next(cfg, m, p2, i2), i3);
    }
  }

  lemma EmptyIssues(cfg: Config, p: Pipe, i: In)
    requires FlagsFit(p) && EmptyE1s(p) && EmptyE2s(p) && !p.lane0.squash && !p.lane1.squash
    requires p.lane0.wb.kind == Bubble && Calm(i) && i.a.kind != Bubble
    ensures IssueA(cfg, p, i)
  {
  }

  lemma {:induction false} RunOn(cfg: Config, m: Meaning, p: Pipe, ins: seq<In>, i: In)
    ensures Run(cfg, m, p, ins + [i]) == Next(cfg, m, Run(cfg, m, p, ins), i)
    decreases |ins|
  {
    hide Next;
    if ins == [] {
      assert ins + [i] == [i] && [i][1..] == [];
    } else {
      assert (ins + [i])[1..] == ins[1..] + [i] && (ins + [i])[0] == ins[0];
      RunOn(cfg, m, Next(cfg, m, p, ins[0]), ins[1..], i);
    }
  }

  /** Nothing is kept back: three calm clocks without an offer and every register write of the sequential
      machine has reached the register file. */
  lemma EverythingRetires(cfg: Config, m: Meaning, p: Pipe, ins: seq<In>, i0: In, i1: In, i2: In)
    requires AfterReset(p) && Legal(cfg, m, p, ins + [i0] + [i1] + [i2])
    requires Calm(i0) && Calm(i1) && Calm(i2) && i0.a.kind == Bubble && i1.a.kind == Bubble && i2.a.kind == Bubble
    ensures var all := ins + [i0] + [i1] + [i2];
            var q := ApplyAll(m, Start(), Program(cfg, m, p, all));
            Retired(cfg, m, p, all) == q.log && Run(cfg, m, p, all).regs == q.regs
  {
    RunFlagsFit(cfg, m, p, ins);
    RunOn(cfg, m, p, ins, i0);
    RunOn(cfg, m, p, ins + [i0], i1);
    RunOn(cfg, m, p, ins + [i0] + [i1], i2);
    hide Run, Next, FlagsFit, Legal, Program, Retired;
    var p0 := Run(cfg, m, p, ins);
    IdleClock(cfg, m, p0, i0);
    var p1 := Next(cfg, m, p0, i0);
    IdleClock(cfg, m, p1, i1);
    IdleClock(cfg, m, Next(cfg, m, p1, i1), i2);
    RetirementIsSequential(cfg, m, p, ins + [i0] + [i1] + [i2]);
  }

  // ---------------------------------------------------------------------------- What may issue

  /** A stage holds a load or multiplication that writes the register. */
  predicate Awaits(kind: Kind, rdValid: bool, rd: RegIndex, r: RegIndex) {
    (kind == Load || kind == Mul) && rdValid && rd == r
  }

  /** An instruction issues only if the load/store unit takes it, nothing redirects, no division or CSR
      access blocks it, none of its registers is awaited from E1, and, if it multiplies, divides or
      accesses a CSR, not right behind a memory access. */
  lemma IssuesOnlyWhenFree(cfg: Config, p: Pipe, i: In, r: RegIndex)
    requires IssueA(cfg, p, i) && (r == i.a.ra || r == i.a.rb || r == i.a.rd)
    ensures !i.lsuStall && !i.csrBranch && !p.divPending && !p.csrPending
    ensures !Awaits(p.lane0.e1.kind, p.lane0.e1.rdValid, p.lane0.e1.op.rd, r)
    ensures !Awaits(p.lane1.e1.kind, p.lane1.e1.rdValid, p.lane1.e1.op.rd, r)
    ensures Memory(p.lane0.e1.kind) || Memory(p.lane1.e1.kind) ==> i.a.kind != Mul && i.a.kind != Div && i.a.kind != Csr
  {
  }

  /** With nothing awaited it does issue: no load or multiplication in flight, no memory access right in
      front of a multiplication, division or CSR access. */
  lemma ReadyInstructionIssues(cfg: Config, p: Pipe, i: In)
    requires i.a.kind != Bubble && Calm(i) && !Squash(p, i) && !p.divPending && !p.csrPending
    requires forall k <- [p.lane0.e1.kind, p.lane1.e1.kind, p.lane0.e2.kind, p.lane1.e2.kind] :: k != Load && k != Mul
    requires p.lane0.e1.kind == Store || p.lane1.e1.kind == Store ==> i.a.kind != Mul && i.a.kind != Div && i.a.kind != Csr
    ensures IssueA(cfg, p, i)
  {
    var ks := [p.lane0.e1.kind, p.lane1.e1.kind, p.lane0.e2.kind, p.lane1.e2.kind];
    assert ks[0] in ks && ks[1] in ks && ks[2] in ks && ks[3] in ks;
    hide LaneSquash, Rd1, Rd2;
  }

  /** The units one instruction leaves free for another beside it: both may use an ALU, but there is one
      multiplier and one load/store unit, branches and what blocks come last or alone. */
  predicate UnitsFree(a: Kind, b: Kind) {
    && (a == Exec || Memory(a) || a == Mul)
    && (b == Exec || b == Branch || (Memory(b) && !Memory(a)) || (b == Mul && a != Mul))
  }

  /** Two instructions that find the pipeline empty go together exactly when a second lane is built, the
      units are free for both and the second does not name what the first writes. */
  lemma PairsIssueTogether(cfg: Config, p: Pipe, i: In)
    requires EmptyE1s(p) && EmptyE2s(p) && !p.lane0.squash && !p.lane1.squash && !p.divPending && !p.csrPending
    requires Calm(i) && i.a.kind != Bubble && i.b.kind != Bubble
    ensures IssueB(cfg, p, i) <==>
            && cfg.dualIssue && UnitsFree(i.a.kind, i.b.kind)
            && (i.a.rdValid && i.a.rd != 0 ==> i.a.rd != i.b.ra && i.a.rd != i.b.rb && i.a.rd != i.b.rd)
  {
  }

  // ---------------------------------------------------------------------------- CSR accesses

  predicate NoneBehind(p: Pipe) { p.lane0.e1.kind == Bubble && p.lane1.e1.kind == Bubble }

  /** A CSR access is alone in front of an empty pipeline, and keeps it empty. */
  predicate CsrAlone(p: Pipe) {
    && (p.lane0.e1.kind == Csr ==>
          p.csrPending && p.lane1.e1.kind == Bubble && !Memory(p.lane0.e2.kind) && !Memory(p.lane1.e2.kind))
    && (p.lane0.e2.kind == Csr ==> p.csrPending && NoneBehind(p) && p.lane1.e2.kind == Bubble)
    && (p.lane0.wb.kind == Csr ==>
          && NoneBehind(p) && p.lane0.e2.kind == Bubble && p.lane1.e2.kind == Bubble
          && (p.csrPending || p.lane0.squash || p.lane1.squash))
    && (p.lane0.squash || p.lane1.squash ==> NoneBehind(p) && p.lane0.e2.kind == Bubble && p.lane1.e2.kind == Bubble)
  }

  lemma CsrStep(cfg: Config, m: Meaning, p: Pipe, i: In)
    requires CsrAlone(p)
    ensures CsrAlone(Next(cfg, m, p, i))
  {
    hide Operand, BusyE1, BusyE2, NextUnits, FlopNext, ResultWb, MemoryCode;
  }

  lemma {:induction false} RunCsrAlone(cfg: Config, m: Meaning, p: Pipe, ins: seq<In>)
    requires CsrAlone(p)
    ensures CsrAlone(Run(cfg, m, p, ins))
    decreases |ins|
  {
    hide CsrAlone, Next;
    if ins != [] {
      CsrStep(cfg, m, p, ins[0]);
      RunCsrAlone(cfg, m, Next(cfg, m, p, ins[0]), ins[1..]);
    }
  }

  /** Nothing issues while a CSR access is anywhere in the pipeline, write-back included, so that every
      later instruction runs under the CSRs it leaves. */
  lemma NothingPassesCsr(cfg: Config, m: Meaning, p: Pipe, ins: seq<In>, i: In)
    requires AfterReset(p) && IssueA(cfg, Run(cfg, m, p, ins), i)
    ensures var l := Run(cfg, m, p, ins).lane0; l.e1.kind != Csr && l.e2.kind != Csr && l.wb.kind != Csr
  {
    RunCsrAlone(cfg, m, p, ins);
    hide Run, Busy, Stall;
  }
}
