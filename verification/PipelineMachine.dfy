/** The pipeline as it is built: stage registers, blocking flags and the register file updated in
    place at each clock, with the scheduling and bypass blocks written as the assignments they are. */
module PipelineMachine {
  import opened Regfile
  import opened Pipeline

  /** biriscv_pipe_ctrl: the stages of one lane. */
  class LaneBlock {
    var e1: Stage1
    var e2: Stage2
    var wb: Stage2
    var squash: bool

    function View(): Lane reads this {
      Lane(e1, e2, wb, squash)
    }

    constructor ()
      ensures View() == Lane(EMPTY1, EMPTY2, EMPTY2, false)
    {
      e1, e2, wb, squash := EMPTY1, EMPTY2, EMPTY2, false;
    }

    method ClockWb(i: In, stall: bool, squashWb: bool, product: Value)
      modifies this`wb
      ensures wb == NextWb(old(View()), i, stall, squashWb, product)
    {
      var code := Code2(e2, i);
      if stall {
        return;
      } else if squashWb {
        wb := EMPTY2;
        return;
      }
      var result := e2.result;
      if e2.valid && Memory(e2.kind) {
        result := i.memValue;
      } else if e2.valid && e2.kind == Mul {
        result := product;
      }
      wb := Stage2(e2.valid && !MemoryCode(code), e2.kind, e2.rdValid && code == 0, e2.op, e2.a, e2.b, result, code);
    }

    method ClockE2(i: In, stall: bool, flush: bool, alu: Value, u: Units)
      modifies this`e2
      ensures e2 == NextE2(old(View()), i, stall, flush, alu, u)
    {
      if stall {
        return;
      } else if flush {
        e2 := EMPTY2;
        return;
      }
      var result := alu;
      if e1.kind == Div {
        result := i.divValue;
      } else if e1.kind == Csr {
        result := u.csrValue;
      }
      var valid, code := e1.valid, u.csrCode;
      if e1.code != 0 {
        valid, code := false, e1.code;
      }
      e2 := Stage2(valid, e1.kind, e1.rdValid, e1.op, e1.a, e1.b, result, code);
    }

    /** The stages move from the back, so that each takes what stood before it. */
    method Clock(i: In, stall: bool, flush: bool, squashWb: bool, issue: bool, s: Stage1, alu: Value, u: Units)
      modifies this
      ensures View() == NextLane(old(View()), i, stall, flush, squashWb, issue, s, alu, u)
    {
      hide NextE2, NextWb, Code2;
      ClockWb(i, stall, squashWb, u.product);
      if !stall {
        squash := Code2(e2, i) != 0;
      }
      LaneParts(old(View()), View(), i, stall, flush, squashWb, alu, u);
      ClockE2(i, stall, flush, alu, u);
      if !stall {
        e1 := if issue && !flush then s else EMPTY1;
      }
    }
  }

  /** E2's next value looks at E1, and WB's at E2 and WB. */
  lemma LaneParts(n: Lane, n': Lane, i: In, stall: bool, flush: bool, squashWb: bool, alu: Value, u: Units)
    requires n.e1 == n'.e1 && n.e2 == n'.e2
    ensures NextE2(n, i, stall, flush, alu, u) == NextE2(n', i, stall, flush, alu, u)
  {
  }

  /** The signals that the registers take at the end of a clock. */
  datatype Wires = Wires(stall: bool, flush: bool, flush0: bool, issueA: bool, issueB: bool, s0: Stage1, s1: Stage1,
                         div: bool, csr: bool, units: Units, ports: Ports)

  function WiresOf(cfg: Config, m: Meaning, p: Pipe, i: In): Wires {
    Wires(Stall(p, i), Squash(p, i), LaneSquash(p.lane0, i), IssueA(cfg, p, i), IssueB(cfg, p, i),
          Issued(m, i.a, Operand(cfg, p, i, i.a.ra), Operand(cfg, p, i, i.a.rb)),
          Issued(m, i.b, Operand(cfg, p, i, i.b.ra), Operand(cfg, p, i, i.b.rb)),
          NextDivPending(cfg, p, i), NextCsrPending(cfg, p, i), NextUnits(cfg, m, p, i), WritePorts(p, i))
  }

  lemma NextOfWires(cfg: Config, m: Meaning, p: Pipe, i: In)
    ensures var w, u := WiresOf(cfg, m, p, i), p.units;
            Next(cfg, m, p, i) ==
            Pipe(NextLane(p.lane0, i, w.stall, w.flush, false, w.issueA, w.s0, u.alu0, u),
                 NextLane(p.lane1, i, w.stall, w.flush, w.flush0, w.issueB, w.s1, u.alu1, u),
                 w.div, w.csr, w.units, FlopNext(p.regs, w.ports))
  {
    hide NextLane, FlopNext, Issued, Operand, IssueA, IssueB, NextUnits, NextDivPending, NextCsrPending;
  }

  /** biriscv_issue with its two lanes, the result registers of the units and the register file. */
  class PipelineBlock {
    const cfg: Config
    const lane0: LaneBlock
    const lane1: LaneBlock
    const file: Flops
    var divPending: bool
    var csrPending: bool
    var units: Units

    ghost predicate Valid() reads this {
      lane0 != lane1 && file.Valid()
    }

    ghost function Repr(): set<object> reads this {
      {this, lane0, lane1, file.reg}
    }

    function View(): Pipe
      requires Valid()
      reads this, lane0, lane1, file.reg
    {
      Pipe(lane0.View(), lane1.View(), divPending, csrPending, units, file.View())
    }

    constructor (config: Config)
      ensures Valid() && fresh(Repr() - {this}) && cfg == config
      ensures View() == Pipe(Lane(EMPTY1, EMPTY2, EMPTY2, false), Lane(EMPTY1, EMPTY2, EMPTY2, false), false, false,
                             Units(0, 0, NO_MUL, 0, 0, 0), seq(32, _ => 0 as Value))
    {
      cfg := config;
      divPending, csrPending, units := false, false, Units(0, 0, NO_MUL, 0, 0, 0);
      lane0 := new LaneBlock();
      lane1 := new LaneBlock();
      file := new Flops();
    }

    /** Sets one bit of the scoreboard if `when`. */
    static method Mark(busy: seq<bool>, when: bool, rd: RegIndex) returns (marked: seq<bool>)
      requires |busy| == 32
      ensures |marked| == 32 && forall r: RegIndex :: marked[r] == (busy[r] || (when && rd == r))
    {
      marked := if when then busy[rd := true] else busy;
    }

    /** The part of the scoreboard that E2 sets. */
    method ScoreboardE2(i: In, stall: bool) returns (busy: seq<bool>)
      requires Valid() && stall == Stall(View(), i)
      ensures |busy| == 32 && forall r: RegIndex :: busy[r] == BusyE2(cfg, View(), i, r)
    {
      hide Stall, Rd2;
      busy := seq(32, _ => false);
      busy := Mark(busy, !cfg.loadBypass && lane0.e2.kind == Load, Rd2(lane0.e2, stall));
      busy := Mark(busy, !cfg.loadBypass && lane1.e2.kind == Load, Rd2(lane1.e2, stall));
      busy := Mark(busy, !cfg.mulBypass && lane0.e2.kind == Mul, Rd2(lane0.e2, stall));
      busy := Mark(busy, !cfg.mulBypass && lane1.e2.kind == Mul, Rd2(lane1.e2, stall));
    }

    /** The scoreboard, one bit a register. */
    method Scoreboard(i: In) returns (busy: seq<bool>)
      requires Valid()
      ensures |busy| == 32 && forall r: RegIndex :: busy[r] == Busy(cfg, View(), i, r)
    {
      hide Stall, BusyE2, Rd1;
      busy := ScoreboardE2(i, Stall(View(), i));
      busy := Mark(busy, lane0.e1.kind == Load || lane0.e1.kind == Mul, Rd1(lane0.e1));
      busy := Mark(busy, lane1.e1.kind == Load || lane1.e1.kind == Mul, Rd1(lane1.e1));
      if (Memory(lane0.e1.kind) || Memory(lane1.e1.kind)) && (i.a.kind == Mul || i.a.kind == Div || i.a.kind == Csr) {
        busy := seq(32, _ => true);
      }
    }

    /** Which of the two slots issue. */
    method Schedule(i: In) returns (issueA: bool, issueB: bool)
      requires Valid()
      ensures issueA == IssueA(cfg, View(), i) && issueB == IssueB(cfg, View(), i)
    {
      issueA, issueB := false, false;
      var busy := Scoreboard(i);
      var blocked := i.lsuStall || Stall(View(), i) || divPending || csrPending;
      var flushing := i.csrBranch || Squash(View(), i);
      hide Busy;
      if !blocked && !flushing && i.a.kind != Bubble && !busy[i.a.ra] && !busy[i.a.rb] && !busy[i.a.rd] {
        issueA := true;
        if i.a.rdValid && i.a.rd != 0 {
          busy := busy[i.a.rd := true];
        }
        if cfg.dualIssue && Pairs(i.a.kind, i.b.kind) && i.b.kind != Bubble
           && !busy[i.b.ra] && !busy[i.b.rb] && !busy[i.b.rd] {
          issueB := true;
        }
      }
    }

    /** The bypass network for one operand: each newer source overrides the older ones. */
    method Bypass(i: In, r: RegIndex) returns (value: Value)
      requires Valid()
      ensures value == Operand(cfg, View(), i, r)
    {
      var stall := Stall(View(), i);
      value := Read(file.View(), r);
      if Rd2(lane0.wb, stall) == r { value := lane0.wb.result; }
      if Rd2(lane1.wb, stall) == r { value := lane1.wb.result; }
      if Rd2(lane0.e2, stall) == r { value := Result2(cfg, lane0.e2, stall, i, units.product); }
      if Rd2(lane1.e2, stall) == r { value := Result2(cfg, lane1.e2, stall, i, units.product); }
      if Rd1(lane0.e1) == r { value := units.alu0; }
      if Rd1(lane1.e1) == r { value := units.alu1; }
      if r == 0 { value := 0; }
    }

    /** The next blocking flags of divisions and CSR accesses. */
    method Flags(i: In, issueA: bool) returns (div: bool, csr: bool)
      requires Valid() && issueA == IssueA(cfg, View(), i)
      ensures div == NextDivPending(cfg, View(), i) && csr == NextCsrPending(cfg, View(), i)
    {
      hide IssueA;
      div, csr := divPending, csrPending;
      if Squash(View(), i) {
        div, csr := false, false;
        return;
      }
      if issueA && i.a.kind == Div { div := true; } else if i.divValid { div := false; }
      if issueA && i.a.kind == Csr {
        csr := true;
      } else if lane0.wb.kind == Csr && !Stall(View(), i) {
        csr := false;
      }
    }

    /** What the multiplier latches. */
    static method MulSelect(i: In, issueA: bool, issueB: bool, a0: Value, b0: Value, a1: Value, b1: Value)
      returns (x: MulIn)
      ensures x == MulTaken(i, issueA, issueB, a0, b0, a1, b1)
    {
      var muxed := issueB && i.b.kind == Mul;
      x := NO_MUL;
      if (if muxed then issueB else issueA) && (if muxed then i.b else i.a).kind == Mul {
        x := MulIn(if muxed then i.b else i.a, if muxed then a1 else a0, if muxed then b1 else b0);
      }
    }

    /** The next result registers of the ALUs, the multiplier and the CSR unit. */
    method UnitResults(m: Meaning, i: In, issueA: bool, issueB: bool, a0: Value, b0: Value, a1: Value, b1: Value)
      returns (u: Units)
      requires Valid() && issueA == IssueA(cfg, View(), i) && issueB == IssueB(cfg, View(), i)
      requires a0 == Operand(cfg, View(), i, i.a.ra) && b0 == Operand(cfg, View(), i, i.a.rb)
      requires a1 == Operand(cfg, View(), i, i.b.ra) && b1 == Operand(cfg, View(), i, i.b.rb)
      ensures u == NextUnits(cfg, m, View(), i)
    {
      hide IssueA, IssueB, Operand, Alu, MulTaken, Product;
      var csrValue, csrCode := 0, 0;
      if issueA && i.a.kind == Csr {
        csrValue, csrCode := m.value(i.a, a0, b0), m.code(i.a, a0, b0);
      }
      if Stall(View(), i) {
        return units.(csrValue := csrValue, csrCode := csrCode);
      }
      hide Stall;
      var x := MulSelect(i, issueA, issueB, a0, b0, a1, b1);
      u := Units(Alu(m, i.a, a0, b0), Alu(m, i.b, a1, b1), x, Product(m, units.mul), csrValue, csrCode);
    }

    /** All combinational signals of this clock. */
    method Combine(m: Meaning, i: In) returns (w: Wires)
      requires Valid()
      ensures w == WiresOf(cfg, m, View(), i)
    {
      hide IssueA, IssueB, Operand, NextUnits, NextDivPending, NextCsrPending;
      hide Stall, Squash, LaneSquash, WritePorts, Issued;
      var issueA, issueB := Schedule(i);
      var a0 := Bypass(i, i.a.ra);
      var b0 := Bypass(i, i.a.rb);
      var a1 := Bypass(i, i.b.ra);
      var b1 := Bypass(i, i.b.rb);
      var div, csr := Flags(i, issueA);
      var u := UnitResults(m, i, issueA, issueB, a0, b0, a1, b1);
      w := Wires(Stall(View(), i), Squash(View(), i), LaneSquash(lane0.View(), i), issueA, issueB,
                 Issued(m, i.a, a0, b0), Issued(m, i.b, a1, b1), div, csr, u, WritePorts(View(), i));
    }

    /** One rising clock edge. */
    method Clock(m: Meaning, i: In)
      requires Valid()
      modifies Repr()
      ensures Valid() && View() == Next(cfg, m, old(View()), i)
    {
      hide NextLane, FlopNext, WiresOf, Next;
      var w := Combine(m, i);
      NextOfWires(cfg, m, View(), i);
      lane0.Clock(i, w.stall, w.flush, false, w.issueA, w.s0, units.alu0, units);
      lane1.Clock(i, w.stall, w.flush, w.flush0, w.issueB, w.s1, units.alu1, units);
      file.Clock(w.ports);
      units, divPending, csrPending := w.units, w.div, w.csr;
    }
  }
}
