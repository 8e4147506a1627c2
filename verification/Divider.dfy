/** The restoring divider: 32 subtract-and-shift steps, sign fix-up, and reuse of the last result. */
module Divider {

  const TWO31 := 0x8000_0000
  const TWO32 := 0x1_0000_0000

  type Word32 = n: int | 0 <= n < 0x1_0000_0000

  datatype Operation = Div | Divu | Rem | Remu

  datatype Request = Request(op: Operation, a: Word32, b: Word32)

  datatype Option<T> = None | Some(value: T)

  // ---------------------------------------------------------------------------- Instruction set

  /** Two's-complement reading of a word. */
  function Signed(x: Word32): int { if x < TWO31 then x else x - TWO32 }

  function Word(x: int): Word32 { x % 0x1_0000_0000 }

  function Abs(x: int): int { if x < 0 then -x else x }

  /** The quotient that is rounded towards zero. */
  function Quotient(a: int, b: int): int
    requires b != 0
  {
    if (a < 0) == (b < 0) then Abs(a) / Abs(b) else -(Abs(a) / Abs(b))
  }

  /** Section 7.2 of the RISC-V Unprivileged ISA 20191213, with its table of division by zero and
      signed overflow. */
  function Isa(r: Request): Word32 {
    match r.op
    case Divu => if r.b == 0 then TWO32 - 1 else r.a / r.b
    case Remu => if r.b == 0 then r.a else r.a % r.b
    case Div =>
      if r.b == 0 then TWO32 - 1
      else if Signed(r.a) == -TWO31 && Signed(r.b) == -1 then TWO31
      else Word(Quotient(Signed(r.a), Signed(r.b)))
    case Rem =>
      if r.b == 0 then r.a
      else if Signed(r.a) == -TWO31 && Signed(r.b) == -1 then 0
      else Word(Signed(r.a) - Quotient(Signed(r.a), Signed(r.b)) * Signed(r.b))
  }

  // ---------------------------------------------------------------------------- Registers

  /** The registers. `last` holds the last operands and which of the four operations it was. */
  datatype Regs = Regs(
    dividend: Word32, divisor: nat, quotient: Word32, mask: nat, isDiv: bool, busy: bool, invert: bool,
    last: Option<Request>, valid: bool, result: Word32)

  const RESET := Regs(0, 0, 0, 0, false, false, false, None, false, 0)

  /** An optional request in one clock. */
  type In = Option<Request>

  function Negate(x: Word32): Word32 { if x == 0 then 0 else TWO32 - x }

  predicate Negative(x: Word32) { x >= TWO31 }

  predicate Complete(d: Regs) { d.mask == 0 && d.busy }

  /** The result, with its sign restored. */
  function Result(d: Regs): Word32 {
    var x := if d.isDiv then d.quotient else d.dividend;
    if d.invert then Negate(x) else x
  }

  /** `x` with the bit of the power of two `bit` set. */
  function SetBit(x: Word32, bit: nat): (y: int)
    requires bit > 0
    ensures y == x || y == x + bit
  {
    if (x / bit) % 2 == 1 then x else x + bit
  }

  function Load(d: Regs, r: Request): Regs {
    var signedOp := r.op == Div || r.op == Rem;
    d.(last := Some(r), busy := true, isDiv := r.op == Div || r.op == Divu,
       dividend := if signedOp && Negative(r.a) then Negate(r.a) else r.a,
       divisor := (if signedOp && Negative(r.b) then Negate(r.b) else r.b) * 0x8000_0000,
       invert := (r.op == Div && Negative(r.a) != Negative(r.b) && r.b != 0) || (r.op == Rem && Negative(r.a)),
       quotient := 0, mask := TWO31)
  }

  /** One subtract-and-shift step. */
  function Subtract(d: Regs): Regs {
    var fits := d.mask > 0 && d.divisor <= d.dividend;
    d.(dividend := if fits then d.dividend - d.divisor else d.dividend,
       quotient := if fits then SetBit(d.quotient, d.mask) % 0x1_0000_0000 else d.quotient,
       divisor := d.divisor / 2, mask := d.mask / 2)
  }

  /** One rising clock edge. */
  function Next(d: Regs, i: In): Regs {
    var n := if i.Some? then if d.last == i then d.(busy := true) else Load(d, i.value)
             else if Complete(d) then d.(busy := false)
             else if d.busy then Subtract(d)
             else d;
    n.(valid := Complete(d), result := if Complete(d) then Result(d) else d.result)
  }

  // ---------------------------------------------------------------------------- Arithmetic

  function Pow2(n: nat): nat { if n == 0 then 1 else 2 * Pow2(n - 1) }

  lemma Pow2At()
    ensures Pow2(31) == 0x8000_0000 && Pow2(32) == 0x1_0000_0000
  {
    assert Pow2(8) == 256;
    assert Pow2(16) == 0x1_0000 by { assert Pow2(12) == 0x1000; }
    assert Pow2(24) == 0x100_0000 by { assert Pow2(20) == 0x10_0000; }
    assert Pow2(28) == 0x1000_0000;
  }

  lemma {:induction false} Pow2Positive(n: nat)
    ensures Pow2(n) > 0
  {
    if n > 0 { Pow2Positive(n - 1); }
  }

  /** Between steps, with quotient bits below `w` to go: what has been subtracted, and that the
      rest is below the next multiple. A zero divisor subtracts nothing and sets every bit. */
  predicate Balanced(x: int, q: int, a: int, b: int, w: int) {
    && w > 0 && q % w == 0
    && (if b == 0 then x == a && q == 0x1_0000_0000 - w
        else x < b * w && a == q * b + x && q + w <= 0x1_0000_0000)
  }

  ghost predicate Dividing(d: Regs, a: nat, b: nat, left: nat) {
    && left <= 32 && d.mask == (if left == 0 then 0 else Pow2(left - 1)) && a < TWO32 && b < TWO32
    && (left > 0 ==> d.divisor == b * Pow2(left - 1))
    && Balanced(d.dividend, d.quotient, a, b, Pow2(left))
  }

  /** Setting a bit below all the bits that are set adds it. */
  lemma SetBitAdds(x: Word32, bit: nat)
    requires bit > 0 && x % (2 * bit) == 0
    ensures SetBit(x, bit) == x + bit && (x + bit) % bit == 0 && x % bit == 0
  {
    var k := x / (2 * bit);
    assert x == 2 * bit * k;
    assert x == bit * (2 * k);
    DivExact(bit, 2 * k);
    assert x + bit == bit * (2 * k + 1);
    DivExact(bit, 2 * k + 1);
  }

  lemma Monotone(b: int, x: int, y: int)
    requires b > 0
    ensures x <= y ==> b * x <= b * y
  {
  }

  lemma DivExact(b: nat, k: nat)
    requires b > 0
    ensures (b * k) / b == k && (b * k) % b == 0
  {
    var d: int := k - (b * k) / b;
    assert b * k == b * ((b * k) / b) + (b * k) % b;
    assert b * d == (b * k) % b;
    Monotone(b, 1, d);
    Monotone(b, d, -1);
  }

  // ---------------------------------------------------------------------------- The 32 steps

  /** Producing one more quotient bit keeps the balance. */
  lemma BalancedStep(x: nat, q: Word32, a: int, b: nat, p: nat)
    requires p > 0 && Balanced(x, q, a, b, 2 * p)
    ensures b * p <= x ==> SetBit(q, p) == q + p && Balanced(x - b * p, q + p, a, b, p)
    ensures b * p > x ==> Balanced(x, q, a, b, p)
  {
    hide SetBit;
    SetBitAdds(q, p);
    assert b * (2 * p) == b * p + b * p;
    assert (q + p) * b == q * b + b * p;
    if b == 0 { assert b * p == 0; }
  }

  /** The registers after one step. */
  lemma Shifted(d: Regs, a: nat, b: nat, left: nat)
    requires Dividing(d, a, b, left) && left > 0
    ensures var n := Subtract(d);
            && n.mask == (if left == 1 then 0 else Pow2(left - 2))
            && (left > 1 ==> n.divisor == b * Pow2(left - 2))
            && d.mask == Pow2(left - 1) > 0 && Pow2(left) == 2 * Pow2(left - 1)
  {
    hide Balanced;
    Pow2Positive(left - 1);
    if left > 1 {
      Doubles(left - 1);
      assert b * (2 * Pow2(left - 2)) == 2 * (b * Pow2(left - 2));
    }
  }

  /** One step produces one more quotient bit. */
  lemma SubtractStep(d: Regs, a: nat, b: nat, left: nat)
    requires Dividing(d, a, b, left) && left > 0
    ensures Dividing(Subtract(d), a, b, left - 1)
  {
    hide Pow2, SetBit, Balanced;
    Shifted(d, a, b, left);
    BalancedStep(d.dividend, d.quotient, a, b, Pow2(left - 1));
    WithinWord(d.dividend, d.quotient, a, b, Pow2(left - 1));
  }

  /** The quotient stays a word. */
  lemma WithinWord(x: nat, q: Word32, a: int, b: nat, p: nat)
    requires p > 0 && Balanced(x, q, a, b, 2 * p)
    ensures q + p < 0x1_0000_0000
  {
  }

  lemma Doubles(n: nat)
    requires n > 0
    ensures Pow2(n) == 2 * Pow2(n - 1)
  {
  }

  /** The operands whose magnitudes are divided. */
  function MagnitudeA(r: Request): Word32 {
    if (r.op == Div || r.op == Rem) && Negative(r.a) then Negate(r.a) else r.a
  }

  function MagnitudeB(r: Request): Word32 {
    if (r.op == Div || r.op == Rem) && Negative(r.b) then Negate(r.b) else r.b
  }

  predicate Signs(d: Regs, r: Request) {
    && d.isDiv == (r.op == Div || r.op == Divu)
    && d.invert == ((r.op == Div && Negative(r.a) != Negative(r.b) && r.b != 0) || (r.op == Rem && Negative(r.a)))
  }

  lemma LoadDivides(d: Regs, r: Request)
    ensures var n := Load(d, r); Dividing(n, MagnitudeA(r), MagnitudeB(r), 32) && Signs(n, r)
  {
    Pow2At();
    if MagnitudeB(r) != 0 {
      assert MagnitudeB(r) * 0x1_0000_0000 >= 0x1_0000_0000;
    }
  }

  /** Division with remainder is unique. */
  lemma DivisionIs(a: nat, b: nat, q: int, x: nat)
    requires b > 0 && a == q * b + x && x < b
    ensures q == a / b && x == a % b
  {
    assert a == (a / b) * b + a % b;
    var d: int := q - a / b;
    assert b * d == a % b - x;
    Monotone(b, 1, d);
    Monotone(b, d, -1);
  }

  /** After the last step quotient, remainder and signs make the instruction's result. */
  lemma FinishedIsIsa(d: Regs, r: Request)
    requires Dividing(d, MagnitudeA(r), MagnitudeB(r), 0) && Signs(d, r)
    ensures Result(d) == Isa(r)
  {
    Pow2At();
    var a, b := MagnitudeA(r), MagnitudeB(r);
    if b != 0 {
      assert b * Pow2(0) == b;
      DivisionIs(a, b, d.quotient, d.dividend);
      if r.op == Div || r.op == Rem { SignedResult(r, d.quotient, d.dividend); }
    }
  }

  /** Division of magnitudes with the signs put back is division rounded towards zero. */
  lemma SignedResult(r: Request, q: nat, x: nat)
    requires (r.op == Div || r.op == Rem) && r.b != 0
    requires q == MagnitudeA(r) / MagnitudeB(r) && x == MagnitudeA(r) % MagnitudeB(r)
    requires q < TWO32
    ensures Isa(r.(op := Div)) == if Negative(r.a) != Negative(r.b) then Negate(q) else q
    ensures Isa(r.(op := Rem)) == if Negative(r.a) then Negate(x) else x
  {
    var a, b := Signed(r.a), Signed(r.b);
    assert Abs(a) == MagnitudeA(r) && Abs(b) == MagnitudeB(r);
    DivisionWithin(Abs(a), Abs(b));
    RemainderSign(a, b, q, x);
    WordOf(q);
    WordOf(x);
    if a == -TWO31 && b == -1 { assert Abs(a) / 1 == TWO31; }
  }

  lemma DivisionWithin(a: int, b: int)
    requires a >= 0 && b > 0
    ensures a == (a / b) * b + a % b
  {
  }

  lemma RemainderSign(a: int, b: int, q: int, x: int)
    requires b != 0 && q == Abs(a) / Abs(b) && x >= 0 && Abs(a) == q * Abs(b) + x
    ensures a - Quotient(a, b) * b == if a < 0 then -x else x
  {
    assert (-q) * b == -(q * b) && q * (-b) == -(q * b);
  }

  lemma WordOf(x: int)
    requires 0 <= x < TWO32
    ensures Word(x) == x && Word(-x) == Negate(x)
  {
  }

  // ---------------------------------------------------------------------------- Sessions

  /** Steps left while the mask moves down. */
  function Left(mask: nat): nat { if mask == 0 then 0 else 1 + Left(mask / 2) }

  lemma {:induction false} LeftOfPow2(n: nat)
    ensures Left(Pow2(n)) == n + 1
  {
    if n > 0 { LeftOfPow2(n - 1); }
  }

  /** Every reachable state: an idle divider holds the result of its last operation, and a busy one
      is on its way to it. */
  ghost predicate Inv(d: Regs) {
    if d.last.None? then !d.busy && d.mask == 0
    else
      var r := d.last.value;
      && Signs(d, r)
      && (!d.busy ==> d.mask == 0)
      && Dividing(d, MagnitudeA(r), MagnitudeB(r), Left(d.mask))
  }

  /** A request may come when no division is under way, or on the clock that completes one. */
  predicate Allowed(d: Regs, i: In) { i.Some? ==> !d.busy || Complete(d) }

  /** Clocks until the division under way completes. */
  function Remaining(d: Regs): nat { if d.busy then Left(d.mask) + 1 else 0 }

  /** The busy flag and the output registers play no part in the division. */
  lemma OutputsAside(d: Regs, n: Regs, r: Request, a: nat, b: nat)
    requires n == d.(busy := n.busy, valid := n.valid, result := n.result)
    ensures Signs(n, r) == Signs(d, r) && Dividing(n, a, b, Left(n.mask)) == Dividing(d, a, b, Left(d.mask))
  {
  }

  /** A request is always taken up; one that comes too early replaces the division under way. */
  lemma StartStep(d: Regs, r: Request)
    requires Inv(d)
    ensures var n := Next(d, Some(r)); Inv(n) && n.busy && n.last == Some(r) && n.valid == Complete(d)
    ensures Remaining(Next(d, Some(r))) == if d.last == Some(r) then Left(d.mask) + 1 else 33
    ensures !d.busy && d.last == Some(r) ==> Remaining(Next(d, Some(r))) == 1
  {
    hide MagnitudeA, MagnitudeB, Signs, Balanced;
    var n, a, b := Next(d, Some(r)), MagnitudeA(r), MagnitudeB(r);
    if d.last == Some(r) {
      OutputsAside(d, n, r, a, b);
    } else {
      LoadDivides(d, r);
      Pow2At();
      LeftOfPow2(31);
      OutputsAside(Load(d, r), n, r, a, b);
    }
    hide Dividing, Load;
  }

  lemma BusyStep(d: Regs)
    requires Inv(d) && d.busy && d.mask > 0
    ensures var n := Next(d, None); Inv(n) && n.busy && n.last == d.last && !n.valid
    ensures Remaining(Next(d, None)) == Remaining(d) - 1
  {
    hide MagnitudeA, MagnitudeB, Signs, Balanced;
    var r := d.last.value;
    SubtractStep(d, MagnitudeA(r), MagnitudeB(r), Left(d.mask));
    SameSigns(d, r);
    OutputsAside(Subtract(d), Next(d, None), r, MagnitudeA(r), MagnitudeB(r));
    assert Subtract(d).mask == d.mask / 2;
    hide Dividing, Subtract, Left;
  }

  lemma SameSigns(d: Regs, r: Request)
    requires Signs(d, r)
    ensures Signs(Subtract(d), r)
  {
  }

  /** The result announced at completion is the instruction set's, whatever starts beside it. */
  lemma CompletedIsIsa(d: Regs, i: In)
    requires Inv(d) && Complete(d)
    ensures d.last.Some? && Next(d, i).valid && Next(d, i).result == Isa(d.last.value)
  {
    hide MagnitudeA, MagnitudeB, Signs, Balanced, Isa, Result, Load;
    FinishedIsIsa(d, d.last.value);
  }

  /** A division completes with the result of the instruction set. */
  lemma CompleteStep(d: Regs)
    requires Inv(d) && Complete(d)
    ensures Remaining(d) == 1
    ensures var n := Next(d, None); Inv(n) && !n.busy && n.last == d.last && n.valid && n.result == Isa(d.last.value)
  {
    hide MagnitudeA, MagnitudeB, Signs, Balanced, Isa, Result;
    FinishedIsIsa(d, d.last.value);
    hide Dividing;
    OutputsAside(d, Next(d, None), d.last.value, MagnitudeA(d.last.value), MagnitudeB(d.last.value));
  }

  lemma IdleStep(d: Regs)
    requires Inv(d) && !d.busy
    ensures var n := Next(d, None); Inv(n) && !n.busy && n.last == d.last && !n.valid
  {
    hide MagnitudeA, MagnitudeB, Signs, Dividing, Result;
    if d.last.Some? {
      OutputsAside(d, Next(d, None), d.last.value, MagnitudeA(d.last.value), MagnitudeB(d.last.value));
    }
  }

  function Run(d: Regs, ins: seq<In>): Regs
    decreases |ins|
  {
    if ins == [] then d else Run(Next(d, ins[0]), ins[1..])
  }

  predicate Legal(d: Regs, ins: seq<In>)
    decreases |ins|
  {
    ins == [] || (Allowed(d, ins[0]) && Legal(Next(d, ins[0]), ins[1..]))
  }

  /** The results that the divider announces over a run. */
  function Answers(d: Regs, ins: seq<In>): seq<Word32>
    decreases |ins|
  {
    if ins == [] then []
    else
      var n := Next(d, ins[0]);
      (if n.valid then [n.result] else []) + Answers(n, ins[1..])
  }

  /** The results that the instruction set gives for the requests of a run. */
  function Expected(ins: seq<In>): seq<Word32>
    decreases |ins|
  {
    if ins == [] then []
    else (if ins[0].Some? then [Isa(ins[0].value)] else []) + Expected(ins[1..])
  }

  /** The result still owed. */
  function Owed(d: Regs): seq<Word32> {
    if d.busy && d.last.Some? then [Isa(d.last.value)] else []
  }

  /** Every request of every session is answered once, in order, with the instruction set's result. */
  lemma {:induction false} SessionIsIsa(d: Regs, ins: seq<In>)
    requires Inv(d) && Legal(d, ins)
    ensures Owed(d) + Expected(ins) == Answers(d, ins) + Owed(Run(d, ins)) && Inv(Run(d, ins))
    decreases |ins|
  {
    hide Inv, Isa, Next, Left;
    if ins != [] {
      var n := Next(d, ins[0]);
      if ins[0].Some? {
        StartStep(d, ins[0].value);
        if Complete(d) { CompletedIsIsa(d, ins[0]); }
      } else if Complete(d) {
        CompleteStep(d);
      } else if d.busy {
        BusyStep(d);
      } else {
        IdleStep(d);
      }
      assert d.busy ==> d.last.Some? by { BusyHasLast(d); }
      SessionIsIsa(n, ins[1..]);
      assert Answers(d, ins) + Owed(Run(d, ins))
          == (if n.valid then [n.result] else []) + (Answers(n, ins[1..]) + Owed(Run(d, ins)));
    }
  }

  lemma BusyHasLast(d: Regs)
    requires Inv(d)
    ensures d.busy ==> d.last.Some?
  {
  }

  /** From reset, the answers are the instruction set's results for the requests, with at most the
      one under way missing. */
  lemma DividerIsIsa(ins: seq<In>)
    requires Legal(RESET, ins)
    ensures Answers(RESET, ins) <= Expected(ins) && |Expected(ins)| <= |Answers(RESET, ins)| + 1
  {
    SessionIsIsa(RESET, ins);
    assert Owed(RESET) + Expected(ins) == Expected(ins);
  }

  /** `n` clocks without a request. */
  function Wait(d: Regs, n: nat): Regs
    decreases n
  {
    if n == 0 then d else Wait(Next(d, None), n - 1)
  }

  /** A busy divider answers on the clock its countdown reaches zero and not before. */
  lemma {:induction false} WaitAnswers(d: Regs, n: nat)
    requires Inv(d) && d.busy && 0 < n <= Remaining(d)
    ensures Wait(d, n).valid <==> n == Remaining(d)
    ensures n == Remaining(d) ==> Wait(d, n).result == Isa(d.last.value)
    decreases n
  {
    hide Inv, Isa, Next;
    if d.mask == 0 {
      CompleteStep(d);
    } else {
      BusyStep(d);
      BusyHasLast(d);
      if n > 1 { WaitAnswers(Next(d, None), n - 1); }
    }
  }

  /** The answer comes 34 clocks after a fresh request, and 2 clocks after a request that repeats
      the last one; the request's own clock is the first of them. */
  lemma Latency(d: Regs, r: Request, n: nat)
    requires Inv(d) && !d.busy
    requires 0 < n <= (if d.last == Some(r) then 2 else 34)
    ensures var w := Wait(Next(d, Some(r)), n - 1);
            && (w.valid <==> n == if d.last == Some(r) then 2 else 34)
            && (w.valid ==> w.result == Isa(r))
  {
    hide Inv, Isa, Next, Left;
    StartStep(d, r);
    if n > 1 { WaitAnswers(Next(d, Some(r)), n - 1); }
  }

  /** The requests of a run that come while a division is still stepping. */
  function Early(d: Regs, ins: seq<In>): nat
    decreases |ins|
  {
    if ins == [] then 0 else (if Allowed(d, ins[0]) then 0 else 1) + Early(Next(d, ins[0]), ins[1..])
  }

  /** Whatever the requests, each early one costs exactly one answer. */
  lemma {:induction false} EarlyRequestsLoseAnswers(d: Regs, ins: seq<In>)
    requires Inv(d)
    ensures |Answers(d, ins)| + |Owed(Run(d, ins))| + Early(d, ins) == |Owed(d)| + |Expected(ins)|
    decreases |ins|
  {
    hide Inv, Isa, Next, Left;
    if ins != [] {
      BusyHasLast(d);
      if ins[0].Some? {
        StartStep(d, ins[0].value);
      } else if Complete(d) {
        CompleteStep(d);
      } else if d.busy {
        BusyStep(d);
      } else {
        IdleStep(d);
      }
      EarlyRequestsLoseAnswers(Next(d, ins[0]), ins[1..]);
    }
  }

  lemma {:induction false} LegalIsNeverEarly(d: Regs, ins: seq<In>)
    ensures Legal(d, ins) <==> Early(d, ins) == 0
    decreases |ins|
  {
    hide Next;
    if ins != [] { LegalIsNeverEarly(Next(d, ins[0]), ins[1..]); }
  }

  /** The condition is exact: the requests of a run are all answered, in order and with the
      instruction set's results, if and only if none comes while a division is still stepping. */
  lemma AnsweredExactlyWhenLegal(ins: seq<In>)
    ensures Answers(RESET, ins) + Owed(Run(RESET, ins)) == Expected(ins) <==> Legal(RESET, ins)
  {
    EarlyRequestsLoseAnswers(RESET, ins);
    LegalIsNeverEarly(RESET, ins);
    if Legal(RESET, ins) {
      SessionIsIsa(RESET, ins);
      assert Owed(RESET) + Expected(ins) == Expected(ins);
    }
  }

  // ---------------------------------------------------------------------------- Machine

  /** biriscv_divider: the registers, updated in place. */
  class DividerBlock {
    var dividend: Word32
    var divisor: nat
    var quotient: Word32
    var mask: nat
    var isDiv: bool
    var busy: bool
    var invert: bool
    var last: Option<Request>
    var valid: bool
    var result: Word32

    function View(): Regs reads this {
      Regs(dividend, divisor, quotient, mask, isDiv, busy, invert, last, valid, result)
    }

    constructor ()
      ensures View() == RESET
    {
      dividend, divisor, quotient, mask, isDiv, busy, invert := 0, 0, 0, 0, false, false, false;
      last, valid, result := None, false, 0;
    }

    method Start(r: Request)
      modifies this
      ensures View() == if old(last) == Some(r) then old(View()).(busy := true) else Load(old(View()), r)
    {
      busy := true;
      if last == Some(r) {
        return;
      }
      last, isDiv := Some(r), r.op == Div || r.op == Divu;
      dividend, divisor := r.a, r.b * 0x8000_0000;
      invert := false;
      if r.op == Div || r.op == Rem {
        if Negative(r.a) { dividend := Negate(r.a); }
        if Negative(r.b) { divisor := Negate(r.b) * 0x8000_0000; }
        invert := if r.op == Div then Negative(r.a) != Negative(r.b) && r.b != 0 else Negative(r.a);
      }
      quotient, mask := 0, TWO31;
    }

    /** One rising clock edge. */
    method Clock(i: In)
      modifies this
      ensures View() == Next(old(View()), i)
    {
      var complete, value := mask == 0 && busy, Result(View());
      if i.Some? {
        Start(i.value);
      } else if complete {
        busy := false;
      } else if busy {
        if divisor <= dividend {
          dividend := dividend - divisor;
          quotient := SetBit(quotient, mask) % 0x1_0000_0000;
        }
        divisor, mask := divisor / 2, mask / 2;
      }
      valid := complete;
      if complete {
        result := value;
      }
    }

    /** Starts a division in an idle divider and clocks it until it answers. */
    method Divide(r: Request) returns (value: Word32, clocks: nat)
      requires Inv(View()) && !busy
      modifies this
      ensures Inv(View()) && !busy && value == Isa(r) && clocks == if old(last) == Some(r) then 2 else 34
    {
      hide Inv, Isa, Next, Left;
      StartStep(View(), r);
      Clock(Some(r));
      clocks := 1;
      ghost var n := Remaining(View());
      while !valid
        invariant Inv(View()) && last == Some(r) && n + 1 == clocks + (if valid then 0 else Remaining(View()))
        invariant if valid then !busy && result == Isa(r) else busy
        decreases n + 1 - clocks
      {
        if mask == 0 { CompleteStep(View()); } else { BusyStep(View()); }
        Clock(None);
        clocks := clocks + 1;
      }
      value := result;
    }
  }
}
