/** Branch decisions and targets of the execution unit. */
module Branches {

  type Word = n: int | 0 <= n < 0x1_0000_0000

  const TWO31 := 0x8000_0000

  datatype Condition = Beq | Bne | Blt | Bge | Bltu | Bgeu

  /** What an instruction word means for the program counter. Offsets are sign-extended immediates. */
  datatype Flow = Straight | Jal(offset: int) | Jalr(offset: int) | Conditional(cond: Condition, offset: int)

  function Wrap(x: int): Word { x % 0x1_0000_0000 }

  function Signed(x: Word): int { if x < TWO31 then x else x - 0x1_0000_0000 }

  // ---------------------------------------------------------------------------- Unit

  /** The comparator: the sign bits if they differ, else the sign of the difference. */
  predicate LessThanSigned(x: Word, y: Word) {
    if (x >= TWO31) != (y >= TWO31) then x >= TWO31 else Wrap(x - y) >= TWO31
  }

  predicate GreaterThanSigned(x: Word, y: Word) {
    if (x >= TWO31) != (y >= TWO31) then y >= TWO31 else Wrap(y - x) >= TWO31
  }

  predicate Taken(f: Flow, a: Word, b: Word) {
    match f
    case Straight => false
    case Jal(_) => true
    case Jalr(_) => true
    case Conditional(c, _) =>
      match c
      case Beq => a == b
      case Bne => a != b
      case Blt => LessThanSigned(a, b)
      case Bge => GreaterThanSigned(a, b) || a == b
      case Bltu => a < b
      case Bgeu => a >= b
  }

  /** The target; jalr clears the lowest bit. */
  function Target(f: Flow, pc: Word, a: Word): Word {
    match f
    case Jal(o) => Wrap(pc + o)
    case Jalr(o) => var t := Wrap(a + o); t - t % 2
    case Conditional(_, o) => Wrap(pc + o)
    case Straight => Wrap(pc + 4)
  }

  // ---------------------------------------------------------------------------- Instruction set

  /** Section 2.5 of the RISC-V Unprivileged ISA 20191213: which branches are taken. */
  predicate MustTake(f: Flow, a: Word, b: Word) {
    match f
    case Straight => false
    case Jal(_) => true
    case Jalr(_) => true
    case Conditional(c, _) =>
      match c
      case Beq => a == b
      case Bne => a != b
      case Blt => Signed(a) < Signed(b)
      case Bge => Signed(a) >= Signed(b)
      case Bltu => a < b
      case Bgeu => a >= b
  }

  predicate Congruent(x: int, y: int) { (x - y) % 0x1_0000_0000 == 0 }

  /** Section 2.5: where an instruction that is taken goes. Jal and conditional branches add the offset
      to their own address, jalr to its register with the lowest bit then cleared. */
  function MustGoTo(f: Flow, pc: Word, a: Word): (t: Word)
    ensures f.Jal? || f.Conditional? ==> Congruent(t, pc + f.offset)
    ensures f.Jalr? ==> t % 2 == 0 && (Congruent(t, a + f.offset) || Congruent(t, a + f.offset - 1))
    ensures f.Straight? ==> Congruent(t, pc + 4)
  {
    match f
    case Straight => Reduced(pc + 4)
    case Jal(o) => Reduced(pc + o)
    case Conditional(_, o) => Reduced(pc + o)
    case Jalr(o) => Evened(Reduced(a + o), a + o)
  }

  /** A word with its lowest bit cleared. */
  function Evened(t: Word, x: int): (e: Word)
    requires Congruent(t, x)
    ensures e % 2 == 0 && (Congruent(e, x) || Congruent(e, x - 1))
  {
    assert t - 1 - (x - 1) == t - x;
    2 * (t / 2)
  }

  /** The one word that is congruent to a number. */
  function Reduced(x: int): (t: Word)
    ensures Congruent(t, x)
  {
    var q := x / 0x1_0000_0000;
    assert x - q * 0x1_0000_0000 - x == (-q) * 0x1_0000_0000;
    MultipleOf(-q);
    x - q * 0x1_0000_0000
  }

  lemma MultipleOf(k: int)
    ensures (k * 0x1_0000_0000) % 0x1_0000_0000 == 0
  {
  }

  /** A word is determined by what it is congruent to. */
  lemma CongruentWords(x: Word, y: Word, z: int)
    requires Congruent(x, z) && Congruent(y, z)
    ensures x == y
  {
    var k, l := (x - z) / 0x1_0000_0000, (y - z) / 0x1_0000_0000;
    assert x - y == 0x1_0000_0000 * (k - l);
  }

  lemma WrapCongruent(x: int)
    ensures Congruent(Wrap(x), x)
  {
    var q := x / 0x1_0000_0000;
    assert Wrap(x) - x == (-q) * 0x1_0000_0000;
    MultipleOf(-q);
  }

  /** The unit's targets are those of the instruction set. */
  lemma TargetIsMustGoTo(f: Flow, pc: Word, a: Word)
    ensures Target(f, pc, a) == MustGoTo(f, pc, a)
  {
    hide Wrap, Reduced, Congruent;
    match f {
      case Straight => WrapCongruent(pc + 4); CongruentWords(Wrap(pc + 4), Reduced(pc + 4), pc + 4);
      case Jal(o) => WrapCongruent(pc + o); CongruentWords(Wrap(pc + o), Reduced(pc + o), pc + o);
      case Conditional(_, o) => WrapCongruent(pc + o); CongruentWords(Wrap(pc + o), Reduced(pc + o), pc + o);
      case Jalr(o) => WrapCongruent(a + o); CongruentWords(Wrap(a + o), Reduced(a + o), a + o);
    }
  }

  /** The comparators decide every branch as the instruction set does. */
  lemma TakenIsMustTake(f: Flow, a: Word, b: Word)
    ensures Taken(f, a, b) == MustTake(f, a, b)
  {
    if (a >= TWO31) == (b >= TWO31) {
      assert Wrap(a - b) == if a >= b then a - b else a - b + 0x1_0000_0000;
      assert Wrap(b - a) == if b >= a then b - a else b - a + 0x1_0000_0000;
    }
  }

  lemma UnitTargetAligned(f: Flow, pc: Word, a: Word)
    requires pc % 4 == 0 && (f.Jal? || f.Conditional? ==> f.offset % 4 == 0) && (f.Jalr? ==> (a + f.offset) % 4 == 0)
    ensures Target(f, pc, a) % 4 == 0
  {
    hide Wrap;
    match f
    case Straight => WrapAligned(pc + 4);
    case Jal(o) => WrapAligned(pc + o);
    case Jalr(o) =>
      WrapAligned(a + o);
      Even(Wrap(a + o));
    case Conditional(_, o) => WrapAligned(pc + o);
  }

  /** Targets are even, and four-byte aligned when the offset is and, for jalr, the base too. */
  lemma TargetAligned(f: Flow, pc: Word, a: Word)
    requires pc % 4 == 0 && (f.Jal? || f.Conditional? ==> f.offset % 4 == 0) && (f.Jalr? ==> (a + f.offset) % 4 == 0)
    ensures Target(f, pc, a) % 4 == 0 && MustGoTo(f, pc, a) % 4 == 0
  {
    UnitTargetAligned(f, pc, a);
    hide Target, MustGoTo;
    TargetIsMustGoTo(f, pc, a);
  }

  lemma Even(t: int)
    requires t % 4 == 0
    ensures t % 2 == 0
  {
    var k := t / 4;
    assert t == 2 * (2 * k);
  }

  lemma WrapAligned(x: int)
    requires x % 4 == 0
    ensures Wrap(x) % 4 == 0
  {
    var q := x / 0x1_0000_0000;
    assert x == 0x1_0000_0000 * q + Wrap(x);
    assert Wrap(x) == x - 4 * (0x4000_0000 * q);
  }
}
