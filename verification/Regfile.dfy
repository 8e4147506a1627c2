/** The integer register file: the flop version, the two-bank version that remembers the latest
    writer, and why they cannot be told apart. */
module Regfile {

  type Value = bv32
  type Regs = s: seq<Value> | |s| == 32 witness seq(32, _ => 0)
  type RegIndex = n: nat | n < 32

  /** One clock of write ports; register 0 is not written. */
  datatype Ports = Ports(rd0: RegIndex, value0: Value, rd1: RegIndex, value1: Value)

  /** Register 0 reads as zero. */
  function Read(regs: Regs, r: RegIndex): Value {
    if r == 0 then 0 else regs[r]
  }

  // ---------------------------------------------------------------------------- Flops

  /** Port 0 wins when both ports write one register. */
  function FlopNext(regs: Regs, p: Ports): Regs {
    seq(32, k requires 0 <= k < 32 =>
      if k == 0 then regs[0] else if p.rd0 == k then p.value0 else if p.rd1 == k then p.value1 else regs[k])
  }

  /** The flop register file, written in place. */
  class Flops {
    const reg: array<Value>

    ghost predicate Valid() { reg.Length == 32 }

    function View(): Regs
      requires Valid()
      reads reg
    {
      reg[..]
    }

    constructor ()
      ensures Valid() && fresh(reg) && View() == seq(32, _ => 0 as Value)
    {
      reg := new Value[32](_ => 0);
    }

    method Clock(p: Ports)
      requires Valid()
      modifies reg
      ensures View() == FlopNext(old(View()), p)
    {
      for k := 1 to 32
        invariant reg[0] == old(reg[0])
        invariant forall j :: 1 <= j < k ==> reg[j] == FlopNext(old(View()), p)[j]
        invariant forall j :: k <= j < 32 ==> reg[j] == old(reg[j])
      {
        if p.rd0 == k {
          reg[k] := p.value0;
        } else if p.rd1 == k {
          reg[k] := p.value1;
        }
      }
    }
  }

  /** When the ports write different registers a clock is two single writes. */
  lemma FlopIsTwoWrites(regs: Regs, p: Ports)
    requires p.rd0 == p.rd1 ==> p.rd0 == 0
    ensures FlopNext(regs, p) == BankNext(BankNext(regs, p.rd0, p.value0), p.rd1, p.value1)
  {
    var n, w := FlopNext(regs, p), BankNext(BankNext(regs, p.rd0, p.value0), p.rd1, p.value1);
    forall k: RegIndex ensures n[k] == w[k] {
    }
  }

  // ---------------------------------------------------------------------------- Two banks

  /** One bank a port, and for each register a bit naming the bank written last. The hardware
      keeps a copy of the banks for each pair of read ports; the copies hold the same words. */
  datatype Banks = Banks(bank0: Regs, bank1: Regs, source: seq<bool>)

  predicate Sized(b: Banks) { |b.source| == 32 && !b.source[0] }

  function BankNext(bank: Regs, rd: RegIndex, value: Value): Regs {
    if rd == 0 then bank else bank[rd := value]
  }

  function BanksNext(b: Banks, p: Ports): (n: Banks)
    requires Sized(b)
    ensures Sized(n)
  {
    Banks(BankNext(b.bank0, p.rd0, p.value0), BankNext(b.bank1, p.rd1, p.value1),
          b.source[p.rd0 := false][p.rd1 := true][0 := false])
  }

  function BanksRead(b: Banks, r: RegIndex): Value
    requires Sized(b)
  {
    if b.source[r] then Read(b.bank1, r) else Read(b.bank0, r)
  }

  // ---------------------------------------------------------------------------- Equivalence

  /** No clock writes one register through both ports. */
  predicate Apart(p: Ports) {
    p.rd0 == p.rd1 ==> p.rd0 == 0
  }

  function FlopRun(regs: Regs, ps: seq<Ports>): Regs
    decreases |ps|
  {
    if ps == [] then regs else FlopRun(FlopNext(regs, ps[0]), ps[1..])
  }

  function BanksRun(b: Banks, ps: seq<Ports>): (r: Banks)
    requires Sized(b)
    ensures Sized(r)
    decreases |ps|
  {
    if ps == [] then b else BanksRun(BanksNext(b, ps[0]), ps[1..])
  }

  ghost predicate SameReads(regs: Regs, b: Banks)
    requires Sized(b)
  {
    forall r: RegIndex :: BanksRead(b, r) == Read(regs, r)
  }

  /** What both versions read after a clock. */
  lemma ReadAfter(regs: Regs, b: Banks, p: Ports, r: RegIndex)
    requires Sized(b) && BanksRead(b, r) == Read(regs, r)
    ensures Read(FlopNext(regs, p), r) ==
            if r == 0 then 0 else if p.rd0 == r then p.value0 else if p.rd1 == r then p.value1 else Read(regs, r)
    ensures BanksRead(BanksNext(b, p), r) ==
            if r == 0 then 0 else if p.rd1 == r then p.value1 else if p.rd0 == r then p.value0 else Read(regs, r)
  {
    var n := BanksNext(b, p);
    assert n.source[r] == (r != 0 && (p.rd1 == r || (p.rd0 != r && b.source[r])));
    assert r != 0 ==> n.bank0[r] == (if p.rd0 == r then p.value0 else b.bank0[r]);
    assert r != 0 ==> n.bank1[r] == (if p.rd1 == r then p.value1 else b.bank1[r]);
  }

  /** A clock whose ports write different registers keeps the two versions equal on every read. */
  lemma SameReadsStep(regs: Regs, b: Banks, p: Ports)
    requires Sized(b) && SameReads(regs, b) && Apart(p)
    ensures SameReads(FlopNext(regs, p), BanksNext(b, p))
  {
    forall r: RegIndex
      ensures BanksRead(BanksNext(b, p), r) == Read(FlopNext(regs, p), r)
    {
      hide FlopNext, BanksNext, Read, BanksRead;
      ReadAfter(regs, b, p, r);
    }
  }

  /** Over any run of such clocks the two register files answer every read alike. */
  lemma {:induction false} BanksAreFlops(regs: Regs, b: Banks, ps: seq<Ports>)
    requires Sized(b) && SameReads(regs, b) && forall p <- ps :: Apart(p)
    ensures SameReads(FlopRun(regs, ps), BanksRun(b, ps))
    decreases |ps|
  {
    if ps != [] {
      SameReadsStep(regs, b, ps[0]);
      BanksAreFlops(FlopNext(regs, ps[0]), BanksNext(b, ps[0]), ps[1..]);
    }
  }

  /** The versions part exactly when one register is written through both ports with different
      values: the flops keep port 0's value, the banks port 1's. */
  lemma ReadsPartOnlyOnConflict(regs: Regs, b: Banks, p: Ports)
    requires Sized(b) && SameReads(regs, b)
    ensures SameReads(FlopNext(regs, p), BanksNext(b, p)) <==> Apart(p) || p.value0 == p.value1
  {
    hide FlopNext, BanksNext, Read, BanksRead;
    var f, n := FlopNext(regs, p), BanksNext(b, p);
    if Apart(p) || p.value0 == p.value1 {
      forall r: RegIndex ensures BanksRead(n, r) == Read(f, r) {
        ReadAfter(regs, b, p, r);
      }
    } else {
      ReadAfter(regs, b, p, p.rd0);
      assert BanksRead(n, p.rd0) != Read(f, p.rd0);
    }
  }
}
