/** The interrupt-pending register: software reads it, computes, and writes it back some clocks
    later, and nothing that the timer raises in between may be lost. */
module InterruptPending {

  /** The six bits of mip; sip shows the three supervisor ones. */
  datatype Bits = Bits(msip: bool, ssip: bool, mtip: bool, stip: bool, meip: bool, seip: bool)

  const CLEAR := Bits(false, false, false, false, false, false)

  function Or(x: Bits, y: Bits): Bits {
    Bits(x.msip || y.msip, x.ssip || y.ssip, x.mtip || y.mtip, x.stip || y.stip, x.meip || y.meip, x.seip || y.seip)
  }

  const TWO32 := 0x1_0000_0000

  type Word = n: nat | n < 0x1_0000_0000

  // ---------------------------------------------------------------------------- Registers

  /** The pending bits, the bits buffered while a read-modify-write is under way and the flag that
      says so, the cycle counter, the timer compare value and its enable, and the two delegation bits. */
  datatype Regs = Regs(
    mip: Bits, buffer: Bits, window: bool,
    cycle: Word, compare: Word, compareOn: bool,
    delegExt: bool, delegTimer: bool)

  /** A CSR write of this block; the others do not touch it. */
  datatype Write = Nothing | Mip(bits: Bits) | Sip(bits: Bits) | TimeCompare(value: Word) | Delegate(ext: bool, timer: bool)

  /** One clock of inputs. `read` is an instruction that names mip or sip; `exception` is any
      exception or interrupt that reaches write-back, which suppresses a write. */
  datatype In = In(read: bool, write: Write, exception: bool, ext: bool, timer: bool)

  // ---------------------------------------------------------------------------- Clock

  predicate Buffering(s: Regs, i: In) { i.read || s.window }

  predicate AtCompare(s: Regs) { s.cycle == s.compare }

  /** The bits set from outside in this clock, on top of those buffered. The compare overwrites the
      timer bit with its own enable. */
  function Incoming(s: Regs, i: In): Bits {
    var b := s.buffer;
    b.(seip := b.seip || (i.ext && s.delegExt), meip := b.meip || (i.ext && !s.delegExt),
       stip := if AtCompare(s) && s.delegTimer then s.compareOn else b.stip || (i.timer && s.delegTimer),
       mtip := if AtCompare(s) && !s.delegTimer then s.compareOn else b.mtip || (i.timer && !s.delegTimer))
  }

  /** The value software leaves, before the outside bits are put in; the external bits are a level
      and are never kept. */
  function Kept(s: Regs, i: In): Bits {
    var b := if i.exception then s.mip
             else match i.write
               case Mip(v) => v
               case Sip(v) => s.mip.(ssip := v.ssip, stip := v.stip, seip := v.seip)
               case _ => s.mip;
    b.(meip := false, seip := false)
  }

  predicate WritesPending(i: In) { i.write.Mip? || i.write.Sip? }

  /** One rising clock edge. */
  function Next(s: Regs, i: In): Regs {
    var sets := !i.exception && i.write.TimeCompare?;
    Regs(
      Or(Kept(s, i), Incoming(s, i)),
      if Buffering(s, i) then Incoming(s, i) else CLEAR,
      if i.read then true else if WritesPending(i) || i.exception then false else s.window,
      (s.cycle + 1) % 0x1_0000_0000,
      if sets then i.write.value else s.compare,
      if AtCompare(s) then false else if sets then true else s.compareOn,
      if !i.exception && i.write.Delegate? then i.write.ext else s.delegExt,
      if !i.exception && i.write.Delegate? then i.write.timer else s.delegTimer)
  }

  // ---------------------------------------------------------------------------- Windows

  /** The timer bit of a privilege: supervisor if `side`, else machine. */
  predicate TimerBit(b: Bits, side: bool) { if side then b.stip else b.mtip }

  /** The timer raises the bit in one clock. */
  predicate Raised(s: Regs, i: In, side: bool) {
    s.delegTimer == side && (i.timer || (AtCompare(s) && s.compareOn))
  }

  /** The counter meets the compare value with the enable off: the bit is cleared, whoever set it. */
  predicate IdleCompare(s: Regs, side: bool) { s.delegTimer == side && AtCompare(s) && !s.compareOn }

  /** A clock inside a read-modify-write: nothing else writes mip or sip, and no exception comes. */
  predicate Inside(i: In) { !WritesPending(i) && !i.exception }

  /** The clocks of a read-modify-write up to the write. */
  predicate IsWindow(ins: seq<In>) {
    && |ins| >= 1 && ins[0].read
    && forall k :: 0 <= k < |ins| ==> Inside(ins[k])
  }

  /** A whole read-modify-write, the clock of the write included. */
  predicate IsUpdate(ins: seq<In>, last: In) {
    IsWindow(ins) && WritesPending(last) && !last.exception
  }

  function Run(s: Regs, ins: seq<In>): Regs
    decreases |ins|
  {
    if ins == [] then s else Run(Next(s, ins[0]), ins[1..])
  }

  /** The timer raises the bit in some clock of the run. */
  predicate Ever(s: Regs, ins: seq<In>, side: bool)
    decreases |ins|
  {
    ins != [] && (Raised(s, ins[0], side) || Ever(Next(s, ins[0]), ins[1..], side))
  }

  predicate NoIdleCompare(s: Regs, ins: seq<In>, side: bool)
    decreases |ins|
  {
    ins == [] || (!IdleCompare(s, side) && NoIdleCompare(Next(s, ins[0]), ins[1..], side))
  }

  /** Some clock raises the bit, and neither it nor a later one is an idle compare. */
  predicate Survives(s: Regs, ins: seq<In>, side: bool)
    decreases |ins|
  {
    ins != [] &&
    ((Raised(s, ins[0], side) && NoIdleCompare(s, ins, side)) || Survives(Next(s, ins[0]), ins[1..], side))
  }

  lemma BufferClock(s: Regs, i: In, side: bool)
    requires Buffering(s, i) && Inside(i)
    ensures var n := Next(s, i);
            n.window && (TimerBit(n.buffer, side) <==> !IdleCompare(s, side) && (Raised(s, i, side) || TimerBit(s.buffer, side)))
  {
  }

  /** What the buffer holds inside a window. */
  lemma {:induction false} WindowBuffers(s: Regs, ins: seq<In>, side: bool)
    requires ins != [] && (s.window || ins[0].read) && forall k :: 0 <= k < |ins| ==> Inside(ins[k])
    ensures Run(s, ins).window
    ensures TimerBit(Run(s, ins).buffer, side) <==>
            Survives(s, ins, side) || (TimerBit(s.buffer, side) && NoIdleCompare(s, ins, side))
    decreases |ins|
  {
    var n := Next(s, ins[0]);
    assert Inside(ins[0]);
    BufferClock(s, ins[0], side);
    hide Next, Raised, IdleCompare, TimerBit;
    if |ins| == 1 {
      assert ins[1..] == [] && Run(n, []) == n && !Survives(n, [], side) && NoIdleCompare(n, [], side);
    } else {
      WindowBuffers(n, ins[1..], side);
    }
  }

  /** Exactly what is pending after software's read-modify-write: the bit if software leaves it set,
      if it was raised within and no idle compare came at or after that, or if it was already
      buffered and no idle compare came at all. */
  lemma PendingExactly(s: Regs, ins: seq<In>, last: In, side: bool)
    requires IsUpdate(ins, last)
    ensures TimerBit(Next(Run(s, ins), last).mip, side) <==>
            || TimerBit(Kept(Run(s, ins), last), side)
            || Survives(s, ins + [last], side)
            || (TimerBit(s.buffer, side) && NoIdleCompare(s, ins + [last], side))
  {
    WindowBuffers(s, ins, side);
    LastClock(s, ins, last, side);
    hide Kept;
  }

  /** The runs of a window and its last clock taken apart. */
  lemma {:induction false} LastClock(s: Regs, ins: seq<In>, last: In, side: bool)
    ensures var w := Run(s, ins);
            && (NoIdleCompare(s, ins + [last], side) <==> NoIdleCompare(s, ins, side) && !IdleCompare(w, side))
            && (Survives(s, ins + [last], side) <==> (Survives(s, ins, side) || Raised(w, last, side)) && !IdleCompare(w, side))
    decreases |ins|
  {
    hide Next;
    if ins == [] {
      assert ins + [last] == [last] && [last][1..] == [];
    } else {
      assert (ins + [last])[1..] == ins[1..] + [last] && (ins + [last])[0] == ins[0];
      LastClock(Next(s, ins[0]), ins[1..], last, side);
    }
  }

  lemma {:induction false} RaisedSurvives(s: Regs, ins: seq<In>, side: bool)
    requires Ever(s, ins, side) && NoIdleCompare(s, ins, side)
    ensures Survives(s, ins, side)
    decreases |ins|
  {
    hide Next;
    if !Raised(s, ins[0], side) { RaisedSurvives(Next(s, ins[0]), ins[1..], side); }
  }

  /** No lost interrupt: every timer bit raised from the clock that reads mip or sip to the clock
      that writes it back is pending after the write, whatever value is written, if no clock of the
      window meets the compare value with the enable off. */
  lemma RaisedStaysPending(s: Regs, ins: seq<In>, last: In, side: bool)
    requires IsUpdate(ins, last) && NoIdleCompare(s, ins + [last], side)
    ensures Ever(s, ins + [last], side) ==> TimerBit(Next(Run(s, ins), last).mip, side)
  {
    PendingExactly(s, ins, last, side);
    if Ever(s, ins + [last], side) { RaisedSurvives(s, ins + [last], side); }
  }

  // ---------------------------------------------------------------------------- Short windows

  /** No clock writes the compare value. */
  predicate NoTimeWrite(ins: seq<In>) {
    forall k :: 0 <= k < |ins| ==> !ins[k].write.TimeCompare?
  }

  predicate NoTimerLine(ins: seq<In>) {
    forall k :: 0 <= k < |ins| ==> !ins[k].timer
  }

  /** Clocks until the counter next meets the compare value, from the one after now. */
  function Distance(s: Regs): nat {
    (s.compare + 0x1_0000_0000 - s.cycle - 1) % 0x1_0000_0000
  }

  lemma DistanceStep(s: Regs, i: In)
    requires !i.write.TimeCompare? || i.exception
    ensures var n := Next(s, i);
            && (AtCompare(s) ==> Distance(s) == TWO32 - 1 && !n.compareOn)
            && (!AtCompare(s) ==> n.compareOn == s.compareOn)
            && (Distance(s) > 0 ==> Distance(n) == Distance(s) - 1 && !AtCompare(n))
            && n.compare == s.compare
  {
  }

  /** After the compare the counter does not meet the value again within 2^32 clocks. */
  lemma {:induction false} NotAgain(s: Regs, ins: seq<In>, side: bool)
    requires !AtCompare(s) && NoTimeWrite(ins) && |ins| <= Distance(s) + 1
    ensures NoIdleCompare(s, ins, side)
    decreases |ins|
  {
    if ins != [] {
      DistanceStep(s, ins[0]);
      if |ins| > 1 { NotAgain(Next(s, ins[0]), ins[1..], side); }
    }
  }

  /** With only the compare as a timer source, the first meeting is either enabled or finds nothing
      to lose: from a window in which nothing is raised before it, nothing is lost at all. */
  lemma {:induction false} ShortWindow(s: Regs, ins: seq<In>, side: bool)
    requires NoTimeWrite(ins) && NoTimerLine(ins) && |ins| <= TWO32
    ensures NoIdleCompare(s, ins, side) || !Ever(s, ins, side)
    decreases |ins|
  {
    if ins != [] {
      DistanceStep(s, ins[0]);
      var n, rest := Next(s, ins[0]), ins[1..];
      assert !ins[0].timer;
      if AtCompare(s) {
        if s.compareOn {
          NotAgain(n, rest, side);
        } else {
          NeverRaised(n, rest, side);
        }
      } else {
        ShortWindow(n, rest, side);
      }
    }
  }

  lemma {:induction false} NeverRaised(s: Regs, ins: seq<In>, side: bool)
    requires !s.compareOn && NoTimeWrite(ins) && NoTimerLine(ins)
    ensures !Ever(s, ins, side)
    decreases |ins|
  {
    if ins != [] {
      DistanceStep(s, ins[0]);
      assert !ins[0].timer;
      NeverRaised(Next(s, ins[0]), ins[1..], side);
    }
  }

  /** No lost timer interrupt: in a window of fewer than 2^32 clocks, without a write of the compare
      value and with no timer line beside it, every raised timer bit is pending after the write. */
  lemma TimerIsNotLost(s: Regs, ins: seq<In>, last: In, side: bool)
    requires IsUpdate(ins, last) && |ins| < TWO32
    requires NoTimeWrite(ins) && NoTimerLine(ins + [last])
    ensures Ever(s, ins + [last], side) ==> TimerBit(Next(Run(s, ins), last).mip, side)
  {
    ShortWindow(s, ins + [last], side);
    if NoIdleCompare(s, ins + [last], side) { RaisedStaysPending(s, ins, last, side); }
  }

  /** With the timer line in use even a window of one clock can lose a bit: the line raises it as the
      window opens, the compare with the enable off meets its value at the write, and a write of zero
      leaves nothing pending. */
  lemma IdleCompareLoses(s: Regs)
    requires !s.delegTimer && s.buffer == CLEAR && s.cycle < s.compare && s.cycle + 1 == s.compare && !s.compareOn
    ensures var first, last := In(true, Nothing, false, false, true), In(false, Mip(CLEAR), false, false, false);
            && IsUpdate([first], last) && NoTimeWrite([first]) && Ever(s, [first, last], false)
            && !TimerBit(Next(Run(s, [first]), last).mip, false)
  {
    var first, last := In(true, Nothing, false, false, true), In(false, Mip(CLEAR), false, false, false);
    PendingExactly(s, [first], last, false);
    assert [first] + [last] == [first, last] && [first, last][1..] == [last] && [last][1..] == [];
    assert Run(Next(s, first), []) == Next(s, first) && [first][1..] == [];
  }

  // ---------------------------------------------------------------------------- Outside windows

  /** A timer bit is pending from the clock after it is raised, inside a window or outside; only an idle
      compare in the same clock hides the timer line. */
  lemma RaisedIsPending(s: Regs, i: In, side: bool)
    requires Raised(s, i, side) && !IdleCompare(s, side)
    ensures TimerBit(Next(s, i).mip, side)
  {
  }

  /** Software does not touch the timer bits: no write of mip, or of sip, reaches the register. */
  predicate Untouched(ins: seq<In>) {
    forall i <- ins :: WritesPending(i) ==> i.exception
  }

  /** A pending timer bit stays pending until software writes mip or sip. */
  lemma {:induction false} PendingUntilWritten(s: Regs, ins: seq<In>, side: bool)
    requires TimerBit(s.mip, side) && Untouched(ins)
    ensures TimerBit(Run(s, ins).mip, side)
    decreases |ins|
  {
    if ins != [] {
      assert WritesPending(ins[0]) ==> ins[0].exception;
      StaysPending(s, ins[0], side);
      hide Next;
      PendingUntilWritten(Next(s, ins[0]), ins[1..], side);
    }
  }

  lemma StaysPending(s: Regs, i: In, side: bool)
    requires TimerBit(s.mip, side) && (WritesPending(i) ==> i.exception)
    ensures TimerBit(Next(s, i).mip, side)
  {
  }

  /** No timer bit appears by itself: one that is pending was raised, was buffered in a window, was
      pending before, or was written by software. */
  lemma PendingHasCause(s: Regs, i: In, side: bool)
    requires TimerBit(Next(s, i).mip, side)
    ensures || Raised(s, i, side) || TimerBit(s.buffer, side) || TimerBit(s.mip, side)
            || (!i.exception && ((i.write.Mip? && TimerBit(i.write.bits, side)) || (i.write.Sip? && side && i.write.bits.stip)))
  {
  }

  /** What software clears stays clear: with nothing buffered and no write, a bit that is not pending
      stays so for as long as the timer does not raise it. */
  lemma {:induction false} ClearUntilRaised(s: Regs, ins: seq<In>, side: bool)
    requires !TimerBit(s.mip, side) && !TimerBit(s.buffer, side) && Untouched(ins) && !Ever(s, ins, side)
    ensures !TimerBit(Run(s, ins).mip, side)
    decreases |ins|
  {
    if ins != [] {
      assert WritesPending(ins[0]) ==> ins[0].exception;
      StaysClear(s, ins[0], side);
      hide Next;
      ClearUntilRaised(Next(s, ins[0]), ins[1..], side);
    }
  }

  lemma StaysClear(s: Regs, i: In, side: bool)
    requires !TimerBit(s.mip, side) && !TimerBit(s.buffer, side) && (WritesPending(i) ==> i.exception) && !Raised(s, i, side)
    ensures !TimerBit(Next(s, i).mip, side) && !TimerBit(Next(s, i).buffer, side)
  {
  }

  /** A write of mip or sip, or an exception, closes the window, and a clock later the buffer is empty. */
  lemma WindowCloses(s: Regs, i: In, j: In)
    requires (WritesPending(i) || i.exception) && !i.read && !j.read
    ensures !Next(s, i).window && !Next(Next(s, i), j).window && Next(Next(s, i), j).buffer == CLEAR
  {
  }

  // ---------------------------------------------------------------------------- Setting the timer

  lemma {:induction false} CountsTo(s: Regs, ins: seq<In>)
    requires NoTimeWrite(ins) && |ins| == (s.compare + 0x1_0000_0000 - s.cycle) % 0x1_0000_0000
    ensures var w := Run(s, ins); AtCompare(w) && w.compareOn == s.compareOn && w.compare == s.compare
    decreases |ins|
  {
    if ins != [] {
      DistanceStep(s, ins[0]);
      CountsTo(Next(s, ins[0]), ins[1..]);
    }
  }

  /** A compare value that software sets raises the timer bit when the counter reaches it, if and only if
      the counter was not at the value before it in the clock of the write. */
  lemma CompareFires(s: Regs, i: In, v: Word, ins: seq<In>, j: In)
    requires i.write == TimeCompare(v) && !i.exception && NoTimeWrite(ins) && !j.timer
    requires |ins| == (v + 0x1_0000_0000 - Next(s, i).cycle) % 0x1_0000_0000
    ensures var w := Run(Next(s, i), ins);
            w.cycle == v && (Raised(w, j, w.delegTimer) <==> !AtCompare(s))
  {
    CountsTo(Next(s, i), ins);
  }

  /** The delegation bits are those software wrote last, outside exceptions. */
  function Delegation(ext: bool, timer: bool, ins: seq<In>): (bool, bool)
    decreases |ins|
  {
    if ins == [] then (ext, timer)
    else
      var last := ins[|ins| - 1];
      if last.write.Delegate? && !last.exception then (last.write.ext, last.write.timer)
      else Delegation(ext, timer, ins[..|ins| - 1])
  }

  lemma {:induction false} DelegatesAsWritten(s: Regs, ins: seq<In>)
    ensures (Run(s, ins).delegExt, Run(s, ins).delegTimer) == Delegation(s.delegExt, s.delegTimer, ins)
    decreases |ins|
  {
    if ins != [] {
      var front, last := ins[..|ins| - 1], ins[|ins| - 1];
      DelegatesAsWritten(s, front);
      RunOn(s, front, last);
      assert front + [last] == ins;
    }
  }

  lemma {:induction false} RunOn(s: Regs, ins: seq<In>, last: In)
    ensures Run(s, ins + [last]) == Next(Run(s, ins), last)
    decreases |ins|
  {
    hide Next;
    if ins == [] {
      assert ins + [last] == [last] && [last][1..] == [];
    } else {
      assert (ins + [last])[1..] == ins[1..] + [last] && (ins + [last])[0] == ins[0];
      RunOn(Next(s, ins[0]), ins[1..], last);
    }
  }

  // ---------------------------------------------------------------------------- External interrupts

  /** Outside a window the external bits are the interrupt line, routed by delegation, whatever is
      written: they cannot stick. */
  lemma ExternalIsLevel(s: Regs, i: In)
    requires !s.buffer.meip && !s.buffer.seip
    ensures var n := Next(s, i);
            && n.mip.meip == (i.ext && !s.delegExt) && n.mip.seip == (i.ext && s.delegExt)
            && (!Buffering(s, i) ==> !n.buffer.meip && !n.buffer.seip)
  {
  }

  /** Software bits are exactly what software writes. */
  lemma SoftwareBits(s: Regs, i: In)
    requires !s.buffer.msip && !s.buffer.ssip
    ensures var n := Next(s, i);
            && !n.buffer.msip && !n.buffer.ssip
            && n.mip.msip == (if !i.exception && i.write.Mip? then i.write.bits.msip else s.mip.msip)
            && n.mip.ssip == (if !i.exception && WritesPending(i) then i.write.bits.ssip else s.mip.ssip)
  {
  }

  // ---------------------------------------------------------------------------- Machine

  /** The mip part of biriscv_csr_regfile: one block of assignments, each overriding the ones
      before it, clocked into the registers. */
  class PendingBlock {
    var mip: Bits
    var buffer: Bits
    var window: bool
    var cycle: Word
    var compare: Word
    var compareOn: bool
    var delegExt: bool
    var delegTimer: bool

    function View(): Regs reads this {
      Regs(mip, buffer, window, cycle, compare, compareOn, delegExt, delegTimer)
    }

    constructor ()
      ensures View() == Regs(CLEAR, CLEAR, false, 0, 0, false, false, false)
    {
      mip, buffer, window, cycle, compare, compareOn := CLEAR, CLEAR, false, 0, 0, false;
      delegExt, delegTimer := false, false;
    }

    /** The bits that come in from outside in this clock. */
    method Collect(i: In) returns (b: Bits)
      ensures b == Incoming(View(), i)
    {
      b := buffer;
      if i.ext && delegExt { b := b.(seip := true); }
      if i.ext && !delegExt { b := b.(meip := true); }
      if i.timer && delegTimer { b := b.(stip := true); }
      if i.timer && !delegTimer { b := b.(mtip := true); }
      if cycle == compare {
        if delegTimer { b := b.(stip := compareOn); } else { b := b.(mtip := compareOn); }
      }
    }

    /** What software leaves in mip. */
    method Software(i: In) returns (b: Bits)
      ensures b == Kept(View(), i)
    {
      b := mip;
      if !i.exception {
        match i.write
        case Mip(v) => b := v;
        case Sip(v) => b := b.(ssip := v.ssip, stip := v.stip, seip := v.seip);
        case _ =>
      }
      b := b.(meip := false, seip := false);
    }

    /** One rising clock edge. */
    method Clock(i: In)
      modifies this
      ensures View() == Next(old(View()), i)
    {
      hide Kept, Incoming, Or;
      var incoming := Collect(i);
      var kept := Software(i);
      ghost var n := Next(View(), i);
      assert n.mip == Or(kept, incoming) && n.buffer == (if i.read || window then incoming else CLEAR);
      assert n.window == (if i.read then true else if WritesPending(i) || i.exception then false else window);
      hide Next;
      ClockTimer(i);
      mip := Or(kept, incoming);
      buffer := if i.read || window then incoming else CLEAR;
      if i.read {
        window := true;
      } else if i.write.Mip? || i.write.Sip? || i.exception {
        window := false;
      }
    }

    /** The cycle counter, the compare value and its enable, and the delegation bits. */
    method ClockTimer(i: In)
      modifies this`cycle, this`compare, this`compareOn, this`delegExt, this`delegTimer
      ensures var n := Next(old(View()), i);
              && cycle == n.cycle && compare == n.compare && compareOn == n.compareOn
              && delegExt == n.delegExt && delegTimer == n.delegTimer
    {
      var met := cycle == compare;
      if !i.exception {
        match i.write
        case TimeCompare(v) => compare, compareOn := v, true;
        case Delegate(e, t) => delegExt, delegTimer := e, t;
        case _ =>
      }
      if met {
        compareOn := false;
      }
      cycle := (cycle + 1) % 0x1_0000_0000;
    }
  }
}
