/** The instruction cache: two ways of tag and data RAMs with one read-or-write port each, a state
    machine that refills a line from the bus, and the proof that it is memory, only faster. */
module ICache {
  import opened Seqs

  type Word = bv32

  /** What the cache answers: two instructions. */
  datatype Block = Block(lo: Word, hi: Word)

  const LINES := 256
  const BLOCKS := 1024

  /** An address as its slices [31:13], [12:5] and [4:3]. */
  datatype AddrFields = Addr(tag: nat, line: nat, block: nat)
  type Addr = a: AddrFields | a.line < 256 && a.block < 4 witness Addr(0, 0, 0)

  /** Memory: the word at a tag, a line and one of the eight words of the line. */
  type Code = (nat, nat, nat) -> Word

  /** The block that memory holds. */
  function BlockAt(m: Code, tag: nat, line: nat, block: nat): Block {
    Block(m(tag, line, 2 * block), m(tag, line, 2 * block + 1))
  }

  datatype Tag = Tag(valid: bool, addr: nat)

  const NO_TAG := Tag(false, 0)

  // ---------------------------------------------------------------------------- Registers

  /** One way: its RAMs and their output registers. */
  datatype Way = Way(tags: seq<Tag>, data: seq<Block>, tagOut: Tag, dataOut: Block)

  datatype State = Flush | Lookup | Refill | Relookup

  datatype Regs = Regs(
    state: State, way0: Way, way1: Way,
    lookupValid: bool, lookup: Addr,
    word: nat, lower: Word, writeAddr: nat, flushAddr: nat, invalidate: bool, replaceWay: bool, arValid: bool)

  predicate WaySized(w: Way) { |w.tags| == LINES && |w.data| == BLOCKS }

  predicate Sized(s: Regs) {
    WaySized(s.way0) && WaySized(s.way1) && s.writeAddr < BLOCKS && s.flushAddr < LINES && s.word < 8
  }

  /** One clock of inputs: the request port and the read bus. */
  datatype In = In(rd: bool, pc: Addr, flush: bool, invalidate: bool, arReady: bool, rValid: bool, rLast: bool, rData: Word)

  // ---------------------------------------------------------------------------- Signals

  predicate Hit(w: Way, a: Addr) { w.tagOut.valid && w.tagOut.addr == a.tag }

  predicate HitAny(s: Regs) { Hit(s.way0, s.lookup) || Hit(s.way1, s.lookup) }

  function NextState(s: Regs, i: In): State {
    match s.state
    case Flush => if s.invalidate || s.flushAddr == LINES - 1 then Lookup else Flush
    case Lookup =>
      if s.lookupValid && !HitAny(s) then Refill
      else if i.invalidate || i.flush then Flush
      else Lookup
    case Refill => if i.rValid && i.rLast then Relookup else Refill
    case Relookup => Lookup
  }

  predicate Accept(s: Regs, i: In) { s.state == Lookup && NextState(s, i) != Refill }

  predicate Taken(s: Regs, i: In) { i.rd && Accept(s, i) }

  predicate RespValid(s: Regs) { s.lookupValid && s.state == Lookup && HitAny(s) }

  function Answer(s: Regs): Block {
    if Hit(s.way0, s.lookup) then s.way0.dataOut else if Hit(s.way1, s.lookup) then s.way1.dataOut else s.way0.dataOut
  }

  predicate Misses(s: Regs, i: In) { s.state == Lookup && NextState(s, i) == Refill }

  predicate ArOut(s: Regs, i: In) { Misses(s, i) || s.arValid }

  function TagAddr(s: Regs, i: In): nat {
    if s.state == Flush then s.flushAddr
    else if s.state == Refill || s.state == Relookup then s.lookup.line
    else i.pc.line
  }

  function TagIn(s: Regs): Tag { if s.state == Refill then Tag(true, s.lookup.tag) else NO_TAG }

  predicate TagWrite(s: Regs, i: In, way: bool) {
    s.state == Flush || (s.state == Refill && i.rValid && i.rLast && s.replaceWay == way)
  }

  function DataAddr(s: Regs, i: In): nat {
    if s.state == Refill then s.writeAddr
    else if s.state == Relookup then 4 * s.lookup.line + s.lookup.block
    else 4 * i.pc.line + i.pc.block
  }

  // ---------------------------------------------------------------------------- Clock

  /** Both RAMs read the old contents when they write. */
  function WayNext(w: Way, tagAddr: nat, tagIn: Tag, tagWrite: bool, dataAddr: nat, dataIn: Block, dataWrite: bool): Way
    requires WaySized(w) && tagAddr < LINES && dataAddr < BLOCKS
  {
    Way(if tagWrite then w.tags[tagAddr := tagIn] else w.tags,
        if dataWrite then w.data[dataAddr := dataIn] else w.data,
        w.tags[tagAddr], w.data[dataAddr])
  }

  function WayAfter(s: Regs, i: In, w: Way, way: bool): Way
    requires Sized(s) && WaySized(w)
  {
    WayNext(w, TagAddr(s, i), TagIn(s), TagWrite(s, i, way),
            DataAddr(s, i), Block(s.lower, i.rData), i.rValid && s.replaceWay == way)
  }

  function NextFlushAddr(s: Regs, i: In): nat {
    if s.state == Flush then (s.flushAddr + 1) % 256
    else if i.invalidate && Accept(s, i) then i.pc.line
    else 0
  }

  function NextWriteAddr(s: Regs, i: In): nat {
    if Misses(s, i) then 4 * s.lookup.line
    else if s.state == Refill && i.rValid && s.word % 2 == 1 then (s.writeAddr + 1) % 1024
    else s.writeAddr
  }

  /** One rising clock edge. */
  function Next(s: Regs, i: In): Regs
    requires Sized(s)
  {
    Regs(NextState(s, i), WayAfter(s, i, s.way0, false), WayAfter(s, i, s.way1, true),
         if Taken(s, i) then true else if RespValid(s) then false else s.lookupValid,
         if Taken(s, i) then i.pc else s.lookup,
         if i.rValid && i.rLast then 0 else if i.rValid then (s.word + 1) % 8 else s.word,
         if i.rValid then i.rData else s.lower,
         NextWriteAddr(s, i), NextFlushAddr(s, i),
         i.invalidate && Accept(s, i),
         if i.rValid && i.rLast then !s.replaceWay else s.replaceWay,
         ArOut(s, i) && !i.arReady)
  }

  lemma NextSized(s: Regs, i: In)
    requires Sized(s)
    ensures Sized(Next(s, i))
  {
    hide NextState, HitAny;
  }

  // ---------------------------------------------------------------------------- Bus

  /** The read burst under way, by the beats already given. */
  datatype Bus = Idle | Burst(tag: nat, line: nat, beats: nat)

  predicate Names(t: Tag, tag: nat) { t.valid && t.addr == tag }

  /** A flush or an invalidation is asked for in a clock in which no lookup misses. */
  predicate StartsFlush(s: Regs, i: In) {
    s.state == Lookup && !(s.lookupValid && !HitAny(s)) && (i.flush || i.invalidate)
  }

  /** Some way holds `tag` in `line`. */
  predicate HeldIn(s: Regs, line: nat, tag: nat)
    requires Sized(s) && line < LINES
  {
    Names(s.way0.tags[line], tag) || Names(s.way1.tags[line], tag)
  }

  /** The last line that a flush or an invalidation accepted in this clock will empty. */
  function LastEmptied(i: In): nat { if i.invalidate then i.pc.line else LINES - 1 }

  /** The bus answers an accepted address with the eight words of its line, in order, the last one
      marked, after any delay and without error. A read accepted in a clock that starts a flush asks
      for a tag that no way holds in the last line to be emptied. */
  predicate EnvOk(m: Code, s: Regs, b: Bus, i: In)
    requires Sized(s)
  {
    && (i.rValid ==> b.Burst? && i.rData == m(b.tag, b.line, b.beats) && (i.rLast <==> b.beats == 7))
    && (Taken(s, i) && StartsFlush(s, i) ==> !HeldIn(s, LastEmptied(i), i.pc.tag))
  }

  function NextBus(s: Regs, b: Bus, i: In): Bus {
    if ArOut(s, i) && i.arReady then Burst(s.lookup.tag, s.lookup.line, 0)
    else if i.rValid && b.Burst? then (if i.rLast then Idle else b.(beats := b.beats + 1))
    else b
  }

  // ---------------------------------------------------------------------------- Invariant

  function DataAt(w: Way, line: nat, block: nat): Block
    requires WaySized(w) && line < LINES && block < 4
  {
    w.data[4 * line + block]
  }

  /** Every valid line of a way is memory's, except line `skip`. */
  ghost predicate WayTrue(m: Code, w: Way, skip: int)
    requires WaySized(w)
  {
    forall l: nat, k: nat {:trigger DataAt(w, l, k)} :: l < LINES && k < 4 && l != skip && w.tags[l].valid ==>
      DataAt(w, l, k) == BlockAt(m, w.tags[l].addr, l, k)
  }

  predicate Cleared(w: Way, below: nat)
    requires WaySized(w)
  {
    forall l: nat :: l < below && l < LINES ==> !w.tags[l].valid
  }

  /** The line that a way is not trusted in: the one being refilled, or the one about to be emptied. */
  function Untrusted(s: Regs, way: bool): int {
    if s.state == Flush then s.flushAddr
    else if s.state == Refill && s.replaceWay == way then s.lookup.line
    else -1
  }

  ghost predicate Consistent(m: Code, s: Regs)
    requires Sized(s)
  {
    WayTrue(m, s.way0, Untrusted(s, false)) && WayTrue(m, s.way1, Untrusted(s, true))
  }

  /** The blocks of the refilled line that have arrived. */
  predicate Filled(m: Code, w: Way, a: Addr, blocks: nat)
    requires WaySized(w)
  {
    forall k: nat {:trigger DataAt(w, a.line, k)} :: k < blocks && k < 4 ==> DataAt(w, a.line, k) == BlockAt(m, a.tag, a.line, k)
  }

  function Victim(s: Regs): Way { if s.replaceWay then s.way1 else s.way0 }

  /** The way of the last refill; the victim changes with its last beat. */
  function Refilled(s: Regs): Way { if s.replaceWay then s.way0 else s.way1 }

  /** The outputs of the RAMs are what they hold for the lookup. */
  predicate Looked(w: Way, a: Addr)
    requires WaySized(w)
  {
    w.tagOut == w.tags[a.line] && w.dataOut == DataAt(w, a.line, a.block)
  }

  /** A lookup waits for the end of the flush, whose last tag read will match it. */
  predicate Stale(s: Regs)
    requires Sized(s)
  {
    s.lookupValid && HeldIn(s, if s.invalidate then s.flushAddr else LINES - 1, s.lookup.tag)
  }

  ghost predicate StateFits(m: Code, s: Regs, b: Bus)
    requires Sized(s)
  {
    match s.state
    case Flush => !Stale(s) && !s.arValid && b == Idle && s.word == 0
    case Lookup =>
      && !s.arValid && b == Idle && s.word == 0
      && (s.lookupValid && HitAny(s) ==> Looked(s.way0, s.lookup) && Looked(s.way1, s.lookup))
    case Refill =>
      && s.lookupValid && s.writeAddr == 4 * s.lookup.line + s.word / 2
      && Filled(m, Victim(s), s.lookup, s.word / 2)
      && (s.word % 2 == 1 ==> s.lower == m(s.lookup.tag, s.lookup.line, s.word - 1))
      && (if s.arValid then b == Idle && s.word == 0 else b == Burst(s.lookup.tag, s.lookup.line, s.word))
    case Relookup =>
      s.lookupValid && !s.arValid && b == Idle && s.word == 0 && Refilled(s).tags[s.lookup.line] == Tag(true, s.lookup.tag)
  }

  ghost predicate Inv(m: Code, s: Regs, b: Bus) {
    && Sized(s) && StateFits(m, s, b)
    && (if s.state == Flush && !s.invalidate then Cleared(s.way0, s.flushAddr) && Cleared(s.way1, s.flushAddr)
        else Consistent(m, s))
    && (s.invalidate ==> s.state == Flush)
  }

  // ---------------------------------------------------------------------------- Storage

  /** Emptying the line left out makes a way true. */
  lemma EmptyLine(m: Code, w: Way, line: nat, n: Way)
    requires WaySized(w) && line < LINES && WayTrue(m, w, line)
    requires WaySized(n) && n.tags == w.tags[line := NO_TAG] && n.data == w.data
    ensures WayTrue(m, n, -1)
  {
    forall l: nat, k: nat | l < LINES && k < 4 && n.tags[l].valid
      ensures DataAt(n, l, k) == BlockAt(m, n.tags[l].addr, l, k)
    {
      assert DataAt(w, l, k) == BlockAt(m, w.tags[l].addr, l, k);
    }
  }

  lemma ClearNext(w: Way, line: nat, n: Way)
    requires WaySized(w) && line < LINES && Cleared(w, line) && WaySized(n) && n.tags == w.tags[line := NO_TAG]
    ensures Cleared(n, line + 1)
  {
  }

  lemma ClearedIsTrue(m: Code, w: Way)
    requires WaySized(w) && Cleared(w, LINES)
    ensures WayTrue(m, w, -1)
  {
  }

  /** The same contents stay true, with or without leaving a line out. */
  lemma SameContents(m: Code, w: Way, n: Way, skip: int, skip': int)
    requires WaySized(w) && WaySized(n) && n.tags == w.tags && n.data == w.data
    requires WayTrue(m, w, skip) && (skip == skip' || skip == -1)
    ensures WayTrue(m, n, skip')
  {
    forall l: nat, k: nat | l < LINES && k < 4 && l != skip' && n.tags[l].valid
      ensures DataAt(n, l, k) == BlockAt(m, n.tags[l].addr, l, k)
    {
      assert DataAt(w, l, k) == BlockAt(m, w.tags[l].addr, l, k);
    }
  }

  /** Writing inside the line left out. */
  lemma FillBlock(m: Code, w: Way, a: Addr, block: nat, x: Block, n: Way)
    requires WaySized(w) && block < 4 && WayTrue(m, w, a.line) && Filled(m, w, a, block)
    requires WaySized(n) && n.tags == w.tags && n.data == w.data[4 * a.line + block := x]
    ensures WayTrue(m, n, a.line) && Filled(m, n, a, block)
    ensures x == BlockAt(m, a.tag, a.line, block) ==> Filled(m, n, a, block + 1)
  {
    forall l: nat, k: nat | l < LINES && k < 4 && l != a.line
      ensures DataAt(n, l, k) == DataAt(w, l, k)
    {
    }
    forall k: nat | k < block
      ensures DataAt(n, a.line, k) == DataAt(w, a.line, k)
    {
    }
  }

  /** The tag goes in when the whole line has arrived. */
  lemma CloseLine(m: Code, w: Way, a: Addr, n: Way)
    requires WaySized(w) && WayTrue(m, w, a.line) && Filled(m, w, a, 4)
    requires WaySized(n) && n.tags == w.tags[a.line := Tag(true, a.tag)] && n.data == w.data
    ensures WayTrue(m, n, -1)
  {
    forall l: nat, k: nat | l < LINES && k < 4 && n.tags[l].valid
      ensures DataAt(n, l, k) == BlockAt(m, n.tags[l].addr, l, k)
    {
      assert DataAt(n, l, k) == DataAt(w, l, k);
    }
  }

  // ---------------------------------------------------------------------------- Every clock

  lemma StepFlush(m: Code, s: Regs, b: Bus, i: In)
    requires Inv(m, s, b) && EnvOk(m, s, b, i) && s.state == Flush
    ensures Inv(m, Next(s, i), NextBus(s, b, i))
  {
    NextSized(s, i);
    hide WayTrue, Cleared, Looked, Filled, HitAny;
    var n := Next(s, i);
    if s.invalidate {
      EmptyLine(m, s.way0, s.flushAddr, n.way0);
      EmptyLine(m, s.way1, s.flushAddr, n.way1);
    } else {
      ClearNext(s.way0, s.flushAddr, n.way0);
      ClearNext(s.way1, s.flushAddr, n.way1);
      if s.flushAddr == LINES - 1 {
        ClearedIsTrue(m, n.way0);
        ClearedIsTrue(m, n.way1);
      }
    }
  }

  lemma NothingCleared(w: Way)
    requires WaySized(w)
    ensures Cleared(w, 0)
  {
  }

  /** The ways after a clock without a write. */
  lemma WaysRead(m: Code, s: Regs, i: In, skip0: int, skip1: int)
    requires Sized(s) && s.state != Flush && !i.rValid
    requires WayTrue(m, s.way0, skip0) && WayTrue(m, s.way1, skip1)
    ensures var n := Next(s, i);
            && Sized(n) && WayTrue(m, n.way0, skip0) && WayTrue(m, n.way1, skip1)
            && n.way0.tags == s.way0.tags && n.way0.data == s.way0.data
            && n.way1.tags == s.way1.tags && n.way1.data == s.way1.data
            && n.way0.tagOut == s.way0.tags[TagAddr(s, i)] && n.way0.dataOut == s.way0.data[DataAddr(s, i)]
            && n.way1.tagOut == s.way1.tags[TagAddr(s, i)] && n.way1.dataOut == s.way1.data[DataAddr(s, i)]
  {
    NextSized(s, i);
    hide WayTrue, NextState;
    var n := Next(s, i);
    SameContents(m, s.way0, n.way0, skip0, skip0);
    SameContents(m, s.way1, n.way1, skip1, skip1);
  }

  lemma StepLookup(m: Code, s: Regs, b: Bus, i: In)
    requires Inv(m, s, b) && EnvOk(m, s, b, i) && s.state == Lookup
    ensures Inv(m, Next(s, i), NextBus(s, b, i))
  {
    WaysRead(m, s, i, -1, -1);
    hide WayTrue, Hit, WayAfter;
    var n := Next(s, i);
    if n.state == Flush {
      NothingCleared(n.way0);
      NothingCleared(n.way1);
      hide Cleared;
    }
    SameContents(m, n.way0, n.way0, -1, Untrusted(n, false));
    SameContents(m, n.way1, n.way1, -1, Untrusted(n, true));
  }

  lemma StepRelookup(m: Code, s: Regs, b: Bus, i: In)
    requires Inv(m, s, b) && EnvOk(m, s, b, i) && s.state == Relookup
    ensures Inv(m, Next(s, i), NextBus(s, b, i))
  {
    WaysRead(m, s, i, -1, -1);
    hide WayTrue, WayAfter;
  }

  /** A refill clock without a beat. */
  lemma StepRefillWaits(m: Code, s: Regs, b: Bus, i: In)
    requires Inv(m, s, b) && EnvOk(m, s, b, i) && s.state == Refill && !i.rValid
    ensures Inv(m, Next(s, i), NextBus(s, b, i))
  {
    var line := s.lookup.line;
    WaysRead(m, s, i, if s.replaceWay then -1 else line, if s.replaceWay then line else -1);
    SameFilled(m, Victim(s), Victim(Next(s, i)), s.lookup, s.word / 2);
    hide WayTrue, WayAfter, Filled;
  }

  lemma SameFilled(m: Code, w: Way, n: Way, a: Addr, blocks: nat)
    requires WaySized(w) && WaySized(n) && n.data == w.data && Filled(m, w, a, blocks)
    ensures Filled(m, n, a, blocks)
  {
    forall k: nat | k < blocks && k < 4 ensures DataAt(n, a.line, k) == DataAt(w, a.line, k) {
    }
  }

  /** The victim way after a beat: one more block when the beat completes it, and the tag with the last. */
  lemma VictimBeat(m: Code, s: Regs, i: In, way: bool)
    requires Sized(s) && s.state == Refill && s.replaceWay == way && i.rValid && (i.rLast <==> s.word == 7)
    requires s.writeAddr == 4 * s.lookup.line + s.word / 2 && i.rData == m(s.lookup.tag, s.lookup.line, s.word)
    requires s.word % 2 == 1 ==> s.lower == m(s.lookup.tag, s.lookup.line, s.word - 1)
    requires WayTrue(m, Victim(s), s.lookup.line) && Filled(m, Victim(s), s.lookup, s.word / 2)
    ensures var n := WayAfter(s, i, Victim(s), way);
            && WaySized(n)
            && (if i.rLast then WayTrue(m, n, -1) && n.tags[s.lookup.line] == Tag(true, s.lookup.tag)
                else WayTrue(m, n, s.lookup.line) && Filled(m, n, s.lookup, (s.word + 1) / 2))
  {
    var w, n, a, k := Victim(s), WayAfter(s, i, Victim(s), way), s.lookup, s.word / 2;
    var x := Block(s.lower, i.rData);
    var v := w.(data := w.data[4 * a.line + k := x]);
    FillBlock(m, w, a, k, x, v);
    if s.word % 2 == 1 {
      assert 2 * k == s.word - 1;
      assert x == BlockAt(m, a.tag, a.line, k);
    }
    hide WayTrue, Filled;
    if i.rLast {
      CloseLine(m, v, a, n);
    } else {
      SameContents(m, v, n, a.line, a.line);
      SameFilled(m, v, n, a, (s.word + 1) / 2);
    }
  }

  /** The other way after a beat. */
  lemma OtherBeat(m: Code, s: Regs, i: In, w: Way, way: bool)
    requires Sized(s) && WaySized(w) && s.state == Refill && s.replaceWay != way && WayTrue(m, w, -1)
    ensures WaySized(WayAfter(s, i, w, way)) && WayTrue(m, WayAfter(s, i, w, way), -1)
  {
    SameContents(m, w, WayAfter(s, i, w, way), -1, -1);
  }

  lemma StepRefillBeat(m: Code, s: Regs, b: Bus, i: In)
    requires Inv(m, s, b) && EnvOk(m, s, b, i) && s.state == Refill && i.rValid
    ensures Inv(m, Next(s, i), NextBus(s, b, i))
  {
    NextSized(s, i);
    hide WayTrue, Filled, HitAny;
    VictimBeat(m, s, i, s.replaceWay);
    if s.replaceWay {
      OtherBeat(m, s, i, s.way0, false);
    } else {
      OtherBeat(m, s, i, s.way1, true);
    }
    hide WayAfter;
  }

  lemma Step(m: Code, s: Regs, b: Bus, i: In)
    requires Inv(m, s, b) && EnvOk(m, s, b, i)
    ensures Inv(m, Next(s, i), NextBus(s, b, i))
  {
    hide Inv, Next, NextBus, EnvOk;
    match s.state
    case Flush => StepFlush(m, s, b, i);
    case Lookup => StepLookup(m, s, b, i);
    case Relookup => StepRelookup(m, s, b, i);
    case Refill => if i.rValid { StepRefillBeat(m, s, b, i); } else { StepRefillWaits(m, s, b, i); }
  }

  /** An answer is what memory holds at the address asked for. */
  lemma AnswerIsMemory(m: Code, s: Regs, b: Bus)
    requires Inv(m, s, b) && RespValid(s)
    ensures Answer(s) == BlockAt(m, s.lookup.tag, s.lookup.line, s.lookup.block)
  {
    var a := s.lookup;
    assert Hit(s.way0, a) ==> DataAt(s.way0, a.line, a.block) == BlockAt(m, s.way0.tags[a.line].addr, a.line, a.block);
    assert Hit(s.way1, a) ==> DataAt(s.way1, a.line, a.block) == BlockAt(m, s.way1.tags[a.line].addr, a.line, a.block);
  }

  // ---------------------------------------------------------------------------- Runs

  function Run(s: Regs, ins: seq<In>): (r: Regs)
    requires Sized(s)
    ensures Sized(r)
    decreases |ins|
  {
    NextSizedAlways(s, ins);
    if ins == [] then s else Run(Next(s, ins[0]), ins[1..])
  }

  lemma NextSizedAlways(s: Regs, ins: seq<In>)
    requires Sized(s)
    ensures ins != [] ==> Sized(Next(s, ins[0]))
  {
    if ins != [] { NextSized(s, ins[0]); }
  }

  predicate Legal(m: Code, s: Regs, b: Bus, ins: seq<In>)
    requires Sized(s)
    decreases |ins|
  {
    NextSizedAlways(s, ins);
    ins == [] || (EnvOk(m, s, b, ins[0]) && Legal(m, Next(s, ins[0]), NextBus(s, b, ins[0]), ins[1..]))
  }

  /** What memory answers to the requests accepted over a run. */
  function Wanted(m: Code, s: Regs, ins: seq<In>): seq<Block>
    requires Sized(s)
    decreases |ins|
  {
    NextSizedAlways(s, ins);
    if ins == [] then []
    else (if ins[0].rd && Accept(s, ins[0]) then [BlockAt(m, ins[0].pc.tag, ins[0].pc.line, ins[0].pc.block)] else [])
         + Wanted(m, Next(s, ins[0]), ins[1..])
  }

  /** What the cache answers over a run. */
  function Given(s: Regs, ins: seq<In>): seq<Block>
    requires Sized(s)
    decreases |ins|
  {
    NextSizedAlways(s, ins);
    if ins == [] then [] else (if RespValid(s) then [Answer(s)] else []) + Given(Next(s, ins[0]), ins[1..])
  }

  /** The answer still owed. */
  function Owed(m: Code, s: Regs): seq<Block> {
    if s.lookupValid then [BlockAt(m, s.lookup.tag, s.lookup.line, s.lookup.block)] else []
  }

  lemma OwedStep(m: Code, s: Regs, b: Bus, i: In)
    requires Inv(m, s, b)
    ensures Owed(m, s) + (if i.rd && Accept(s, i) then [BlockAt(m, i.pc.tag, i.pc.line, i.pc.block)] else [])
         == (if RespValid(s) then [Answer(s)] else []) + Owed(m, Next(s, i))
  {
    hide WayAfter, Answer, WayTrue, Filled, Cleared;
    if RespValid(s) { AnswerIsMemory(m, s, b); }
    hide BlockAt;
    assert Taken(s, i) ==> RespValid(s) || !s.lookupValid;
  }

  lemma {:induction false} RunIsMemory(m: Code, s: Regs, b: Bus, ins: seq<In>)
    requires Sized(s) && Inv(m, s, b) && Legal(m, s, b, ins)
    ensures Owed(m, s) + Wanted(m, s, ins) == Given(s, ins) + Owed(m, Run(s, ins))
    decreases |ins|
  {
    hide Inv, Next, NextBus, EnvOk, Owed, Accept, RespValid, Answer, BlockAt;
    if ins != [] {
      var i, n := ins[0], Next(s, ins[0]);
      NextSized(s, i);
      Step(m, s, b, i);
      OwedStep(m, s, b, i);
      RunIsMemory(m, n, NextBus(s, b, i), ins[1..]);
      Trade(Owed(m, s), if i.rd && Accept(s, i) then [BlockAt(m, i.pc.tag, i.pc.line, i.pc.block)] else [],
            if RespValid(s) then [Answer(s)] else [], Owed(m, n), Wanted(m, n, ins[1..]), Given(n, ins[1..]), Owed(m, Run(n, ins[1..])));
    }
  }

  /** The cache at the start of a flush, with anything in its RAMs: after reset, or when memory has
      just changed. */
  predicate FlushStarts(s: Regs) {
    && Sized(s) && s.state == Flush && s.flushAddr == 0 && !s.invalidate
    && !s.lookupValid && !s.arValid && s.word == 0
  }

  /** With a fixed memory: from the start of a flush, while memory stays as it is, for every sequence
      of requests, flushes and invalidations and every bus delay, the answers are memory's answers to
      the accepted requests, in order, with at most one to come. */
  lemma CacheIsFixedMemory(m: Code, s: Regs, ins: seq<In>)
    requires FlushStarts(s) && Legal(m, s, Idle, ins)
    ensures Given(s, ins) <= Wanted(m, s, ins) && |Wanted(m, s, ins)| <= |Given(s, ins)| + 1
  {
    NothingCleared(s.way0);
    NothingCleared(s.way1);
    RunIsMemory(m, s, Idle, ins);
    assert Owed(m, s) + Wanted(m, s, ins) == Wanted(m, s, ins);
    hide Given, Wanted, Run, Legal;
  }

  // ---------------------------------------------------------------------------- A memory that changes

  /** Memory may change in a clock that starts a flush, and in one that starts an invalidation if it
      changes in that line only. */
  ghost predicate MayChange(s: Regs, i: In, m: Code, m': Code) {
    m == m' || (StartsFlush(s, i) && (i.invalidate ==> SameElsewhere(m, m', i.pc.line)))
  }

  ghost predicate SameElsewhere(m: Code, m': Code, line: nat) {
    forall tag: nat, l: nat, k: nat :: l != line ==> m'(tag, l, k) == m(tag, l, k)
  }

  lemma TrueElsewhere(m: Code, m': Code, w: Way, line: nat)
    requires WaySized(w) && WayTrue(m, w, line) && SameElsewhere(m, m', line)
    ensures WayTrue(m', w, line)
  {
    forall l: nat, k: nat | l < LINES && k < 4 && l != line && w.tags[l].valid
      ensures DataAt(w, l, k) == BlockAt(m', w.tags[l].addr, l, k)
    {
      assert DataAt(w, l, k) == BlockAt(m, w.tags[l].addr, l, k);
    }
  }

  /** A clock whose memory changes starts a flush, after which the cache fits the new memory. */
  lemma ChangeStep(m: Code, m': Code, s: Regs, b: Bus, i: In)
    requires Inv(m, s, b) && EnvOk(m, s, b, i) && MayChange(s, i, m, m')
    ensures Inv(m', Next(s, i), NextBus(s, b, i))
  {
    Step(m, s, b, i);
    hide WayTrue, Cleared, HitAny, WayAfter, SameElsewhere;
    if m != m' && i.invalidate {
      TrueElsewhere(m, m', Next(s, i).way0, i.pc.line);
      TrueElsewhere(m, m', Next(s, i).way1, i.pc.line);
    }
  }

  /** The bus serves the memory of each clock; `ms` lists them, with the one after the last clock. */
  ghost predicate LegalOver(ms: seq<Code>, s: Regs, b: Bus, ins: seq<In>)
    requires Sized(s) && |ms| == |ins| + 1
    decreases |ins|
  {
    NextSizedAlways(s, ins);
    ins == [] ||
    (EnvOk(ms[0], s, b, ins[0]) && MayChange(s, ins[0], ms[0], ms[1])
     && LegalOver(ms[1..], Next(s, ins[0]), NextBus(s, b, ins[0]), ins[1..]))
  }

  /** What the accepted requests must be answered: the block in memory once their clock is over. */
  function WantedOver(ms: seq<Code>, s: Regs, ins: seq<In>): seq<Block>
    requires Sized(s) && |ms| == |ins| + 1
    decreases |ins|
  {
    NextSizedAlways(s, ins);
    if ins == [] then []
    else (if ins[0].rd && Accept(s, ins[0]) then [BlockAt(ms[1], ins[0].pc.tag, ins[0].pc.line, ins[0].pc.block)] else [])
         + WantedOver(ms[1..], Next(s, ins[0]), ins[1..])
  }

  lemma OwedOver(m: Code, m': Code, s: Regs, b: Bus, i: In)
    requires Inv(m, s, b) && MayChange(s, i, m, m')
    ensures Owed(m, s) + (if i.rd && Accept(s, i) then [BlockAt(m', i.pc.tag, i.pc.line, i.pc.block)] else [])
         == (if RespValid(s) then [Answer(s)] else []) + Owed(m', Next(s, i))
  {
    OwedStep(m, s, b, i);
    hide WayAfter, Answer, WayTrue, Filled, Cleared, BlockAt, SameElsewhere, HitAny, Stale;
  }

  lemma {:induction false} RunFollowsMemory(ms: seq<Code>, s: Regs, b: Bus, ins: seq<In>)
    requires |ms| == |ins| + 1 && Sized(s) && Inv(ms[0], s, b) && LegalOver(ms, s, b, ins)
    ensures Owed(ms[0], s) + WantedOver(ms, s, ins) == Given(s, ins) + Owed(ms[|ins|], Run(s, ins))
    decreases |ins|
  {
    hide Inv, Next, NextBus, EnvOk, Owed, Accept, RespValid, Answer, BlockAt, MayChange;
    if ins != [] {
      var i, n, m, m' := ins[0], Next(s, ins[0]), ms[0], ms[1];
      NextSized(s, i);
      ChangeStep(m, m', s, b, i);
      OwedOver(m, m', s, b, i);
      RunFollowsMemory(ms[1..], n, NextBus(s, b, i), ins[1..]);
      Trade(Owed(m, s), if i.rd && Accept(s, i) then [BlockAt(m', i.pc.tag, i.pc.line, i.pc.block)] else [],
            if RespValid(s) then [Answer(s)] else [], Owed(m', n), WantedOver(ms[1..], n, ins[1..]), Given(n, ins[1..]),
            Owed(ms[|ins|], Run(n, ins[1..])));
    }
  }

  /** The instruction cache is memory that changes at flushes and invalidations: from the start of a
      flush, for every sequence of requests, flushes and invalidations, every bus delay and every
      change that comes with one of them, the answers are the blocks that memory holds when the
      requests are accepted, in order, with at most one to come. */
  lemma CacheIsMemory(ms: seq<Code>, s: Regs, ins: seq<In>)
    requires |ms| == |ins| + 1 && FlushStarts(s) && LegalOver(ms, s, Idle, ins)
    ensures Given(s, ins) <= WantedOver(ms, s, ins) && |WantedOver(ms, s, ins)| <= |Given(s, ins)| + 1
  {
    NothingCleared(s.way0);
    NothingCleared(s.way1);
    RunFollowsMemory(ms, s, Idle, ins);
    assert Owed(ms[0], s) + WantedOver(ms, s, ins) == WantedOver(ms, s, ins);
    hide Given, WantedOver, Run, LegalOver;
  }

  /** A flush that has reached a line empties both ways by the clock the cache looks up again. */
  lemma {:induction false} FlushEnds(s: Regs, ins: seq<In>)
    requires Sized(s) && s.state == Flush && !s.invalidate && |ins| == LINES - s.flushAddr
    requires Cleared(s.way0, s.flushAddr) && Cleared(s.way1, s.flushAddr)
    ensures var r := Run(s, ins); r.state == Lookup && Cleared(r.way0, LINES) && Cleared(r.way1, LINES)
    decreases |ins|
  {
    NextSized(s, ins[0]);
    hide Cleared;
    var n := Next(s, ins[0]);
    ClearNext(s.way0, s.flushAddr, n.way0);
    ClearNext(s.way1, s.flushAddr, n.way1);
    hide WayAfter;
    if s.flushAddr < LINES - 1 {
      FlushEnds(n, ins[1..]);
    } else {
      assert ins[1..] == [] && Run(n, []) == n;
    }
  }

  /** A full flush asked for when no lookup misses leaves both ways empty, one clock a line later. */
  lemma FlushEmptiesWays(s: Regs, i: In, ins: seq<In>)
    requires Sized(s) && StartsFlush(s, i) && !i.invalidate && |ins| == LINES
    ensures var r := Run(s, [i] + ins); r.state == Lookup && Cleared(r.way0, LINES) && Cleared(r.way1, LINES)
  {
    NextSized(s, i);
    var n := Next(s, i);
    NothingCleared(n.way0);
    NothingCleared(n.way1);
    FlushEnds(n, ins);
    assert ([i] + ins)[1..] == ins;
    hide Cleared, WayAfter;
  }

  /** An invalidation empties its line in both ways, and touches no other line. */
  lemma InvalidationEmptiesLine(s: Regs, i: In, j: In)
    requires Sized(s) && StartsFlush(s, i) && i.invalidate && !i.rValid && !j.rValid
    ensures var r, line := Run(s, [i, j]), i.pc.line;
            && r.state == Lookup && r.way0.data == s.way0.data && r.way1.data == s.way1.data
            && r.way0.tags == s.way0.tags[line := NO_TAG] && r.way1.tags == s.way1.tags[line := NO_TAG]
  {
    NextSized(s, i);
    NextSized(Next(s, i), j);
    assert [i, j][1..] == [j] && [j][1..] == [] && Run(Next(Next(s, i), j), []) == Next(Next(s, i), j);
  }

  // ---------------------------------------------------------------------------- Acceptance

  /** A cache that is looking up, with no lookup waiting or the waiting one answered in this clock,
      accepts every read. */
  lemma FreeCacheAccepts(s: Regs, i: In)
    requires s.state == Lookup && (s.lookupValid ==> RespValid(s)) && i.rd
    ensures Taken(s, i)
  {
  }

  // ---------------------------------------------------------------------------- Progress

  /** Clocks before the request is answered, not counting those spent waiting for the bus. */
  function Work(s: Regs): (r: int)
    requires Sized(s)
    ensures r >= 0
  {
    match s.state
    case Lookup => if RespValid(s) then 0 else 20
    case Refill => if s.arValid then 18 else 12 - s.word
    case Relookup => 2
    case Flush => if s.invalidate then 22 else 21 + LINES - s.flushAddr
  }

  predicate Waits(s: Regs, i: In) { s.state == Refill && (if s.arValid then !i.arReady else !i.rValid) }

  lemma WorkShrinks(m: Code, s: Regs, b: Bus, i: In)
    requires Inv(m, s, b) && EnvOk(m, s, b, i) && s.lookupValid && !RespValid(s)
    ensures var n := Next(s, i);
            Sized(n) && n.lookupValid && (if Waits(s, i) then Work(n) == Work(s) else Work(n) < Work(s))
  {
    hide WayTrue, Filled, Cleared;
    NextSized(s, i);
    if s.state == Relookup {
      RelookupHits(m, s, b, i);
    }
    hide WayAfter;
  }

  /** After the refill the lookup hits. */
  lemma RelookupHits(m: Code, s: Regs, b: Bus, i: In)
    requires Inv(m, s, b) && EnvOk(m, s, b, i) && s.state == Relookup
    ensures RespValid(Next(s, i))
  {
    WaysRead(m, s, i, -1, -1);
    hide WayTrue, WayAfter;
  }

  /** The clocks of a run in which the cache does not wait for the bus. */
  function Moving(s: Regs, ins: seq<In>): nat
    requires Sized(s)
    decreases |ins|
  {
    NextSizedAlways(s, ins);
    if ins == [] then 0 else (if Waits(s, ins[0]) then 0 else 1) + Moving(Next(s, ins[0]), ins[1..])
  }

  /** Every accepted request is answered, by one refill at most. */
  lemma {:induction false} EveryRequestIsAnswered(m: Code, s: Regs, b: Bus, ins: seq<In>)
    requires Sized(s) && Inv(m, s, b) && Legal(m, s, b, ins) && s.lookupValid && Moving(s, ins) > Work(s)
    ensures Given(s, ins) != []
    decreases |ins|
  {
    hide Inv, Next, NextBus, EnvOk, Work, Waits, Answer;
    if !RespValid(s) {
      NextSized(s, ins[0]);
      WorkShrinks(m, s, b, ins[0]);
      Step(m, s, b, ins[0]);
      EveryRequestIsAnswered(m, Next(s, ins[0]), NextBus(s, b, ins[0]), ins[1..]);
    }
  }

  /** Why the tag matters to a read accepted with a flush: at the end of the flush the tag outputs
      still show the last emptied line, and the waiting read is answered at once if and only if one
      of them matches, with whatever block the request port then points at. */
  lemma StaleReadIsAnswered(s: Regs, i: In)
    requires Sized(s) && s.state == Flush && s.lookupValid && (s.invalidate || s.flushAddr == LINES - 1)
    ensures RespValid(Next(s, i)) <==> Stale(s)
    ensures var k := 4 * i.pc.line + i.pc.block;
            && (Names(s.way0.tags[s.flushAddr], s.lookup.tag) ==> Answer(Next(s, i)) == s.way0.data[k])
            && (Stale(s) && !Names(s.way0.tags[s.flushAddr], s.lookup.tag) ==> Answer(Next(s, i)) == s.way1.data[k])
  {
    NextSized(s, i);
  }

  // ---------------------------------------------------------------------------- Machine

  /** One way's icache_tag_ram and icache_data_ram: arrays read, then written, in one clock. */
  class WayBlock {
    const tags: array<Tag>
    const data: array<Block>
    var tagOut: Tag
    var dataOut: Block

    ghost predicate Valid() { tags.Length == LINES && data.Length == BLOCKS }

    function View(): Way
      reads this, tags, data
    {
      Way(tags[..], data[..], tagOut, dataOut)
    }

    constructor (t: array<Tag>, d: array<Block>)
      requires t.Length == LINES && d.Length == BLOCKS
      ensures Valid() && tags == t && data == d
    {
      tags, data, tagOut, dataOut := t, d, NO_TAG, Block(0, 0);
    }

    method Clock(tagAddr: nat, tagIn: Tag, tagWrite: bool, dataAddr: nat, dataIn: Block, dataWrite: bool)
      requires Valid() && tagAddr < LINES && dataAddr < BLOCKS
      modifies this, tags, data
      ensures View() == WayNext(old(View()), tagAddr, tagIn, tagWrite, dataAddr, dataIn, dataWrite)
    {
      tagOut, dataOut := tags[tagAddr], data[dataAddr];
      if tagWrite {
        tags[tagAddr] := tagIn;
      }
      if dataWrite {
        data[dataAddr] := dataIn;
      }
    }
  }

  /** icache: registers and RAMs updated in place. */
  class ICacheBlock {
    var state: State
    const way0: WayBlock
    const way1: WayBlock
    var lookupValid: bool
    var lookup: Addr
    var word: nat
    var lower: Word
    var writeAddr: nat
    var flushAddr: nat
    var invalidate: bool
    var replaceWay: bool
    var arValid: bool

    ghost function Repr(): set<object> reads this {
      {this, way0, way1, way0.tags, way1.tags, way0.data, way1.data}
    }

    function View(): Regs reads Repr() {
      Regs(state, way0.View(), way1.View(), lookupValid, lookup, word, lower, writeAddr, flushAddr, invalidate, replaceWay, arValid)
    }

    ghost predicate Valid() reads Repr() {
      && way0 != way1 && way0.tags != way1.tags && way0.data != way1.data
      && way0.Valid() && way1.Valid() && Sized(View())
    }

    /** The state the reset input leaves; the RAMs keep whatever they contain. */
    constructor (w0: WayBlock, w1: WayBlock)
      requires w0 != w1 && w0.tags != w1.tags && w0.data != w1.data && w0.Valid() && w1.Valid()
      ensures Valid() && FlushStarts(View())
    {
      state, way0, way1 := Flush, w0, w1;
      lookupValid, lookup, word, lower, writeAddr, flushAddr := false, Addr(0, 0, 0), 0, 0, 0, 0;
      invalidate, replaceWay, arValid := false, false, false;
    }

    /** Clocks the RAMs of both ways. */
    method ClockWays(w: Wires)
      requires way0 != way1 && way0.tags != way1.tags && way0.data != way1.data && way0.Valid() && way1.Valid()
      requires w.tagAddr < LINES && w.dataAddr < BLOCKS
      modifies way0, way1, way0.tags, way1.tags, way0.data, way1.data
      ensures way0.View() == WayNext(old(way0.View()), w.tagAddr, w.tagIn, w.tag0, w.dataAddr, w.dataIn, w.data0)
      ensures way1.View() == WayNext(old(way1.View()), w.tagAddr, w.tagIn, w.tag1, w.dataAddr, w.dataIn, w.data1)
      ensures way0.Valid() && way1.Valid()
    {
      hide WayNext;
      way0.Clock(w.tagAddr, w.tagIn, w.tag0, w.dataAddr, w.dataIn, w.data0);
      way1.Clock(w.tagAddr, w.tagIn, w.tag1, w.dataAddr, w.dataIn, w.data1);
    }

    /** The refill counters. */
    method ClockRefill(i: In, w: Wires, ghost s: Regs, ghost n: Regs)
      requires Registers(s) && RefillFollows(s, i, w, n)
      modifies this`word, this`lower, this`writeAddr, this`replaceWay
      ensures writeAddr == n.writeAddr && lower == n.lower && word == n.word && replaceWay == n.replaceWay
    {
      if w.misses {
        writeAddr := 4 * lookup.line;
      } else if state == Refill && i.rValid && word % 2 == 1 {
        writeAddr := (writeAddr + 1) % 1024;
      }
      if i.rValid {
        lower, word := i.rData, (word + 1) % 8;
        if i.rLast {
          word, replaceWay := 0, !replaceWay;
        }
      }
    }

    /** The lookup and control registers. */
    method ClockControl(i: In, w: Wires, ghost s: Regs, ghost n: Regs)
      requires lookupValid == s.lookupValid && lookup == s.lookup && ControlFollows(s, i, w, n)
      modifies this`state, this`lookupValid, this`lookup, this`arValid, this`flushAddr, this`invalidate
      ensures state == n.state && lookupValid == n.lookupValid && lookup == n.lookup
      ensures arValid == n.arValid && flushAddr == n.flushAddr && invalidate == n.invalidate
    {
      if w.taken {
        lookupValid, lookup := true, i.pc;
      } else if w.valid {
        lookupValid := false;
      }
      state, arValid, flushAddr, invalidate := w.next, w.arValid, w.flushAddr, w.invalidate;
    }

    /** `n` has this cache's registers. */
    ghost predicate Registers(n: Regs) reads this {
      && n.state == state && n.lookupValid == lookupValid && n.lookup == lookup && n.word == word && n.lower == lower
      && n.writeAddr == writeAddr && n.flushAddr == flushAddr && n.invalidate == invalidate
      && n.replaceWay == replaceWay && n.arValid == arValid
    }

    /** One rising clock edge. */
    method Clock(i: In)
      requires Valid()
      modifies Repr()
      ensures View() == Next(old(View()), i) && Valid()
    {
      ghost var s := View();
      NextSized(s, i);
      NextOfWires(s, i);
      var w := WiresOf(View(), i);
      ghost var n := Next(s, i);
      NextRegisters(s, i);
      hide WiresOf, Next, WayNext, Sized, RefillFollows, ControlFollows;
      ClockWays(w);
      assert way0.View() == n.way0 && way1.View() == n.way1;
      ClockRefill(i, w, s, n);
      ClockControl(i, w, s, n);
    }
  }

  /** The signals that the registers and RAMs take at the end of a clock. */
  datatype Wires = Wires(
    next: State, taken: bool, valid: bool, misses: bool, arValid: bool, flushAddr: nat, invalidate: bool,
    tagAddr: nat, tagIn: Tag, tag0: bool, tag1: bool, dataAddr: nat, dataIn: Block, data0: bool, data1: bool)

  function WiresOf(s: Regs, i: In): Wires {
    Wires(NextState(s, i), Taken(s, i), RespValid(s), Misses(s, i), ArOut(s, i) && !i.arReady, NextFlushAddr(s, i),
          i.invalidate && Accept(s, i),
          TagAddr(s, i), TagIn(s), TagWrite(s, i, false), TagWrite(s, i, true),
          DataAddr(s, i), Block(s.lower, i.rData), i.rValid && !s.replaceWay, i.rValid && s.replaceWay)
  }

  lemma NextOfWires(s: Regs, i: In)
    requires Sized(s)
    ensures var w := WiresOf(s, i);
            && w.tagAddr < LINES && w.dataAddr < BLOCKS
            && Next(s, i) ==
               Regs(w.next,
                    WayNext(s.way0, w.tagAddr, w.tagIn, w.tag0, w.dataAddr, w.dataIn, w.data0),
                    WayNext(s.way1, w.tagAddr, w.tagIn, w.tag1, w.dataAddr, w.dataIn, w.data1),
                    if w.taken then true else if w.valid then false else s.lookupValid,
                    if w.taken then i.pc else s.lookup,
                    if i.rValid && i.rLast then 0 else if i.rValid then (s.word + 1) % 8 else s.word,
                    if i.rValid then i.rData else s.lower,
                    if w.misses then 4 * s.lookup.line
                    else if s.state == Refill && i.rValid && s.word % 2 == 1 then (s.writeAddr + 1) % 1024 else s.writeAddr,
                    w.flushAddr, w.invalidate,
                    if i.rValid && i.rLast then !s.replaceWay else s.replaceWay, w.arValid)
  {
    hide NextState, Taken, RespValid, Misses, ArOut, NextFlushAddr, TagIn, TagWrite, Accept, WayNext;
  }

  /** The registers after a clock, from its signals. */
  predicate ControlFollows(s: Regs, i: In, w: Wires, n: Regs) {
    && n.state == w.next && n.flushAddr == w.flushAddr && n.invalidate == w.invalidate && n.arValid == w.arValid
    && n.lookupValid == (if w.taken then true else if w.valid then false else s.lookupValid)
    && n.lookup == (if w.taken then i.pc else s.lookup)
  }

  predicate RefillFollows(s: Regs, i: In, w: Wires, n: Regs) {
    && n.word == (if i.rValid && i.rLast then 0 else if i.rValid then (s.word + 1) % 8 else s.word)
    && n.lower == (if i.rValid then i.rData else s.lower)
    && n.writeAddr == (if w.misses then 4 * s.lookup.line
                       else if s.state == Refill && i.rValid && s.word % 2 == 1 then (s.writeAddr + 1) % 1024
                       else s.writeAddr)
    && n.replaceWay == (if i.rValid && i.rLast then !s.replaceWay else s.replaceWay)
  }

  lemma NextRegisters(s: Regs, i: In)
    requires Sized(s)
    ensures var w, n := WiresOf(s, i), Next(s, i); ControlFollows(s, i, w, n) && RefillFollows(s, i, w, n)
  {
    NextOfWires(s, i);
    hide WiresOf, Next, WayNext;
  }
}
