/** The program counter of the issue stage and the fetch FIFO in front of it: whatever the branch
    predictor guesses, the instructions that issue are those of sequential execution. */
module FetchPc {
  import opened Branches
  import opened Seqs

  /** The program: what the word at an address means. */
  type Code = Word -> Flow

  // ---------------------------------------------------------------------------- Fetch FIFO

  /** A fetched block of two words at an eight-byte aligned address, and which of them are still to
      be taken. The second word of a block predicted taken at its first is never valid. */
  datatype Entry = Entry(pc: Word, valid0: bool, valid1: bool, word0: Flow, word1: Flow)

  const DEPTH := 2

  /** One clock of the FIFO's inputs from the fetch side. */
  datatype Push = NoPush | Push(pc: Word, first: bool, word0: Flow, word1: Flow)

  function EntryOf(p: Push): Entry
    requires p.Push?
  {
    Entry(p.pc - p.pc % 8, true, !p.first, p.word0, p.word1)
  }

  /** A clock: the head loses the words that are popped and goes when both are gone. */
  function FifoNext(q: seq<Entry>, flush: bool, p: Push, pop0: bool, pop1: bool): (r: seq<Entry>)
    ensures |q| <= DEPTH ==> |r| <= DEPTH
  {
    if flush then []
    else
      var rest :=
        if q == [] then []
        else
          var h := q[0];
          var n := h.(valid0 := h.valid0 && !pop0, valid1 := h.valid1 && !pop1);
          // the head goes on the pop that takes its last word
          if (pop0 && h.valid0 && !h.valid1) || (pop1 && h.valid1 && !h.valid0) || (pop0 && h.valid0 && pop1 && h.valid1)
          then q[1..] else [n] + q[1..];
      rest + if p.Push? && |q| < DEPTH then [EntryOf(p)] else []
  }

  /** The addresses of the words an entry still holds, and those of a queue. */
  function HeadWords(e: Entry): seq<int> {
    (if e.valid0 then [e.pc] else []) + (if e.valid1 then [e.pc + 4] else [])
  }

  function WordsIn(q: seq<Entry>): seq<int>
    decreases |q|
  {
    if q == [] then [] else HeadWords(q[0]) + WordsIn(q[1..])
  }

  lemma {:induction false} WordsConcat(xs: seq<Entry>, ys: seq<Entry>)
    ensures WordsIn(xs + ys) == WordsIn(xs) + WordsIn(ys)
    decreases |xs|
  {
    hide HeadWords;
    if xs == [] {
      assert xs + ys == ys;
    } else {
      assert (xs + ys)[1..] == xs[1..] + ys && (xs + ys)[0] == xs[0];
      WordsConcat(xs[1..], ys);
      Assoc(HeadWords(xs[0]), WordsIn(xs[1..]), WordsIn(ys));
    }
  }

  lemma OneEntry(e: Entry, q: seq<Entry>)
    ensures WordsIn([e] + q) == HeadWords(e) + WordsIn(q) && WordsIn([e]) == HeadWords(e)
  {
    assert ([e] + q)[1..] == q && [e][1..] == [] && HeadWords(e) + [] == HeadWords(e);
  }

  /** The FIFO loses no word and repeats none: exactly the popped words of the head leave, the rest
      stay in order, and a pushed block follows them. */
  lemma FifoConserves(q: seq<Entry>, p: Push, pop0: bool, pop1: bool)
    requires forall e <- q :: e.valid0 || e.valid1
    ensures WordsIn(FifoNext(q, false, p, pop0, pop1)) ==
            (if q == [] then []
             else HeadWords(q[0].(valid0 := q[0].valid0 && !pop0, valid1 := q[0].valid1 && !pop1)) + WordsIn(q[1..]))
            + (if p.Push? && |q| < DEPTH then HeadWords(EntryOf(p)) else [])
  {
    var next := FifoNext(q, false, p, pop0, pop1);
    var tail: seq<Entry> := if p.Push? && |q| < DEPTH then [EntryOf(p)] else [];
    if tail != [] { OneEntry(EntryOf(p), []); }
    if q == [] {
      WordsConcat([], tail);
      assert next == [] + tail;
    } else {
      var h := q[0];
      assert h in q;
      var n := h.(valid0 := h.valid0 && !pop0, valid1 := h.valid1 && !pop1);
      var rest := if n.valid0 || n.valid1 then [n] + q[1..] else q[1..];
      assert next == rest + tail;
      OneEntry(n, q[1..]);
      WordsConcat(rest, tail);
      assert [] + WordsIn(q[1..]) == WordsIn(q[1..]);
    }
  }

  // ---------------------------------------------------------------------------- Issue

  /** The counter and the FIFO. */
  datatype Regs = Regs(pc: Word, fifo: seq<Entry>)

  /** One clock: a redirect from the CSR unit, the squash that keeps both slots empty, what the
      scheduler lets issue, the operands of the two slots, and the fetch side. */
  datatype In = In(
    redirect: bool, target: Word, squash: bool, goA: bool, goB: bool, a: Word, b: Word, c: Word, d: Word, push: Push)

  predicate Valid0(s: Regs) { s.fifo != [] && s.fifo[0].valid0 }

  predicate Valid1(s: Regs) { s.fifo != [] && s.fifo[0].valid1 }

  /** Addresses are compared without their two lowest bits. */
  predicate SameWord(x: Word, y: Word) { x / 4 == y / 4 }

  predicate Slot0(s: Regs, i: In) {
    !i.redirect && !i.squash && Valid0(s) && SameWord(s.fifo[0].pc, s.pc)
  }

  predicate Slot1(s: Regs, i: In) {
    !i.redirect && !i.squash && !Slot0(s, i) && Valid1(s) && SameWord(Wrap(s.fifo[0].pc + 4), s.pc)
  }

  predicate Mispredicted(s: Regs, i: In) {
    !i.redirect && !i.squash && !Slot0(s, i) && !Slot1(s, i) && (Valid0(s) || Valid1(s))
  }

  predicate IssueA(s: Regs, i: In) { (Slot0(s, i) || Slot1(s, i)) && i.goA }

  /** The second slot is the second word behind a first one that is not a branch. */
  predicate IssueB(s: Regs, i: In) {
    Slot0(s, i) && i.goA && i.goB && Valid1(s) && s.fifo[0].word0.Straight?
  }

  function PcA(s: Regs, i: In): Word
    requires s.fifo != []
  {
    if Slot0(s, i) then s.fifo[0].pc else Wrap(s.fifo[0].pc + 4)
  }

  function WordA(s: Regs, i: In): Flow
    requires s.fifo != []
  {
    if Slot0(s, i) then s.fifo[0].word0 else s.fifo[0].word1
  }

  /** The words taken from the head of the FIFO. The first is dropped when the second is the one expected. */
  predicate Pop0(s: Regs, i: In) { (Slot0(s, i) && IssueA(s, i)) || Slot1(s, i) }

  predicate Pop1(s: Regs, i: In) { (Slot1(s, i) && IssueA(s, i)) || IssueB(s, i) }

  /** One rising clock edge; a taken branch in the second slot goes before one in the first. */
  function Next(s: Regs, i: In): Regs {
    var pc :=
      if i.redirect then i.target
      else if IssueB(s, i) && Taken(s.fifo[0].word1, i.c, i.d) then Target(s.fifo[0].word1, Wrap(s.fifo[0].pc + 4), i.c)
      else if IssueA(s, i) && Taken(WordA(s, i), i.a, i.b) then Target(WordA(s, i), PcA(s, i), i.a)
      else if IssueB(s, i) then Wrap(s.pc + 8)
      else if IssueA(s, i) then Wrap(s.pc + 4)
      else s.pc;
    Regs(pc, FifoNext(s.fifo, i.redirect || Mispredicted(s, i), i.push,
                      Pop0(s, i), Pop1(s, i)))
  }

  // ---------------------------------------------------------------------------- Sequential execution

  /** What happens to the program counter: an instruction issues with its operands, or a redirect. */
  datatype Event = Issue(pc: Word, flow: Flow, a: Word, b: Word) | Redirect(pc: Word)

  /** The address that sequential execution goes to next. */
  function After(e: Event): Word {
    match e
    case Redirect(pc) => pc
    case Issue(pc, f, a, b) => if MustTake(f, a, b) then MustGoTo(f, pc, a) else Reduced(pc + 4)
  }

  /** Every instruction is the program's, at the address that the one before it leads to. */
  predicate Sequential(code: Code, pc: Word, es: seq<Event>)
    decreases |es|
  {
    es == [] ||
    ((es[0].Issue? ==> es[0].pc == pc && es[0].flow == code(pc)) && Sequential(code, After(es[0]), es[1..]))
  }

  /** The address after a list of events. */
  function PcAfter(pc: Word, es: seq<Event>): Word
    decreases |es|
  {
    if es == [] then pc else PcAfter(After(es[0]), es[1..])
  }

  /** The events of one clock. */
  function Events(s: Regs, i: In): seq<Event> {
    if i.redirect then [Redirect(i.target)]
    else if IssueB(s, i) then
      [Issue(PcA(s, i), WordA(s, i), i.a, i.b), Issue(Wrap(s.fifo[0].pc + 4), s.fifo[0].word1, i.c, i.d)]
    else if IssueA(s, i) then [Issue(PcA(s, i), WordA(s, i), i.a, i.b)]
    else []
  }

  // ---------------------------------------------------------------------------- Invariant

  /** Every queued block is the program's, and has a word left to take. */
  predicate Matches(code: Code, q: seq<Entry>) {
    |q| <= DEPTH &&
    forall e <- q :: e.pc % 8 == 0 && e.word0 == code(e.pc) && e.word1 == code(e.pc + 4) && (e.valid0 || e.valid1)
  }

  /** The words of a fetched block are those of the eight aligned bytes around its address. */
  predicate Fetched(code: Code, p: Push)
    requires p.Push?
  {
    var base := 8 * (p.pc / 8);
    p.word0 == code(base) && p.word1 == code(base + 4)
  }

  /** Fetched blocks carry the words at their addresses, whatever was predicted; redirects and taken
      branches go to four-byte aligned addresses. */
  predicate EnvOk(code: Code, s: Regs, i: In) {
    && (i.push.Push? ==> Fetched(code, i.push))
    && (forall e <- Events(s, i) :: After(e) % 4 == 0)
  }

  predicate Inv(code: Code, s: Regs) { s.pc % 4 == 0 && Matches(code, s.fifo) }

  lemma FifoMatches(code: Code, q: seq<Entry>, flush: bool, p: Push, pop0: bool, pop1: bool)
    requires Matches(code, q)
    requires p.Push? ==> Fetched(code, p)
    ensures Matches(code, FifoNext(q, flush, p, pop0, pop1))
  {
    if q != [] { assert q[0] in q; }
    assert forall e <- q[if q == [] then 0 else 1..] :: e in q;
  }

  /** A clock issues the next instructions of sequential execution, and the counter follows them. */
  lemma Step(code: Code, s: Regs, i: In)
    requires Inv(code, s) && EnvOk(code, s, i)
    ensures Inv(code, Next(s, i))
    ensures Sequential(code, s.pc, Events(s, i)) && PcAfter(s.pc, Events(s, i)) == Next(s, i).pc
  {
    hide FifoNext;
    FifoMatches(code, s.fifo, i.redirect || Mispredicted(s, i), i.push, Pop0(s, i), Pop1(s, i));
    StepEvents(code, s, i);
  }

  /** A slot that is valid holds the program's word at the counter. */
  lemma SlotIsNext(code: Code, s: Regs, i: In)
    requires Inv(code, s)
    ensures Slot0(s, i) || Slot1(s, i) ==> PcA(s, i) == s.pc && WordA(s, i) == code(s.pc)
    ensures Slot0(s, i) ==> Wrap(s.fifo[0].pc + 4) == Wrap(s.pc + 4) && s.fifo[0].word1 == code(Wrap(s.pc + 4))
  {
    if s.fifo != [] {
      var h := s.fifo[0];
      assert h in s.fifo;
      BlockFits(h.pc);
      SameAligned(h.pc, s.pc);
      SameAligned(h.pc + 4, s.pc);
    }
  }

  lemma BlockFits(pc: Word)
    requires pc % 8 == 0
    ensures pc % 4 == 0 && (pc + 4) % 4 == 0 && pc + 4 < 0x1_0000_0000 && Wrap(pc + 4) == pc + 4
  {
    var k := pc / 8;
    assert pc == 4 * (2 * k) && pc + 4 == 4 * (2 * k + 1);
  }

  lemma SameAligned(x: int, y: int)
    requires x % 4 == 0 && y % 4 == 0
    ensures x / 4 == y / 4 ==> x == y
  {
  }

  /** The unit's decision and target lead where the instruction set says. */
  lemma UnitFollows(f: Flow, pc: Word, a: Word, b: Word)
    ensures After(Issue(pc, f, a, b)) == if Taken(f, a, b) then Target(f, pc, a) else Wrap(pc + 4)
  {
    hide Taken, MustTake, Target, MustGoTo, Wrap, Reduced;
    TakenIsMustTake(f, a, b);
    TargetIsMustGoTo(f, pc, a);
    WrapIsReduced(pc as int + 4);
  }

  /** The counter after a clock in which one instruction issues. */
  lemma StepOne(code: Code, s: Regs, i: In)
    requires Inv(code, s) && IssueA(s, i) && !IssueB(s, i) && !i.redirect
    ensures Events(s, i) == [Issue(s.pc, code(s.pc), i.a, i.b)]
    ensures Next(s, i).pc == After(Issue(s.pc, code(s.pc), i.a, i.b))
  {
    hide FifoNext, Taken, Target, Matches, SameWord, Wrap, After, Mispredicted;
    SlotIsNext(code, s, i);
    UnitFollows(code(s.pc), s.pc, i.a, i.b);
  }

  /** The counter after a clock in which a pair issues: the first of them is not a branch. */
  lemma StepTwo(code: Code, s: Regs, i: In)
    requires Inv(code, s) && IssueB(s, i) && !i.redirect
    ensures var second := Wrap(s.pc + 4);
            && Events(s, i) == [Issue(s.pc, code(s.pc), i.a, i.b), Issue(second, code(second), i.c, i.d)]
            && After(Issue(s.pc, code(s.pc), i.a, i.b)) == second
            && Next(s, i).pc == After(Issue(second, code(second), i.c, i.d))
  {
    hide Next, Taken, Target, Matches, SameWord, Wrap, After;
    var second := Wrap(s.pc + 4);
    SlotIsNext(code, s, i);
    StraightIsNotTaken(s.fifo[0].word0, i.a, i.b);
    NextOfPair(s, i);
    UnitFollows(code(s.pc), s.pc, i.a, i.b);
    UnitFollows(code(second), second, i.c, i.d);
    TwoWords(s.pc);
  }

  /** The counter after a pair, from the head of the FIFO. */
  lemma NextOfPair(s: Regs, i: In)
    requires IssueB(s, i) && !i.redirect && !Taken(s.fifo[0].word0, i.a, i.b)
    ensures var h := s.fifo[0];
            Next(s, i).pc == if Taken(h.word1, i.c, i.d) then Target(h.word1, Wrap(h.pc + 4), i.c) else Wrap(s.pc + 8)
  {
    hide FifoNext, Taken, Target, SameWord, Wrap, Mispredicted;
  }

  lemma StraightIsNotTaken(f: Flow, a: Word, b: Word)
    ensures f.Straight? ==> !Taken(f, a, b)
  {
  }

  lemma WrapIsReduced(x: int)
    ensures Wrap(x) == Reduced(x)
  {
    WrapCongruent(x);
    CongruentWords(Wrap(x), Reduced(x), x);
  }

  lemma StepEvents(code: Code, s: Regs, i: In)
    requires Inv(code, s) && EnvOk(code, s, i)
    ensures Sequential(code, s.pc, Events(s, i)) && PcAfter(s.pc, Events(s, i)) == Next(s, i).pc
    ensures Next(s, i).pc % 4 == 0
  {
    var es := Events(s, i);
    if i.redirect {
      OneEvent(code, s.pc, es[0]);
    } else if IssueB(s, i) {
      StepTwo(code, s, i);
      TwoEvents(code, s.pc, es[0], es[1]);
      assert es[1] in es;
    } else if IssueA(s, i) {
      StepOne(code, s, i);
      OneEvent(code, s.pc, es[0]);
    }
    hide FifoNext, IssueA, IssueB, After, Sequential, PcAfter, Fetched, Matches;
    if es != [] { assert es[0] in es; }
  }

  lemma TwoWords(pc: Word)
    ensures Wrap(Wrap(pc + 4) + 4) == Wrap(pc + 8)
  {
    assert Wrap(pc + 4) == if pc + 4 < 0x1_0000_0000 then pc + 4 else pc + 4 - 0x1_0000_0000;
  }

  lemma OneEvent(code: Code, pc: Word, e: Event)
    ensures Sequential(code, pc, [e]) == (e.Issue? ==> e.pc == pc && e.flow == code(pc)) && PcAfter(pc, [e]) == After(e)
  {
    assert [e][1..] == [];
  }

  lemma TwoEvents(code: Code, pc: Word, e: Event, f: Event)
    ensures Sequential(code, pc, [e, f]) ==
            ((e.Issue? ==> e.pc == pc && e.flow == code(pc)) && (f.Issue? ==> f.pc == After(e) && f.flow == code(After(e))))
    ensures PcAfter(pc, [e, f]) == After(f)
  {
    assert [e, f][1..] == [f];
    OneEvent(code, After(e), f);
  }

  // ---------------------------------------------------------------------------- Runs

  function Run(s: Regs, ins: seq<In>): Regs
    decreases |ins|
  {
    if ins == [] then s else Run(Next(s, ins[0]), ins[1..])
  }

  predicate Legal(code: Code, s: Regs, ins: seq<In>)
    decreases |ins|
  {
    ins == [] || (EnvOk(code, s, ins[0]) && Legal(code, Next(s, ins[0]), ins[1..]))
  }

  function History(s: Regs, ins: seq<In>): seq<Event>
    decreases |ins|
  {
    if ins == [] then [] else Events(s, ins[0]) + History(Next(s, ins[0]), ins[1..])
  }

  lemma {:induction false} SequentialConcat(code: Code, pc: Word, xs: seq<Event>, ys: seq<Event>)
    ensures Sequential(code, pc, xs + ys) <==> Sequential(code, pc, xs) && Sequential(code, PcAfter(pc, xs), ys)
    ensures PcAfter(pc, xs + ys) == PcAfter(PcAfter(pc, xs), ys)
    decreases |xs|
  {
    if xs == [] {
      assert xs + ys == ys;
    } else {
      assert (xs + ys)[1..] == xs[1..] + ys && (xs + ys)[0] == xs[0];
      SequentialConcat(code, After(xs[0]), xs[1..], ys);
    }
  }

  /** Prediction never changes the program: from any aligned address, for every sequence of fetched
      and predicted blocks, squashes, redirects and issue decisions, the issued instructions are the
      program's, at exactly the addresses of sequential execution, pairs included. */
  lemma {:induction false} IssuesSequentialProgram(code: Code, s: Regs, ins: seq<In>)
    requires Inv(code, s) && Legal(code, s, ins)
    ensures Sequential(code, s.pc, History(s, ins)) && PcAfter(s.pc, History(s, ins)) == Run(s, ins).pc
    decreases |ins|
  {
    hide Inv, EnvOk, Next, Events;
    if ins != [] {
      Step(code, s, ins[0]);
      IssuesSequentialProgram(code, Next(s, ins[0]), ins[1..]);
      SequentialConcat(code, s.pc, Events(s, ins[0]), History(Next(s, ins[0]), ins[1..]));
    }
  }

  /** The issue stage never starves on stale words: with a queued block, either a word of it is the
      expected one or the front end is told to fetch again from the counter. */
  lemma NoStaleBlock(code: Code, s: Regs, i: In)
    requires Inv(code, s) && s.fifo != [] && !i.redirect && !i.squash
    ensures Slot0(s, i) || Slot1(s, i) || Mispredicted(s, i)
    ensures Mispredicted(s, i) ==> Next(s, i).fifo == [] && Next(s, i).pc == s.pc
  {
    assert s.fifo[0] in s.fifo;
    hide FifoNext;
    Flushes(s.fifo, i.push, Pop0(s, i), Pop1(s, i));
  }

  /** What the scheduler lets go is issued: the word at the counter, and with it the next one if it is in
      the same block behind an instruction that is not a branch. */
  lemma AllowedWordsIssue(code: Code, s: Regs, i: In)
    requires Inv(code, s) && s.fifo != [] && !i.redirect && !i.squash && !Mispredicted(s, i) && i.goA
    ensures Events(s, i) != [] && Events(s, i)[0] == Issue(s.pc, code(s.pc), i.a, i.b)
    ensures i.goB && s.pc % 8 == 0 && Valid1(s) && code(s.pc).Straight? ==>
              Events(s, i) == [Issue(s.pc, code(s.pc), i.a, i.b), Issue(s.pc + 4, code(s.pc + 4), i.c, i.d)]
  {
    SlotIsNext(code, s, i);
    assert s.fifo[0] in s.fifo;
    hide FifoNext;
    if s.pc % 8 == 0 { BlockFits(s.pc); }
  }

  /** The words that issue leave the FIFO, with an unwanted first word of the block before them, and no
      others; a fetched block joins the end. */
  lemma IssuedWordsLeave(code: Code, s: Regs, i: In)
    requires Inv(code, s) && !i.redirect && !Mispredicted(s, i)
    ensures var gone := |Events(s, i)| + (if Slot1(s, i) && Valid0(s) then 1 else 0);
            && gone <= |WordsIn(s.fifo)|
            && WordsIn(Next(s, i).fifo) == WordsIn(s.fifo)[gone..]
                                           + (if i.push.Push? && |s.fifo| < DEPTH then HeadWords(EntryOf(i.push)) else [])
  {
    NextFifo(s, i);
    FifoConserves(s.fifo, i.push, Pop0(s, i), Pop1(s, i));
    hide FifoNext, Next, EntryOf;
    if s.fifo != [] {
      var h := s.fifo[0];
      var n := h.(valid0 := h.valid0 && !Pop0(s, i), valid1 := h.valid1 && !Pop1(s, i));
      PopsIssued(code, s, i);
      hide Slot0, Slot1, IssueA, IssueB, Pop0, Pop1, Events, Matches;
      DropsWords(h, n, WordsIn(s.fifo[1..]));
    }
  }

  lemma NextFifo(s: Regs, i: In)
    requires !i.redirect && !Mispredicted(s, i)
    ensures Next(s, i).fifo == FifoNext(s.fifo, false, i.push, Pop0(s, i), Pop1(s, i))
  {
    hide FifoNext, Taken, MustTake, Target, Pop0, Pop1, IssueA, IssueB;
  }

  /** The head loses as many words as issue, and the unwanted first one. */
  lemma PopsIssued(code: Code, s: Regs, i: In)
    requires Inv(code, s) && !i.redirect && s.fifo != []
    ensures var h := s.fifo[0];
            var n := h.(valid0 := h.valid0 && !Pop0(s, i), valid1 := h.valid1 && !Pop1(s, i));
            && |HeadWords(h)| - |HeadWords(n)| == |Events(s, i)| + (if Slot1(s, i) && Valid0(s) then 1 else 0)
            && (h.valid0 && h.valid1 && !n.valid1 ==> !n.valid0)
  {
    hide SameWord;
  }

  lemma DropsWords(h: Entry, n: Entry, rest: seq<int>)
    requires n == h.(valid0 := n.valid0, valid1 := n.valid1) && (n.valid0 ==> h.valid0) && (n.valid1 ==> h.valid1)
    requires h.valid0 && !n.valid1 && h.valid1 ==> !n.valid0
    ensures |HeadWords(n)| <= |HeadWords(h)|
    ensures HeadWords(n) + rest == (HeadWords(h) + rest)[|HeadWords(h)| - |HeadWords(n)|..]
  {
  }

  lemma Flushes(q: seq<Entry>, p: Push, pop0: bool, pop1: bool)
    ensures FifoNext(q, true, p, pop0, pop1) == []
  {
  }

  // ---------------------------------------------------------------------------- Machine

  /** fetch_fifo: a ring of two blocks, with the valid bits of their words updated in place. A flush
      moves the pointers and leaves the blocks. */
  class FetchFifo {
    const ram: array<Entry>
    var rd: nat
    var wr: nat
    var count: nat

    ghost predicate Valid() reads this {
      ram.Length == 2 && rd < 2 && wr < 2 && count <= 2 && wr == (rd + count) % 2
    }

    function Contents(): (q: seq<Entry>)
      requires Valid()
      reads this, ram
    {
      if count == 0 then [] else if count == 1 then [ram[rd]] else [ram[rd], ram[1 - rd]]
    }

    constructor (storage: array<Entry>)
      requires storage.Length == 2
      ensures Valid() && ram == storage && Contents() == []
    {
      ram := storage;
      rd, wr, count := 0, 0, 0;
    }

    /** Clears the valid bits of the head's popped words, and tells whether the head is used up. */
    method Pop(pop0: bool, pop1: bool) returns (done: bool)
      requires Valid() && count > 0
      modifies ram
      ensures ram[1 - rd] == old(ram[1 - rd])
      ensures var h := old(ram[rd]);
              && ram[rd] == h.(valid0 := h.valid0 && !pop0, valid1 := h.valid1 && !pop1)
              && done == ((pop0 && h.valid0 && !h.valid1) || (pop1 && h.valid1 && !h.valid0) || (pop0 && h.valid0 && pop1 && h.valid1))
    {
      var h := ram[rd];
      var pop0w, pop1w := pop0 && h.valid0, pop1 && h.valid1;
      done := (pop0w && !h.valid1) || (pop1w && !h.valid0) || (pop0w && pop1w);
      if pop0w { ram[rd] := ram[rd].(valid0 := false); }
      if pop1w { ram[rd] := ram[rd].(valid1 := false); }
    }

    method Clock(flush: bool, p: Push, pop0: bool, pop1: bool)
      requires Valid()
      modifies this, ram
      ensures Valid() && Contents() == FifoNext(old(Contents()), flush, p, pop0, pop1)
    {
      if flush {
        count, rd, wr := 0, 0, 0;
        return;
      }
      var pushed := p.Push? && count != 2;
      var done := false;
      if count != 0 {
        done := Pop(pop0, pop1);
      }
      if pushed {
        ram[wr] := EntryOf(p);
        wr := (wr + 1) % 2;
      }
      if done {
        rd := (rd + 1) % 2;
      }
      if pushed && !done {
        count := count + 1;
      } else if !pushed && done {
        count := count - 1;
      }
    }
  }
}
