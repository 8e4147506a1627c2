/** The invariant survives every clock, state by state. */
module DCacheSteps {
  import opened Words
  import opened DCacheCore
  import opened DCacheStore
  import opened DCacheInvariant

  ghost predicate Good(c: Core, e: Env, f: Mem, i: In) {
    Inv(c, e, f) && OneRequest(i) && Answers(e, i)
  }

  /** With the request kept, a step that keeps the view keeps the flat memory represented. */
  lemma Carry(c: Core, c': Core, m: Mem, m': Mem, f: Mem)
    requires Sized(c) && Sized(c') && Represents(c, m, f)
    requires SameView(InUse(c), m, InUse(c'), m')
    requires (c'.m.addr, c'.m.data, c'.m.wr) == (c.m.addr, c.m.data, c.m.wr)
    ensures Represents(c', m', f)
  {
    forall a: Addr ensures Rd(f, Index(a)) == Pending(c', a, View(InUse(c'), m', a)) {
      assert View(InUse(c'), m', a) == View(InUse(c), m, a);
    }
  }

  lemma Compose(s: Store, m: Mem, s1: Store, m1: Mem, s2: Store, m2: Mem)
    requires Shaped(s) && Shaped(s1) && Shaped(s2) && SameView(s, m, s1, m1) && SameView(s1, m1, s2, m2)
    ensures SameView(s, m, s2, m2)
  {
    forall a: Addr ensures View(s2, m2, a) == View(s, m, a) {
      assert View(s1, m1, a) == View(s, m, a);
    }
  }

  lemma StepReset(c: Core, e: Env, f: Mem, i: In)
    requires Good(c, e, f, i) && c.state == Reset
    ensures Inv(Next(c, i), EnvNext(c, e, i), FlatNext(c, f, i))
  {
    var c' := Next(c, i);
    NextSized(c, i);
    assert StateFits(c', e);
    if c'.state == Lookup {
      forall w: bool, a: Addr ensures !Holds(Rams(c'), w, a) {}
    }
  }

  lemma StepFlushAddr(c: Core, e: Env, f: Mem, i: In)
    requires Good(c, e, f, i) && c.state == FlushAddr
    ensures Inv(Next(c, i), EnvNext(c, e, i), FlatNext(c, f, i))
  {
    var c' := Next(c, i);
    NextSized(c, i);
    assert Rams(c') == Rams(c);
    Carry(c, c', e.mem, e.mem, f);
  }

  lemma StepRead(c: Core, e: Env, f: Mem, i: In)
    requires Good(c, e, f, i) && c.state == Read
    ensures Inv(Next(c, i), EnvNext(c, e, i), FlatNext(c, f, i))
  {
    var c' := Next(c, i);
    NextSized(c, i);
    assert Rams(c') == Rams(c);
    Carry(c, c', e.mem, e.mem, f);
  }

  /** The registers when a line writeback has looked its line up. */
  lemma WritebackClock(c: Core, e: Env, i: In)
    requires Sized(c) && c.state == Writeback && Quiet(c, e) && !i.ack && !c.flushing && TagsRead(c, c.m.addr.line)
    requires RequestFits(c)
    ensures var c' := Next(c, i);
            && Sized(c') && Rams(c') == Rams(c) && EnvNext(c, e, i) == e && c'.m == c.m && !c'.flushing && !Accept(c, i)
            && (if HitAndDirty(c) then
                  && c'.state == Evict && c'.replaceWay == !Hit0(c) && TagsRead(c', c.m.addr.line) && !c'.pmemRd
                  && EvictDone(c') == 0 && EvictBeats(c', e, 0)
                else c'.state == Lookup && Quiet(c', e))
  {
    NextSized(c, i);
  }

  lemma StepWriteback(c: Core, e: Env, f: Mem, i: In)
    requires Good(c, e, f, i) && c.state == Writeback
    ensures Inv(Next(c, i), EnvNext(c, e, i), FlatNext(c, f, i))
  {
    var c' := Next(c, i);
    WritebackClock(c, e, i);
    hide Next, EnvNext, EvictBeats, NextState, EvictWay;
    Carry(c, c', e.mem, e.mem, f);
    if HitAndDirty(c) {
      assert !(Holds(InUse(c), false, c.m.addr) && Holds(InUse(c), true, c.m.addr));
      assert EvictFits(c');
    }
  }

  /** A dirty line is found: its way is evicted once the way counter reaches it. */
  lemma FlushDirty(c: Core, e: Env, f: Mem, i: In)
    requires Good(c, e, f, i) && c.state == Flush && DirtyAny(c)
    ensures Inv(Next(c, i), EnvNext(c, e, i), FlatNext(c, f, i))
  {
    var c' := Next(c, i);
    NextSized(c, i);
    assert Rams(c') == Rams(c) && EnvNext(c, e, i) == e;
    Carry(c, c', e.mem, e.mem, f);
    FlushDirtyFits(c, e, i);
  }

  lemma FlushDirtyFits(c: Core, e: Env, i: In)
    requires Sized(c) && c.state == Flush && StateFits(c, e) && DirtyAny(c)
    ensures Sized(Next(c, i)) && StateFits(Next(c, i), e)
  {
    NextSized(c, i);
    if EvictWay(c) {
      assert EvictDone(Next(c, i)) == 0 && EvictBeats(Next(c, i), e, 0);
    }
  }

  /** Nothing dirty is left in the line, so both ways are emptied. */
  lemma FlushClean(c: Core, e: Env, f: Mem, i: In)
    requires Good(c, e, f, i) && c.state == Flush && !DirtyAny(c)
    ensures Inv(Next(c, i), EnvNext(c, e, i), FlatNext(c, f, i))
  {
    var c' := Next(c, i);
    NextSized(c, i);
    var s1 := SetTag(Rams(c), false, c.flushAddr, NO_TAG);
    Drop(Rams(c), e.mem, false, c.flushAddr, NO_TAG);
    Drop(s1, e.mem, true, c.flushAddr, NO_TAG);
    assert Rams(c') == SetTag(s1, true, c.flushAddr, NO_TAG);
    Compose(Rams(c), e.mem, s1, e.mem, Rams(c'), e.mem);
    Carry(c, c', e.mem, e.mem, f);
  }

  lemma StepFlush(c: Core, e: Env, f: Mem, i: In)
    requires Good(c, e, f, i) && c.state == Flush
    ensures Inv(Next(c, i), EnvNext(c, e, i), FlatNext(c, f, i))
  {
    if DirtyAny(c) { FlushDirty(c, e, f, i); } else { FlushClean(c, e, f, i); }
  }

  /** The cache after one clock of an eviction. */
  function EvictClock(c: Core, i: In): Core
    requires Sized(c)
  {
    c.(state := if i.accept && c.pmemLen == 0 then EvictWait else Evict,
       data0 := DataRam(c.data0.ram, c.data0.ram[c.dataWriteAddr]),
       data1 := DataRam(c.data1.ram, c.data1.ram[c.dataWriteAddr]),
       dataWriteAddr := if i.accept then (c.dataWriteAddr + 1) % 2048 else c.dataWriteAddr,
       flushLast := c.flushLast || c.flushAddr == LINES - 1,
       pmemWr0 := c.pmemWr0 && !i.accept,
       pmemLen := if i.accept then (c.pmemLen + 255) % 256 else c.pmemLen,
       pmemAddr :=
         if !i.accept then c.pmemAddr
         else ((if c.pmemWr0 then Index(Victim(c)) else c.pmemAddr) + 1) % 0x4000_0000,
       pmemWr := !i.accept,
       pmemWriteData := if i.accept then c.pmemWriteData else PmemWriteData(c))
  }

  ghost predicate Evicting(c: Core, e: Env, i: In) {
    && Sized(c) && c.state == Evict && EvictFits(c) && 0 <= EvictDone(c) && EvictBeats(c, e, EvictDone(c))
    && !i.ack && PmemWr(c) && !PmemRd(c, i)
    && PmemAddr(c, i) == (if c.pmemWr0 then Index(Victim(c)) else c.pmemAddr)
    && PmemLen(c, i) == (if c.pmemWr0 then 7 else 0)
  }

  /** The eviction keeps requesting, and nothing is acknowledged while beats remain. */
  lemma EvictSignals(c: Core, e: Env, i: In)
    requires Sized(c) && c.state == Evict && RequestFits(c) && StateFits(c, e) && Answers(e, i)
    ensures Evicting(c, e, i)
  {
  }

  /** An eviction writes no RAM and reads the next word of its line. */
  lemma EvictPorts(c: Core, e: Env, i: In)
    requires Sized(c) && RequestFits(c) && Evicting(c, e, i)
    ensures !Accept(c, i) && !Ack(c) && NextState(c, i) == (if i.accept && c.pmemLen == 0 then EvictWait else Evict)
    ensures !TagWrite(c, i, false) && !TagWrite(c, i, true)
    ensures DataWrite(c, i, false) == NO_STROBE && DataWrite(c, i, true) == NO_STROBE
    ensures TagAddrX(c, i) == EvictLine(c) && DataAddrX(c, i) == c.dataWriteAddr
  {
  }

  /** The RAMs and the policy registers after one clock of an eviction. */
  lemma EvictKeeps(c: Core, e: Env, i: In)
    requires Sized(c) && RequestFits(c) && Evicting(c, e, i)
    ensures var c', n := Next(c, i), EvictClock(c, i);
            && c'.state == n.state && c'.m == c.m && c'.tag0 == c.tag0 && c'.tag1 == c.tag1
            && c'.data0 == n.data0 && c'.data1 == n.data1
            && c'.flushAddr == c.flushAddr && c'.flushing == c.flushing && c'.flushLast == n.flushLast
            && c'.replaceWay == c.replaceWay
  {
    EvictPorts(c, e, i);
    hide Accept, Ack, NextState, TagWrite, DataWrite, TagAddrX, DataAddrX, DataIn, TagDataIn, RequestFits, Index;
    hide NextPmemAddr, NextPmemLen, NextDataWriteAddr, NextPmemWr, NextPmemWr0, PmemWriteData, EvictBeats;
  }

  /** The burst counters after one clock of an eviction. */
  lemma EvictCounts(c: Core, e: Env, i: In)
    requires Sized(c) && RequestFits(c) && Evicting(c, e, i)
    ensures var c', n := Next(c, i), EvictClock(c, i);
            && c'.dataWriteAddr == n.dataWriteAddr && c'.pmemRd == c.pmemRd && c'.pmemWr0 == n.pmemWr0
            && c'.pmemLen == n.pmemLen
  {
    EvictPorts(c, e, i);
    hide Accept, Ack, NextState, TagWrite, DataWrite, TagAddrX, DataAddrX, DataIn, TagDataIn, RequestFits, Index, EvictBeats;
    hide TagRamNext, DataRamNext, NextBuffer, NextReplaceWay, NextFlushAddr, NextFlushing, NextFlushLast, TagsRead;
    hide NextPmemAddr, NextPmemWr, PmemWriteData, PmemAddr, PmemLen, EvictFits;
  }

  /** The address and the skid buffer after one clock of an eviction. */
  lemma EvictOutport(c: Core, e: Env, i: In)
    requires Sized(c) && RequestFits(c) && Evicting(c, e, i)
    ensures var c', n := Next(c, i), EvictClock(c, i);
            c'.pmemAddr == n.pmemAddr && c'.pmemWr == n.pmemWr && c'.pmemWriteData == n.pmemWriteData
  {
    hide Accept, Ack, NextState, TagWrite, DataWrite, TagAddrX, DataAddrX, DataIn, TagDataIn, RequestFits, Index, EvictBeats;
    hide TagRamNext, DataRamNext, NextBuffer, NextReplaceWay, NextFlushAddr, NextFlushing, NextFlushLast, TagsRead;
    hide NextDataWriteAddr, NextPmemLen, NextPmemWr0, PmemWriteData, PmemAddr, PmemLen, PmemWr, PmemRd, EvictFits;
  }

  lemma EvictClocks(c: Core, e: Env, i: In)
    requires Sized(c) && RequestFits(c) && Evicting(c, e, i)
    ensures Next(c, i) == EvictClock(c, i)
  {
    EvictKeeps(c, e, i);
    EvictCounts(c, e, i);
    EvictOutport(c, e, i);
    hide Next, RequestFits, Evicting, Index;
  }

  /** The memory collects the victim line's words in address order. */
  lemma EvictBus(c: Core, e: Env, i: In)
    requires Evicting(c, e, i)
    ensures EnvNext(c, e, i)
         == if i.accept then e.(bus := Writing(Index(Victim(c)), VictimLine(c)[..EvictDone(c) + 1], WORDS)) else e
    ensures PmemWriteData(c) == Data(Rams(c), c.replaceWay)[RamIndex(EvictLine(c), EvictDone(c))]
  {
    var n, line := EvictDone(c), VictimLine(c);
    assert line[n] == Data(Rams(c), c.replaceWay)[RamIndex(EvictLine(c), n)];
    assert PmemWriteData(c) == line[n];
    if n == 0 {
      assert line[..1] == [line[0]];
    } else {
      assert line[..n] + [line[n]] == line[..n + 1];
    }
  }

  lemma EvictFitsKept(c: Core, i: In)
    requires Sized(c) && c.state == Evict && EvictFits(c)
    ensures EvictFits(EvictClock(c, i))
    ensures VictimLine(EvictClock(c, i)) == VictimLine(c) && Victim(EvictClock(c, i)) == Victim(c)
  {
  }

  /** The registers after a beat is taken. */
  lemma EvictTakenRegs(c: Core, i: In)
    requires Sized(c) && c.dataWriteAddr < RAM_WORDS && i.accept
    ensures var n, w := EvictClock(c, i), c.replaceWay;
            && Sized(n) && n.replaceWay == w && !n.pmemWr && !n.pmemWr0
            && n.dataWriteAddr == (c.dataWriteAddr + 1) % 2048 && n.pmemLen == (c.pmemLen + 255) % 256
            && n.pmemAddr == ((if c.pmemWr0 then Index(Victim(c)) else c.pmemAddr) + 1) % 0x4000_0000
            && DataOut(n, w) == Data(Rams(c), w)[c.dataWriteAddr]
            && Rams(n) == Rams(c) && EvictLine(n) == EvictLine(c) && Victim(n) == Victim(c) && VictimLine(n) == VictimLine(c)
  {
  }

  /** A taken beat, not the last, puts the next word of the line on the bus. */
  lemma EvictNextBeat(c: Core, e: Env, i: In)
    requires Sized(c) && 0 <= EvictDone(c) < WORDS - 1 && EvictBeats(c, e, EvictDone(c)) && i.accept
    ensures EvictDone(EvictClock(c, i)) == EvictDone(c) + 1
    ensures EvictBeats(EvictClock(c, i),
                       e.(bus := Writing(Index(Victim(c)), VictimLine(c)[..EvictDone(c) + 1], WORDS)),
                       EvictDone(c) + 1)
  {
    var n := EvictDone(c);
    NextRamWord(EvictLine(c), n);
    NextIndex(Victim(c), n);
    EvictTakenRegs(c, i);
    hide EvictClock, VictimLine, Victim, Data, Rams, Index, DataOut, RamIndex;
  }

  /** The words of a line follow each other in the RAM and in the address space. */
  lemma NextRamWord(line: nat, n: nat)
    requires line < LINES && n < WORDS - 1
    ensures (RamIndex(line, n) + 1) % 2048 == RamIndex(line, n + 1)
  {
  }

  lemma NextIndex(a: Addr, n: nat)
    requires a.word == 0 && n < WORDS - 1
    ensures (Index(a) + n + 1) % 0x4000_0000 == Index(a) + n + 1
  {
  }

  /** The beat on the bus is taken, and it was not the last. */
  lemma EvictTaken(c: Core, e: Env, i: In)
    requires Evicting(c, e, i) && i.accept && EvictDone(c) < WORDS - 1
    ensures Sized(EvictClock(c, i)) && StateFits(EvictClock(c, i), EnvNext(c, e, i))
  {
    hide EvictBeats;
    EvictBus(c, e, i);
    EvictFitsKept(c, i);
    EvictNextBeat(c, e, i);
  }

  /** The last beat is taken. */
  lemma EvictEnds(c: Core, e: Env, i: In)
    requires Evicting(c, e, i) && i.accept && EvictDone(c) == WORDS - 1
    ensures Sized(EvictClock(c, i)) && StateFits(EvictClock(c, i), EnvNext(c, e, i))
  {
    var c' := EvictClock(c, i);
    EvictBus(c, e, i);
    EvictFitsKept(c, i);
    assert VictimLine(c)[..WORDS] == VictimLine(c);
  }

  /** The beat is not taken: the skid buffer keeps it while the RAM reads on. */
  lemma EvictHeld(c: Core, e: Env, i: In)
    requires Evicting(c, e, i) && !i.accept
    ensures Sized(EvictClock(c, i)) && StateFits(EvictClock(c, i), EnvNext(c, e, i))
  {
    var c' := EvictClock(c, i);
    EvictBus(c, e, i);
    EvictFitsKept(c, i);
  }

  lemma StepEvict(c: Core, e: Env, f: Mem, i: In)
    requires Good(c, e, f, i) && c.state == Evict
    ensures Inv(Next(c, i), EnvNext(c, e, i), FlatNext(c, f, i))
  {
    EvictSignals(c, e, i);
    EvictClocks(c, e, i);
    EvictBus(c, e, i);
    if !i.accept { EvictHeld(c, e, i); }
    else if EvictDone(c) < WORDS - 1 { EvictTaken(c, e, i); }
    else { EvictEnds(c, e, i); }
    var c' := EvictClock(c, i);
    assert Rams(c') == Rams(c);
    Carry(c, c', e.mem, e.mem, f);
  }

  /** What an acknowledged eviction does to the storage and the memory. */
  lemma Evicted(c: Core, e: Env, f: Mem, i: In)
    requires Good(c, e, f, i) && c.state == EvictWait && i.ack
    ensures AfterAck(e, i) == Env(WrBurst(e.mem, Index(Victim(c)), VictimLine(c)), Idle)
    ensures Coherent(Rams(c), AfterAck(e, i).mem)
    ensures SameView(Rams(c), e.mem, Rams(c), AfterAck(e, i).mem)
    ensures LineMatches(Rams(c), AfterAck(e, i).mem, c.replaceWay, EvictLine(c), Victim(c).tag)
    ensures Tags(Rams(c), c.replaceWay)[EvictLine(c)] == TagOut(c, c.replaceWay)
  {
    WriteOut(Rams(c), e.mem, c.replaceWay, Victim(c), VictimLine(c));
  }

  /** After a flush eviction the line is empty in that way, and is looked at again. */
  lemma EvictedByFlush(c: Core, e: Env, f: Mem, i: In)
    requires Good(c, e, f, i) && c.state == EvictWait && i.ack && c.flushing
    ensures Inv(Next(c, i), EnvNext(c, e, i), FlatNext(c, f, i))
  {
    var c', s, m' := Next(c, i), Rams(c), AfterAck(e, i).mem;
    NextSized(c, i);
    Evicted(c, e, f, i);
    Drop(s, m', c.replaceWay, EvictLine(c), NO_TAG);
    assert Rams(c') == SetTag(s, c.replaceWay, EvictLine(c), NO_TAG);
    Compose(s, e.mem, s, m', Rams(c'), m');
    Carry(c, c', e.mem, m', f);
  }

  /** After a writeback the line stays, clean. */
  lemma EvictedByWriteback(c: Core, e: Env, f: Mem, i: In)
    requires Good(c, e, f, i) && c.state == EvictWait && i.ack && !c.flushing && c.m.writeback
    ensures Inv(Next(c, i), EnvNext(c, e, i), FlatNext(c, f, i))
  {
    var c', s, m' := Next(c, i), Rams(c), AfterAck(e, i).mem;
    NextSized(c, i);
    Evicted(c, e, f, i);
    Clean(s, m', c.replaceWay, EvictLine(c));
    assert Rams(c') == SetTag(s, c.replaceWay, EvictLine(c), Tag(true, false, Victim(c).tag));
    Compose(s, e.mem, s, m', Rams(c'), m');
    Carry(c, c', e.mem, m', f);
  }

  /** After a miss eviction the way already carries the new tag, and the refill is requested. */
  lemma EvictedByMiss(c: Core, e: Env, f: Mem, i: In)
    requires Good(c, e, f, i) && c.state == EvictWait && i.ack && !c.flushing && !c.m.writeback
    ensures Inv(Next(c, i), EnvNext(c, e, i), FlatNext(c, f, i))
  {
    var c', s, m' := Next(c, i), Rams(c), AfterAck(e, i).mem;
    NextSized(c, i);
    Evicted(c, e, f, i);
    Drop(s, m', c.replaceWay, EvictLine(c), NO_TAG);
    RefillRequested(c, e, i);
    assert InUse(c') == SetTag(s, c.replaceWay, EvictLine(c), NO_TAG);
    Compose(s, e.mem, s, m', InUse(c'), m');
    Carry(c, c', e.mem, m', f);
  }

  /** Entering a refill: the burst read of the wanted line is on the bus or waiting for it. */
  lemma RefillRequested(c: Core, e: Env, i: In)
    requires Sized(c) && RequestFits(c) && Enters(c, i, Refill) && !c.pmemRd && !c.pmemWr && (c.state == Lookup || c.state == EvictWait)
    requires AfterAck(e, i).bus == Idle && !c.flushing && !HitAny(c)
    requires c.tag0.out == c.tag0.ram[c.m.addr.line] && c.tag1.out == c.tag1.ram[c.m.addr.line]
    ensures Sized(Next(c, i)) && StateFits(Next(c, i), EnvNext(c, e, i))
    ensures EnvNext(c, e, i).mem == AfterAck(e, i).mem
  {
    var c', e' := Next(c, i), EnvNext(c, e, i);
    NextSized(c, i);
    IndexInjective(c.m.addr, c.m.addr);
    assert PmemAddr(c, i) == Index(LineBase(c.m.addr)) && PmemLen(c, i) == 7;
    assert c'.m.addr == c.m.addr && c'.replaceWay == c.replaceWay;
    assert c'.dataWriteAddr == RamIndex(c.m.addr.line, 0);
    assert c'.pmemRd == !i.accept;
    assert i.accept ==> c'.pmemLen == 7;
    assert !c'.flushing;
    assert !c'.pmemWr;
    assert e'.bus == (if c'.pmemRd then Idle else Reading(Index(LineBase(c'.m.addr)), WORDS));
    assert !Holds(Rams(c'), !c'.replaceWay, c'.m.addr);
  }

  lemma StepEvictWait(c: Core, e: Env, f: Mem, i: In)
    requires Good(c, e, f, i) && c.state == EvictWait
    ensures Inv(Next(c, i), EnvNext(c, e, i), FlatNext(c, f, i))
  {
    var c' := Next(c, i);
    NextSized(c, i);
    if !i.ack {
      assert Rams(c') == Rams(c);
      Carry(c, c', e.mem, e.mem, f);
    } else if c.flushing {
      EvictedByFlush(c, e, f, i);
    } else if c.m.writeback {
      EvictedByWriteback(c, e, f, i);
    } else {
      EvictedByMiss(c, e, f, i);
    }
  }

  ghost predicate Refilling(c: Core, e: Env, i: In) {
    Sized(c) && c.state == Refill && RequestFits(c) && StateFits(c, e) && Answers(e, i)
  }

  /** Between beats of a refill only the read request moves. */
  lemma RefillHeld(c: Core, e: Env, i: In)
    requires Refilling(c, e, i) && !i.ack
    ensures var c' := Next(c, i);
            && Sized(c') && Rams(c') == Rams(c) && c'.state == Refill && c'.dataWriteAddr == c.dataWriteAddr
            && c'.m == c.m
            && c'.replaceWay == c.replaceWay && !c'.flushing && !c'.pmemWr
            && (if c.pmemRd && i.accept then !c'.pmemRd && c'.pmemLen == 7
                else c'.pmemRd == c.pmemRd && c'.pmemLen == c.pmemLen)
    ensures EnvNext(c, e, i)
            == if c.pmemRd && i.accept then e.(bus := Reading(Index(LineBase(c.m.addr)), WORDS)) else e
  {
    NextSized(c, i);
  }

  ghost predicate RefillAdvances(c: Core, e: Env, i: In, c': Core, e': Env)
    requires Sized(c)
  {
    var n := RefillDone(c);
    && 0 <= n < WORDS && c.pmemLen == 7 - n && !c.pmemRd && Sized(c')
    && i.readData == Rd(e.mem, Index(LineBase(c.m.addr)) + n)
    && Rams(c') ==
         (var s := SetData(Rams(c), c.replaceWay, RamIndex(c.m.addr.line, n), i.readData);
          if n < 7 then s else SetTag(s, c.replaceWay, c.m.addr.line, Tag(true, false, c.m.addr.tag)))
    && e' == Env(e.mem, if n < 7 then Reading(Index(LineBase(c.m.addr)) + n + 1, 7 - n) else Idle)
    && c'.m == c.m
    && c'.replaceWay == c.replaceWay && !c'.flushing && !c'.pmemRd && !c'.pmemWr
    && c'.state == (if n < 7 then Refill else if Any(c.m.wr) then Write else Read)
    && c'.dataWriteAddr == (c.dataWriteAddr + 1) % 2048
    && (n < 7 ==> c'.pmemLen == 6 - n)
    && c'.tag0.out == c'.tag0.ram[c.m.addr.line] && c'.tag1.out == c'.tag1.ram[c.m.addr.line]
  }

  /** The cache after one beat of a refill. */
  lemma RefillClock(c: Core, e: Env, i: In)
    requires Refilling(c, e, i) && i.ack
    ensures RefillAdvances(c, e, i, Next(c, i), EnvNext(c, e, i))
  {
    RefillSignals(c, e, i);
    RefillWrites(c, i);
    RefillControl(c, i);
  }

  lemma RefillSignals(c: Core, e: Env, i: In)
    requires Refilling(c, e, i) && i.ack
    ensures var n := RefillDone(c);
            && 0 <= n < WORDS && c.pmemLen == 7 - n && !c.pmemRd && !c.pmemWr && !c.flushing
            && c.dataWriteAddr == RamIndex(c.m.addr.line, n)
            && i.readData == Rd(e.mem, Index(LineBase(c.m.addr)) + n)
            && EnvNext(c, e, i)
               == Env(e.mem, if n < 7 then Reading(Index(LineBase(c.m.addr)) + n + 1, 7 - n) else Idle)
  {
    RefillFacts(c, e, i);
    hide StateFits, RequestFits, Answers, Index, LineBase, RamIndex;
  }

  /** The bus owes the refill's remaining words. */
  lemma RefillFacts(c: Core, e: Env, i: In)
    requires Refilling(c, e, i) && i.ack
    ensures var n := RefillDone(c);
            && 0 <= n < WORDS && c.pmemLen == 7 - n && !c.pmemRd && !c.pmemWr && !c.flushing
            && c.dataWriteAddr == RamIndex(c.m.addr.line, n)
            && e.bus == Reading(Index(LineBase(c.m.addr)) + n, 8 - n)
            && i.readData == Rd(e.mem, Index(LineBase(c.m.addr)) + n)
  {
    hide RequestFits, Index, LineBase, RamIndex, Holds, EvictFits, EvictBeats, FlushProgress, TagsRead, Quiet, Rd;
  }

  /** The registers after one beat of a refill. */
  lemma RefillControl(c: Core, i: In)
    requires Sized(c) && c.state == Refill && i.ack && !c.flushing && !c.pmemRd && !c.pmemWr
    ensures var c' := Next(c, i);
            && Sized(c')
            && c'.m == c.m
            && c'.replaceWay == c.replaceWay && !c'.flushing && !c'.pmemRd && !c'.pmemWr
            && c'.state == (if c.pmemLen != 0 then Refill else if Any(c.m.wr) then Write else Read)
            && c'.dataWriteAddr == (c.dataWriteAddr + 1) % 2048
            && (c.pmemLen != 0 ==> c'.pmemLen == c.pmemLen - 1)
            && c'.tag0.out == c'.tag0.ram[c.m.addr.line] && c'.tag1.out == c'.tag1.ram[c.m.addr.line]
  {
    NextSized(c, i);
  }

  /** The storage after one beat of a refill. */
  lemma RefillWrites(c: Core, i: In)
    requires Sized(c) && c.state == Refill && i.ack && !c.flushing && c.dataWriteAddr < RAM_WORDS
    ensures Rams(Next(c, i)) ==
              (var s := SetData(Rams(c), c.replaceWay, c.dataWriteAddr, i.readData);
               if c.pmemLen != 0 then s else SetTag(s, c.replaceWay, c.m.addr.line, Tag(true, false, c.m.addr.tag)))
  {
  }

  /** One more word of a line in its place. */
  lemma WordStored(d: seq<Word>, x: Word, line: nat, n: nat, m: Mem, base: nat)
    requires |d| == RAM_WORDS && line < LINES && n < WORDS && x == Rd(m, base + n)
    requires forall k: nat {:trigger RamIndex(line, k)} :: k < n ==> d[RamIndex(line, k)] == Rd(m, base + k)
    ensures forall k: nat {:trigger RamIndex(line, k)} :: k < n + 1 ==> d[RamIndex(line, n) := x][RamIndex(line, k)] == Rd(m, base + k)
  {
    hide Rd;
    var d' := d[RamIndex(line, n) := x];
    forall k: nat | k < n + 1 ensures d'[RamIndex(line, k)] == Rd(m, base + k) {
      if k < n {
        assert RamIndex(line, k) != RamIndex(line, n);
        assert d'[RamIndex(line, k)] == d[RamIndex(line, k)];
      }
    }
  }

  lemma RefillBeatArrives(c: Core, e: Env, i: In, c': Core, e': Env)
    requires Sized(c) && RefillAdvances(c, e, i, c', e') && RefillDone(c) < 7 && RefillBeats(c, e, RefillDone(c))
    ensures RefillDone(c') == RefillDone(c) + 1 && RefillBeats(c', e', RefillDone(c'))
  {
    hide Index, LineBase, Rd;
    var n, way := RefillDone(c), c.replaceWay;
    WordStored(Data(Rams(c), way), i.readData, c.m.addr.line, n, e.mem, Index(LineBase(c.m.addr)));
    assert Data(Rams(c'), way) == Data(Rams(c), way)[RamIndex(c.m.addr.line, n) := i.readData];
    hide Data, Rams;
  }

  lemma RefillFits(c: Core, e: Env, i: In, c': Core, e': Env)
    requires Refilling(c, e, i) && i.ack && RefillAdvances(c, e, i, c', e')
    ensures StateFits(c', e')
  {
    if RefillDone(c) < 7 {
      RefillBeatArrives(c, e, i, c', e');
      assert Tags(Rams(c'), !c.replaceWay) == Tags(Rams(c), !c.replaceWay);
    }
  }

  lemma RefillStores(c: Core, e: Env, i: In, c': Core, e': Env)
    requires Refilling(c, e, i) && i.ack && RefillAdvances(c, e, i, c', e') && Coherent(InUse(c), e.mem)
    ensures Coherent(InUse(c'), e'.mem) && SameView(InUse(c), e.mem, InUse(c'), e'.mem)
  {
    var n, way, b := RefillDone(c), c.replaceWay, c.m.addr;
    var s1 := SetData(InUse(c), way, RamIndex(b.line, n), i.readData);
    Fill(InUse(c), e.mem, way, b.line, n, i.readData);
    if n < 7 {
      assert InUse(c') == s1;
    } else {
      RefillComplete(c, e, i, s1);
      Install(s1, e.mem, way, b);
      assert Rams(c') == SetTag(s1, way, b.line, Tag(true, false, b.tag));
      Compose(InUse(c), e.mem, s1, e.mem, Rams(c'), e.mem);
    }
  }

  /** Once the last word arrives the whole line equals memory. */
  lemma RefillComplete(c: Core, e: Env, i: In, s1: Store)
    requires Refilling(c, e, i) && RefillDone(c) == 7 && !c.pmemRd
    requires i.readData == Rd(e.mem, Index(LineBase(c.m.addr)) + 7)
    requires s1 == SetData(InUse(c), c.replaceWay, RamIndex(c.m.addr.line, 7), i.readData)
    ensures LineMatches(s1, e.mem, c.replaceWay, c.m.addr.line, c.m.addr.tag)
  {
    var b := c.m.addr;
    forall a: Addr | a.line == b.line && a.tag == b.tag
      ensures DataAt(s1, c.replaceWay, a) == Rd(e.mem, Index(a))
    {
      IndexInjective(a, b);
      assert a.word < 7 ==> Data(Rams(c), c.replaceWay)[RamIndex(b.line, a.word)] == Rd(e.mem, Index(a));
    }
  }

  lemma RefillHeldFits(c: Core, e: Env, i: In, c': Core, e': Env)
    requires Sized(c) && c.state == Refill && StateFits(c, e)
    requires Sized(c') && Rams(c') == Rams(c) && c'.state == Refill && c'.dataWriteAddr == c.dataWriteAddr
    requires c'.m.addr == c.m.addr && c'.replaceWay == c.replaceWay && !c'.flushing && !c'.pmemWr
    requires if c.pmemRd && i.accept then !c'.pmemRd && c'.pmemLen == 7
             else c'.pmemRd == c.pmemRd && c'.pmemLen == c.pmemLen
    requires e' == if c.pmemRd && i.accept then e.(bus := Reading(Index(LineBase(c.m.addr)), WORDS)) else e
    ensures StateFits(c', e') && InUse(c') == InUse(c)
  {
    assert RefillDone(c') == RefillDone(c);
  }

  lemma StepRefillHeld(c: Core, e: Env, f: Mem, i: In)
    requires Good(c, e, f, i) && c.state == Refill && !i.ack
    ensures Inv(Next(c, i), EnvNext(c, e, i), FlatNext(c, f, i))
  {
    var c' := Next(c, i);
    RefillHeld(c, e, i);
    RefillHeldFits(c, e, i, c', EnvNext(c, e, i));
    Carry(c, c', e.mem, e.mem, f);
  }

  lemma StepRefill(c: Core, e: Env, f: Mem, i: In)
    requires Good(c, e, f, i) && c.state == Refill
    ensures Inv(Next(c, i), EnvNext(c, e, i), FlatNext(c, f, i))
  {
    var c', e' := Next(c, i), EnvNext(c, e, i);
    if !i.ack {
      StepRefillHeld(c, e, f, i);
    } else {
      RefillClock(c, e, i);
      RefillFits(c, e, i, c', e');
      RefillStores(c, e, i, c', e');
      Carry(c, c', e.mem, e'.mem, f);
    }
  }

  // ---------------------------------------------------------------------------- Write

  lemma MergeTwice(w: Word, d: Word, st: Strobe)
    ensures Merge(Merge(w, d, st), d, st) == Merge(w, d, st)
  {
  }

  /** Exactly the way that holds the buffered address hits. */
  lemma HitsWhatHolds(c: Core, m: Mem)
    requires Sized(c) && Coherent(Rams(c), m) && TagsRead(c, c.m.addr.line)
    ensures Hit0(c) == Holds(Rams(c), false, c.m.addr) && Hit1(c) == Holds(Rams(c), true, c.m.addr)
    ensures !(Hit0(c) && Hit1(c))
  {
    assert !(Holds(Rams(c), false, c.m.addr) && Holds(Rams(c), true, c.m.addr));
  }

  /** After a refill the buffered write goes into the new line, and stays buffered to be
      acknowledged: applying it a second time changes nothing. */
  lemma StepWrite(c: Core, e: Env, f: Mem, i: In)
    requires Good(c, e, f, i) && c.state == Write
    ensures Inv(Next(c, i), EnvNext(c, e, i), FlatNext(c, f, i))
  {
    var c', s, way := Next(c, i), Rams(c), c.replaceWay;
    NextSized(c, i);
    HitsWhatHolds(c, e.mem);
    var s' := WriteHit(s, way, c.m.addr, c.m.data, c.m.wr);
    WriteHitView(s, e.mem, way, c.m.addr, c.m.data, c.m.wr);
    assert Rams(c') == s';
    forall a: Addr ensures Rd(f, Index(a)) == Pending(c', a, View(Rams(c'), e.mem, a)) {
      assert Rd(f, Index(a)) == Pending(c, a, View(s, e.mem, a));
      MergeTwice(View(s, e.mem, a), c.m.data, c.m.wr);
    }
  }

  // ---------------------------------------------------------------------------- Lookup

  /** The registers when a miss starts an eviction. */
  lemma MissedDirtyRegs(c: Core, e: Env, i: In)
    requires Sized(c) && c.state == Lookup && Missed(c) && EvictWay(c) && Quiet(c, e) && !i.ack && !c.flushing
    requires TagsRead(c, c.m.addr.line) && RequestFits(c)
    ensures var c', line := Next(c, i), c.m.addr.line;
            && Rams(c') == Rams(c) && c'.state == Evict && c'.m == c.m && c'.replaceWay == c.replaceWay && !c'.flushing
            && c'.tag0.out == c.tag0.ram[line] && c'.tag1.out == c.tag1.ram[line]
            && c'.data0.out == c.data0.ram[RamIndex(line, 0)] && c'.data1.out == c.data1.ram[RamIndex(line, 0)]
            && c'.dataWriteAddr == (RamIndex(line, 0) + 1) % 2048
            && !c'.pmemRd && c'.pmemWr0 && !c'.pmemWr && c'.pmemLen == 7
            && EnvNext(c, e, i) == e && !Accept(c, i)
  {
    MissedDirtySignals(c, i);
    hide NextState, Accept, Ack, Missed, EvictWay, RequestFits, RamIndex, HitAny;
  }

  lemma MissedDirtySignals(c: Core, i: In)
    requires c.state == Lookup && Missed(c) && EvictWay(c) && RequestFits(c)
    ensures NextState(c, i) == Evict && !Accept(c, i) && !Ack(c) && Enters(c, i, Evict) && !Enters(c, i, Refill)
  {
  }

  lemma MissedDirtyClock(c: Core, e: Env, i: In)
    requires Sized(c) && c.state == Lookup && Missed(c) && EvictWay(c) && Quiet(c, e) && !i.ack && !c.flushing
    requires TagsRead(c, c.m.addr.line) && RequestFits(c)
    ensures var c' := Next(c, i);
            && Sized(c') && Rams(c') == Rams(c) && EnvNext(c, e, i) == e && FlatNext(c, e.mem, i) == e.mem
            && c'.state == Evict && c'.m == c.m && c'.replaceWay == c.replaceWay && !c'.flushing
            && EvictFits(c') && EvictDone(c') == 0 && EvictBeats(c', e, 0)
            && !Accept(c, i)
  {
    NextSized(c, i);
    MissedDirtyRegs(c, e, i);
    hide Next, NextState, EnvNext, RamIndex, RequestFits;
  }

  lemma LookupMissedDirty(c: Core, e: Env, f: Mem, i: In)
    requires Good(c, e, f, i) && c.state == Lookup && Missed(c) && EvictWay(c)
    ensures Inv(Next(c, i), EnvNext(c, e, i), FlatNext(c, f, i))
  {
    var c' := Next(c, i);
    MissedDirtyClock(c, e, i);
    hide Next, EnvNext, EvictFits, EvictBeats, NextState, EvictWay;
    Carry(c, c', e.mem, e.mem, f);
    assert RequestFits(c') && StateFits(c', e);
    assert FlatNext(c, f, i) == f;
  }

  lemma LookupMissedClean(c: Core, e: Env, f: Mem, i: In)
    requires Good(c, e, f, i) && c.state == Lookup && Missed(c) && !EvictWay(c)
    ensures Inv(Next(c, i), EnvNext(c, e, i), FlatNext(c, f, i))
  {
    var c', s := Next(c, i), Rams(c);
    NextSized(c, i);
    RefillRequested(c, e, i);
    Drop(s, e.mem, c.replaceWay, c.m.addr.line, NO_TAG);
    assert InUse(c') == SetTag(s, c.replaceWay, c.m.addr.line, NO_TAG);
    Carry(c, c', e.mem, e.mem, f);
  }

  /** The storage once the buffered request, if a write, has gone in. */
  function Settled(c: Core): Store
    requires Sized(c)
  {
    if Any(c.m.wr) && (Hit0(c) || Hit1(c)) then WriteHit(Rams(c), Hit1(c), c.m.addr, c.m.data, c.m.wr) else Rams(c)
  }

  /** A hit settles into the storage: the flat memory is then what the storage shows. */
  lemma LookupSettles(c: Core, e: Env, f: Mem, i: In)
    requires Good(c, e, f, i) && c.state == Lookup && !Missed(c)
    ensures Sized(Next(c, i)) && Rams(Next(c, i)) == Settled(c) && EnvNext(c, e, i) == e
    ensures Coherent(Settled(c), e.mem)
    ensures forall a: Addr {:trigger View(Settled(c), e.mem, a)} :: Rd(f, Index(a)) == View(Settled(c), e.mem, a)
  {
    var s := Rams(c);
    NextSized(c, i);
    if Any(c.m.wr) {
      HitsWhatHolds(c, e.mem);
      WriteHitView(s, e.mem, Hit1(c), c.m.addr, c.m.data, c.m.wr);
    }
    forall a: Addr ensures Rd(f, Index(a)) == View(Settled(c), e.mem, a) {
      assert Rd(f, Index(a)) == Pending(c, a, View(s, e.mem, a));
    }
  }

  /** A read accepted behind a write sees the right words: the write either is to another RAM
      word, or went into the way this address is not in. */
  lemma LookupReads(c: Core, e: Env, f: Mem, i: In, way: bool)
    requires Good(c, e, f, i) && c.state == Lookup && !Missed(c) && Accept(c, i) && i.rd
    requires Holds(Settled(c), way, i.addr)
    ensures Data(Rams(c), way)[RamIndex(i.addr.line, i.addr.word)] == DataAt(Settled(c), way, i.addr)
  {
    RamIndexInjective(c.m.addr.line, c.m.addr.word, i.addr.line, i.addr.word);
    if Any(c.m.wr) {
      HitsWhatHolds(c, e.mem);
    }
  }

  /** The next request, if any, is in the buffer with its tags and words read. */
  lemma LookupFits(c: Core, e: Env, f: Mem, i: In)
    requires Good(c, e, f, i) && c.state == Lookup && !Missed(c)
    requires Sized(Next(c, i)) && Rams(Next(c, i)) == Settled(c)
    ensures RequestFits(Next(c, i)) && StateFits(Next(c, i), e)
  {
    var c' := Next(c, i);
    if Accept(c, i) && i.rd {
      if Holds(Settled(c), false, i.addr) { LookupReads(c, e, f, i, false); }
      if Holds(Settled(c), true, i.addr) { LookupReads(c, e, f, i, true); }
      assert c'.data0.out == c.data0.ram[RamIndex(i.addr.line, i.addr.word)];
      assert c'.data1.out == c.data1.ram[RamIndex(i.addr.line, i.addr.word)];
    }
  }

  lemma StepLookup(c: Core, e: Env, f: Mem, i: In)
    requires Good(c, e, f, i) && c.state == Lookup
    ensures Inv(Next(c, i), EnvNext(c, e, i), FlatNext(c, f, i))
  {
    if Missed(c) {
      if EvictWay(c) { LookupMissedDirty(c, e, f, i); } else { LookupMissedClean(c, e, f, i); }
    } else {
      LookupSettles(c, e, f, i);
      LookupFits(c, e, f, i);
      var c', f' := Next(c, i), FlatNext(c, f, i);
      forall a: Addr ensures Rd(f', Index(a)) == Pending(c', a, View(InUse(c'), e.mem, a)) {
        IndexInjective(a, i.addr);
        assert Rd(f, Index(a)) == View(Settled(c), e.mem, a);
      }
    }
  }
}
