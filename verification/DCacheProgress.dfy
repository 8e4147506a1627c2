/** The shape of the cache's bursts, and a bound on the work left before it answers. */
module DCacheProgress {
  import opened Words
  import opened DCacheCore
  import opened DCacheStore
  import opened DCacheInvariant
  import opened DCacheSteps
  import opened DCacheRefinement

  // ---------------------------------------------------------------------------- Bursts

  /** A read burst is asked for only while nothing is outstanding, for the whole wanted line. */
  lemma ReadBurst(c: Core, e: Env, f: Mem, i: In)
    requires Good(c, e, f, i) && PmemRd(c, i)
    ensures AfterAck(e, i).bus == Idle && !PmemWr(c)
    ensures PmemAddr(c, i) == Index(LineBase(c.m.addr)) && PmemLen(c, i) == WORDS - 1
  {
    if c.state == Lookup || c.state == EvictWait {
      assert c.state == EvictWait && i.ack ==> AfterAck(e, i).bus == Idle;
    }
  }

  /** Beat `n` of an eviction carries word `n` of the victim line at its own address, the first
      beat announces all eight, and the memory has collected exactly the words before it. */
  lemma EvictionBurst(c: Core, e: Env, f: Mem, i: In)
    requires Good(c, e, f, i) && PmemWr(c)
    ensures c.state == Evict && 0 <= EvictDone(c) < WORDS
    ensures PmemWriteData(c) == VictimLine(c)[EvictDone(c)]
    ensures PmemAddr(c, i) == Index(Victim(c)) + EvictDone(c)
    ensures PmemLen(c, i) == (if EvictDone(c) == 0 then WORDS - 1 else 0)
    ensures e.bus == if EvictDone(c) == 0 then Idle
                     else Writing(Index(Victim(c)), VictimLine(c)[..EvictDone(c)], WORDS)
  {
    EvictSignals(c, e, i);
    EvictBus(c, e, i);
  }

  /** A write burst is acknowledged only when the memory holds all eight words of the victim. */
  lemma EvictionAcknowledged(c: Core, e: Env, f: Mem, i: In)
    requires Good(c, e, f, i) && i.ack && e.bus.Writing?
    ensures c.state == EvictWait && e.bus == Writing(Index(Victim(c)), VictimLine(c), WORDS)
  {
  }

  // ---------------------------------------------------------------------------- Work left

  function DirtyAt(c: Core, line: nat): nat
    requires Sized(c) && line < LINES
  {
    (if c.tag0.ram[line].valid && c.tag0.ram[line].dirty then 1 else 0)
    + (if c.tag1.ram[line].valid && c.tag1.ram[line].dirty then 1 else 0)
  }

  /** Work left in a full flush: the lines not yet emptied, the dirty ways of this one, and the
      beats of the eviction under way. */
  function FlushWork(c: Core): int
    requires Sized(c)
  {
    ((LINES - c.flushAddr) * 3 + DirtyAt(c, c.flushAddr)) * 32
    + match c.state
      case FlushAddr => 20
      case Flush => if EvictWay(c) then 18 else 19
      case Evict => 2 + c.pmemLen
      case _ => 1
  }

  /** An upper bound on the clocks before the buffered request is acknowledged, not counting
      those spent waiting for the memory. */
  function Work(c: Core): int
    requires Sized(c)
  {
    if c.flushing then FlushWork(c)
    else match c.state
      case Lookup => if Ack(c) then 0 else 64
      case Writeback => 60
      case Evict => 41 + c.pmemLen
      case EvictWait => 40
      case Refill => if c.pmemRd then 20 else 4 + c.pmemLen
      case Read => 2
      case Write => 2
      case _ => 0
  }

  /** The cache is waiting for its memory in this clock. */
  predicate Waits(c: Core, i: In) {
    || (c.state == Evict && !i.accept)
    || (c.state == EvictWait && !i.ack)
    || (c.state == Refill && (if c.pmemRd then !i.accept else !i.ack))
  }

  /** The state the cache is in while a request is being served. */
  ghost predicate Serving(c: Core, e: Env, f: Mem) {
    Inv(c, e, f) && Buffered(c) != [] && !Ack(c)
  }

  /** One clock of service: the request stays, and the work shrinks unless the memory is awaited. */
  ghost predicate Advances(c: Core, i: In, c': Core)
    requires Sized(c)
  {
    && Sized(c') && 0 <= Work(c')
    && (if Waits(c, i) then Work(c') == Work(c) else Work(c') < Work(c))
  }

  lemma WorkLookup(c: Core, e: Env, f: Mem, i: In)
    requires Good(c, e, f, i) && Serving(c, e, f) && (c.state == Lookup || c.state == Writeback)
    ensures Advances(c, i, Next(c, i))
  {
    NextSized(c, i);
  }

  lemma WorkEvict(c: Core, e: Env, f: Mem, i: In)
    requires Good(c, e, f, i) && Serving(c, e, f) && c.state == Evict
    ensures Advances(c, i, Next(c, i))
  {
    EvictSignals(c, e, i);
    EvictClocks(c, e, i);
    WorkEvictClock(c, i);
  }

  lemma WorkEvictClock(c: Core, i: In)
    requires Sized(c) && c.state == Evict && c.pmemLen < WORDS
    ensures Advances(c, i, EvictClock(c, i))
  {
  }

  lemma WorkEvictWait(c: Core, e: Env, f: Mem, i: In)
    requires Good(c, e, f, i) && Serving(c, e, f) && c.state == EvictWait
    ensures Advances(c, i, Next(c, i))
  {
    NextSized(c, i);
    if i.ack && c.flushing {
      assert DirtyAt(Next(c, i), c.flushAddr) < DirtyAt(c, c.flushAddr);
    }
  }

  lemma WorkRefill(c: Core, e: Env, f: Mem, i: In)
    requires Good(c, e, f, i) && Serving(c, e, f) && c.state == Refill
    ensures Advances(c, i, Next(c, i))
  {
    if i.ack { RefillSignals(c, e, i); RefillControl(c, i); } else { RefillHeld(c, e, i); }
  }

  /** After a refill the buffered request hits. */
  lemma WorkRefilled(c: Core, e: Env, f: Mem, i: In)
    requires Good(c, e, f, i) && Serving(c, e, f) && (c.state == Read || c.state == Write)
    ensures Advances(c, i, Next(c, i)) && Ack(Next(c, i))
  {
    NextSized(c, i);
    if c.state == Write { HitsWhatHolds(c, e.mem); }
  }

  lemma WorkFlush(c: Core, e: Env, f: Mem, i: In)
    requires Good(c, e, f, i) && Serving(c, e, f) && (c.state == FlushAddr || c.state == Flush)
    ensures Advances(c, i, Next(c, i))
  {
    NextSized(c, i);
  }

  /** While a request is served, every clock that does not wait for the memory brings its
      acknowledgement nearer; this covers the whole flush, however many lines are dirty. */
  lemma WorkShrinks(c: Core, e: Env, f: Mem, i: In)
    requires Good(c, e, f, i) && Serving(c, e, f)
    ensures Advances(c, i, Next(c, i)) && Buffered(Next(c, i)) == Buffered(c)
    ensures !Ack(c) ==> Work(c) > 0
  {
    BufferStep(c, e, f, i);
    match c.state
    case Reset => assert false;
    case FlushAddr => WorkFlush(c, e, f, i);
    case Flush => WorkFlush(c, e, f, i);
    case Lookup => WorkLookup(c, e, f, i);
    case Writeback => WorkLookup(c, e, f, i);
    case Evict => WorkEvict(c, e, f, i);
    case EvictWait => WorkEvictWait(c, e, f, i);
    case Refill => WorkRefill(c, e, f, i);
    case Read => WorkRefilled(c, e, f, i);
    case Write => WorkRefilled(c, e, f, i);
  }

  // ---------------------------------------------------------------------------- Runs

  /** The clocks of a run in which the cache does not wait for its memory. */
  function Moving(s: Sys, ins: seq<In>): nat
    requires Sized(s.core)
    decreases |ins|
  {
    if ins == [] then 0
    else (if Waits(s.core, ins[0]) then 0 else 1) + Moving(SysNext(s, ins[0]), ins[1..])
  }

  /** Every buffered request is answered in any run that gives the cache as many moving clocks as
      there is work; in particular every full flush ends. */
  lemma {:induction false} EveryRequestIsAnswered(s: Sys, ins: seq<In>, f: Mem)
    requires Inv(s.core, s.env, f) && Legal(s, ins) && Buffered(s.core) != []
    requires Moving(s, ins) > Work(s.core)
    ensures Responses(s, ins) != []
    decreases |ins|
  {
    hide Inv, Next, EnvNext, StateFits, FlatNext;
    if !Ack(s.core) {
      WorkShrinks(s.core, s.env, f, ins[0]);
      Step(s.core, s.env, f, ins[0]);
      EveryRequestIsAnswered(SysNext(s, ins[0]), ins[1..], FlatNext(s.core, f, ins[0]));
    }
  }

  /** Three rounds a line (its two ways and the step to the next) of at most 32 clocks each. */
  const WORK_BOUND := (LINES * 3 + 2) * 32 + 20

  /** No request has more work than a flush of a cache whose every line is dirty. */
  lemma WorkBounded(c: Core, e: Env, f: Mem)
    requires Inv(c, e, f) && Buffered(c) != []
    ensures 0 <= Work(c) <= WORK_BOUND
  {
  }

  /** From reset, after any run, the request then in the buffer is answered in every continuation
      that has more than the bound of clocks not spent waiting for the memory. */
  lemma EveryRunAnswers(s: Sys, ins: seq<In>, more: seq<In>)
    requires AfterReset(s) && Legal(s, ins) && Legal(Run(s, ins), more)
    requires Buffered(Run(s, ins).core) != [] && Moving(Run(s, ins), more) > WORK_BOUND
    ensures Responses(Run(s, ins), more) != []
  {
    hide Inv, Legal, Responses, Moving, Run, Buffered, Work;
    var r, f := Run(s, ins), FlatApplyAll(s.env.mem, Accepted(s, ins));
    RunFromReset(s, ins);
    WorkBounded(r.core, r.env, f);
    EveryRequestIsAnswered(r, more, f);
  }

  // ---------------------------------------------------------------------------- Acceptance

  /** From reset, after any run that has left the reset sweep, every request is accepted in the clock
      it comes, if no request is buffered or the buffered one is just acknowledged; except a read
      directly behind a write to the same word. */
  lemma FreeCacheAccepts(s: Sys, ins: seq<In>, i: In)
    requires AfterReset(s) && Legal(s, ins) && Run(s, ins).core.state != Reset
    requires var c := Run(s, ins).core; Buffered(c) == [] || Ack(c)
    ensures var c := Run(s, ins).core; Accept(c, i) <==> !(Any(c.m.wr) && i.rd && i.addr == c.m.addr)
  {
    RunFromReset(s, ins);
    hide Run, Legal, Accepted, StateFits, Represents, Coherent;
  }

  /** The reset sweep ends: one clock a line and one to see the last. */
  lemma ResetEnds(s: Sys, ins: seq<In>)
    requires AfterReset(s) && |ins| > LINES
    ensures Run(s, ins).core.state != Reset
  {
    SweepEnds(s, ins, LINES);
  }

  lemma {:induction false} SweepEnds(s: Sys, ins: seq<In>, left: nat)
    requires Sized(s.core) && |ins| > left
    requires s.core.state == Reset ==>
               if s.core.flushLast then left == 0 else left == LINES - s.core.flushAddr
    ensures Run(s, ins).core.state != Reset
    decreases |ins|
  {
    var n := SysNext(s, ins[0]);
    if |ins| == 1 {
      assert ins[1..] == [] && Run(n, []) == n;
    } else {
      SweepEnds(n, ins[1..], if left == 0 then 0 else left - 1);
    }
  }

  // ---------------------------------------------------------------------------- Replacement

  /** The ways take turns: a refilled line makes the other way the next victim, and apart from that only
      flushes, which start each line at way 0, and line writebacks, which choose the way that holds the
      line, move the choice. */
  lemma WaysTakeTurns(c: Core, e: Env, f: Mem, i: In)
    requires Inv(c, e, f)
    ensures var way, next, way' := c.replaceWay, NextState(c, i), Next(c, i).replaceWay;
            && (c.state == Read || c.state == Write ==> way' == !way)
            && (next == FlushAddr && c.state != Flush ==> !way')
            && (c.state == Flush && !DirtyAny(c) ==> way' == (next == FlushAddr && way))
            && (c.state == Writeback && (Hit0(c) || Hit1(c)) ==> way' == !Hit0(c))
            && ((c.state == Lookup || c.state == EvictWait) && next != FlushAddr ==> way' == way)
            && (c.state == Refill || c.state == Evict ==> way' == way)
  {
    hide Coherent, Represents, EvictBeats, RefillBeats;
  }
}
