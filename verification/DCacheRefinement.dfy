/** Whole runs of the cache: it answers requests exactly as flat memory would, uses its outport
    in order, and answers every request once its memory has made enough progress. */
module DCacheRefinement {
  import opened Words
  import opened DCacheCore
  import opened DCacheStore
  import opened DCacheInvariant
  import opened DCacheSteps

  // ---------------------------------------------------------------------------- Flat memory

  datatype Request =
    | ReadReq(addr: Addr, tag: nat)
    | WriteReq(addr: Addr, data: Word, strobe: Strobe, tag: nat)
    | WritebackReq(tag: nat)
    | FlushReq(tag: nat)

  datatype Response = ReadResp(tag: nat, data: Word) | Done(tag: nat)

  /** Flat memory's answer to one request. */
  function FlatAnswer(m: Mem, q: Request): Response {
    match q
    case ReadReq(a, tag) => ReadResp(tag, Rd(m, Index(a)))
    case WriteReq(_, _, _, tag) => Done(tag)
    case WritebackReq(tag) => Done(tag)
    case FlushReq(tag) => Done(tag)
  }

  function FlatApply(m: Mem, q: Request): Mem {
    if q.WriteReq? then Wr(m, Index(q.addr), q.data, q.strobe) else m
  }

  /** Flat memory's answers to a sequence of requests, in order. */
  function FlatAnswers(m: Mem, qs: seq<Request>): (r: seq<Response>)
    ensures |r| == |qs|
    decreases |qs|
  {
    if qs == [] then [] else [FlatAnswer(m, qs[0])] + FlatAnswers(FlatApply(m, qs[0]), qs[1..])
  }

  function FlatApplyAll(m: Mem, qs: seq<Request>): Mem
    decreases |qs|
  {
    if qs == [] then m else FlatApplyAll(FlatApply(m, qs[0]), qs[1..])
  }

  // ---------------------------------------------------------------------------- Runs

  datatype Sys = Sys(core: Core, env: Env)

  function SysNext(s: Sys, i: In): (r: Sys)
    requires Sized(s.core)
    ensures Sized(r.core)
  {
    NextSized(s.core, i);
    Sys(Next(s.core, i), EnvNext(s.core, s.env, i))
  }

  /** The inputs of every clock obey the request rule and answer as an error-free memory. */
  ghost predicate Legal(s: Sys, ins: seq<In>)
    requires Sized(s.core)
    decreases |ins|
  {
    ins != [] ==>
      && OneRequest(ins[0]) && Answers(s.env, ins[0])
      && Legal(SysNext(s, ins[0]), ins[1..])
  }

  function Run(s: Sys, ins: seq<In>): (r: Sys)
    requires Sized(s.core)
    ensures Sized(r.core)
    decreases |ins|
  {
    if ins == [] then s else Run(SysNext(s, ins[0]), ins[1..])
  }

  /** The request taken into the buffer in this clock, if there is one. */
  function Taken(c: Core, i: In): seq<Request> {
    if !Accept(c, i) then []
    else if i.rd then [ReadReq(i.addr, i.reqTag)]
    else if Any(i.wr) then [WriteReq(i.addr, i.data, i.wr, i.reqTag)]
    else if i.writeback then [WritebackReq(i.reqTag)]
    else if i.flush then [FlushReq(i.reqTag)]
    else []
  }

  /** The response on the port in this clock, if there is one. */
  function Given(c: Core): seq<Response> {
    if !Ack(c) then [] else if c.m.rd then [ReadResp(c.m.tag, ReadValue(c))] else [Done(c.m.tag)]
  }

  function Accepted(s: Sys, ins: seq<In>): seq<Request>
    requires Sized(s.core)
    decreases |ins|
  {
    if ins == [] then []
    else Taken(s.core, ins[0]) + Accepted(SysNext(s, ins[0]), ins[1..])
  }

  function Responses(s: Sys, ins: seq<In>): seq<Response>
    requires Sized(s.core)
    decreases |ins|
  {
    if ins == [] then []
    else Given(s.core) + Responses(SysNext(s, ins[0]), ins[1..])
  }

  /** The state the reset input leaves, with arbitrary RAM contents. */
  predicate AfterReset(s: Sys) {
    var c := s.core;
    && Sized(c) && c.state == Reset && s.env.bus == Idle
    && !c.m.rd && !Any(c.m.wr) && !c.m.writeback && !c.m.flush
    && c.flushAddr == 0 && !c.flushing && !c.flushLast && !c.replaceWay
    && !c.pmemRd && !c.pmemWr && !c.pmemWr0
  }

  // ---------------------------------------------------------------------------- Every clock

  lemma Step(c: Core, e: Env, f: Mem, i: In)
    requires Good(c, e, f, i)
    ensures Inv(Next(c, i), EnvNext(c, e, i), FlatNext(c, f, i))
  {
    match c.state
    case Reset => StepReset(c, e, f, i);
    case FlushAddr => StepFlushAddr(c, e, f, i);
    case Flush => StepFlush(c, e, f, i);
    case Lookup => StepLookup(c, e, f, i);
    case Read => StepRead(c, e, f, i);
    case Write => StepWrite(c, e, f, i);
    case Refill => StepRefill(c, e, f, i);
    case Evict => StepEvict(c, e, f, i);
    case EvictWait => StepEvictWait(c, e, f, i);
    case Writeback => StepWriteback(c, e, f, i);
  }

  /** The request in the buffer. */
  function Buffered(c: Core): seq<Request> {
    if c.m.rd then [ReadReq(c.m.addr, c.m.tag)]
    else if Any(c.m.wr) then [WriteReq(c.m.addr, c.m.data, c.m.wr, c.m.tag)]
    else if c.m.writeback then [WritebackReq(c.m.tag)]
    else if c.m.flush then [FlushReq(c.m.tag)]
    else []
  }

  /** An acknowledged read returns the flat memory's word. */
  lemma ReadIsFlat(c: Core, e: Env, f: Mem)
    requires Inv(c, e, f) && Ack(c) && c.m.rd
    ensures ReadValue(c) == Rd(f, Index(c.m.addr))
  {
    HitsWhatHolds(c, e.mem);
    assert Rd(f, Index(c.m.addr)) == Pending(c, c.m.addr, View(InUse(c), e.mem, c.m.addr));
  }

  /** The buffer keeps its request until it is acknowledged, and takes a new one only then. */
  lemma BufferStep(c: Core, e: Env, f: Mem, i: In)
    requires Good(c, e, f, i)
    ensures Ack(c) ==> |Buffered(c)| == 1
    ensures Buffered(Next(c, i)) == (if Ack(c) || Buffered(c) == [] then Taken(c, i) else Buffered(c))
    ensures Buffered(c) != [] && !Ack(c) ==> Taken(c, i) == []
  {
  }

  // ---------------------------------------------------------------------------- Refinement

  lemma FlatCons(m: Mem, q: Request, qs: seq<Request>)
    ensures FlatAnswers(m, [q] + qs) == [FlatAnswer(m, q)] + FlatAnswers(FlatApply(m, q), qs)
    ensures FlatApplyAll(m, [q] + qs) == FlatApplyAll(FlatApply(m, q), qs)
  {
    assert ([q] + qs)[1..] == qs;
  }

  /** Accepting a request makes the flat memory apply it. */
  lemma TakenApplies(c: Core, f: Mem, i: In)
    requires OneRequest(i)
    ensures FlatNext(c, f, i) == FlatApplyAll(f, Taken(c, i))
  {
  }

  /** A clock that acknowledges answers the buffered request as flat memory does. */
  lemma AckClock(c: Core, e: Env, f0: Mem, i: In)
    requires Good(c, e, FlatApplyAll(f0, Buffered(c)), i) && Ack(c)
    ensures |Buffered(c)| == 1 && Given(c) == [FlatAnswer(f0, Buffered(c)[0])]
    ensures Buffered(Next(c, i)) == Taken(c, i)
    ensures Inv(Next(c, i), EnvNext(c, e, i), FlatApplyAll(FlatApply(f0, Buffered(c)[0]), Buffered(Next(c, i))))
  {
    hide Inv, Next, EnvNext, StateFits;
    var f := FlatApplyAll(f0, Buffered(c));
    Step(c, e, f, i);
    BufferStep(c, e, f, i);
    FlatCons(f0, Buffered(c)[0], []);
    TakenApplies(c, f, i);
    if c.m.rd { ReadIsFlat(c, e, f); }
  }

  /** A clock that does not acknowledge keeps the buffered request, or takes the first one. */
  lemma NoAckClock(c: Core, e: Env, f0: Mem, i: In)
    requires Good(c, e, FlatApplyAll(f0, Buffered(c)), i) && !Ack(c)
    ensures Given(c) == [] && Buffered(Next(c, i)) == Buffered(c) + Taken(c, i)
    ensures Inv(Next(c, i), EnvNext(c, e, i), FlatApplyAll(f0, Buffered(Next(c, i))))
  {
    var f := FlatApplyAll(f0, Buffered(c));
    Step(c, e, f, i);
    BufferStep(c, e, f, i);
    TakenApplies(c, f, i);
  }

  /** From any good state: the answers given are flat memory's answers to the buffered request
      followed by the accepted ones, in order, and all but at most one have been given. */
  lemma {:induction false} RunIsFlat(s: Sys, ins: seq<In>, f0: Mem)
    requires Inv(s.core, s.env, FlatApplyAll(f0, Buffered(s.core))) && Legal(s, ins)
    ensures Responses(s, ins) <= FlatAnswers(f0, Buffered(s.core) + Accepted(s, ins))
    ensures |Buffered(s.core) + Accepted(s, ins)| <= |Responses(s, ins)| + 1
    ensures var r := Run(s, ins);
            Inv(r.core, r.env, FlatApplyAll(f0, Buffered(s.core) + Accepted(s, ins)))
    decreases |ins|
  {
    hide Inv, Next, EnvNext, StateFits;
    var q := Buffered(s.core);
    if ins == [] {
      assert q + Accepted(s, ins) == q;
    } else {
      var s', taken := SysNext(s, ins[0]), Taken(s.core, ins[0]);
      var rest := Accepted(s', ins[1..]);
      assert q + Accepted(s, ins) == q + taken + rest;
      if Ack(s.core) {
        AckClock(s.core, s.env, f0, ins[0]);
        RunIsFlat(s', ins[1..], FlatApply(f0, q[0]));
        assert q + taken + rest == [q[0]] + (taken + rest);
        FlatCons(f0, q[0], taken + rest);
      } else {
        NoAckClock(s.core, s.env, f0, ins[0]);
        RunIsFlat(s', ins[1..], f0);
      }
    }
  }

  /** A run from reset, with the invariant it ends in. */
  lemma RunFromReset(s: Sys, ins: seq<In>)
    requires AfterReset(s) && Legal(s, ins)
    ensures Responses(s, ins) <= FlatAnswers(s.env.mem, Accepted(s, ins))
    ensures |Accepted(s, ins)| <= |Responses(s, ins)| + 1
    ensures var r := Run(s, ins); Inv(r.core, r.env, FlatApplyAll(s.env.mem, Accepted(s, ins)))
  {
    assert Buffered(s.core) + Accepted(s, ins) == Accepted(s, ins);
    RunIsFlat(s, ins, s.env.mem);
  }

  /** When a full flush is acknowledged no line is valid and the backing memory alone equals the
      flat memory. */
  lemma FlushLeavesMemory(s: Sys, ins: seq<In>)
    requires AfterReset(s) && Legal(s, ins)
    requires Ack(Run(s, ins).core) && Run(s, ins).core.m.flush
    ensures Sized(Run(s, ins).core) && EmptyBelow(Run(s, ins).core, LINES)
    ensures forall a: Addr {:trigger Index(a)} ::
              Rd(Run(s, ins).env.mem, Index(a)) == Rd(FlatApplyAll(s.env.mem, Accepted(s, ins)), Index(a))
  {
    RunFromReset(s, ins);
    var r, f := Run(s, ins), FlatApplyAll(s.env.mem, Accepted(s, ins));
    forall a: Addr ensures Rd(r.env.mem, Index(a)) == Rd(f, Index(a)) {
      assert Rd(f, Index(a)) == Pending(r.core, a, View(InUse(r.core), r.env.mem, a));
    }
  }

  /** When a line writeback is acknowledged the backing memory holds the flat memory's word at every
      address of the line. */
  lemma WritebackLeavesMemory(s: Sys, ins: seq<In>, a: Addr)
    requires AfterReset(s) && Legal(s, ins)
    requires var c := Run(s, ins).core;
             Ack(c) && c.m.writeback && a.tag == c.m.addr.tag && a.line == c.m.addr.line
    ensures Rd(Run(s, ins).env.mem, Index(a)) == Rd(FlatApplyAll(s.env.mem, Accepted(s, ins)), Index(a))
  {
    RunFromReset(s, ins);
    var r, f := Run(s, ins), FlatApplyAll(s.env.mem, Accepted(s, ins));
    hide Run, Legal, Accepted;
    assert Rd(f, Index(a)) == Pending(r.core, a, View(InUse(r.core), r.env.mem, a));
    assert forall way: bool :: Holds(Rams(r.core), way, a) == Holds(Rams(r.core), way, r.core.m.addr);
  }

  /** The cache refines flat memory: after reset, for every sequence of requests and every accept
      and acknowledge pattern, the responses are flat memory's responses to the accepted requests,
      one each and in order, with at most one outstanding; and when a writeback or a flush is
      acknowledged the backing memory holds the flat memory's words, in the line or everywhere. */
  lemma CacheIsFlatMemory(s: Sys, ins: seq<In>)
    requires AfterReset(s) && Legal(s, ins)
    ensures Responses(s, ins) <= FlatAnswers(s.env.mem, Accepted(s, ins))
    ensures |Accepted(s, ins)| <= |Responses(s, ins)| + 1
    ensures var r, f := Run(s, ins), FlatApplyAll(s.env.mem, Accepted(s, ins));
            Ack(r.core) ==>
              forall a: Addr {:trigger Index(a)} ::
                r.core.m.flush || (r.core.m.writeback && a.tag == r.core.m.addr.tag && a.line == r.core.m.addr.line) ==>
                  Rd(r.env.mem, Index(a)) == Rd(f, Index(a))
  {
    RunFromReset(s, ins);
    var r, f := Run(s, ins), FlatApplyAll(s.env.mem, Accepted(s, ins));
    if Ack(r.core) && r.core.m.flush { FlushLeavesMemory(s, ins); }
    if Ack(r.core) && r.core.m.writeback {
      forall a: Addr | a.tag == r.core.m.addr.tag && a.line == r.core.m.addr.line
        ensures Rd(r.env.mem, Index(a)) == Rd(f, Index(a))
      {
        WritebackLeavesMemory(s, ins, a);
      }
    }
    hide Inv, Run, Legal, Accepted, Responses, FlatApplyAll, FlatAnswers;
  }
}
