/** The write path between the data cache and the AXI bus: the request FIFO, the beat counters and
    the widget that decouples the address channel from the data channel. */
module AxiBurst {
  import opened Words
  import opened Seqs
  import Fifo

  /** A request: a read, or one beat of a write. The first beat of a write burst carries the number
      of beats that follow it; the others carry zero. */
  datatype Request = Read(addr: nat, len: nat) | Write(addr: nat, data: Word, strobe: Strobe, len: nat)

  const MAX_LEN := 254

  /** What passes on the write channels. */
  datatype Item = Address(addr: nat, len: nat) | Data(data: Word, strobe: Strobe, last: bool)

  /** The data beat the widget holds after its address was taken without it. */
  datatype Beat = Beat(data: Word, strobe: Strobe, last: bool)

  // ---------------------------------------------------------------------------- Registers

  datatype Regs = Regs(
    fifo: seq<Request>,
    // dcache_axi
    burst: nat, outstanding: nat,
    // dcache_axi_axi
    awInhibit: bool, wInhibit: bool, count: nat, bufValid: bool, buf: Beat)

  const RESET := Regs([], 0, 0, false, false, 0, false, Beat(ZERO_WORD, NO_STROBE, false))

  predicate Sized(s: Regs) { |s.fifo| <= Fifo.DEPTH }

  /** One clock of inputs: the request pushed, and the bus. */
  datatype In = In(push: bool, req: Request, awReady: bool, wReady: bool, arReady: bool, response: bool)

  // ---------------------------------------------------------------------------- Signals

  predicate CanIssue(s: Regs) { s.fifo != [] && s.outstanding != 2 }

  predicate IsWrite(s: Regs) { CanIssue(s) && s.fifo[0].Write? }

  predicate IsRead(s: Regs) { CanIssue(s) && s.fifo[0].Read? }

  predicate AwValid(s: Regs) { IsWrite(s) && !s.awInhibit }

  predicate WValid(s: Regs) { s.bufValid || (IsWrite(s) && !s.wInhibit) }

  /** The last beat: a lone one beside its address, or the one the counter points out. */
  predicate LastBeat(s: Regs) { (AwValid(s) && s.fifo[0].len == 0) || s.count == 1 }

  function WBeat(s: Regs): Beat
    requires WValid(s)
  {
    if s.bufValid then s.buf else Beat(s.fifo[0].data, s.fifo[0].strobe, LastBeat(s))
  }

  predicate AwTaken(s: Regs, i: In) { AwValid(s) && i.awReady }

  predicate WTaken(s: Regs, i: In) { WValid(s) && i.wReady }

  predicate ArTaken(s: Regs, i: In) { IsRead(s) && i.arReady }

  /** The widget takes the request at the head of the FIFO. */
  predicate Accept(s: Regs, i: In) {
    AwTaken(s, i) || (WTaken(s, i) && !s.bufValid) || ArTaken(s, i)
  }

  /** The request taken is a read, or the last beat of a write. */
  predicate Completes(s: Regs, i: In) {
    Accept(s, i) && CanIssue(s) && (IsRead(s) || (s.fifo[0].len == 0 && s.burst == 0))
  }

  // ---------------------------------------------------------------------------- Clock

  function NextBurst(s: Regs, i: In): nat {
    if IsWrite(s) && s.burst == 0 && s.fifo[0].len != 0 && Accept(s, i) then s.fifo[0].len - 1
    else if s.burst != 0 && IsWrite(s) && Accept(s, i) then s.burst - 1
    else s.burst
  }

  function NextOutstanding(s: Regs, i: In): nat {
    var push, pop := Completes(s, i) && s.outstanding != 2, i.response && s.outstanding != 0;
    if push && !pop then s.outstanding + 1 else if pop && !push then s.outstanding - 1 else s.outstanding
  }

  predicate NextAwInhibit(s: Regs, i: In) {
    if AwTaken(s, i) && WValid(s) && !i.wReady then true
    else if AwTaken(s, i) && s.fifo[0].len != 0 then true
    else if WTaken(s, i) && WBeat(s).last then false
    else s.awInhibit
  }

  predicate NextWInhibit(s: Regs, i: In) {
    if WTaken(s, i) && AwValid(s) && !i.awReady then true
    else if AwTaken(s, i) then false
    else s.wInhibit
  }

  function NextCount(s: Regs, i: In): nat {
    if AwTaken(s, i) then (if !i.wReady && !s.wInhibit then (s.fifo[0].len + 1) % 256 else s.fifo[0].len)
    else if s.count != 0 && WTaken(s, i) then s.count - 1
    else s.count
  }

  predicate NextBufValid(s: Regs, i: In) {
    if WValid(s) && !i.wReady && AwTaken(s, i) then true else if i.wReady then false else s.bufValid
  }

  /** One rising clock edge. */
  function Next(s: Regs, i: In): Regs {
    Regs(Fifo.Clocked(s.fifo, i.push, i.req, Accept(s, i)),
         NextBurst(s, i), NextOutstanding(s, i),
         NextAwInhibit(s, i), NextWInhibit(s, i), NextCount(s, i),
         NextBufValid(s, i), if WValid(s) then WBeat(s) else s.buf)
  }

  // ---------------------------------------------------------------------------- Traces

  /** What the write channels carry in one clock, the address before the data. */
  function Emitted(s: Regs, i: In): seq<Item> {
    (if AwValid(s) && i.awReady then [Address(s.fifo[0].addr, s.fifo[0].len)] else [])
    + (if WValid(s) && i.wReady then [Data(WBeat(s).data, WBeat(s).strobe, WBeat(s).last)] else [])
  }

  /** What the read address channel carries in one clock. */
  function Fetched(s: Regs, i: In): seq<Item> {
    if IsRead(s) && i.arReady then [Address(s.fifo[0].addr, s.fifo[0].len)] else []
  }

  /** What the read address channel must carry for a stream of requests. */
  function Reads(rs: seq<Request>): seq<Item>
    decreases |rs|
  {
    if rs == [] then [] else (if rs[0].Read? then [Address(rs[0].addr, rs[0].len)] else []) + Reads(rs[1..])
  }

  /** The request the FIFO takes in this clock. */
  function Pushed(s: Regs, i: In): seq<Request> {
    if i.push && |s.fifo| < Fifo.DEPTH then [i.req] else []
  }

  /** What the write channels must carry for a stream of requests, `left` beats into a burst: one
      address for each burst and after it its beats in order, the last and only the last marked. */
  function Expected(rs: seq<Request>, left: nat): seq<Item>
    decreases |rs|
  {
    if rs == [] then []
    else
      match rs[0]
      case Read(_, _) => Expected(rs[1..], left)
      case Write(a, d, st, len) =>
        if left == 0 then [Address(a, len), Data(d, st, len == 0)] + Expected(rs[1..], len)
        else [Data(d, st, left == 1)] + Expected(rs[1..], left - 1)
  }

  /** The beats of the current burst still to come after a stream of requests. */
  function LeftAfter(rs: seq<Request>, left: nat): nat
    decreases |rs|
  {
    if rs == [] then left
    else LeftAfter(rs[1..], Beats(rs[0], left))
  }

  function Beats(r: Request, left: nat): nat {
    if r.Read? then left else if left == 0 then r.len else left - 1
  }

  /** A requester finishes a burst before it starts anything else, and marks only first beats. */
  predicate FitsAfter(r: Request, left: nat) {
    if left == 0 then r.len <= MAX_LEN else r.Write? && r.len == 0
  }

  predicate WellFormed(rs: seq<Request>, left: nat)
    decreases |rs|
  {
    rs == [] || (FitsAfter(rs[0], left) && WellFormed(rs[1..], Beats(rs[0], left)))
  }

  lemma {:induction false} Concat(rs: seq<Request>, ts: seq<Request>, left: nat)
    ensures Expected(rs + ts, left) == Expected(rs, left) + Expected(ts, LeftAfter(rs, left))
    ensures LeftAfter(rs + ts, left) == LeftAfter(ts, LeftAfter(rs, left))
    ensures WellFormed(rs + ts, left) <==> WellFormed(rs, left) && WellFormed(ts, LeftAfter(rs, left))
    decreases |rs|
  {
    if rs == [] {
      assert rs + ts == ts;
    } else {
      assert (rs + ts)[1..] == rs[1..] + ts;
      Concat(rs[1..], ts, Beats(rs[0], left));
    }
  }

  // ---------------------------------------------------------------------------- Invariant

  /** `left` beats of the burst under way are still to leave the FIFO. */
  predicate Inv(s: Regs, left: nat) {
    && Sized(s) && WellFormed(s.fifo, left) && s.outstanding <= 2 && left <= MAX_LEN
    && !s.wInhibit
    && s.awInhibit == (s.bufValid || left > 0)
    && s.count == left + (if s.bufValid then 1 else 0)
    && (s.bufValid ==> s.buf.last == (left == 0))
    && s.burst == (if left > 0 then left - 1 else 0)
    && (left > 0 ==> s.outstanding != 2)
  }

  /** The beat waiting in the widget. */
  function Held(s: Regs): seq<Item> {
    if s.bufValid then [Data(s.buf.data, s.buf.strobe, s.buf.last)] else []
  }

  /** The bus takes a first data beat while its address is still waiting. */
  predicate Early(s: Regs, i: In) {
    AwValid(s) && !i.awReady && WTaken(s, i)
  }

  /** The beats left after this clock. */
  function NextLeft(s: Regs, i: In, left: nat): nat {
    if Accept(s, i) && s.fifo != [] then Beats(s.fifo[0], left) else left
  }

  /** The FIFO's remaining requests once the widget has taken what it takes in this clock. */
  function Rest(s: Regs, i: In): seq<Request> {
    if Accept(s, i) && s.fifo != [] then s.fifo[1..] else s.fifo
  }

  /** Without early data the channels carry, clock by clock, what the stream demands. */
  lemma EmitsExpected(s: Regs, i: In, left: nat)
    requires Inv(s, left) && !Early(s, i)
    ensures var n := Next(s, i);
            Held(s) + Expected(s.fifo, left) == Emitted(s, i) + (Held(n) + Expected(Rest(s, i), NextLeft(s, i, left)))
  {
    hide NextBurst, NextOutstanding, NextAwInhibit, NextWInhibit, NextCount, WellFormed;
  }

  /** The counters after a clock. */
  lemma KeepsInv(s: Regs, i: In, left: nat)
    requires Inv(s, left) && !Early(s, i)
    requires WellFormed(Next(s, i).fifo, NextLeft(s, i, left))
    ensures Inv(Next(s, i), NextLeft(s, i, left))
  {
    hide Expected, WellFormed;
    if s.fifo != [] { HeadFits(s.fifo, left); }
  }

  lemma HeadFits(rs: seq<Request>, left: nat)
    requires WellFormed(rs, left) && rs != []
    ensures FitsAfter(rs[0], left) && WellFormed(rs[1..], Beats(rs[0], left))
  {
  }

  /** One clock: the invariant, and what is carried and still owed against what was owed before. */
  lemma Step(s: Regs, i: In, left: nat)
    requires Inv(s, left) && !Early(s, i) && WellFormed(s.fifo + Pushed(s, i), left)
    ensures var n, left' := Next(s, i), NextLeft(s, i, left);
            && Inv(n, left') && LeftAfter(n.fifo, left') == LeftAfter(s.fifo + Pushed(s, i), left)
            && Held(s) + Expected(s.fifo + Pushed(s, i), left) == Emitted(s, i) + (Held(n) + Expected(n.fifo, left'))
  {
    hide Next, Expected, WellFormed, Emitted, Accept, LeftAfter;
    var rest, pushed, left' := Rest(s, i), Pushed(s, i), NextLeft(s, i, left);
    assert Next(s, i).fifo == rest + pushed by { FifoAfter(s, i); }
    Concat(s.fifo, pushed, left);
    Concat(rest, pushed, left');
    HeadLeaves(s, i, left);
    KeepsInv(s, i, left);
    EmitsExpected(s, i, left);
    var n, later := Next(s, i), Expected(pushed, LeftAfter(s.fifo, left));
    assert Held(s) + (Expected(s.fifo, left) + later) == (Held(s) + Expected(s.fifo, left)) + later;
    assert Emitted(s, i) + (Held(n) + Expected(rest, left')) + later
        == Emitted(s, i) + (Held(n) + (Expected(rest, left') + later));
  }

  lemma FifoAfter(s: Regs, i: In)
    ensures Next(s, i).fifo == Rest(s, i) + Pushed(s, i)
  {
  }

  /** Taking the head leaves the rest of the stream as it was. */
  lemma HeadLeaves(s: Regs, i: In, left: nat)
    requires WellFormed(s.fifo, left)
    ensures var left' := NextLeft(s, i, left);
            LeftAfter(Rest(s, i), left') == LeftAfter(s.fifo, left) && WellFormed(Rest(s, i), left')
  {
  }

  // ---------------------------------------------------------------------------- Runs

  function Run(s: Regs, ins: seq<In>): Regs
    decreases |ins|
  {
    if ins == [] then s else Run(Next(s, ins[0]), ins[1..])
  }

  /** Everything the write channels carry over a run, and every request the FIFO takes. */
  function Trace(s: Regs, ins: seq<In>): seq<Item>
    decreases |ins|
  {
    if ins == [] then [] else Emitted(s, ins[0]) + Trace(Next(s, ins[0]), ins[1..])
  }

  function Requests(s: Regs, ins: seq<In>): seq<Request>
    decreases |ins|
  {
    if ins == [] then [] else Pushed(s, ins[0]) + Requests(Next(s, ins[0]), ins[1..])
  }

  predicate NeverEarly(s: Regs, ins: seq<In>)
    decreases |ins|
  {
    ins == [] || (!Early(s, ins[0]) && NeverEarly(Next(s, ins[0]), ins[1..]))
  }

  lemma {:induction false} RunCarries(s: Regs, ins: seq<In>, left: nat) returns (left': nat)
    requires Inv(s, left) && NeverEarly(s, ins) && WellFormed(s.fifo + Requests(s, ins), left)
    ensures var n := Run(s, ins);
            && Inv(n, left')
            && Held(s) + Expected(s.fifo + Requests(s, ins), left) == Trace(s, ins) + (Held(n) + Expected(n.fifo, left'))
    decreases |ins|
  {
    hide Inv, Next, Emitted, Expected, WellFormed, Early, Held, Pushed;
    if ins == [] {
      assert s.fifo + Requests(s, ins) == s.fifo;
      assert Trace(s, ins) + (Held(s) + Expected(s.fifo, left)) == Held(s) + Expected(s.fifo, left);
      return left;
    }
    var i, n, later := ins[0], Next(s, ins[0]), Requests(Next(s, ins[0]), ins[1..]);
    var now := s.fifo + Pushed(s, i);
    assert s.fifo + Requests(s, ins) == now + later;
    Concat(now, later, left);
    Step(s, i, left);
    var next := NextLeft(s, i, left);
    Concat(n.fifo, later, next);
    Concat(n.fifo, [], next);
    StepRest(s, i, left, later);
    left' := RunCarries(n, ins[1..], next);
    var after := Expected(later, LeftAfter(now, left));
    assert Held(s) + (Expected(now, left) + after) == (Held(s) + Expected(now, left)) + after;
    assert Emitted(s, i) + (Held(n) + Expected(n.fifo, next)) + after
        == Emitted(s, i) + (Held(n) + (Expected(n.fifo, next) + after));
    var e := Run(s, ins);
    assert Emitted(s, i) + (Trace(n, ins[1..]) + (Held(e) + Expected(e.fifo, left')))
        == Trace(s, ins) + (Held(e) + Expected(e.fifo, left'));
  }

  lemma StepRest(s: Regs, i: In, left: nat, later: seq<Request>)
    requires Inv(s, left) && !Early(s, i) && WellFormed(s.fifo + Pushed(s, i) + later, left)
    ensures WellFormed(Next(s, i).fifo + later, NextLeft(s, i, left))
  {
    hide Expected, Next, Accept;
    var now := s.fifo + Pushed(s, i);
    Concat(now, later, left);
    Step(s, i, left);
    Concat(Next(s, i).fifo, later, NextLeft(s, i, left));
    hide WellFormed;
    assert Inv(Next(s, i), NextLeft(s, i, left));
  }

  /** The shape of the write bursts: if no first data beat is taken before its address, then for
      every pattern of ready signals and responses the write channels carry exactly one address for
      each burst, with its length, and after it the pushed beats in order, marked last on the last
      only; and nothing is missing once the FIFO and the widget are empty. */
  lemma WriteBurstShape(ins: seq<In>)
    requires NeverEarly(RESET, ins) && WellFormed(Requests(RESET, ins), 0)
    ensures Trace(RESET, ins) <= Expected(Requests(RESET, ins), 0)
    ensures var n := Run(RESET, ins);
            n.fifo == [] && !n.bufValid ==> Trace(RESET, ins) == Expected(Requests(RESET, ins), 0)
  {
    assert [] + Requests(RESET, ins) == Requests(RESET, ins);
    var left := RunCarries(RESET, ins, 0);
    var n := Run(RESET, ins);
    assert Trace(RESET, ins) <= Trace(RESET, ins) + (Held(n) + Expected(n.fifo, left));
  }

  /** The condition is exact: the first clock that takes a first beat early puts its data where the
      address belongs. */
  lemma EarlyDataBreaksShape(ins: seq<In>, i: In)
    requires NeverEarly(RESET, ins) && WellFormed(Requests(RESET, ins), 0) && Early(Run(RESET, ins), i)
    ensures !(Trace(RESET, ins) + Emitted(Run(RESET, ins), i) <= Expected(Requests(RESET, ins), 0))
  {
    assert [] + Requests(RESET, ins) == Requests(RESET, ins);
    var left := RunCarries(RESET, ins, 0);
    var n := Run(RESET, ins);
    assert left == 0;
    var t := Trace(RESET, ins);
    assert Emitted(n, i)[0].Data?;
    assert (t + Emitted(n, i))[|t|].Data?;
    assert (t + (Held(n) + Expected(n.fifo, left)))[|t|].Address?;
  }

  /** What then goes wrong: a store whose data is taken one clock before the bus would take its
      address is dropped from the FIFO, and its address is never sent. */
  lemma EarlyDataLosesAddress(a: nat, d: Word, st: Strobe)
    ensures var q := Write(a, d, st, 0);
            var ins := [In(true, q, false, false, false, false), In(false, q, false, true, false, false),
                        In(false, q, true, true, false, false)];
            && Requests(RESET, ins) == [q] && Run(RESET, ins).fifo == [] && Trace(RESET, ins) == [Data(d, st, true)]
  {
    var q := Write(a, d, st, 0);
    var i0, i1 := In(true, q, false, false, false, false), In(false, q, false, true, false, false);
    var i2 := In(false, q, true, true, false, false);
    var s1, s2 := Next(RESET, i0), Next(Next(RESET, i0), i1);
    StorePushed(q, i0);
    StoreEarly(s1, q, i1);
    StoreGone(s2, i2);
    hide Next, Emitted, Pushed, Run, Trace, Requests;
    RunCons(RESET, i0, [i1, i2]);
    RunCons(s1, i1, [i2]);
    RunCons(s2, i2, []);
    RunNone(Next(s2, i2));
    assert [i0] + [i1, i2] == [i0, i1, i2] && [i1] + [i2] == [i1, i2] && [i2] + [] == [i2];
  }

  lemma RunCons(s: Regs, i: In, rest: seq<In>)
    ensures var ins, n := [i] + rest, Next(s, i);
            && Run(s, ins) == Run(n, rest) && Trace(s, ins) == Emitted(s, i) + Trace(n, rest)
            && Requests(s, ins) == Pushed(s, i) + Requests(n, rest)
  {
    hide Next, Emitted, Pushed;
    assert ([i] + rest)[1..] == rest;
  }

  lemma RunNone(s: Regs)
    ensures Run(s, []) == s && Trace(s, []) == [] && Requests(s, []) == []
  {
  }

  lemma StorePushed(q: Request, i: In)
    requires q.Write? && i.push && i.req == q && !i.response
    ensures Next(RESET, i) == RESET.(fifo := [q]) && Emitted(RESET, i) == [] && Pushed(RESET, i) == [q]
  {
  }

  lemma StoreEarly(s: Regs, q: Request, i: In)
    requires q.Write? && q.len == 0 && s == RESET.(fifo := [q]) && !i.push && !i.awReady && i.wReady && !i.response
    ensures Emitted(s, i) == [Data(q.data, q.strobe, true)] && Pushed(s, i) == []
    ensures Next(s, i).fifo == [] && !Next(s, i).bufValid
  {
  }

  lemma StoreGone(s: Regs, i: In)
    requires s.fifo == [] && !s.bufValid && !i.push
    ensures Emitted(s, i) == [] && Pushed(s, i) == [] && Next(s, i).fifo == []
  {
  }

  // ---------------------------------------------------------------------------- Reads and progress

  lemma {:induction false} ReadsConcat(rs: seq<Request>, ts: seq<Request>)
    ensures Reads(rs + ts) == Reads(rs) + Reads(ts)
    decreases |rs|
  {
    if rs == [] {
      assert rs + ts == ts;
    } else {
      assert (rs + ts)[1..] == rs[1..] + ts;
      ReadsConcat(rs[1..], ts);
      Assoc(if rs[0].Read? then [Address(rs[0].addr, rs[0].len)] else [], Reads(rs[1..]), Reads(ts));
    }
  }

  lemma ReadStep(s: Regs, i: In)
    ensures Reads(s.fifo) + Reads(Pushed(s, i)) == Fetched(s, i) + Reads(Next(s, i).fifo)
  {
    FifoAfter(s, i);
    ReadsConcat(Rest(s, i), Pushed(s, i));
    HeadRead(s, i);
    Assoc(Fetched(s, i), Reads(Rest(s, i)), Reads(Pushed(s, i)));
  }

  lemma HeadRead(s: Regs, i: In)
    ensures Reads(s.fifo) == Fetched(s, i) + Reads(Rest(s, i))
  {
  }

  /** What the read address channel carries over a run. */
  function ReadTrace(s: Regs, ins: seq<In>): seq<Item>
    decreases |ins|
  {
    if ins == [] then [] else Fetched(s, ins[0]) + ReadTrace(Next(s, ins[0]), ins[1..])
  }

  lemma {:induction false} RunReads(s: Regs, ins: seq<In>)
    ensures Reads(s.fifo) + Reads(Requests(s, ins)) == ReadTrace(s, ins) + Reads(Run(s, ins).fifo)
    decreases |ins|
  {
    hide Next, Fetched, Pushed, Reads;
    if ins == [] {
      assert Reads([]) == [] by { NoReads(); }
    } else {
      var i, n := ins[0], Next(s, ins[0]);
      ReadStep(s, i);
      RunReads(n, ins[1..]);
      ReadsConcat(Pushed(s, i), Requests(n, ins[1..]));
      Trade(Reads(s.fifo), Reads(Pushed(s, i)), Fetched(s, i), Reads(n.fifo), Reads(Requests(n, ins[1..])),
            ReadTrace(n, ins[1..]), Reads(Run(n, ins[1..]).fifo));
    }
  }

  lemma NoReads()
    ensures Reads([]) == []
  {
  }

  /** The reads: for every pattern of ready signals and responses the read address channel carries each
      pushed read once, in order, with its address and length, and none is missing once the FIFO is empty. */
  lemma ReadsPassOnce(ins: seq<In>)
    ensures ReadTrace(RESET, ins) <= Reads(Requests(RESET, ins))
    ensures Run(RESET, ins).fifo == [] ==> ReadTrace(RESET, ins) == Reads(Requests(RESET, ins))
  {
    RunReads(RESET, ins);
    NoReads();
    var t := ReadTrace(RESET, ins);
    assert [] + Reads(Requests(RESET, ins)) == Reads(Requests(RESET, ins)) && t + [] == t;
  }

  /** With room for a transaction and the bus ready on every channel the oldest request leaves the FIFO;
      a write waits one clock when the widget still holds a beat, which goes then. */
  lemma ReadyBusDrains(s: Regs, i: In, left: nat)
    requires Inv(s, left) && s.fifo != [] && s.outstanding != 2 && i.awReady && i.wReady && i.arReady
    ensures Next(s, i).fifo == (if s.bufValid && s.fifo[0].Write? then s.fifo else s.fifo[1..]) + Pushed(s, i)
    ensures !Next(s, i).bufValid
  {
    HeadFits(s.fifo, left);
    hide WellFormed, Expected;
  }

  /** After an early beat the widget shows no more data until the address has passed. */
  lemma EarlyBeatHoldsRest(s: Regs, i: In, j: In)
    requires Sized(s) && Early(s, i)
    ensures var n := Next(s, i);
            && (WValid(n) ==> n.bufValid) && !Early(n, j)
            && (AwTaken(n, j) ==> !Next(n, j).wInhibit) && (!AwTaken(n, j) && !WValid(n) ==> Next(n, j).wInhibit)
  {
    hide Expected, WellFormed;
  }

  // ---------------------------------------------------------------------------- Responses

  function Count(b: bool): nat { if b then 1 else 0 }

  /** Reads and writes handed to the bus over a run, and the responses it gave. */
  function Completed(s: Regs, ins: seq<In>): nat
    decreases |ins|
  {
    if ins == [] then 0 else Count(Completes(s, ins[0])) + Completed(Next(s, ins[0]), ins[1..])
  }

  function Responses(ins: seq<In>): nat
    decreases |ins|
  {
    if ins == [] then 0 else Count(ins[0].response) + Responses(ins[1..])
  }

  /** The bus answers only what is outstanding. */
  predicate Answering(s: Regs, ins: seq<In>)
    decreases |ins|
  {
    ins == [] || ((ins[0].response ==> s.outstanding > 0) && Answering(Next(s, ins[0]), ins[1..]))
  }

  /** The transactions that end in a stream of requests: its reads, and the last beats of its writes. */
  function Ends(rs: seq<Request>, left: nat): nat
    decreases |rs|
  {
    if rs == [] then 0 else Count(rs[0].Read? || Beats(rs[0], left) == 0) + Ends(rs[1..], Beats(rs[0], left))
  }

  lemma {:induction false} EndsConcat(rs: seq<Request>, ts: seq<Request>, left: nat)
    ensures Ends(rs + ts, left) == Ends(rs, left) + Ends(ts, LeftAfter(rs, left))
    decreases |rs|
  {
    if rs == [] {
      assert rs + ts == ts;
    } else {
      assert (rs + ts)[1..] == rs[1..] + ts;
      EndsConcat(rs[1..], ts, Beats(rs[0], left));
    }
  }

  /** A transaction is counted in the clock its last request leaves the FIFO, and no other. */
  lemma CompletesAtEnd(s: Regs, i: In, left: nat)
    requires Inv(s, left) && !Early(s, i)
    ensures Ends(s.fifo, left) == Count(Completes(s, i)) + Ends(Rest(s, i), NextLeft(s, i, left))
  {
    if s.fifo != [] { HeadFits(s.fifo, left); }
    hide WellFormed, Expected;
  }

  /** The counted transactions of a run are those that have ended: of all that were queued and pushed, the
      ones no longer in the FIFO. */
  lemma {:induction false} CountsTransactions(s: Regs, ins: seq<In>, left: nat) returns (left': nat)
    requires Inv(s, left) && NeverEarly(s, ins) && WellFormed(s.fifo + Requests(s, ins), left)
    ensures Inv(Run(s, ins), left')
    ensures Completed(s, ins) + Ends(Run(s, ins).fifo, left') == Ends(s.fifo + Requests(s, ins), left)
    decreases |ins|
  {
    hide Inv, Next, Emitted, Expected, WellFormed, Early, Held, Pushed, Completes, Ends;
    if ins == [] {
      assert s.fifo + Requests(s, ins) == s.fifo;
      return left;
    }
    var i, n, later := ins[0], Next(s, ins[0]), Requests(Next(s, ins[0]), ins[1..]);
    var now, next := s.fifo + Pushed(s, i), NextLeft(s, i, left);
    assert s.fifo + Requests(s, ins) == now + later;
    Concat(now, later, left);
    Step(s, i, left);
    StepRest(s, i, left, later);
    left' := CountsTransactions(n, ins[1..], next);
    FifoAfter(s, i);
    assert now + later == s.fifo + (Pushed(s, i) + later);
    assert n.fifo + later == Rest(s, i) + (Pushed(s, i) + later);
    EndsConcat(s.fifo, Pushed(s, i) + later, left);
    EndsConcat(Rest(s, i), Pushed(s, i) + later, next);
    WellFormedPrefix(s.fifo, Pushed(s, i) + later, left);
    HeadLeaves(s, i, left);
    CompletesAtEnd(s, i, left);
  }

  lemma WellFormedPrefix(rs: seq<Request>, ts: seq<Request>, left: nat)
    requires WellFormed(rs + ts, left)
    ensures WellFormed(rs, left)
  {
    Concat(rs, ts, left);
  }

  /** The counter is the number of transactions without a response, and never passes two. */
  lemma {:induction false} OutstandingCounts(s: Regs, ins: seq<In>)
    requires s.outstanding <= 2 && Answering(s, ins)
    ensures Run(s, ins).outstanding == s.outstanding + Completed(s, ins) - Responses(ins)
    ensures Run(s, ins).outstanding <= 2
    decreases |ins|
  {
    if ins != [] {
      OutstandingCounts(Next(s, ins[0]), ins[1..]);
    }
  }

  /** From reset, what is outstanding is every transaction that was pushed, less those still in the FIFO
      and those answered. */
  lemma OutstandingIsUnanswered(ins: seq<In>) returns (left: nat)
    requires NeverEarly(RESET, ins) && WellFormed(Requests(RESET, ins), 0) && Answering(RESET, ins)
    ensures Inv(Run(RESET, ins), left)
    ensures Run(RESET, ins).outstanding
         == Ends(Requests(RESET, ins), 0) - Ends(Run(RESET, ins).fifo, left) - Responses(ins)
  {
    hide Completed, Responses, Run, NeverEarly, Answering, Ends, Requests;
    assert [] + Requests(RESET, ins) == Requests(RESET, ins);
    left := CountsTransactions(RESET, ins, 0);
    OutstandingCounts(RESET, ins);
  }

  // ---------------------------------------------------------------------------- Machine

  /** dcache_axi with its FIFO and dcache_axi_axi: registers updated in place. */
  class BurstPort {
    const fifo: Fifo.Ring<Request>
    var burst: nat
    var outstanding: nat
    var awInhibit: bool
    var wInhibit: bool
    var count: nat
    var bufValid: bool
    var buf: Beat

    ghost predicate Valid() reads this, fifo {
      fifo.Valid()
    }

    function View(): Regs
      requires Valid()
      reads this, fifo, fifo.ram
    {
      Regs(fifo.Contents(), burst, outstanding, awInhibit, wInhibit, count, bufValid, buf)
    }

    constructor (f: Fifo.Ring<Request>)
      requires f.Valid() && f.Contents() == []
      ensures Valid() && fifo == f && View() == RESET
    {
      fifo := f;
      burst, outstanding, awInhibit, wInhibit, count, bufValid := 0, 0, false, false, 0, false;
      buf := Beat(ZERO_WORD, NO_STROBE, false);
    }

    /** The write channels and the accept signal in this clock. */
    method Drive(i: In) returns (aw: bool, w: bool, beat: Beat, accept: bool)
      requires Valid()
      ensures aw == AwValid(View()) && w == WValid(View()) && accept == Accept(View(), i)
      ensures w ==> beat == WBeat(View())
      ensures aw ==> fifo.count > 0 && fifo.Head() == View().fifo[0]
    {
      aw, w, beat := false, bufValid, buf;
      accept := false;
      if fifo.count != 0 && outstanding != 2 {
        var head := fifo.Head();
        if head.Read? {
          accept := i.arReady;
        } else {
          aw := !awInhibit;
          if !bufValid {
            w := !wInhibit;
            beat := Beat(head.data, head.strobe, (aw && head.len == 0) || count == 1);
          }
          accept := (aw && i.awReady) || (w && i.wReady && !bufValid);
        }
      }
    }

    /** One rising clock edge; the items are what the write channels carried. */
    method Clock(i: In) returns (items: seq<Item>)
      requires Valid()
      modifies this, fifo, fifo.ram
      ensures Valid() && View() == Next(old(View()), i) && items == Emitted(old(View()), i)
    {
      hide AwValid, WValid, WBeat, Accept, NextBurst, NextOutstanding;
      hide NextAwInhibit, NextWInhibit, NextCount, NextBufValid, Fifo.Clocked, Fifo.Ring.Contents;
      ghost var s := View();
      var aw, w, beat, accept := Drive(i);
      var awTaken, wTaken := aw && i.awReady, w && i.wReady;
      items := (if awTaken then [Address(fifo.Head().addr, fifo.Head().len)] else [])
             + (if wTaken then [Data(beat.data, beat.strobe, beat.last)] else []);
      ClockCounters(s, i, accept);
      ClockWidget(s, i, aw, w, beat);
      fifo.Clock(i.push, i.req, accept);
    }

    /** dcache_axi's burst and response counters. */
    method ClockCounters(ghost s: Regs, i: In, accept: bool)
      requires Valid() && s == View() && accept == Accept(s, i)
      modifies this`burst, this`outstanding
      ensures burst == NextBurst(s, i) && outstanding == NextOutstanding(s, i)
    {
      var pushed, popped := false, i.response && outstanding != 0;
      if fifo.count != 0 && outstanding != 2 && accept {
        var head := fifo.Head();
        pushed := head.Read? || (head.len == 0 && burst == 0);
        if head.Write? && burst == 0 && head.len != 0 {
          burst := head.len - 1;
        } else if head.Write? && burst != 0 {
          burst := burst - 1;
        }
      }
      if pushed && !popped {
        outstanding := outstanding + 1;
      } else if popped && !pushed {
        outstanding := outstanding - 1;
      }
    }

    /** dcache_axi_axi's inhibit flags, beat counter and skid buffer. */
    method ClockWidget(ghost s: Regs, i: In, aw: bool, w: bool, beat: Beat)
      requires Valid() && s.fifo == fifo.Contents() && (s.awInhibit, s.wInhibit, s.count) == (awInhibit, wInhibit, count)
      requires (s.bufValid, s.buf) == (bufValid, buf)
      requires aw == AwValid(s) && w == WValid(s) && (w ==> beat == WBeat(s))
      modifies this`awInhibit, this`wInhibit, this`count, this`bufValid, this`buf
      ensures awInhibit == NextAwInhibit(s, i) && wInhibit == NextWInhibit(s, i) && count == NextCount(s, i)
      ensures bufValid == NextBufValid(s, i) && buf == if WValid(s) then WBeat(s) else s.buf
    {
      if aw && i.awReady {
        var len := fifo.Head().len;
        count := if !i.wReady && !wInhibit then (len + 1) % 256 else len;
        awInhibit := if (w && !i.wReady) || len != 0 then true else if w && beat.last then false else awInhibit;
        wInhibit := false;
      } else if w && i.wReady {
        if count != 0 { count := count - 1; }
        if beat.last { awInhibit := false; }
        if aw { wInhibit := true; }
      }
      if w && !i.wReady && aw && i.awReady {
        bufValid := true;
      } else if i.wReady {
        bufValid := false;
      }
      if w {
        buf := beat;
      }
    }
  }
}
