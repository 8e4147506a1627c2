/** The read path of the interconnect: the arbiter's read side, the address tap behind it, and the
    routing of responses by their identifiers. */
module ReadPath {
  import opened Arbiter
  import opened Seqs

  // ---------------------------------------------------------------------------- Address tap

  /** The tap's read registers. Target 0 is the memory, 1 to 5 the peripherals. */
  datatype Tap = Tap(pending: nat, id: nat, target: nat)

  const TAP_RESET := Tap(0, 0, 0)

  const MAX_PENDING := 15

  /** Peripheral k answers the addresses whose top byte is 0x8F + k. */
  function Target(addr: nat): (t: nat)
    ensures t <= 5
  {
    var top := addr / 0x100_0000;
    if top == 0x90 then 1 else if top == 0x91 then 2 else if top == 0x92 then 3
    else if top == 0x93 then 4 else if top == 0x94 then 5 else 0
  }

  /** The peripherals' windows are sixteen megabytes each, from 0x90000000 upwards; all else is memory. */
  lemma TargetIsWindow(addr: nat, k: nat)
    requires 1 <= k <= 5
    ensures Target(addr) == k <==> 0x8F00_0000 + k * 0x100_0000 <= addr < 0x9000_0000 + k * 0x100_0000
    ensures Target(addr) == 0 <==> !(0x9000_0000 <= addr < 0x9500_0000)
  {
    var top := addr / 0x100_0000;
    assert addr == top * 0x100_0000 + addr % 0x100_0000;
  }

  predicate TapAccepts(t: Tap, target: nat) {
    (t.target == target && t.pending != MAX_PENDING) || t.pending == 0
  }

  // ---------------------------------------------------------------------------- Both

  /** The arbiter's read side and the tap. */
  datatype Path = Path(robin: Robin, hold: bool, tap: Tap)

  const PATH_RESET := Path(ROBIN_RESET, false, TAP_RESET)

  /** A read request. */
  datatype Request = Request(addr: nat, id: nat)

  /** One clock: the ports' requests, which targets are ready, and the answer of the memory or a
      peripheral. `valid` and `last` are those of the target the tap listens to. */
  datatype In = In(
    ar: Four, req0: Request, req1: Request, req2: Request, req3: Request,
    ready: bool, valid: bool, last: bool, memId: nat, rready: Four)

  function RequestOf(i: In, p: PortIndex): Request {
    if p == 0 then i.req0 else if p == 1 then i.req1 else if p == 2 then i.req2 else i.req3
  }

  function ReadGrant(s: Path, i: In): Four { Grant(s.robin, i.ar, s.hold) }

  /** The port whose request the multiplexer passes on; port 0 when nobody is granted. */
  function SelectedPort(s: Path, i: In): PortIndex {
    var g := ReadGrant(s, i);
    if g.b1 then 1 else if g.b2 then 2 else if g.b3 then 3 else 0
  }

  predicate ArValid(s: Path, i: In) { Bit(i.ar, SelectedPort(s, i)) }

  function ArRequest(s: Path, i: In): Request { RequestOf(i, SelectedPort(s, i)) }

  predicate ArReady(s: Path, i: In) { TapAccepts(s.tap, Target(ArRequest(s, i).addr)) && i.ready }

  predicate ArTaken(s: Path, i: In) { ArValid(s, i) && ArReady(s, i) }

  /** The identifier of a response: the memory's own, or for a peripheral the last accepted one. */
  function ResponseId(s: Path, i: In): nat { if s.tap.target == 0 then i.memId else s.tap.id }

  /** A peripheral answers with a single beat. */
  predicate ResponseLast(s: Path, i: In) { s.tap.target != 0 || i.last }

  /** The port a response is routed to: the upper two bits of its identifier. */
  function Routed(id: nat): PortIndex { (id / 4) % 4 }

  /** Each port owns four identifiers; the CPU's two caches use 4 and 8. */
  lemma RoutedPort(p: PortIndex, low: nat)
    requires low < 4
    ensures Routed(4 * p + low) == p && Routed(4) == 1 && Routed(8) == 2
  {
  }

  predicate ResponseTaken(s: Path, i: In) { i.valid && Bit(i.rready, Routed(ResponseId(s, i))) }

  /** The last beat of a response is taken. */
  predicate Finishes(s: Path, i: In) { ResponseTaken(s, i) && ResponseLast(s, i) }

  function TapNext(s: Path, i: In): Tap {
    var up, down := ArTaken(s, i), Finishes(s, i);
    Tap(if up && !down then (s.tap.pending + 1) % 16 else if down && !up then (s.tap.pending + 15) % 16 else s.tap.pending,
        if up then ArRequest(s, i).id else s.tap.id,
        if up then Target(ArRequest(s, i).addr) else s.tap.target)
  }

  /** One rising clock edge. */
  function Next(s: Path, i: In): Path {
    Path(RobinNext(s.robin, i.ar, s.hold),
         if ArValid(s, i) && !ArReady(s, i) then true else if ArReady(s, i) then false else s.hold,
         TapNext(s, i))
  }

  // ---------------------------------------------------------------------------- Outstanding reads

  /** A read on its way: the port that asked, its identifier and its target. */
  datatype Read = Read(port: PortIndex, id: nat, target: nat)

  function Accepted(s: Path, i: In): seq<Read> {
    if ArTaken(s, i) then [Read(SelectedPort(s, i), ArRequest(s, i).id, Target(ArRequest(s, i).addr))] else []
  }

  /** The port of the oldest read takes the last beat of its answer; a peripheral's only beat is its last. */
  predicate Done(out: seq<Read>, i: In) {
    out != [] && i.valid && Bit(i.rready, out[0].port) && (out[0].target != 0 || i.last)
  }

  /** The reads still to be answered. */
  function NextOut(s: Path, out: seq<Read>, i: In): seq<Read> {
    (if Done(out, i) then out[1..] else out) + Accepted(s, i)
  }

  /** Each port uses identifiers that name it: the CPU's data port 4, its instruction port 8. */
  predicate IdsOk(i: In) {
    forall p: PortIndex :: Bit(i.ar, p) ==> Routed(RequestOf(i, p).id) == p && RequestOf(i, p).id < 16
  }

  /** Answers come only to outstanding reads; the memory answers in order and echoes identifiers;
      a peripheral takes a read only when it owes none. */
  predicate TargetsOk(s: Path, out: seq<Read>, i: In) {
    && (i.valid ==> out != [])
    && (i.valid && out != [] && s.tap.target == 0 ==> i.memId == out[0].id)
    && (ArTaken(s, i) && Target(ArRequest(s, i).addr) != 0 ==> out == [])
  }

  /** The counter counts, every read on its way goes to one target, and its port is in its identifier. */
  predicate Fits(s: Path, out: seq<Read>) {
    && s.tap.pending == |out| <= MAX_PENDING && s.tap.target <= 5
    && (forall r <- out :: r.target == s.tap.target && Routed(r.id) == r.port)
    && (s.tap.target != 0 && out != [] ==> |out| == 1 && out[0].id == s.tap.id)
  }

  /** A response in this clock belongs to the oldest read, and is routed to the port that asked. */
  lemma ResponseIsOldest(s: Path, out: seq<Read>, i: In)
    requires Fits(s, out) && TargetsOk(s, out, i) && i.valid
    ensures out != [] && ResponseId(s, i) == out[0].id && Routed(ResponseId(s, i)) == out[0].port
  {
    assert out[0] in out;
  }

  /** The tap counts a read down exactly when it is done. */
  lemma FinishesWhenDone(s: Path, out: seq<Read>, i: In)
    requires Fits(s, out) && TargetsOk(s, out, i)
    ensures Finishes(s, i) <==> Done(out, i)
  {
    if i.valid { ResponseIsOldest(s, out, i); }
    if out != [] { assert out[0] in out; }
    hide Routed;
  }

  lemma Step(s: Path, out: seq<Read>, i: In)
    requires Fits(s, out) && IdsOk(i) && TargetsOk(s, out, i)
    ensures Fits(Next(s, i), NextOut(s, out, i))
  {
    FinishesWhenDone(s, out, i);
    hide Grant, RobinNext, Target, Routed, Done;
    var n, rest := NextOut(s, out, i), if Finishes(s, i) then out[1..] else out;
    assert forall r <- rest :: r in out;
    var p, q := SelectedPort(s, i), ArRequest(s, i);
    assert ArTaken(s, i) ==> Bit(i.ar, p) && Routed(q.id) == p;
  }

  /** The tap takes a read that its target is ready for, if nothing is outstanding or what is outstanding
      goes to the same target and is not yet fifteen; and no other. */
  lemma TapTakes(s: Path, out: seq<Read>, i: In)
    requires Fits(s, out)
    ensures var target := Target(ArRequest(s, i).addr);
            ArReady(s, i) <==> i.ready && (out == [] || (out[0].target == target && |out| < MAX_PENDING))
  {
    hide Target, ArRequest;
    if out != [] { assert out[0] in out; }
  }

  /** The request passed on is, whole, that of the port granted; nothing is shown when nobody asks. */
  lemma PassesGrantedRequest(s: Path, i: In)
    requires RobinFits(s.robin) && !s.hold
    ensures ReadGrant(s, i) == OneHot(0) ==> ArRequest(s, i) == i.req0 && ArValid(s, i)
    ensures ReadGrant(s, i) == OneHot(1) ==> ArRequest(s, i) == i.req1 && ArValid(s, i)
    ensures ReadGrant(s, i) == OneHot(2) ==> ArRequest(s, i) == i.req2 && ArValid(s, i)
    ensures ReadGrant(s, i) == OneHot(3) ==> ArRequest(s, i) == i.req3 && ArValid(s, i)
    ensures i.ar == NONE <==> !ArValid(s, i)
  {
    var st :| 0 <= st <= 4 && s.robin.mask == MaskFrom(st);
    if i.ar == NONE {
      NoRequest(st, s.robin, i.ar);
    } else {
      var g := GrantIsNearest(st, s.robin, i.ar);
    }
  }

  /** The grant is held for an address that was shown and not taken, and for nothing else: taking it
      releases the grant. */
  lemma HoldIsEarned(s: Path, i: In)
    requires s.hold ==> ArValid(s, i)
    ensures Next(s, i).hold <==> ArValid(s, i) && !(i.ready && TapAccepts(s.tap, Target(ArRequest(s, i).addr)))
  {
    hide Target, ReadGrant, Bit;
  }

  /** An address that is shown and not taken is shown again, from the same port. */
  lemma AddressStays(s: Path, i: In, j: In)
    requires ArValid(s, i) && !ArReady(s, i)
    ensures SelectedPort(Next(s, i), j) == SelectedPort(s, i)
  {
    hide Chosen;
  }

  // ---------------------------------------------------------------------------- Runs

  function Run(s: Path, ins: seq<In>): Path
    decreases |ins|
  {
    if ins == [] then s else Run(Next(s, ins[0]), ins[1..])
  }

  function RunOut(s: Path, out: seq<Read>, ins: seq<In>): seq<Read>
    decreases |ins|
  {
    if ins == [] then out else RunOut(Next(s, ins[0]), NextOut(s, out, ins[0]), ins[1..])
  }

  predicate Legal(s: Path, out: seq<Read>, ins: seq<In>)
    decreases |ins|
  {
    ins == [] ||
    (IdsOk(ins[0]) && TargetsOk(s, out, ins[0]) && Legal(Next(s, ins[0]), NextOut(s, out, ins[0]), ins[1..]))
  }

  /** The port and identifier of every accepted read, and of every finished response. */
  datatype Tag = Tag(port: PortIndex, id: nat)

  function Asked(s: Path, ins: seq<In>): seq<Tag>
    decreases |ins|
  {
    if ins == [] then []
    else (if ArTaken(s, ins[0]) then [Tag(SelectedPort(s, ins[0]), ArRequest(s, ins[0]).id)] else [])
         + Asked(Next(s, ins[0]), ins[1..])
  }

  function Answered(s: Path, ins: seq<In>): seq<Tag>
    decreases |ins|
  {
    if ins == [] then []
    else (if Finishes(s, ins[0]) then [Tag(Routed(ResponseId(s, ins[0])), ResponseId(s, ins[0]))] else [])
         + Answered(Next(s, ins[0]), ins[1..])
  }

  function Tags(out: seq<Read>): seq<Tag>
    decreases |out|
  {
    if out == [] then [] else [Tag(out[0].port, out[0].id)] + Tags(out[1..])
  }

  lemma {:induction false} TagsConcat(xs: seq<Read>, ys: seq<Read>)
    ensures Tags(xs + ys) == Tags(xs) + Tags(ys)
    decreases |xs|
  {
    if xs == [] {
      assert xs + ys == ys;
    } else {
      assert (xs + ys)[1..] == xs[1..] + ys && (xs + ys)[0] == xs[0];
      TagsConcat(xs[1..], ys);
      Assoc([Tag(xs[0].port, xs[0].id)], Tags(xs[1..]), Tags(ys));
    }
  }

  /** One clock's books: what was owed and asked for is what was answered and is still owed. */
  lemma StepTags(s: Path, out: seq<Read>, i: In)
    requires Fits(s, out) && TargetsOk(s, out, i)
    ensures Tags(out) + (if ArTaken(s, i) then [Tag(SelectedPort(s, i), ArRequest(s, i).id)] else [])
         == (if Finishes(s, i) then [Tag(Routed(ResponseId(s, i)), ResponseId(s, i))] else []) + Tags(NextOut(s, out, i))
  {
    FinishesWhenDone(s, out, i);
    hide Done;
    var acc := Accepted(s, i);
    var asked := if ArTaken(s, i) then [Tag(SelectedPort(s, i), ArRequest(s, i).id)] else [];
    assert Tags(acc) == asked by { OneTag(acc); }
    if Finishes(s, i) {
      ResponseIsOldest(s, out, i);
      TagsConcat(out[1..], acc);
      Assoc([Tag(out[0].port, out[0].id)], Tags(out[1..]), asked);
    } else {
      TagsConcat(out, acc);
    }
  }

  lemma OneTag(xs: seq<Read>)
    requires |xs| <= 1
    ensures Tags(xs) == if xs == [] then [] else [Tag(xs[0].port, xs[0].id)]
  {
  }

  lemma {:induction false} RunRoutes(s: Path, out: seq<Read>, ins: seq<In>)
    requires Fits(s, out) && Legal(s, out, ins)
    ensures Fits(Run(s, ins), RunOut(s, out, ins))
    ensures Tags(out) + Asked(s, ins) == Answered(s, ins) + Tags(RunOut(s, out, ins))
    decreases |ins|
  {
    hide Fits, IdsOk, TargetsOk, Next, NextOut, ArTaken, Finishes, Tags, SelectedPort, ArRequest, ResponseId, Routed;
    if ins != [] {
      var i, n, out' := ins[0], Next(s, ins[0]), NextOut(s, out, ins[0]);
      Step(s, out, i);
      StepTags(s, out, i);
      RunRoutes(n, out', ins[1..]);
      Trade(Tags(out), if ArTaken(s, i) then [Tag(SelectedPort(s, i), ArRequest(s, i).id)] else [],
            if Finishes(s, i) then [Tag(Routed(ResponseId(s, i)), ResponseId(s, i))] else [], Tags(out'),
            Asked(n, ins[1..]), Answered(n, ins[1..]), Tags(RunOut(n, out', ins[1..])));
    }
  }

  /** Routing: from reset, for every interleaving of the ports' reads, every finished response goes
      to the port that asked, with its identifier, once each and in the order accepted; the counter is
      the number outstanding, and all of those go to one target. */
  lemma ReadsAreRouted(ins: seq<In>)
    requires Legal(PATH_RESET, [], ins)
    ensures Answered(PATH_RESET, ins) <= Asked(PATH_RESET, ins)
    ensures |Asked(PATH_RESET, ins)| - |Answered(PATH_RESET, ins)| == Run(PATH_RESET, ins).tap.pending <= MAX_PENDING
    ensures forall r <- RunOut(PATH_RESET, [], ins) :: r.target == Run(PATH_RESET, ins).tap.target
  {
    RunRoutes(PATH_RESET, [], ins);
    assert Tags([]) + Asked(PATH_RESET, ins) == Asked(PATH_RESET, ins);
    TagsLength(RunOut(PATH_RESET, [], ins));
  }

  lemma {:induction false} TagsLength(xs: seq<Read>)
    ensures |Tags(xs)| == |xs|
    decreases |xs|
  {
    if xs != [] { TagsLength(xs[1..]); }
  }

  /** The counter never wraps: whenever it changes it changes by one within 0 to 15. */
  lemma CounterNeverWraps(ins: seq<In>, i: In)
    requires Legal(PATH_RESET, [], ins) && IdsOk(i) && TargetsOk(Run(PATH_RESET, ins), RunOut(PATH_RESET, [], ins), i)
    ensures var s := Run(PATH_RESET, ins);
            && (ArTaken(s, i) && !Finishes(s, i) ==> Next(s, i).tap.pending == s.tap.pending + 1)
            && (Finishes(s, i) && !ArTaken(s, i) ==> Next(s, i).tap.pending == s.tap.pending - 1)
  {
    hide Target, Routed, Grant, RobinNext, Legal, SelectedPort, ArRequest, TapAccepts, Bit;
    RunRoutes(PATH_RESET, [], ins);
    CounterSteps(Run(PATH_RESET, ins), RunOut(PATH_RESET, [], ins), i);
  }

  lemma CounterSteps(s: Path, out: seq<Read>, i: In)
    requires Fits(s, out) && TargetsOk(s, out, i)
    ensures ArTaken(s, i) && !Finishes(s, i) ==> Next(s, i).tap.pending == s.tap.pending + 1
    ensures Finishes(s, i) && !ArTaken(s, i) ==> Next(s, i).tap.pending == s.tap.pending - 1
  {
    hide Target, Routed, Grant, RobinNext, SelectedPort, ArRequest, Bit;
  }

  /** Why a peripheral must not take a second read while it owes one: the first answer would then be
      routed to the port that asked if and only if the second read comes from that port too. */
  lemma SecondReadMisroutes(s: Path, a: Read, i: In, j: In)
    requires s.tap == Tap(1, a.id, a.target) && a.target != 0 && Routed(a.id) == a.port
    requires IdsOk(i) && ArTaken(s, i) && !i.valid && Target(ArRequest(s, i).addr) == a.target
    ensures Routed(ResponseId(Next(s, i), j)) == a.port <==> SelectedPort(s, i) == a.port
  {
    hide SelectedPort;
    assert Bit(i.ar, SelectedPort(s, i));
  }
}
