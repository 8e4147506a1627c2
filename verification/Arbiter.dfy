/** The four-port AXI arbiter: round-robin grants, and writes that are never interleaved. */
module Arbiter {

  /** One bit a port. */
  datatype Four = Four(b0: bool, b1: bool, b2: bool, b3: bool)

  type PortIndex = n: nat | n < 4

  const NONE := Four(false, false, false, false)
  const ALL := Four(true, true, true, true)

  predicate Bit(x: Four, p: PortIndex) {
    if p == 0 then x.b0 else if p == 1 then x.b1 else if p == 2 then x.b2 else x.b3
  }

  function And(x: Four, y: Four): Four { Four(x.b0 && y.b0, x.b1 && y.b1, x.b2 && y.b2, x.b3 && y.b3) }

  function Xor(x: Four, y: Four): Four { Four(x.b0 != y.b0, x.b1 != y.b1, x.b2 != y.b2, x.b3 != y.b3) }

  function ShiftUp(x: Four): Four { Four(false, x.b0, x.b1, x.b2) }

  /** The first set bit and all bits above it. */
  function FirstSet(x: Four): Four {
    Four(x.b0, x.b0 || x.b1, x.b0 || x.b1 || x.b2, x.b0 || x.b1 || x.b2 || x.b3)
  }

  // ---------------------------------------------------------------------------- Round robin

  datatype Robin = Robin(mask: Four, last: Four)

  const ROBIN_RESET := Robin(ALL, NONE)

  function Chosen(r: Robin, request: Four): Four {
    var masked := FirstSet(And(request, r.mask));
    if masked != NONE then masked else FirstSet(request)
  }

  function Grant(r: Robin, request: Four, hold: bool): Four {
    if hold then r.last else Xor(Chosen(r, request), ShiftUp(Chosen(r, request)))
  }

  function RobinNext(r: Robin, request: Four, hold: bool): Robin {
    Robin(if hold then r.mask else ShiftUp(Chosen(r, request)), Grant(r, request, hold))
  }

  /** The masks that can occur: all bits from a start upwards. */
  function MaskFrom(start: int): Four {
    Four(start <= 0, start <= 1, start <= 2, start <= 3)
  }

  /** How far a port stands behind the start, going round. */
  function Behind(start: int, p: int): int {
    if start == 4 then p else if p >= start then p - start else p + 4 - start
  }

  function OneHot(p: PortIndex): Four { Four(p == 0, p == 1, p == 2, p == 3) }

  /** A fresh grant goes to the requesting port that stands closest behind the start, and the next
      start is the port after it. */
  lemma GrantIsNearest(start: int, r: Robin, request: Four) returns (g: PortIndex)
    requires 0 <= start <= 4 && r.mask == MaskFrom(start) && request != NONE
    ensures Grant(r, request, false) == OneHot(g) && Bit(request, g)
    ensures forall p: PortIndex {:trigger Bit(request, p)} :: Bit(request, p) && p != g ==> Behind(start, g) < Behind(start, p)
    ensures RobinNext(r, request, false).mask == MaskFrom(g as int + 1)
  {
    var c := Chosen(r, request);
    g := if c.b0 then 0 else if c.b1 then 1 else if c.b2 then 2 else 3;
  }

  lemma NoRequest(start: int, r: Robin, request: Four)
    requires request == NONE
    ensures Grant(r, request, false) == NONE && RobinNext(r, request, false).mask == MaskFrom(4)
  {
  }

  /** The grant names at most one port, over every run. */
  predicate RobinFits(r: Robin) {
    && (exists s :: 0 <= s <= 4 && r.mask == MaskFrom(s))
    && (r.last == NONE || exists p: PortIndex :: r.last == OneHot(p))
  }

  /** One clock of a run: the requests, and whether the grant is held. */
  datatype Turn = Turn(request: Four, hold: bool)

  lemma RobinStep(r: Robin, t: Turn)
    requires RobinFits(r)
    ensures RobinFits(RobinNext(r, t.request, t.hold))
    ensures var g := Grant(r, t.request, t.hold); g == NONE || exists p: PortIndex :: g == OneHot(p)
  {
    if !t.hold {
      var s :| 0 <= s <= 4 && r.mask == MaskFrom(s);
      if t.request == NONE {
        NoRequest(s, r, t.request);
        assert RobinNext(r, t.request, t.hold).mask == MaskFrom(4);
      } else {
        var g := GrantIsNearest(s, r, t.request);
        assert RobinNext(r, t.request, t.hold).mask == MaskFrom(g as int + 1);
        assert Grant(r, t.request, t.hold) == OneHot(g);
      }
    }
  }

  function RobinRun(r: Robin, ts: seq<Turn>): Robin
    decreases |ts|
  {
    if ts == [] then r else RobinRun(RobinNext(r, ts[0].request, ts[0].hold), ts[1..])
  }

  /** Port `p` requests in every clock. */
  predicate Persists(p: PortIndex, ts: seq<Turn>) {
    forall t <- ts :: Bit(t.request, p)
  }

  /** The fresh grants of a run. */
  function Fresh(ts: seq<Turn>): nat
    decreases |ts|
  {
    if ts == [] then 0 else (if ts[0].hold then 0 else 1) + Fresh(ts[1..])
  }

  /** Some fresh grant of the run goes to port `p`. */
  predicate Served(r: Robin, p: PortIndex, ts: seq<Turn>)
    decreases |ts|
  {
    ts != [] &&
    ((!ts[0].hold && Grant(r, ts[0].request, false) == OneHot(p))
     || Served(RobinNext(r, ts[0].request, ts[0].hold), p, ts[1..]))
  }

  lemma {:induction false} ServedWithin(start: int, r: Robin, p: PortIndex, ts: seq<Turn>)
    requires 0 <= start <= 4 && r.mask == MaskFrom(start) && Persists(p, ts) && Fresh(ts) > Behind(start, p)
    ensures Served(r, p, ts)
    decreases |ts|
  {
    hide Chosen, Grant, RobinNext;
    var t := ts[0];
    assert Bit(t.request, p) && Persists(p, ts[1..]);
    if t.hold {
      HeldMask(r, t.request);
      ServedWithin(start, RobinNext(r, t.request, true), p, ts[1..]);
    } else {
      var g := GrantIsNearest(start, r, t.request);
      if g != p {
        Nearer(start, g, p);
        ServedWithin(g as int + 1, RobinNext(r, t.request, false), p, ts[1..]);
      }
    }
  }

  lemma HeldMask(r: Robin, request: Four)
    ensures RobinNext(r, request, true) == r
  {
  }

  lemma Nearer(start: int, g: int, p: int)
    requires 0 <= start <= 4 && 0 <= g < 4 && 0 <= p < 4 && Behind(start, g) < Behind(start, p)
    ensures Behind(g as int + 1, p) < Behind(start, p)
  {
  }

  /** Fairness: a port that keeps requesting sees at most three fresh grants to others before its
      own, from every state the arbiter can be in, however long grants are held. */
  lemma Fairness(r: Robin, p: PortIndex, ts: seq<Turn>)
    requires RobinFits(r) && Persists(p, ts) && Fresh(ts) >= 4
    ensures Served(r, p, ts)
  {
    var s :| 0 <= s <= 4 && r.mask == MaskFrom(s);
    ServedWithin(s, r, p, ts);
  }

  /** A held grant does not move. */
  lemma {:induction false} HeldGrantStays(r: Robin, ts: seq<Turn>)
    requires forall t <- ts :: t.hold
    ensures RobinRun(r, ts) == r && forall t <- ts :: Grant(r, t.request, true) == r.last
    decreases |ts|
  {
    if ts != [] {
      HeldMask(r, ts[0].request);
      HeldGrantStays(r, ts[1..]);
    }
  }

  // ---------------------------------------------------------------------------- Write channel

  /** The write side: its round robin, the hold on a granted port, and whether the address has
      passed and data is awaited. */
  datatype Writer = Writer(robin: Robin, hold: bool, dataphase: bool)

  const WRITER_RESET := Writer(ROBIN_RESET, false, false)

  /** One clock of the ports' write channels and of the bus. */
  datatype WriteIn = WriteIn(aw: Four, w: Four, last: Four, awReady: bool, wReady: bool)

  function WriteGrant(s: Writer, i: WriteIn): Four { Grant(s.robin, i.aw, s.hold) }

  /** The port whose signals the multiplexer passes on; port 0 when nobody is granted. */
  function Selected(s: Writer, i: WriteIn): PortIndex {
    var g := WriteGrant(s, i);
    if g.b1 then 1 else if g.b2 then 2 else if g.b3 then 3 else 0
  }

  predicate AwOut(s: Writer, i: WriteIn) { Bit(i.aw, Selected(s, i)) && !s.dataphase }

  predicate WOut(s: Writer, i: WriteIn) { Bit(i.w, Selected(s, i)) }

  predicate LastOut(s: Writer, i: WriteIn) { Bit(i.last, Selected(s, i)) }

  /** The last data beat passes in this clock. */
  predicate LastTaken(s: Writer, i: WriteIn) { WOut(s, i) && i.wReady && LastOut(s, i) }

  /** One rising clock edge. */
  function WriterNext(s: Writer, i: WriteIn): Writer {
    var robin := RobinNext(s.robin, i.aw, s.hold);
    if AwOut(s, i) then
      if !i.awReady then Writer(robin, true, false)
      else if LastTaken(s, i) then Writer(robin, false, false)
      else Writer(robin, true, true)
    else if s.hold then
      if LastTaken(s, i) then Writer(robin, false, false) else Writer(robin, true, true)
    else Writer(robin, s.hold, s.dataphase)
  }

  /** What passes on the bus, with the port it comes from. */
  datatype Beat = Address(port: PortIndex) | Data(port: PortIndex, last: bool)

  /** The address passes before the data of the same clock. */
  function Passed(s: Writer, i: WriteIn): seq<Beat> {
    (if AwOut(s, i) && i.awReady then [Address(Selected(s, i))] else [])
    + (if WOut(s, i) && i.wReady then [Data(Selected(s, i), LastOut(s, i))] else [])
  }

  /** Between transactions, inside one, or after a beat that no rule allows. */
  datatype Order = Free | Open(port: PortIndex) | Broken

  /** The only orders allowed: an address, then data of the same port up to its last beat. */
  function Follow(o: Order, b: Beat): Order {
    match o
    case Free => if b.Address? then Open(b.port) else Broken
    case Open(p) => if b.Data? && b.port == p then (if b.last then Free else o) else Broken
    case Broken => Broken
  }

  function FollowAll(o: Order, bs: seq<Beat>): Order
    decreases |bs|
  {
    if bs == [] then o else FollowAll(Follow(o, bs[0]), bs[1..])
  }

  lemma {:induction false} FollowConcat(o: Order, xs: seq<Beat>, ys: seq<Beat>)
    ensures FollowAll(o, xs + ys) == FollowAll(FollowAll(o, xs), ys)
    decreases |xs|
  {
    if xs == [] {
      assert xs + ys == ys;
    } else {
      assert (xs + ys)[1..] == xs[1..] + ys;
      FollowConcat(Follow(o, xs[0]), xs[1..], ys);
    }
  }

  /** The transaction the writer has under way. */
  function Current(s: Writer): Order {
    if !s.dataphase then Free
    else if s.robin.last.b1 then Open(1) else if s.robin.last.b2 then Open(2) else if s.robin.last.b3 then Open(3)
    else Open(0)
  }

  predicate WriterFits(s: Writer) {
    && RobinFits(s.robin) && (s.dataphase ==> s.hold) && (s.hold ==> s.robin.last != NONE)
  }

  /** What the ports promise: a port shows data only with its address or in its data phase, and
      keeps an address until it is taken. */
  predicate PortsKeep(s: Writer, i: WriteIn) {
    && (forall p: PortIndex :: Bit(i.w, p) && Current(s) != Open(p) ==> Bit(i.aw, p))
    && (s.hold && !s.dataphase ==> Bit(i.aw, Selected(s, i)))
  }

  /** The bus takes a first data beat before its address. */
  predicate EarlyBeat(s: Writer, i: WriteIn) {
    AwOut(s, i) && !i.awReady && WOut(s, i) && i.wReady
  }

  predicate PortsOk(s: Writer, i: WriteIn) {
    PortsKeep(s, i) && !EarlyBeat(s, i)
  }

  lemma WriterStep(s: Writer, i: WriteIn)
    requires WriterFits(s) && PortsOk(s, i)
    ensures WriterFits(WriterNext(s, i)) && FollowAll(Current(s), Passed(s, i)) == Current(WriterNext(s, i))
  {
    RobinStep(s.robin, Turn(i.aw, s.hold));
    hide Chosen, RobinFits;
    var p := Selected(s, i);
    SelectedGrant(s, i);
    FollowOne(Current(s), Address(p), Data(p, LastOut(s, i)));
    assert WOut(s, i) && Current(s) != Open(p) ==> Bit(i.aw, p);
  }

  /** The port selected is the one granted; with no grant, port 0, which then asks for nothing. */
  lemma SelectedGrant(s: Writer, i: WriteIn)
    requires WriterFits(s)
    ensures var g := WriteGrant(s, i);
            && (g != NONE ==> g == OneHot(Selected(s, i))) && (g == NONE ==> !s.hold && i.aw == NONE)
            && (!s.hold && g != NONE ==> Bit(i.aw, Selected(s, i)))
            && (s.hold ==> g == s.robin.last)
  {
    RobinStep(s.robin, Turn(i.aw, s.hold));
    if !s.hold && i.aw != NONE {
      var st :| 0 <= st <= 4 && s.robin.mask == MaskFrom(st);
      var g := GrantIsNearest(st, s.robin, i.aw);
    }
  }

  lemma FollowOne(o: Order, a: Beat, b: Beat)
    ensures FollowAll(o, []) == o && FollowAll(o, [a] + []) == Follow(o, a) && FollowAll(o, [] + [b]) == Follow(o, b)
    ensures FollowAll(o, [a] + [b]) == Follow(Follow(o, a), b)
  {
    assert [a] + [] == [a] && [] + [b] == [b] && [a][1..] == [] && [b][1..] == [];
    assert ([a] + [b])[1..] == [b] && ([a] + [b])[0] == a;
    assert FollowAll(Follow(o, a), [b]) == FollowAll(Follow(Follow(o, a), b), []);
  }

  function WriterRun(s: Writer, ins: seq<WriteIn>): Writer
    decreases |ins|
  {
    if ins == [] then s else WriterRun(WriterNext(s, ins[0]), ins[1..])
  }

  predicate AllPortsOk(s: Writer, ins: seq<WriteIn>)
    decreases |ins|
  {
    ins == [] || (PortsOk(s, ins[0]) && AllPortsOk(WriterNext(s, ins[0]), ins[1..]))
  }

  function PassedAll(s: Writer, ins: seq<WriteIn>): seq<Beat>
    decreases |ins|
  {
    if ins == [] then [] else Passed(s, ins[0]) + PassedAll(WriterNext(s, ins[0]), ins[1..])
  }

  /** Exclusion: over every run the bus carries whole transactions, one after another; between an
      address and its last data beat nothing of any other port passes. */
  lemma {:induction false} WritesNeverInterleave(s: Writer, ins: seq<WriteIn>)
    requires WriterFits(s) && AllPortsOk(s, ins)
    ensures FollowAll(Current(s), PassedAll(s, ins)) == Current(WriterRun(s, ins))
    ensures FollowAll(Current(s), PassedAll(s, ins)) != Broken
    decreases |ins|
  {
    hide WriterFits, PortsOk, WriterNext, Passed;
    if ins != [] {
      var n := WriterNext(s, ins[0]);
      WriterStep(s, ins[0]);
      WritesNeverInterleave(n, ins[1..]);
      FollowConcat(Current(s), Passed(s, ins[0]), PassedAll(n, ins[1..]));
    }
  }

  /** The condition on early data is exact: with ports that keep their promises, a clock breaks the
      order if and only if the bus takes a first beat before its address. */
  lemma EarlyBeatBreaksOrder(s: Writer, i: WriteIn)
    requires WriterFits(s) && PortsKeep(s, i)
    ensures FollowAll(Current(s), Passed(s, i)) == Broken <==> EarlyBeat(s, i)
  {
    if EarlyBeat(s, i) {
      var b := Data(Selected(s, i), LastOut(s, i));
      FollowOne(Current(s), b, b);
      assert Passed(s, i) == [b];
      assert [] + [b] == [b];
    } else {
      WriterStep(s, i);
    }
  }

  /** The grant is held for an address that was shown and not taken, or for a transaction under way, and
      for nothing else: the last data beat releases it. */
  lemma HoldIsEarned(s: Writer, i: WriteIn)
    requires WriterFits(s) && PortsOk(s, i)
    ensures var n := WriterNext(s, i);
            n.hold <==> Current(n) != Free || (Bit(i.aw, Selected(s, i)) && Current(s) == Free && !i.awReady)
  {
    hide RobinFits, Bit;
  }

  function Addresses(bs: seq<Beat>): nat
    decreases |bs|
  {
    if bs == [] then 0 else (if bs[0].Address? then 1 else 0) + Addresses(bs[1..])
  }

  lemma {:induction false} AddressesConcat(xs: seq<Beat>, ys: seq<Beat>)
    ensures Addresses(xs + ys) == Addresses(xs) + Addresses(ys)
    decreases |xs|
  {
    if xs == [] {
      assert xs + ys == ys;
    } else {
      assert (xs + ys)[1..] == xs[1..] + ys;
      AddressesConcat(xs[1..], ys);
    }
  }

  /** The addresses that may pass before one of port `p` that keeps asking: that of a port already shown,
      and those of the ports before it in the round. */
  function Ahead(s: Writer, start: int, p: PortIndex): int {
    if s.hold && !s.dataphase then (if s.robin.last == OneHot(p) then 0 else 1 + Behind(start, p))
    else Behind(start, p)
  }

  /** One clock for a port that asks: either its address passes, or no more pass than it is nearer. */
  lemma AheadStep(s: Writer, start: int, p: PortIndex, i: WriteIn) returns (start': int)
    requires WriterFits(s) && PortsOk(s, i) && 0 <= start <= 4 && s.robin.mask == MaskFrom(start) && Bit(i.aw, p)
    ensures var n := WriterNext(s, i);
            && 0 <= start' <= 4 && n.robin.mask == MaskFrom(start')
            && (Address(p) in Passed(s, i) || Ahead(n, start', p) + Addresses(Passed(s, i)) <= Ahead(s, start, p))
  {
    SelectedGrant(s, i);
    PassedAddresses(s, i);
    if s.hold {
      HeldMask(s.robin, i.aw);
      start' := start;
    } else {
      var g := GrantIsNearest(start, s.robin, i.aw);
      start' := g as int + 1;
      assert g == Selected(s, i);
      if g != p { Nearer(start, g, p); }
    }
    hide Chosen, Bit, RobinFits;
  }

  lemma PassedAddresses(s: Writer, i: WriteIn)
    ensures Addresses(Passed(s, i)) == if AwOut(s, i) && i.awReady then 1 else 0
    ensures AwOut(s, i) && i.awReady ==> Address(Selected(s, i)) in Passed(s, i)
  {
    var a, d := Address(Selected(s, i)), Data(Selected(s, i), LastOut(s, i));
    assert [a][1..] == [] && [d][1..] == [] && [a, d][1..] == [d];
    assert [a] + [d] == [a, d] && [] + [d] == [d] && [a] + [] == [a];
    assert Addresses([a, d]) == 1 + Addresses([d]) && Addresses([d]) == 0 && Addresses([a]) == 1;
    hide Bit, Selected;
  }

  lemma {:induction false} WriterServesPort(s: Writer, start: int, p: PortIndex, ins: seq<WriteIn>)
    requires WriterFits(s) && AllPortsOk(s, ins) && 0 <= start <= 4 && s.robin.mask == MaskFrom(start)
    requires (forall i <- ins :: Bit(i.aw, p)) && Addresses(PassedAll(s, ins)) > Ahead(s, start, p)
    ensures Address(p) in PassedAll(s, ins)
    decreases |ins|
  {
    hide WriterFits, PortsOk, WriterNext, Passed, Ahead, Bit, MaskFrom;
    if ins != [] {
      var n := WriterNext(s, ins[0]);
      WriterStep(s, ins[0]);
      var start' := AheadStep(s, start, p, ins[0]);
      AddressesConcat(Passed(s, ins[0]), PassedAll(n, ins[1..]));
      if Address(p) !in Passed(s, ins[0]) { WriterServesPort(n, start', p, ins[1..]); }
    } else {
      NotNegative(s, start, p);
    }
  }

  lemma NotNegative(s: Writer, start: int, p: PortIndex)
    requires 0 <= start <= 4
    ensures 0 <= Ahead(s, start, p) <= 4
  {
  }

  /** Service: over every run of the write side, a port that keeps asking has passed its address by the
      time five addresses have passed: one already shown, and those of the three other ports. */
  lemma WritersAreServed(s: Writer, p: PortIndex, ins: seq<WriteIn>)
    requires WriterFits(s) && AllPortsOk(s, ins) && (forall i <- ins :: Bit(i.aw, p))
    requires Addresses(PassedAll(s, ins)) >= 5
    ensures Address(p) in PassedAll(s, ins)
  {
    var start :| 0 <= start <= 4 && s.robin.mask == MaskFrom(start);
    NotNegative(s, start, p);
    WriterServesPort(s, start, p, ins);
  }

  // ---------------------------------------------------------------------------- Machine

  /** axi4_arb's write side: registers updated in place. */
  class WriterBlock {
    var mask: Four
    var last: Four
    var hold: bool
    var dataphase: bool

    function View(): Writer reads this {
      Writer(Robin(mask, last), hold, dataphase)
    }

    constructor ()
      ensures View() == WRITER_RESET
    {
      mask, last, hold, dataphase := ALL, NONE, false, false;
    }

    /** One rising clock edge. */
    method Clock(i: WriteIn)
      modifies this
      ensures View() == WriterNext(old(View()), i)
    {
      hide Chosen, Grant, Bit;
      var aw, done := AwOut(View(), i), LastTaken(View(), i);
      var robin, held := View().robin, hold;
      if aw {
        hold := !(i.awReady && done);
        dataphase := i.awReady && !done;
      } else if hold {
        hold, dataphase := !done, !done;
      }
      last := Grant(robin, i.aw, held);
      if !held {
        mask := ShiftUp(Chosen(robin, i.aw));
      }
    }
  }
}
