/** The UART's transmitter and receiver: a printer of bytes as timed line levels, a parser of such
    levels, and the proof that they undo each other for every bit period. */
module Uart {
  import opened Seqs

  /** A byte, least significant bit first; a line level is a bool, true when idle. */
  type Byte = s: seq<bool> | |s| == 8 witness seq(8, _ => false)

  /** The bit divider; a bit takes one clock more. */
  type Divider = n: nat | n >= 1 witness 1

  const START_BIT := 0
  const STOP_BIT := 9

  // ---------------------------------------------------------------------------- Transmitter

  datatype Tx = Tx(count: nat, busy: bool, bits: nat, shift: Byte)

  datatype Option<T> = None | Some(value: T)

  /** The level the transmitter computes. */
  predicate Level(t: Tx) {
    if !t.busy then true
    else if t.bits == START_BIT then false
    else if t.bits >= STOP_BIT then true
    else t.shift[0]
  }

  function ShiftIn(s: Byte, b: bool): Byte { s[1..] + [b] }

  /** One rising clock edge; a write is heard only when idle. */
  function TxNext(d: Divider, t: Tx, w: Option<Byte>): Tx {
    if !t.busy then
      Tx(d, w.Some?, t.bits, if w.Some? then w.value else t.shift)
    else if t.count != 0 then t.(count := t.count - 1)
    else
      Tx(d, t.bits != STOP_BIT, if t.bits == STOP_BIT then START_BIT else t.bits + 1,
         if t.bits == START_BIT then t.shift else ShiftIn(t.shift, false))
  }

  const TX_RESET := Tx(0, false, START_BIT, seq(8, _ => false))

  // ---------------------------------------------------------------------------- Receiver

  /** The receiver's bit engine, behind the two synchronising flip-flops. */
  datatype Engine = Engine(count: nat, busy: bool, bits: nat, shift: Byte)

  const ENGINE_RESET := Engine(0, false, START_BIT, seq(8, _ => false))

  predicate Sample(e: Engine) { e.busy && e.count == 0 }

  /** The clock that completes a byte: a good stop bit. */
  predicate Delivers(e: Engine, level: bool) { Sample(e) && e.bits == STOP_BIT && level }

  /** The clock that finds a bad stop bit or a start bit that went away. */
  predicate Fails(e: Engine, level: bool) {
    Sample(e) && ((e.bits == STOP_BIT && !level) || (e.bits == START_BIT && level))
  }

  /** One rising clock edge with the synchronised level. */
  function EngineNext(d: Divider, e: Engine, level: bool): Engine {
    var last, start := e.bits == STOP_BIT, e.bits == START_BIT;
    if !e.busy then
      Engine(d / 2, !level, START_BIT, if level then e.shift else seq(8, _ => false))
    else if e.count != 0 then e.(count := e.count - 1)
    else
      Engine(if last then 0 else d,
             !last && !(start && level),
             if last then START_BIT else e.bits + 1,
             if last || start then e.shift else ShiftIn(e.shift, level))
  }

  /** The receiver's data register and flags. */
  datatype Inbox = Inbox(ready: bool, data: Byte, err: bool)

  const INBOX_RESET := Inbox(false, seq(8, _ => false), false)

  /** One rising clock edge of the data register, with an optional read. */
  function InboxNext(b: Inbox, e: Engine, level: bool, read: bool): Inbox {
    if Delivers(e, level) then Inbox(true, e.shift, b.err && !read)
    else if Sample(e) && e.bits == STOP_BIT then Inbox(false, seq(8, _ => false), true)
    else Inbox(b.ready && !read, b.data, if Fails(e, level) then true else b.err && !read)
  }

  // ---------------------------------------------------------------------------- Line

  /** What passes on the line: one quiet clock, or a framed byte. */
  datatype Item = Quiet | Framed(byte: Byte)

  function Repeat(b: bool, n: nat): seq<bool> {
    if n == 0 then [] else [b] + Repeat(b, n - 1)
  }

  /** The cells of `bits`, each a bit period long. */
  function Cells(d: Divider, bits: seq<bool>): seq<bool>
    decreases |bits|
  {
    if bits == [] then [] else Repeat(bits[0], d + 1) + Cells(d, bits[1..])
  }

  /** A start bit, eight data bits and a stop bit. */
  function Frame(d: Divider, b: Byte): seq<bool> { Cells(d, [false] + b + [true]) }

  function ItemLevels(d: Divider, x: Item): seq<bool> {
    match x case Quiet => [true] case Framed(b) => Frame(d, b)
  }

  function ItemBytes(x: Item): seq<Byte> {
    match x case Quiet => [] case Framed(b) => [b]
  }

  function Levels(d: Divider, items: seq<Item>): seq<bool>
    decreases |items|
  {
    if items == [] then [] else ItemLevels(d, items[0]) + Levels(d, items[1..])
  }

  function BytesOf(items: seq<Item>): seq<Byte>
    decreases |items|
  {
    if items == [] then [] else ItemBytes(items[0]) + BytesOf(items[1..])
  }

  lemma {:induction false} LevelsConcat(d: Divider, xs: seq<Item>, ys: seq<Item>)
    ensures Levels(d, xs + ys) == Levels(d, xs) + Levels(d, ys) && BytesOf(xs + ys) == BytesOf(xs) + BytesOf(ys)
    decreases |xs|
  {
    hide ItemLevels, ItemBytes;
    if xs == [] {
      assert xs + ys == ys;
    } else {
      assert (xs + ys)[1..] == xs[1..] + ys && (xs + ys)[0] == xs[0];
      LevelsConcat(d, xs[1..], ys);
      var h, k := ItemLevels(d, xs[0]), ItemBytes(xs[0]);
      Assoc(h, Levels(d, xs[1..]), Levels(d, ys));
      Assoc(k, BytesOf(xs[1..]), BytesOf(ys));
    }
  }

  // ---------------------------------------------------------------------------- Transmitting

  predicate TxValid(d: Divider, t: Tx) {
    && t.bits <= STOP_BIT && t.count <= d
    && (!t.busy ==> t.bits == START_BIT)
  }

  /** The bits that follow the one on the line. */
  function Following(t: Tx): seq<bool> {
    if t.bits == START_BIT then t.shift + [true]
    else if t.bits >= STOP_BIT then []
    else t.shift[1..9 - t.bits] + [true]
  }

  /** The levels a busy transmitter has still to send. */
  function Remaining(d: Divider, t: Tx): seq<bool> {
    if !t.busy then [] else Repeat(Level(t), t.count + 1) + Cells(d, Following(t))
  }

  /** What one clock puts on the line's agenda. */
  function Sent(t: Tx, w: Option<Byte>): seq<Item> {
    if t.busy then [] else [Quiet] + (if w.Some? then [Framed(w.value)] else [])
  }

  lemma QuietStep(d: Divider, t: Tx)
    requires TxValid(d, t) && !t.busy
    ensures Remaining(d, t) + Levels(d, [Quiet]) == [Level(t)] + Remaining(d, TxNext(d, t, None))
  {
    assert [Quiet][1..] == [];
  }

  lemma WriteStep(d: Divider, t: Tx, b: Byte)
    requires TxValid(d, t) && !t.busy
    ensures Remaining(d, t) + Levels(d, [Quiet, Framed(b)]) == [Level(t)] + Remaining(d, TxNext(d, t, Some(b)))
  {
    hide Repeat;
    var bits := [false] + b + [true];
    assert bits[0] == false && bits[1..] == b + [true];
    assert Frame(d, b) == Repeat(false, d + 1) + Cells(d, b + [true]);
    hide Cells;
    assert [Quiet, Framed(b)][1..] == [Framed(b)] && [Framed(b)][1..] == [];
    assert Levels(d, [Framed(b)]) == Frame(d, b);
    assert Levels(d, [Quiet, Framed(b)]) == [true] + Frame(d, b);
  }

  lemma BusyStep(d: Divider, t: Tx, w: Option<Byte>)
    requires TxValid(d, t) && t.busy
    ensures TxValid(d, TxNext(d, t, w)) && Remaining(d, t) == [Level(t)] + Remaining(d, TxNext(d, t, w))
  {
    var n := TxNext(d, t, w);
    if t.count != 0 {
      hide Cells;
      assert Following(t) == Following(n);
    } else {
      assert Repeat(Level(t), 1) == [Level(t)] by { assert Repeat(Level(t), 0) == []; }
      hide Repeat;
      if t.bits != STOP_BIT { NextCell(t, n); }
    }
  }

  lemma TxStep(d: Divider, t: Tx, w: Option<Byte>)
    requires TxValid(d, t)
    ensures TxValid(d, TxNext(d, t, w))
    ensures Remaining(d, t) + Levels(d, Sent(t, w)) == [Level(t)] + Remaining(d, TxNext(d, t, w))
  {
    hide Remaining, Level;
    if t.busy {
      BusyStep(d, t, w);
    } else if w.Some? {
      WriteStep(d, t, w.value);
      assert [Quiet] + [Framed(w.value)] == [Quiet, Framed(w.value)];
    } else {
      QuietStep(d, t);
      assert [Quiet] + [] == [Quiet];
    }
  }

  /** At the end of a cell the next bit moves onto the line. */
  lemma NextCell(t: Tx, n: Tx)
    requires t.busy && t.bits < STOP_BIT && n.busy && n.bits == t.bits + 1
    requires n.shift == if t.bits == START_BIT then t.shift else ShiftIn(t.shift, false)
    ensures Following(t)[0] == Level(n) && Following(t)[1..] == Following(n)
  {
  }

  function TxRun(d: Divider, t: Tx, ws: seq<Option<Byte>>): Tx
    decreases |ws|
  {
    if ws == [] then t else TxRun(d, TxNext(d, t, ws[0]), ws[1..])
  }

  /** The levels of a run, and the line's agenda. */
  function Trace(d: Divider, t: Tx, ws: seq<Option<Byte>>): seq<bool>
    decreases |ws|
  {
    if ws == [] then [] else [Level(t)] + Trace(d, TxNext(d, t, ws[0]), ws[1..])
  }

  function Agenda(d: Divider, t: Tx, ws: seq<Option<Byte>>): seq<Item>
    decreases |ws|
  {
    if ws == [] then [] else Sent(t, ws[0]) + Agenda(d, TxNext(d, t, ws[0]), ws[1..])
  }

  /** The transmitter prints its agenda. */
  lemma {:induction false} Prints(d: Divider, t: Tx, ws: seq<Option<Byte>>)
    requires TxValid(d, t)
    ensures TxValid(d, TxRun(d, t, ws)) && |Trace(d, t, ws)| == |ws|
    ensures Remaining(d, t) + Levels(d, Agenda(d, t, ws)) == Trace(d, t, ws) + Remaining(d, TxRun(d, t, ws))
    decreases |ws|
  {
    hide TxNext, Level, Sent, Remaining, Frame, TxValid;
    if ws != [] {
      var n := TxNext(d, t, ws[0]);
      TxStep(d, t, ws[0]);
      Prints(d, n, ws[1..]);
      var rest := Agenda(d, n, ws[1..]);
      LevelsConcat(d, Sent(t, ws[0]), rest);
      Trade(Remaining(d, t), Levels(d, Sent(t, ws[0])), [Level(t)], Remaining(d, n), Levels(d, rest),
            Trace(d, n, ws[1..]), Remaining(d, TxRun(d, n, ws[1..])));
    } else {
      assert Levels(d, []) == [];
    }
  }

  // ---------------------------------------------------------------------------- Receiving

  function EngineRun(d: Divider, e: Engine, ls: seq<bool>): Engine
    decreases |ls|
  {
    if ls == [] then e else EngineRun(d, EngineNext(d, e, ls[0]), ls[1..])
  }

  /** The bytes the engine completes over a stream of levels. */
  function Parsed(d: Divider, e: Engine, ls: seq<bool>): seq<Byte>
    decreases |ls|
  {
    if ls == [] then []
    else (if Delivers(e, ls[0]) then [e.shift] else []) + Parsed(d, EngineNext(d, e, ls[0]), ls[1..])
  }

  /** No clock of the stream is an error. */
  predicate Clean(d: Divider, e: Engine, ls: seq<bool>)
    decreases |ls|
  {
    ls == [] || (!Fails(e, ls[0]) && Clean(d, EngineNext(d, e, ls[0]), ls[1..]))
  }

  /** What a stretch of levels does to the engine: where it ends and what it completes, cleanly. */
  predicate Goes(d: Divider, e: Engine, ls: seq<bool>, f: Engine, bs: seq<Byte>) {
    EngineRun(d, e, ls) == f && Parsed(d, e, ls) == bs && Clean(d, e, ls)
  }

  lemma {:induction false} StreamConcat(d: Divider, e: Engine, xs: seq<bool>, ys: seq<bool>)
    ensures EngineRun(d, e, xs + ys) == EngineRun(d, EngineRun(d, e, xs), ys)
    ensures Parsed(d, e, xs + ys) == Parsed(d, e, xs) + Parsed(d, EngineRun(d, e, xs), ys)
    ensures Clean(d, e, xs + ys) <==> Clean(d, e, xs) && Clean(d, EngineRun(d, e, xs), ys)
    decreases |xs|
  {
    hide EngineNext, Delivers, Fails;
    if xs == [] {
      assert xs + ys == ys;
    } else {
      assert (xs + ys)[1..] == xs[1..] + ys && (xs + ys)[0] == xs[0];
      StreamConcat(d, EngineNext(d, e, xs[0]), xs[1..], ys);
    }
  }

  lemma GoesOn(d: Divider, e: Engine, xs: seq<bool>, f: Engine, bs: seq<Byte>, ys: seq<bool>, g: Engine, cs: seq<Byte>)
    requires Goes(d, e, xs, f, bs) && Goes(d, f, ys, g, cs)
    ensures Goes(d, e, xs + ys, g, bs + cs)
  {
    StreamConcat(d, e, xs, ys);
  }

  lemma OneClock(d: Divider, e: Engine, level: bool)
    requires !Fails(e, level)
    ensures Goes(d, e, [level], EngineNext(d, e, level), if Delivers(e, level) then [e.shift] else [])
  {
    hide EngineNext, Delivers, Fails;
    var n := EngineNext(d, e, level);
    assert [level][1..] == [];
    assert EngineRun(d, n, []) == n && Parsed(d, n, []) == [] && Clean(d, n, []);
  }

  lemma {:induction false} RepeatSplit(b: bool, m: nat, n: nat)
    ensures Repeat(b, m + n) == Repeat(b, m) + Repeat(b, n)
  {
    if m == 0 {
      assert Repeat(b, 0) + Repeat(b, n) == Repeat(b, n);
    } else {
      RepeatSplit(b, m - 1, n);
      assert Repeat(b, m + n) == [b] + Repeat(b, (m - 1) + n);
      Assoc([b], Repeat(b, m - 1), Repeat(b, n));
    }
  }

  /** Between samples the engine only counts. */
  lemma {:induction false} Countdown(d: Divider, e: Engine, b: bool, n: nat)
    requires e.busy && n <= e.count
    ensures Goes(d, e, Repeat(b, n), e.(count := e.count - n), [])
    decreases n
  {
    if n == 0 {
      assert e.(count := e.count - 0) == e;
    } else {
      OneClock(d, e, b);
      var f := EngineNext(d, e, b);
      Countdown(d, f, b, n - 1);
      GoesOn(d, e, [b], f, [], Repeat(b, n - 1), e.(count := e.count - n), []);
    }
  }

  /** One sample in a cell of equal levels: `c` clocks to it, and the rest of the cell after it. */
  lemma SampleInCell(d: Divider, e: Engine, b: bool, c: nat, n: nat)
    requires e.busy && e.count == c && e.bits < STOP_BIT && n <= d && !(e.bits == START_BIT && b)
    ensures Goes(d, e, Repeat(b, c + 1 + n),
                 Engine(d - n, true, e.bits + 1, if e.bits == START_BIT then e.shift else ShiftIn(e.shift, b)), [])
  {
    Countdown(d, e, b, c);
    var f := e.(count := 0);
    OneClock(d, f, b);
    var g := EngineNext(d, f, b);
    Countdown(d, g, b, n);
    GoesOn(d, e, Repeat(b, c), f, [], [b], g, []);
    GoesOn(d, e, Repeat(b, c) + [b], g, [], Repeat(b, n), g.(count := d - n), []);
    RepeatSplit(b, c, 1 + n);
    assert Repeat(b, 1 + n) == [b] + Repeat(b, n);
    Assoc(Repeat(b, c), [b], Repeat(b, n));
    var none: seq<Byte> := [];
    assert none + none == none;
  }

  /** An idle engine ignores an idle line. */
  lemma {:induction false} IdleLine(d: Divider, e: Engine, n: nat) returns (f: Engine)
    requires !e.busy
    ensures !f.busy && Goes(d, e, Repeat(true, n), f, [])
    decreases n
  {
    if n == 0 {
      f := e;
    } else {
      OneClock(d, e, true);
      f := IdleLine(d, EngineNext(d, e, true), n - 1);
      GoesOn(d, e, [true], EngineNext(d, e, true), [], Repeat(true, n - 1), f, []);
    }
  }

  /** The first sample falls in the middle of the start bit. */
  lemma StartCell(d: Divider, e: Engine)
    requires !e.busy
    ensures Goes(d, e, Repeat(false, d + 1), Engine(d / 2 + 1, true, 1, seq(8, _ => false)), [])
  {
    OneClock(d, e, false);
    var f := EngineNext(d, e, false);
    SampleInCell(d, f, false, d / 2, d - 1 - d / 2);
    GoesOn(d, e, [false], f, [], Repeat(false, d), Engine(d / 2 + 1, true, 1, f.shift), []);
  }

  lemma NoLevels(d: Divider, e: Engine)
    ensures Goes(d, e, [], e, [])
  {
  }

  /** The shift register after one bit and after the rest of them. */
  lemma ShiftedIn(shift: Byte, bits: seq<bool>)
    requires 0 < |bits| <= 8
    ensures (ShiftIn(shift, bits[0]) + bits[1..])[|bits| - 1..] == (shift + bits)[|bits|..]
  {
  }

  /** Every later sample falls as far into its own cell: one bit of eight is shifted in a cell. */
  lemma {:induction false} DataCells(d: Divider, e: Engine, bits: seq<bool>)
    requires e.busy && e.count == d / 2 + 1 && |bits| <= 8 && e.bits == 9 - |bits|
    ensures Goes(d, e, Cells(d, bits), Engine(d / 2 + 1, true, 9, (e.shift + bits)[|bits|..]), [])
    decreases |bits|
  {
    hide Goes, Repeat, ShiftIn;
    if bits == [] {
      assert (e.shift + bits)[|bits|..] == e.shift;
      NoLevels(d, e);
    } else {
      var f := Engine(d / 2 + 1, true, e.bits + 1, ShiftIn(e.shift, bits[0]));
      var g := Engine(d / 2 + 1, true, 9, (e.shift + bits)[|bits|..]);
      SampleInCell(d, e, bits[0], d / 2 + 1, d - (d / 2 + 1));
      ShiftedIn(e.shift, bits);
      DataCells(d, f, bits[1..]);
      GoesOn(d, e, Repeat(bits[0], d + 1), f, [], Cells(d, bits[1..]), g, []);
      var none: seq<Byte> := [];
      assert none + none == none;
    }
  }

  /** The stop bit completes the byte. */
  lemma StopCell(d: Divider, e: Engine) returns (g: Engine)
    requires e.busy && e.count == d / 2 + 1 && e.bits == STOP_BIT
    ensures !g.busy && Goes(d, e, Repeat(true, d + 1), g, [e.shift])
  {
    var c, n := d / 2 + 1, d - (d / 2 + 1);
    Countdown(d, e, true, c);
    var f := e.(count := 0);
    OneClock(d, f, true);
    var h := EngineNext(d, f, true);
    g := IdleLine(d, h, n);
    GoesOn(d, e, Repeat(true, c), f, [], [true], h, [e.shift]);
    GoesOn(d, e, Repeat(true, c) + [true], h, [e.shift], Repeat(true, n), g, []);
    RepeatSplit(true, c, 1 + n);
    assert Repeat(true, 1 + n) == [true] + Repeat(true, n);
    Assoc(Repeat(true, c), [true], Repeat(true, n));
  }

  lemma {:induction false} CellsConcat(d: Divider, xs: seq<bool>, ys: seq<bool>)
    ensures Cells(d, xs + ys) == Cells(d, xs) + Cells(d, ys)
    decreases |xs|
  {
    hide Repeat;
    if xs == [] {
      assert xs + ys == ys;
    } else {
      assert (xs + ys)[1..] == xs[1..] + ys && (xs + ys)[0] == xs[0];
      CellsConcat(d, xs[1..], ys);
      var h := Repeat(xs[0], d + 1);
      Assoc(h, Cells(d, xs[1..]), Cells(d, ys));
    }
  }

  lemma OneCell(d: Divider, b: bool)
    ensures Cells(d, [b]) == Repeat(b, d + 1)
  {
    hide Repeat;
    var bits, cell := [b], Repeat(b, d + 1);
    assert bits[1..] == [];
    calc {
      Cells(d, bits);
      cell + Cells(d, bits[1..]);
      cell + [];
      cell;
    }
  }

  /** A framed byte is parsed back, whatever the bit period. */
  lemma FrameParses(d: Divider, e: Engine, b: Byte) returns (g: Engine)
    requires !e.busy
    ensures !g.busy && Goes(d, e, Frame(d, b), g, [b])
  {
    hide Repeat, Goes, EngineNext;
    StartCell(d, e);
    var zeros: Byte := seq(8, _ => false);
    var f := Engine(d / 2 + 1, true, 1, zeros);
    DataCells(d, f, b);
    assert (zeros + b)[8..] == b;
    var h := Engine(d / 2 + 1, true, 9, b);
    g := StopCell(d, h);
    GoesOn(d, e, Repeat(false, d + 1), f, [], Cells(d, b), h, []);
    GoesOn(d, e, Repeat(false, d + 1) + Cells(d, b), h, [], Repeat(true, d + 1), g, [b]);
    CellsConcat(d, [false] + b, [true]);
    CellsConcat(d, [false], b);
    OneCell(d, false);
    OneCell(d, true);
    hide Cells;
    assert Frame(d, b) == (Repeat(false, d + 1) + Cells(d, b)) + Repeat(true, d + 1);
    var none: seq<Byte> := [];
    assert none + none == none && none + [b] == [b];
  }

  /** The receiver parses every agenda: the bytes that were framed, in order, without an error. */
  lemma {:induction false} AgendaParses(d: Divider, e: Engine, items: seq<Item>) returns (g: Engine)
    requires !e.busy
    ensures !g.busy && Goes(d, e, Levels(d, items), g, BytesOf(items))
    decreases |items|
  {
    hide Frame, EngineNext;
    if items == [] {
      g := e;
    } else {
      var f: Engine;
      match items[0] {
        case Quiet =>
          OneClock(d, e, true);
          f := EngineNext(d, e, true);
          assert !f.busy by { IdleStays(d, e); }
        case Framed(b) =>
          f := FrameParses(d, e, b);
      }
      hide Goes;
      g := AgendaParses(d, f, items[1..]);
      GoesOn(d, e, ItemLevels(d, items[0]), f, ItemBytes(items[0]), Levels(d, items[1..]), g, BytesOf(items[1..]));
    }
  }

  lemma IdleStays(d: Divider, e: Engine)
    requires !e.busy
    ensures !EngineNext(d, e, true).busy && !Delivers(e, true) && !Fails(e, true)
  {
  }

  // ---------------------------------------------------------------------------- Loopback

  /** The transmitter's output flip-flop, the receiver's two synchronising ones, and both engines,
      with the output wired to the input. */
  datatype Loop = Loop(tx: Tx, txd: bool, sync0: bool, sync1: bool, rx: Engine)

  const LOOP_RESET := Loop(TX_RESET, true, true, true, ENGINE_RESET)

  function LoopNext(d: Divider, s: Loop, w: Option<Byte>): Loop {
    Loop(TxNext(d, s.tx, w), Level(s.tx), s.txd, s.sync0, EngineNext(d, s.rx, s.sync1))
  }

  function LoopRun(d: Divider, s: Loop, ws: seq<Option<Byte>>): Loop
    decreases |ws|
  {
    if ws == [] then s else LoopRun(d, LoopNext(d, s, ws[0]), ws[1..])
  }

  /** The bytes accepted by an idle transmitter. */
  function Written(d: Divider, t: Tx, ws: seq<Option<Byte>>): seq<Byte>
    decreases |ws|
  {
    if ws == [] then []
    else (if !t.busy && ws[0].Some? then [ws[0].value] else []) + Written(d, TxNext(d, t, ws[0]), ws[1..])
  }

  /** The bytes the receiver completes. */
  function Received(d: Divider, s: Loop, ws: seq<Option<Byte>>): seq<Byte>
    decreases |ws|
  {
    if ws == [] then []
    else (if Delivers(s.rx, s.sync1) then [s.rx.shift] else []) + Received(d, LoopNext(d, s, ws[0]), ws[1..])
  }

  /** No clock of the run is a receive error. */
  predicate ErrorFree(d: Divider, s: Loop, ws: seq<Option<Byte>>)
    decreases |ws|
  {
    ws == [] || (!Fails(s.rx, s.sync1) && ErrorFree(d, LoopNext(d, s, ws[0]), ws[1..]))
  }

  /** The levels the receiver has yet to see: those in the flip-flops, then the transmitter's. */
  function InFlight(s: Loop, ls: seq<bool>): seq<bool> { [s.sync1, s.sync0, s.txd] + ls }

  /** The receiver sees the transmitter's levels, three clocks late. */
  lemma {:induction false} LoopIsStream(d: Divider, s: Loop, ws: seq<Option<Byte>>)
    ensures |Trace(d, s.tx, ws)| == |ws|
    ensures var seen := InFlight(s, Trace(d, s.tx, ws))[..|ws|];
            && Received(d, s, ws) == Parsed(d, s.rx, seen) && (ErrorFree(d, s, ws) <==> Clean(d, s.rx, seen))
    decreases |ws|
  {
    hide EngineNext, TxNext, Level, Delivers, Fails;
    if ws != [] {
      var n := LoopNext(d, s, ws[0]);
      LoopIsStream(d, n, ws[1..]);
      var all := InFlight(s, Trace(d, s.tx, ws));
      assert all[1..] == InFlight(n, Trace(d, n.tx, ws[1..]));
      assert all[..|ws|][1..] == all[1..][..|ws| - 1] && all[..|ws|][0] == s.sync1;
    }
  }

  lemma {:induction false} WrittenIsAgenda(d: Divider, t: Tx, ws: seq<Option<Byte>>)
    ensures Written(d, t, ws) == BytesOf(Agenda(d, t, ws))
    decreases |ws|
  {
    hide TxNext;
    if ws != [] {
      WrittenIsAgenda(d, TxNext(d, t, ws[0]), ws[1..]);
      LevelsConcat(d, Sent(t, ws[0]), Agenda(d, TxNext(d, t, ws[0]), ws[1..]));
      SentBytes(t, ws[0]);
    }
  }

  lemma SentBytes(t: Tx, w: Option<Byte>)
    ensures BytesOf(Sent(t, w)) == if !t.busy && w.Some? then [w.value] else []
  {
    if !t.busy {
      ConsBytes(Quiet, []);
      if w.Some? {
        ConsBytes(Framed(w.value), []);
        ConsBytes(Quiet, [Framed(w.value)]);
      }
    }
  }

  lemma ConsBytes(x: Item, xs: seq<Item>)
    ensures BytesOf([x] + xs) == ItemBytes(x) + BytesOf(xs)
    ensures [x] + [] == [x] && BytesOf([]) == []
  {
    assert ([x] + xs)[1..] == xs;
  }

  /** What the receiver makes of the levels it has seen, when they are the start of an agenda. */
  lemma SeenParses(d: Divider, seen: seq<bool>, unseen: seq<bool>, items: seq<Item>)
    requires seen + unseen == [true, true, true] + Levels(d, items)
    ensures Parsed(d, ENGINE_RESET, seen) <= BytesOf(items) && Clean(d, ENGINE_RESET, seen)
    ensures unseen == [] ==> Parsed(d, ENGINE_RESET, seen) == BytesOf(items)
  {
    hide EngineNext, Levels, Parsed, Clean, Goes, EngineRun;
    var lead := [Quiet, Quiet, Quiet];
    LeadIsQuiet(d);
    LevelsConcat(d, lead, items);
    var g := AgendaParses(d, ENGINE_RESET, lead + items);
    StreamPrefix(d, seen, unseen, g, BytesOf(lead + items));
    if unseen == [] {
      assert seen + unseen == seen;
      GoesParsed(d, seen, g, BytesOf(lead + items));
    }
    assert [] + BytesOf(items) == BytesOf(items);
  }

  /** The UART round trip: with the output wired to the input, for every bit period and every
      pattern of writes, the receiver completes the bytes that the idle transmitter accepted, in
      order and without an error. */
  lemma RoundTrip(d: Divider, ws: seq<Option<Byte>>)
    ensures Received(d, LOOP_RESET, ws) <= Written(d, TX_RESET, ws) && ErrorFree(d, LOOP_RESET, ws)
  {
    hide Remaining, Levels, Trace, Agenda, Received, Written, ErrorFree, Parsed, Clean, TxRun;
    var t, rest := Trace(d, TX_RESET, ws), Remaining(d, TxRun(d, TX_RESET, ws));
    LoopIsStream(d, LOOP_RESET, ws);
    WrittenIsAgenda(d, TX_RESET, ws);
    Prints(d, TX_RESET, ws);
    ResetIsIdle(d);
    var line := [true, true, true] + t;
    var seen, unseen := line[..|ws|], line[|ws|..] + rest;
    assert [] + Levels(d, Agenda(d, TX_RESET, ws)) == Levels(d, Agenda(d, TX_RESET, ws));
    assert seen + unseen == [true, true, true] + (t + rest);
    SeenParses(d, seen, unseen, Agenda(d, TX_RESET, ws));
  }

  /** All of them have arrived once the transmitter has been idle for three clocks. */
  lemma AllArrive(d: Divider, ws: seq<Option<Byte>>)
    requires !TxRun(d, TX_RESET, ws).busy
    ensures var all := ws + [None, None, None]; Received(d, LOOP_RESET, all) == Written(d, TX_RESET, all)
  {
    hide Remaining, Levels, Trace, Agenda, Received, Written, ErrorFree, Parsed, Clean, TxRun;
    var all := ws + [None, None, None];
    LoopIsStream(d, LOOP_RESET, all);
    QuietTail(d, TX_RESET, ws);
    WrittenIsAgenda(d, TX_RESET, ws);
    Prints(d, TX_RESET, ws);
    ResetIsIdle(d);
    IdleRemaining(d, TxRun(d, TX_RESET, ws));
    var t := Trace(d, TX_RESET, ws);
    assert [] + Levels(d, Agenda(d, TX_RESET, ws)) == Levels(d, Agenda(d, TX_RESET, ws)) && t + [] == t;
    var seen := [true, true, true] + t;
    assert seen + [] == seen;
    assert ([true, true, true] + (t + [true, true, true]))[..|all|] == seen;
    SeenParses(d, seen, [], Agenda(d, TX_RESET, ws));
  }

  lemma ResetIsIdle(d: Divider)
    ensures TxValid(d, TX_RESET) && Remaining(d, TX_RESET) == []
  {
  }

  lemma IdleRemaining(d: Divider, t: Tx)
    ensures !t.busy ==> Remaining(d, t) == []
  {
  }

  lemma LeadIsQuiet(d: Divider)
    ensures Levels(d, [Quiet, Quiet, Quiet]) == [true, true, true] && BytesOf([Quiet, Quiet, Quiet]) == []
  {
    assert [Quiet, Quiet, Quiet][1..] == [Quiet, Quiet] && [Quiet, Quiet][1..] == [Quiet] && [Quiet][1..] == [];
    assert Levels(d, [Quiet]) == [true] && Levels(d, [Quiet, Quiet]) == [true, true];
    assert BytesOf([Quiet]) == [] && BytesOf([Quiet, Quiet]) == [];
  }

  lemma GoesParsed(d: Divider, ls: seq<bool>, g: Engine, bs: seq<Byte>)
    requires Goes(d, ENGINE_RESET, ls, g, bs)
    ensures Parsed(d, ENGINE_RESET, ls) == bs
  {
  }

  lemma StreamPrefix(d: Divider, seen: seq<bool>, unseen: seq<bool>, g: Engine, bs: seq<Byte>)
    requires Goes(d, ENGINE_RESET, seen + unseen, g, bs)
    ensures Parsed(d, ENGINE_RESET, seen) <= bs && Clean(d, ENGINE_RESET, seen)
  {
    StreamConcat(d, ENGINE_RESET, seen, unseen);
  }

  lemma {:induction false} RunConcat(d: Divider, t: Tx, xs: seq<Option<Byte>>, ys: seq<Option<Byte>>)
    ensures Trace(d, t, xs + ys) == Trace(d, t, xs) + Trace(d, TxRun(d, t, xs), ys)
    ensures Written(d, t, xs + ys) == Written(d, t, xs) + Written(d, TxRun(d, t, xs), ys)
    decreases |xs|
  {
    hide TxNext, Level;
    if xs == [] {
      assert xs + ys == ys;
    } else {
      assert (xs + ys)[1..] == xs[1..] + ys && (xs + ys)[0] == xs[0];
      var n := TxNext(d, t, xs[0]);
      RunConcat(d, n, xs[1..], ys);
      var end, now := TxRun(d, t, xs), if !t.busy && xs[0].Some? then [xs[0].value] else [];
      Assoc([Level(t)], Trace(d, n, xs[1..]), Trace(d, end, ys));
      Assoc(now, Written(d, n, xs[1..]), Written(d, end, ys));
    }
  }

  lemma QuietTail(d: Divider, t: Tx, front: seq<Option<Byte>>)
    requires !TxRun(d, t, front).busy
    ensures var ws := front + [None, None, None];
            && Trace(d, t, ws) == Trace(d, t, front) + [true, true, true] && Written(d, t, ws) == Written(d, t, front)
  {
    hide Trace, Written;
    RunConcat(d, t, front, [None, None, None]);
    TailOfIdle(d, TxRun(d, t, front));
  }

  lemma OneQuiet(d: Divider, t: Tx, ws: seq<Option<Byte>>)
    requires !t.busy
    ensures var all, n := [None] + ws, TxNext(d, t, None);
            !n.busy && Trace(d, t, all) == [true] + Trace(d, n, ws) && Written(d, t, all) == Written(d, n, ws)
  {
    assert ([None] + ws)[1..] == ws;
  }

  lemma TailOfIdle(d: Divider, t: Tx)
    requires !t.busy
    ensures Trace(d, t, [None, None, None]) == [true, true, true] && Written(d, t, [None, None, None]) == []
  {
    hide Trace, Written;
    var w: Option<Byte> := None;
    var t1 := TxNext(d, t, w);
    OneQuiet(d, t, [w, w]);
    OneQuiet(d, t1, [w]);
    OneQuiet(d, TxNext(d, t1, w), []);
    assert [w] + [w, w] == [w, w, w] && [w] + [w] == [w, w] && [w] + [] == [w];
    NothingRuns(d, TxNext(d, TxNext(d, t1, w), w));
  }

  lemma NothingRuns(d: Divider, t: Tx)
    ensures Trace(d, t, []) == [] && Written(d, t, []) == []
  {
  }

  // ---------------------------------------------------------------------------- Data register

  /** One clock of the loop with the processor's side: a write to send and a read of the data register. */
  datatype Bus = Bus(write: Option<Byte>, read: bool)

  function WritesOf(bs: seq<Bus>): (ws: seq<Option<Byte>>)
    ensures |ws| == |bs|
    decreases |bs|
  {
    if bs == [] then [] else [bs[0].write] + WritesOf(bs[1..])
  }

  function InboxRun(d: Divider, s: Loop, b: Inbox, bs: seq<Bus>): Inbox
    decreases |bs|
  {
    if bs == [] then b
    else InboxRun(d, LoopNext(d, s, bs[0].write), InboxNext(b, s.rx, s.sync1, bs[0].read), bs[1..])
  }

  /** The bytes that the processor reads. */
  function Fetched(d: Divider, s: Loop, b: Inbox, bs: seq<Bus>): seq<Byte>
    decreases |bs|
  {
    if bs == [] then []
    else (if bs[0].read && b.ready then [b.data] else [])
         + Fetched(d, LoopNext(d, s, bs[0].write), InboxNext(b, s.rx, s.sync1, bs[0].read), bs[1..])
  }

  /** No byte completes while the one before it is still unread. */
  predicate Drained(d: Divider, s: Loop, b: Inbox, bs: seq<Bus>)
    decreases |bs|
  {
    bs == [] ||
    ((Delivers(s.rx, s.sync1) && b.ready ==> bs[0].read)
     && Drained(d, LoopNext(d, s, bs[0].write), InboxNext(b, s.rx, s.sync1, bs[0].read), bs[1..]))
  }

  function Unread(b: Inbox): seq<Byte> { if b.ready then [b.data] else [] }

  /** A completed byte takes the place of one that is read, or of none. */
  lemma InboxStep(b: Inbox, e: Engine, level: bool, read: bool)
    requires !Fails(e, level) && (Delivers(e, level) && b.ready ==> read)
    ensures var c := InboxNext(b, e, level, read);
            && Unread(b) + (if Delivers(e, level) then [e.shift] else [])
               == (if read && b.ready then [b.data] else []) + Unread(c)
            && (c.err ==> b.err)
  {
  }

  lemma {:induction false} FetchesReceived(d: Divider, s: Loop, b: Inbox, bs: seq<Bus>)
    requires ErrorFree(d, s, WritesOf(bs)) && Drained(d, s, b, bs)
    ensures Unread(b) + Received(d, s, WritesOf(bs)) == Fetched(d, s, b, bs) + Unread(InboxRun(d, s, b, bs))
    ensures InboxRun(d, s, b, bs).err ==> b.err
    decreases |bs|
  {
    hide LoopNext, InboxNext, Unread, Delivers, Fails;
    if bs != [] {
      var ws := WritesOf(bs);
      assert ws[0] == bs[0].write && ws[1..] == WritesOf(bs[1..]);
      var n, c := LoopNext(d, s, ws[0]), InboxNext(b, s.rx, s.sync1, bs[0].read);
      FetchesReceived(d, n, c, bs[1..]);
      var got, read := if Delivers(s.rx, s.sync1) then [s.rx.shift] else [], if bs[0].read && b.ready then [b.data] else [];
      InboxStep(b, s.rx, s.sync1, bs[0].read);
      Trade(Unread(b), got, read, Unread(c), Received(d, n, ws[1..]), Fetched(d, n, c, bs[1..]),
            Unread(InboxRun(d, n, c, bs[1..])));
    }
  }

  /** End to end: a processor that drains the data register in time reads the bytes it wrote. */
  lemma ProcessorReadsWhatItWrote(d: Divider, bs: seq<Bus>)
    requires Drained(d, LOOP_RESET, INBOX_RESET, bs)
    ensures Fetched(d, LOOP_RESET, INBOX_RESET, bs) <= Written(d, TX_RESET, WritesOf(bs))
    ensures !InboxRun(d, LOOP_RESET, INBOX_RESET, bs).err
  {
    hide Received, Written, Fetched, ErrorFree, Drained, InboxRun;
    RoundTrip(d, WritesOf(bs));
    FetchesReceived(d, LOOP_RESET, INBOX_RESET, bs);
    var r := Received(d, LOOP_RESET, WritesOf(bs));
    assert Unread(INBOX_RESET) + r == r;
  }

  /** The bytes that complete while the one before them is still unread. */
  function Overruns(d: Divider, s: Loop, b: Inbox, bs: seq<Bus>): nat
    decreases |bs|
  {
    if bs == [] then 0
    else (if Delivers(s.rx, s.sync1) && b.ready && !bs[0].read then 1 else 0)
         + Overruns(d, LoopNext(d, s, bs[0].write), InboxNext(b, s.rx, s.sync1, bs[0].read), bs[1..])
  }

  lemma {:induction false} DrainedHasNoOverrun(d: Divider, s: Loop, b: Inbox, bs: seq<Bus>)
    ensures Drained(d, s, b, bs) <==> Overruns(d, s, b, bs) == 0
    decreases |bs|
  {
    hide LoopNext, InboxNext, Delivers;
    if bs != [] { DrainedHasNoOverrun(d, LoopNext(d, s, bs[0].write), InboxNext(b, s.rx, s.sync1, bs[0].read), bs[1..]); }
  }

  lemma InboxCount(b: Inbox, e: Engine, level: bool, read: bool)
    requires !Fails(e, level)
    ensures |Unread(b)| + (if Delivers(e, level) then 1 else 0)
         == (if read && b.ready then 1 else 0) + |Unread(InboxNext(b, e, level, read))|
            + (if Delivers(e, level) && b.ready && !read then 1 else 0)
  {
  }

  /** Each overrun loses exactly one byte. */
  lemma {:induction false} OverrunsLoseBytes(d: Divider, s: Loop, b: Inbox, bs: seq<Bus>)
    requires ErrorFree(d, s, WritesOf(bs))
    ensures |Unread(b)| + |Received(d, s, WritesOf(bs))|
         == |Fetched(d, s, b, bs)| + |Unread(InboxRun(d, s, b, bs))| + Overruns(d, s, b, bs)
    decreases |bs|
  {
    hide LoopNext, InboxNext, Unread, Delivers, Fails;
    if bs != [] {
      var ws := WritesOf(bs);
      assert ws[0] == bs[0].write && ws[1..] == WritesOf(bs[1..]);
      InboxCount(b, s.rx, s.sync1, bs[0].read);
      OverrunsLoseBytes(d, LoopNext(d, s, ws[0]), InboxNext(b, s.rx, s.sync1, bs[0].read), bs[1..]);
    }
  }

  /** Reading in time is exactly what it takes: the bytes that are read, with the one still unread,
      are all those received if and only if none completed on top of an unread one. */
  lemma NothingLostExactlyWhenDrained(d: Divider, bs: seq<Bus>)
    ensures Fetched(d, LOOP_RESET, INBOX_RESET, bs) + Unread(InboxRun(d, LOOP_RESET, INBOX_RESET, bs))
            == Received(d, LOOP_RESET, WritesOf(bs))
            <==> Drained(d, LOOP_RESET, INBOX_RESET, bs)
  {
    hide Received, Written, Fetched, ErrorFree, Drained, InboxRun, Overruns;
    RoundTrip(d, WritesOf(bs));
    OverrunsLoseBytes(d, LOOP_RESET, INBOX_RESET, bs);
    DrainedHasNoOverrun(d, LOOP_RESET, INBOX_RESET, bs);
    if Drained(d, LOOP_RESET, INBOX_RESET, bs) {
      FetchesReceived(d, LOOP_RESET, INBOX_RESET, bs);
      var r := Received(d, LOOP_RESET, WritesOf(bs));
      assert Unread(INBOX_RESET) + r == r;
    }
  }

  // ---------------------------------------------------------------------------- Machine

  /** The transmit and receive engines of uart_lite: registers updated in place. */
  class UartBlock {
    const divider: Divider
    var tx: Tx
    var txd: bool
    var sync0: bool
    var sync1: bool
    var rxCount: nat
    var rxBusy: bool
    var rxBits: nat
    var rxShift: Byte
    var inbox: Inbox

    function View(): Loop reads this {
      Loop(tx, txd, sync0, sync1, Engine(rxCount, rxBusy, rxBits, rxShift))
    }

    constructor (d: Divider)
      ensures divider == d && View() == LOOP_RESET && inbox == INBOX_RESET
    {
      divider := d;
      tx, txd, sync0, sync1 := TX_RESET, true, true, true;
      rxCount, rxBusy, rxBits, rxShift := 0, false, START_BIT, seq(8, _ => false);
      inbox := INBOX_RESET;
    }

    /** The receiver's counter, shift register and bit index. */
    method ClockReceiver()
      modifies this`rxCount, this`rxBusy, this`rxBits, this`rxShift
      ensures View().rx == EngineNext(divider, old(View()).rx, sync1)
    {
      if !rxBusy {
        rxCount, rxBits := divider / 2, START_BIT;
        if !sync1 {
          rxBusy, rxShift := true, seq(8, _ => false);
        }
      } else if rxCount != 0 {
        rxCount := rxCount - 1;
      } else if rxBits == STOP_BIT {
        rxCount, rxBusy, rxBits := 0, false, START_BIT;
      } else {
        rxCount := divider;
        if rxBits == START_BIT {
          rxBusy := !sync1;
        } else {
          rxShift := ShiftIn(rxShift, sync1);
        }
        rxBits := rxBits + 1;
      }
    }

    /** One rising clock edge with the output wired to the input. */
    method Clock(i: Bus)
      modifies this
      ensures View() == LoopNext(divider, old(View()), i.write)
      ensures inbox == InboxNext(old(inbox), old(View()).rx, old(sync1), i.read)
    {
      inbox := InboxNext(inbox, View().rx, sync1, i.read);
      ClockReceiver();
      sync0, sync1, txd := txd, sync0, Level(tx);
      tx := TxNext(divider, tx, i.write);
    }
  }
}
