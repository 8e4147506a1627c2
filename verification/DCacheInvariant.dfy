/** The memory behind the cache, the flat memory the cache stands for, and the relation between
    them that holds after every clock. */
module DCacheInvariant {
  import opened Words
  import opened DCacheCore
  import opened DCacheStore

  // ---------------------------------------------------------------------------- Memory side

  /** What the outport's memory is doing: answering a read burst, or collecting a write burst
      (which takes effect when it is acknowledged). */
  datatype Bus =
    | Idle
    | Reading(from: nat, left: nat)
    | Writing(base: nat, beats: seq<Word>, total: nat)

  datatype Env = Env(mem: Mem, bus: Bus)

  /** An error-free memory answers only bursts it has accepted, reads with its contents. */
  predicate Answers(e: Env, i: In) {
    i.ack ==>
      match e.bus
      case Idle => false
      case Reading(from, left) => left > 0 && i.readData == Rd(e.mem, from)
      case Writing(base, beats, total) => |beats| == total
  }

  function AfterAck(e: Env, i: In): Env {
    if !i.ack then e
    else match e.bus
      case Idle => e
      case Reading(from, left) => e.(bus := if left <= 1 then Idle else Reading(from + 1, left - 1))
      case Writing(base, beats, total) => Env(WrBurst(e.mem, base, beats), Idle)
  }

  function EnvNext(c: Core, e: Env, i: In): Env
    requires Sized(c)
  {
    var e1 := AfterAck(e, i);
    if PmemRd(c, i) && i.accept then
      e1.(bus := Reading(PmemAddr(c, i), PmemLen(c, i) + 1))
    else if PmemWr(c) && i.accept then
      e1.(bus :=
        if e1.bus.Writing? && |e1.bus.beats| < e1.bus.total then
          e1.bus.(beats := e1.bus.beats + [PmemWriteData(c)])
        else Writing(PmemAddr(c, i), [PmemWriteData(c)], PmemLen(c, i) + 1))
    else e1
  }

  /** The flat memory after this clock: a write changes it the moment it is accepted. */
  function FlatNext(c: Core, f: Mem, i: In): Mem {
    if Accept(c, i) && Any(i.wr) then Wr(f, Index(i.addr), i.data, i.wr) else f
  }

  // ---------------------------------------------------------------------------- Views

  function TagOut(c: Core, way: bool): Tag {
    if way then c.tag1.out else c.tag0.out
  }

  function DataOut(c: Core, way: bool): Word {
    if way then c.data1.out else c.data0.out
  }

  function Rams(c: Core): Store {
    Store(c.tag0.ram, c.tag1.ram, c.data0.ram, c.data1.ram)
  }

  /** The storage in use: a line being refilled counts as empty, whatever its tag says. */
  function InUse(c: Core): (s: Store)
    requires Sized(c)
    ensures Shaped(s)
  {
    if c.state == Refill then SetTag(Rams(c), c.replaceWay, c.m.addr.line, NO_TAG) else Rams(c)
  }

  /** The word `w` of address `a`, with the write still in the request buffer applied. */
  function Pending(c: Core, a: Addr, w: Word): Word {
    if a == c.m.addr then Merge(w, c.m.data, c.m.wr) else w
  }

  /** The flat memory is the cached view with the buffered write applied. */
  ghost predicate Represents(c: Core, m: Mem, f: Mem)
    requires Sized(c)
  {
    forall a: Addr {:trigger View(InUse(c), m, a)} :: Rd(f, Index(a)) == Pending(c, a, View(InUse(c), m, a))
  }

  // ---------------------------------------------------------------------------- Invariant

  predicate EmptyBelow(c: Core, n: nat)
    requires Sized(c) && n <= LINES
  {
    forall l: nat {:trigger c.tag0.ram[l]} {:trigger c.tag1.ram[l]} ::
      l < n ==> !c.tag0.ram[l].valid && !c.tag1.ram[l].valid
  }

  /** What the request buffer may hold in each state. */
  predicate RequestFits(c: Core) {
    var wr := Any(c.m.wr);
    match c.state
    case Reset => !c.m.rd && !wr && !c.m.writeback && !c.m.flush
    case Lookup =>
      && !(c.m.rd && (wr || c.m.writeback || c.m.flush))
      && !(wr && (c.m.writeback || c.m.flush))
      && !(c.m.writeback && c.m.flush)
    case Read => c.m.rd && !wr && !c.m.writeback && !c.m.flush
    case Write => !c.m.rd && wr && !c.m.writeback && !c.m.flush
    case Refill => c.m.rd != wr && !c.m.writeback && !c.m.flush
    case FlushAddr => !c.m.rd && !wr && !c.m.writeback && c.m.flush
    case Flush => !c.m.rd && !wr && !c.m.writeback && c.m.flush
    case Writeback => !c.m.rd && !wr && c.m.writeback && !c.m.flush
    case _ =>
      if c.flushing then !c.m.rd && !wr && !c.m.writeback && c.m.flush
      else if c.m.writeback then !c.m.rd && !wr && !c.m.flush
      else c.m.rd != wr && !c.m.flush
  }

  /** No way holds the buffered address in a dirty line. */
  predicate WrittenBack(c: Core)
    requires Sized(c)
  {
    && (Holds(Rams(c), false, c.m.addr) ==> !c.tag0.ram[c.m.addr.line].dirty)
    && (Holds(Rams(c), true, c.m.addr) ==> !c.tag1.ram[c.m.addr.line].dirty)
  }

  predicate Quiet(c: Core, e: Env) {
    e.bus == Idle && !c.pmemRd && !c.pmemWr
  }

  predicate TagsRead(c: Core, line: nat)
    requires Sized(c) && line < LINES
  {
    c.tag0.out == c.tag0.ram[line] && c.tag1.out == c.tag1.ram[line]
  }

  predicate FlushProgress(c: Core)
    requires Sized(c)
  {
    && c.flushing
    && EmptyBelow(c, c.flushAddr)
    && (c.flushLast ==> c.flushAddr == LINES - 1)
    && (c.state != FlushAddr && c.flushAddr == LINES - 1 ==> c.flushLast)
  }

  function Victim(c: Core): Addr
    requires Sized(c)
  {
    Addr(TagOut(c, c.replaceWay).addr, EvictLine(c), 0)
  }

  /** The line being evicted is dirty, and the tag outputs show why it is being evicted. */
  predicate EvictFits(c: Core)
    requires Sized(c)
  {
    && !c.pmemRd
    && TagsRead(c, EvictLine(c))
    && TagOut(c, c.replaceWay).valid && TagOut(c, c.replaceWay).dirty
    && (if c.flushing then FlushProgress(c)
        else if c.m.writeback then TagOut(c, c.replaceWay).addr == c.m.addr.tag
        else !HitAny(c))
  }

  /** The words of the line being evicted. */
  function VictimLine(c: Core): seq<Word>
    requires Sized(c)
  {
    Data(Rams(c), c.replaceWay)[RamIndex(EvictLine(c), 0)..RamIndex(EvictLine(c), 0) + WORDS]
  }

  /** How many beats of an eviction have been taken, from the down-counter. */
  function EvictDone(c: Core): int {
    WORDS - 1 - c.pmemLen
  }

  /** `n` beats of the victim line have been taken; beat `n` is on the bus. */
  predicate EvictBeats(c: Core, e: Env, n: nat)
    requires Sized(c) && n < WORDS
  {
    && c.pmemWr0 == (n == 0)
    && c.dataWriteAddr == (RamIndex(EvictLine(c), n) + 1) % 2048
    && (if c.pmemWr then c.pmemWriteData == Data(Rams(c), c.replaceWay)[RamIndex(EvictLine(c), n)]
        else DataOut(c, c.replaceWay) == Data(Rams(c), c.replaceWay)[RamIndex(EvictLine(c), n)])
    && (if n == 0 then e.bus == Idle
        else e.bus == Writing(Index(Victim(c)), VictimLine(c)[..n], WORDS)
             && c.pmemAddr == Index(Victim(c)) + n)
  }

  /** How many words of a refill have arrived, from the down-counter once the request is taken. */
  function RefillDone(c: Core): int {
    if c.pmemRd then 0 else WORDS - 1 - c.pmemLen
  }

  /** `n` words of the wanted line have arrived. */
  predicate RefillBeats(c: Core, e: Env, n: nat)
    requires Sized(c) && n < WORDS
  {
    && c.dataWriteAddr == RamIndex(c.m.addr.line, n)
    && e.bus == (if c.pmemRd then Idle else Reading(Index(LineBase(c.m.addr)) + n, WORDS - n))
    && (forall k: nat {:trigger RamIndex(c.m.addr.line, k)} :: k < n ==>
          Data(Rams(c), c.replaceWay)[RamIndex(c.m.addr.line, k)] == Rd(e.mem, Index(LineBase(c.m.addr)) + k))
  }

  ghost predicate StateFits(c: Core, e: Env)
    requires Sized(c)
  {
    match c.state
    case Reset =>
      && Quiet(c, e) && !c.flushing
      && (c.flushLast ==> EmptyBelow(c, LINES)) && (!c.flushLast ==> EmptyBelow(c, c.flushAddr))
    case Lookup =>
      && Quiet(c, e) && !c.flushing
      && (c.m.rd || Any(c.m.wr) ==> TagsRead(c, c.m.addr.line))
      && (c.m.rd && Holds(Rams(c), false, c.m.addr) ==> c.data0.out == DataAt(Rams(c), false, c.m.addr))
      && (c.m.rd && Holds(Rams(c), true, c.m.addr) ==> c.data1.out == DataAt(Rams(c), true, c.m.addr))
      && (c.m.flush ==> EmptyBelow(c, LINES))
      && (c.m.writeback ==> WrittenBack(c))
    case Read => Quiet(c, e) && !c.flushing && Holds(Rams(c), c.replaceWay, c.m.addr)
    case Write =>
      Quiet(c, e) && !c.flushing && Holds(Rams(c), c.replaceWay, c.m.addr) && TagsRead(c, c.m.addr.line)
    case Refill =>
      && !c.flushing && !c.pmemWr
      && !Holds(Rams(c), !c.replaceWay, c.m.addr)
      && RefillDone(c) >= 0 && RefillBeats(c, e, RefillDone(c))
    case Evict => EvictFits(c) && EvictDone(c) >= 0 && EvictBeats(c, e, EvictDone(c))
    case EvictWait =>
      EvictFits(c) && !c.pmemWr && e.bus == Writing(Index(Victim(c)), VictimLine(c), WORDS)
    case FlushAddr => Quiet(c, e) && FlushProgress(c)
    case Flush => Quiet(c, e) && FlushProgress(c) && TagsRead(c, c.flushAddr)
    case Writeback => Quiet(c, e) && !c.flushing && TagsRead(c, c.m.addr.line)
  }

  ghost predicate Inv(c: Core, e: Env, f: Mem)
    ensures Inv(c, e, f) ==> Sized(c)
  {
    && Sized(c)
    && RequestFits(c)
    && StateFits(c, e)
    && (c.state == Reset ==> f == e.mem)
    && (c.state != Reset ==> Coherent(InUse(c), e.mem) && Represents(c, e.mem, f))
  }
}
