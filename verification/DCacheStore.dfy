/** The two ways as plain storage: which word they hold together with a backing memory, and how
    that changes when a line is dropped, cleaned, refilled or written. */
module DCacheStore {
  import opened Words
  import opened DCacheCore

  datatype Store = Store(tag0: seq<Tag>, tag1: seq<Tag>, data0: seq<Word>, data1: seq<Word>)

  predicate Shaped(s: Store) {
    |s.tag0| == LINES && |s.tag1| == LINES && |s.data0| == RAM_WORDS && |s.data1| == RAM_WORDS
  }

  function Tags(s: Store, way: bool): seq<Tag> {
    if way then s.tag1 else s.tag0
  }

  function Data(s: Store, way: bool): seq<Word> {
    if way then s.data1 else s.data0
  }

  function SetTag(s: Store, way: bool, line: nat, t: Tag): (r: Store)
    requires Shaped(s) && line < LINES
    ensures Shaped(r)
  {
    if way then s.(tag1 := s.tag1[line := t]) else s.(tag0 := s.tag0[line := t])
  }

  function SetData(s: Store, way: bool, k: nat, w: Word): (r: Store)
    requires Shaped(s) && k < RAM_WORDS
    ensures Shaped(r)
  {
    if way then s.(data1 := s.data1[k := w]) else s.(data0 := s.data0[k := w])
  }

  predicate Holds(s: Store, way: bool, a: Addr)
    requires Shaped(s)
  {
    Tags(s, way)[a.line].valid && Tags(s, way)[a.line].addr == a.tag
  }

  function DataAt(s: Store, way: bool, a: Addr): Word
    requires Shaped(s)
  {
    Data(s, way)[RamIndex(a.line, a.word)]
  }

  /** The word the ways and the backing memory hold together. */
  function View(s: Store, m: Mem, a: Addr): Word
    requires Shaped(s)
  {
    if Holds(s, false, a) then DataAt(s, false, a)
    else if Holds(s, true, a) then DataAt(s, true, a)
    else Rd(m, Index(a))
  }

  /** No address is in both ways, and every clean line equals memory word for word. */
  ghost predicate Coherent(s: Store, m: Mem)
    requires Shaped(s)
  {
    && (forall a: Addr {:trigger Holds(s, false, a)} {:trigger Holds(s, true, a)} ::
          !(Holds(s, false, a) && Holds(s, true, a)))
    && (forall way: bool, a: Addr {:trigger Holds(s, way, a)} ::
          Holds(s, way, a) && !Tags(s, way)[a.line].dirty ==> DataAt(s, way, a) == Rd(m, Index(a)))
  }

  /** Both pairs hold the same word at every address. */
  ghost predicate SameView(s: Store, m: Mem, s': Store, m': Mem)
    requires Shaped(s) && Shaped(s')
  {
    forall a: Addr {:trigger View(s', m', a)} :: View(s', m', a) == View(s, m, a)
  }

  /** Everything `way` holds in `line` under tag `t` equals memory. */
  ghost predicate LineMatches(s: Store, m: Mem, way: bool, line: nat, t: TagAddr)
    requires Shaped(s)
  {
    forall a: Addr {:trigger DataAt(s, way, a)} ::
      a.line == line && a.tag == t ==> DataAt(s, way, a) == Rd(m, Index(a))
  }

  // ---------------------------------------------------------------------------- Arithmetic

  /** Different addresses have different indices, and the eight words of a line are adjacent. */
  lemma IndexInjective(a: Addr, b: Addr)
    ensures Index(a) == Index(b) <==> a == b
    ensures Index(LineBase(b)) <= Index(a) < Index(LineBase(b)) + WORDS <==> a.tag == b.tag && a.line == b.line
    ensures Index(a) == Index(LineBase(a)) + a.word
    ensures Index(LineBase(a)) % 2048 == RamIndex(a.line, 0)
    ensures Index(a) < WORD_INDICES
  {
  }

  lemma RamIndexInjective(l: nat, k: nat, l': nat, k': nat)
    requires k < WORDS && k' < WORDS
    ensures RamIndex(l, k) == RamIndex(l', k') <==> l == l' && k == k'
  {
  }

  // ---------------------------------------------------------------------------- Storage steps

  /** Giving up a line that equals memory changes no word. */
  lemma Drop(s: Store, m: Mem, way: bool, line: nat, t: Tag)
    requires Shaped(s) && Coherent(s, m) && line < LINES
    requires Tags(s, way)[line].valid ==>
               !Tags(s, way)[line].dirty || LineMatches(s, m, way, line, Tags(s, way)[line].addr)
    requires !t.valid
    ensures Coherent(SetTag(s, way, line, t), m)
    ensures SameView(s, m, SetTag(s, way, line, t), m)
  {
    var s' := SetTag(s, way, line, t);
    forall w: bool, a: Addr ensures Holds(s', w, a) == (Holds(s, w, a) && !(w == way && a.line == line)) {}
    forall a: Addr ensures View(s', m, a) == View(s, m, a) {
      assert Holds(s, way, a) && a.line == line ==> DataAt(s, way, a) == Rd(m, Index(a));
    }
  }

  /** Marking a line clean once memory equals it changes no word. */
  lemma Clean(s: Store, m: Mem, way: bool, line: nat)
    requires Shaped(s) && Coherent(s, m) && line < LINES && Tags(s, way)[line].valid
    requires LineMatches(s, m, way, line, Tags(s, way)[line].addr)
    ensures Coherent(SetTag(s, way, line, Tag(true, false, Tags(s, way)[line].addr)), m)
    ensures SameView(s, m, SetTag(s, way, line, Tag(true, false, Tags(s, way)[line].addr)), m)
  {
    var s' := SetTag(s, way, line, Tag(true, false, Tags(s, way)[line].addr));
    forall w: bool, a: Addr ensures Holds(s', w, a) == Holds(s, w, a) {}
    forall w: bool, a: Addr ensures DataAt(s', w, a) == DataAt(s, w, a) {}
  }

  /** Writing a dirty line out makes memory equal it, and changes no word. */
  lemma WriteOut(s: Store, m: Mem, way: bool, b: Addr, ws: seq<Word>)
    requires Shaped(s) && Coherent(s, m) && Holds(s, way, b)
    requires ws == Data(s, way)[RamIndex(b.line, 0)..RamIndex(b.line, 0) + WORDS]
    ensures Coherent(s, WrBurst(m, Index(LineBase(b)), ws))
    ensures SameView(s, m, s, WrBurst(m, Index(LineBase(b)), ws))
    ensures LineMatches(s, WrBurst(m, Index(LineBase(b)), ws), way, b.line, b.tag)
  {
    var m' := WrBurst(m, Index(LineBase(b)), ws);
    forall a: Addr
      ensures a.line == b.line && a.tag == b.tag ==> Rd(m', Index(a)) == DataAt(s, way, a)
      ensures !(a.line == b.line && a.tag == b.tag) ==> Rd(m', Index(a)) == Rd(m, Index(a))
    {
      IndexInjective(a, b);
      WrBurstAt(m, Index(LineBase(b)), ws, Index(a));
    }
    forall w: bool, a: Addr | a.line == b.line && a.tag == b.tag ensures Holds(s, w, a) == (w == way) {
      assert Holds(s, w, a) == Holds(s, w, b);
    }
  }

  /** Storing into a line that is not in use changes no word. */
  lemma Fill(s: Store, m: Mem, way: bool, line: nat, k: nat, w: Word)
    requires Shaped(s) && Coherent(s, m) && line < LINES && k < WORDS && !Tags(s, way)[line].valid
    ensures Coherent(SetData(s, way, RamIndex(line, k), w), m)
    ensures SameView(s, m, SetData(s, way, RamIndex(line, k), w), m)
  {
    var s' := SetData(s, way, RamIndex(line, k), w);
    forall v: bool, a: Addr ensures Holds(s', v, a) == Holds(s, v, a) {}
    forall v: bool, a: Addr | Holds(s, v, a) ensures DataAt(s', v, a) == DataAt(s, v, a) {
      RamIndexInjective(line, k, a.line, a.word);
    }
  }

  /** Putting a line into use once it equals memory changes no word. */
  lemma Install(s: Store, m: Mem, way: bool, b: Addr)
    requires Shaped(s) && Coherent(s, m) && !Tags(s, way)[b.line].valid
    requires !Holds(s, !way, b) && LineMatches(s, m, way, b.line, b.tag)
    ensures Coherent(SetTag(s, way, b.line, Tag(true, false, b.tag)), m)
    ensures SameView(s, m, SetTag(s, way, b.line, Tag(true, false, b.tag)), m)
  {
    var s' := SetTag(s, way, b.line, Tag(true, false, b.tag));
    forall w: bool, a: Addr
      ensures Holds(s', w, a) == (Holds(s, w, a) || (w == way && a.line == b.line && a.tag == b.tag))
      ensures DataAt(s', w, a) == DataAt(s, w, a)
    {}
    forall a: Addr | a.line == b.line && a.tag == b.tag ensures !Holds(s, !way, a) {
      assert Holds(s, !way, a) == Holds(s, !way, b);
    }
  }

  /** The storage after a write hit: the line is dirty and the enabled lanes are replaced. */
  function WriteHit(s: Store, way: bool, b: Addr, d: Word, st: Strobe): Store
    requires Shaped(s)
  {
    SetData(SetTag(s, way, b.line, Tag(true, true, b.tag)), way, RamIndex(b.line, b.word),
            Merge(DataAt(s, way, b), d, st))
  }

  /** A write hit changes the written word as flat memory would, and no other. */
  lemma WriteHitView(s: Store, m: Mem, way: bool, b: Addr, d: Word, st: Strobe)
    requires Shaped(s) && Coherent(s, m) && Holds(s, way, b)
    ensures Coherent(WriteHit(s, way, b, d, st), m)
    ensures forall a: Addr {:trigger View(WriteHit(s, way, b, d, st), m, a)} ::
              View(WriteHit(s, way, b, d, st), m, a)
              == if a == b then Merge(View(s, m, a), d, st) else View(s, m, a)
    ensures Holds(WriteHit(s, way, b, d, st), way, b)
  {
    var s' := WriteHit(s, way, b, d, st);
    forall w: bool, a: Addr ensures Holds(s', w, a) == Holds(s, w, a) {}
    forall w: bool, a: Addr
      ensures DataAt(s', w, a)
              == if w == way && a.line == b.line && a.word == b.word then Merge(DataAt(s, w, a), d, st)
                 else DataAt(s, w, a)
    {
      RamIndexInjective(b.line, b.word, a.line, a.word);
    }
    assert !Holds(s, !way, b);
  }
}
