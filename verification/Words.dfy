/** 32-bit words seen as four byte lanes, byte strobes, and word-addressed memories. */
module Words {

  /** A 32-bit word, lane 0 least significant. */
  datatype Word = Word(b0: bv8, b1: bv8, b2: bv8, b3: bv8)

  const ZERO_WORD := Word(0, 0, 0, 0)

  /** A 4-bit byte enable. */
  datatype Strobe = Strobe(s0: bool, s1: bool, s2: bool, s3: bool)

  const NO_STROBE := Strobe(false, false, false, false)

  /** The reduction OR of a byte enable. */
  predicate Any(st: Strobe) {
    st.s0 || st.s1 || st.s2 || st.s3
  }

  /** Overwrites the enabled lanes of `old_`. */
  function Merge(old_: Word, new_: Word, st: Strobe): Word {
    Word(if st.s0 then new_.b0 else old_.b0,
         if st.s1 then new_.b1 else old_.b1,
         if st.s2 then new_.b2 else old_.b2,
         if st.s3 then new_.b3 else old_.b3)
  }

  /** A word memory, indexed by word address. Every word of a physical memory can be given a
      value by some map; words outside the map read as zero. */
  type Mem = map<nat, Word>

  function Rd(m: Mem, a: nat): Word {
    if a in m then m[a] else ZERO_WORD
  }

  function Wr(m: Mem, a: nat, d: Word, st: Strobe): Mem {
    m[a := Merge(Rd(m, a), d, st)]
  }

  /** The memory after the words `ws` have been stored from address `base` upwards. */
  function WrBurst(m: Mem, base: nat, ws: seq<Word>): Mem
    decreases |ws|
  {
    if |ws| == 0 then m
    else WrBurst(m, base, ws[..|ws| - 1])[base + |ws| - 1 := ws[|ws| - 1]]
  }

  /** A burst changes exactly the words it covers. */
  lemma {:induction false} WrBurstAt(m: Mem, base: nat, ws: seq<Word>, a: nat)
    ensures base <= a < base + |ws| ==> Rd(WrBurst(m, base, ws), a) == ws[a - base]
    ensures !(base <= a < base + |ws|) ==> Rd(WrBurst(m, base, ws), a) == Rd(m, a)
    decreases |ws|
  {
    if |ws| > 0 {
      WrBurstAt(m, base, ws[..|ws| - 1], a);
    }
  }
}
