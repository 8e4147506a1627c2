/** The small synchronous FIFOs of the design: what a clock does to their contents, and the ring
    buffer that implements it. */
module Fifo {

  const DEPTH := 2

  /** One clock: a pop takes the oldest entry if there is one, a push adds one if the FIFO was not
      full when the clock began. */
  function Clocked<T>(s: seq<T>, push: bool, x: T, pop: bool): (r: seq<T>)
    ensures |s| <= DEPTH ==> |r| <= DEPTH
  {
    (if pop && s != [] then s[1..] else s) + (if push && |s| < DEPTH then [x] else [])
  }

  /** A ring buffer with read and write pointers and a count. */
  class Ring<T(0)> {
    const ram: array<T>
    var rd: nat
    var wr: nat
    var count: nat

    ghost predicate Valid() reads this {
      ram.Length == 2 && rd < 2 && wr < 2 && count <= 2 && wr == (rd + count) % 2
    }

    /** The entries, oldest first. */
    function Contents(): (s: seq<T>)
      requires Valid()
      reads this, ram
    {
      if count == 0 then [] else if count == 1 then [ram[rd]] else [ram[rd], ram[1 - rd]]
    }

    constructor (storage: array<T>)
      requires storage.Length == 2
      ensures Valid() && ram == storage && Contents() == []
    {
      ram := storage;
      rd, wr, count := 0, 0, 0;
    }

    /** The oldest entry, as it stands at the output. */
    function Head(): T
      requires Valid() && count > 0
      reads this, ram
    {
      ram[rd]
    }

    method Clock(push: bool, x: T, pop: bool)
      requires Valid()
      modifies this, ram
      ensures Valid() && Contents() == Clocked(old(Contents()), push, x, pop)
    {
      var pushed, popped := push && count != 2, pop && count != 0;
      if pushed {
        ram[wr] := x;
        wr := (wr + 1) % 2;
      }
      if popped {
        rd := (rd + 1) % 2;
      }
      if pushed && !popped {
        count := count + 1;
      } else if !pushed && popped {
        count := count - 1;
      }
    }
  }
}
