/** Sequence facts that the solver is better given than left to find. */
module Seqs {

  lemma Assoc<T>(a: seq<T>, b: seq<T>, c: seq<T>)
    ensures a + (b + c) == (a + b) + c
  {
  }

  /** Two steps that each trade what is owed for what is done can be joined. */
  lemma Trade<T>(owed: seq<T>, now: seq<T>, done: seq<T>, owed': seq<T>, later: seq<T>, done': seq<T>, owed'': seq<T>)
    requires owed + now == done + owed' && owed' + later == done' + owed''
    ensures owed + (now + later) == (done + done') + owed''
  {
    Assoc(owed, now, later);
    Assoc(done, owed', later);
    Assoc(done, done', owed'');
  }
}
