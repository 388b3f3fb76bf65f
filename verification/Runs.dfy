/** Transactions and the runs they make, for every contract alike. */
module Runs {
  import opened Prelude

  /** A call, the ledger time and the ledger sequence it runs in. */
  datatype Transaction<+C> = Transaction(call: C, now: u64, ledger: u32)

  /** The states between the transactions of a run: each accepted one had its effect, each
      refused one none. */
  ghost predicate Trace<C(!new), S(!new)>(txs: seq<Transaction<C>>, oks: seq<bool>, states: seq<S>,
                                          effect: (Transaction<C>, S, S) -> bool)
  {
    && |oks| <= |txs| && |states| == |oks| + 1
    && forall i :: 0 <= i < |oks| ==>
         if oks[i] then effect(txs[i], states[i], states[i + 1]) else states[i + 1] == states[i]
  }

  lemma TraceNext<C(!new), S(!new)>(txs: seq<Transaction<C>>, oks: seq<bool>, states: seq<S>,
                                    effect: (Transaction<C>, S, S) -> bool, ok: bool, next: S)
    requires Trace(txs, oks, states, effect) && |oks| < |txs|
    requires if ok then effect(txs[|oks|], states[|oks|], next) else next == states[|oks|]
    ensures Trace(txs, oks + [ok], states + [next], effect)
  {
  }

  lemma TracePrefix<C(!new), S(!new)>(txs: seq<Transaction<C>>, oks: seq<bool>, states: seq<S>,
                                      effect: (Transaction<C>, S, S) -> bool, n: nat)
    requires Trace(txs, oks, states, effect) && n <= |oks|
    ensures Trace(txs[..n], oks[..n], states[..n + 1], effect)
  {
  }
}
