/**
 * Double-entry bookkeeping for things that must end exactly once: every number handed out so far is either live or
 * done, once in total.
 */
module Ledger {

  ghost predicate Balanced(live: seq<nat>, done: seq<nat>, next: nat) {
    forall id: nat :: multiset(live)[id] + multiset(done)[id] == if id < next then 1 else 0
  }

  predicate Ascending(ids: seq<nat>) {
    forall i, j | 0 <= i < j < |ids| :: ids[i] < ids[j]
  }

  predicate Below(ids: seq<nat>, bound: nat) {
    forall i | 0 <= i < |ids| :: ids[i] < bound
  }

  lemma Issue(live: seq<nat>, done: seq<nat>, next: nat)
    requires Balanced(live, done, next)
    ensures Balanced(live + [next], done, next + 1)
  {
  }

  /** Moving entries from the live side to the done side keeps the balance. */
  lemma Finish(live: seq<nat>, done: seq<nat>, next: nat, kept: seq<nat>, finished: seq<nat>)
    requires Balanced(live, done, next)
    requires multiset(live) == multiset(kept) + multiset(finished)
    ensures Balanced(kept, done + finished, next)
  {
  }

  /** A balanced entry is live and not done, or done once and not live. */
  lemma ExactlyOnce(live: seq<nat>, done: seq<nat>, next: nat, id: nat)
    requires Balanced(live, done, next) && id < next
    ensures (id in live) != (id in done)
    ensures multiset(live)[id] <= 1 && multiset(done)[id] <= 1
  {
    assert id in live <==> id in multiset(live);
    assert id in done <==> id in multiset(done);
  }
}
