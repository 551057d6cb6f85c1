/** Which waiters one pass of the wake loop moves (kernel/src/queues.c:150-170).

    The loop advances its index while it removes from the list it is indexing, and compares the
    index with the shrinking size, so it takes every second waiter. `Woken` and `Waiting` describe
    the outcome by original position; the loop itself is proved against them in module Kernel. */
module WakeScan {
  import opened Collections
  import opened Process
  import opened Accounting

  /** How many waiters a pass moves when `n` wait and `k` instances are available. */
  function Moves(n: nat, k: nat): nat { Min(k, (n + 1) / 2) }

  function Woken<T>(q: seq<T>, k: nat): seq<T> {
    seq(Moves(|q|, k), j requires 0 <= j < Moves(|q|, k) => q[2 * j])
  }

  function Waiting<T>(q: seq<T>, k: nat): seq<T> {
    var m := Moves(|q|, k);
    seq(|q| - m, j requires 0 <= j < |q| - m => if j < m then q[2 * j + 1] else q[j + m])
  }

  /** One more turn of the loop: it reads index k of what is left, which is original position 2k. */
  lemma Turn<T>(q: seq<T>, k: nat)
    requires 2 * k < |q|
    ensures k < |Waiting(q, k)| && Waiting(q, k)[k] == q[2 * k]
    ensures Woken(q, k + 1) == Woken(q, k) + [q[2 * k]]
    ensures Waiting(q, k + 1) == Remove(Waiting(q, k), k)
  {}

  /** The loop guard holds before turn k exactly when the pass has more than k moves to make. */
  lemma Guard<T>(q: seq<T>, available: nat, k: nat)
    requires k <= Moves(|q|, available)
    ensures k < Min(available, |Waiting(q, k)|) <==> k < Moves(|q|, available)
  {}

  /** A pass with something to do wakes at least one waiter and at most as many as there are instances. */
  lemma PassBounds<T>(q: seq<T>, k: nat)
    requires |q| > 0 && k > 0
    ensures 1 <= |Woken(q, k)| <= k
    ensures |Woken(q, k)| + |Waiting(q, k)| == |q|
    ensures Woken(q, k)[0] == q[0]
  {}

  /** Every waiter is either woken or still waiting, and nobody is duplicated. */
  lemma {:induction false} PassPartition<T>(q: seq<T>, k: nat)
    ensures multiset(Woken(q, k)) + multiset(Waiting(q, k)) == multiset(q)
  {
    if k == 0 {
      assert Waiting(q, 0) == q;
    } else if k > Moves(|q|, k) {
      Clamp(q, k);
      PassPartition(q, Moves(|q|, k));
    } else {
      PassPartition(q, k - 1);
      Turn(q, k - 1);
      var r := Waiting(q, k - 1);
      assert r == r[..k - 1] + [r[k - 1]] + r[k..];
    }
  }

  lemma {:induction false} PassSum(w: Weight, q: seq<Pcb>, k: nat)
    ensures Sum(w, Woken(q, k)) + Sum(w, Waiting(q, k)) == Sum(w, q)
  {
    if k == 0 {
      assert Waiting(q, 0) == q;
    } else if k > Moves(|q|, k) {
      Clamp(q, k);
      PassSum(w, q, Moves(|q|, k));
    } else {
      PassSum(w, q, k - 1);
      Turn(q, k - 1);
      SumRemove(w, Waiting(q, k - 1), k - 1);
      SumPush(w, Woken(q, k - 1), q[2 * (k - 1)]);
    }
  }

  /** Only the number of moves matters. */
  lemma Clamp<T>(q: seq<T>, k: nat)
    ensures Moves(|q|, Moves(|q|, k)) == Moves(|q|, k)
    ensures Woken(q, k) == Woken(q, Moves(|q|, k)) && Waiting(q, k) == Waiting(q, Moves(|q|, k))
  {}

  lemma PassMembers<T>(q: seq<T>, k: nat)
    ensures forall p :: p in Woken(q, k) ==> p in q
    ensures forall p :: p in Waiting(q, k) ==> p in q
  {}
}
