/** Counting over process queues.

    Every global equation of the kernel (each pid is queued once, instances are conserved, the
    multiprogramming degree) is a sum over all queues of some weight of each process. Moving a
    process between queues changes its state tag only, so it keeps every one of these sums. */
module Accounting {
  import opened Collections
  import opened Process

  datatype Weight =
    | One
    | Pid(pid: int)
    | Held(r: Name)
    | HeldIn(inside: set<int>, r: Name)
    | HeldOut(inside: set<int>, r: Name)
    | Stray(first: int, births: seq<Birth>)

  /** Pids are given out in order from `first` on, and the record still has what its process was created with. */
  predicate Bears(p: Pcb, first: int, births: seq<Birth>) {
    && first <= p.pid < first + |births|
    && Birth(p.path, p.quantum, p.clientSocket) == births[p.pid - first]
    && p.size == 0 && p.tablePages == 0
  }

  function W(w: Weight, p: Pcb): nat {
    match w
    case One => 1
    case Pid(k) => if p.pid == k then 1 else 0
    case Held(r) => multiset(p.resources)[r]
    case HeldIn(d, r) => if p.pid in d then multiset(p.resources)[r] else 0
    case HeldOut(d, r) => if p.pid in d then 0 else multiset(p.resources)[r]
    case Stray(first, births) => if Bears(p, first, births) then 0 else 1
  }

  function Sum(w: Weight, q: seq<Pcb>): nat {
    if q == [] then 0 else W(w, q[0]) + Sum(w, q[1..])
  }

  function SumAll(w: Weight, qs: seq<seq<Pcb>>): nat {
    if qs == [] then 0 else Sum(w, qs[0]) + SumAll(w, qs[1..])
  }

  function Tagged(p: Pcb, t: ProcessState): Pcb { p.(state := t) }

  function TagAll(q: seq<Pcb>, t: ProcessState): (r: seq<Pcb>)
    ensures |r| == |q|
    ensures forall j :: 0 <= j < |q| ==> r[j] == Tagged(q[j], t)
  {
    seq(|q|, j requires 0 <= j < |q| => Tagged(q[j], t))
  }

  lemma {:induction false} SumConcat(w: Weight, a: seq<Pcb>, b: seq<Pcb>)
    ensures Sum(w, a + b) == Sum(w, a) + Sum(w, b)
  {
    if a == [] {
      assert a + b == b;
    } else {
      SumConcat(w, a[1..], b);
      assert (a + b)[1..] == a[1..] + b;
    }
  }

  lemma SumPush(w: Weight, a: seq<Pcb>, p: Pcb)
    ensures Sum(w, a + [p]) == Sum(w, a) + W(w, p)
  {
    SumConcat(w, a, [p]);
    assert Sum(w, [p]) == W(w, p) + Sum(w, [p][1..]);
  }

  lemma SumRemove(w: Weight, q: seq<Pcb>, i: nat)
    requires i < |q|
    ensures Sum(w, q) == W(w, q[i]) + Sum(w, Remove(q, i))
  {
    assert q == q[..i] + ([q[i]] + q[i + 1..]);
    SumConcat(w, q[..i], [q[i]] + q[i + 1..]);
    SumConcat(w, q[..i], q[i + 1..]);
    assert ([q[i]] + q[i + 1..])[1..] == q[i + 1..];
  }

  lemma {:induction false} SumTagAll(w: Weight, q: seq<Pcb>, t: ProcessState)
    ensures Sum(w, TagAll(q, t)) == Sum(w, q)
  {
    if q == [] {
    } else {
      SumTagAll(w, q[1..], t);
      assert TagAll(q, t)[1..] == TagAll(q[1..], t);
    }
  }

  lemma {:induction false} SumOne(q: seq<Pcb>)
    ensures Sum(One, q) == |q|
  {
    if q == [] {
    } else {
      SumOne(q[1..]);
    }
  }

  lemma {:induction false} SumAllUpdate(w: Weight, qs: seq<seq<Pcb>>, i: nat, q: seq<Pcb>)
    requires i < |qs|
    ensures SumAll(w, qs[i := q]) + Sum(w, qs[i]) == SumAll(w, qs) + Sum(w, q)
  {
    if i == 0 {
      assert qs[i := q][1..] == qs[1..];
    } else {
      SumAllUpdate(w, qs[1..], i - 1, q);
      assert qs[i := q][1..] == qs[1..][i - 1 := q];
    }
  }

  /** A member's weight is part of the sum. */
  lemma {:induction false} MemberBelow(w: Weight, q: seq<Pcb>, p: Pcb)
    requires p in q
    ensures W(w, p) <= Sum(w, q)
  {
    if q[0] == p {
    } else {
      MemberBelow(w, q[1..], p);
    }
  }

  lemma {:induction false} SumAllBelow(w: Weight, qs: seq<seq<Pcb>>, i: nat)
    requires i < |qs|
    ensures Sum(w, qs[i]) <= SumAll(w, qs)
  {
    if i == 0 {
    } else {
      SumAllBelow(w, qs[1..], i - 1);
    }
  }

  lemma {:induction false} SumAllTwoBelow(w: Weight, qs: seq<seq<Pcb>>, i: nat, j: nat)
    requires i < j < |qs|
    ensures Sum(w, qs[i]) + Sum(w, qs[j]) <= SumAll(w, qs)
  {
    if i > 0 { SumAllTwoBelow(w, qs[1..], i - 1, j - 1); } else { SumAllBelow(w, qs[1..], j - 1); }
  }

  /** A positive sum has a member that contributes. */
  lemma {:induction false} Contributor(w: Weight, q: seq<Pcb>) returns (p: Pcb)
    requires Sum(w, q) > 0
    ensures p in q && W(w, p) > 0
  {
    if W(w, q[0]) > 0 { p := q[0]; } else { p := Contributor(w, q[1..]); }
  }

  lemma {:induction false} ContributorAll(w: Weight, qs: seq<seq<Pcb>>) returns (i: nat, p: Pcb)
    requires SumAll(w, qs) > 0
    ensures i < |qs| && p in qs[i] && W(w, p) > 0
  {
    if Sum(w, qs[0]) > 0 {
      i := 0;
      p := Contributor(w, qs[0]);
    } else {
      i, p := ContributorAll(w, qs[1..]);
      i := i + 1;
    }
  }

  /** Instances held inside and outside a set of processes add up to the instances held. */
  lemma {:induction false} InOutSplit(d: set<int>, r: Name, q: seq<Pcb>)
    ensures Sum(Held(r), q) == Sum(HeldIn(d, r), q) + Sum(HeldOut(d, r), q)
  {
    if q == [] {
    } else {
      InOutSplit(d, r, q[1..]);
    }
  }

  lemma {:induction false} InOutSplitAll(d: set<int>, r: Name, qs: seq<seq<Pcb>>)
    ensures SumAll(Held(r), qs) == SumAll(HeldIn(d, r), qs) + SumAll(HeldOut(d, r), qs)
  {
    if qs == [] {
    } else {
      InOutSplit(d, r, qs[0]);
      InOutSplitAll(d, r, qs[1..]);
    }
  }
}
