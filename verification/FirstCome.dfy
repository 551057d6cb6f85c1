/** The lines are first come, first served: new and ready in the order of arrival, blocked queues filled at
    the tail. A process is taken after exactly those ahead of it, less the ones finished while they waited
    (kernel/src/queues.c:195-330, kernel/src/handle_connection.c:122-150, 223-236). */
module FirstCome {
  import opened Collections
  import opened Process
  import opened Accounting
  import opened WakeScan
  import opened KernelSpec
  import opened KernelInvariant
  import opened Waiters

  // ---------- Lines ----------

  /** The two queues the planners serve from the head. */
  datatype Line = NewLine | ReadyLine

  function QueueOf(s: State, l: Line): seq<Pcb> { if l.NewLine? then s.newQ else s.readyQ }

  /** The event that serves the head of the line. */
  predicate Serves(e: Event, l: Line) { if l.NewLine? then e.LongTerm? else e.ShortTerm? }

  /** The queue without the process, when it is there. */
  function Without(q: seq<Pcb>, pid: int): seq<Pcb> {
    if HasPid(q, pid) then Remove(q, PidIndex(q, pid)) else q
  }

  function Pids(q: seq<Pcb>): (r: seq<int>)
    ensures |r| == |q| && forall i :: 0 <= i < |q| ==> r[i] == q[i].pid
  {
    seq(|q|, i requires 0 <= i < |q| => q[i].pid)
  }

  /** The pids ahead of `pid`. */
  function Ahead(q: seq<Pcb>, pid: int): seq<int> { Pids(q[..PidIndex(q, pid)]) }

  function Erase(l: seq<int>, gone: set<int>): seq<int> {
    if l == [] then [] else (if l[0] in gone then [] else [l[0]]) + Erase(l[1..], gone)
  }

  // ---------- One step ----------

  /** Who is woken, queue by queue, from queue i on. */
  function WokenFrom(blocked: seq<seq<Pcb>>, available: seq<int>, i: nat): seq<Pcb>
    requires i <= |blocked| == |available|
    decreases |blocked| - i
  {
    if i == |blocked| then []
    else WokenOf(blocked[i], available[i]) + WokenFrom(blocked, available, i + 1)
  }

  function WokenOf(q: seq<Pcb>, available: int): seq<Pcb> {
    if available > 0 then TagAll(Woken(q, available), Ready) else []
  }

  /** Queues before i do not matter. */
  lemma {:induction false} WokenFromSame(b: seq<seq<Pcb>>, c: seq<seq<Pcb>>, available: seq<int>, i: nat)
    requires i <= |b| == |c| == |available| && forall j :: i <= j < |b| ==> b[j] == c[j]
    ensures WokenFrom(b, available, i) == WokenFrom(c, available, i)
    decreases |b| - i
  {
    if i == |b| {
    } else {
      WokenFromSame(b, c, available, i + 1);
    }
  }

  /** A wake scan appends the woken to ready and moves nobody who is there. */
  lemma {:induction false} WakeFromReady(s: State, i: nat)
    requires i <= |s.blocked| == |s.available|
    ensures WakeFrom(s, i).readyQ == s.readyQ + WokenFrom(s.blocked, s.available, i)
    decreases |s.blocked| - i
  {
    hide WakeOne, WokenOf;
    if i == |s.blocked| {
    } else {
      var m := WakeOne(s, i);
      WakeOneReady(s, i);
      WakeFromReady(m, i + 1);
      WokenFromSame(s.blocked, m.blocked, s.available, i + 1);
      var first, rest := WokenOf(s.blocked[i], s.available[i]), WokenFrom(s.blocked, s.available, i + 1);
      assert (s.readyQ + first) + rest == s.readyQ + (first + rest);
    }
  }

  lemma WakeOneReady(s: State, i: nat)
    requires i < |s.blocked| == |s.available|
    ensures var m := WakeOne(s, i);
      && m.readyQ == s.readyQ + WokenOf(s.blocked[i], s.available[i]) && m.available == s.available
      && |m.blocked| == |s.blocked| && forall j :: 0 <= j < |s.blocked| && j != i ==> m.blocked[j] == s.blocked[j]
  {}

  /** A finish keeps the order of those who stay, and appends the woken to ready. */
  lemma FinishLines(s: State, pid: int)
    requires Sized(s) && Locate(s, pid) != Nowhere
    ensures !HasPid(s.newQ, pid) ==> Finish(s, pid).newQ == s.newQ
    ensures Locate(s, pid) == InNew ==> Finish(s, pid).newQ == Without(s.newQ, pid)
    ensures Finish(s, pid).readyQ ==
      (if Locate(s, pid) == InReady then Without(s.readyQ, pid) else s.readyQ)
      + WokenFrom(Extracted(s, pid).blocked, Extracted(s, pid).available, 0)
  {
    hide WakeFrom, Release, PidIndex, BlockedIndex, Total, Sum, SumAll, Finish, WokenFrom;
    FinishFields(s, pid);
    WakeFromReady(Extracted(s, pid), 0);
  }

  /** A pid is in one line, so looking for it in both is the same as looking where it was found. */
  lemma FoundInOne(s: State, pid: int)
    requires PidsUnique(s)
    ensures Locate(s, pid) != InNew ==> !HasPid(s.newQ, pid)
    ensures Locate(s, pid) != InReady ==> !HasPid(s.readyQ, pid)
  {
    assert Total(Pid(pid), s) <= 1;
    if HasPid(s.newQ, pid) { MemberBelow(Pid(pid), s.newQ, s.newQ[PidIndex(s.newQ, pid)]); }
    if HasPid(s.readyQ, pid) { MemberBelow(Pid(pid), s.readyQ, s.readyQ[PidIndex(s.readyQ, pid)]); }
  }

  /** What an event does to a line: the head is served, a finished process drops out, everybody else keeps the order,
      and whoever joins does so at the tail. */
  lemma StepLine(s: State, e: Event, l: Line)
    requires Inv(s) && Enabled(s, e)
    ensures Safe(s, e)
    ensures Serves(e, l) ==> QueueOf(s, l) != [] && QueueOf(Next(s, e), l) == QueueOf(s, l)[1..]
    ensures Ended(s, e).Some? ==> Without(QueueOf(s, l), Ended(s, e).value) <= QueueOf(Next(s, e), l)
    ensures Ended(s, e).None? && !Serves(e, l) ==> QueueOf(s, l) <= QueueOf(Next(s, e), l)
  {
    hide Finish, Total, TagsMatch, Conserved, SemaphoresMatch, PidIndex, Locate, WokenFrom, Extracted;
    HandlerInv(s, e);
    match e {
      case CpuFinish(p) => RefreshInv(s, p); LocateExec(Refresh(s, p)); EndLine(Refresh(s, p), p.pid, l);
      case CpuWait(p, r) => RefreshInv(s, p); LocateExec(Refresh(s, p)); EndLine(Refresh(s, p), p.pid, l);
      case CpuSignal(p, r) => RefreshInv(s, p); LocateExec(Refresh(s, p)); EndLine(Refresh(s, p), p.pid, l);
      case ConsoleFinish(pid) => EndLine(s, pid, l);
      case _ =>
    }
  }

  lemma EndLine(s: State, pid: int, l: Line)
    requires Inv(s)
    ensures Locate(s, pid) != Nowhere ==> Without(QueueOf(s, l), pid) <= QueueOf(Finish(s, pid), l)
    ensures Locate(s, pid) == Nowhere ==> Finish(s, pid) == s
  {
    hide Total, TagsMatch, Conserved, SemaphoresMatch, PidIndex, WokenFrom, WakeFrom, Release, Settle;
    FoundInOne(s, pid);
    if Locate(s, pid) != Nowhere { FinishLines(s, pid); }
  }

  /** A dispatch puts the head of ready, and nobody else, into exec. */
  lemma DispatchTakesHead(s: State)
    requires Inv(s) && Enabled(s, ShortTerm)
    ensures s.readyQ != [] && Next(s, ShortTerm).execQ == [Tagged(s.readyQ[0], Execution)]
  {
    hide Total, TagsMatch, Conserved, PidsUnique;
    ShortTermInv(s);
  }

  /** An admission puts the head of new at the tail of ready. */
  lemma AdmissionTakesHead(s: State)
    requires Inv(s) && Enabled(s, LongTerm)
    ensures s.newQ != [] && Next(s, LongTerm).readyQ == s.readyQ + [Tagged(s.newQ[0], Ready)]
  {}

  /** Waiters join at the tail; unless somebody is finished, nobody else's place changes. */
  lemma StepWaiters(s: State, e: Event, i: nat)
    requires Inv(s) && Enabled(s, e) && i < |s.blocked| && Ended(s, e).None?
    ensures Safe(s, e) && i < |Next(s, e).blocked| && s.blocked[i] <= Next(s, e).blocked[i]
  {
    hide Total, TagsMatch, Conserved, PidsUnique, SemaphoresMatch, Finish;
    HandlerInv(s, e);
    if e.ConsoleFinish? { FinishNobody(s, e.pid); }
  }

  // ---------- Who is ahead ----------

  ghost predicate DistinctPids(q: seq<Pcb>) { forall i, j :: 0 <= i < j < |q| ==> q[i].pid != q[j].pid }

  /** Nobody is twice in a line. */
  lemma LineDistinct(s: State, l: Line)
    requires PidsUnique(s)
    ensures DistinctPids(QueueOf(s, l))
  {
    var q := QueueOf(s, l);
    forall i, j | 0 <= i < j < |q| ensures q[i].pid != q[j].pid {
      var w := Pid(q[i].pid);
      assert Total(w, s) <= 1;
      SumRemove(w, q, i);
      assert Remove(q, i)[j - 1] == q[j];
      MemberBelow(w, Remove(q, i), q[j]);
    }
  }

  lemma AheadOfMore(q: seq<Pcb>, r: seq<Pcb>, pid: int)
    requires q <= r && HasPid(q, pid)
    ensures HasPid(r, pid) && Ahead(r, pid) == Ahead(q, pid)
  {
    var i, j := PidIndex(q, pid), PidIndex(r, pid);
    assert r[i] == q[i];
    assert j < |q| ==> r[j] == q[j];
    assert r[..i] == q[..i];
  }

  /** The head is served: one fewer is ahead. */
  lemma AheadOfTail(q: seq<Pcb>, pid: int)
    requires DistinctPids(q) && q != [] && HasPid(q[1..], pid)
    ensures HasPid(q, pid) && Ahead(q, pid) == [q[0].pid] + Ahead(q[1..], pid) && q[0].pid != pid
  {
    var i := PidIndex(q[1..], pid);
    assert q[1..][i] == q[i + 1];
    assert PidIndex(q, pid) == i + 1;
    assert q[..i + 1] == [q[0]] + q[1..][..i];
  }

  lemma {:induction false} EraseAbsent(l: seq<int>, gone: set<int>)
    requires forall i :: 0 <= i < |l| ==> l[i] !in gone
    ensures Erase(l, gone) == l
  {
    if l == [] {
    } else {
      EraseAbsent(l[1..], gone);
      assert l == [l[0]] + l[1..];
    }
  }

  lemma {:induction false} EraseConcat(a: seq<int>, b: seq<int>, gone: set<int>)
    ensures Erase(a + b, gone) == Erase(a, gone) + Erase(b, gone)
  {
    if a == [] {
      assert a + b == b;
    } else {
      EraseConcat(a[1..], b, gone);
      assert (a + b)[1..] == a[1..] + b;
      var head := if a[0] in gone then [] else [a[0]];
      assert head + (Erase(a[1..], gone) + Erase(b, gone)) == (head + Erase(a[1..], gone)) + Erase(b, gone);
    }
  }

  lemma {:induction false} EraseTwice(l: seq<int>, a: set<int>, b: set<int>)
    ensures Erase(Erase(l, a), b) == Erase(l, a + b)
  {
    if l == [] {
    } else {
      EraseTwice(l[1..], a, b);
      EraseConcat(if l[0] in a then [] else [l[0]], Erase(l[1..], a), b);
      assert Erase([l[0]], b) == (if l[0] in b then [] else [l[0]]) + Erase([l[0]][1..], b);
    }
  }

  lemma {:induction false} EraseMembers(l: seq<int>, gone: set<int>, k: int)
    ensures k in Erase(l, gone) <==> k in l && k !in gone
  {
    if l == [] {
    } else {
      EraseMembers(l[1..], gone, k);
    }
  }

  lemma AheadOfCons(p: Pcb, q: seq<Pcb>, pid: int)
    requires HasPid([p] + q, pid)
    ensures Ahead([p] + q, pid) == if p.pid == pid then [] else [p.pid] + Ahead(q, pid)
    ensures p.pid != pid ==> HasPid(q, pid)
  {
    var i, j := PidIndex([p] + q, pid), PidIndex(q, pid);
    assert ([p] + q)[0] == p && ([p] + q)[1..] == q;
    assert j < |q| ==> ([p] + q)[j + 1].pid == pid;
    if p.pid != pid {
      assert q[i - 1].pid == pid;
      assert i == j + 1;
      assert ([p] + q)[..i] == [p] + q[..j];
    }
  }

  lemma WithoutCons(p: Pcb, q: seq<Pcb>, k: int)
    ensures Without([p] + q, k) == if p.pid == k then q else [p] + Without(q, k)
  {
    var i, j := PidIndex([p] + q, k), PidIndex(q, k);
    assert ([p] + q)[0] == p && ([p] + q)[1..] == q;
    assert j < |q| ==> ([p] + q)[j + 1].pid == k;
    assert 0 < i < |[p] + q| ==> q[i - 1].pid == k;
    if p.pid != k && j < |q| { assert i == j + 1; }
  }

  /** Somebody ahead or behind drops out: the others keep their order. */
  lemma {:induction false} AheadWithout(q: seq<Pcb>, k: int, pid: int)
    requires DistinctPids(q) && HasPid(q, pid) && k != pid
    ensures HasPid(Without(q, k), pid) && Ahead(Without(q, k), pid) == Erase(Ahead(q, pid), {k})
  {
    hide PidIndex, Without, Ahead;
    var p, r := q[0], q[1..];
    assert q == [p] + r;
    AheadOfCons(p, r, pid);
    WithoutCons(p, r, k);
    if p.pid == pid {
      HeadHas(p, Without(r, k));
      AheadOfCons(p, Without(r, k), pid);
    } else if p.pid == k {
      AheadMembers(r, pid);
      EraseAbsent(Ahead(r, pid), {k});
    } else {
      AheadWithout(r, k, pid);
      TailHas(p, Without(r, k), pid);
      AheadOfCons(p, Without(r, k), pid);
    }
  }

  lemma HeadHas(p: Pcb, q: seq<Pcb>)
    ensures HasPid([p] + q, p.pid)
  {
    assert ([p] + q)[0].pid == p.pid;
  }

  lemma TailHas(p: Pcb, q: seq<Pcb>, pid: int)
    requires HasPid(q, pid)
    ensures HasPid([p] + q, pid)
  {
    assert ([p] + q)[PidIndex(q, pid) + 1].pid == pid;
  }

  lemma AheadMembers(q: seq<Pcb>, pid: int)
    ensures |Ahead(q, pid)| <= |q| && forall i :: 0 <= i < |Ahead(q, pid)| ==> Ahead(q, pid)[i] == q[i].pid
  {}

  lemma StaysOther(q: seq<Pcb>, k: int, pid: int)
    requires DistinctPids(q) && HasPid(Without(q, k), pid)
    ensures HasPid(q, pid) && k != pid
  {
    if HasPid(q, k) {
      var c := PidIndex(q, k);
      var m := PidIndex(Remove(q, c), pid);
      assert Remove(q, c)[m] == q[if m < c then m else m + 1];
    }
  }

  // ---------- Whole runs ----------

  /** Who is served from the line along a run, in order. */
  function Served(s: State, es: seq<Event>, l: Line): seq<int>
    decreases |es|
  {
    if es == [] || !Enabled(s, es[0]) || !Safe(s, es[0]) then []
    else ServedBy(s, es[0], l) + Served(Next(s, es[0]), es[1..], l)
  }

  function ServedBy(s: State, e: Event, l: Line): seq<int> {
    if Serves(e, l) && QueueOf(s, l) != [] then [QueueOf(s, l)[0].pid] else []
  }

  /** Who is finished along a run while ahead of `pid`. */
  function Dropped(s: State, es: seq<Event>, l: Line, pid: int): set<int>
    decreases |es|
  {
    if es == [] || !Enabled(s, es[0]) || !Safe(s, es[0]) then {}
    else DroppedBy(s, es[0], l, pid) + Dropped(Next(s, es[0]), es[1..], l, pid)
  }

  function DroppedBy(s: State, e: Event, l: Line, pid: int): set<int> {
    if Ended(s, e).Some? && Ended(s, e).value in Ahead(QueueOf(s, l), pid) then {Ended(s, e).value} else {}
  }

  /** The process waits in the line all along the run. */
  ghost predicate StaysIn(s: State, es: seq<Event>, l: Line, pid: int)
    decreases |es|
  {
    && HasPid(QueueOf(s, l), pid)
    && (es != [] && Enabled(s, es[0]) && Safe(s, es[0]) ==> StaysIn(Next(s, es[0]), es[1..], l, pid))
  }

  /** A finished process is in no line any more. */
  lemma EndedIsOut(s: State, e: Event, l: Line)
    requires Inv(s) && Enabled(s, e) && Safe(s, e) && Ended(s, e).Some?
    ensures !HasPid(QueueOf(Next(s, e), l), Ended(s, e).value)
  {
    hide Next, Locate, PidIndex, TagsMatch, Conserved, SemaphoresMatch, Received;
    var w := Pid(Ended(s, e).value);
    StepTotal(w, s, e);
    assert Total(w, s) <= 1;
    var q := QueueOf(Next(s, e), l);
    if HasPid(q, Ended(s, e).value) { MemberBelow(w, q, q[PidIndex(q, Ended(s, e).value)]); }
  }

  lemma AheadStep(s: State, e: Event, l: Line, pid: int)
    requires Inv(s) && Enabled(s, e) && Safe(s, e)
    requires HasPid(QueueOf(s, l), pid) && HasPid(QueueOf(Next(s, e), l), pid)
    ensures var a, b := Ahead(QueueOf(s, l), pid), Ahead(QueueOf(Next(s, e), l), pid);
      && a == ServedBy(s, e, l) + (if Serves(e, l) then b else a)
      && (!Serves(e, l) ==> b == Erase(a, DroppedBy(s, e, l, pid)))
      && (Serves(e, l) ==> DroppedBy(s, e, l, pid) == {} && QueueOf(s, l) != [])
  {
    hide Inv, Next, Ahead, PidIndex, Locate, Enabled;
    var q, r := QueueOf(s, l), QueueOf(Next(s, e), l);
    StepLine(s, e, l);
    UniqueIn(s, l);
    if Serves(e, l) {
      AheadOfTail(q, pid);
    } else if Ended(s, e).Some? {
      var k := Ended(s, e).value;
      EndedIsOut(s, e, l);
      AheadWithout(q, k, pid);
      AheadOfMore(Without(q, k), r, pid);
      if k !in Ahead(q, pid) { EraseAbsent(Ahead(q, pid), {k}); }
      EraseAbsent(Ahead(q, pid), {});
    } else {
      AheadOfMore(q, r, pid);
      EraseAbsent(Ahead(q, pid), {});
    }
  }

  lemma UniqueIn(s: State, l: Line)
    requires Inv(s)
    ensures DistinctPids(QueueOf(s, l))
  {
    LineDistinct(s, l);
  }

  /** Main result: nobody overtakes. As long as a process waits in a line, those served from it, followed by those still
      ahead, are exactly those who were ahead at the start, in the same order, less the ones finished meanwhile. */
  lemma {:induction false} NobodyOvertakes(s: State, es: seq<Event>, t: State, l: Line, pid: int)
    requires Inv(s) && KernelInvariant.Runs(s, es, t) && StaysIn(s, es, l, pid)
    ensures HasPid(QueueOf(t, l), pid)
    ensures Served(s, es, l) + Ahead(QueueOf(t, l), pid) == Erase(Ahead(QueueOf(s, l), pid), Dropped(s, es, l, pid))
    ensures forall k :: k in Dropped(s, es, l, pid) ==> k in Ahead(QueueOf(s, l), pid)
    decreases |es|
  {
    hide Inv, Next, Ahead, PidIndex, Enabled, Safe, Erase;
    var a := Ahead(QueueOf(s, l), pid);
    if es == [] {
      EraseAbsent(a, {});
      assert [] + a == a;
    } else {
      var e := es[0];
      HandlerInv(s, e);
      var m := Next(s, e);
      var b, later := Ahead(QueueOf(m, l), pid), Dropped(m, es[1..], l, pid);
      assert StaysIn(m, es[1..], l, pid);
      NobodyOvertakes(m, es[1..], t, l, pid);
      AheadStep(s, e, l, pid);
      if Serves(e, l) {
        ServedFirst(s, l, b, later, pid);
        assert Dropped(s, es, l, pid) == {} + later == later;
        assert a == [QueueOf(s, l)[0].pid] + b;
        assert [QueueOf(s, l)[0].pid] + Served(m, es[1..], l) + Ahead(QueueOf(t, l), pid)
            == [QueueOf(s, l)[0].pid] + (Served(m, es[1..], l) + Ahead(QueueOf(t, l), pid));
      } else {
        EraseTwice(a, DroppedBy(s, e, l, pid), later);
        assert Served(s, es, l) == [] + Served(m, es[1..], l);
        forall k | k in Dropped(s, es, l, pid) ensures k in a {
          if k in later { EraseMembers(a, DroppedBy(s, e, l, pid), k); }
        }
      }
    }
  }

  /** The head, once served, is not among those dropped later. */
  lemma ServedFirst(s: State, l: Line, b: seq<int>, later: set<int>, pid: int)
    requires Inv(s) && HasPid(QueueOf(s, l), pid) && QueueOf(s, l) != []
    requires Ahead(QueueOf(s, l), pid) == [QueueOf(s, l)[0].pid] + b && forall k :: k in later ==> k in b
    ensures Erase([QueueOf(s, l)[0].pid] + b, later) == [QueueOf(s, l)[0].pid] + Erase(b, later)
  {
    hide Inv;
    var q := QueueOf(s, l);
    UniqueIn(s, l);
    AheadMembers(q, pid);
    assert ([q[0].pid] + b)[1..] == b;
  }
}
