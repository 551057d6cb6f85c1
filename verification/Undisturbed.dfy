/** The operations of one thread, undisturbed, add up to the handlers of module KernelSpec: what an
    interrupt, a refused WAIT, a SLEEP and a finish come to when nobody else moves meanwhile; and, whoever
    moves, every queue is filled at the tail. */
module Undisturbed {
  import opened Collections
  import opened WakeScan
  import opened Interleaving

  // ---------- The order of arrival ----------

  /** Every single operation takes from the head of new or ready, or appends; and only the wake scan takes from a
      blocked queue. */
  lemma ArrivalOrder(s: Sys, a: Act, i: nat)
    requires Inv(s) && Can(s, a) && i < |s.blocked|
    ensures Safe(s, a) && |Do(s, a).blocked| == |s.blocked|
    ensures if a.Long? && s.long.LPop? then Do(s, a).long.LPush? && s.newQ == [Do(s, a).long.pid] + Do(s, a).newQ
            else s.newQ <= Do(s, a).newQ
    ensures if a.Short? && s.short.SPop? then Do(s, a).short.SPush? && s.readyQ == [Do(s, a).short.pid] + Do(s, a).readyQ
            else s.readyQ <= Do(s, a).readyQ
    ensures !(a.Handler? && s.handler.HRemove?) ==> s.blocked[i] <= Do(s, a).blocked[i]
  {
    hide Tokens, NobodyLost, DropPid;
    InvIsSafe(s, a);
  }

  // ---------- A handler on its own ----------

  /** The handler's operations, one after the other; `available` is what the wake scan reads for each resource. */
  ghost predicate Leads(s: Sys, verdict: Verdict, available: seq<int>, n: nat, t: Sys)
    decreases n
  {
    if n == 0 then t == s
    else CanHandler(s, verdict) && HandlerSafe(s) && Leads(Operation(s, verdict, available), verdict, available, n - 1, t)
  }

  function Operation(s: Sys, verdict: Verdict, available: seq<int>): Sys
    requires CanHandler(s, verdict) && HandlerSafe(s)
  {
    DoHandler(s, if s.handler.HQueue? && 0 <= s.handler.i < |available| then available[s.handler.i] else 0, verdict)
  }

  lemma {:induction false} LeadsOn(s: Sys, verdict: Verdict, available: seq<int>, n: nat, t: Sys, m: nat, u: Sys)
    requires Leads(s, verdict, available, n, t) && Leads(t, verdict, available, m, u)
    ensures Leads(s, verdict, available, n + m, u)
    decreases n
  {
    hide Operation;
    if n == 0 {
    } else {
      LeadsOn(Operation(s, verdict, available), verdict, available, n - 1, t, m, u);
    }
  }

  lemma OneOperation(s: Sys, verdict: Verdict, available: seq<int>)
    requires Inv(s) && CanHandler(s, verdict)
    ensures HandlerSafe(s) && Inv(Operation(s, verdict, available))
    ensures Leads(s, verdict, available, 1, Operation(s, verdict, available))
  {
    hide Inv;
    var q := if s.handler.HQueue? && 0 <= s.handler.i < |available| then available[s.handler.i] else 0;
    ActKeeps(s, Handler(q, verdict));
    assert Leads(Operation(s, verdict, available), verdict, available, 0, Operation(s, verdict, available));
  }

  predicate Arrived(s: Sys, m: Message) { s.handler.HIdle? && s.cpu.Sent? && s.cpu.m == m }

  /** Between two operations of a move. */
  lemma MoveOperation(s: Sys, verdict: Verdict)
    requires Inv(s) && InMove(s.handler)
    ensures HandlerSafe(s) && Inv(DoMove(s)) && Leads(s, verdict, [], 1, DoMove(s))
  {
    hide Inv, DoScan, DoFinish, Receive;
    OneOperation(s, verdict, []);
  }

  /** An INTERRUPT: the process is the last in ready, and the CPU is free. */
  lemma InterruptAlone(s: Sys)
    requires Inv(s) && Arrived(s, MInterrupt)
    ensures Leads(s, Grant, [], 5, s.(cpu := CpuIdle, execQ := [], readyQ := s.readyQ + [s.cpu.pid],
                                      semCpu := s.semCpu + 1, semReady := s.semReady + 1))
  {
    ExecIsSender(s);
    hide Inv, Operation, DoHandler, Leads, CanHandler, HandlerSafe;
    CanReceive(s, Grant);
    ReceiveOperation(s, Grant);
    var a := Receive(s, Grant);
    MoveOperation(a, Grant);
    var b := DoMove(a);
    LeadsOn(s, Grant, [], 1, a, 1, b);
    MoveOperation(b, Grant);
    var c := DoMove(b);
    LeadsOn(s, Grant, [], 2, b, 1, c);
    MoveOperation(c, Grant);
    var d := DoMove(c);
    LeadsOn(s, Grant, [], 3, c, 1, d);
    MoveOperation(d, Grant);
    var e := DoMove(d);
    LeadsOn(s, Grant, [], 4, d, 1, e);
  }

  lemma CanReceive(s: Sys, verdict: Verdict)
    requires s.handler.HIdle? && s.cpu.Sent? && (verdict.Refuse? ==> verdict.i < |s.blocked|)
    ensures CanHandler(s, verdict)
  {}

  lemma ReceiveOperation(s: Sys, verdict: Verdict)
    requires Inv(s) && s.handler.HIdle? && CanHandler(s, verdict)
    ensures Inv(Receive(s, verdict)) && Leads(s, verdict, [], 1, Receive(s, verdict))
  {
    hide Inv, DoScan, DoMove, DoFinish;
    OneOperation(s, verdict, []);
  }

  /** A WAIT that is refused: first the process leaves exec, then it joins the waiters. */
  lemma RefusalTakes(s: Sys, i: nat)
    requires Inv(s) && Arrived(s, MRequest) && i < |s.blocked|
    ensures var t := s.(cpu := CpuIdle, execQ := [], handler := HBlkCpu(s.cpu.pid, i));
      Leads(s, Refuse(i), [], 2, t) && Inv(t)
  {
    ExecIsSender(s);
    hide Inv, Operation, DoHandler, Leads, CanHandler, HandlerSafe;
    var v := Refuse(i);
    CanReceive(s, v);
    ReceiveOperation(s, v);
    var a := Receive(s, v);
    MoveOperation(a, v);
    LeadsOn(s, v, [], 1, a, 1, DoMove(a));
  }

  lemma RefusalPuts(s: Sys, pid: int, i: nat)
    requires Inv(s) && s.handler == HBlkCpu(pid, i) && i < |s.blocked|
    ensures Leads(s, Refuse(i), [], 3, s.(handler := HIdle, blocked := s.blocked[i := s.blocked[i] + [pid]],
                                          semCpu := s.semCpu + 1, semBlocked := s.semBlocked + 1))
  {
    hide Inv, Operation, DoHandler, Leads, CanHandler, HandlerSafe;
    var v := Refuse(i);
    MoveOperation(s, v);
    var a := DoMove(s);
    MoveOperation(a, v);
    var b := DoMove(a);
    LeadsOn(s, v, [], 1, a, 1, b);
    MoveOperation(b, v);
    LeadsOn(s, v, [], 2, b, 1, DoMove(b));
  }

  /** The process is the last waiter of its resource, and the CPU is free. */
  lemma RefusalAlone(s: Sys, i: nat)
    requires Inv(s) && Arrived(s, MRequest) && i < |s.blocked|
    ensures Leads(s, Refuse(i), [], 5, s.(cpu := CpuIdle, execQ := [], blocked := s.blocked[i := s.blocked[i] + [s.cpu.pid]],
                                          semCpu := s.semCpu + 1, semBlocked := s.semBlocked + 1))
  {
    hide Inv, Leads;
    var t := s.(cpu := CpuIdle, execQ := [], handler := HBlkCpu(s.cpu.pid, i));
    RefusalTakes(s, i);
    RefusalPuts(t, s.cpu.pid, i);
    LeadsOn(s, Refuse(i), [], 2, t, 3, t.(handler := HIdle, blocked := t.blocked[i := t.blocked[i] + [s.cpu.pid]],
                                          semCpu := t.semCpu + 1, semBlocked := t.semBlocked + 1));
  }

  /** A request that is granted: the process goes on. */
  lemma GrantAlone(s: Sys)
    requires Inv(s) && Arrived(s, MRequest)
    ensures Leads(s, Grant, [], 1, s.(cpu := Running(s.cpu.pid)))
  {
    hide Inv;
    OneOperation(s, Grant, []);
  }

  /** A SLEEP: the process sleeps, and the CPU is free. */
  lemma SleepAlone(s: Sys)
    requires Inv(s) && Arrived(s, MSleep)
    ensures Leads(s, Grant, [], 3, s.(cpu := CpuIdle, execQ := [], sleeping := s.sleeping + [s.cpu.pid], semCpu := s.semCpu + 1))
  {
    ExecIsSender(s);
    hide Inv, Operation, DoHandler, Leads, CanHandler, HandlerSafe;
    CanReceive(s, Grant);
    ReceiveOperation(s, Grant);
    var a := Receive(s, Grant);
    MoveOperation(a, Grant);
    var b := DoMove(a);
    LeadsOn(s, Grant, [], 1, a, 1, b);
    MoveOperation(b, Grant);
    var c := DoMove(b);
    LeadsOn(s, Grant, [], 2, b, 1, c);
  }

  lemma ExecIsSender(s: Sys)
    requires Inv(s) && s.handler.HIdle? && s.cpu.Sent?
    ensures s.execQ == [s.cpu.pid]
  {
    hide NewTokens, ReadyTokens, BlockedTokens, DegreeTokens, StopTokens, NobodyLost, CpuTokens;
  }

  // ---------- Finishing ----------

  /** After k turns of the wake loop on queue i of `s`. */
  function AfterTurns(s: Sys, i: nat, k: nat): Sys
    requires i < |s.blocked|
  {
    var q := s.blocked[i];
    s.(readyQ := s.readyQ + Woken(q, k), blocked := s.blocked[i := Waiting(q, k)],
       semBlocked := s.semBlocked - |Woken(q, k)|, semReady := s.semReady + |Woken(q, k)|)
  }

  /** What is left when the scan has done the queues from i on. */
  function Scanned(s: Sys, available: seq<int>, i: nat): Sys
    requires i <= |s.blocked| == |available|
    decreases |s.blocked| - i
  {
    if i == |s.blocked| then s.(handler := HCpuPost)
    else Scanned(ScannedOne(s, available, i), available, i + 1)
  }

  function ScannedOne(s: Sys, available: seq<int>, i: nat): Sys
    requires i < |s.blocked| == |available|
  {
    var m := if available[i] > 0 then AfterTurns(s, i, available[i]) else s;
    m.(handler := HQueue(i + 1))
  }

  /** Nobody waits twice in a queue. */
  lemma QueueDistinct(s: Sys, i: nat)
    requires Inv(s) && i < |s.blocked| && !s.handler.HRemove?
    ensures Distinct(s.blocked[i])
  {
    hide Tokens;
    var q := s.blocked[i];
    forall a, b | 0 <= a < b < |q| ensures q[a] != q[b] {
      var k := q[a];
      CountAllAt(k, s.blocked, i);
      assert Places(s, k) <= 1;
      CountCut(k, q, a);
      assert Remove(q, a)[b - 1] == q[b];
      CountIn(k, Remove(q, a));
    }
  }

  lemma {:induction false} CountAllAt(k: int, qs: seq<seq<int>>, i: nat)
    requires i < |qs|
    ensures Count(k, qs[i]) <= CountAll(k, qs)
  {
    if i == 0 {
    } else {
      CountAllAt(k, qs[1..], i - 1);
    }
  }

  lemma {:induction false} DropIsRemove(q: seq<int>, k: nat)
    requires k < |q| && Distinct(q)
    ensures DropPid(q, q[k]) == Remove(q, k)
  {
    if k == 0 {
    } else {
      DropIsRemove(q[1..], k - 1);
      assert q[0] != q[k] && q[1..][k - 1] == q[k];
      assert [q[0]] + Remove(q[1..], k - 1) == Remove(q, k);
    }
  }

  /** One operation of the scan. */
  lemma ScanOperation(s: Sys, verdict: Verdict, available: seq<int>)
    requires Inv(s) && InScan(s.handler) && !s.handler.HQueue?
    ensures HandlerSafe(s) && Inv(DoScan(s, 0)) && Leads(s, verdict, available, 1, DoScan(s, 0))
  {
    if s.handler.HBlockedWait? { SemBlockedLeft(s); }
    hide Inv, DoMove, DoFinish, Receive;
    OneOperation(s, verdict, available);
  }

  /** One turn of the wake loop, operation by operation: the queues first, then the counters. */
  lemma TurnQueues(s: Sys, verdict: Verdict, available: seq<int>, i: nat, k: nat, n: int)
    requires Inv(s) && s.handler == HTurn(i, k, n) && i < |s.blocked| && k < Min(n, |s.blocked[i]|)
    ensures var q := s.blocked[i];
      var t := s.(handler := HBlockedWait(i, k, n), readyQ := s.readyQ + [q[k]], blocked := s.blocked[i := Remove(q, k)]);
      Leads(s, verdict, available, 3, t) && Inv(t)
  {
    QueueDistinct(s, i);
    DropIsRemove(s.blocked[i], k);
    hide Inv, Leads, DropPid, HandlerSafe;
    var pid := s.blocked[i][k];
    var a := s.(handler := HWake(i, k, n, pid));
    ScanOperation(s, verdict, available);
    assert DoScan(s, 0) == a;
    var b := a.(handler := HRemove(i, k, n, pid), readyQ := s.readyQ + [pid]);
    ScanOperation(a, verdict, available);
    assert DoScan(a, 0) == b;
    ScanOperation(b, verdict, available);
    LeadsOn(s, verdict, available, 1, a, 1, b);
    LeadsOn(s, verdict, available, 2, b, 1, DoScan(b, 0));
  }

  lemma TurnCounters(s: Sys, verdict: Verdict, available: seq<int>, i: nat, k: nat, n: int)
    requires Inv(s) && s.handler == HBlockedWait(i, k, n)
    ensures var t := s.(handler := HTurn(i, k + 1, n), semBlocked := s.semBlocked - 1, semReady := s.semReady + 1);
      Leads(s, verdict, available, 2, t) && Inv(t)
  {
    hide Inv, Leads, DropPid, HandlerSafe;
    var m := s.(handler := HReadyPost(i, k, n), semBlocked := s.semBlocked - 1);
    ScanOperation(s, verdict, available);
    assert DoScan(s, 0) == m;
    ScanOperation(m, verdict, available);
    LeadsOn(s, verdict, available, 1, m, 1, DoScan(m, 0));
  }

  lemma TurnAlone(s: Sys, verdict: Verdict, available: seq<int>, i: nat, k: nat, n: int)
    requires Inv(s) && s.handler == HTurn(i, k, n) && i < |s.blocked| && k < Min(n, |s.blocked[i]|)
    ensures var q := s.blocked[i];
      var t := s.(handler := HTurn(i, k + 1, n), readyQ := s.readyQ + [q[k]], blocked := s.blocked[i := Remove(q, k)],
                  semBlocked := s.semBlocked - 1, semReady := s.semReady + 1);
      Leads(s, verdict, available, 5, t) && Inv(t)
  {
    hide Inv, Leads;
    var q := s.blocked[i];
    var m := s.(handler := HBlockedWait(i, k, n), readyQ := s.readyQ + [q[k]], blocked := s.blocked[i := Remove(q, k)]);
    TurnQueues(s, verdict, available, i, k, n);
    TurnCounters(m, verdict, available, i, k, n);
    LeadsOn(s, verdict, available, 3, m, 2,
            m.(handler := HTurn(i, k + 1, n), semBlocked := m.semBlocked - 1, semReady := m.semReady + 1));
  }

  lemma SemBlockedLeft(s: Sys)
    requires Inv(s) && s.handler.HBlockedWait?
    ensures s.semBlocked > 0
  {
    InvIsSafe(s, CreatePush);
  }

  /** The wake loop on one queue takes exactly the waiters WakeScan says. */
  lemma {:induction false} QueueAlone(s: Sys, verdict: Verdict, available: seq<int>, i: nat, k: nat)
    requires i < |s.blocked| == |available| && available[i] > 0 && k <= Moves(|s.blocked[i]|, available[i])
    requires Inv(AfterTurns(s, i, k).(handler := HTurn(i, k, available[i])))
    ensures exists n: nat :: Leads(AfterTurns(s, i, k).(handler := HTurn(i, k, available[i])), verdict, available, n,
                              ScannedOne(s, available, i)) && Inv(ScannedOne(s, available, i))
    decreases |s.blocked[i]| - k
  {
    hide Inv, Leads, Operation;
    var q, a := s.blocked[i], available[i];
    var t := AfterTurns(s, i, k).(handler := HTurn(i, k, a));
    Guard(q, a, k);
    if k < Moves(|q|, a) {
      Turn(q, k);
      TurnAlone(t, verdict, available, i, k, a);
      var u := AfterTurns(s, i, k + 1).(handler := HTurn(i, k + 1, a));
      assert u.readyQ == t.readyQ + [q[2 * k]];
      assert u.blocked == t.blocked[i := Remove(t.blocked[i], k)];
      QueueAlone(s, verdict, available, i, k + 1);
      var n: nat :| Leads(u, verdict, available, n, ScannedOne(s, available, i));
      LeadsOn(t, verdict, available, 5, u, n, ScannedOne(s, available, i));
    } else {
      Clamp(q, a);
      OneOperation(t, verdict, available);
      QueueDone(s, verdict, available, i, k);
    }
  }

  lemma QueueDone(s: Sys, verdict: Verdict, available: seq<int>, i: nat, k: nat)
    requires i < |s.blocked| == |available| && available[i] > 0 && k == Moves(|s.blocked[i]|, available[i])
    requires var t := AfterTurns(s, i, k).(handler := HTurn(i, k, available[i]));
      k >= Min(available[i], |t.blocked[i]|) && HandlerSafe(t)
    ensures Operation(AfterTurns(s, i, k).(handler := HTurn(i, k, available[i])), verdict, available) == ScannedOne(s, available, i)
  {
    Clamp(s.blocked[i], available[i]);
  }

  /** The whole scan, queue by queue. */
  lemma {:induction false} ScanAlone(s: Sys, verdict: Verdict, available: seq<int>, i: nat)
    requires Inv(s) && s.handler == HQueue(i) && i <= |s.blocked| == |available|
    ensures exists n: nat :: Leads(s, verdict, available, n, Scanned(s, available, i)) && Inv(Scanned(s, available, i))
    decreases |s.blocked| - i
  {
    hide Inv, Leads, Operation;
    var end := Scanned(s, available, i);
    OneOperation(s, verdict, available);
    var t := Operation(s, verdict, available);
    if i == |s.blocked| {
      ScanStarts(s, verdict, available, i);
    } else {
      ScanStarts(s, verdict, available, i);
      var m := ScannedOne(s, available, i);
      var first: nat := 1;
      if |s.blocked[i]| > 0 && available[i] > 0 {
        QueueAlone(s, verdict, available, i, 0);
        var n: nat :| Leads(t, verdict, available, n, m) && Inv(m);
        LeadsOn(s, verdict, available, 1, t, n, m);
        first := 1 + n;
      }
      ScanAlone(m, verdict, available, i + 1);
      var n: nat :| Leads(m, verdict, available, n, end) && Inv(end);
      LeadsOn(s, verdict, available, first, m, n, end);
    }
  }

  /** The scan's first look at a queue. */
  lemma ScanStarts(s: Sys, verdict: Verdict, available: seq<int>, i: nat)
    requires s.handler == HQueue(i) && i <= |s.blocked| == |available| && CanHandler(s, verdict) && HandlerSafe(s)
    ensures i == |s.blocked| ==> Operation(s, verdict, available) == Scanned(s, available, i)
    ensures i < |s.blocked| && |s.blocked[i]| > 0 && available[i] > 0 ==>
      Operation(s, verdict, available) == AfterTurns(s, i, 0).(handler := HTurn(i, 0, available[i]))
    ensures i < |s.blocked| && (s.blocked[i] == [] || available[i] <= 0) ==>
      Operation(s, verdict, available) == ScannedOne(s, available, i)
  {
    if i < |s.blocked| {
      var q := s.blocked[i];
      assert Waiting(q, 0) == q && Woken(q, 0) == [];
      if q == [] && available[i] > 0 { assert Waiting(q, available[i]) == q && Woken(q, available[i]) == []; }
    }
  }

  /** From there to the wake scan. */
  lemma FinishStarts(s: Sys, available: seq<int>)
    requires Inv(s) && Arrived(s, MFinish)
    ensures var left := Left(s); Leads(s, Grant, available, 2, left) && Inv(left)
  {
    ExecIsSender(s);
    hide Inv, Leads, DoScan, DoMove;
    var t := s.(cpu := CpuIdle, handler := HFinish(s.cpu.pid));
    OneOperation(s, Grant, available);
    assert Operation(s, Grant, available) == t;
    OneOperation(t, Grant, available);
    assert Operation(t, Grant, available) == Left(s);
    LeadsOn(s, Grant, available, 1, t, 1, Left(s));
  }

  function Left(s: Sys): Sys
    requires s.cpu.Sent?
  {
    s.(cpu := CpuIdle, execQ := [], live := s.live - {s.cpu.pid}, handler := HQueue(0))
  }

  /** And on from the scan. */
  lemma FinishEnds(s: Sys, available: seq<int>)
    requires Inv(s) && s.handler.HCpuPost?
    ensures Leads(s, Grant, available, 2, s.(handler := HIdle, semCpu := s.semCpu + 1, semDegree := s.semDegree + 1))
  {
    hide Inv, Leads, DoScan, DoMove;
    var t := s.(handler := HDegreePost, semCpu := s.semCpu + 1);
    OneOperation(s, Grant, available);
    assert Operation(s, Grant, available) == t;
    OneOperation(t, Grant, available);
    LeadsOn(s, Grant, available, 1, t, 1, Operation(t, Grant, available));
  }

  /** What a finish comes to: the process is gone, the scan has woken whom WakeScan says, the CPU and a place are free. */
  function Finished(s: Sys, available: seq<int>): Sys
    requires s.cpu.Sent? && |available| == |s.blocked|
  {
    var m := Scanned(Left(s), available, 0);
    m.(handler := HIdle, semCpu := m.semCpu + 1, semDegree := m.semDegree + 1)
  }

  lemma FinishAlone(s: Sys, available: seq<int>)
    requires Inv(s) && Arrived(s, MFinish) && |available| == |s.blocked|
    ensures exists n: nat :: Leads(s, Grant, available, n, Finished(s, available))
  {
    hide Inv, Leads, Scanned;
    var left := Left(s);
    FinishStarts(s, available);
    ScanAlone(left, Grant, available, 0);
    var m := Scanned(left, available, 0);
    var n: nat :| Leads(left, Grant, available, n, m) && Inv(m);
    LeadsOn(s, Grant, available, 2, left, n, m);
    ScannedEnds(left, available, 0);
    FinishEnds(m, available);
    LeadsOn(s, Grant, available, 2 + n, m, 2, Finished(s, available));
  }

  lemma {:induction false} ScannedEnds(s: Sys, available: seq<int>, i: nat)
    requires i <= |s.blocked| == |available|
    ensures Scanned(s, available, i).handler == HCpuPost
    decreases |s.blocked| - i
  {
    if i == |s.blocked| {
    } else {
      ScannedEnds(ScannedOne(s, available, i), available, i + 1);
    }
  }
}
