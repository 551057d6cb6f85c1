/** When a process is left waiting for a resource that has free instances.

    Only finish_process rescans the waiters (kernel/src/queues.c:140), and its scan takes every
    second one. Both leave processes blocked next to a positive count: a SIGNAL whenever somebody
    waits, a finish whenever two wait. */
module Waiters {
  import opened Collections
  import opened Process
  import opened Accounting
  import opened WakeScan
  import opened KernelSpec
  import opened KernelInvariant

  /** Somebody waits for a resource that has a free instance. */
  predicate FreeWait(s: State)
    requires Sized(s)
  {
    exists i :: 0 <= i < |s.blocked| && s.available[i] > 0 && s.blocked[i] != []
  }

  /** A waiter leaves its blocked queue only in a step that finishes some process. */
  lemma OnlyFinishWakes(s: State, e: Event, i: nat, p: Pcb)
    requires Inv(s) && Enabled(s, e) && i < |s.blocked| && p in s.blocked[i]
    ensures Safe(s, e) && |Next(s, e).blocked| == |s.blocked|
    ensures p !in Next(s, e).blocked[i] ==> Ended(s, e).Some?
  {
    hide Finish, Total;
    HandlerInv(s, e);
    if e.ConsoleFinish? { FinishNobody(s, e.pid); }
  }

  lemma FinishNobody(s: State, pid: int)
    requires Sized(s)
    ensures Locate(s, pid) == Nowhere ==> Finish(s, pid) == s
  {}

  // ---------- What a wake scan leaves ----------

  /** Queue by queue, a scan leaves the waiters that WakeScan describes. */
  lemma {:induction false} WakeFromAt(s: State, i: nat, j: nat)
    requires i <= |s.blocked| == |s.available| && j < |s.blocked|
    ensures |WakeFrom(s, i).blocked| == |s.blocked|
    ensures WakeFrom(s, i).blocked[j] ==
      if j >= i && s.available[j] > 0 then Waiting(s.blocked[j], s.available[j]) else s.blocked[j]
    decreases |s.blocked| - i
  {
    if i == |s.blocked| {
    } else {
      WakeFromAt(WakeOne(s, i), i + 1, j);
    }
  }

  /** Waiters of queue i, the process to be finished left out. */
  function OtherWaiters(s: State, pid: int, i: nat): int
    requires i < |s.blocked|
  {
    |s.blocked[i]| - if Locate(s, pid) == InBlocked(i) then 1 else 0
  }

  /** At least two others wait for a resource that is free once the process has given back what it holds. */
  predicate LeavesWaiters(s: State, pid: int)
    requires Sized(s) && Locate(s, pid) != Nowhere
  {
    exists i :: 0 <= i < |s.blocked| &&
      s.available[i] + W(Held(s.cfg.names[i]), Found(s, pid)) > 0 && OtherWaiters(s, pid, i) >= 2
  }

  /** Finishing leaves somebody waiting for a free resource exactly when at least two others wait: one pass of
      the scan takes only the first of two. */
  lemma FinishFreeWait(s: State, pid: int)
    requires Sized(s) && Distinct(s.cfg.names) && Locate(s, pid) != Nowhere
    ensures Sized(Finish(s, pid))
    ensures FreeWait(Finish(s, pid)) <==> LeavesWaiters(s, pid)
  {
    hide WakeFrom, Release, PidIndex, BlockedIndex, Total, Sum, SumAll, Finish;
    var x, t := Extracted(s, pid), Finish(s, pid);
    FinishFields(s, pid);
    forall i | 0 <= i < |s.blocked|
      ensures t.available[i] == s.available[i] + W(Held(s.cfg.names[i]), Found(s, pid))
      ensures t.available[i] > 0 ==> (t.blocked[i] != [] <==> OtherWaiters(s, pid, i) >= 2)
    {
      FinishAvailable(s, pid, i);
      WakeFromAt(x, 0, i);
      assert |x.blocked[i]| == OtherWaiters(s, pid, i);
    }
  }

  // ---------- Every event ----------

  /** A finish that leaves waiters, or a valid SIGNAL of a resource somebody waits for. */
  ghost predicate Strands(s: State, e: Event)
    requires Inv(s) && Enabled(s, e)
  {
    if Ended(s, e).Some? then Locate(s, Ended(s, e).value) != Nowhere && LeavesWaiters(s, Ended(s, e).value)
    else e.CpuSignal? && s.blocked[NameIndex(s.cfg.names, e.r)] != []
  }

  /** The message's record counts for what the entry of the executing process holds. */
  lemma RefreshLeaves(s: State, p: Pcb)
    requires Inv(s) && FromCpu(s, p)
    ensures Locate(s, p.pid) == InExec && Locate(Refresh(s, p), p.pid) == InExec
    ensures LeavesWaiters(Refresh(s, p), p.pid) <==> LeavesWaiters(s, p.pid)
  {
    hide Total, TagsMatch, SemaphoresMatch, Conserved;
    RefreshInv(s, p);
    LocateExec(s);
    LocateExec(Refresh(s, p));
    LoneExec(s);
    var t := Refresh(s, p);
    assert Found(s, p.pid).resources == Found(t, p.pid).resources;
    forall i | 0 <= i < |s.blocked| ensures OtherWaiters(t, p.pid, i) == OtherWaiters(s, p.pid, i) {}
  }

  lemma FinishStrands(s: State, p: Pcb)
    requires Inv(s) && FromCpu(s, p)
    ensures Sized(Finish(Refresh(s, p), p.pid))
    ensures Locate(s, p.pid) != Nowhere && (FreeWait(Finish(Refresh(s, p), p.pid)) <==> LeavesWaiters(s, p.pid))
  {
    hide Finish, FreeWait, LeavesWaiters, Total;
    RefreshLeaves(s, p);
    FinishFreeWait(Refresh(s, p), p.pid);
  }

  lemma WaitStrands(s: State, p: Pcb, r: Name)
    requires Inv(s) && FromCpu(s, p) && !FreeWait(s) && r in s.cfg.names
    ensures Sized(WaitStep(Refresh(s, p), r)) && !FreeWait(WaitStep(Refresh(s, p), r))
  {
    hide Total, TagsMatch, SemaphoresMatch, PidsUnique, Finish;
  }

  lemma SignalStrands(s: State, p: Pcb, r: Name)
    requires Inv(s) && FromCpu(s, p) && !FreeWait(s) && r in s.cfg.names && r in p.resources
    ensures Sized(SignalStep(Refresh(s, p), r))
    ensures FreeWait(SignalStep(Refresh(s, p), r)) <==> s.blocked[NameIndex(s.cfg.names, r)] != []
  {
    hide Total, TagsMatch, SemaphoresMatch, PidsUnique, Finish;
    var i := NameIndex(s.cfg.names, r);
    var t := SignalStep(Refresh(s, p), r);
    assert t.blocked == s.blocked && t.available == s.available[i := s.available[i] + 1];
    assert t.available[i] > 0;
  }

  /** Main result: when nobody waits for a free resource, the next step leaves somebody so exactly when it is a finish
      with two others waiting, or a SIGNAL with one. */
  lemma StrandsExactly(s: State, e: Event)
    requires Inv(s) && Enabled(s, e) && !FreeWait(s)
    ensures Safe(s, e) && Sized(Next(s, e))
    ensures FreeWait(Next(s, e)) <==> Strands(s, e)
  {
    hide Total, TagsMatch, SemaphoresMatch, PidsUnique, Conserved, Finish, WaitStep, SignalStep, LeavesWaiters;
    HandlerInv(s, e);
    match e {
      case CpuFinish(p) => FinishStrands(s, p);
      case CpuWait(p, r) => if r in s.cfg.names { WaitStrands(s, p, r); } else { FinishStrands(s, p); InvalidWait(s, p, r); }
      case CpuSignal(p, r) =>
        if r in s.cfg.names && r in p.resources { SignalStrands(s, p, r); } else { FinishStrands(s, p); InvalidSignal(s, p, r); }
      case ConsoleFinish(pid) =>
        FinishNobody(s, pid);
        if Locate(s, pid) != Nowhere { FinishFreeWait(s, pid); }
      case _ => assert Next(s, e).blocked == s.blocked && Next(s, e).available == s.available;
    }
  }

  lemma InvalidWait(s: State, p: Pcb, r: Name)
    requires Sized(s) && r !in s.cfg.names
    ensures WaitStep(Refresh(s, p), r) == Finish(Refresh(s, p), p.pid)
  {}

  lemma InvalidSignal(s: State, p: Pcb, r: Name)
    requires Sized(s) && !(r in s.cfg.names && r in p.resources)
    ensures SignalStep(Refresh(s, p), r) == Finish(Refresh(s, p), p.pid)
  {}

  // ---------- It happens ----------

  /** A process holding the only instance of resource 0 executes, and two others wait for it. */
  predicate Contended(s: State, a: Pcb) {
    && Sized(s) && s.cfg.names != [] && s.execQ == [a] && a.resources == [s.cfg.names[0]]
    && s.available[0] == 0 && |s.blocked[0]| == 2
    && forall i :: 0 < i < |s.blocked| ==> s.blocked[i] == []
  }

  function Newcomer(pid: int): Pcb { Pcb(pid, 0, 0, 0, [0, 0, 0, 0], [], 0, [], New, 0) }

  /** Three processes are admitted. */
  lemma Admitted(cfg: Config, firstId: int) returns (s: State)
    requires GoodConfig(cfg) && cfg.degree >= 3
    ensures Reaches(Init(cfg, firstId), s)
    ensures s == Init(cfg, firstId).(
      readyQ := [Tagged(Newcomer(firstId), Ready), Tagged(Newcomer(firstId + 1), Ready), Tagged(Newcomer(firstId + 2), Ready)],
      semReady := 3, semDegree := cfg.degree - 3, nextId := firstId + 3)
  {
    var s0 := Init(cfg, firstId);
    assert Runs(s0, [], s0);
    hide Runs, Reaches, Finish, WaitStep, SignalStep;
    s := s0;
    OneMore(s0, s, Create([], 0, 0)); s := Next(s, Create([], 0, 0));
    OneMore(s0, s, Create([], 0, 0)); s := Next(s, Create([], 0, 0));
    OneMore(s0, s, Create([], 0, 0)); s := Next(s, Create([], 0, 0));
    OneMore(s0, s, LongTerm); s := Next(s, LongTerm);
    OneMore(s0, s, LongTerm); s := Next(s, LongTerm);
    OneMore(s0, s, LongTerm); s := Next(s, LongTerm);
  }

  /** Dispatched, the head of ready waits for resource 0 and is granted it; then it is preempted. */
  lemma HolderTurn(s0: State, s: State) returns (t: State)
    requires Reaches(s0, s) && Sized(s) && s.cfg.names != [] && Distinct(s.cfg.names)
    requires s.execQ == [] && s.readyQ != [] && s.semReady > 0 && s.semCpu == 1 && s.available[0] == 1
    ensures Reaches(s0, t)
    ensures t == s.(readyQ := s.readyQ[1..] + [Tagged(Granted(s.readyQ[0], s.cfg.names[0]), Ready)],
                    available := s.available[0 := 0])
  {
    hide Runs, Reaches, Finish, BlockStep, SignalStep;
    var r := s.cfg.names[0];
    NameIndexOf(s.cfg.names, 0);
    OneMore(s0, s, ShortTerm); t := Next(s, ShortTerm);
    OneMore(s0, t, CpuWait(t.execQ[0], r)); t := Next(t, CpuWait(t.execQ[0], r));
    OneMore(s0, t, CpuInterrupt(t.execQ[0])); t := Next(t, CpuInterrupt(t.execQ[0]));
  }

  /** Dispatched, the head of ready waits for resource 0 and is refused. */
  lemma WaiterTurn(s0: State, s: State) returns (t: State)
    requires Reaches(s0, s) && Sized(s) && s.cfg.names != [] && Distinct(s.cfg.names)
    requires s.execQ == [] && s.readyQ != [] && s.semReady > 0 && s.semCpu == 1 && s.available[0] == 0
    ensures Reaches(s0, t)
    ensures t == s.(readyQ := s.readyQ[1..], blocked := s.blocked[0 := s.blocked[0] + [Tagged(s.readyQ[0], Blocked)]],
                    semReady := s.semReady - 1, semBlocked := s.semBlocked + 1)
  {
    hide Runs, Reaches, Finish, SignalStep;
    var r := s.cfg.names[0];
    NameIndexOf(s.cfg.names, 0);
    OneMore(s0, s, ShortTerm); t := Next(s, ShortTerm);
    OneMore(s0, t, CpuWait(t.execQ[0], r)); t := Next(t, CpuWait(t.execQ[0], r));
  }

  lemma Contention(cfg: Config, firstId: int) returns (s: State, a: Pcb)
    requires GoodConfig(cfg) && cfg.degree >= 3 && cfg.names != [] && cfg.instances[0] == 1
    ensures Reaches(Init(cfg, firstId), s) && Contended(s, a)
  {
    hide Runs, Reaches, Finish, WaitStep, SignalStep;
    var s0 := Init(cfg, firstId);
    s := Admitted(cfg, firstId);
    s := HolderTurn(s0, s);
    s := WaiterTurn(s0, s);
    s := WaiterTurn(s0, s);
    OneMore(s0, s, ShortTerm); s := Next(s, ShortTerm);
    a := s.execQ[0];
  }

  /** In a contended state nobody waits for a free resource; a SIGNAL leaves somebody waiting so, and so does an EXIT. */
  lemma ContendedStrands(s: State, a: Pcb)
    requires Inv(s) && Contended(s, a)
    ensures !FreeWait(s)
    ensures Enabled(s, CpuSignal(a, s.cfg.names[0])) && Strands(s, CpuSignal(a, s.cfg.names[0]))
    ensures Enabled(s, CpuFinish(a)) && Strands(s, CpuFinish(a))
  {
    hide Total, TagsMatch, SemaphoresMatch, Finish, Conserved;
    NameIndexOf(s.cfg.names, 0);
    LocateExec(s);
    assert s.execQ[0] == a && W(Held(s.cfg.names[0]), a) == 1;
    assert OtherWaiters(s, a.pid, 0) == 2;
  }

  /** In every configuration with three places and a resource of one instance, the system reaches a state in which
      nobody waits for a free resource, and both a SIGNAL and an EXIT change that. */
  lemma StrandingHappens(cfg: Config, firstId: int) returns (s: State, signal: Event, exit: Event)
    requires GoodConfig(cfg) && cfg.degree >= 3 && cfg.names != [] && cfg.instances[0] == 1
    ensures Reaches(Init(cfg, firstId), s) && Inv(s) && !FreeWait(s)
    ensures signal.CpuSignal? && Enabled(s, signal) && Safe(s, signal) && Sized(Next(s, signal)) && FreeWait(Next(s, signal))
    ensures exit.CpuFinish? && Enabled(s, exit) && Safe(s, exit) && Sized(Next(s, exit)) && FreeWait(Next(s, exit))
  {
    hide Strands, FreeWait, Total, TagsMatch, SemaphoresMatch, PidsUnique, Conserved, Runs, OnePlace, LiveAtEnd, Next;
    var a;
    s, a := Contention(cfg, firstId);
    var es :| Runs(Init(cfg, firstId), es, s);
    InitInv(cfg, firstId);
    ReachableInv(Init(cfg, firstId), es, s, {});
    ContendedStrands(s, a);
    signal, exit := CpuSignal(a, s.cfg.names[0]), CpuFinish(a);
    StrandsExactly(s, signal);
    StrandsExactly(s, exit);
  }
}
