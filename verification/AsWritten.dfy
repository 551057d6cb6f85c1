/** The dispatch handlers to the letter, without the refresh that module KernelSpec models.

    As written, a granted WAIT or a SIGNAL changes the PCB decoded from the message
    (kernel/src/deadlocks.c:166-167, 187-189) and sends that one back to the CPU, while the entry in
    queue_exec stays as it was dispatched. INTERRUPT and SLEEP re-queue the message's PCB
    (kernel/src/handle_connection.c:130-146, 213-233), so they lose nothing; a refused WAIT and
    finish_process act on the entry (kernel/src/queues.c:106, 297). */
module AsWritten {
  import opened Collections
  import opened Process
  import opened Accounting
  import opened KernelSpec
  import opened KernelInvariant
  import opened Deadlock

  /** The kernel's queues and the record the CPU has of the executing process. */
  datatype Machine = Machine(kernel: State, cpu: Option<Pcb>)

  /** What the queues would be if the entry in exec were the CPU's record. */
  function Truth(m: Machine): State {
    if m.cpu.Some? then Refresh(m.kernel, m.cpu.value) else m.kernel
  }

  predicate Paired(m: Machine) {
    match m.cpu
    case None => m.kernel.execQ == []
    case Some(p) => |m.kernel.execQ| == 1 && m.kernel.execQ[0].pid == p.pid && m.kernel.execQ[0].state == p.state
  }

  ghost predicate Sound(m: Machine) { Paired(m) && Inv(Truth(m)) }

  /** As in module Interleaving, finishes of the executing process come from the CPU. */
  predicate Can(m: Machine, e: Event) {
    Enabled(Truth(m), e) && (e.ConsoleFinish? ==> !HasPid(m.kernel.execQ, e.pid))
  }

  // ---------- The handlers ----------

  function Step(m: Machine, e: Event): Machine
    requires Paired(m) && Can(m, e) && Safe(m.kernel, e)
  {
    var k := m.kernel;
    match e
    case ShortTerm => var t := ShortTermStep(k); Machine(t, Some(t.execQ[|k.execQ|]))
    case CpuFinish(p) => Machine(Finish(k, p.pid), None)
    case CpuInterrupt(p) => Machine(InterruptStep(Refresh(k, p)), None)
    case CpuSleep(p) => Machine(SleepStep(Refresh(k, p)), None)
    case CpuWait(p, r) =>
      var i := NameIndex(k.cfg.names, r);
      if i == |k.cfg.names| then Machine(Finish(k, p.pid), None)
      else if k.available[i] > 0 then
        Machine(k.(available := Adjust(k.cfg.names, k.available, r, -1)), Some(Granted(p, r)))
      else Machine(BlockStep(k, i), None)
    case CpuSignal(p, r) =>
      if r !in k.cfg.names || r !in p.resources then Machine(Finish(k, p.pid), None)
      else Machine(k.(available := Adjust(k.cfg.names, k.available, r, 1)), Some(Returned(p, r)))
    case _ => m.(kernel := Next(k, e))
  }

  // ---------- When they do what they are meant to ----------

  /** The event finishes or blocks the executing process, and so acts on the entry in exec. */
  predicate FinishesEntry(m: Machine, e: Event) { !e.ConsoleFinish? && Ended(Truth(m), e).Some? }

  predicate BlocksEntry(m: Machine, e: Event) { Sized(Truth(m)) && Blocks(Truth(m), e) }

  /** The dispatched entry holds as many instances of every resource as the record the CPU sent. */
  predicate SameHoldings(k: State, p: Pcb)
    requires k.execQ != []
  {
    forall i :: 0 <= i < |k.cfg.names| ==>
      multiset(p.resources)[k.cfg.names[i]] == multiset(k.execQ[0].resources)[k.cfg.names[i]]
  }

  /** Since the dispatch, nothing the event would undo has changed: for a finish the instances held, for a refused
      WAIT anything at all, the program counter and the registers included. */
  predicate Harmless(m: Machine, e: Event)
    requires Paired(m) && Can(m, e)
  {
    && (FinishesEntry(m, e) ==> SameHoldings(m.kernel, e.p))
    && (BlocksEntry(m, e) ==> m.kernel.execQ[0] == e.p)
  }

  /** Taking the entry or the CPU's record out of exec gives the same state exactly when they hold the same. */
  lemma FinishEntry(m: Machine, p: Pcb)
    requires Paired(m) && m.cpu.Some? && Inv(Truth(m)) && FromCpu(Truth(m), p)
    ensures var k := m.kernel; var t := Finish(k, p.pid);
      && Locate(k, p.pid) == InExec && Found(k, p.pid) == k.execQ[0]
      && t.execQ == [] && Sized(t) && t.cfg == k.cfg
      && (t == Finish(Refresh(k, p), p.pid) <==> SameHoldings(k, p))
  {
    hide SumAll, Sum, Total, Release, WakeFrom, SemaphoresMatch, Conserved;
    var k, q := m.kernel, Refresh(m.kernel, p);
    RefreshInv(Truth(m), p);
    assert Refresh(Truth(m), p) == q;
    LocateExec(q);
    assert PidIndex(k.execQ, p.pid) == 0 && PidIndex(q.execQ, p.pid) == 0;
    assert Locate(k, p.pid) == InExec;
    FinishFields(k, p.pid);
    var names := k.cfg.names;
    forall i | 0 <= i < |names|
      ensures Release(names, k.available, k.execQ[0].resources)[i] == k.available[i] + multiset(k.execQ[0].resources)[names[i]]
      ensures Release(names, k.available, p.resources)[i] == k.available[i] + multiset(p.resources)[names[i]]
    {
      ReleaseCounts(names, k.available, k.execQ[0].resources, i);
      ReleaseCounts(names, k.available, p.resources, i);
    }
    FinishFields(q, p.pid);
    if SameHoldings(k, p) {
      assert Extracted(k, p.pid).available == Extracted(q, p.pid).available;
      assert Extracted(k, p.pid) == Extracted(q, p.pid);
    }
  }

  /** Blocking moves the entry, so it is the intended step exactly when the entry is the record that was sent. */
  lemma BlockEntry(m: Machine, p: Pcb, i: nat)
    requires Paired(m) && m.cpu.Some? && Inv(Truth(m)) && FromCpu(Truth(m), p) && i < |m.kernel.blocked|
    ensures BlockStep(m.kernel, i) == BlockStep(Refresh(m.kernel, p), i) <==> m.kernel.execQ[0] == p
  {
    hide Total, Conserved, SemaphoresMatch, PidsUnique;
    var k, n := m.kernel, |m.kernel.blocked[i]|;
    var s, t := BlockStep(k, i), BlockStep(Refresh(k, p), i);
    assert s.blocked[i][n] == Tagged(k.execQ[0], Blocked) && t.blocked[i][n] == Tagged(p, Blocked);
    assert k.execQ[0].state == p.state;
  }

  /** A console finish of another process does not look at the entry. */
  lemma FinishOther(k: State, p: Pcb, pid: int)
    requires Sized(k) && |k.execQ| == 1 && k.execQ[0].pid == p.pid != pid
    ensures var t := Finish(k, pid); t.execQ == k.execQ && Sized(t) && Finish(Refresh(k, p), pid) == Refresh(t, p)
  {
    hide SumAll, Sum, Release, WakeFrom, PidIndex, BlockedIndex;
    var q := Refresh(k, p);
    assert PidIndex(q.execQ, pid) != 0 && PidIndex(k.execQ, pid) != 0;
    assert Locate(q, pid) == Locate(k, pid) != InExec;
    if Locate(k, pid) != Nowhere {
      FinishFields(k, pid);
      assert Extracted(q, pid) == Refresh(Extracted(k, pid), p);
      WakeOther(Extracted(k, pid), p, 0);
    }
  }

  /** A wake scan leaves exec alone. */
  lemma {:induction false} WakeOther(k: State, p: Pcb, i: nat)
    requires i <= |k.blocked| == |k.available|
    ensures WakeFrom(Refresh(k, p), i) == Refresh(WakeFrom(k, i), p)
    decreases |k.blocked| - i
  {
    if i == |k.blocked| {
    } else {
      assert WakeOne(Refresh(k, p), i) == Refresh(WakeOne(k, i), p);
      WakeOther(WakeOne(k, i), p, i + 1);
    }
  }

  lemma ConsoleMeaning(m: Machine, pid: int)
    requires Sound(m) && Can(m, ConsoleFinish(pid))
    ensures Paired(Step(m, ConsoleFinish(pid)))
    ensures Truth(Step(m, ConsoleFinish(pid))) == Finish(Truth(m), pid)
  {
    hide Finish, Total, Conserved, SemaphoresMatch, PidsUnique, TagsMatch;
    if m.cpu.Some? {
      assert HasPid(m.kernel.execQ, m.kernel.execQ[0].pid);
      FinishOther(m.kernel, m.cpu.value, pid);
    } else {
      FinishNoExec(m.kernel, pid);
    }
  }

  lemma FinishNoExec(k: State, pid: int)
    requires Sized(k) && k.execQ == []
    ensures Finish(k, pid).execQ == []
  {
    hide SumAll, Sum, Release, WakeFrom;
    if Locate(k, pid) != Nowhere { FinishFields(k, pid); }
  }

  lemma WaitMeaning(m: Machine, p: Pcb, r: Name)
    requires Sound(m) && Can(m, CpuWait(p, r)) && Safe(m.kernel, CpuWait(p, r))
    ensures Paired(Step(m, CpuWait(p, r)))
    ensures Truth(Step(m, CpuWait(p, r))) == WaitStep(Refresh(m.kernel, p), r) <==> Harmless(m, CpuWait(p, r))
  {
    hide Finish, Total, Conserved, SemaphoresMatch, PidsUnique, TagsMatch, BlockStep;
    var i := NameIndex(m.kernel.cfg.names, r);
    if i == |m.kernel.cfg.names| {
      FinishEntry(m, p);
    } else if m.kernel.available[i] > 0 {
      assert [p][0 := Granted(p, r)] == [Granted(p, r)];
    } else {
      BlockEntry(m, p, i);
      BlockFreesExec(m.kernel, i);
      BlockFreesExec(Refresh(m.kernel, p), i);
    }
  }

  lemma BlockFreesExec(k: State, i: nat)
    requires |k.execQ| == 1 && i < |k.blocked|
    ensures BlockStep(k, i).execQ == []
  {}

  lemma SignalMeaning(m: Machine, p: Pcb, r: Name)
    requires Sound(m) && Can(m, CpuSignal(p, r)) && Safe(m.kernel, CpuSignal(p, r))
    ensures Paired(Step(m, CpuSignal(p, r)))
    ensures Truth(Step(m, CpuSignal(p, r))) == SignalStep(Refresh(m.kernel, p), r) <==> Harmless(m, CpuSignal(p, r))
  {
    hide Finish, Total, Conserved, SemaphoresMatch, PidsUnique, TagsMatch;
    FinishEntry(m, p);
    assert [p][0 := Returned(p, r)] == [Returned(p, r)];
  }

  /** Main result: a handler as written does what it is meant to do if and only if nothing it would undo has changed
      since the dispatch. An interrupt and a sleep always do. */
  lemma StepMeaning(m: Machine, e: Event)
    requires Sound(m) && Can(m, e)
    ensures Safe(m.kernel, e) && Safe(Truth(m), e)
    ensures Paired(Step(m, e))
    ensures Truth(Step(m, e)) == Next(Truth(m), e) <==> Harmless(m, e)
  {
    hide Finish, Total, Conserved, SemaphoresMatch, PidsUnique, TagsMatch, WaitStep, SignalStep, OnePlace, LiveAfter;
    HandlerInv(Truth(m), e);
    match e {
      case CpuFinish(p) => FinishEntry(m, p);
      case CpuWait(p, r) => WaitMeaning(m, p, r);
      case CpuSignal(p, r) => SignalMeaning(m, p, r);
      case ConsoleFinish(pid) => ConsoleMeaning(m, pid);
      case ShortTerm => LoneExec(Next(Truth(m), e));
      case _ =>
    }
  }

  // ---------- What happens to the instances ----------

  /** Instances of resource i the event brings into being (or loses, when negative): what the dispatched entry holds
      less what the record that was sent holds, when the entry is what the event acts on. */
  function Drift(m: Machine, e: Event, i: nat): int
    requires Paired(m) && Can(m, e) && i < |m.kernel.cfg.names|
  {
    if FinishesEntry(m, e) || BlocksEntry(m, e) then
      W(Held(m.kernel.cfg.names[i]), m.kernel.execQ[0]) - W(Held(m.kernel.cfg.names[i]), e.p)
    else 0
  }

  lemma FinishDrift(m: Machine, p: Pcb, i: nat)
    requires Sound(m) && m.cpu.Some? && FromCpu(Truth(m), p) && i < |m.kernel.cfg.names|
    ensures var k := m.kernel; var t := Finish(k, p.pid); var w := Held(k.cfg.names[i]);
      && |t.available| == |k.available| && t.available[i] >= 0
      && t.available[i] + Total(w, t) == k.cfg.instances[i] + W(w, k.execQ[0]) - W(w, p)
  {
    hide Total, Finish, SemaphoresMatch, PidsUnique, TagsMatch;
    var k, w := m.kernel, Held(m.kernel.cfg.names[i]);
    FinishEntry(m, p);
    FinishTotal(w, k, p.pid);
    FinishAvailable(k, p.pid, i);
    ExecSwapTotal(w, k, m.cpu.value);
    assert W(w, m.cpu.value) == W(w, p);
  }

  lemma BlockDrift(m: Machine, p: Pcb, j: nat, i: nat)
    requires Sound(m) && m.cpu.Some? && FromCpu(Truth(m), p) && i < |m.kernel.cfg.names| && j < |m.kernel.blocked|
    ensures var k := m.kernel; var t := BlockStep(k, j); var w := Held(k.cfg.names[i]);
      t.available[i] + Total(w, t) == k.cfg.instances[i] + W(w, k.execQ[0]) - W(w, p)
  {
    hide Total, SemaphoresMatch, PidsUnique, TagsMatch;
    var k, w := m.kernel, Held(m.kernel.cfg.names[i]);
    BlockTotal(w, k, j);
    ExecSwapTotal(w, k, m.cpu.value);
    assert W(w, m.cpu.value) == W(w, p);
  }

  lemma StepShape(m: Machine, e: Event)
    requires Sound(m) && Can(m, e) && Safe(m.kernel, e)
    ensures Sized(Truth(Step(m, e))) && Truth(Step(m, e)).cfg == m.kernel.cfg
  {
    hide Total, Finish, SemaphoresMatch, PidsUnique, TagsMatch, Release, Conserved, OnePlace, LiveAfter;
    StepMeaning(m, e);
    HandlerInv(Truth(m), e);
    if FinishesEntry(m, e) { FinishEntry(m, e.p); }
  }

  /** Main result: the exact account of every resource after a handler as written. */
  lemma StepDrift(m: Machine, e: Event, i: nat)
    requires Sound(m) && Can(m, e) && Safe(m.kernel, e) && i < |m.kernel.cfg.names|
    ensures var t := Truth(Step(m, e));
      && Sized(t) && t.cfg == m.kernel.cfg && t.available[i] >= 0
      && t.available[i] + Total(Held(t.cfg.names[i]), t) == t.cfg.instances[i] + Drift(m, e, i)
  {
    hide Total, Finish, SemaphoresMatch, PidsUnique, TagsMatch, Release, OnePlace, LiveAfter;
    StepMeaning(m, e);
    HandlerInv(Truth(m), e);
    if FinishesEntry(m, e) {
      FinishEntry(m, e.p);
      FinishDrift(m, e.p, i);
    } else if BlocksEntry(m, e) {
      var j := NameIndex(m.kernel.cfg.names, e.r);
      BlockDrift(m, e.p, j, i);
      BlockFreesExec(m.kernel, j);
    } else {
      assert Harmless(m, e);
    }
  }

  /** So a step conserves instances if and only if the entry it acts on holds what the record that was sent holds. */
  lemma ConservesExactly(m: Machine, e: Event)
    requires Sound(m) && Can(m, e) && Safe(m.kernel, e)
    ensures Sized(Truth(Step(m, e)))
    ensures Conserved(Truth(Step(m, e))) <==>
      (FinishesEntry(m, e) || BlocksEntry(m, e) ==> SameHoldings(m.kernel, e.p))
  {
    hide Total, Step, Truth, Inv, Can, FinishesEntry, BlocksEntry;
    var t := Truth(Step(m, e));
    StepShape(m, e);
    forall i | 0 <= i < |t.cfg.names|
      ensures t.available[i] >= 0
      ensures t.available[i] + Total(Held(t.cfg.names[i]), t) == t.cfg.instances[i] + Drift(m, e, i)
    {
      StepDrift(m, e, i);
    }
  }

  // ---------- Whole runs ----------

  /** As for the intended handlers, an unsafe step may end anywhere. */
  ghost predicate Runs(m: Machine, es: seq<Event>, n: Machine)
    decreases |es|
  {
    if es == [] then n == m
    else Paired(m) && Can(m, es[0]) && (Safe(m.kernel, es[0]) ==> Runs(Step(m, es[0]), es[1..], n))
  }

  ghost predicate AllHarmless(m: Machine, es: seq<Event>)
    decreases |es|
  {
    es != [] && Paired(m) && Can(m, es[0]) && Safe(m.kernel, es[0]) ==>
      Harmless(m, es[0]) && AllHarmless(Step(m, es[0]), es[1..])
  }

  /** A run as written in which every step is harmless is a run of the intended handlers, so everything proved about
      those holds of it. */
  lemma {:induction false} RunMeaning(m: Machine, es: seq<Event>, n: Machine)
    requires Sound(m) && Runs(m, es, n) && AllHarmless(m, es)
    ensures Sound(n) && KernelInvariant.Runs(Truth(m), es, Truth(n))
    decreases |es|
  {
    hide Inv, Truth, Harmless, Step;
    if es == [] {
    } else {
      StepMeaning(m, es[0]);
      StepInv(Truth(m), es[0]);
      RunMeaning(Step(m, es[0]), es[1..], n);
    }
  }

  // ---------- Runs that lose and gain an instance ----------

  ghost predicate Reaches(m: Machine, n: Machine) { exists es :: Runs(m, es, n) }

  lemma {:induction false} RunsOn(m: Machine, es: seq<Event>, n: Machine, e: Event)
    requires Runs(m, es, n) && Paired(n) && Can(n, e) && Safe(n.kernel, e)
    ensures Runs(m, es + [e], Step(n, e))
    decreases |es|
  {
    hide Step, Can, Safe, Paired;
    if es == [] {
      assert ([] + [e])[1..] == [];
    } else {
      assert (es + [e])[1..] == es[1..] + [e];
      if Safe(m.kernel, es[0]) { RunsOn(Step(m, es[0]), es[1..], n, e); }
    }
  }

  lemma OneMore(m: Machine, n: Machine, e: Event)
    requires Reaches(m, n) && Paired(n) && Can(n, e) && Safe(n.kernel, e)
    ensures Reaches(m, Step(n, e))
  {
    var es :| Runs(m, es, n);
    RunsOn(m, es, n, e);
  }

  function Start(cfg: Config, firstId: int): Machine { Machine(Init(cfg, firstId), None) }

  /** The only process of the system, at its first instruction, is executing. */
  predicate Alone(m: Machine, cfg: Config, p: Pcb) {
    && m.cpu == Some(p) && m.kernel.execQ == [p] && m.kernel.cfg == cfg && m.kernel.available == cfg.instances
    && p.resources == [] && p.state == Execution
    && m.kernel.newQ == [] && m.kernel.readyQ == [] && m.kernel.sleeping == []
    && m.kernel.blocked == seq(|cfg.names|, i => [])
    && m.kernel.semReady == 0 && m.kernel.semCpu == 0
  }

  lemma FirstDispatch(cfg: Config, firstId: int) returns (m: Machine, p: Pcb)
    requires GoodConfig(cfg) && cfg.degree > 0
    ensures Reaches(Start(cfg, firstId), m) && Alone(m, cfg, p)
  {
    var m0 := Start(cfg, firstId);
    assert Runs(m0, [], m0);
    var m1 := Step(m0, Create([], 0, 0));
    OneMore(m0, m0, Create([], 0, 0));
    var m2 := Step(m1, LongTerm);
    OneMore(m0, m1, LongTerm);
    m := Step(m2, ShortTerm);
    OneMore(m0, m2, ShortTerm);
    p := m.kernel.execQ[0];
  }

  /** The last process of the system finishes: nobody is left, and what its entry held is given back. */
  lemma LastFinish(k: State, p: Pcb)
    requires Sized(k) && Distinct(k.cfg.names) && |k.execQ| == 1 && k.execQ[0].pid == p.pid
    requires k.newQ == [] && k.readyQ == [] && k.sleeping == [] && k.blocked == seq(|k.cfg.names|, i => [])
    ensures var t := Finish(k, p.pid);
      && Total(One, t) == 0 && |t.available| == |k.available|
      && forall i :: 0 <= i < |k.cfg.names| ==> t.available[i] == k.available[i] + W(Held(k.cfg.names[i]), k.execQ[0])
  {
    hide WakeFrom, Release, Settle;
    assert HasPid(k.execQ, p.pid) && PidIndex(k.execQ, p.pid) == 0;
    FinishTotal(One, k, p.pid);
    SumAllEmpty(One, |k.cfg.names|);
    SumOne(k.execQ);
    FinishFields(k, p.pid);
    forall i | 0 <= i < |k.cfg.names|
      ensures |Finish(k, p.pid).available| == |k.available|
      ensures Finish(k, p.pid).available[i] == k.available[i] + W(Held(k.cfg.names[i]), k.execQ[0])
    {
      FinishAvailable(k, p.pid, i);
    }
  }

  /** The system is empty, and resource 0 has `extra` more instances than configured. */
  predicate EmptyWith(m: Machine, cfg: Config, extra: int) {
    && Total(One, m.kernel) == 0
    && |m.kernel.available| == |cfg.instances| > 0 && m.kernel.available[0] == cfg.instances[0] + extra
  }

  /** WAIT and EXIT, in every configuration: nobody is left, and an instance is gone. */
  lemma InstanceLost(cfg: Config, firstId: int)
    requires GoodConfig(cfg) && cfg.degree > 0 && cfg.names != []
    ensures exists m :: Reaches(Start(cfg, firstId), m) && EmptyWith(m, cfg, -1)
  {
    hide Finish, Total, Runs, Reaches;
    var s, r := Start(cfg, firstId), cfg.names[0];
    var m, p := FirstDispatch(cfg, firstId);
    NameIndexOf(cfg.names, 0);
    var m1 := Step(m, CpuWait(p, r));
    OneMore(s, m, CpuWait(p, r));
    var p1 := m1.cpu.value;
    var m2 := Step(m1, CpuFinish(p1));
    OneMore(s, m1, CpuFinish(p1));
    LastFinish(m1.kernel, p1);
    assert EmptyWith(m2, cfg, -1);
  }

  /** WAIT and a preemption: dispatched again, the process is alone and its entry holds the instance. */
  lemma Holding(cfg: Config, firstId: int) returns (m: Machine, p: Pcb)
    requires GoodConfig(cfg) && cfg.degree > 0 && cfg.names != []
    ensures Reaches(Start(cfg, firstId), m) && m.cpu == Some(p) && m.kernel.execQ == [p] && p.resources == [cfg.names[0]]
    ensures Sized(m.kernel) && m.kernel.cfg == cfg && m.kernel.available == cfg.instances[0 := cfg.instances[0] - 1]
    ensures m.kernel.newQ == [] && m.kernel.readyQ == [] && m.kernel.sleeping == []
    ensures m.kernel.blocked == seq(|cfg.names|, i => [])
  {
    hide Finish, Total, Runs, Reaches;
    var s, r := Start(cfg, firstId), cfg.names[0];
    var m0, p0 := FirstDispatch(cfg, firstId);
    NameIndexOf(cfg.names, 0);
    var m1 := Step(m0, CpuWait(p0, r));
    OneMore(s, m0, CpuWait(p0, r));
    var p1 := m1.cpu.value;
    var m2 := Step(m1, CpuInterrupt(p1));
    OneMore(s, m1, CpuInterrupt(p1));
    m := Step(m2, ShortTerm);
    OneMore(s, m2, ShortTerm);
    p := m.cpu.value;
  }

  /** WAIT, a preemption, SIGNAL and EXIT: nobody is left, and there is an instance too many. */
  lemma InstanceGained(cfg: Config, firstId: int)
    requires GoodConfig(cfg) && cfg.degree > 0 && cfg.names != []
    ensures exists m :: Reaches(Start(cfg, firstId), m) && EmptyWith(m, cfg, 1)
  {
    hide Finish, Total, Runs, Reaches;
    var s, r := Start(cfg, firstId), cfg.names[0];
    var m, p := Holding(cfg, firstId);
    NameIndexOf(cfg.names, 0);
    var m1 := Step(m, CpuSignal(p, r));
    OneMore(s, m, CpuSignal(p, r));
    var p1 := m1.cpu.value;
    var m2 := Step(m1, CpuFinish(p1));
    OneMore(s, m1, CpuFinish(p1));
    LastFinish(m1.kernel, p1);
    assert EmptyWith(m2, cfg, 1);
  }
}
