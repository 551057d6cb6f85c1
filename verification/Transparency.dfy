/** The kernel and the CPU composed: whatever the schedule, a process computes what its program says.

    Preemptions, sleeps, grants, refusals and finishes of other processes may fall anywhere. For
    every process the record that counts (the CPU's copy while it runs, the queue entry otherwise)
    is what an uninterrupted run of its program reaches in as many steps as the process has made
    effective ones. */
module Transparency {
  import opened Collections
  import opened Process
  import opened Accounting
  import opened WakeScan
  import opened KernelSpec
  import opened KernelInvariant
  import opened Deadlock
  import opened Births
  import C = Cpu

  // ---------- The uninterrupted run ----------

  datatype Point = Point(pc: int, regs: seq<Word>)

  /** One instruction of a program that has the machine, and every resource, to itself. */
  function RefStep(code: C.Code, path: Name, at: Point): (next: Point)
    requires |at.regs| >= 4
    ensures |next.regs| >= 4
  {
    var i := code(path, at.pc);
    if i.Exit? then at else Point(at.pc + 1, C.Effect(i, at.regs))
  }

  function RefRun(code: C.Code, path: Name, k: nat): (at: Point)
    ensures |at.regs| >= 4
  {
    if k == 0 then Point(0, [0, 0, 0, 0]) else RefStep(code, path, RefRun(code, path, k - 1))
  }

  // ---------- The composed system ----------

  /** `made` counts, per pid, the effective instructions: local ones executed, requests granted, sleeps over. */
  datatype Sys = Sys(kernel: State, cpu: C.Unit, flag: bool, made: map<int, nat>)

  datatype Action =
    | Arrive(path: Name, quantum: int, socket: int)
    | Admit
    | Dispatch
    | Raise
    | Turn
    | WakeUp(i: nat)
    | Kill(pid: int)

  /** The kernel event an action is, when it is one. */
  function KernelEvent(a: Action): Event
    requires a.Arrive? || a.Admit? || a.Dispatch? || a.WakeUp? || a.Kill?
  {
    match a
    case Arrive(path, quantum, socket) => Create(path, quantum, socket)
    case Admit => LongTerm
    case Dispatch => ShortTerm
    case WakeUp(i) => SleepOver(i)
    case Kill(pid) => ConsoleFinish(pid)
  }

  /** A console finish is left to processes that are not executing: the handshake with the CPU it would
      need is only sketched (kernel/src/queues.c:123-130). */
  predicate Possible(y: Sys, a: Action) {
    match a
    case Raise => true
    case Turn => y.cpu.Busy? && |y.cpu.p.registers| >= 4
    case Kill(pid) => !HasPid(y.kernel.execQ, pid)
    case _ => Enabled(y.kernel, KernelEvent(a))
  }

  function Bump(made: map<int, nat>, pid: int): map<int, nat> {
    made[pid := 1 + if pid in made then made[pid] else 0]
  }

  function Fetch(y: Sys, code: C.Code): C.Instr
    requires y.cpu.Busy?
  {
    code(y.cpu.p.path, y.cpu.p.programCounter)
  }

  function TurnOutcome(y: Sys, code: C.Code): C.Outcome
    requires Possible(y, Turn)
  {
    C.TurnOf(y.cpu.p, Fetch(y, code), y.flag)
  }

  /** The kernel handles the turn's message. WAIT_RESPONSE and SIGNAL_RESPONSE carry the entry that is still
      executing, and then the request was effective; so was a local instruction that ended in an interrupt. */
  function Deliver(y: Sys, i: C.Instr, e: Event, flag: bool): Sys
    requires y.cpu.Busy? && Enabled(y.kernel, e) && Safe(y.kernel, e)
  {
    var k := Next(y.kernel, e);
    Sys(k,
        if k.execQ != [] then C.Busy(k.execQ[0]) else C.Idle,
        flag,
        if C.IsLocal(i) || k.execQ != [] then Bump(y.made, y.cpu.p.pid) else y.made)
  }

  /** What must hold for a step to be defined at all; proved to be the case in every reachable state. */
  predicate Defined(y: Sys, a: Action, code: C.Code)
    requires Possible(y, a)
  {
    && Sized(y.kernel)
    && match a
       case Raise => true
       case Turn =>
         var m := TurnOutcome(y, code).message;
         m.Some? ==> Enabled(y.kernel, m.value) && Safe(y.kernel, m.value)
       case _ => Safe(y.kernel, KernelEvent(a))
  }

  function AfterTurn(y: Sys, code: C.Code): Sys
    requires Possible(y, Turn) && Defined(y, Turn, code)
  {
    var o := TurnOutcome(y, code);
    if o.message.Some? then Deliver(y, Fetch(y, code), o.message.value, o.flag)
    else Sys(y.kernel, o.unit, o.flag, Bump(y.made, y.cpu.p.pid))
  }

  function After(y: Sys, a: Action, code: C.Code): Sys
    requires Possible(y, a) && Defined(y, a, code)
  {
    match a
    case Raise => y.(flag := true)
    case Turn => AfterTurn(y, code)
    case Arrive(_, _, _) => y.(kernel := Next(y.kernel, KernelEvent(a)), made := y.made[y.kernel.nextId := 0])
    case Dispatch =>
      var k := Next(y.kernel, ShortTerm);
      y.(kernel := k, cpu := if k.execQ != [] then C.Busy(k.execQ[0]) else C.Idle)
    case WakeUp(i) => y.(kernel := Next(y.kernel, SleepOver(i)), made := Bump(y.made, y.kernel.sleeping[i].pid))
    case _ => y.(kernel := Next(y.kernel, KernelEvent(a)))
  }

  // ---------- The invariant ----------

  /** The record is where the uninterrupted run is after the process's effective instructions. */
  predicate OnTrack(code: C.Code, made: map<int, nat>, p: Pcb) {
    && p.pid in made
    && Point(p.programCounter, p.registers) == RefRun(code, p.path, made[p.pid])
  }

  predicate AllOnTrack(code: C.Code, made: map<int, nat>, q: seq<Pcb>) {
    forall p :: p in q ==> OnTrack(code, made, p)
  }

  predicate QueuesOnTrack(code: C.Code, made: map<int, nat>, k: State) {
    && AllOnTrack(code, made, k.newQ)
    && AllOnTrack(code, made, k.readyQ)
    && (forall i :: 0 <= i < |k.blocked| ==> AllOnTrack(code, made, k.blocked[i]))
    && AllOnTrack(code, made, k.sleeping)
  }

  /** A process sits blocked or asleep at the very instruction that put it there, so a refused WAIT is retried. */
  predicate PausedWhere(code: C.Code, k: State)
    requires Sized(k)
  {
    && (forall i, p :: 0 <= i < |k.blocked| && p in k.blocked[i] ==> code(p.path, p.programCounter) == C.Wait(k.cfg.names[i]))
    && (forall p :: p in k.sleeping ==> code(p.path, p.programCounter).Sleep?)
  }

  predicate CpuMatches(y: Sys, code: C.Code) {
    match y.cpu
    case Idle => y.kernel.execQ == []
    case Busy(p) => FromCpu(y.kernel, p) && OnTrack(code, y.made, p)
  }

  ghost predicate SysInv(y: Sys, code: C.Code) {
    Inv(y.kernel) && QueuesOnTrack(code, y.made, y.kernel) && PausedWhere(code, y.kernel) && CpuMatches(y, code)
  }

  /** A granted request, or a sleep that is over, counts as the one step RefRun takes over it: the CPU bumped a
      copy it threw away, the kernel bumps the record. */
  lemma EffectiveOnce(code: C.Code, made: map<int, nat>, p: Pcb, q: Pcb)
    requires OnTrack(code, made, p)
    requires var i := code(p.path, p.programCounter); i.Wait? || i.Signal? || i.Sleep?
    requires q.pid == p.pid && q.path == p.path && q.registers == p.registers && q.programCounter == p.programCounter + 1
    ensures OnTrack(code, Bump(made, p.pid), q)
  {}

  // ---------- Other processes are not affected ----------

  lemma ExecApart(k: State, p: Pcb)
    requires PidsUnique(k) && k.execQ != [] && Elsewhere(k, p)
    ensures p.pid != k.execQ[0].pid
  {
    var w := Pid(k.execQ[0].pid);
    MemberBelow(w, k.execQ, k.execQ[0]);
    assert Total(w, k) <= 1;
    if p in k.newQ { MemberBelow(w, k.newQ, p); }
    else if p in k.readyQ { MemberBelow(w, k.readyQ, p); }
    else if p in k.sleeping { MemberBelow(w, k.sleeping, p); }
    else {
      var i :| 0 <= i < |k.blocked| && p in k.blocked[i];
      MemberBelow(w, k.blocked[i], p);
      SumAllBelow(w, k.blocked, i);
    }
  }

  lemma BumpOther(code: C.Code, made: map<int, nat>, pid: int, p: Pcb)
    requires OnTrack(code, made, p) && p.pid != pid
    ensures OnTrack(code, Bump(made, pid), p)
  {}

  /** One effective step of the executing process leaves everybody else on track. */
  lemma BumpExec(code: C.Code, made: map<int, nat>, k: State)
    requires PidsUnique(k) && k.execQ != [] && QueuesOnTrack(code, made, k)
    ensures QueuesOnTrack(code, Bump(made, k.execQ[0].pid), k)
  {
    var m := Bump(made, k.execQ[0].pid);
    forall p | Elsewhere(k, p) && OnTrack(code, made, p) ensures OnTrack(code, m, p) {
      ExecApart(k, p);
      BumpOther(code, made, k.execQ[0].pid, p);
    }
    forall i | 0 <= i < |k.blocked| ensures AllOnTrack(code, m, k.blocked[i]) {
      forall p | p in k.blocked[i] ensures OnTrack(code, m, p) { assert Elsewhere(k, p); }
    }
    forall p | p in k.newQ ensures OnTrack(code, m, p) { assert Elsewhere(k, p); }
    forall p | p in k.readyQ ensures OnTrack(code, m, p) { assert Elsewhere(k, p); }
    forall p | p in k.sleeping ensures OnTrack(code, m, p) { assert Elsewhere(k, p); }
  }

  lemma TagOnTrack(code: C.Code, made: map<int, nat>, p: Pcb, t: ProcessState)
    requires OnTrack(code, made, p)
    ensures OnTrack(code, made, Tagged(p, t))
  {}

  // ---------- Waking and finishing move records without changing them ----------

  lemma WakeOneOnTrack(code: C.Code, made: map<int, nat>, k: State, i: nat)
    requires i < |k.blocked| == |k.available| && QueuesOnTrack(code, made, k)
    ensures QueuesOnTrack(code, made, WakeOne(k, i))
  {
    if k.available[i] > 0 {
      var t := WakeOne(k, i);
      PassMembers(k.blocked[i], k.available[i]);
      forall p | p in t.readyQ ensures OnTrack(code, made, p) {
        if p !in k.readyQ {
          var j :| 0 <= j < |Woken(k.blocked[i], k.available[i])| && p == Tagged(Woken(k.blocked[i], k.available[i])[j], Ready);
          assert Woken(k.blocked[i], k.available[i])[j] in k.blocked[i];
        }
      }
      forall j | 0 <= j < |t.blocked| ensures AllOnTrack(code, made, t.blocked[j]) {
        assert AllOnTrack(code, made, k.blocked[j]);
      }
    }
  }

  lemma {:induction false} WakeFromOnTrack(code: C.Code, made: map<int, nat>, k: State, i: nat)
    requires i <= |k.blocked| == |k.available| && QueuesOnTrack(code, made, k)
    ensures QueuesOnTrack(code, made, WakeFrom(k, i))
    decreases |k.blocked| - i
  {
    if i == |k.blocked| {
    } else {
      WakeOneOnTrack(code, made, k, i);
      WakeFromOnTrack(code, made, WakeOne(k, i), i + 1);
    }
  }

  lemma ExtractOnTrack(code: C.Code, made: map<int, nat>, k: State, pl: Place, i: nat)
    requires Sized(k) && ValidPlace(k, pl) && i < |QueueAt(k, pl)| && QueuesOnTrack(code, made, k)
    ensures QueuesOnTrack(code, made, Extract(k, pl, i))
  {
    hide RefRun, Release;
    var q := QueueAt(k, pl);
    forall p | p in Remove(q, i) ensures p in q { RemoveKeeps(q, i, p); }
    if pl.InBlocked? {
      forall j | 0 <= j < |k.blocked| ensures AllOnTrack(code, made, Extract(k, pl, i).blocked[j]) {
        assert AllOnTrack(code, made, k.blocked[j]);
      }
    }
  }

  lemma FinishOnTrack(code: C.Code, made: map<int, nat>, k: State, pid: int)
    requires Sized(k) && QueuesOnTrack(code, made, k) && PausedWhere(code, k)
    ensures Sized(Finish(k, pid)) && QueuesOnTrack(code, made, Finish(k, pid)) && PausedWhere(code, Finish(k, pid))
  {
    hide RefRun, OnTrack, Release, WakeFrom, Sum, SumAll, PidIndex, BlockedIndex, Settle, Extract;
    if Locate(k, pid) != Nowhere {
      hide Finish;
      var x := Extracted(k, pid);
      var t := Finish(k, pid);
      FinishFields(k, pid);
      WakeFromFrame(x, 0);
      ExtractOnTrack(code, made, k, Locate(k, pid), PidIndex(QueueAt(k, Locate(k, pid)), pid));
      WakeFromOnTrack(code, made, x, 0);
      forall j, p | 0 <= j < |t.blocked| && p in t.blocked[j] ensures p in k.blocked[j] {
        FinishBlocked(k, pid, j, p);
      }
    }
  }

  // ---------- Kernel-side actions ----------

  lemma ArriveKeeps(y: Sys, code: C.Code, path: Name, quantum: int, socket: int)
    requires SysInv(y, code)
    ensures SysInv(After(y, Arrive(path, quantum, socket), code), code)
  {
    var k := y.kernel;
    var m := y.made[k.nextId := 0];
    var t := CreateStep(k, path, quantum, socket);
    CreateInv(k, path, quantum, socket);
    forall p | (Elsewhere(k, p) || y.cpu == C.Busy(p)) && OnTrack(code, y.made, p) ensures OnTrack(code, m, p) {
      LivePid(y, code, p);
    }
    assert OnTrack(code, m, t.newQ[|k.newQ|]);
    forall i | 0 <= i < |k.blocked| ensures AllOnTrack(code, m, k.blocked[i]) {
      forall p | p in k.blocked[i] ensures OnTrack(code, m, p) { assert Elsewhere(k, p); }
    }
    forall p | p in k.newQ ensures OnTrack(code, m, p) { assert Elsewhere(k, p); }
    forall p | p in k.readyQ ensures OnTrack(code, m, p) { assert Elsewhere(k, p); }
    forall p | p in k.sleeping ensures OnTrack(code, m, p) { assert Elsewhere(k, p); }
  }

  /** Live pids have been assigned already. */
  lemma LivePid(y: Sys, code: C.Code, p: Pcb)
    requires SysInv(y, code) && (Elsewhere(y.kernel, p) || y.cpu == C.Busy(p))
    ensures p.pid < y.kernel.nextId
  {
    var k := y.kernel;
    var w := Pid(p.pid);
    if p in k.newQ { MemberBelow(w, k.newQ, p); }
    else if p in k.readyQ { MemberBelow(w, k.readyQ, p); }
    else if p in k.sleeping { MemberBelow(w, k.sleeping, p); }
    else if y.cpu == C.Busy(p) { MemberBelow(w, k.execQ, k.execQ[0]); }
    else {
      var i :| 0 <= i < |k.blocked| && p in k.blocked[i];
      MemberBelow(w, k.blocked[i], p);
      SumAllBelow(w, k.blocked, i);
    }
    assert Total(w, k) > 0;
  }

  lemma AdmitKeeps(y: Sys, code: C.Code)
    requires SysInv(y, code) && Possible(y, Admit)
    ensures Defined(y, Admit, code) && SysInv(After(y, Admit, code), code)
  {
    hide RefRun, Total, TagsMatch, Conserved;
    LongTermInv(y.kernel);
    TagOnTrack(code, y.made, y.kernel.newQ[0], Ready);
  }

  lemma DispatchKeeps(y: Sys, code: C.Code)
    requires SysInv(y, code) && Possible(y, Dispatch)
    ensures Defined(y, Dispatch, code) && SysInv(After(y, Dispatch, code), code)
  {
    hide RefRun, Total, TagsMatch, Conserved;
    ShortTermInv(y.kernel);
    TagOnTrack(code, y.made, y.kernel.readyQ[0], Execution);
  }

  lemma KillKeeps(y: Sys, code: C.Code, pid: int)
    requires SysInv(y, code) && Possible(y, Kill(pid))
    ensures Defined(y, Kill(pid), code) && SysInv(After(y, Kill(pid), code), code)
  {
    hide RefRun, OnTrack, QueuesOnTrack, PausedWhere, Total, TagsMatch, SemaphoresMatch, PidsUnique, Conserved, Finish;
    FinishInv(y.kernel, pid);
    FinishOnTrack(code, y.made, y.kernel, pid);
    KillSparesExec(y.kernel, pid);
  }

  lemma KillSparesExec(k: State, pid: int)
    requires Sized(k) && !HasPid(k.execQ, pid)
    ensures Sized(Finish(k, pid)) && Finish(k, pid).execQ == k.execQ
  {
    hide WakeFrom, Release, Sum, SumAll, Settle;
    if Locate(k, pid) != Nowhere { FinishFields(k, pid); }
  }

  /** A sleep is one effective step, made when it is over. */
  lemma WakeUpKeeps(y: Sys, code: C.Code, i: nat)
    requires SysInv(y, code) && Possible(y, WakeUp(i))
    ensures Defined(y, WakeUp(i), code) && SysInv(After(y, WakeUp(i), code), code)
  {
    hide RefRun, Total, TagsMatch, SemaphoresMatch, Conserved;
    var k := y.kernel;
    var p := k.sleeping[i];
    SleepOverInv(k, i);
    EffectiveOnce(code, y.made, p, Awake(p));
    BumpSleeper(code, y.made, k, i);
    forall q | q in Remove(k.sleeping, i) ensures q in k.sleeping { RemoveKeeps(k.sleeping, i, q); }
    if y.cpu.Busy? { ExecApart(k, p); }
  }

  /** One effective step of a sleeper leaves everybody else on track. */
  lemma BumpSleeper(code: C.Code, made: map<int, nat>, k: State, i: nat)
    requires PidsUnique(k) && i < |k.sleeping| && QueuesOnTrack(code, made, k)
    ensures QueuesOnTrack(code, Bump(made, k.sleeping[i].pid), k.(sleeping := Remove(k.sleeping, i)))
  {
    hide RefRun, Total, PidsUnique, OnTrack;
    var m := Bump(made, k.sleeping[i].pid);
    forall q | q in Remove(k.sleeping, i) ensures OnTrack(code, m, q) {
      SleepersApart(k, i, q);
      BumpOther(code, made, k.sleeping[i].pid, q);
    }
    forall q | q in k.newQ || q in k.readyQ ensures OnTrack(code, m, q) {
      AwakeApart(k, i, q);
      BumpOther(code, made, k.sleeping[i].pid, q);
    }
    forall j, q | 0 <= j < |k.blocked| && q in k.blocked[j] ensures OnTrack(code, m, q) {
      AwakeApart(k, i, q);
      BumpOther(code, made, k.sleeping[i].pid, q);
    }
  }

  lemma SleepersApart(k: State, i: nat, q: Pcb)
    requires PidsUnique(k) && i < |k.sleeping| && q in Remove(k.sleeping, i)
    ensures q in k.sleeping && q.pid != k.sleeping[i].pid
  {
    var w := Pid(k.sleeping[i].pid);
    RemoveKeeps(k.sleeping, i, q);
    SumRemove(w, k.sleeping, i);
    MemberBelow(w, Remove(k.sleeping, i), q);
    assert Total(w, k) <= 1;
  }

  lemma AwakeApart(k: State, i: nat, q: Pcb)
    requires PidsUnique(k) && i < |k.sleeping|
    requires q in k.newQ || q in k.readyQ || exists j :: 0 <= j < |k.blocked| && q in k.blocked[j]
    ensures q.pid != k.sleeping[i].pid
  {
    var w := Pid(k.sleeping[i].pid);
    MemberBelow(w, k.sleeping, k.sleeping[i]);
    assert Total(w, k) <= 1;
    if q in k.newQ { MemberBelow(w, k.newQ, q); }
    else if q in k.readyQ { MemberBelow(w, k.readyQ, q); }
    else {
      var j :| 0 <= j < |k.blocked| && q in k.blocked[j];
      MemberBelow(w, k.blocked[j], q);
      SumAllBelow(w, k.blocked, j);
    }
  }

  // ---------- CPU turns ----------

  lemma RefNext(code: C.Code, made: map<int, nat>, p: Pcb)
    requires OnTrack(code, made, p)
    ensures |p.registers| >= 4
    ensures !code(p.path, p.programCounter).Exit? ==>
      OnTrack(code, Bump(made, p.pid), C.Advance(p, code(p.path, p.programCounter)))
  {}

  predicate CanTurn(y: Sys, code: C.Code) { Possible(y, Turn) && Defined(y, Turn, code) }

  ghost predicate TurnKeeps(y: Sys, code: C.Code) { CanTurn(y, code) && SysInv(AfterTurn(y, code), code) }

  /** What every turn can count on when its message arrives. */
  lemma TurnStart(y: Sys, code: C.Code)
    requires SysInv(y, code) && y.cpu.Busy?
    ensures Possible(y, Turn) && FromCpu(y.kernel, y.cpu.p) && OnTrack(code, y.made, y.cpu.p)
    ensures var k := Refresh(y.kernel, y.cpu.p);
      Inv(k) && k.execQ == [y.cpu.p] && QueuesOnTrack(code, y.made, k) && PausedWhere(code, k)
  {
    RefNext(code, y.made, y.cpu.p);
    RefreshInv(y.kernel, y.cpu.p);
  }

  /** After a request, the system invariant follows from what the handler does to the kernel. */
  lemma Delivered(y: Sys, code: C.Code, e: Event, made: map<int, nat>)
    requires SysInv(y, code) && Possible(y, Turn) && !C.IsLocal(Fetch(y, code))
    requires TurnOutcome(y, code) == C.Outcome(Some(e), C.Idle, false)
    requires Enabled(y.kernel, e) && Safe(y.kernel, e)
    requires var t := Next(y.kernel, e);
      && Inv(t) && PausedWhere(code, t) && QueuesOnTrack(code, made, t)
      && (if t.execQ == [] then made == y.made
          else made == Bump(y.made, y.cpu.p.pid) && OnTrack(code, made, t.execQ[0]))
    ensures TurnKeeps(y, code)
  {
    hide RefRun, OnTrack, QueuesOnTrack, PausedWhere, TagsMatch, SemaphoresMatch, PidsUnique, Conserved, Next;
  }

  /** A local turn: the CPU's copy moves on, or goes back to ready when the flag was up. */
  lemma LocalTurn(y: Sys, code: C.Code)
    requires SysInv(y, code) && y.cpu.Busy? && C.IsLocal(Fetch(y, code))
    ensures TurnKeeps(y, code)
  {
    hide RefRun, Total, TagsMatch, Conserved;
    var p := y.cpu.p;
    var i := code(p.path, p.programCounter);
    var k := y.kernel;
    var m := Bump(y.made, p.pid);
    RefNext(code, y.made, p);
    BumpExec(code, y.made, k);
    var q := C.Advance(p, i);
    if y.flag {
      RefreshInv(k, q);
      InterruptInv(Refresh(k, q));
      TagOnTrack(code, m, q, Ready);
      assert Next(k, CpuInterrupt(q)) == InterruptStep(Refresh(k, q));
    }
  }

  lemma SleepTurn(y: Sys, code: C.Code)
    requires SysInv(y, code) && y.cpu.Busy? && Fetch(y, code).Sleep?
    ensures TurnKeeps(y, code)
  {
    hide RefRun, OnTrack, Total, TagsMatch, SemaphoresMatch, PidsUnique, Conserved;
    var p := y.cpu.p;
    TurnStart(y, code);
    SleepInv(Refresh(y.kernel, p));
    Delivered(y, code, CpuSleep(p), y.made);
  }

  /** Finishing the executing process, from whatever cause. */
  lemma FinishExec(code: C.Code, made: map<int, nat>, k: State)
    requires Inv(k) && k.execQ != [] && QueuesOnTrack(code, made, k) && PausedWhere(code, k)
    ensures var t := Finish(k, k.execQ[0].pid);
      Inv(t) && t.execQ == [] && QueuesOnTrack(code, made, t) && PausedWhere(code, t)
  {
    hide RefRun, OnTrack;
    FinishInv(k, k.execQ[0].pid);
    FinishOnTrack(code, made, k, k.execQ[0].pid);
    FinishFreesExec(k);
  }

  lemma ExitTurn(y: Sys, code: C.Code)
    requires SysInv(y, code) && y.cpu.Busy? && Fetch(y, code).Exit?
    ensures TurnKeeps(y, code)
  {
    hide RefRun, OnTrack, QueuesOnTrack, PausedWhere, Total, TagsMatch, SemaphoresMatch, PidsUnique, Conserved, Finish;
    var p := y.cpu.p;
    TurnStart(y, code);
    FinishExec(code, y.made, Refresh(y.kernel, p));
    Delivered(y, code, CpuFinish(p), y.made);
  }

  /** What WAIT does to the refreshed kernel: granted, refused or fatal. */
  lemma WaitCases(code: C.Code, made: map<int, nat>, k: State, r: Name)
    requires Inv(k) && k.execQ != [] && QueuesOnTrack(code, made, k) && PausedWhere(code, k)
    requires OnTrack(code, made, k.execQ[0])
    requires code(k.execQ[0].path, k.execQ[0].programCounter) == C.Wait(r)
    ensures var t := WaitStep(k, r); var p := k.execQ[0];
      && Inv(t) && PausedWhere(code, t)
      && (t.execQ == [] ==> QueuesOnTrack(code, made, t))
      && (t.execQ != [] ==> t.execQ == [Granted(p, r)] && QueuesOnTrack(code, Bump(made, p.pid), t))
  {
    hide RefRun, OnTrack, Total, TagsMatch, SemaphoresMatch, Finish;
    var p := k.execQ[0];
    var i := NameIndex(k.cfg.names, r);
    LoneExec(k);
    WaitInv(k, r);
    if i == |k.cfg.names| {
      FinishExec(code, made, k);
    } else if k.available[i] > 0 {
      BumpExec(code, made, k);
    } else {
      var t := BlockStep(k, i);
      TagOnTrack(code, made, p, Blocked);
      forall j | 0 <= j < |t.blocked| ensures AllOnTrack(code, made, t.blocked[j]) {
        assert AllOnTrack(code, made, k.blocked[j]);
      }
    }
  }

  /** What SIGNAL does: the instance goes back, or the process is finished. */
  lemma SignalCases(code: C.Code, made: map<int, nat>, k: State, r: Name)
    requires Inv(k) && k.execQ != [] && QueuesOnTrack(code, made, k) && PausedWhere(code, k)
    ensures var t := SignalStep(k, r); var p := k.execQ[0];
      && Inv(t) && PausedWhere(code, t)
      && (t.execQ == [] ==> QueuesOnTrack(code, made, t))
      && (t.execQ != [] ==> t.execQ == [Returned(p, r)] && QueuesOnTrack(code, Bump(made, p.pid), t))
  {
    hide RefRun, OnTrack;
    LoneExec(k);
    SignalInv(k, r);
    if r !in k.cfg.names || r !in k.execQ[0].resources {
      FinishExec(code, made, k);
    } else {
      BumpExec(code, made, k);
    }
  }

  lemma WaitTurn(y: Sys, code: C.Code)
    requires SysInv(y, code) && y.cpu.Busy? && Fetch(y, code).Wait?
    ensures TurnKeeps(y, code)
  {
    hide RefRun, OnTrack, QueuesOnTrack, PausedWhere, Total, TagsMatch, SemaphoresMatch, PidsUnique, Conserved, WaitStep;
    var p := y.cpu.p;
    var r := Fetch(y, code).r;
    var k := Refresh(y.kernel, p);
    TurnStart(y, code);
    WaitCases(code, y.made, k, r);
    EffectiveOnce(code, y.made, p, Granted(p, r));
    Delivered(y, code, CpuWait(p, r), if WaitStep(k, r).execQ == [] then y.made else Bump(y.made, p.pid));
  }

  lemma SignalTurn(y: Sys, code: C.Code)
    requires SysInv(y, code) && y.cpu.Busy? && Fetch(y, code).Signal?
    ensures TurnKeeps(y, code)
  {
    hide RefRun, OnTrack, QueuesOnTrack, PausedWhere, Total, TagsMatch, SemaphoresMatch, PidsUnique, Conserved, SignalStep;
    var p := y.cpu.p;
    var r := Fetch(y, code).r;
    var k := Refresh(y.kernel, p);
    TurnStart(y, code);
    SignalCases(code, y.made, k, r);
    EffectiveOnce(code, y.made, p, Returned(p, r));
    Delivered(y, code, CpuSignal(p, r), if SignalStep(k, r).execQ == [] then y.made else Bump(y.made, p.pid));
  }

  // ---------- Main results ----------

  /** Every action of the composed system is defined where it is possible, and keeps every process on track. */
  lemma ActionKeeps(y: Sys, a: Action, code: C.Code)
    requires SysInv(y, code) && Possible(y, a)
    ensures Defined(y, a, code) && SysInv(After(y, a, code), code)
  {
    match a {
      case Arrive(path, quantum, socket) => ArriveKeeps(y, code, path, quantum, socket);
      case Admit => AdmitKeeps(y, code);
      case Dispatch => DispatchKeeps(y, code);
      case Raise => RaiseKeeps(y, code);
      case WakeUp(i) => WakeUpKeeps(y, code, i);
      case Kill(pid) => KillKeeps(y, code, pid);
      case Turn =>
        match Fetch(y, code) {
          case Wait(_) => WaitTurn(y, code);
          case Signal(_) => SignalTurn(y, code);
          case Sleep(_) => SleepTurn(y, code);
          case Exit => ExitTurn(y, code);
          case _ => LocalTurn(y, code);
        }
    }
  }

  lemma RaiseKeeps(y: Sys, code: C.Code)
    requires SysInv(y, code)
    ensures SysInv(y.(flag := true), code)
  {}

  /** Some execution of the actions from `y` ends in `z`; an undefined step may end anywhere. */
  ghost predicate Schedules(y: Sys, actions: seq<Action>, z: Sys, code: C.Code)
    decreases |actions|
  {
    if actions == [] then z == y
    else Possible(y, actions[0]) &&
         (Defined(y, actions[0], code) ==> Schedules(After(y, actions[0], code), actions[1..], z, code))
  }

  lemma {:induction false} ScheduleKeeps(y: Sys, actions: seq<Action>, z: Sys, code: C.Code)
    requires SysInv(y, code) && Schedules(y, actions, z, code)
    ensures SysInv(z, code)
    decreases |actions|
  {
    if actions == [] {
    } else {
      ActionKeeps(y, actions[0], code);
      ScheduleKeeps(After(y, actions[0], code), actions[1..], z, code);
    }
  }

  // ---------- The kernel's part of a schedule ----------

  /** The kernel event an action amounts to, if any. */
  function EventOf(y: Sys, a: Action, code: C.Code): Option<Event>
    requires Possible(y, a)
  {
    match a
    case Raise => None
    case Turn => TurnOutcome(y, code).message
    case _ => Some(KernelEvent(a))
  }

  lemma KernelStep(y: Sys, a: Action, code: C.Code)
    requires Possible(y, a) && Defined(y, a, code)
    ensures var e := EventOf(y, a, code);
      After(y, a, code).kernel == if e.Some? then Next(y.kernel, e.value) else y.kernel
    ensures var e := EventOf(y, a, code); e.Some? ==> Enabled(y.kernel, e.value) && Safe(y.kernel, e.value)
  {
    hide Next;
  }

  /** What the processes of a schedule are created with, in order. */
  function Arrivals(actions: seq<Action>): seq<Birth> {
    if actions == [] then []
    else (if actions[0].Arrive? then [Birth(actions[0].path, actions[0].quantum, actions[0].socket)] else [])
         + Arrivals(actions[1..])
  }

  /** Seen from the kernel, a schedule is a run of handlers, so what is proved about runs holds of it. */
  lemma {:induction false} KernelRun(y: Sys, actions: seq<Action>, z: Sys, code: C.Code) returns (es: seq<Event>)
    requires SysInv(y, code) && Schedules(y, actions, z, code)
    ensures KernelInvariant.Runs(y.kernel, es, z.kernel) && Created(es) == Arrivals(actions)
    decreases |actions|
  {
    hide SysInv, Defined, Possible, After, EventOf, Next;
    if actions == [] {
      es := [];
    } else {
      var a := actions[0];
      ActionKeeps(y, a, code);
      KernelStep(y, a, code);
      var rest := KernelRun(After(y, a, code), actions[1..], z, code);
      var e := EventOf(y, a, code);
      EventCreates(y, a, code);
      es := if e.Some? then [e.value] + rest else rest;
      if e.Some? { assert es[1..] == rest; }
    }
  }

  lemma EventCreates(y: Sys, a: Action, code: C.Code)
    requires Possible(y, a)
    ensures var e := EventOf(y, a, code);
      (e.Some? && e.value.Create? <==> a.Arrive?)
      && (a.Arrive? ==> e == Some(Create(a.path, a.quantum, a.socket)))
  {}

  function Boot(cfg: Config, firstId: int): Sys {
    Sys(Init(cfg, firstId), C.Idle, false, map[])
  }

  lemma BootInv(cfg: Config, firstId: int, code: C.Code)
    requires GoodConfig(cfg)
    ensures SysInv(Boot(cfg, firstId), code)
  {
    InitInv(cfg, firstId);
  }

  /** The record that counts: the CPU's copy while the process runs, the queue entry otherwise. */
  predicate Counts(z: Sys, p: Pcb) { Elsewhere(z.kernel, p) || z.cpu == C.Busy(p) }

  lemma OnTrackEverywhere(z: Sys, code: C.Code, p: Pcb)
    requires SysInv(z, code) && Counts(z, p)
    ensures OnTrack(code, z.made, p)
    ensures z.cpu == C.Busy(p) ==> FromCpu(z.kernel, p)
  {
    hide RefRun, OnTrack;
    if i :| 0 <= i < |z.kernel.blocked| && p in z.kernel.blocked[i] {
      assert AllOnTrack(code, z.made, z.kernel.blocked[i]);
    }
  }

  lemma BirthOf(z: Sys, code: C.Code, p: Pcb, first: int, births: seq<Birth>)
    requires SysInv(z, code) && Counts(z, p) && Total(Stray(first, births), z.kernel) == 0
    ensures Bears(p, first, births)
  {
    hide RefRun, Total, QueuesOnTrack, PausedWhere;
    if z.cpu == C.Busy(p) {
      BearsAll(z.kernel, z.kernel.execQ[0], first, births);
    } else {
      BearsAll(z.kernel, p, first, births);
    }
  }

  /** Preemption transparency: after any schedule, the record of every process, wherever it is kept, is where the
      uninterrupted run of the program it was created with is after as many steps as it has made effective ones;
      it still has its quantum and its client; and blocked processes are at the WAIT they will retry. */
  lemma PreemptionTransparency(cfg: Config, firstId: int, code: C.Code, actions: seq<Action>, z: Sys)
    requires GoodConfig(cfg) && Schedules(Boot(cfg, firstId), actions, z, code)
    ensures Inv(z.kernel) && SysInv(z, code)
    ensures forall p :: Counts(z, p) ==>
      && p.pid in z.made && firstId <= p.pid < firstId + |Arrivals(actions)|
      && var birth := Arrivals(actions)[p.pid - firstId];
      && Birth(p.path, p.quantum, p.clientSocket) == birth
      && Point(p.programCounter, p.registers) == RefRun(code, birth.path, z.made[p.pid])
    ensures forall i, p :: 0 <= i < |z.kernel.blocked| && p in z.kernel.blocked[i] ==>
      code(p.path, p.programCounter) == C.Wait(z.kernel.cfg.names[i])
    ensures z.kernel.execQ != [] <==> z.cpu.Busy?
  {
    hide RefRun, SysInv, Schedules, GoodConfig, Total, Counts, OnTrack, Created, Arrivals, KernelInvariant.Runs;
    var y := Boot(cfg, firstId);
    BootInv(cfg, firstId, code);
    ScheduleKeeps(y, actions, z, code);
    var es := KernelRun(y, actions, z, code);
    StrayFree(cfg, firstId, es, z.kernel);
    forall p | Counts(z, p) ensures Bears(p, firstId, Arrivals(actions)) && OnTrack(code, z.made, p) {
      BirthOf(z, code, p, firstId, Arrivals(actions));
      OnTrackEverywhere(z, code, p);
    }
    SysInvMeans(z, code);
    TrackMeans(z, code);
  }

  lemma SysInvMeans(z: Sys, code: C.Code)
    requires SysInv(z, code)
    ensures Inv(z.kernel) && (z.kernel.execQ != [] <==> z.cpu.Busy?)
    ensures forall i, p :: 0 <= i < |z.kernel.blocked| && p in z.kernel.blocked[i] ==>
      code(p.path, p.programCounter) == C.Wait(z.kernel.cfg.names[i])
  {
    hide RefRun, QueuesOnTrack;
  }

  lemma TrackMeans(z: Sys, code: C.Code)
    ensures forall p :: OnTrack(code, z.made, p) ==>
      p.pid in z.made && Point(p.programCounter, p.registers) == RefRun(code, p.path, z.made[p.pid])
  {
    hide RefRun;
  }

  lemma {:induction false} Halted(code: C.Code, path: Name, j: nat, k: nat)
    requires j <= k && code(path, RefRun(code, path, j).pc).Exit?
    ensures RefRun(code, path, k) == RefRun(code, path, j)
    decreases k
  {
    if j == k {
    } else {
      Halted(code, path, j, k - 1);
    }
  }

  /** Schedule independence: two processes created with the same program, under any two schedules, even of differently
      configured systems, reach EXIT with the same registers. */
  lemma ScheduleIndependence(cfg1: Config, id1: int, actions1: seq<Action>, z1: Sys,
                             cfg2: Config, id2: int, actions2: seq<Action>, z2: Sys, code: C.Code, p: Pcb, q: Pcb)
    requires GoodConfig(cfg1) && Schedules(Boot(cfg1, id1), actions1, z1, code) && z1.cpu == C.Busy(p)
    requires GoodConfig(cfg2) && Schedules(Boot(cfg2, id2), actions2, z2, code) && z2.cpu == C.Busy(q)
    requires code(p.path, p.programCounter).Exit? && code(q.path, q.programCounter).Exit?
    ensures id1 <= p.pid < id1 + |Arrivals(actions1)| && id2 <= q.pid < id2 + |Arrivals(actions2)|
    ensures Arrivals(actions1)[p.pid - id1].path == Arrivals(actions2)[q.pid - id2].path ==>
      p.registers == q.registers && p.programCounter == q.programCounter
  {
    hide RefRun, Schedules, GoodConfig, Arrivals, Boot;
    TrackOnCpu(cfg1, id1, actions1, z1, code, p);
    TrackOnCpu(cfg2, id2, actions2, z2, code, q);
    var j, k := z1.made[p.pid], z2.made[q.pid];
    if p.path == q.path {
      if j <= k { Halted(code, p.path, j, k); } else { Halted(code, p.path, k, j); }
    }
  }

  lemma TrackOnCpu(cfg: Config, firstId: int, actions: seq<Action>, z: Sys, code: C.Code, p: Pcb)
    requires GoodConfig(cfg) && Schedules(Boot(cfg, firstId), actions, z, code) && z.cpu == C.Busy(p)
    ensures firstId <= p.pid < firstId + |Arrivals(actions)| && Arrivals(actions)[p.pid - firstId].path == p.path
    ensures p.pid in z.made && Point(p.programCounter, p.registers) == RefRun(code, p.path, z.made[p.pid])
  {
    hide RefRun, SysInv, Schedules, GoodConfig, Arrivals, Boot;
    PreemptionTransparency(cfg, firstId, code, actions, z);
    assert Counts(z, p);
  }
}
