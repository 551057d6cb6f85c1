/** What a turn of the CPU comes to in the composed system: who goes on, who stops, and where everybody is
    (cpu/src/handle_connection.c:80-127 together with the handler of the message it sends). */
module Turns {
  import opened Collections
  import opened Process
  import opened Accounting
  import opened KernelSpec
  import opened KernelInvariant
  import opened Deadlock
  import opened Births
  import opened Transparency

  /** The executing process, as the CPU has it, with what it is about to execute. */
  predicate AtInstr(y: Sys, code: C.Code, p: Pcb, i: C.Instr) {
    y.cpu == C.Busy(p) && code(p.path, p.programCounter) == i
  }

  /** Nothing of the process is left. */
  ghost predicate Gone(z: Sys, pid: int) {
    z.cpu == C.Idle && z.kernel.execQ == [] && forall q :: Present(z.kernel, q) ==> q.pid != pid
  }

  /** q is p some instructions further on, with everything else kept. */
  predicate Moved(p: Pcb, q: Pcb, steps: int) {
    && q.pid == p.pid && q.path == p.path && q.quantum == p.quantum && q.size == p.size
    && q.tablePages == p.tablePages && q.clientSocket == p.clientSocket
    && q.programCounter == p.programCounter + steps
  }

  lemma CanGo(y: Sys, code: C.Code)
    requires SysInv(y, code) && y.cpu.Busy?
    ensures CanTurn(y, code) && SysInv(AfterTurn(y, code), code)
  {
    hide SysInv, RefRun, AfterTurn;
    BusyTurns(y, code);
    ActionKeeps(y, Turn, code);
  }

  lemma BusyTurns(y: Sys, code: C.Code)
    requires SysInv(y, code) && y.cpu.Busy?
    ensures Possible(y, Turn)
  {
    TurnStart(y, code);
  }

  /** A local instruction under a raised flag is the last one for now: the CPU is free, exec is empty, the flag is
      down, and the process is the last in ready, one effective step further on. */
  lemma PreemptionHappens(y: Sys, code: C.Code, p: Pcb, i: C.Instr)
    requires SysInv(y, code) && AtInstr(y, code, p, i) && C.IsLocal(i) && y.flag
    ensures CanTurn(y, code)
    ensures var z := AfterTurn(y, code);
      && z.cpu == C.Idle && z.kernel.execQ == [] && !z.flag
      && |z.kernel.readyQ| == |y.kernel.readyQ| + 1 && y.kernel.readyQ <= z.kernel.readyQ
      && var q := z.kernel.readyQ[|y.kernel.readyQ|];
      && Moved(p, q, 1) && q.resources == p.resources && q.state == Ready
      && p.pid in y.made && z.made == y.made[p.pid := y.made[p.pid] + 1]
      && Point(q.programCounter, q.registers) == RefRun(code, p.path, y.made[p.pid] + 1)
      && z.kernel.available == y.kernel.available && z.kernel.blocked == y.kernel.blocked
  {
    hide RefRun, Total, TagsMatch, Conserved, PidsUnique;
    CanGo(y, code);
    TurnStart(y, code);
    LastOnTrack(y, code, p);
    LoneExec(y.kernel);
  }

  /** The record that went to ready is on track. */
  lemma LastOnTrack(y: Sys, code: C.Code, p: Pcb)
    requires SysInv(y, code) && y.cpu == C.Busy(p) && C.IsLocal(code(p.path, p.programCounter))
    ensures |p.registers| >= 4 && p.pid in y.made
    ensures var q := C.Advance(p, code(p.path, p.programCounter));
      Point(q.programCounter, q.registers) == RefRun(code, p.path, y.made[p.pid] + 1)
  {
    TurnStart(y, code);
    RefNext(code, y.made, p);
  }

  /** With the flag down, a local instruction sends nothing: the kernel does not change, and the process stays on the
      CPU, one effective step further on. */
  lemma UninterruptedGoesOn(y: Sys, code: C.Code, p: Pcb, i: C.Instr)
    requires SysInv(y, code) && AtInstr(y, code, p, i) && C.IsLocal(i) && !y.flag
    ensures CanTurn(y, code)
    ensures var z := AfterTurn(y, code);
      && z.kernel == y.kernel && !z.flag && z.cpu.Busy?
      && Moved(p, z.cpu.p, 1) && z.cpu.p.resources == p.resources && z.cpu.p.state == p.state
      && p.pid in y.made && z.made == y.made[p.pid := y.made[p.pid] + 1]
      && Point(z.cpu.p.programCounter, z.cpu.p.registers) == RefRun(code, p.path, y.made[p.pid] + 1)
  {
    hide RefRun, Total, TagsMatch, Conserved, PidsUnique;
    CanGo(y, code);
    TurnStart(y, code);
    LastOnTrack(y, code, p);
  }

  /** An interrupt is used up by the turn that sees it, whether it preempts or comes too late. */
  lemma FlagGoesDown(y: Sys, code: C.Code)
    requires SysInv(y, code) && y.cpu.Busy?
    ensures CanTurn(y, code) && !AfterTurn(y, code).flag
  {
    hide SysInv, RefRun;
    CanGo(y, code);
  }

  // ---------- Requests ----------

  /** The instruction that sends the request is not done yet: nothing counts, and the record is as it was. */
  lemma RequestSent(y: Sys, code: C.Code, p: Pcb, e: Event)
    requires SysInv(y, code) && y.cpu == C.Busy(p) && |p.registers| >= 4
    requires TurnOutcome(y, code) == C.Outcome(Some(e), C.Idle, false) && !C.IsLocal(Fetch(y, code))
    ensures CanTurn(y, code) && Enabled(y.kernel, e) && Safe(y.kernel, e)
    ensures var k := Next(y.kernel, e);
      AfterTurn(y, code) == Sys(k, if k.execQ != [] then C.Busy(k.execQ[0]) else C.Idle, false,
                                if k.execQ != [] then Bump(y.made, p.pid) else y.made)
  {
    hide SysInv, RefRun, Next;
    CanGo(y, code);
  }

  /** A WAIT of a free resource: one instance moves from the resource to the process, which goes on behind the WAIT. */
  lemma WaitGranted(y: Sys, code: C.Code, p: Pcb, i: nat)
    requires SysInv(y, code) && i < |y.kernel.cfg.names| && AtInstr(y, code, p, C.Wait(y.kernel.cfg.names[i]))
    requires y.kernel.available[i] > 0
    ensures CanTurn(y, code)
    ensures var z := AfterTurn(y, code);
      && z.cpu.Busy? && z.kernel.execQ == [z.cpu.p]
      && Moved(p, z.cpu.p, 1) && z.cpu.p.registers == p.registers
      && z.cpu.p.resources == p.resources + [y.kernel.cfg.names[i]]
      && z.kernel.available == y.kernel.available[i := y.kernel.available[i] - 1]
      && z.kernel.blocked == y.kernel.blocked && z.kernel.readyQ == y.kernel.readyQ
      && z.made == Bump(y.made, p.pid)
  {
    hide RefRun, Total, TagsMatch, Conserved, PidsUnique, Finish;
    TurnStart(y, code);
    RefNext(code, y.made, p);
    RequestSent(y, code, p, CpuWait(p, y.kernel.cfg.names[i]));
    NameIndexOf(y.kernel.cfg.names, i);
  }

  /** A WAIT of a resource with no free instance: the process is the last of its waiters, still at the WAIT. */
  lemma WaitRefused(y: Sys, code: C.Code, p: Pcb, i: nat)
    requires SysInv(y, code) && i < |y.kernel.cfg.names| && AtInstr(y, code, p, C.Wait(y.kernel.cfg.names[i]))
    requires y.kernel.available[i] == 0
    ensures CanTurn(y, code)
    ensures var z := AfterTurn(y, code); var n := |y.kernel.blocked[i]|;
      && z.cpu == C.Idle && z.kernel.execQ == [] && z.made == y.made
      && |z.kernel.blocked[i]| == n + 1 && y.kernel.blocked[i] <= z.kernel.blocked[i]
      && Moved(p, z.kernel.blocked[i][n], 0) && z.kernel.blocked[i][n].registers == p.registers
      && z.kernel.blocked[i][n].resources == p.resources && z.kernel.blocked[i][n].state == Blocked
      && (forall j :: 0 <= j < |y.kernel.blocked| && j != i ==> z.kernel.blocked[j] == y.kernel.blocked[j])
      && z.kernel.available == y.kernel.available && z.kernel.readyQ == y.kernel.readyQ
  {
    hide RefRun, Total, TagsMatch, Conserved, PidsUnique, Finish;
    TurnStart(y, code);
    RefNext(code, y.made, p);
    RequestSent(y, code, p, CpuWait(p, y.kernel.cfg.names[i]));
    NameIndexOf(y.kernel.cfg.names, i);
  }

  /** `left` is `held` without the first r. */
  predicate LessFirst(held: seq<Name>, left: seq<Name>, r: Name) {
    exists k :: 0 <= k < |held| && held[k] == r && r !in held[..k] && left == held[..k] + held[k + 1..]
  }

  /** A SIGNAL of a resource the process holds: one instance moves back, and the process goes on behind the SIGNAL. */
  lemma SignalReturns(y: Sys, code: C.Code, p: Pcb, i: nat)
    requires SysInv(y, code) && i < |y.kernel.cfg.names| && AtInstr(y, code, p, C.Signal(y.kernel.cfg.names[i]))
    requires y.kernel.cfg.names[i] in p.resources
    ensures CanTurn(y, code)
    ensures var z := AfterTurn(y, code);
      && z.cpu.Busy? && z.kernel.execQ == [z.cpu.p]
      && Moved(p, z.cpu.p, 1) && z.cpu.p.registers == p.registers
      && LessFirst(p.resources, z.cpu.p.resources, y.kernel.cfg.names[i])
      && z.kernel.available == y.kernel.available[i := y.kernel.available[i] + 1]
      && z.kernel.blocked == y.kernel.blocked && z.kernel.readyQ == y.kernel.readyQ
      && z.made == Bump(y.made, p.pid)
  {
    hide RefRun, Total, TagsMatch, Conserved, PidsUnique, Finish, DropFirst;
    TurnStart(y, code);
    RefNext(code, y.made, p);
    var r := y.kernel.cfg.names[i];
    RequestSent(y, code, p, CpuSignal(p, r));
    NameIndexOf(y.kernel.cfg.names, i);
    DropFirstLess(p.resources, r);
  }

  lemma DropFirstLess(held: seq<Name>, r: Name)
    requires r in held
    ensures LessFirst(held, DropFirst(held, r), r)
  {
    var k := NameIndex(held, r);
    assert held == held[..k] + [r] + held[k + 1..];
  }

  /** A SLEEP takes the process off the CPU, still at the SLEEP. */
  lemma SleepPauses(y: Sys, code: C.Code, p: Pcb, time: int)
    requires SysInv(y, code) && AtInstr(y, code, p, C.Sleep(time))
    ensures CanTurn(y, code)
    ensures var z := AfterTurn(y, code); var n := |y.kernel.sleeping|;
      && z.cpu == C.Idle && z.kernel.execQ == [] && z.made == y.made
      && |z.kernel.sleeping| == n + 1 && z.kernel.sleeping[..n] == y.kernel.sleeping && z.kernel.sleeping[n] == p
      && z.kernel.available == y.kernel.available && z.kernel.blocked == y.kernel.blocked
      && z.kernel.readyQ == y.kernel.readyQ
  {
    hide RefRun, Total, TagsMatch, Conserved, PidsUnique, Finish;
    TurnStart(y, code);
    RefNext(code, y.made, p);
    RequestSent(y, code, p, CpuSleep(p));
  }

  /** When it is over, the process is the last in ready, behind the SLEEP. */
  lemma SleepEnds(y: Sys, code: C.Code, i: nat)
    requires SysInv(y, code) && Possible(y, WakeUp(i))
    ensures Defined(y, WakeUp(i), code)
    ensures var z := After(y, WakeUp(i), code); var p := y.kernel.sleeping[i]; var n := |y.kernel.readyQ|;
      && z.cpu == y.cpu && z.kernel.sleeping == Remove(y.kernel.sleeping, i) && z.made == Bump(y.made, p.pid)
      && |z.kernel.readyQ| == n + 1 && y.kernel.readyQ <= z.kernel.readyQ
      && Moved(p, z.kernel.readyQ[n], 1) && z.kernel.readyQ[n].registers == p.registers
      && z.kernel.readyQ[n].resources == p.resources && z.kernel.readyQ[n].state == Ready
  {
    hide RefRun, Total, TagsMatch, Conserved, PidsUnique, Finish, QueuesOnTrack;
    ActionKeeps(y, WakeUp(i), code);
  }

  /** EXIT, a WAIT of an unknown resource, and a SIGNAL of one that is unknown or not held: nothing is left of the
      process, and every resource has back what it held. */
  lemma ProcessEnds(y: Sys, code: C.Code, p: Pcb, i: C.Instr)
    requires SysInv(y, code) && AtInstr(y, code, p, i)
    requires i.Exit? || (i.Wait? && i.r !in y.kernel.cfg.names)
      || (i.Signal? && (i.r !in y.kernel.cfg.names || i.r !in p.resources))
    ensures CanTurn(y, code)
    ensures var z := AfterTurn(y, code);
      && Gone(z, p.pid) && z.made == y.made && |z.kernel.available| == |y.kernel.available| == |y.kernel.cfg.names|
      && forall j :: 0 <= j < |y.kernel.cfg.names| ==>
           z.kernel.available[j] == y.kernel.available[j] + multiset(p.resources)[y.kernel.cfg.names[j]]
  {
    hide RefRun, Total, TagsMatch, Conserved, SemaphoresMatch, Finish, QueuesOnTrack, PausedWhere, Present;
    TurnStart(y, code);
    RefNext(code, y.made, p);
    var e := if i.Exit? then CpuFinish(p) else if i.Wait? then CpuWait(p, i.r) else CpuSignal(p, i.r);
    RequestSent(y, code, p, e);
    var k := Refresh(y.kernel, p);
    assert Next(y.kernel, e) == Finish(k, p.pid);
    ExecEnds(k);
  }

  /** Finishing the executing process. */
  lemma ExecEnds(k: State)
    requires Inv(k) && k.execQ != []
    ensures var t := Finish(k, k.execQ[0].pid);
      && t.execQ == [] && |t.available| == |k.available|
      && (forall q :: Present(t, q) ==> q.pid != k.execQ[0].pid)
      && forall j :: 0 <= j < |k.cfg.names| ==>
           t.available[j] == k.available[j] + multiset(k.execQ[0].resources)[k.cfg.names[j]]
  {
    hide Total, TagsMatch, Conserved, SemaphoresMatch, Finish, Present;
    var p := k.execQ[0];
    var t := Finish(k, p.pid);
    LoneExec(k);
    LocateExec(k);
    FinishFreesExec(k);
    assert PidIndex(k.execQ, p.pid) == 0;
    assert Found(k, p.pid) == p;
    FinishTotal(Pid(p.pid), k, p.pid);
    assert Total(Pid(p.pid), k) <= 1;
    forall q | Present(t, q) ensures q.pid != p.pid { PresentBelow(Pid(p.pid), t, q); }
    FinishFields(k, p.pid);
    forall j | 0 <= j < |k.cfg.names|
      ensures t.available[j] == k.available[j] + multiset(p.resources)[k.cfg.names[j]]
    {
      FinishAvailable(k, p.pid, j);
    }
  }

  // ---------- A program ----------

  /** SET x a; SET y b; SUM x y; EXIT. */
  predicate Adds(code: C.Code, path: Name, x: C.Reg, y: C.Reg, a: Word, b: Word) {
    && code(path, 0) == C.Set(x, a) && code(path, 1) == C.Set(y, b) && code(path, 2) == C.Sum(x, y)
    && code(path, 3) == C.Exit
  }

  lemma AddingRun(code: C.Code, path: Name, x: C.Reg, y: C.Reg, a: Word, b: Word)
    requires Adds(code, path, x, y, a, b) && x != y
    ensures RefRun(code, path, 0).pc == 0 && RefRun(code, path, 1).pc == 1 && RefRun(code, path, 2).pc == 2
    ensures var at := RefRun(code, path, 3);
      && at.pc == 3 && |at.regs| == 4 && at.regs[y] == b
      && C.WordSum(at.regs[x], a, b)
      && forall k :: 0 <= k < 4 && k != x && k != y ==> at.regs[k] == 0
  {
    var zero: seq<Word> := [0, 0, 0, 0];
    assert RefRun(code, path, 0) == Point(0, zero);
    assert RefRun(code, path, 1) == Point(1, C.Effect(C.Set(x, a), zero));
    C.SetStores(x, a, zero);
    var one := RefRun(code, path, 1).regs;
    assert RefRun(code, path, 2) == Point(2, C.Effect(C.Set(y, b), one));
    C.SetStores(y, b, one);
    var two := RefRun(code, path, 2).regs;
    assert RefRun(code, path, 3) == Point(3, C.Effect(C.Sum(x, y), two));
    C.SumAdds(x, y, two);
  }

  /** Whatever the schedule, whatever else runs, and for all values: when a process created with that program is at its
      EXIT, the one register holds the sum, the other its value, and the rest are zero. */
  lemma SumUnderAnySchedule(cfg: Config, firstId: int, code: C.Code, actions: seq<Action>, z: Sys, p: Pcb,
                            x: C.Reg, y: C.Reg, a: Word, b: Word)
    requires GoodConfig(cfg) && Schedules(Boot(cfg, firstId), actions, z, code) && Counts(z, p)
    requires 0 <= p.pid - firstId < |Arrivals(actions)|
    requires Adds(code, Arrivals(actions)[p.pid - firstId].path, x, y, a, b) && x != y && p.programCounter == 3
    ensures |p.registers| == 4 && p.registers[y] == b
    ensures C.WordSum(p.registers[x], a, b)
    ensures forall k :: 0 <= k < 4 && k != x && k != y ==> p.registers[k] == 0
  {
    hide RefRun, Schedules, Counts, SysInv, GoodConfig;
    PreemptionTransparency(cfg, firstId, code, actions, z);
    var path := Arrivals(actions)[p.pid - firstId].path;
    var k := z.made[p.pid];
    AddingRun(code, path, x, y, a, b);
    assert Point(p.programCounter, p.registers) == RefRun(code, path, k);
    if k > 3 { Halted(code, path, 3, k); }
  }
}
