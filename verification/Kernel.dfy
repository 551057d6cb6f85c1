/** The kernel's handlers, in the form the source has them: loops over global lists and counters that
    are updated in place. Each is proved against the specification function of the same step, so the
    invariant and deadlock results about those functions are results about these methods.

    A `sem_wait` inside a handler is an assertion that the counter is positive followed by the
    decrement: it never blocks. */
module Kernel {
  import opened Collections
  import opened Process
  import opened Accounting
  import opened WakeScan
  import opened KernelSpec
  import opened KernelInvariant
  import opened Deadlock

  /** What a resource handler sends back to the CPU. */
  datatype Reply = NoReply | Resume(p: Pcb)

  class Kernel {
    const cfg: Config
    var available: seq<int>
    var queueNew: seq<Pcb>
    var queueReady: seq<Pcb>
    var queueExec: seq<Pcb>
    var listOfQueueBlocked: seq<seq<Pcb>>
    var sleeping: seq<Pcb>
    var semProcessNew: int
    var semProcessReady: int
    var semProcessBlocked: int
    var semCpuAvailable: int
    var semMultiprogrammingDegree: int
    var idToAssign: int

    function Abs(): State
      reads this
    {
      State(cfg, available, queueNew, queueReady, queueExec, listOfQueueBlocked, sleeping,
            semProcessNew, semProcessReady, semProcessBlocked, semCpuAvailable, semMultiprogrammingDegree, idToAssign)
    }

    constructor (cfg: Config, firstId: int)
      requires |cfg.names| == |cfg.instances|
      ensures Abs() == Init(cfg, firstId)
    {
      this.cfg := cfg;
      available := [];
      queueNew, queueReady, queueExec, listOfQueueBlocked, sleeping := [], [], [], [], [];
      semProcessNew, semProcessReady, semProcessBlocked, semCpuAvailable := 0, 0, 0, 1;
      semMultiprogrammingDegree := cfg.degree;
      idToAssign := firstId;
      new;
      for i := 0 to |cfg.names|
        invariant |listOfQueueBlocked| == i && forall j :: 0 <= j < i ==> listOfQueueBlocked[j] == []
        invariant available == cfg.instances[..i]
        invariant Abs() == Init(cfg, firstId).(available := available, blocked := listOfQueueBlocked)
      {
        listOfQueueBlocked := listOfQueueBlocked + [[]];
        available := available + [cfg.instances[i]];
      }
      assert listOfQueueBlocked == Init(cfg, firstId).blocked;
    }

    // ---------- deadlocks.c ----------

    method ModifyResourceInstance(resource: Name, value: int)
      requires Sized(Abs())
      modifies this`available
      ensures Abs() == old(Abs()).(available := Adjust(cfg.names, old(available), resource, value))
    {
      var i := 0;
      while i < |available|
        invariant i <= |available|
        invariant available == old(available)
        invariant forall j :: 0 <= j < i ==> cfg.names[j] != resource
      {
        if cfg.names[i] == resource {
          available := available[i := available[i] + value];
          return;
        }
        i := i + 1;
      }
    }

    method QuantityAvailable(resource: Name) returns (n: int)
      requires Sized(Abs()) && resource in cfg.names
      ensures NameIndex(cfg.names, resource) < |cfg.names| && n == available[NameIndex(cfg.names, resource)]
    {
      var i := 0;
      while cfg.names[i] != resource
        invariant i < |cfg.names|
        invariant forall j :: 0 <= j < i ==> cfg.names[j] != resource
        decreases |cfg.names| - i
      {
        assert resource in cfg.names[i..];
        assert cfg.names[i..] == [cfg.names[i]] + cfg.names[i + 1..];
        i := i + 1;
      }
      n := available[i];
    }

    method FreeResourcesRetained(held: seq<Name>)
      requires Sized(Abs())
      modifies this`available
      ensures Abs() == old(Abs()).(available := Release(cfg.names, old(available), held))
    {
      var i := 0;
      while i < |held|
        invariant i <= |held| && Sized(Abs())
        invariant Release(cfg.names, available, held[i..]) == Release(cfg.names, old(available), held)
      {
        assert held[i..][1..] == held[i + 1..];
        ModifyResourceInstance(held[i], 1);
        i := i + 1;
      }
    }

    method GetQueueBlocked(tag: Name) returns (found: nat)
      requires Sized(Abs()) && Distinct(cfg.names) && tag in cfg.names
      ensures found == NameIndex(cfg.names, tag) < |listOfQueueBlocked|
    {
      found := |cfg.names|;
      var i := 0;
      while i < |cfg.names|
        invariant i <= |cfg.names|
        invariant found == if NameIndex(cfg.names, tag) < i then NameIndex(cfg.names, tag) else |cfg.names|
      {
        if cfg.names[i] == tag { found := i; }
        i := i + 1;
      }
    }

    /** get_required_resource; falling off the end is undefined there, hence the requirement that `pid` is blocked. */
    method GetRequiredResource(pid: int) returns (r: Name)
      requires Sized(Abs()) && BlockedIndex(listOfQueueBlocked, pid) < |listOfQueueBlocked|
      ensures r == Required(Abs(), pid)
    {
      var i := 0;
      while !HasPid(listOfQueueBlocked[i], pid)
        invariant i <= BlockedIndex(listOfQueueBlocked, pid)
        decreases |listOfQueueBlocked| - i
      {
        i := i + 1;
      }
      r := cfg.names[i];
    }

    /** The processes reported against `pid`, in the order they are logged. */
    method CheckDeadlocks(pid: int) returns (reported: seq<Pcb>)
      requires Sized(Abs()) && BlockedIndex(listOfQueueBlocked, pid) < |listOfQueueBlocked|
      ensures reported == Report(Abs(), pid)
    {
      var required := GetRequiredResource(pid);
      reported := [];
      var i := 0;
      while i < |listOfQueueBlocked|
        invariant i <= |listOfQueueBlocked|
        invariant reported + AllHolders(listOfQueueBlocked[i..], required) == Report(Abs(), pid)
      {
        var more := HoldersInQueue(listOfQueueBlocked[i], required);
        assert listOfQueueBlocked[i..][1..] == listOfQueueBlocked[i + 1..];
        reported := reported + more;
        i := i + 1;
      }
    }

    /** The inner loop of check_deadlocks. */
    static method HoldersInQueue(queueBlocked: seq<Pcb>, required: Name) returns (h: seq<Pcb>)
      ensures h == Holders(queueBlocked, required)
    {
      h := [];
      var j := 0;
      while j < |queueBlocked|
        invariant j <= |queueBlocked|
        invariant h + Holders(queueBlocked[j..], required) == Holders(queueBlocked, required)
      {
        assert queueBlocked[j..][1..] == queueBlocked[j + 1..];
        ghost var rest := Holders(queueBlocked[j + 1..], required);
        assert (h + [queueBlocked[j]]) + rest == h + ([queueBlocked[j]] + rest);
        if required in queueBlocked[j].resources { h := h + [queueBlocked[j]]; }
        j := j + 1;
      }
    }

    // ---------- queues.c ----------

    /** check_process_in_blocked_and_send_to_ready. `due` counts the wait on sem_process_blocked that a
        finishing blocked process still owes. */
    method WakeBlocked(ghost due: nat)
      requires Sized(Abs()) && semProcessBlocked == SumAll(One, listOfQueueBlocked) + due
      modifies this
      ensures Abs() == WakeFrom(old(Abs()), 0)
    {
      var i := 0;
      while i < |listOfQueueBlocked|
        invariant i <= |listOfQueueBlocked| && Sized(Abs())
        invariant WakeFrom(Abs(), i) == WakeFrom(old(Abs()), 0)
        invariant semProcessBlocked == SumAll(One, listOfQueueBlocked) + due
      {
        WakeQueue(i, due);
        i := i + 1;
      }
    }

    method WakeQueue(i: nat, ghost due: nat)
      requires Sized(Abs()) && i < |listOfQueueBlocked|
      requires semProcessBlocked == SumAll(One, listOfQueueBlocked) + due
      modifies this
      ensures Abs() == WakeOne(old(Abs()), i)
      ensures semProcessBlocked == SumAll(One, listOfQueueBlocked) + due
    {
      ghost var s := Abs();
      ghost var q := listOfQueueBlocked[i];
      var quantity := available[i];
      if |listOfQueueBlocked[i]| > 0 && quantity > 0 {
        PassStart(s, i);
        var k := 0;
        while k < Min(quantity, |listOfQueueBlocked[i]|)
          invariant k <= Moves(|q|, quantity)
          invariant Abs() == PassSoFar(s, i, k)
          invariant semProcessBlocked == SumAll(One, listOfQueueBlocked) + due
        {
          Guard(q, quantity, k);
          PassTurn(s, i, k);
          var process := listOfQueueBlocked[i][k];
          SumAllUpdate(One, listOfQueueBlocked, i, Remove(listOfQueueBlocked[i], k));
          SumRemove(One, listOfQueueBlocked[i], k);
          MoveFromBlockToReady(i, k, process);
          k := k + 1;
        }
        Guard(q, quantity, k);
        Clamp(q, quantity);
      } else {
        NothingToWake(s, i);
      }
    }

    method MoveFromBlockToReady(queueIndex: nat, k: nat, process: Pcb)
      requires queueIndex < |listOfQueueBlocked| && k < |listOfQueueBlocked[queueIndex]|
      requires process == listOfQueueBlocked[queueIndex][k]
      requires semProcessBlocked > 0
      modifies this
      ensures Abs() == old(Abs()).(
        readyQ := old(queueReady) + [Tagged(process, Ready)],
        blocked := old(listOfQueueBlocked)[queueIndex := Remove(old(listOfQueueBlocked)[queueIndex], k)],
        semBlocked := old(semProcessBlocked) - 1,
        semReady := old(semProcessReady) + 1)
    {
      queueReady := queueReady + [Tagged(process, Ready)];
      listOfQueueBlocked := listOfQueueBlocked[queueIndex := Remove(listOfQueueBlocked[queueIndex], k)];
      semProcessBlocked := semProcessBlocked - 1;
      semProcessReady := semProcessReady + 1;
    }

    method UpdateQueueSemaphores(tag: ProcessState)
      requires tag == Ready ==> semProcessReady > 0
      requires tag == Blocked ==> semProcessBlocked > 0
      requires tag == New || tag == Exit ==> semProcessNew > 0
      modifies this
      ensures Abs() == Settle(old(Abs()), tag)
    {
      if tag == Execution {
        semCpuAvailable := semCpuAvailable + 1;
        semMultiprogrammingDegree := semMultiprogrammingDegree + 1;
      } else if tag == Ready {
        semProcessReady := semProcessReady - 1;
        semMultiprogrammingDegree := semMultiprogrammingDegree + 1;
      } else if tag == Blocked {
        semProcessBlocked := semProcessBlocked - 1;
        semMultiprogrammingDegree := semMultiprogrammingDegree + 1;
      } else {
        semProcessNew := semProcessNew - 1;
      }
    }

    /** build_all_queues_in_list. */
    function AllQueues(): seq<seq<Pcb>>
      reads this
    {
      [queueNew, queueReady, queueExec] + listOfQueueBlocked
    }

    method RemoveFromQueue(queueIndex: nat, i: nat)
      requires queueIndex < |AllQueues()| && i < |AllQueues()[queueIndex]|
      modifies this
      ensures Abs() == WithQueue(old(Abs()), PlaceOf(queueIndex), Remove(old(AllQueues()[queueIndex]), i))
    {
      if queueIndex == 0 { queueNew := Remove(queueNew, i); }
      else if queueIndex == 1 { queueReady := Remove(queueReady, i); }
      else if queueIndex == 2 { queueExec := Remove(queueExec, i); }
      else {
        var j := queueIndex - 3;
        listOfQueueBlocked := listOfQueueBlocked[j := Remove(listOfQueueBlocked[j], i)];
      }
    }

    method FinishProcess(pid: int)
      requires Inv(Abs())
      modifies this
      ensures Abs() == Finish(old(Abs()), pid) && Inv(Abs())
    {
      hide WakeFrom, Release, Total, Conserved, PidsUnique, SemaphoresMatch, TagsMatch, Settle, Extract, PidIndex;
      ghost var s := Abs();
      FinishInv(s, pid);
      var all := AllQueues();
      var queueIndex := 0;
      while queueIndex < |all| && !HasPid(all[queueIndex], pid)
        invariant queueIndex <= |all|
        invariant forall j :: 0 <= j < queueIndex ==> !HasPid(all[j], pid)
      {
        queueIndex := queueIndex + 1;
      }
      LocateByIndex(s, all, queueIndex, pid);
      if queueIndex < |all| { FinishIn(queueIndex, pid); }
    }

    /** The rest of finish_process, once the queue is found. */
    method FinishIn(queueIndex: nat, pid: int)
      requires Inv(Abs()) && queueIndex < |AllQueues()| && HasPid(AllQueues()[queueIndex], pid)
      requires Locate(Abs(), pid) == PlaceOf(queueIndex) && QueueAt(Abs(), PlaceOf(queueIndex)) == AllQueues()[queueIndex]
      modifies this
      ensures Abs() == Finish(old(Abs()), pid)
    {
      hide Release, Total, PidsUnique, Conserved, WakeFrom;
      ghost var s := Abs();
      var i := PidIndex(AllQueues()[queueIndex], pid);
      var process := AllQueues()[queueIndex][i];
      var previousState := process.state;
      ExtractFrame(s, Locate(s, pid), i);
      FoundTag(s, pid);
      FreeResourcesRetained(process.resources);
      RemoveFromQueue(queueIndex, i);
      ghost var x := Abs();
      assert x == Extract(s, Locate(s, pid), i);
      WakeBlocked(if previousState == Blocked then 1 else 0);
      WakeFromFrame(x, 0);
      UpdateQueueSemaphores(previousState);
    }

    // ---------- handle_connection.c and planners.c ----------

    method CreateProcess(path: Name, quantum: int, socket: int)
      modifies this
      ensures Abs() == CreateStep(old(Abs()), path, quantum, socket)
    {
      var pcb := Pcb(idToAssign, 0, quantum, 0, [0, 0, 0, 0], [], 0, path, New, socket);
      idToAssign := idToAssign + 1;
      queueNew := queueNew + [pcb];
      semProcessNew := semProcessNew + 1;
    }

    /** One turn of long_term_planner, once its semaphores let it through. */
    method LongTermTurn()
      requires Inv(Abs()) && Enabled(Abs(), LongTerm)
      modifies this
      ensures Abs() == LongTermStep(old(Abs())) && Inv(Abs())
    {
      LongTermInv(Abs());
      semMultiprogrammingDegree := semMultiprogrammingDegree - 1;
      semProcessNew := semProcessNew - 1;
      var process := queueNew[0];
      queueNew := queueNew[1..];
      queueReady := queueReady + [Tagged(process, Ready)];
      semProcessReady := semProcessReady + 1;
    }

    /** One turn of the FIFO and round-robin planners; the process returned is dispatched to the CPU. */
    method ShortTermTurn() returns (dispatched: Pcb)
      requires Inv(Abs()) && Enabled(Abs(), ShortTerm)
      modifies this
      ensures Abs() == ShortTermStep(old(Abs())) && Inv(Abs())
      ensures queueExec == [dispatched]
    {
      ShortTermInv(Abs());
      semProcessReady := semProcessReady - 1;
      semCpuAvailable := semCpuAvailable - 1;
      var process := queueReady[0];
      queueReady := queueReady[1..];
      dispatched := Tagged(process, Execution);
      queueExec := queueExec + [dispatched];
    }

    method HandleInterrupt(pcb: Pcb)
      requires Inv(Abs()) && FromCpu(Abs(), pcb)
      modifies this
      ensures Abs() == InterruptStep(Refresh(old(Abs()), pcb)) && Inv(Abs())
    {
      RefreshInv(Abs(), pcb);
      InterruptInv(Refresh(Abs(), pcb));
      queueExec := queueExec[1..];
      semCpuAvailable := semCpuAvailable + 1;
      queueReady := queueReady + [Tagged(pcb, Ready)];
      semProcessReady := semProcessReady + 1;
    }

    method MoveFromExecToBlocked(queueIndex: nat) returns (reported: seq<Pcb>)
      requires Inv(Abs()) && queueExec != [] && queueIndex < |listOfQueueBlocked|
      modifies this
      ensures Abs() == BlockStep(old(Abs()), queueIndex) && Inv(Abs())
      ensures BlockedIndex(listOfQueueBlocked, old(queueExec[0].pid)) < |listOfQueueBlocked|
      ensures reported == Report(Abs(), old(queueExec[0].pid))
    {
      BlockInv(Abs(), queueIndex);
      var process := queueExec[0];
      queueExec := queueExec[1..];
      semCpuAvailable := semCpuAvailable + 1;
      listOfQueueBlocked := listOfQueueBlocked[queueIndex := listOfQueueBlocked[queueIndex] + [Tagged(process, Blocked)]];
      semProcessBlocked := semProcessBlocked + 1;
      assert Tagged(process, Blocked) in listOfQueueBlocked[queueIndex];
      assert HasPid(listOfQueueBlocked[queueIndex], process.pid);
      reported := CheckDeadlocks(process.pid);
    }

    method HandleWait(pcb: Pcb, resource: Name) returns (reply: Reply, reported: seq<Pcb>)
      requires Inv(Abs()) && FromCpu(Abs(), pcb)
      modifies this
      ensures Abs() == WaitStep(Refresh(old(Abs()), pcb), resource) && Inv(Abs())
      ensures reply == if queueExec != [] then Resume(queueExec[0]) else NoReply
      ensures Blocks(old(Abs()), CpuWait(pcb, resource)) ==>
        BlockedIndex(listOfQueueBlocked, pcb.pid) < |listOfQueueBlocked| && reported == Report(Abs(), pcb.pid)
    {
      hide WakeFrom, Release, Total, Conserved, PidsUnique, SemaphoresMatch, TagsMatch, Finish;
      RefreshInv(Abs(), pcb);
      WaitInv(Refresh(Abs(), pcb), resource);
      reported := [];
      reply := NoReply;
      queueExec := [pcb];
      if resource !in cfg.names {
        FinishProcess(pcb.pid);
        FinishFreesExec(Refresh(old(Abs()), pcb));
        return;
      }
      var quantity := QuantityAvailable(resource);
      if quantity > 0 {
        var process := Granted(pcb, resource);
        queueExec := [process];
        ModifyResourceInstance(resource, -1);
        reply := Resume(process);
      } else {
        var queueIndex := GetQueueBlocked(resource);
        reported := MoveFromExecToBlocked(queueIndex);
      }
    }

    method HandleSignal(pcb: Pcb, resource: Name) returns (reply: Reply)
      requires Inv(Abs()) && FromCpu(Abs(), pcb)
      modifies this
      ensures Abs() == SignalStep(Refresh(old(Abs()), pcb), resource) && Inv(Abs())
      ensures reply == if queueExec != [] then Resume(queueExec[0]) else NoReply
    {
      RefreshInv(Abs(), pcb);
      SignalInv(Refresh(Abs(), pcb), resource);
      queueExec := [pcb];
      reply := NoReply;
      if resource !in cfg.names || resource !in pcb.resources {
        FinishProcess(pcb.pid);
        FinishFreesExec(Refresh(old(Abs()), pcb));
        return;
      }
      ModifyResourceInstance(resource, 1);
      var process := Returned(pcb, resource);
      queueExec := [process];
      reply := Resume(process);
    }

    method HandleSleep(pcb: Pcb)
      requires Inv(Abs()) && FromCpu(Abs(), pcb)
      modifies this
      ensures Abs() == SleepStep(Refresh(old(Abs()), pcb)) && Inv(Abs())
    {
      RefreshInv(Abs(), pcb);
      SleepInv(Refresh(Abs(), pcb));
      queueExec := queueExec[1..];
      sleeping := sleeping + [pcb];
      semCpuAvailable := semCpuAvailable + 1;
    }

    /** The end of thread_sleep_process for one sleeper. */
    method EndSleep(i: nat)
      requires Inv(Abs()) && i < |sleeping|
      modifies this
      ensures Abs() == SleepOverStep(old(Abs()), i) && Inv(Abs())
    {
      SleepOverInv(Abs(), i);
      var process := sleeping[i];
      sleeping := Remove(sleeping, i);
      queueReady := queueReady + [Awake(process)];
      semProcessReady := semProcessReady + 1;
    }

    /** One message or planner turn. Every handler keeps the invariant and computes the specified step. */
    method Handle(e: Event)
      requires Inv(Abs()) && Enabled(Abs(), e)
      modifies this
      ensures Safe(old(Abs()), e) && Abs() == Next(old(Abs()), e) && Inv(Abs())
    {
      hide Total, Conserved, PidsUnique, SemaphoresMatch, TagsMatch, Finish;
      ghost var s := Abs();
      StepInv(s, e);
      match e {
        case Create(path, quantum, socket) => CreateProcess(path, quantum, socket);
        case LongTerm => LongTermTurn();
        case ShortTerm => var _ := ShortTermTurn();
        case CpuFinish(p) => RefreshInv(s, p); queueExec := [p]; FinishProcess(p.pid);
        case CpuInterrupt(p) => HandleInterrupt(p);
        case CpuWait(p, r) => var _, _ := HandleWait(p, r);
        case CpuSignal(p, r) => var _ := HandleSignal(p, r);
        case CpuSleep(p) => HandleSleep(p);
        case SleepOver(i) => EndSleep(i);
        case ConsoleFinish(pid) => FinishProcess(pid);
      }
    }
  }

  /** The state after k turns of the wake loop on queue i. */
  function PassSoFar(s: State, i: nat, k: nat): State
    requires i < |s.blocked|
  {
    s.(readyQ := s.readyQ + TagAll(Woken(s.blocked[i], k), Ready),
       blocked := s.blocked[i := Waiting(s.blocked[i], k)],
       semBlocked := s.semBlocked - |Woken(s.blocked[i], k)|,
       semReady := s.semReady + |Woken(s.blocked[i], k)|)
  }

  lemma PassStart(s: State, i: nat)
    requires i < |s.blocked|
    ensures PassSoFar(s, i, 0) == s
  {
    assert Waiting(s.blocked[i], 0) == s.blocked[i];
    assert TagAll(Woken(s.blocked[i], 0), Ready) == [];
  }

  lemma PassTurn(s: State, i: nat, k: nat)
    requires i < |s.blocked| && 2 * k < |s.blocked[i]|
    ensures var t := PassSoFar(s, i, k);
      k < |t.blocked[i]| &&
      PassSoFar(s, i, k + 1) == t.(
        readyQ := t.readyQ + [Tagged(t.blocked[i][k], Ready)],
        blocked := t.blocked[i := Remove(t.blocked[i], k)],
        semBlocked := t.semBlocked - 1,
        semReady := t.semReady + 1)
  {
    var q := s.blocked[i];
    Turn(q, k);
    assert TagAll(Woken(q, k + 1), Ready) == TagAll(Woken(q, k), Ready) + [Tagged(q[2 * k], Ready)];
  }

  lemma NothingToWake(s: State, i: nat)
    requires i < |s.blocked| == |s.available| && (s.blocked[i] == [] || s.available[i] <= 0)
    ensures WakeOne(s, i) == s
  {
    if s.available[i] > 0 {
      assert Waiting(s.blocked[i], s.available[i]) == s.blocked[i];
      assert TagAll(Woken(s.blocked[i], s.available[i]), Ready) == [];
    }
  }

  function PlaceOf(queueIndex: nat): Place {
    match queueIndex
    case 0 => InNew
    case 1 => InReady
    case 2 => InExec
    case _ => InBlocked(queueIndex - 3)
  }

  /** Searching the joined list of queues finds the place the specification names. */
  lemma LocateByIndex(s: State, all: seq<seq<Pcb>>, n: nat, pid: int)
    requires all == [s.newQ, s.readyQ, s.execQ] + s.blocked && n <= |all|
    requires forall j :: 0 <= j < n ==> !HasPid(all[j], pid)
    requires n < |all| ==> HasPid(all[n], pid)
    ensures if n == |all| then Locate(s, pid) == Nowhere else Locate(s, pid) == PlaceOf(n) && QueueAt(s, PlaceOf(n)) == all[n]
  {
    assert n > 0 ==> !HasPid(all[0], pid);
    assert n > 1 ==> !HasPid(all[1], pid);
    assert n > 2 ==> !HasPid(all[2], pid);
    var b := BlockedIndex(s.blocked, pid);
    if n >= 3 {
      forall j | 0 <= j < n - 3 ensures !HasPid(s.blocked[j], pid) { assert s.blocked[j] == all[j + 3]; }
      if n < |all| { assert s.blocked[n - 3] == all[n]; }
    }
  }
}
