/** What check_deadlocks reports, and what a deadlock is (kernel/src/deadlocks.c:27-76). */
module Deadlock {
  import opened Collections
  import opened Process
  import opened Accounting
  import opened KernelSpec
  import opened KernelInvariant

  // ---------- The check ----------

  /** The blocked processes of one queue that hold `r`, in queue order. */
  function Holders(q: seq<Pcb>, r: Name): seq<Pcb> {
    if q == [] then []
    else (if r in q[0].resources then [q[0]] else []) + Holders(q[1..], r)
  }

  /** The same over all queues, in list order. */
  function AllHolders(qs: seq<seq<Pcb>>, r: Name): seq<Pcb> {
    if qs == [] then [] else Holders(qs[0], r) + AllHolders(qs[1..], r)
  }

  lemma {:induction false} HoldersMember(q: seq<Pcb>, r: Name, p: Pcb)
    ensures p in Holders(q, r) <==> p in q && r in p.resources
  {
    if q == [] {
    } else {
      HoldersMember(q[1..], r, p);
    }
  }

  lemma {:induction false} AllHoldersMember(qs: seq<seq<Pcb>>, r: Name, p: Pcb)
    ensures p in AllHolders(qs, r) <==> r in p.resources && exists i :: 0 <= i < |qs| && p in qs[i]
  {
    if qs == [] {
    } else {
      HoldersMember(qs[0], r, p);
      AllHoldersMember(qs[1..], r, p);
      assert forall i :: 0 < i < |qs| ==> qs[1..][i - 1] == qs[i];
      assert forall i :: 0 <= i < |qs[1..]| ==> qs[1..][i] == qs[i + 1];
    }
  }

  /** The report follows the order of each queue, and the order of the queues. */
  lemma {:induction false} HoldersConcat(a: seq<Pcb>, b: seq<Pcb>, r: Name)
    ensures Holders(a + b, r) == Holders(a, r) + Holders(b, r)
  {
    if a == [] {
      assert a + b == b;
    } else {
      HoldersConcat(a[1..], b, r);
      assert (a + b)[1..] == a[1..] + b;
      var head := if r in a[0].resources then [a[0]] else [];
      assert head + (Holders(a[1..], r) + Holders(b, r)) == (head + Holders(a[1..], r)) + Holders(b, r);
    }
  }

  lemma {:induction false} AllHoldersConcat(a: seq<seq<Pcb>>, b: seq<seq<Pcb>>, r: Name)
    ensures AllHolders(a + b, r) == AllHolders(a, r) + AllHolders(b, r)
  {
    hide Holders;
    if a == [] {
      assert a + b == b;
    } else {
      AllHoldersConcat(a[1..], b, r);
      assert (a + b)[1..] == a[1..] + b;
      var head := Holders(a[0], r);
      assert head + (AllHolders(a[1..], r) + AllHolders(b, r)) == (head + AllHolders(a[1..], r)) + AllHolders(b, r);
    }
  }

  /** get_required_resource. */
  function Required(s: State, pid: int): Name
    requires Sized(s) && BlockedIndex(s.blocked, pid) < |s.blocked|
  {
    s.cfg.names[BlockedIndex(s.blocked, pid)]
  }

  /** The processes check_deadlocks reports together with `pid`. */
  function Report(s: State, pid: int): seq<Pcb>
    requires Sized(s) && BlockedIndex(s.blocked, pid) < |s.blocked|
  {
    AllHolders(s.blocked, Required(s, pid))
  }

  // ---------- Deadlocks ----------

  predicate Waits(s: State, i: nat, k: int)
    requires i < |s.blocked|
  {
    exists p :: p in s.blocked[i] && p.pid == k
  }

  /** Member k of D waits on a resource all of whose configured instances are held inside D. */
  ghost predicate Stuck(s: State, D: set<int>, k: int)
  {
    Sized(s) && exists i :: 0 <= i < |s.blocked| && Waits(s, i, k) && Full(s, D, i)
  }

  /** All configured instances of resource i are held inside D. */
  ghost predicate Full(s: State, D: set<int>, i: nat)
    requires Sized(s) && i < |s.blocked|
  {
    Total(HeldIn(D, s.cfg.names[i]), s) == s.cfg.instances[i]
  }

  ghost predicate Deadlocked(s: State, D: set<int>)
  {
    Sized(s) && D != {} && forall k :: k in D ==> Stuck(s, D, k)
  }

  // ---------- A pid is in one place ----------

  lemma WaiterCounts(s: State, i: nat, p: Pcb)
    requires i < |s.blocked| && p in s.blocked[i]
    ensures SumAll(Pid(p.pid), s.blocked) >= 1
  {
    MemberBelow(Pid(p.pid), s.blocked[i], p);
    SumAllBelow(Pid(p.pid), s.blocked, i);
  }

  /** A blocked pid is in no other kind of queue. */
  lemma BlockedOnly(s: State, i: nat, p: Pcb, q: Pcb)
    requires PidsUnique(s) && i < |s.blocked| && p in s.blocked[i] && q.pid == p.pid
    ensures q !in s.newQ && q !in s.readyQ && q !in s.execQ && q !in s.sleeping
  {
    var w := Pid(p.pid);
    WaiterCounts(s, i, p);
    assert Total(w, s) <= 1;
    if q in s.newQ { MemberBelow(w, s.newQ, q); }
    if q in s.readyQ { MemberBelow(w, s.readyQ, q); }
    if q in s.execQ { MemberBelow(w, s.execQ, q); }
    if q in s.sleeping { MemberBelow(w, s.sleeping, q); }
  }

  lemma OneQueue(s: State, i: nat, p: Pcb, j: nat, q: Pcb)
    requires PidsUnique(s) && i < |s.blocked| && p in s.blocked[i] && j < |s.blocked| && q in s.blocked[j] && q.pid == p.pid
    ensures i == j
  {
    var w := Pid(p.pid);
    MemberBelow(w, s.blocked[i], p);
    MemberBelow(w, s.blocked[j], q);
    assert Total(w, s) <= 1;
    if i < j { SumAllTwoBelow(w, s.blocked, i, j); }
    if j < i { SumAllTwoBelow(w, s.blocked, j, i); }
  }

  lemma StuckIsBlocked(s: State, D: set<int>, k: int) returns (i: nat, p: Pcb)
    requires Sized(s) && Deadlocked(s, D) && k in D
    ensures i < |s.blocked| && p in s.blocked[i] && p.pid == k
  {
    assert Stuck(s, D, k);
    i :| 0 <= i < |s.blocked| && Waits(s, i, k);
    p :| p in s.blocked[i] && p.pid == k;
  }

  lemma ExecOutside(s: State, D: set<int>)
    requires Inv(s) && Deadlocked(s, D) && s.execQ != []
    ensures s.execQ[0].pid !in D
  {
    if s.execQ[0].pid in D {
      var i, p := StuckIsBlocked(s, D, s.execQ[0].pid);
      BlockedOnly(s, i, p, s.execQ[0]);
    }
  }

  lemma TotalSplit(D: set<int>, r: Name, s: State)
    ensures Total(Held(r), s) == Total(HeldIn(D, r), s) + Total(HeldOut(D, r), s)
  {
    InOutSplit(D, r, s.newQ);
    InOutSplit(D, r, s.readyQ);
    InOutSplit(D, r, s.execQ);
    InOutSplitAll(D, r, s.blocked);
    InOutSplit(D, r, s.sleeping);
  }

  /** Conservation keeps the resources of a deadlock at zero available and out of everybody else's hands. */
  lemma Exhausted(s: State, D: set<int>, i: nat)
    requires Inv(s) && i < |s.cfg.names|
    ensures Total(HeldIn(D, s.cfg.names[i]), s) <= s.cfg.instances[i]
    ensures Full(s, D, i) ==>
      s.available[i] == 0 && Total(HeldOut(D, s.cfg.names[i]), s) == 0
  {
    TotalSplit(D, s.cfg.names[i], s);
  }

  // ---------- Transfer between states ----------

  /** A deadlock survives a change that keeps exhausted queues and what members hold. */
  lemma Survives(s: State, t: State, D: set<int>)
    requires Inv(s) && Deadlocked(s, D) && Sized(t) && t.cfg == s.cfg
    requires forall i, p :: 0 <= i < |s.blocked| && p in s.blocked[i] && p.pid in D && Full(s, D, i) ==> p in t.blocked[i]
    requires forall r :: Total(HeldIn(D, r), t) == Total(HeldIn(D, r), s)
    ensures Deadlocked(t, D)
  {
    forall k | k in D ensures Stuck(t, D, k) {
      assert Stuck(s, D, k);
      var i :| 0 <= i < |s.blocked| && Waits(s, i, k) && Full(s, D, i);
      assert Waits(t, i, k);
      assert Full(t, D, i);
    }
  }

  /** A deadlock was there before a change that blocks none of its members and hands it no instance. */
  lemma WasThere(s: State, t: State, D: set<int>)
    requires Inv(s) && Sized(t) && Deadlocked(t, D) && t.cfg == s.cfg
    requires forall i, p :: 0 <= i < |s.blocked| && p in t.blocked[i] && p.pid in D ==> p in s.blocked[i]
    requires forall r :: Total(HeldIn(D, r), t) <= Total(HeldIn(D, r), s)
    ensures Deadlocked(s, D)
  {
    hide Sum, SumAll, TagsMatch, SemaphoresMatch;
    forall k | k in D ensures Stuck(s, D, k) {
      assert Stuck(t, D, k);
      var i :| 0 <= i < |t.blocked| && Waits(t, i, k) && Full(t, D, i);
      var p :| p in t.blocked[i] && p.pid == k;
      assert Waits(s, i, k);
      Exhausted(s, D, i);
      assert Total(HeldIn(D, s.cfg.names[i]), t) <= Total(HeldIn(D, s.cfg.names[i]), s);
      assert Full(s, D, i);
    }
  }

  /** Finishing the executing process leaves exec empty. */
  lemma FinishFreesExec(s: State)
    requires Inv(s) && s.execQ != []
    ensures Finish(s, s.execQ[0].pid).execQ == []
  {
    LocateExec(s);
    WakeFromFrame(Extract(s, InExec, 0), 0);
  }

  // ---------- Finishing ----------

  lemma RemoveKeeps(q: seq<Pcb>, i: nat, p: Pcb)
    requires i < |q|
    ensures p in Remove(q, i) ==> p in q
    ensures p in q && p != q[i] ==> p in Remove(q, i)
  {
    if p in q && p != q[i] {
      var j :| 0 <= j < |q| && q[j] == p;
      assert Remove(q, i)[if j < i then j else j - 1] == p;
    }
  }

  lemma FinishBlocked(s: State, pid: int, j: nat, p: Pcb)
    requires Sized(s) && j < |s.blocked| && Locate(s, pid) != Nowhere
    ensures Sized(Finish(s, pid)) && |Finish(s, pid).blocked| == |s.blocked|
    ensures p in Finish(s, pid).blocked[j] ==> p in s.blocked[j]
    ensures p in s.blocked[j] && p.pid != pid && Finish(s, pid).available[j] <= 0 ==> p in Finish(s, pid).blocked[j]
  {
    hide WakeFrom, PidIndex, BlockedIndex, Release, SumAll, Sum, Finish, Settle;
    var pl := Locate(s, pid);
    FinishFields(s, pid);
    WakeFromFrame(Extracted(s, pid), 0);
    RemoveKeeps(QueueAt(s, pl), PidIndex(QueueAt(s, pl), pid), p);
  }

  lemma FoundIsLive(s: State, pid: int, w: Weight)
    requires Locate(s, pid) != Nowhere
    ensures W(w, Found(s, pid)) <= Total(w, s)
  {
    var pl := Locate(s, pid);
    MemberBelow(w, QueueAt(s, pl), Found(s, pid));
    if pl.InBlocked? { SumAllBelow(w, s.blocked, pl.index); }
  }

  /** An exhausted resource gets nothing back from an outsider, so the wake scan skips its waiters. */
  lemma FinishKeepsMember(s: State, pid: int, D: set<int>, i: nat, p: Pcb)
    requires Inv(s) && pid !in D && Locate(s, pid) != Nowhere
    requires i < |s.blocked| && p in s.blocked[i] && p.pid in D && Full(s, D, i)
    ensures Sized(Finish(s, pid)) && |Finish(s, pid).blocked| == |s.blocked|
    ensures p in Finish(s, pid).blocked[i]
  {
    var r := s.cfg.names[i];
    Exhausted(s, D, i);
    FoundIsLive(s, pid, HeldOut(D, r));
    FinishAvailable(s, pid, i);
    assert W(Held(r), Found(s, pid)) == W(HeldOut(D, r), Found(s, pid));
    FinishBlocked(s, pid, i, p);
  }

  lemma FinishKeepsDeadlock(s: State, pid: int, D: set<int>)
    requires Inv(s) && Deadlocked(s, D) && pid !in D
    ensures Inv(Finish(s, pid)) && Deadlocked(Finish(s, pid), D)
  {
    hide WakeFrom, PidIndex, BlockedIndex, Release, SumAll, Sum, Settle, Extract;
    FinishInv(s, pid);
    if Locate(s, pid) != Nowhere {
      var t := Finish(s, pid);
      FinishCfg(s, pid);
      forall i, p | 0 <= i < |s.blocked| && p in s.blocked[i] && p.pid in D && Full(s, D, i) ensures p in t.blocked[i] {
        FinishKeepsMember(s, pid, D, i, p);
      }
      forall r ensures Total(HeldIn(D, r), t) == Total(HeldIn(D, r), s) { FinishTotal(HeldIn(D, r), s, pid); }
      Survives(s, t, D);
    }
  }

  lemma FinishMakesNoDeadlock(s: State, pid: int, D: set<int>)
    requires Inv(s) && Inv(Finish(s, pid)) && Deadlocked(Finish(s, pid), D)
    ensures Deadlocked(s, D)
  {
    if Locate(s, pid) != Nowhere {
      var t := Finish(s, pid);
      FinishCfg(s, pid);
      forall i, p | 0 <= i < |s.blocked| && p in t.blocked[i] && p.pid in D ensures p in s.blocked[i] {
        FinishBlocked(s, pid, i, p);
      }
      forall r ensures Total(HeldIn(D, r), t) <= Total(HeldIn(D, r), s) { FinishTotal(HeldIn(D, r), s, pid); }
      WasThere(s, t, D);
    }
  }

  // ---------- Refresh and exec-only changes ----------

  /** Changing only the executing record (and counters) neither makes nor breaks a deadlock. */
  lemma ExecChange(s: State, p: Pcb, a: seq<int>, D: set<int>)
    requires Inv(s) && |s.execQ| == 1 && p.pid == s.execQ[0].pid
    requires Inv(s.(execQ := [p], available := a))
    ensures Deadlocked(s, D) <==> Deadlocked(s.(execQ := [p], available := a), D)
  {
    var t := s.(execQ := [p], available := a);
    forall r | p.pid !in D ensures Total(HeldIn(D, r), t) == Total(HeldIn(D, r), s) {
      ExecSwapTotal(HeldIn(D, r), s, p);
    }
    if Deadlocked(s, D) {
      ExecOutside(s, D);
      Survives(s, t, D);
    }
    if Deadlocked(t, D) {
      ExecOutside(t, D);
      WasThere(s, t, D);
    }
  }

  lemma RefreshDeadlock(s: State, p: Pcb, D: set<int>)
    requires Inv(s) && FromCpu(s, p)
    ensures Inv(Refresh(s, p)) && (Deadlocked(s, D) <==> Deadlocked(Refresh(s, p), D))
  {
    RefreshInv(s, p);
    ExecChange(s, p, s.available, D);
  }

  // ---------- Moves ----------

  /** A move that touches no blocked queue and no held list neither makes nor breaks a deadlock. */
  lemma SameBlocked(s: State, t: State, D: set<int>)
    requires Inv(s) && Inv(t) && t.cfg == s.cfg && t.blocked == s.blocked
    requires forall w :: Total(w, t) == Total(w, s)
    ensures Deadlocked(s, D) <==> Deadlocked(t, D)
  {
    if Deadlocked(s, D) { Survives(s, t, D); }
    if Deadlocked(t, D) { WasThere(s, t, D); }
  }

  lemma CreateDeadlock(s: State, path: Name, quantum: int, socket: int, D: set<int>)
    requires Inv(s)
    ensures Deadlocked(s, D) <==> Deadlocked(CreateStep(s, path, quantum, socket), D)
  {
    var t := CreateStep(s, path, quantum, socket);
    CreateInv(s, path, quantum, socket);
    forall r ensures Total(HeldIn(D, r), t) == Total(HeldIn(D, r), s) {
      assert Total(HeldIn(D, r), t) == Total(HeldIn(D, r), s) + W(HeldIn(D, r), t.newQ[|s.newQ|]);
    }
    if Deadlocked(s, D) { Survives(s, t, D); }
    if Deadlocked(t, D) { WasThere(s, t, D); }
  }

  /** Every step outside WAIT, SIGNAL and finishing leaves the deadlocks as they are. */
  lemma MoveDeadlock(s: State, e: Event, D: set<int>)
    requires Inv(s) && Enabled(s, e) && Safe(s, e)
    requires e.LongTerm? || e.ShortTerm? || e.CpuInterrupt? || e.CpuSleep? || e.SleepOver?
    ensures Deadlocked(s, D) <==> Deadlocked(Next(s, e), D)
  {
    match e {
      case LongTerm => LongTermInv(s); SameBlocked(s, LongTermStep(s), D);
      case ShortTerm => ShortTermInv(s); SameBlocked(s, ShortTermStep(s), D);
      case CpuInterrupt(p) =>
        RefreshDeadlock(s, p, D);
        InterruptInv(Refresh(s, p));
        SameBlocked(Refresh(s, p), InterruptStep(Refresh(s, p)), D);
      case CpuSleep(p) =>
        RefreshDeadlock(s, p, D);
        SleepInv(Refresh(s, p));
        SameBlocked(Refresh(s, p), SleepStep(Refresh(s, p)), D);
      case SleepOver(i) => SleepOverInv(s, i); SameBlocked(s, SleepOverStep(s, i), D);
    }
  }

  // ---------- Main results ----------

  /** Deadlock is stable: only a console finish of a member can end it. */
  lemma DeadlockStable(s: State, e: Event, D: set<int>)
    requires Inv(s) && Enabled(s, e) && Deadlocked(s, D)
    requires !(e.ConsoleFinish? && e.pid in D)
    ensures Safe(s, e) && Inv(Next(s, e)) && Deadlocked(Next(s, e), D)
  {
    StepInv(s, e);
    match e {
      case Create(path, quantum, socket) => CreateDeadlock(s, path, quantum, socket, D);
      case CpuFinish(p) => ExecOutside(s, D); RefreshDeadlock(s, p, D); FinishKeepsDeadlock(Refresh(s, p), p.pid, D);
      case CpuWait(p, r) => RefreshDeadlock(s, p, D); WaitKeepsDeadlock(Refresh(s, p), r, D);
      case CpuSignal(p, r) => RefreshDeadlock(s, p, D); SignalKeepsDeadlock(Refresh(s, p), r, D);
      case ConsoleFinish(pid) => FinishKeepsDeadlock(s, pid, D);
      case _ => MoveDeadlock(s, e, D);
    }
  }

  lemma WaitKeepsDeadlock(s: State, r: Name, D: set<int>)
    requires Inv(s) && s.execQ != [] && Deadlocked(s, D)
    ensures Inv(WaitStep(s, r)) && Deadlocked(WaitStep(s, r), D)
  {
    var p := s.execQ[0];
    var i := NameIndex(s.cfg.names, r);
    ExecOutside(s, D);
    WaitInv(s, r);
    if i == |s.cfg.names| {
      FinishKeepsDeadlock(s, p.pid, D);
    } else if s.available[i] > 0 {
      assert s.execQ[0 := Granted(p, r)] == [Granted(p, r)];
      ExecChange(s, Granted(p, r), Adjust(s.cfg.names, s.available, r, -1), D);
    } else {
      BlockInv(s, i);
      Survives(s, BlockStep(s, i), D);
    }
  }

  lemma SignalKeepsDeadlock(s: State, r: Name, D: set<int>)
    requires Inv(s) && s.execQ != []  && Deadlocked(s, D)
    ensures Inv(SignalStep(s, r)) && Deadlocked(SignalStep(s, r), D)
  {
    var p := s.execQ[0];
    ExecOutside(s, D);
    SignalInv(s, r);
    if r !in s.cfg.names || r !in p.resources {
      FinishKeepsDeadlock(s, p.pid, D);
    } else {
      assert s.execQ[0 := Returned(p, r)] == [Returned(p, r)];
      ExecChange(s, Returned(p, r), Adjust(s.cfg.names, s.available, r, 1), D);
    }
  }

  /** Members make no progress: the same record stays in the same blocked queue. */
  lemma MembersUntouched(s: State, e: Event, D: set<int>, i: nat, p: Pcb)
    requires Inv(s) && Enabled(s, e) && Deadlocked(s, D)
    requires !(e.ConsoleFinish? && e.pid in D)
    requires i < |s.blocked| && p in s.blocked[i] && p.pid in D
    ensures Safe(s, e) && i < |Next(s, e).blocked| && p in Next(s, e).blocked[i]
  {
    hide WakeFrom, PidIndex, BlockedIndex, Release, SumAll, Sum, Settle, Extract, Finish, Full, TagsMatch, SemaphoresMatch, PidsUnique;
    StepInv(s, e);
    ExecOutsideIfAny(s, D);
    match e {
      case CpuFinish(m) => RefreshDeadlock(s, m, D); FinishUntouched(Refresh(s, m), m.pid, D, i, p);
      case CpuWait(m, r) => RefreshDeadlock(s, m, D); FinishUntouched(Refresh(s, m), m.pid, D, i, p);
      case CpuSignal(m, r) => RefreshDeadlock(s, m, D); FinishUntouched(Refresh(s, m), m.pid, D, i, p);
      case ConsoleFinish(pid) => FinishUntouched(s, pid, D, i, p);
      case _ =>
    }
  }

  lemma ExecOutsideIfAny(s: State, D: set<int>)
    requires Inv(s) && Deadlocked(s, D)
    ensures s.execQ != [] ==> s.execQ[0].pid !in D
  {
    if s.execQ != [] { ExecOutside(s, D); }
  }

  lemma InFullQueue(s: State, D: set<int>, i: nat, p: Pcb)
    requires Inv(s) && Deadlocked(s, D) && i < |s.blocked| && p in s.blocked[i] && p.pid in D
    ensures Full(s, D, i)
  {
    assert Stuck(s, D, p.pid);
    var j :| 0 <= j < |s.blocked| && Waits(s, j, p.pid) && Full(s, D, j);
    var q :| q in s.blocked[j] && q.pid == p.pid;
    OneQueue(s, i, p, j, q);
  }

  lemma FinishUntouched(s: State, pid: int, D: set<int>, i: nat, p: Pcb)
    requires Inv(s) && Deadlocked(s, D) && pid !in D
    requires i < |s.blocked| && p in s.blocked[i] && p.pid in D
    ensures i < |Finish(s, pid).blocked| && p in Finish(s, pid).blocked[i]
  {
    InFullQueue(s, D, i, p);
    if Locate(s, pid) != Nowhere { FinishKeepsMember(s, pid, D, i, p); }
  }

  /** Over whole runs: as long as no member is finished from the console, a deadlock is for ever and its
      members stay where and as they are. */
  lemma {:induction false} DeadlockForever(s: State, es: seq<Event>, t: State, D: set<int>)
    requires Inv(s) && Deadlocked(s, D) && Runs(s, es, t)
    requires forall e :: e in es ==> !(e.ConsoleFinish? && e.pid in D)
    ensures Inv(t) && Deadlocked(t, D)
    ensures |t.blocked| == |s.blocked|
    ensures forall i, p :: 0 <= i < |s.blocked| && p in s.blocked[i] && p.pid in D ==> p in t.blocked[i]
    decreases |es|
  {
    if es == [] {
    } else {
      var m := Next(s, es[0]);
      DeadlockStable(s, es[0], D);
      DeadlockForever(m, es[1..], t, D);
      StepInv(s, es[0]);
      forall i, p | 0 <= i < |s.blocked| && p in s.blocked[i] && p.pid in D ensures p in t.blocked[i] {
        MembersUntouched(s, es[0], D, i, p);
      }
    }
  }

  /** The event that blocks a process: a WAIT on a known resource with nothing available. */
  predicate Blocks(s: State, e: Event)
    requires Sized(s)
  {
    e.CpuWait? &&
    var i := NameIndex(s.cfg.names, e.r);
    i < |s.cfg.names| && s.available[i] <= 0
  }

  /** No other event creates a deadlock, and a blocking one only when the process it blocks is a member. */
  lemma OnlyBlockingCreates(s: State, e: Event, D: set<int>)
    requires Inv(s) && Enabled(s, e) && Safe(s, e) && Deadlocked(Next(s, e), D)
    requires !(Blocks(s, e) && e.p.pid in D)
    ensures Deadlocked(s, D)
  {
    StepInv(s, e);
    match e {
      case Create(path, quantum, socket) => CreateDeadlock(s, path, quantum, socket, D);
      case CpuFinish(p) => RefreshDeadlock(s, p, D); RefreshInv(s, p); FinishMakesNoDeadlock(Refresh(s, p), p.pid, D);
      case CpuWait(p, r) => RefreshDeadlock(s, p, D); WaitMakesNoDeadlock(Refresh(s, p), r, D);
      case CpuSignal(p, r) => RefreshDeadlock(s, p, D); SignalMakesNoDeadlock(Refresh(s, p), r, D);
      case ConsoleFinish(pid) => FinishMakesNoDeadlock(s, pid, D);
      case _ => MoveDeadlock(s, e, D);
    }
  }

  lemma WaitMakesNoDeadlock(s: State, r: Name, D: set<int>)
    requires Inv(s) && s.execQ != [] && Inv(WaitStep(s, r)) && Deadlocked(WaitStep(s, r), D)
    requires NameIndex(s.cfg.names, r) < |s.cfg.names| && s.available[NameIndex(s.cfg.names, r)] <= 0 ==> s.execQ[0].pid !in D
    ensures Deadlocked(s, D)
  {
    var p := s.execQ[0];
    var i := NameIndex(s.cfg.names, r);
    if i == |s.cfg.names| {
      FinishMakesNoDeadlock(s, p.pid, D);
    } else if s.available[i] > 0 {
      assert s.execQ[0 := Granted(p, r)] == [Granted(p, r)];
      ExecChange(s, Granted(p, r), Adjust(s.cfg.names, s.available, r, -1), D);
    } else {
      BlockInv(s, i);
      WasThere(s, BlockStep(s, i), D);
    }
  }

  lemma SignalMakesNoDeadlock(s: State, r: Name, D: set<int>)
    requires Inv(s) && s.execQ != [] && Inv(SignalStep(s, r)) && Deadlocked(SignalStep(s, r), D)
    ensures Deadlocked(s, D)
  {
    var p := s.execQ[0];
    if r !in s.cfg.names || r !in p.resources {
      FinishMakesNoDeadlock(s, p.pid, D);
    } else {
      assert s.execQ[0 := Returned(p, r)] == [Returned(p, r)];
      ExecChange(s, Returned(p, r), Adjust(s.cfg.names, s.available, r, 1), D);
    }
  }

  /** In a deadlock, the resource a member waits for is held by some blocked member. */
  lemma HolderInside(s: State, D: set<int>, k: int, i: nat) returns (j: nat, p: Pcb)
    requires Inv(s) && Deadlocked(s, D) && i < |s.blocked|
    requires Full(s, D, i) && s.cfg.instances[i] >= 1
    ensures j < |s.blocked| && p in s.blocked[j] && p.pid in D && s.cfg.names[i] in p.resources
  {
    var w := HeldIn(D, s.cfg.names[i]);
    if SumAll(w, s.blocked) > 0 {
      j, p := ContributorAll(w, s.blocked);
    } else {
      if Sum(w, s.newQ) > 0 { p := Contributor(w, s.newQ); }
      else if Sum(w, s.readyQ) > 0 { p := Contributor(w, s.readyQ); }
      else if Sum(w, s.execQ) > 0 { p := Contributor(w, s.execQ); }
      else { p := Contributor(w, s.sleeping); }
      var i', p' := StuckIsBlocked(s, D, p.pid);
      BlockedOnly(s, i', p', p);
      assert false;
    }
  }

  /** The check of any member of a deadlock reports, and names a member that holds what it waits for. */
  lemma MemberIsReported(s: State, D: set<int>, k: int)
    requires Inv(s) && GoodConfig(s.cfg) && Deadlocked(s, D) && k in D
    ensures BlockedIndex(s.blocked, k) < |s.blocked|
    ensures exists p :: p in Report(s, k) && p.pid in D
  {
    assert Stuck(s, D, k);
    var i :| 0 <= i < |s.blocked| && Waits(s, i, k) && Full(s, D, i);
    var x :| x in s.blocked[i] && x.pid == k;
    assert HasPid(s.blocked[i], k);
    var f := BlockedIndex(s.blocked, k);
    OneQueue(s, i, x, f, s.blocked[f][PidIndex(s.blocked[f], k)]);
    var j, p := HolderInside(s, D, k, i);
    AllHoldersMember(s.blocked, Required(s, k), p);
    assert p in Report(s, k);
  }

  /** The event blocks a member of D, and the check it ends with reports that member against one in D. */
  ghost predicate Reports(s: State, e: Event, D: set<int>)
    requires Enabled(s, e) && Safe(s, e)
  {
    && Blocks(s, e) && e.p.pid in D
    && Sized(Next(s, e)) && BlockedIndex(Next(s, e).blocked, e.p.pid) < |Next(s, e).blocked|
    && exists p :: p in Report(Next(s, e), e.p.pid) && p.pid in D
  }

  /** Main result: a deadlock can only come into being when a WAIT blocks one of its members, and the
      check made right after that step reports the newly blocked process against a member that holds what it
      waits for. */
  lemma NoMissedDeadlock(s: State, e: Event, D: set<int>)
    requires Inv(s) && GoodConfig(s.cfg) && Enabled(s, e) && Safe(s, e)
    requires !Deadlocked(s, D) && Deadlocked(Next(s, e), D)
    ensures Reports(s, e, D)
  {
    StepInv(s, e);
    if !(Blocks(s, e) && e.p.pid in D) {
      OnlyBlockingCreates(s, e, D);
      assert false;
    }
    MemberIsReported(Next(s, e), D, e.p.pid);
  }

  /** Somewhere along the run D comes into being in a reported step, and from there on it stays. */
  ghost predicate ReportedIn(s: State, es: seq<Event>, D: set<int>)
    decreases |es|
  {
    && es != [] && Enabled(s, es[0]) && Safe(s, es[0])
    && ((Reports(s, es[0], D) && !Deadlocked(s, D) && StaysDeadlocked(Next(s, es[0]), es[1..], D))
        || ReportedIn(Next(s, es[0]), es[1..], D))
  }

  ghost predicate StaysDeadlocked(s: State, es: seq<Event>, D: set<int>)
    decreases |es|
  {
    && Deadlocked(s, D)
    && (es != [] && Enabled(s, es[0]) && Safe(s, es[0]) ==> StaysDeadlocked(Next(s, es[0]), es[1..], D))
  }

  /** Main result over whole runs: whatever deadlock a run ends in was reported on the way, in the step that brought
      it about for the last time. */
  lemma {:induction false} NoDeadlockGoesUnreported(s: State, es: seq<Event>, t: State, D: set<int>)
    requires Inv(s) && GoodConfig(s.cfg) && Runs(s, es, t) && Deadlocked(t, D)
    ensures StaysDeadlocked(s, es, D) || ReportedIn(s, es, D)
    decreases |es|
  {
    hide Inv, GoodConfig, Deadlocked, Report, Blocks;
    if es == [] {
    } else {
      StepInv(s, es[0]);
      NoDeadlockGoesUnreported(Next(s, es[0]), es[1..], t, D);
      if !Deadlocked(s, D) && Deadlocked(Next(s, es[0]), D) { NoMissedDeadlock(s, es[0], D); }
      if !Deadlocked(Next(s, es[0]), D) { assert !StaysDeadlocked(Next(s, es[0]), es[1..], D); }
    }
  }

  /** From start-up there is no other way to a deadlock. */
  lemma EveryDeadlockReported(cfg: Config, firstId: int, es: seq<Event>, t: State, D: set<int>)
    requires GoodConfig(cfg) && Runs(Init(cfg, firstId), es, t) && Deadlocked(t, D)
    ensures ReportedIn(Init(cfg, firstId), es, D)
  {
    var s := Init(cfg, firstId);
    InitInv(cfg, firstId);
    NoDeadlockGoesUnreported(s, es, t, D);
    forall k | Deadlocked(s, D) ensures k !in D {
      if k in D { var i, p := StuckIsBlocked(s, D, k); }
    }
    assert Deadlocked(s, D) ==> D == {};
  }

  /** In general the check reports a process exactly when it is blocked and holds an instance of the required
      resource, so it stays silent exactly when no blocked process holds one. */
  lemma ReportsExactly(s: State, pid: int)
    requires Sized(s) && BlockedIndex(s.blocked, pid) < |s.blocked|
    ensures forall p :: p in Report(s, pid) <==>
      Required(s, pid) in p.resources && exists i :: 0 <= i < |s.blocked| && p in s.blocked[i]
  {
    forall p
      ensures p in Report(s, pid) <==>
        Required(s, pid) in p.resources && exists i :: 0 <= i < |s.blocked| && p in s.blocked[i]
    {
      AllHoldersMember(s.blocked, Required(s, pid), p);
    }
  }
}
