/** Every coarse step keeps the kernel invariant, so it holds in every reachable state. */
module KernelInvariant {
  import opened Collections
  import opened Process
  import opened Accounting
  import opened WakeScan
  import opened KernelSpec

  // ---------- Resource lists ----------

  lemma NameIndexOf(names: seq<Name>, i: nat)
    requires Distinct(names) && i < |names|
    ensures NameIndex(names, names[i]) == i
  {
    assert NameIndex(names, names[i]) <= i;
  }

  /** Releasing gives every resource back exactly as many instances as the list names it. */
  lemma {:induction false} ReleaseCounts(names: seq<Name>, available: seq<int>, held: seq<Name>, i: nat)
    requires Distinct(names) && |names| == |available| && i < |names|
    ensures Release(names, available, held)[i] == available[i] + multiset(held)[names[i]]
    decreases |held|
  {
    if held == [] {
    } else {
      ReleaseCounts(names, Adjust(names, available, held[0], 1), held[1..], i);
      assert held == [held[0]] + held[1..];
      if held[0] == names[i] { NameIndexOf(names, i); }
    }
  }

  lemma DropFirstCounts(held: seq<Name>, r: Name, n: Name)
    requires r in held
    ensures multiset(DropFirst(held, r))[n] == multiset(held)[n] - if n == r then 1 else 0
  {
    var i := NameIndex(held, r);
    assert held == held[..i] + [held[i]] + held[i + 1..];
  }

  // ---------- Waking ----------

  /** What a wake scan leaves alone, and what it keeps in step. */
  ghost predicate WakeFrame(s: State, t: State) {
    && t == s.(readyQ := t.readyQ, blocked := t.blocked, semBlocked := t.semBlocked, semReady := t.semReady)
    && |t.blocked| == |s.blocked|
    && |t.readyQ| - t.semReady == |s.readyQ| - s.semReady
    && SumAll(One, t.blocked) - t.semBlocked == SumAll(One, s.blocked) - s.semBlocked
    && (AllTagged(s.readyQ, Ready) ==> AllTagged(t.readyQ, Ready))
    && (forall j, p :: 0 <= j < |s.blocked| && p in t.blocked[j] ==> p in s.blocked[j])
    && (forall j :: 0 <= j < |s.blocked| == |s.available| && s.available[j] <= 0 ==> t.blocked[j] == s.blocked[j])
  }

  lemma WakeOneFrame(s: State, i: nat)
    requires i < |s.blocked| == |s.available|
    ensures WakeFrame(s, WakeOne(s, i))
  {
    if s.available[i] > 0 {
      var q, k := s.blocked[i], s.available[i];
      PassMembers(q, k);
      PassSum(One, q, k);
      SumOne(q);
      SumOne(Woken(q, k));
      SumOne(Waiting(q, k));
      SumAllUpdate(One, s.blocked, i, Waiting(q, k));
    }
  }

  lemma {:induction false} WakeFromFrame(s: State, i: nat)
    requires i <= |s.blocked| == |s.available|
    ensures WakeFrame(s, WakeFrom(s, i))
    decreases |s.blocked| - i
  {
    if i == |s.blocked| {
    } else {
      var m := WakeOne(s, i);
      WakeOneFrame(s, i);
      WakeFromFrame(m, i + 1);
      var t := WakeFrom(m, i + 1);
      forall j, p | 0 <= j < |s.blocked| && p in t.blocked[j] ensures p in s.blocked[j] {
        assert p in m.blocked[j];
      }
    }
  }

  lemma WakeOneTotal(w: Weight, s: State, i: nat)
    requires i < |s.blocked| == |s.available|
    ensures Total(w, WakeOne(s, i)) == Total(w, s)
  {
    if s.available[i] > 0 {
      var q, k := s.blocked[i], s.available[i];
      PassSum(w, q, k);
      SumTagAll(w, Woken(q, k), Ready);
      SumConcat(w, s.readyQ, TagAll(Woken(q, k), Ready));
      SumAllUpdate(w, s.blocked, i, Waiting(q, k));
    }
  }

  lemma {:induction false} WakeFromTotal(w: Weight, s: State, i: nat)
    requires i <= |s.blocked| == |s.available|
    ensures Total(w, WakeFrom(s, i)) == Total(w, s)
    decreases |s.blocked| - i
  {
    if i == |s.blocked| {
    } else {
      WakeOneTotal(w, s, i);
      WakeFromTotal(w, WakeOne(s, i), i + 1);
    }
  }

  // ---------- Finishing ----------

  /** The process finish_process finds. */
  function Found(s: State, pid: int): (p: Pcb)
    requires Locate(s, pid) != Nowhere
    ensures p.pid == pid
  {
    QueueAt(s, Locate(s, pid))[PidIndex(QueueAt(s, Locate(s, pid)), pid)]
  }

  /** The state after the found process left its queue and gave back what it held. */
  function Extracted(s: State, pid: int): State
    requires Sized(s) && Locate(s, pid) != Nowhere
  {
    Extract(s, Locate(s, pid), PidIndex(QueueAt(s, Locate(s, pid)), pid))
  }

  /** Waking moves processes between the blocked queues and ready, and touches nothing else. */
  lemma WakeFields(x: State)
    requires Sized(x)
    ensures var k := WakeFrom(x, 0);
      k.cfg == x.cfg && k.available == x.available && k.newQ == x.newQ && k.execQ == x.execQ
      && k.sleeping == x.sleeping && k.nextId == x.nextId && |k.blocked| == |x.blocked|
  {
    hide WakeFrom, SumAll, Sum;
    WakeFromFrame(x, 0);
  }

  /** Finishing seen field by field. */
  lemma FinishFields(s: State, pid: int)
    requires Sized(s) && Locate(s, pid) != Nowhere
    ensures var x := Extracted(s, pid); var t := Finish(s, pid);
      && Sized(x) && Sized(t)
      && t.blocked == WakeFrom(x, 0).blocked && t.readyQ == WakeFrom(x, 0).readyQ && t.available == x.available
      && t.cfg == s.cfg && t.newQ == x.newQ && t.execQ == x.execQ && t.sleeping == s.sleeping && t.nextId == s.nextId
  {
    hide WakeFrom, PidIndex, BlockedIndex, Release, SumAll, Sum;
    WakeFields(Extracted(s, pid));
  }

  lemma ExtractTotal(w: Weight, s: State, pl: Place, i: nat)
    requires Sized(s) && ValidPlace(s, pl) && i < |QueueAt(s, pl)|
    ensures Total(w, Extract(s, pl, i)) + W(w, QueueAt(s, pl)[i]) == Total(w, s)
  {
    var q := QueueAt(s, pl);
    SumRemove(w, q, i);
    if pl.InBlocked? { SumAllUpdate(w, s.blocked, pl.index, Remove(q, i)); }
  }

  /** Finishing removes exactly the found process from every account. */
  lemma FinishTotal(w: Weight, s: State, pid: int)
    requires Sized(s) && Locate(s, pid) != Nowhere
    ensures Total(w, Finish(s, pid)) + W(w, Found(s, pid)) == Total(w, s)
  {
    hide WakeFrom, PidIndex, BlockedIndex, Release, SumAll, Sum;
    var pl := Locate(s, pid);
    var i := PidIndex(QueueAt(s, pl), pid);
    ExtractTotal(w, s, pl, i);
    WakeFromTotal(w, Extract(s, pl, i), 0);
  }

  /** And gives back exactly the instances it held. */
  lemma FinishAvailable(s: State, pid: int, i: nat)
    requires Sized(s) && Distinct(s.cfg.names) && Locate(s, pid) != Nowhere && i < |s.cfg.names|
    ensures |Finish(s, pid).available| == |s.available|
    ensures Finish(s, pid).available[i] == s.available[i] + W(Held(s.cfg.names[i]), Found(s, pid))
  {
    hide WakeFrom, PidIndex, BlockedIndex, SumAll, Sum;
    var pl := Locate(s, pid);
    WakeFromFrame(Extract(s, pl, PidIndex(QueueAt(s, pl), pid)), 0);
    ReleaseCounts(s.cfg.names, s.available, Found(s, pid).resources, i);
  }

  /** The tag finish_process reads names the queue it found the process in, so it settles the right semaphores. */
  lemma FoundTag(s: State, pid: int)
    requires TagsMatch(s) && Locate(s, pid) != Nowhere
    ensures Found(s, pid).state == match Locate(s, pid)
                                   case InNew => New
                                   case InReady => Ready
                                   case InExec => Execution
                                   case _ => Blocked
  {
    assert Found(s, pid) in QueueAt(s, Locate(s, pid));
  }

  lemma ExtractFrame(s: State, pl: Place, i: nat)
    requires Sized(s) && TagsMatch(s) && ValidPlace(s, pl) && i < |QueueAt(s, pl)|
    ensures var x := Extract(s, pl, i);
      && TagsMatch(x) && Sized(x)
      && |x.newQ| == |s.newQ| - (if pl.InNew? then 1 else 0)
      && |x.readyQ| == |s.readyQ| - (if pl.InReady? then 1 else 0)
      && |x.execQ| == |s.execQ| - (if pl.InExec? then 1 else 0)
      && SumAll(One, x.blocked) == SumAll(One, s.blocked) - (if pl.InBlocked? then 1 else 0)
  {
    var x := Extract(s, pl, i);
    if pl.InBlocked? {
      SumAllUpdate(One, s.blocked, pl.index, x.blocked[pl.index]);
      SumRemove(One, s.blocked[pl.index], i);
    }
    forall j | 0 <= j < |x.blocked| ensures AllTagged(x.blocked[j], Blocked) {
      assert AllTagged(s.blocked[j], Blocked);
    }
  }

  lemma WakeTags(s: State)
    requires Sized(s) && TagsMatch(s)
    ensures TagsMatch(WakeFrom(s, 0))
  {
    WakeFromFrame(s, 0);
    forall j | 0 <= j < |s.blocked| ensures AllTagged(WakeFrom(s, 0).blocked[j], Blocked) {
      assert AllTagged(s.blocked[j], Blocked);
    }
  }

  lemma FinishSemaphores(s: State, pid: int)
    requires Sized(s) && TagsMatch(s) && SemaphoresMatch(s) && Locate(s, pid) != Nowhere
    ensures SemaphoresMatch(Finish(s, pid)) && TagsMatch(Finish(s, pid))
    ensures Sized(Finish(s, pid)) && Finish(s, pid).cfg == s.cfg && Finish(s, pid).nextId == s.nextId
  {
    var pl := Locate(s, pid);
    var i := PidIndex(QueueAt(s, pl), pid);
    var x := Extract(s, pl, i);
    ExtractFrame(s, pl, i);
    FoundTag(s, pid);
    WakeTags(x);
    WakeFromFrame(x, 0);
    FinishTotal(One, s, pid);
    assert W(One, Found(s, pid)) == 1;
  }

  lemma FinishInv(s: State, pid: int)
    requires Inv(s)
    ensures Inv(Finish(s, pid))
  {
    if Locate(s, pid) != Nowhere {
      FinishSemaphores(s, pid);
      var t := Finish(s, pid);
      forall k ensures Total(Pid(k), t) <= Total(Pid(k), s) { FinishTotal(Pid(k), s, pid); }
      forall i | 0 <= i < |s.cfg.names|
        ensures t.available[i] >= 0 && t.available[i] + Total(Held(s.cfg.names[i]), t) == s.cfg.instances[i]
      {
        FinishAvailable(s, pid, i);
        FinishTotal(Held(s.cfg.names[i]), s, pid);
      }
    }
  }

  // ---------- Moves ----------

  lemma LoneExec(s: State)
    requires SemaphoresMatch(s) && s.execQ != []
    ensures s.execQ == [s.execQ[0]]
  {}

  /** A step that keeps every account keeps uniqueness and conservation. */
  lemma MoveInv(s: State, t: State)
    requires Inv(s) && t.cfg == s.cfg && t.available == s.available && t.nextId == s.nextId
    requires Sized(t) && TagsMatch(t) && SemaphoresMatch(t)
    requires forall w :: Total(w, t) == Total(w, s)
    ensures Inv(t)
  {}

  lemma CreateInv(s: State, path: Name, quantum: int, socket: int)
    requires Inv(s)
    ensures Inv(CreateStep(s, path, quantum, socket))
    ensures var t := CreateStep(s, path, quantum, socket);
      forall w :: Total(w, t) == Total(w, s) + W(w, t.newQ[|s.newQ|])
  {
    var t := CreateStep(s, path, quantum, socket);
    var p := t.newQ[|s.newQ|];
    forall w ensures Total(w, t) == Total(w, s) + W(w, p) { SumPush(w, s.newQ, p); }
    forall k ensures Total(Pid(k), t) <= 1 && (Total(Pid(k), t) > 0 ==> k < t.nextId) {
      assert Total(Pid(k), t) == Total(Pid(k), s) + W(Pid(k), p);
    }
    forall i | 0 <= i < |s.cfg.names| ensures Total(Held(s.cfg.names[i]), t) == Total(Held(s.cfg.names[i]), s) {
      assert W(Held(s.cfg.names[i]), p) == 0;
    }
    assert W(One, p) == 1;
  }

  lemma LongTermInv(s: State)
    requires Inv(s) && Enabled(s, LongTerm)
    ensures Inv(LongTermStep(s))
    ensures forall w :: Total(w, LongTermStep(s)) == Total(w, s)
  {
    var t := LongTermStep(s);
    forall w ensures Total(w, t) == Total(w, s) { SumPush(w, s.readyQ, Tagged(s.newQ[0], Ready)); }
    assert Total(One, t) == Total(One, s);
    MoveInv(s, t);
  }

  lemma ShortTermInv(s: State)
    requires Inv(s) && Enabled(s, ShortTerm)
    ensures Inv(ShortTermStep(s))
    ensures forall w :: Total(w, ShortTermStep(s)) == Total(w, s)
  {
    var t := ShortTermStep(s);
    forall w ensures Total(w, t) == Total(w, s) { SumPush(w, s.execQ, Tagged(s.readyQ[0], Execution)); }
    assert Total(One, t) == Total(One, s);
    MoveInv(s, t);
  }

  lemma RefreshInv(s: State, p: Pcb)
    requires Inv(s) && FromCpu(s, p)
    ensures Inv(Refresh(s, p)) && Refresh(s, p).execQ == [p]
    ensures forall w :: Total(w, Refresh(s, p)) == Total(w, s)
  {
    var t := Refresh(s, p);
    forall w ensures Total(w, t) == Total(w, s) {
      assert W(w, p) == W(w, s.execQ[0]);
      ExecSwapTotal(w, s, p);
    }
    assert Total(One, t) == Total(One, s);
    MoveInv(s, t);
  }

  lemma InterruptInv(s: State)
    requires Inv(s) && s.execQ != []
    ensures Inv(InterruptStep(s))
    ensures forall w :: Total(w, InterruptStep(s)) == Total(w, s)
  {
    var t := InterruptStep(s);
    forall w ensures Total(w, t) == Total(w, s) { SumPush(w, s.readyQ, Tagged(s.execQ[0], Ready)); }
    assert Total(One, t) == Total(One, s);
    MoveInv(s, t);
  }

  lemma BlockTotal(w: Weight, s: State, i: nat)
    requires s.execQ != [] && i < |s.blocked|
    ensures Total(w, BlockStep(s, i)) == Total(w, s)
  {
    var b := s.blocked[i] + [Tagged(s.execQ[0], Blocked)];
    SumPush(w, s.blocked[i], Tagged(s.execQ[0], Blocked));
    SumAllUpdate(w, s.blocked, i, b);
  }

  lemma BlockInv(s: State, i: nat)
    requires Inv(s) && s.execQ != [] && i < |s.blocked|
    ensures Inv(BlockStep(s, i))
    ensures forall w :: Total(w, BlockStep(s, i)) == Total(w, s)
  {
    var t := BlockStep(s, i);
    forall w ensures Total(w, t) == Total(w, s) { BlockTotal(w, s, i); }
    assert Total(One, t) == Total(One, s);
    SumPush(One, s.blocked[i], Tagged(s.execQ[0], Blocked));
    SumAllUpdate(One, s.blocked, i, t.blocked[i]);
    forall j | 0 <= j < |t.blocked| ensures AllTagged(t.blocked[j], Blocked) {
      assert AllTagged(s.blocked[j], Blocked);
    }
    MoveInv(s, t);
  }

  lemma SleepInv(s: State)
    requires Inv(s) && s.execQ != []
    ensures Inv(SleepStep(s))
    ensures forall w :: Total(w, SleepStep(s)) == Total(w, s)
  {
    var t := SleepStep(s);
    forall w ensures Total(w, t) == Total(w, s) { SumPush(w, s.sleeping, s.execQ[0]); }
    assert Total(One, t) == Total(One, s);
    MoveInv(s, t);
  }

  lemma SleepOverInv(s: State, i: nat)
    requires Inv(s) && i < |s.sleeping|
    ensures Inv(SleepOverStep(s, i))
    ensures forall w :: Total(w, SleepOverStep(s, i)) == Total(w, s)
  {
    var t := SleepOverStep(s, i);
    forall w ensures Total(w, t) == Total(w, s) {
      SumRemove(w, s.sleeping, i);
      SumPush(w, s.readyQ, Awake(s.sleeping[i]));
    }
    assert Total(One, t) == Total(One, s);
    MoveInv(s, t);
  }

  /** Replacing the executing entry by one with other resources changes the accounts by the difference. */
  lemma ExecSwapTotal(w: Weight, s: State, p: Pcb)
    requires |s.execQ| == 1
    ensures Total(w, s.(execQ := [p])) + W(w, s.execQ[0]) == Total(w, s) + W(w, p)
  {
    assert s.execQ == [s.execQ[0]];
    assert Sum(w, s.execQ) == W(w, s.execQ[0]) + Sum(w, s.execQ[1..]);
    assert Sum(w, [p]) == W(w, p) + Sum(w, [p][1..]);
  }

  /** Swapping in a record that holds one more (or one fewer) `r` while `r` loses (gains) an available instance. */
  lemma TransferInv(s: State, p: Pcb, r: Name, delta: int)
    requires Inv(s) && |s.execQ| == 1
    requires p.pid == s.execQ[0].pid && p.state == Execution
    requires NameIndex(s.cfg.names, r) < |s.cfg.names|
    requires s.available[NameIndex(s.cfg.names, r)] + delta >= 0
    requires forall n :: multiset(p.resources)[n] == multiset(s.execQ[0].resources)[n] - if n == r then delta else 0
    ensures Inv(s.(execQ := [p], available := Adjust(s.cfg.names, s.available, r, delta)))
  {
    var t := s.(execQ := [p], available := Adjust(s.cfg.names, s.available, r, delta));
    forall w ensures Total(w, t) + W(w, s.execQ[0]) == Total(w, s) + W(w, p) { ExecSwapTotal(w, s, p); }
    assert Total(One, t) + W(One, s.execQ[0]) == Total(One, s) + W(One, p);
    forall k ensures Total(Pid(k), t) == Total(Pid(k), s) {
      assert Total(Pid(k), t) + W(Pid(k), s.execQ[0]) == Total(Pid(k), s) + W(Pid(k), p);
    }
    forall i | 0 <= i < |s.cfg.names|
      ensures t.available[i] >= 0 && t.available[i] + Total(Held(s.cfg.names[i]), t) == s.cfg.instances[i]
    {
      var w := Held(s.cfg.names[i]);
      assert Total(w, t) + W(w, s.execQ[0]) == Total(w, s) + W(w, p);
      if s.cfg.names[i] == r { NameIndexOf(s.cfg.names, i); }
    }
  }

  lemma WaitInv(s: State, r: Name)
    requires Inv(s) && s.execQ != []
    ensures Inv(WaitStep(s, r)) && WaitStep(s, r).cfg == s.cfg
  {
    var p := s.execQ[0];
    var i := NameIndex(s.cfg.names, r);
    if i == |s.cfg.names| {
      FinishInv(s, p.pid);
      FinishCfg(s, p.pid);
    } else if s.available[i] > 0 {
      assert s.execQ[0 := Granted(p, r)] == [Granted(p, r)];
      TransferInv(s, Granted(p, r), r, -1);
    } else {
      BlockInv(s, i);
    }
  }

  lemma SignalInv(s: State, r: Name)
    requires Inv(s) && s.execQ != []
    ensures Inv(SignalStep(s, r)) && SignalStep(s, r).cfg == s.cfg
  {
    var p := s.execQ[0];
    if r !in s.cfg.names || r !in p.resources {
      FinishInv(s, p.pid);
      FinishCfg(s, p.pid);
    } else {
      assert s.execQ[0 := Returned(p, r)] == [Returned(p, r)];
      forall n ensures multiset(Returned(p, r).resources)[n] == multiset(p.resources)[n] - if n == r then 1 else 0 {
        DropFirstCounts(p.resources, r, n);
      }
      TransferInv(s, Returned(p, r), r, 1);
    }
  }

  // ---------- Who is there ----------

  /** The process an event finishes, when finish_process finds one: a sleeping process is in no queue it searches. */
  function Ended(s: State, e: Event): Option<int> {
    match e
    case CpuFinish(p) => Some(p.pid)
    case CpuWait(p, r) => if r in s.cfg.names then None else Some(p.pid)
    case CpuSignal(p, r) => if r in s.cfg.names && r in p.resources then None else Some(p.pid)
    case ConsoleFinish(pid) => if Locate(s, pid) == Nowhere then None else Some(pid)
    case _ => None
  }

  /** Every process of `live` is in exactly one queue or asleep, once, and nobody else is anywhere. */
  ghost predicate OnePlace(s: State, live: set<int>) {
    forall k :: Total(Pid(k), s) == if k in live then 1 else 0
  }

  function LiveAfter(s: State, e: Event, live: set<int>): set<int> {
    var there := if e.Create? then live + {s.nextId} else live;
    if Ended(s, e).Some? then there - {Ended(s, e).value} else there
  }

  /** Only the queues are summed. */
  lemma TotalOfQueues(w: Weight, s: State, t: State)
    requires t.newQ == s.newQ && t.readyQ == s.readyQ && t.execQ == s.execQ && t.blocked == s.blocked && t.sleeping == s.sleeping
    ensures Total(w, t) == Total(w, s)
  {}

  /** Weights that do not look at what a process holds. */
  predicate Lasting(w: Weight) { w.One? || w.Pid? || w.Stray? }

  /** The state a handler starts from: the message's PCB is authoritative. */
  function Received(s: State, e: Event): State {
    match e
    case CpuFinish(p) => Refresh(s, p)
    case CpuWait(p, _) => Refresh(s, p)
    case CpuSignal(p, _) => Refresh(s, p)
    case _ => s
  }

  /** What an event adds to an account, and what it takes away. */
  function Gain(w: Weight, s: State, e: Event): nat {
    if e.Create? then W(w, CreateStep(s, e.path, e.quantum, e.socket).newQ[|s.newQ|]) else 0
  }

  function Loss(w: Weight, s: State, e: Event): nat
    requires Ended(s, e).Some? ==> Locate(Received(s, e), Ended(s, e).value) != Nowhere
  {
    if Ended(s, e).Some? then W(w, Found(Received(s, e), Ended(s, e).value)) else 0
  }

  /** A request of the executing process, finishing it when the request is not valid. */
  lemma RequestTotal(w: Weight, s: State, r: Name)
    requires Inv(s) && s.execQ != [] && Lasting(w)
    ensures Locate(s, s.execQ[0].pid) != Nowhere
    ensures var lost := W(w, Found(s, s.execQ[0].pid));
      && Total(w, WaitStep(s, r)) + (if r in s.cfg.names then 0 else lost) == Total(w, s)
      && Total(w, SignalStep(s, r)) + (if r in s.cfg.names && r in s.execQ[0].resources then 0 else lost) == Total(w, s)
  {
    hide Finish, Release, Total, Adjust, TagsMatch, Conserved;
    var p := s.execQ[0];
    var i := NameIndex(s.cfg.names, r);
    LoneExec(s);
    LocateExec(s);
    forall q: Pcb, a | W(w, q) == W(w, p)
      ensures Total(w, s.(execQ := [q], available := a)) == Total(w, s)
    {
      ExecSwapTotal(w, s, q);
      TotalOfQueues(w, s.(execQ := [q]), s.(execQ := [q], available := a));
    }
    assert s.execQ[0 := Granted(p, r)] == [Granted(p, r)] && s.execQ[0 := Returned(p, r)] == [Returned(p, r)];
    FinishTotal(w, s, p.pid);
    if i < |s.cfg.names| { BlockTotal(w, s, i); }
  }

  /** The account of every handler: only a created process is added, only a finished one is taken away. */
  lemma StepTotal(w: Weight, s: State, e: Event)
    requires Inv(s) && Enabled(s, e) && Safe(s, e) && Lasting(w)
    ensures Ended(s, e).Some? ==> Locate(Received(s, e), Ended(s, e).value) != Nowhere
    ensures Total(w, Next(s, e)) + Loss(w, s, e) == Total(w, s) + Gain(w, s, e)
  {
    hide Total, TagsMatch, PidsUnique, Conserved, Finish, WaitStep, SignalStep, Locate;
    match e
    case Create(path, quantum, socket) => CreateInv(s, path, quantum, socket);
    case LongTerm => LongTermInv(s);
    case ShortTerm => ShortTermInv(s);
    case CpuFinish(p) => RefreshInv(s, p); LocateExec(Refresh(s, p)); FinishTotal(w, Refresh(s, p), p.pid);
    case CpuInterrupt(p) => RefreshInv(s, p); InterruptInv(Refresh(s, p));
    case CpuWait(p, r) => RefreshInv(s, p); RequestTotal(w, Refresh(s, p), r);
    case CpuSignal(p, r) => RefreshInv(s, p); RequestTotal(w, Refresh(s, p), r);
    case CpuSleep(p) => RefreshInv(s, p); SleepInv(Refresh(s, p));
    case SleepOver(i) => SleepOverInv(s, i);
    case ConsoleFinish(pid) => ConsoleTotal(w, s, pid);
  }

  lemma ConsoleTotal(w: Weight, s: State, pid: int)
    requires Sized(s)
    ensures Total(w, Finish(s, pid)) + (if Locate(s, pid) == Nowhere then 0 else W(w, Found(s, pid))) == Total(w, s)
  {
    hide Total, Locate, WakeFrom, Extract, Settle;
    if Locate(s, pid) != Nowhere { FinishTotal(w, s, pid); }
  }

  /** No handler loses a process, brings one back, or puts one in two places. */
  lemma StepPlaces(s: State, e: Event, live: set<int>)
    requires Inv(s) && Enabled(s, e) && Safe(s, e) && OnePlace(s, live)
    ensures OnePlace(Next(s, e), LiveAfter(s, e, live))
  {
    hide Total, TagsMatch, Conserved, SemaphoresMatch, Next, Locate, Received;
    forall k ensures Total(Pid(k), Next(s, e)) == if k in LiveAfter(s, e, live) then 1 else 0 {
      StepTotal(Pid(k), s, e);
      assert e.Create? ==> Total(Pid(s.nextId), s) == 0;
      if Ended(s, e).Some? { StepTotal(Pid(Ended(s, e).value), s, e); }
    }
  }

  /** finish_process finds an executing process in exec. */
  lemma LocateExec(s: State)
    requires PidsUnique(s) && s.execQ != []
    ensures Locate(s, s.execQ[0].pid) == InExec
  {
    var p := s.execQ[0];
    var w := Pid(p.pid);
    MemberBelow(w, s.execQ, p);
    assert Total(w, s) <= 1;
    assert HasPid(s.execQ, p.pid);
    if HasPid(s.newQ, p.pid) { MemberBelow(w, s.newQ, s.newQ[PidIndex(s.newQ, p.pid)]); }
    if HasPid(s.readyQ, p.pid) { MemberBelow(w, s.readyQ, s.readyQ[PidIndex(s.readyQ, p.pid)]); }
  }

  /** Main result: no handler, in any order, breaks the invariant, and no handler loses a process. */
  lemma StepInv(s: State, e: Event)
    requires Inv(s) && Enabled(s, e)
    ensures Safe(s, e)
    ensures Inv(Next(s, e)) && Next(s, e).cfg == s.cfg
    ensures forall live :: OnePlace(s, live) ==> OnePlace(Next(s, e), LiveAfter(s, e, live))
  {
    HandlerInv(s, e);
    forall live | OnePlace(s, live) ensures OnePlace(Next(s, e), LiveAfter(s, e, live)) { StepPlaces(s, e, live); }
  }

  lemma HandlerInv(s: State, e: Event)
    requires Inv(s) && Enabled(s, e)
    ensures Safe(s, e)
    ensures Inv(Next(s, e)) && Next(s, e).cfg == s.cfg
  {
    hide Total, TagsMatch, PidsUnique, Conserved, Finish, WaitStep, SignalStep;
    match e
    case Create(path, quantum, socket) => CreateInv(s, path, quantum, socket);
    case LongTerm => LongTermInv(s);
    case ShortTerm => ShortTermInv(s);
    case CpuFinish(p) => RefreshInv(s, p); FinishInv(Refresh(s, p), p.pid); FinishCfg(Refresh(s, p), p.pid);
    case CpuInterrupt(p) => RefreshInv(s, p); InterruptInv(Refresh(s, p));
    case CpuWait(p, r) => RefreshInv(s, p); WaitInv(Refresh(s, p), r);
    case CpuSignal(p, r) => RefreshInv(s, p); SignalInv(Refresh(s, p), r);
    case CpuSleep(p) => RefreshInv(s, p); SleepInv(Refresh(s, p));
    case SleepOver(i) => SleepOverInv(s, i);
    case ConsoleFinish(pid) => FinishInv(s, pid); FinishCfg(s, pid);
  }

  lemma FinishCfg(s: State, pid: int)
    requires Inv(s)
    ensures Finish(s, pid).cfg == s.cfg
  {
    if Locate(s, pid) != Nowhere { FinishSemaphores(s, pid); }
  }

  // ---------- Whole runs ----------

  /** Some execution of the events from `s`, each when its semaphores let it through, ends in `t`.
      An unsafe step (popping an empty queue) may end anywhere, so what holds of every `t` includes
      that no step is unsafe. */
  ghost predicate Runs(s: State, es: seq<Event>, t: State)
    decreases |es|
  {
    if es == [] then t == s
    else Enabled(s, es[0]) && (Safe(s, es[0]) ==> Runs(Next(s, es[0]), es[1..], t))
  }

  ghost predicate Reaches(s: State, t: State) { exists es :: Runs(s, es, t) }

  lemma {:induction false} RunsOn(s: State, es: seq<Event>, t: State, e: Event)
    requires Runs(s, es, t) && Enabled(t, e) && Safe(t, e)
    ensures Runs(s, es + [e], Next(t, e))
    decreases |es|
  {
    hide Next, Enabled, Safe;
    if es == [] {
      assert ([] + [e])[1..] == [];
    } else {
      assert (es + [e])[1..] == es[1..] + [e];
      if Safe(s, es[0]) { RunsOn(Next(s, es[0]), es[1..], t, e); }
    }
  }

  lemma OneMore(s: State, t: State, e: Event)
    requires Reaches(s, t) && Enabled(t, e) && Safe(t, e)
    ensures Reaches(s, Next(t, e))
  {
    var es :| Runs(s, es, t);
    RunsOn(s, es, t, e);
  }

  predicate GoodConfig(cfg: Config) {
    |cfg.names| == |cfg.instances| && Distinct(cfg.names) && cfg.degree >= 0
    && forall i :: 0 <= i < |cfg.instances| ==> cfg.instances[i] >= 1
  }

  lemma {:induction false} SumAllEmpty(w: Weight, n: nat)
    ensures SumAll(w, seq(n, i => [])) == 0
  {
    if n == 0 {
    } else {
      SumAllEmpty(w, n - 1);
      var qs: seq<seq<Pcb>> := seq(n, i => []);
      assert qs[1..] == seq(n - 1, i => []);
    }
  }

  lemma InitTotal(w: Weight, cfg: Config, firstId: int)
    ensures Total(w, Init(cfg, firstId)) == 0
  {
    SumAllEmpty(w, |cfg.names|);
  }

  lemma InitInv(cfg: Config, firstId: int)
    requires GoodConfig(cfg)
    ensures Inv(Init(cfg, firstId)) && OnePlace(Init(cfg, firstId), {})
  {
    forall w ensures Total(w, Init(cfg, firstId)) == 0 { InitTotal(w, cfg, firstId); }
    assert Total(One, Init(cfg, firstId)) == 0;
    SumAllEmpty(One, |cfg.names|);
  }

  /** The processes that are left of `live` after a run, with those it created. */
  function LiveAtEnd(s: State, es: seq<Event>, live: set<int>): set<int>
    decreases |es|
  {
    if es == [] || !Enabled(s, es[0]) || !Safe(s, es[0]) then live
    else LiveAtEnd(Next(s, es[0]), es[1..], LiveAfter(s, es[0], live))
  }

  /** Main result for whole runs: the invariant holds in every state any schedule can reach, no step on the way
      pops an empty queue, and the processes created and not finished are each in exactly one place. */
  lemma {:induction false} ReachableInv(s: State, es: seq<Event>, t: State, live: set<int>)
    requires Inv(s) && OnePlace(s, live) && Runs(s, es, t)
    ensures Inv(t) && t.cfg == s.cfg
    ensures OnePlace(t, LiveAtEnd(s, es, live))
    decreases |es|
  {
    hide Inv, OnePlace, LiveAfter;
    if es == [] {
    } else {
      StepInv(s, es[0]);
      ReachableInv(Next(s, es[0]), es[1..], t, LiveAfter(s, es[0], live));
    }
  }
}
