/** The planners, the dispatch handler, the CPU, the sleep threads and the consoles, interleaved: every
    sem_wait, sem_post and queue operation is a step of its own. A queue operation under its mutex is one
    step. A sem_wait is a step that is possible only when the counter is positive.

    Processes are pids here; the counters of resource instances are left to module KernelInvariant, so
    whether a request is granted, and how many instances a wake scan reads, is any value at all.
    Finishes come from the CPU only. Sources: kernel/src/planners.c:34-108, queues.c:96-330,
    handle_connection.c:30-43, 95-237. */
module Interleaving {
  import opened Collections

  datatype LongPc = LRegion | LDegree | LNew | LPop | LPush(pid: int) | LPost | LLeave

  datatype ShortPc = SRegion | SReady | SCpu | SPop | SPush(pid: int) | SDispatch(pid: int) | SInterrupt | SLeave

  datatype HandlerPc =
    | HIdle
    | HFinish(pid: int)                                       // remove from exec
    | HQueue(i: nat)                                          // wake scan: next blocked queue
    | HTurn(i: nat, k: nat, available: int)                   // loop guard
    | HWake(i: nat, k: nat, available: int, pid: int)         // push to ready
    | HRemove(i: nat, k: nat, available: int, pid: int)       // remove from blocked
    | HBlockedWait(i: nat, k: nat, available: int)            // sem_wait(sem_process_blocked)
    | HReadyPost(i: nat, k: nat, available: int)              // sem_post(sem_process_ready)
    | HCpuPost                                                // finish: sem_post(sem_cpu_available)
    | HDegreePost                                             // finish: sem_post(sem_multiprogrammming_degree)
    | HIntPop(pid: int) | HIntCpu(pid: int) | HIntPush(pid: int) | HIntReady
    | HBlkPop(pid: int, i: nat) | HBlkCpu(pid: int, i: nat) | HBlkPush(pid: int, i: nat) | HBlkPost
    | HSlpPop(pid: int) | HSlpCpu

  datatype Message = MFinish | MInterrupt | MSleep | MRequest

  datatype CpuPc = CpuIdle | Running(pid: int) | Sent(pid: int, m: Message)

  datatype ConsolePc = Rest | Start1 | Start2 | Stop1 | Stop2

  datatype Sys = Sys(
    newQ: seq<int>, readyQ: seq<int>, execQ: seq<int>, blocked: seq<seq<int>>, sleeping: seq<int>,
    semNew: int, semReady: int, semBlocked: int, semCpu: int, semDegree: int,
    semShort: int, semLong: int, mutexStopping: int,
    long: LongPc, short: ShortPc, handler: HandlerPc, cpu: CpuPc, console: ConsolePc,
    createPosts: nat,       // consoles that have pushed to new and not posted yet
    wakePosts: nat,         // sleep threads that have pushed to ready and not posted yet
    live: set<int>,         // created and not finished
    nextId: int,
    degree: int)

  datatype Verdict = Grant | Refuse(i: nat) | Fatal

  datatype Act =
    | Long
    | Short(roundRobin: bool)
    | Cpu(m: Message)
    | Handler(available: int, verdict: Verdict)
    | SleeperPush(j: nat)
    | SleeperPost
    | CreatePush
    | CreatePost
    | ConsoleStart
    | ConsoleStop
    | ConsoleNext

  // ---------- Queues ----------

  /** list_remove_element: the first occurrence goes. */
  function DropPid(q: seq<int>, pid: int): seq<int> {
    if q == [] then [] else if q[0] == pid then q[1..] else [q[0]] + DropPid(q[1..], pid)
  }

  function B(b: bool): nat { if b then 1 else 0 }

  function Count(k: int, q: seq<int>): nat {
    if q == [] then 0 else B(q[0] == k) + Count(k, q[1..])
  }

  function CountAll(k: int, qs: seq<seq<int>>): nat {
    if qs == [] then 0 else Count(k, qs[0]) + CountAll(k, qs[1..])
  }

  function LengthAll(qs: seq<seq<int>>): nat {
    if qs == [] then 0 else |qs[0]| + LengthAll(qs[1..])
  }

  lemma {:induction false} CountConcat(k: int, a: seq<int>, b: seq<int>)
    ensures Count(k, a + b) == Count(k, a) + Count(k, b)
  {
    if a == [] {
      assert a + b == b;
    } else {
      CountConcat(k, a[1..], b);
      assert (a + b)[1..] == a[1..] + b;
    }
  }

  lemma CountPush(k: int, q: seq<int>, pid: int)
    ensures Count(k, q + [pid]) == Count(k, q) + B(pid == k)
  {
    CountConcat(k, q, [pid]);
    assert Count(k, [pid]) == B(pid == k) + Count(k, [pid][1..]);
  }

  lemma CountCut(k: int, q: seq<int>, j: nat)
    requires j < |q|
    ensures Count(k, Remove(q, j)) + B(q[j] == k) == Count(k, q)
  {
    CountConcat(k, q[..j], q[j + 1..]);
    CountConcat(k, q[..j], q[j..]);
    assert q == q[..j] + q[j..];
    assert q[j..][1..] == q[j + 1..];
  }

  lemma {:induction false} CountDrop(k: int, q: seq<int>, pid: int)
    requires pid in q
    ensures Count(k, DropPid(q, pid)) + B(pid == k) == Count(k, q)
  {
    if q[0] == pid {
    } else {
      CountDrop(k, q[1..], pid);
      var d := DropPid(q, pid);
      assert d[1..] == DropPid(q[1..], pid);
    }
  }

  lemma {:induction false} DropLength(q: seq<int>, pid: int)
    requires pid in q
    ensures |DropPid(q, pid)| + 1 == |q|
  {
    if q[0] == pid {
    } else {
      DropLength(q[1..], pid);
    }
  }

  lemma {:induction false} CountIn(k: int, q: seq<int>)
    ensures k in q <==> Count(k, q) > 0
  {
    if q == [] {
    } else {
      CountIn(k, q[1..]);
    }
  }

  lemma {:induction false} CountAllUpdate(k: int, qs: seq<seq<int>>, i: nat, q: seq<int>)
    requires i < |qs|
    ensures CountAll(k, qs[i := q]) + Count(k, qs[i]) == CountAll(k, qs) + Count(k, q)
  {
    if i == 0 {
      assert qs[i := q][1..] == qs[1..];
    } else {
      CountAllUpdate(k, qs[1..], i - 1, q);
      assert qs[i := q][1..] == qs[1..][i - 1 := q];
    }
  }

  lemma {:induction false} LengthAllUpdate(qs: seq<seq<int>>, i: nat, q: seq<int>)
    requires i < |qs|
    ensures LengthAll(qs[i := q]) + |qs[i]| == LengthAll(qs) + |q|
  {
    if i == 0 {
      assert qs[i := q][1..] == qs[1..];
    } else {
      LengthAllUpdate(qs[1..], i - 1, q);
      assert qs[i := q][1..] == qs[1..][i - 1 := q];
    }
  }

  // ---------- Steps ----------

  predicate CanLong(s: Sys) {
    match s.long
    case LRegion => s.semLong > 0
    case LDegree => s.semDegree > 0
    case LNew => s.semNew > 0
    case _ => true
  }

  /** long_term_planner, one operation. */
  function DoLong(s: Sys): Sys
    requires s.long.LPop? ==> s.newQ != []
  {
    match s.long
    case LRegion => s.(long := LDegree, semLong := s.semLong - 1)
    case LDegree => s.(long := LNew, semDegree := s.semDegree - 1)
    case LNew => s.(long := LPop, semNew := s.semNew - 1)
    case LPop => s.(long := LPush(s.newQ[0]), newQ := s.newQ[1..])
    case LPush(pid) => s.(long := LPost, readyQ := s.readyQ + [pid])
    case LPost => s.(long := LLeave, semReady := s.semReady + 1)
    case LLeave => s.(long := LRegion, semLong := s.semLong + 1)
  }

  predicate CanShort(s: Sys) {
    match s.short
    case SRegion => s.semShort > 0
    case SReady => s.semReady > 0
    case SCpu => s.semCpu > 0
    case _ => true
  }

  /** planing_with_fifo; planning_with_round_robin sends an interrupt as well before it leaves the region. */
  function DoShort(s: Sys, roundRobin: bool): Sys
    requires s.short.SPop? ==> s.readyQ != []
  {
    match s.short
    case SRegion => s.(short := SReady, semShort := s.semShort - 1)
    case SReady => s.(short := SCpu, semReady := s.semReady - 1)
    case SCpu => s.(short := SPop, semCpu := s.semCpu - 1)
    case SPop => s.(short := SPush(s.readyQ[0]), readyQ := s.readyQ[1..])
    case SPush(pid) => s.(short := SDispatch(pid), execQ := s.execQ + [pid])
    case SDispatch(pid) => s.(short := if roundRobin then SInterrupt else SLeave, cpu := Running(pid))
    case SInterrupt => s.(short := SLeave)
    case SLeave => s.(short := SRegion, semShort := s.semShort + 1)
  }

  predicate CanHandler(s: Sys, verdict: Verdict) {
    match s.handler
    case HIdle => s.cpu.Sent? && (s.cpu.m.MRequest? && verdict.Refuse? ==> verdict.i < |s.blocked|)
    case HBlockedWait(_, _, _) => s.semBlocked > 0
    case _ => true
  }

  /** The queues the handler pops or indexes hold what it expects. */
  predicate HandlerSafe(s: Sys) {
    match s.handler
    case HFinish(pid) => pid in s.execQ
    case HIntPop(_) => s.execQ != []
    case HSlpPop(_) => s.execQ != []
    case HBlkPop(_, _) => s.execQ != []
    case HBlkPush(_, i) => i < |s.blocked|
    case HQueue(i) => i <= |s.blocked|
    case HTurn(i, _, _) => i < |s.blocked|
    case HRemove(i, _, _, pid) => i < |s.blocked| && pid in s.blocked[i]
    case _ => true
  }

  function Receive(s: Sys, verdict: Verdict): Sys
    requires s.cpu.Sent?
  {
    var pid := s.cpu.pid;
    match s.cpu.m
    case MFinish => s.(cpu := CpuIdle, handler := HFinish(pid))
    case MInterrupt => s.(cpu := CpuIdle, handler := HIntPop(pid))
    case MSleep => s.(cpu := CpuIdle, handler := HSlpPop(pid))
    case MRequest =>
      match verdict
      case Grant => s.(cpu := Running(pid))
      case Refuse(i) => s.(cpu := CpuIdle, handler := HBlkPop(pid, i))
      case Fatal => s.(cpu := CpuIdle, handler := HFinish(pid))
  }

  /** In the wake scan of a finish, after the process left exec. */
  predicate InScan(h: HandlerPc) {
    h.HQueue? || h.HTurn? || h.HWake? || h.HRemove? || h.HBlockedWait? || h.HReadyPost?
  }

  /** check_process_in_blocked_and_send_to_ready, one operation. */
  function DoScan(s: Sys, available: int): Sys
    requires InScan(s.handler) && HandlerSafe(s)
  {
    match s.handler
    case HQueue(i) =>
      if i == |s.blocked| then s.(handler := HCpuPost)
      else if |s.blocked[i]| > 0 && available > 0 then s.(handler := HTurn(i, 0, available))
      else s.(handler := HQueue(i + 1))
    case HTurn(i, k, n) =>
      if k < Min(n, |s.blocked[i]|) then s.(handler := HWake(i, k, n, s.blocked[i][k]))
      else s.(handler := HQueue(i + 1))
    case HWake(i, k, n, pid) => s.(handler := HRemove(i, k, n, pid), readyQ := s.readyQ + [pid])
    case HRemove(i, k, n, pid) =>
      s.(handler := HBlockedWait(i, k, n), blocked := s.blocked[i := DropPid(s.blocked[i], pid)])
    case HBlockedWait(i, k, n) => s.(handler := HReadyPost(i, k, n), semBlocked := s.semBlocked - 1)
    case HReadyPost(i, k, n) => s.(handler := HTurn(i, k + 1, n), semReady := s.semReady + 1)
  }

  /** Taking the executing process elsewhere: interrupt, block and sleep. */
  predicate InMove(h: HandlerPc) {
    h.HIntPop? || h.HIntCpu? || h.HIntPush? || h.HIntReady?
    || h.HBlkPop? || h.HBlkCpu? || h.HBlkPush? || h.HBlkPost? || h.HSlpPop? || h.HSlpCpu?
  }

  function DoMove(s: Sys): Sys
    requires InMove(s.handler) && HandlerSafe(s)
  {
    match s.handler
    case HIntPop(pid) => s.(handler := HIntCpu(pid), execQ := s.execQ[1..])
    case HIntCpu(pid) => s.(handler := HIntPush(pid), semCpu := s.semCpu + 1)
    case HIntPush(pid) => s.(handler := HIntReady, readyQ := s.readyQ + [pid])
    case HIntReady => s.(handler := HIdle, semReady := s.semReady + 1)
    case HBlkPop(_, i) => s.(handler := HBlkCpu(s.execQ[0], i), execQ := s.execQ[1..])
    case HBlkCpu(pid, i) => s.(handler := HBlkPush(pid, i), semCpu := s.semCpu + 1)
    case HBlkPush(pid, i) => s.(handler := HBlkPost, blocked := s.blocked[i := s.blocked[i] + [pid]])
    case HBlkPost => s.(handler := HIdle, semBlocked := s.semBlocked + 1)
    case HSlpPop(pid) => s.(handler := HSlpCpu, execQ := s.execQ[1..], sleeping := s.sleeping + [pid])
    case HSlpCpu => s.(handler := HIdle, semCpu := s.semCpu + 1)
  }

  /** handle_dispatch_connection, one operation. */
  function DoHandler(s: Sys, available: int, verdict: Verdict): Sys
    requires CanHandler(s, verdict) && HandlerSafe(s)
  {
    if InScan(s.handler) then DoScan(s, available)
    else if InMove(s.handler) then DoMove(s)
    else if s.handler.HIdle? then Receive(s, verdict)
    else DoFinish(s)
  }

  /** finish_process around the wake scan, one operation. */
  function DoFinish(s: Sys): Sys
    requires s.handler.HFinish? || s.handler.HCpuPost? || s.handler.HDegreePost?
  {
    match s.handler
    case HFinish(pid) => s.(handler := HQueue(0), execQ := DropPid(s.execQ, pid), live := s.live - {pid})
    case HCpuPost => s.(handler := HDegreePost, semCpu := s.semCpu + 1)
    case HDegreePost => s.(handler := HIdle, semDegree := s.semDegree + 1)
  }

  predicate CanConsole(s: Sys) {
    match s.console
    case Stop1 => s.semShort > 0
    case Stop2 => s.semLong > 0
    case _ => true
  }

  function DoConsole(s: Sys): Sys {
    match s.console
    case Rest => s
    case Start1 => s.(console := Start2, semShort := s.semShort + 1)
    case Start2 => s.(console := Rest, semLong := s.semLong + 1)
    case Stop1 => s.(console := Stop2, semShort := s.semShort - 1)
    case Stop2 => s.(console := Rest, semLong := s.semLong - 1)
  }

  predicate Can(s: Sys, a: Act) {
    match a
    case Long => CanLong(s)
    case Short(_) => CanShort(s)
    case Cpu(_) => s.cpu.Running?
    case Handler(_, verdict) => CanHandler(s, verdict)
    case SleeperPush(j) => j < |s.sleeping|
    case SleeperPost => s.wakePosts > 0
    case CreatePush => true
    case CreatePost => s.createPosts > 0
    case ConsoleStart => s.console.Rest? && s.mutexStopping > 0
    case ConsoleStop => s.console.Rest?
    case ConsoleNext => !s.console.Rest? && CanConsole(s)
  }

  /** No step pops an empty queue or removes what is not there. */
  predicate Safe(s: Sys, a: Act) {
    && (a.Long? && s.long.LPop? ==> s.newQ != [])
    && (a.Short? && s.short.SPop? ==> s.readyQ != [])
    && (a.Handler? ==> HandlerSafe(s))
  }

  function Do(s: Sys, a: Act): Sys
    requires Can(s, a) && Safe(s, a)
  {
    match a
    case Long => DoLong(s)
    case Short(rr) => DoShort(s, rr)
    case Cpu(m) => s.(cpu := Sent(s.cpu.pid, m))
    case Handler(available, verdict) => DoHandler(s, available, verdict)
    case SleeperPush(j) =>
      s.(sleeping := Remove(s.sleeping, j), readyQ := s.readyQ + [s.sleeping[j]], wakePosts := s.wakePosts + 1)
    case SleeperPost => s.(semReady := s.semReady + 1, wakePosts := s.wakePosts - 1)
    case CreatePush =>
      s.(newQ := s.newQ + [s.nextId], live := s.live + {s.nextId}, nextId := s.nextId + 1,
         createPosts := s.createPosts + 1)
    case CreatePost => s.(semNew := s.semNew + 1, createPosts := s.createPosts - 1)
    case ConsoleStart => s.(console := Start1, mutexStopping := s.mutexStopping - 1)
    case ConsoleStop => s.(console := Stop1, mutexStopping := s.mutexStopping + 1)
    case ConsoleNext => DoConsole(s)
  }

  // ---------- Token equations ----------

  // What each thread, by where it stands, adds to the equations below.

  /** Holding a process between two queues. */
  predicate Carries(h: HandlerPc) { h.HIntCpu? || h.HIntPush? || h.HBlkCpu? || h.HBlkPush? }

  /** About to take the executing process out of exec. */
  predicate TakesExec(h: HandlerPc) { h.HFinish? || h.HIntPop? || h.HBlkPop? || h.HSlpPop? }

  /** Tokens taken and not used yet, or pushes not posted yet. */
  function NewLong(l: LongPc): nat { B(l.LPop?) }
  function ReadyLong(l: LongPc): nat { B(l.LPost?) }
  function ReadyShort(p: ShortPc): nat { B(p.SCpu? || p.SPop?) }
  function ReadyHandler(h: HandlerPc): nat { B(h.HIntReady? || h.HRemove? || h.HBlockedWait? || h.HReadyPost?) }
  function BlockedHandler(h: HandlerPc): int { B(h.HBlkPost?) - B(h.HBlockedWait?) }
  function CpuShort(p: ShortPc): nat { B(p.SPop? || p.SPush?) }
  function CpuHandler(h: HandlerPc): nat { B(h.HIntCpu? || h.HBlkCpu? || h.HSlpCpu? || h.HCpuPost? || InScan(h)) }
  function DegreeLong(l: LongPc): nat { B(l.LNew? || l.LPop? || l.LPush?) }
  function ActiveShort(p: ShortPc): nat { B(p.SPush?) }
  function ActiveHandler(h: HandlerPc): int {
    B(Carries(h) || InScan(h) || h.HCpuPost? || h.HDegreePost?) - B(h.HRemove?)
  }
  function ClaimShort(p: ShortPc): nat { B(p.SDispatch?) }
  function ClaimCpu(c: CpuPc): nat { B(!c.CpuIdle?) }
  function ClaimHandler(h: HandlerPc): nat { B(TakesExec(h)) }

  predicate NewTokens(s: Sys) {
    s.semNew >= 0 && s.semNew + NewLong(s.long) + s.createPosts == |s.newQ|
  }

  predicate ReadyTokens(s: Sys) {
    s.semReady >= 0 &&
    s.semReady + ReadyShort(s.short) + ReadyLong(s.long) + s.wakePosts + ReadyHandler(s.handler) == |s.readyQ|
  }

  predicate BlockedTokens(s: Sys) {
    s.semBlocked >= 0 && s.semBlocked + BlockedHandler(s.handler) == LengthAll(s.blocked)
  }

  predicate CpuTokens(s: Sys) {
    s.semCpu >= 0 && s.semCpu + CpuShort(s.short) + |s.execQ| + CpuHandler(s.handler) == 1
  }

  /** Admitted processes: wherever they are, including in a thread's hands or on their way out. */
  function Active(s: Sys): int {
    |s.readyQ| + |s.execQ| + LengthAll(s.blocked) + |s.sleeping| + ActiveShort(s.short) + ActiveHandler(s.handler)
  }

  predicate DegreeTokens(s: Sys) {
    s.semDegree >= 0 && s.semDegree + DegreeLong(s.long) + Active(s) == s.degree
  }

  /** Whoever may speak for the executing process: the planner until it has dispatched it, the CPU, or the handler
      until it has taken it out of exec. */
  predicate ExecClaimed(p: ShortPc, c: CpuPc, h: HandlerPc, execQ: seq<int>) {
    && ClaimShort(p) + ClaimCpu(c) + ClaimHandler(h) == |execQ|
    && (p.SDispatch? ==> execQ == [p.pid])
    && (!c.CpuIdle? ==> execQ == [c.pid])
    && (TakesExec(h) ==> execQ == [h.pid])
  }

  predicate HandlerPlace(h: HandlerPc, blocked: seq<seq<int>>) {
    match h
    case HQueue(i) => i <= |blocked|
    case HTurn(i, _, _) => i < |blocked|
    case HWake(i, _, _, pid) => i < |blocked| && pid in blocked[i]
    case HRemove(i, _, _, pid) => i < |blocked| && pid in blocked[i]
    case HBlockedWait(i, _, _) => i < |blocked|
    case HReadyPost(i, _, _) => i < |blocked|
    case HBlkPop(_, i) => i < |blocked|
    case HBlkCpu(_, i) => i < |blocked|
    case HBlkPush(_, i) => i < |blocked|
    case _ => true
  }

  function HandLong(l: LongPc, k: int): nat { B(l.LPush? && l.pid == k) }
  function HandShort(p: ShortPc, k: int): nat { B(p.SPush? && p.pid == k) }
  function HandHandler(h: HandlerPc, k: int): nat { B(Carries(h) && h.pid == k) }

  /** How often pid k occurs in all the places a process can be, a thread's local variable included. */
  function Places(s: Sys, k: int): nat {
    Count(k, s.newQ) + Count(k, s.readyQ) + Count(k, s.execQ) + CountAll(k, s.blocked) + Count(k, s.sleeping)
    + HandLong(s.long, k) + HandShort(s.short, k) + HandHandler(s.handler, k)
  }

  /** Nobody is lost and nobody is in two places, except that a woken process is pushed to ready before it is
      removed from its blocked queue. */
  ghost predicate NobodyLost(s: Sys) {
    && (forall k :: Places(s, k) == B(k in s.live) + B(s.handler.HRemove? && s.handler.pid == k))
    && (forall k :: k in s.live ==> k < s.nextId)
  }

  /** The region token of a planner: in the semaphore, or with the planner while it is in its region. */
  function ShortToken(s: Sys): int { s.semShort + B(!s.short.SRegion?) }
  function LongToken(s: Sys): int { s.semLong + B(!s.long.LRegion?) }

  predicate RegionTokens(c: ConsolePc, stopping: int, short: int, long: int) {
    match c
    case Rest => stopping + short == 1 && long == short && stopping >= 0 && short >= 0
    case Start1 => stopping == 0 && short == 0 && long == 0
    case Start2 => stopping == 0 && short == 1 && long == 0
    case Stop1 => stopping + short == 2 && long == short && 0 <= short <= 1
    case Stop2 => stopping == 1 && short == 0 && long == 1
  }

  predicate StopTokens(s: Sys) {
    s.semShort >= 0 && s.semLong >= 0 && RegionTokens(s.console, s.mutexStopping, ShortToken(s), LongToken(s))
  }

  predicate Tokens(s: Sys) {
    && NewTokens(s) && ReadyTokens(s) && BlockedTokens(s) && CpuTokens(s) && DegreeTokens(s)
    && ExecClaimed(s.short, s.cpu, s.handler, s.execQ) && HandlerPlace(s.handler, s.blocked) && StopTokens(s)
  }

  ghost predicate Inv(s: Sys) { Tokens(s) && NobodyLost(s) }

  // ---------- Every step keeps them ----------

  /** The safety part: what the equations say about the next operation of each thread. */
  lemma InvIsSafe(s: Sys, a: Act)
    requires Tokens(s) && Can(s, a)
    ensures Safe(s, a)
    ensures |s.execQ| <= 1
    ensures s.handler.HBlockedWait? ==> s.semBlocked > 0
  {}

  lemma LongTokens(s: Sys)
    requires Tokens(s) && CanLong(s)
    ensures Tokens(DoLong(s))
  {
    hide ReadyHandler, BlockedHandler, CpuHandler, ActiveHandler, ClaimHandler, ReadyShort, CpuShort, ActiveShort, ClaimShort, ClaimCpu, LengthAll, ExecClaimed, HandlerPlace, RegionTokens;
  }

  lemma ShortTokens(s: Sys, rr: bool)
    requires Tokens(s) && CanShort(s)
    ensures Tokens(DoShort(s, rr))
  {
    hide ReadyHandler, BlockedHandler, CpuHandler, ActiveHandler, NewLong, ReadyLong, DegreeLong, LengthAll, HandlerPlace,
      RegionTokens, ExecClaimed;
    if s.short.SPush? || s.short.SDispatch? {
      ShortExec(s, rr);
    } else {
      ClaimNeutral(s.short, DoShort(s, rr).short, s.cpu, s.handler, s.execQ);
    }
  }

  lemma ClaimNeutral(p: ShortPc, q: ShortPc, c: CpuPc, h: HandlerPc, execQ: seq<int>)
    requires !p.SDispatch? && !q.SDispatch?
    ensures ExecClaimed(p, c, h, execQ) == ExecClaimed(q, c, h, execQ)
  {}

  /** The planner hands its claim on the executing process over to the CPU. */
  lemma ShortExec(s: Sys, rr: bool)
    requires Tokens(s) && (s.short.SPush? || s.short.SDispatch?)
    ensures var t := DoShort(s, rr); ExecClaimed(t.short, t.cpu, t.handler, t.execQ)
  {
    hide ReadyHandler, BlockedHandler, ActiveHandler, NewLong, ReadyLong, DegreeLong, LengthAll, HandlerPlace, RegionTokens;
  }

  lemma ScanTokens(s: Sys, available: int)
    requires Tokens(s) && InScan(s.handler) && CanHandler(s, Grant) && HandlerSafe(s)
    ensures Tokens(DoScan(s, available))
  {
    hide ReadyShort, CpuShort, ActiveShort, NewLong, ReadyLong, DegreeLong, LengthAll, RegionTokens, ClaimShort, ClaimCpu;
    if s.handler.HRemove? {
      DropLength(s.blocked[s.handler.i], s.handler.pid);
      LengthAllUpdate(s.blocked, s.handler.i, DropPid(s.blocked[s.handler.i], s.handler.pid));
    } else {
      hide DropPid;
    }
  }

  lemma TakeTokens(s: Sys)
    requires Tokens(s) && InMove(s.handler) && TakesExec(s.handler) && HandlerSafe(s)
    ensures Tokens(DoMove(s))
  {
    hide ReadyShort, CpuShort, ActiveShort, NewLong, ReadyLong, DegreeLong, LengthAll, RegionTokens;
  }

  lemma CarryTokens(s: Sys)
    requires Tokens(s) && InMove(s.handler) && !TakesExec(s.handler) && HandlerSafe(s)
    ensures Tokens(DoMove(s))
  {
    hide ReadyShort, CpuShort, ActiveShort, NewLong, ReadyLong, DegreeLong, LengthAll, RegionTokens, ClaimShort, ClaimCpu;
    if s.handler.HBlkPush? {
      LengthAllUpdate(s.blocked, s.handler.i, s.blocked[s.handler.i] + [s.handler.pid]);
    }
  }

  /** A handler that has only just taken its message, or is idle, owes nothing yet. */
  lemma FreshHandler(h: HandlerPc)
    requires h.HIdle? || TakesExec(h)
    ensures ReadyHandler(h) == 0 && BlockedHandler(h) == 0 && CpuHandler(h) == 0 && ActiveHandler(h) == 0
  {}

  lemma ReceiveTokens(s: Sys, verdict: Verdict)
    requires Tokens(s) && s.handler.HIdle? && CanHandler(s, verdict)
    ensures Tokens(Receive(s, verdict))
  {
    hide ReadyHandler, BlockedHandler, CpuHandler, ActiveHandler, LengthAll, RegionTokens,
      ReadyShort, CpuShort, ActiveShort, NewLong, ReadyLong, DegreeLong;
    FreshHandler(s.handler);
    FreshHandler(Receive(s, verdict).handler);
  }

  lemma FinishTokens(s: Sys)
    requires Tokens(s) && (s.handler.HFinish? || s.handler.HCpuPost? || s.handler.HDegreePost?)
    ensures Tokens(DoFinish(s))
  {
    hide ReadyShort, CpuShort, ActiveShort, NewLong, ReadyLong, DegreeLong, LengthAll, RegionTokens;
    if s.handler.HFinish? { DropLength(s.execQ, s.handler.pid); }
  }

  lemma HandlerTokens(s: Sys, available: int, verdict: Verdict)
    requires Tokens(s) && CanHandler(s, verdict) && HandlerSafe(s)
    ensures Tokens(DoHandler(s, available, verdict))
  {
    hide Tokens, DoScan, DoMove, DoFinish, Receive;
    if InScan(s.handler) { ScanTokens(s, available); }
    else if InMove(s.handler) && TakesExec(s.handler) { TakeTokens(s); }
    else if InMove(s.handler) { CarryTokens(s); }
    else if s.handler.HIdle? { ReceiveTokens(s, verdict); }
    else { FinishTokens(s); }
  }

  lemma OtherTokens(s: Sys, a: Act)
    requires Tokens(s) && Can(s, a) && !a.Long? && !a.Short? && !a.Handler?
    ensures Tokens(Do(s, a))
  {
    hide ReadyHandler, BlockedHandler, CpuHandler, ActiveHandler, ClaimHandler, ReadyShort, CpuShort, ActiveShort, ClaimShort, NewLong, ReadyLong, DegreeLong, LengthAll;
  }

  lemma LongPlaces(s: Sys, k: int)
    requires CanLong(s) && (s.long.LPop? ==> s.newQ != [])
    ensures Places(DoLong(s), k) == Places(s, k)
  {
    hide HandShort, HandHandler, CountAll;
    if s.long.LPush? { CountPush(k, s.readyQ, s.long.pid); }
  }

  lemma ShortPlaces(s: Sys, rr: bool, k: int)
    requires CanShort(s) && (s.short.SPop? ==> s.readyQ != [])
    ensures Places(DoShort(s, rr), k) == Places(s, k)
  {
    hide HandLong, HandHandler, CountAll;
    if s.short.SPush? { CountPush(k, s.execQ, s.short.pid); }
  }

  /** Places, less the second place of a process that is changing queues. */
  function Steady(s: Sys, k: int): int { Places(s, k) - B(s.handler.HRemove? && s.handler.pid == k) }

  lemma ScanPlaces(s: Sys, available: int, k: int)
    requires InScan(s.handler) && HandlerSafe(s)
    ensures Steady(DoScan(s, available), k) == Steady(s, k)
  {
    hide HandLong, HandShort, CountAll, Count;
    match s.handler {
      case HWake(_, _, _, pid) => CountPush(k, s.readyQ, pid);
      case HRemove(i, _, _, pid) =>
        CountDrop(k, s.blocked[i], pid);
        CountAllUpdate(k, s.blocked, i, DropPid(s.blocked[i], pid));
      case _ =>
    }
  }

  lemma MovePlaces(s: Sys, k: int)
    requires ExecClaimed(s.short, s.cpu, s.handler, s.execQ) && InMove(s.handler) && HandlerSafe(s)
    ensures Steady(DoMove(s), k) == Steady(s, k)
  {
    hide HandLong, HandShort, CountAll;
    match s.handler {
      case HIntPush(pid) => CountPush(k, s.readyQ, pid);
      case HBlkPush(pid, i) =>
        CountPush(k, s.blocked[i], pid);
        CountAllUpdate(k, s.blocked, i, s.blocked[i] + [pid]);
      case HSlpPop(pid) => CountPush(k, s.sleeping, pid);
      case _ =>
    }
  }

  lemma HandlerPlaces(s: Sys, available: int, verdict: Verdict, k: int)
    requires ExecClaimed(s.short, s.cpu, s.handler, s.execQ) && CanHandler(s, verdict) && HandlerSafe(s)
    ensures Steady(DoHandler(s, available, verdict), k) + B(s.handler.HFinish? && s.handler.pid == k) == Steady(s, k)
  {
    hide HandLong, HandShort, CountAll, Count, DoScan, DoMove, ExecClaimed;
    if InScan(s.handler) {
      ScanPlaces(s, available, k);
    } else if InMove(s.handler) {
      MovePlaces(s, k);
    } else if s.handler.HFinish? {
      CountDrop(k, s.execQ, s.handler.pid);
    }
  }

  lemma OtherPlaces(s: Sys, a: Act, k: int)
    requires Can(s, a) && !a.Long? && !a.Short? && !a.Handler?
    ensures Places(Do(s, a), k) == Places(s, k) + B(a.CreatePush? && s.nextId == k)
  {
    hide HandLong, HandShort, HandHandler, CountAll;
    match a {
      case SleeperPush(j) => CountCut(k, s.sleeping, j); CountPush(k, s.readyQ, s.sleeping[j]);
      case CreatePush => CountPush(k, s.newQ, s.nextId);
      case _ =>
    }
  }

  /** Main result: every interleaving keeps all token equations, loses nobody and duplicates nobody. */
  lemma ActKeeps(s: Sys, a: Act)
    requires Inv(s) && Can(s, a)
    ensures Safe(s, a) && Inv(Do(s, a))
  {
    hide Tokens, Places;
    InvIsSafe(s, a);
    match a {
      case Long =>
        LongTokens(s);
        forall k ensures Places(Do(s, a), k) == Places(s, k) { LongPlaces(s, k); }
      case Short(rr) =>
        ShortTokens(s, rr);
        forall k ensures Places(Do(s, a), k) == Places(s, k) { ShortPlaces(s, rr, k); }
      case Handler(available, verdict) =>
        HandlerTokens(s, available, verdict);
        HandlerNobodyLost(s, available, verdict);
      case _ =>
        OtherTokens(s, a);
        forall k ensures Places(Do(s, a), k) == Places(s, k) + B(a.CreatePush? && s.nextId == k) { OtherPlaces(s, a, k); }
    }
  }

  lemma HandlerNobodyLost(s: Sys, available: int, verdict: Verdict)
    requires Inv(s) && CanHandler(s, verdict) && HandlerSafe(s)
    ensures NobodyLost(DoHandler(s, available, verdict))
  {
    var t := DoHandler(s, available, verdict);
    HandlerLive(s, available, verdict);
    if s.handler.HFinish? { FinishIsLive(s); }
    hide Places, DoHandler, ExecClaimed;
    forall k ensures Places(t, k) == B(k in t.live) + B(t.handler.HRemove? && t.handler.pid == k) {
      HandlerPlaces(s, available, verdict, k);
    }
  }

  lemma HandlerLive(s: Sys, available: int, verdict: Verdict)
    requires CanHandler(s, verdict) && HandlerSafe(s)
    ensures var t := DoHandler(s, available, verdict);
      && t.live == s.live - (if s.handler.HFinish? then {s.handler.pid} else {})
      && t.nextId == s.nextId
      && t.semShort == s.semShort && t.semLong == s.semLong && t.short == s.short && t.long == s.long
  {}

  lemma FinishIsLive(s: Sys)
    requires Inv(s) && s.handler.HFinish?
    ensures s.handler.pid in s.live
  {
    CountIn(s.handler.pid, s.execQ);
    assert Places(s, s.handler.pid) > 0;
  }

  // ---------- Whole interleavings ----------

  /** Some execution of the acts from `s` ends in `t`; an unsafe step may end anywhere. */
  ghost predicate Runs(s: Sys, acts: seq<Act>, t: Sys)
    decreases |acts|
  {
    if acts == [] then t == s
    else Can(s, acts[0]) && (Safe(s, acts[0]) ==> Runs(Do(s, acts[0]), acts[1..], t))
  }

  /** The system after start-up: no process, planning stopped. */
  function Boot(queues: nat, degree: nat, firstId: int): Sys {
    Sys([], [], [], seq(queues, i => []), [], 0, 0, 0, 1, degree, 0, 0, 1,
        LRegion, SRegion, HIdle, CpuIdle, Rest, 0, 0, {}, firstId, degree)
  }

  lemma {:induction false} BootQueues(queues: nat, k: int)
    ensures CountAll(k, seq(queues, i => [])) == 0 && LengthAll(seq(queues, i => [])) == 0
  {
    if queues > 0 {
      BootQueues(queues - 1, k);
      var qs: seq<seq<int>> := seq(queues, i => []);
      assert qs[1..] == seq(queues - 1, i => []);
    }
  }

  lemma BootInv(queues: nat, degree: nat, firstId: int)
    ensures Inv(Boot(queues, degree, firstId))
  {
    BootQueues(queues, 0);
    forall k ensures Places(Boot(queues, degree, firstId), k) == 0 { BootQueues(queues, k); }
  }

  lemma {:induction false} RunKeeps(s: Sys, acts: seq<Act>, t: Sys)
    requires Inv(s) && Runs(s, acts, t)
    ensures Inv(t)
    decreases |acts|
  {
    hide Inv;
    if acts == [] {
    } else {
      ActKeeps(s, acts[0]);
      RunKeeps(Do(s, acts[0]), acts[1..], t);
    }
  }

  /** Interleaved safety, spelled out for every state any interleaving reaches from start-up: planners never pop an
      empty queue, exec holds at most one process, the wake path never blocks on sem_process_blocked, and every
      live process is in exactly one place, a woken one excepted while it changes queues. */
  lemma InterleavedSafety(queues: nat, degree: nat, firstId: int, acts: seq<Act>, t: Sys)
    requires Runs(Boot(queues, degree, firstId), acts, t)
    ensures t.long.LPop? ==> t.newQ != []
    ensures t.short.SPop? ==> t.readyQ != []
    ensures |t.execQ| <= 1
    ensures t.handler.HBlockedWait? ==> t.semBlocked > 0
    ensures HandlerSafe(t)
    ensures forall k :: Places(t, k) == B(k in t.live) + B(t.handler.HRemove? && t.handler.pid == k)
    ensures Active(t) <= degree && t.degree == degree
  {
    BootInv(queues, degree, firstId);
    RunKeeps(Boot(queues, degree, firstId), acts, t);
    RunDegree(Boot(queues, degree, firstId), acts, t);
  }

  lemma {:induction false} RunDegree(s: Sys, acts: seq<Act>, t: Sys)
    requires Inv(s) && Runs(s, acts, t)
    ensures t.degree == s.degree
    decreases |acts|
  {
    hide Inv;
    if acts == [] {
    } else {
      ActKeeps(s, acts[0]);
      RunDegree(Do(s, acts[0]), acts[1..], t);
    }
  }

  // ---------- Stopping the planners ----------

  predicate PlannerAct(a: Act) { a.Long? || a.Short? }

  /** Both region tokens are with the console. */
  predicate Quiet(s: Sys) { ShortToken(s) == 0 && LongToken(s) == 0 }

  predicate StartPosts(s: Sys, a: Act) { a.ConsoleNext? && s.console.Start1? }

  /** STOP_PLANNING returns only when both planners are out of their regions. */
  lemma StopReturnsQuiet(s: Sys)
    requires Inv(s) && s.console.Stop2? && Can(s, ConsoleNext)
    ensures Quiet(Do(s, ConsoleNext)) && Do(s, ConsoleNext).console.Rest?
  {}

  lemma QuietStep(s: Sys, a: Act)
    requires Inv(s) && Quiet(s) && Can(s, a) && !StartPosts(s, a)
    ensures !PlannerAct(a) && Safe(s, a) && Quiet(Do(s, a))
  {
    hide DoHandler, DoShort, DoLong, NewTokens, ReadyTokens, BlockedTokens, CpuTokens, DegreeTokens, ExecClaimed, HandlerPlace;
    InvIsSafe(s, a);
    if a.Handler? { HandlerLive(s, a.available, a.verdict); }
  }

  /** No START posts along the run. */
  ghost predicate NoStart(s: Sys, acts: seq<Act>)
    decreases |acts|
  {
    acts == [] ||
    (!StartPosts(s, acts[0]) && (Can(s, acts[0]) && Safe(s, acts[0]) ==> NoStart(Do(s, acts[0]), acts[1..])))
  }

  /** Planner stop safety: from a quiet state and until a START posts, no interleaving contains a planner step. */
  lemma {:induction false} StopSafety(s: Sys, acts: seq<Act>, t: Sys)
    requires Inv(s) && Quiet(s) && Runs(s, acts, t) && NoStart(s, acts)
    ensures forall a :: a in acts ==> !PlannerAct(a)
    ensures Quiet(t)
    decreases |acts|
  {
    hide Inv, Quiet;
    if acts == [] {
    } else {
      QuietStep(s, acts[0]);
      ActKeeps(s, acts[0]);
      StopSafety(Do(s, acts[0]), acts[1..], t);
      assert acts == [acts[0]] + acts[1..];
    }
  }

  // ---------- The sleep handler as written ----------

  /** handle_sleep_interruption as written: the CPU is freed before the sleep thread has popped exec
      (kernel/src/handle_connection.c:199-221). */
  function SleepAsWritten(s: Sys): Sys
    requires s.cpu.Sent? && s.cpu.m.MSleep?
  {
    s.(cpu := CpuIdle, semCpu := s.semCpu + 1)
  }

  /** Only the short-term planner runs; the sleep thread has not popped exec yet. */
  ghost predicate ShortRuns(s: Sys, rrs: seq<bool>, t: Sys)
    decreases |rrs|
  {
    if rrs == [] then t == s
    else CanShort(s) && ((s.short.SPop? ==> s.readyQ != []) ==> ShortRuns(DoShort(s, rrs[0]), rrs[1..], t))
  }

  ghost predicate Overlaps(s: Sys) { exists rrs, t :: ShortRuns(s, rrs, t) && |t.execQ| >= 2 }

  /** The planner holds a ready token, or one is free and nothing keeps the planner out of its region. */
  predicate PlannerCanGo(s: Sys) {
    s.short.SCpu? || (s.semReady > 0 && (s.short.SRegion? ==> s.semShort > 0))
  }

  /** The sleep handler is about to handle a message. */
  predicate SleepArrives(s: Sys) { s.cpu.Sent? && s.cpu.m.MSleep? && s.handler.HIdle? }

  /** Where the planner can be while another process executes. */
  lemma PlannerWaits(s: Sys)
    requires Inv(s) && SleepArrives(s)
    ensures |s.execQ| == 1 && s.semCpu == 0 && s.semReady >= 0 && s.semShort >= 0
    ensures s.short.SRegion? || s.short.SReady? || s.short.SCpu? || s.short.SInterrupt? || s.short.SLeave?
    ensures s.short.SCpu? || s.semReady > 0 ==> s.readyQ != []
  {
    hide NobodyLost, NewTokens, BlockedTokens, DegreeTokens, HandlerPlace, RegionTokens;
  }

  lemma {:induction false} ShortRunsOn(s: Sys, rrs: seq<bool>, t: Sys, rr: bool)
    requires ShortRuns(s, rrs, t) && CanShort(t) && (t.short.SPop? ==> t.readyQ != [])
    ensures ShortRuns(s, rrs + [rr], DoShort(t, rr))
    decreases |rrs|
  {
    hide DoShort;
    if rrs == [] {
      assert ([] + [rr])[1..] == [];
    } else {
      assert (rrs + [rr])[1..] == rrs[1..] + [rr];
      if s.short.SPop? ==> s.readyQ != [] { ShortRunsOn(DoShort(s, rrs[0]), rrs[1..], t, rr); }
    }
  }

  /** From where the planner stands to its push, operation by operation. */
  lemma PlannerGoes(s: Sys, rrs: seq<bool>, t: Sys)
    requires ShortRuns(s, rrs, t) && |t.execQ| == 1 && (t.short.SPush? || t.readyQ != []) && t.semShort >= 0
    requires match t.short
             case SPush(_) => true
             case SPop => true
             case SCpu => t.semCpu > 0
             case SReady => t.semCpu > 0 && t.semReady > 0
             case SRegion => t.semCpu > 0 && t.semReady > 0 && t.semShort > 0
             case SDispatch(_) => false
             case _ => t.semCpu > 0 && t.semReady > 0
    ensures Overlaps(s)
    decreases match t.short
              case SInterrupt => 6
              case SLeave => 5
              case SRegion => 4
              case SReady => 3
              case SCpu => 2
              case SPop => 1
              case _ => 0
  {
    hide ShortRuns;
    ShortRunsOn(s, rrs, t, false);
    var n := DoShort(t, false);
    if t.short.SPush? {
      assert |n.execQ| == 2;
    } else {
      PlannerGoes(s, rrs + [false], n);
    }
  }

  /** A planner that cannot get a ready token, or not into its region, never dispatches. */
  lemma {:induction false} PlannerStays(s: Sys, rrs: seq<bool>, t: Sys)
    requires ShortRuns(s, rrs, t) && |s.execQ| == 1
    requires match s.short
             case SReady => s.semReady <= 0
             case SRegion => s.semReady <= 0 || s.semShort <= 0
             case SInterrupt => s.semReady <= 0
             case SLeave => s.semReady <= 0
             case _ => false
    ensures |t.execQ| == 1
    decreases |rrs|
  {
    if rrs == [] {
    } else {
      PlannerStays(DoShort(s, rrs[0]), rrs[1..], t);
    }
  }

  /** Main result about the written order: before the sleep thread pops exec, the planner can put a second process
      into it exactly when it holds a ready token, or one is free and its region is open. */
  lemma SleepOverlapsExactly(s: Sys)
    requires Inv(s) && SleepArrives(s)
    ensures Overlaps(SleepAsWritten(s)) <==> PlannerCanGo(s)
  {
    hide Inv;
    var w := SleepAsWritten(s);
    PlannerWaits(s);
    if PlannerCanGo(s) {
      assert ShortRuns(w, [], w);
      PlannerGoes(w, [], w);
    } else if Overlaps(w) {
      var rrs, t :| ShortRuns(w, rrs, t) && |t.execQ| >= 2;
      PlannerStays(w, rrs, t);
    }
  }

  // ---------- It happens ----------

  ghost predicate Reaches(s: Sys, t: Sys) { exists acts :: Runs(s, acts, t) }

  lemma {:induction false} RunsOn(s: Sys, acts: seq<Act>, t: Sys, a: Act)
    requires Runs(s, acts, t) && Can(t, a) && Safe(t, a)
    ensures Runs(s, acts + [a], Do(t, a))
    decreases |acts|
  {
    hide Do, Can, Safe;
    if acts == [] {
      assert ([] + [a])[1..] == [];
    } else {
      assert (acts + [a])[1..] == acts[1..] + [a];
      if Safe(s, acts[0]) { RunsOn(Do(s, acts[0]), acts[1..], t, a); }
    }
  }

  lemma OneMore(s: Sys, t: Sys, a: Act)
    requires Reaches(s, t) && Can(t, a) && Safe(t, a)
    ensures Reaches(s, Do(t, a))
  {
    var acts :| Runs(s, acts, t);
    RunsOn(s, acts, t, a);
  }

  /** START_PLANNING right after start-up. */
  lemma Started(queues: nat, degree: nat, firstId: int) returns (s: Sys)
    ensures Reaches(Boot(queues, degree, firstId), s)
    ensures s == Boot(queues, degree, firstId).(semShort := 1, semLong := 1, mutexStopping := 0)
  {
    var s0 := Boot(queues, degree, firstId);
    assert Runs(s0, [], s0);
    hide Runs, Reaches, DoLong, DoShort, DoHandler;
    s := s0;
    OneMore(s0, s, ConsoleStart); s := Do(s, ConsoleStart);
    OneMore(s0, s, ConsoleNext); s := Do(s, ConsoleNext);
    OneMore(s0, s, ConsoleNext); s := Do(s, ConsoleNext);
  }

  /** A console creates a process. */
  lemma CreateTurn(s0: Sys, s: Sys) returns (t: Sys)
    requires Reaches(s0, s)
    ensures Reaches(s0, t)
    ensures t == s.(newQ := s.newQ + [s.nextId], live := s.live + {s.nextId}, nextId := s.nextId + 1, semNew := s.semNew + 1)
  {
    hide Runs, Reaches, DoLong, DoShort, DoHandler, DoConsole;
    OneMore(s0, s, CreatePush); t := Do(s, CreatePush);
    OneMore(s0, t, CreatePost); t := Do(t, CreatePost);
  }

  /** A whole turn of the long-term planner. */
  lemma LongTurn(s0: Sys, s: Sys) returns (t: Sys)
    requires Reaches(s0, s)
    requires s.long.LRegion? && s.semLong > 0 && s.semDegree > 0 && s.semNew > 0 && s.newQ != []
    ensures Reaches(s0, t)
    ensures t == s.(newQ := s.newQ[1..], readyQ := s.readyQ + [s.newQ[0]],
                    semDegree := s.semDegree - 1, semNew := s.semNew - 1, semReady := s.semReady + 1)
  {
    hide Runs, Reaches, DoShort, DoHandler, DoConsole;
    t := s;
    OneMore(s0, t, Long); t := Do(t, Long);
    OneMore(s0, t, Long); t := Do(t, Long);
    OneMore(s0, t, Long); t := Do(t, Long);
    OneMore(s0, t, Long); t := Do(t, Long);
    OneMore(s0, t, Long); t := Do(t, Long);
    OneMore(s0, t, Long); t := Do(t, Long);
    OneMore(s0, t, Long); t := Do(t, Long);
  }

  /** The short-term planner dispatches the head of ready. */
  lemma DispatchTurn(s0: Sys, s: Sys) returns (t: Sys)
    requires Reaches(s0, s)
    requires s.short.SRegion? && s.semShort > 0 && s.semReady > 0 && s.semCpu > 0 && s.readyQ != []
    ensures Reaches(s0, t)
    ensures t == s.(short := SLeave, readyQ := s.readyQ[1..], execQ := s.execQ + [s.readyQ[0]], cpu := Running(s.readyQ[0]),
                    semShort := s.semShort - 1, semReady := s.semReady - 1, semCpu := s.semCpu - 1)
  {
    hide Runs, Reaches, DoLong, DoHandler, DoConsole;
    t := s;
    OneMore(s0, t, Short(false)); t := Do(t, Short(false));
    OneMore(s0, t, Short(false)); t := Do(t, Short(false));
    OneMore(s0, t, Short(false)); t := Do(t, Short(false));
    OneMore(s0, t, Short(false)); t := Do(t, Short(false));
    OneMore(s0, t, Short(false)); t := Do(t, Short(false));
    OneMore(s0, t, Short(false)); t := Do(t, Short(false));
  }

  /** With at least two places, the intended system reaches a state in which handling a SLEEP as written lets a second
      process into exec. */
  lemma SleepOverlapHappens(queues: nat, degree: nat, firstId: int) returns (s: Sys)
    requires degree >= 2
    ensures Reaches(Boot(queues, degree, firstId), s) && Inv(s) && SleepArrives(s)
    ensures Overlaps(SleepAsWritten(s))
  {
    hide Runs, Reaches, Inv, Overlaps, DoLong, DoShort, DoHandler, DoConsole;
    var s0 := Boot(queues, degree, firstId);
    s := Started(queues, degree, firstId);
    s := CreateTurn(s0, s);
    s := CreateTurn(s0, s);
    s := LongTurn(s0, s);
    s := LongTurn(s0, s);
    s := DispatchTurn(s0, s);
    OneMore(s0, s, Cpu(MSleep)); s := Do(s, Cpu(MSleep));
    BootInv(queues, degree, firstId);
    ReachesInv(s0, s);
    SleepOverlapsExactly(s);
  }

  lemma ReachesInv(s: Sys, t: Sys)
    requires Inv(s) && Reaches(s, t)
    ensures Inv(t)
  {
    var acts :| Runs(s, acts, t);
    RunKeeps(s, acts, t);
  }
}
