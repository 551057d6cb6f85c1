/** The kernel as a state machine of coarse steps: one handler, run to completion, is one step.

    Sources: kernel/src/queues.c, deadlocks.c, handle_connection.c, planners.c.

    Two points where the text of the handlers departs from their evident intent are modelled by
    intent. (1) The PCB a CPU message carries is the authoritative record, so every message first
    refreshes the entry of the executing process (`Refresh`; the commented-out lines at
    kernel/src/queues.c:125-129). (2) The sleep handler takes the process out of exec before it
    frees the CPU (`Sleep`). What goes wrong without them is proved in AsWritten and Interleaving. */
module KernelSpec {
  import opened Collections
  import opened Process
  import opened Accounting
  import opened WakeScan

  /** What the configuration file fixes. */
  datatype Config = Config(names: seq<Name>, instances: seq<int>, degree: int)

  datatype State = State(
    cfg: Config,
    available: seq<int>,
    newQ: seq<Pcb>,
    readyQ: seq<Pcb>,
    execQ: seq<Pcb>,
    blocked: seq<seq<Pcb>>,
    sleeping: seq<Pcb>,
    semNew: int,
    semReady: int,
    semBlocked: int,
    semCpu: int,
    semDegree: int,
    nextId: int)

  datatype Event =
    | Create(path: Name, quantum: int, socket: int)
    | LongTerm
    | ShortTerm
    | CpuFinish(p: Pcb)
    | CpuInterrupt(p: Pcb)
    | CpuWait(p: Pcb, r: Name)
    | CpuSignal(p: Pcb, r: Name)
    | CpuSleep(p: Pcb)
    | SleepOver(i: nat)
    | ConsoleFinish(pid: int)

  // ---------- Resource lists ----------

  /** Position of the first occurrence; the length when there is none. */
  function NameIndex(names: seq<Name>, r: Name): (i: nat)
    ensures i <= |names|
    ensures i < |names| ==> names[i] == r
    ensures forall j :: 0 <= j < i ==> names[j] != r
  {
    FirstIndex(names, (n: Name) => n == r)
  }

  function Adjust(names: seq<Name>, available: seq<int>, r: Name, delta: int): (a: seq<int>)
    requires |names| == |available|
    ensures |a| == |available|
  {
    var i := NameIndex(names, r);
    if i < |names| then available[i := available[i] + delta] else available
  }

  /** Give back one instance for every entry of a held-resource list. */
  function Release(names: seq<Name>, available: seq<int>, held: seq<Name>): (a: seq<int>)
    requires |names| == |available|
    ensures |a| == |available|
    decreases |held|
  {
    if held == [] then available else Release(names, Adjust(names, available, held[0], 1), held[1..])
  }

  function DropFirst(held: seq<Name>, r: Name): seq<Name> {
    var i := NameIndex(held, r);
    if i < |held| then Remove(held, i) else held
  }

  // ---------- Finding a process ----------

  function PidIndex(q: seq<Pcb>, pid: int): (i: nat)
    ensures i <= |q|
    ensures i < |q| ==> q[i].pid == pid
    ensures forall j :: 0 <= j < i ==> q[j].pid != pid
  {
    FirstIndex(q, (p: Pcb) => p.pid == pid)
  }

  predicate HasPid(q: seq<Pcb>, pid: int) { PidIndex(q, pid) < |q| }

  /** The first blocked queue that contains the pid; the number of queues when there is none. */
  function BlockedIndex(qs: seq<seq<Pcb>>, pid: int): (i: nat)
    ensures i <= |qs|
    ensures i < |qs| ==> HasPid(qs[i], pid)
    ensures forall j :: 0 <= j < i ==> !HasPid(qs[j], pid)
  {
    FirstIndex(qs, (q: seq<Pcb>) => HasPid(q, pid))
  }

  datatype Place = InNew | InReady | InExec | InBlocked(index: nat) | Nowhere

  /** The search order of finish_process: new, ready, exec, then the blocked queues. */
  function Locate(s: State, pid: int): Place {
    if HasPid(s.newQ, pid) then InNew
    else if HasPid(s.readyQ, pid) then InReady
    else if HasPid(s.execQ, pid) then InExec
    else if BlockedIndex(s.blocked, pid) < |s.blocked| then InBlocked(BlockedIndex(s.blocked, pid))
    else Nowhere
  }

  predicate ValidPlace(s: State, pl: Place) {
    pl != Nowhere && (pl.InBlocked? ==> pl.index < |s.blocked|)
  }

  function QueueAt(s: State, pl: Place): seq<Pcb>
    requires ValidPlace(s, pl)
  {
    match pl
    case InNew => s.newQ
    case InReady => s.readyQ
    case InExec => s.execQ
    case InBlocked(i) => s.blocked[i]
  }

  function WithQueue(s: State, pl: Place, q: seq<Pcb>): State
    requires ValidPlace(s, pl)
  {
    match pl
    case InNew => s.(newQ := q)
    case InReady => s.(readyQ := q)
    case InExec => s.(execQ := q)
    case InBlocked(i) => s.(blocked := s.blocked[i := q])
  }

  // ---------- Waking waiters ----------

  /** One blocked queue of check_process_in_blocked_and_send_to_ready. */
  function WakeOne(s: State, i: nat): State
    requires i < |s.blocked| == |s.available|
  {
    if s.available[i] > 0 then
      var woken := Woken(s.blocked[i], s.available[i]);
      s.(readyQ := s.readyQ + TagAll(woken, Ready),
         blocked := s.blocked[i := Waiting(s.blocked[i], s.available[i])],
         semBlocked := s.semBlocked - |woken|,
         semReady := s.semReady + |woken|)
    else s
  }

  function WakeFrom(s: State, i: nat): State
    requires i <= |s.blocked| == |s.available|
    decreases |s.blocked| - i
  {
    if i == |s.blocked| then s else WakeFrom(WakeOne(s, i), i + 1)
  }

  // ---------- Finishing ----------

  /** update_queue_semaphores: which counters to adjust is read off the state tag. */
  function Settle(s: State, tag: ProcessState): State {
    match tag
    case Execution => s.(semCpu := s.semCpu + 1, semDegree := s.semDegree + 1)
    case Ready => s.(semReady := s.semReady - 1, semDegree := s.semDegree + 1)
    case Blocked => s.(semBlocked := s.semBlocked - 1, semDegree := s.semDegree + 1)
    case _ => s.(semNew := s.semNew - 1)
  }

  predicate Sized(s: State) {
    |s.cfg.names| == |s.cfg.instances| == |s.available| == |s.blocked|
  }

  /** Take the process out of its queue and give its instances back. */
  function Extract(s: State, pl: Place, i: nat): State
    requires Sized(s) && ValidPlace(s, pl) && i < |QueueAt(s, pl)|
  {
    var p := QueueAt(s, pl)[i];
    WithQueue(s.(available := Release(s.cfg.names, s.available, p.resources)), pl, Remove(QueueAt(s, pl), i))
  }

  function Finish(s: State, pid: int): State
    requires Sized(s)
  {
    var pl := Locate(s, pid);
    if pl == Nowhere then s
    else
      var i := PidIndex(QueueAt(s, pl), pid);
      Settle(WakeFrom(Extract(s, pl, i), 0), QueueAt(s, pl)[i].state)
  }

  // ---------- Moves ----------

  function CreateStep(s: State, path: Name, quantum: int, socket: int): State {
    var p := Pcb(s.nextId, 0, quantum, 0, [0, 0, 0, 0], [], 0, path, New, socket);
    s.(newQ := s.newQ + [p], semNew := s.semNew + 1, nextId := s.nextId + 1)
  }

  function LongTermStep(s: State): State
    requires s.newQ != []
  {
    s.(newQ := s.newQ[1..], readyQ := s.readyQ + [Tagged(s.newQ[0], Ready)],
       semDegree := s.semDegree - 1, semNew := s.semNew - 1, semReady := s.semReady + 1)
  }

  function ShortTermStep(s: State): State
    requires s.readyQ != []
  {
    s.(readyQ := s.readyQ[1..], execQ := s.execQ + [Tagged(s.readyQ[0], Execution)],
       semReady := s.semReady - 1, semCpu := s.semCpu - 1)
  }

  /** The message's PCB replaces the entry of the executing process. */
  function Refresh(s: State, p: Pcb): State { s.(execQ := [p]) }

  function InterruptStep(s: State): State
    requires s.execQ != []
  {
    s.(execQ := s.execQ[1..], readyQ := s.readyQ + [Tagged(s.execQ[0], Ready)],
       semCpu := s.semCpu + 1, semReady := s.semReady + 1)
  }

  function BlockStep(s: State, i: nat): State
    requires s.execQ != [] && i < |s.blocked|
  {
    s.(execQ := s.execQ[1..], blocked := s.blocked[i := s.blocked[i] + [Tagged(s.execQ[0], Blocked)]],
       semCpu := s.semCpu + 1, semBlocked := s.semBlocked + 1)
  }

  function Granted(p: Pcb, r: Name): Pcb {
    p.(programCounter := p.programCounter + 1, resources := p.resources + [r])
  }

  function Returned(p: Pcb, r: Name): Pcb {
    p.(programCounter := p.programCounter + 1, resources := DropFirst(p.resources, r))
  }

  function WaitStep(s: State, r: Name): State
    requires Sized(s) && s.execQ != []
  {
    var p := s.execQ[0];
    var i := NameIndex(s.cfg.names, r);
    if i == |s.cfg.names| then Finish(s, p.pid)
    else if s.available[i] > 0 then
      s.(execQ := s.execQ[0 := Granted(p, r)], available := Adjust(s.cfg.names, s.available, r, -1))
    else BlockStep(s, i)
  }

  function SignalStep(s: State, r: Name): State
    requires Sized(s) && s.execQ != []
  {
    var p := s.execQ[0];
    if r !in s.cfg.names || r !in p.resources then Finish(s, p.pid)
    else s.(execQ := s.execQ[0 := Returned(p, r)], available := Adjust(s.cfg.names, s.available, r, 1))
  }

  function SleepStep(s: State): State
    requires s.execQ != []
  {
    s.(execQ := s.execQ[1..], sleeping := s.sleeping + [s.execQ[0]], semCpu := s.semCpu + 1)
  }

  function Awake(p: Pcb): Pcb { p.(state := Ready, programCounter := p.programCounter + 1) }

  function SleepOverStep(s: State, i: nat): State
    requires i < |s.sleeping|
  {
    s.(sleeping := Remove(s.sleeping, i), readyQ := s.readyQ + [Awake(s.sleeping[i])], semReady := s.semReady + 1)
  }

  // ---------- The invariant ----------

  function Total(w: Weight, s: State): nat {
    Sum(w, s.newQ) + Sum(w, s.readyQ) + Sum(w, s.execQ) + SumAll(w, s.blocked) + Sum(w, s.sleeping)
  }

  predicate AllTagged(q: seq<Pcb>, t: ProcessState) { forall p :: p in q ==> p.state == t }

  /** The state tag of every queued process names its queue. */
  predicate TagsMatch(s: State) {
    && AllTagged(s.newQ, New) && AllTagged(s.readyQ, Ready) && AllTagged(s.execQ, Execution)
    && (forall i :: 0 <= i < |s.blocked| ==> AllTagged(s.blocked[i], Blocked))
  }

  /** Every semaphore counts what it stands for. */
  predicate SemaphoresMatch(s: State) {
    && s.semNew == |s.newQ|
    && s.semReady == |s.readyQ|
    && s.semBlocked == SumAll(One, s.blocked)
    && s.semCpu >= 0 && s.semCpu + |s.execQ| == 1
    && s.semDegree >= 0
    && s.semDegree + Total(One, s) - |s.newQ| == s.cfg.degree
  }

  /** Every pid is in at most one place, once, and was assigned. */
  ghost predicate PidsUnique(s: State) {
    && (forall k :: Total(Pid(k), s) <= 1)
    && (forall k :: Total(Pid(k), s) > 0 ==> k < s.nextId)
  }

  /** Available plus held equals configured, resource by resource, and available is never negative. */
  predicate Conserved(s: State)
    requires Sized(s)
  {
    forall i :: 0 <= i < |s.cfg.names| ==>
      s.available[i] >= 0 && s.available[i] + Total(Held(s.cfg.names[i]), s) == s.cfg.instances[i]
  }

  ghost predicate Inv(s: State) {
    Sized(s) && Distinct(s.cfg.names) && TagsMatch(s) && SemaphoresMatch(s) && PidsUnique(s) && Conserved(s)
  }

  function Init(cfg: Config, firstId: int): State
  {
    State(cfg, cfg.instances, [], [], [], seq(|cfg.names|, i => []), [], 0, 0, 0, 1, cfg.degree, firstId)
  }

  // ---------- Steps ----------

  /** What the CPU may send: the record it was dispatched with, with a new counter and registers. */
  predicate FromCpu(s: State, p: Pcb) {
    s.execQ != [] &&
    p == s.execQ[0].(programCounter := p.programCounter, registers := p.registers)
  }

  /** When the semaphores a handler waits on let it through, and when a message can arrive. */
  predicate Enabled(s: State, e: Event) {
    match e
    case Create(_, _, _) => true
    case LongTerm => s.semDegree > 0 && s.semNew > 0
    case ShortTerm => s.semReady > 0 && s.semCpu > 0
    case CpuFinish(p) => FromCpu(s, p)
    case CpuInterrupt(p) => FromCpu(s, p)
    case CpuWait(p, _) => FromCpu(s, p)
    case CpuSignal(p, _) => FromCpu(s, p)
    case CpuSleep(p) => FromCpu(s, p)
    case SleepOver(i) => i < |s.sleeping|
    case ConsoleFinish(_) => true
  }

  /** The queues a step pops are not empty. */
  predicate Safe(s: State, e: Event) {
    Sized(s) && (e.LongTerm? ==> s.newQ != []) && (e.ShortTerm? ==> s.readyQ != [])
  }

  function Next(s: State, e: Event): State
    requires Safe(s, e) && Enabled(s, e)
  {
    match e
    case Create(path, quantum, socket) => CreateStep(s, path, quantum, socket)
    case LongTerm => LongTermStep(s)
    case ShortTerm => ShortTermStep(s)
    case CpuFinish(p) => Finish(Refresh(s, p), p.pid)
    case CpuInterrupt(p) => InterruptStep(Refresh(s, p))
    case CpuWait(p, r) => WaitStep(Refresh(s, p), r)
    case CpuSignal(p, r) => SignalStep(Refresh(s, p), r)
    case CpuSleep(p) => SleepStep(Refresh(s, p))
    case SleepOver(i) => SleepOverStep(s, i)
    case ConsoleFinish(pid) => Finish(s, pid)
  }
}
