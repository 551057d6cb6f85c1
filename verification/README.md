# Verified model of the operating-system exercise: kernel, CPU, memory and wire format

The repository is a small distributed operating system in C: a kernel with process queues, planners and
counted resources; a CPU that fetches and executes instructions; a memory module with page tables and frame
replacement; and a shared library that serializes process control blocks and moves them over sockets. This
project models those parts in Dafny and proves what they are for.

| module | what it holds |
|---|---|
| `Collections`, `Process`, `Accounting` | shared pieces, the PCB, and sums over process queues |
| `WakeScan`, `KernelSpec` | the kernel as a state machine of whole handlers |
| `KernelInvariant` | lifecycle, semaphores and instance conservation, over all runs |
| `Deadlock` | what `check_deadlocks` reports; deadlocks are never missed and are stable |
| `Births`, `FirstCome` | what a process keeps from its creation; the order in which lines are served |
| `Waiters` | when a process is left waiting for a resource that has free instances |
| `AsWritten` | the dispatch handlers to the letter, and exactly when they do what they are meant to |
| `Kernel` | the handlers themselves: a class with the source's loops over lists updated in place |
| `Interleaving` | every semaphore and queue operation as a step of its own, all threads interleaved |
| `Undisturbed` | the operations of one thread, with nobody in between, add up to the handler |
| `Cpu`, `Transparency`, `Turns` | the fetch/execute/interrupt loop, and its composition with the kernel |
| `PagingSpec`, `Paging`, `Replacement`, `PageTables`, `Mmu` | page tables, frame list, LRU and FIFO, the in-place operations, address translation |
| `Codec`, `Buffers`, `Streams` | the wire format, the growable buffer, partial sends and receives |

How the models relate. `Kernel.Kernel` is the imperative form; each of its methods is proved equal to the
step function of `KernelSpec` for the same event, and the theorems are about those functions. `Transparency`
uses the same step functions for the kernel's half of the composed system and `Cpu.TurnOf`, which
`Cpu.Cpu.ExecuteTurn` is proved against, for the CPU's half. `PageTables.PageTables` stands to `PagingSpec` as
`Kernel.Kernel` stands to `KernelSpec`, and `Buffers.Buffer` to `Codec`.

Runs are arbitrary sequences of enabled events. In each run predicate a step that would pop an empty queue
may end in any state at all, so a property of every reachable state includes that no such step is ever taken.

## Where the code and its evident intent differ

The model follows the code; at these points it follows the intent, and says so where it does.

- The PCB a CPU message carries is authoritative. The blocking and finishing paths act on the older entry in
  `queue_exec` (kernel/src/queues.c:106, 297); the commented lines at kernel/src/queues.c:125-129 show the
  refresh that is modelled. `AsWritten` models the handlers without it. `AsWritten.StepMeaning` gives the exact
  condition under which a handler as written still does what it is meant to: a finish, when the entry holds as
  many instances of every resource as the record the CPU sent; a refused WAIT, when the two are equal; an
  interrupt or a sleep, always, since they re-queue the record that was sent. `AsWritten.StepDrift` gives the exact
  number of instances a step gains or loses, `AsWritten.InstanceLost` and `AsWritten.InstanceGained` runs from
  start-up, in any configuration, that end with nobody left and the count one too low or one too high.
- The sleep path frees the CPU before its thread has taken the process out of exec
  (kernel/src/handle_connection.c:199-221); the model takes it out first.
  `Interleaving.SleepOverlapsExactly` proves when the written order lets the planner put a second process into exec
  before that pop, and `Interleaving.SleepOverlapHappens` that it is reached from start-up.
- A console finish of the executing process would need the handshake sketched at
  kernel/src/queues.c:123-130. `KernelSpec` lets a console finish hit any process; `Interleaving` and
  `Transparency`, where the CPU holds a copy, leave executing processes to the CPU.
- The CPU's interrupt flag is tested and cleared in one piece; as written, the rejected branch leaves the loop
  holding the mutex (cpu/src/handle_connection.c:105-111).
- `update_victim` puts the page back at its own index (memory/src/page_table.c:102-105), and the list entries
  freed at memory/src/page_table.c:95 and 131 stay alive.
- The list of used frames, which nothing fills, may be any list that agrees with the tables.

Kept as written: SIGNAL wakes nobody, and the wake loop advances its index while it removes and so takes every
second waiter (`WakeScan`). A process can therefore wait for a free resource; `Waiters.StrandsExactly` says, for
every event, exactly when that comes about, and `Waiters.StrandingHappens` gives runs from start-up. A woken
process is given nothing and retries its WAIT. finish_process does not look for sleeping processes. JNZ inserts a
register.

Assumptions: resource names are distinct, every configured count is at least 1, and the host is little-endian.

## Model

| member | source | states |
|---|---|---|
| KernelInvariant.StepInv | kernel/src/queues.c:96-330 | Any enabled handler, from any state in which tags name queues, every semaphore counts what it stands for and available + held = configured, ends in such a state and pops no empty queue; and if each live process is in exactly one place and nobody else anywhere, that is so of the live processes after it: those before, plus a created one, less one that is finished and found |
| KernelInvariant.ReachableInv | kernel/src/planners.c:34-81 | The same in every state that any schedule of whole handlers reaches: exactly the processes created and not finished are there, each in exactly one place; the configuration is unchanged |
| KernelInvariant.InitInv | kernel/src/deadlocks.c:3-14 | The start-up state (empty queues, configured counts, semaphore initial values, no process) satisfies the invariant |
| KernelInvariant.StepPlaces | kernel/src/queues.c:195-330 | No handler loses a process, brings one back or puts one in two places |
| KernelInvariant.StepTotal | kernel/src/queues.c:96-330 | In every account of processes, a handler adds the process it creates, takes away the one it finishes, and nothing else |
| Births.CreatedForLife | kernel/src/handle_connection.c:345-371 | After any run from start-up, the record of every process, wherever it is, has the path, quantum and socket it was created with, size and table pages 0; the n-th process created got the n-th pid |
| FirstCome.NobodyOvertakes | kernel/src/queues.c:195-259 | Over any run during which a process waits in new or in ready: those served from the line, followed by those still ahead of it, are exactly those who were ahead, in order, less the ones finished meanwhile |
| FirstCome.StepLine | kernel/src/queues.c:96-330 | One event serves exactly the head of its line, drops a finished process, and otherwise only appends |
| FirstCome.FinishLines | kernel/src/queues.c:131-170 | After a finish, ready is what it was without the finished process, followed by the woken, queue by queue |
| FirstCome.DispatchTakesHead | kernel/src/queues.c:241-259 | The head of ready, and nobody else, gets into exec |
| FirstCome.AdmissionTakesHead | kernel/src/queues.c:225-239 | The head of new goes to the tail of ready |
| FirstCome.StepWaiters | kernel/src/queues.c:294-312 | Waiters join at the tail, and keep their places until somebody is finished |
| KernelInvariant.FinishInv | kernel/src/queues.c:96-148 | finish_process of any pid, in whatever queue or in none, keeps the whole invariant |
| KernelInvariant.FinishTotal | kernel/src/queues.c:96-148 | Finishing removes exactly the found process from every account: pids, admitted processes, held instances |
| KernelInvariant.FinishAvailable | kernel/src/deadlocks.c:149-155 | Finishing returns, resource by resource, exactly what the process held |
| KernelInvariant.FoundTag | kernel/src/queues.c:122-131 | The state tag finish_process reads names the queue it found the process in |
| KernelInvariant.FinishSemaphores | kernel/src/queues.c:172-193 | Therefore update_queue_semaphores adjusts the right counters, from every state |
| KernelInvariant.ReleaseCounts | kernel/src/deadlocks.c:149-155 | Releasing a held list adds to every resource the number of times the list names it |
| KernelInvariant.TransferInv | kernel/src/deadlocks.c:157-203 | A grant or a return moves one instance between available and held and keeps the invariant |
| KernelInvariant.WakeFromTotal | kernel/src/queues.c:150-170 | A wake scan loses and duplicates nobody |
| WakeScan.Turn | kernel/src/queues.c:160-167 | Turn k of the wake loop takes the waiter at original position 2k and leaves the rest in order |
| WakeScan.PassPartition | kernel/src/queues.c:150-170 | The woken (positions 0, 2, ..., 2(k-1)) and the remaining waiters together are exactly the waiters, for any number of instances |
| WakeScan.PassBounds | kernel/src/queues.c:150-170 | With a waiter and an instance, between one and that many waiters are woken, the first one first |
| Deadlock.NoMissedDeadlock | kernel/src/deadlocks.c:27-50 | A set of processes each waiting for a resource wholly held inside the set can only come into being when a WAIT blocks a member, and the check of that step reports that member against one in the set that holds what it waits for |
| Deadlock.EveryDeadlockReported | kernel/src/queues.c:294-312 | Whatever deadlock a run from start-up ends in came into being, for the last time, in a step whose check reported it |
| Deadlock.NoDeadlockGoesUnreported | kernel/src/deadlocks.c:27-50 | The same for a run from any state of the invariant, unless the deadlock was there from the start and all along |
| Deadlock.OnlyBlockingCreates | kernel/src/queues.c:294-312 | Every other step leaves no deadlock that was not there before |
| Deadlock.DeadlockStable | kernel/src/queues.c:150-170 | No step except a console finish of a member ends a deadlock |
| Deadlock.DeadlockForever | kernel/src/deadlocks.c:149-203 | Over any run without such a finish, the deadlock persists and its members stay in their queues with their records untouched |
| Deadlock.MembersUntouched | kernel/src/queues.c:150-170 | One step of the same, for the member's record |
| Deadlock.Exhausted | kernel/src/deadlocks.c:89-102 | Conservation keeps the resources of a deadlock at zero available and out of the hands of outsiders |
| Deadlock.MemberIsReported | kernel/src/deadlocks.c:27-76 | The check of any member of a deadlock reports a member holding what it waits for |
| Deadlock.HoldersConcat | kernel/src/deadlocks.c:36-48 | The report follows the order of each queue |
| Deadlock.AllHoldersConcat | kernel/src/deadlocks.c:31-49 | And the order of the queues |
| Deadlock.ReportsExactly | kernel/src/deadlocks.c:27-50 | The check reports a process exactly when it is blocked and holds an instance of the required resource |
| AsWritten.StepMeaning | kernel/src/queues.c:106-148 | A handler as written is the intended step if and only if nothing it would undo changed since the dispatch: the held instances for a finish, the whole record for a refused WAIT, nothing at all for an interrupt or a sleep |
| AsWritten.StepDrift | kernel/src/deadlocks.c:149-203 | After any handler as written, available + held of every resource is configured plus what the dispatched entry holds less what the sent record holds when the entry is finished or blocked, and configured exactly otherwise |
| AsWritten.ConservesExactly | kernel/src/deadlocks.c:157-203 | So instances are conserved if and only if, on a finish or a refused WAIT, entry and record hold the same |
| AsWritten.RunMeaning | kernel/src/handle_connection.c:95-197 | A run as written of which every step meets that condition is a run of the intended handlers |
| AsWritten.InstanceLost | kernel/src/queues.c:106-133 | In every configuration, a run from start-up (WAIT, EXIT) ends with nobody left and an instance gone |
| AsWritten.InstanceGained | kernel/src/deadlocks.c:157-177 | In every configuration, a run (WAIT, a preemption, SIGNAL, EXIT) ends with nobody left and an instance too many |
| Waiters.StrandsExactly | kernel/src/deadlocks.c:157-177 | If nobody waits for a free resource, the next step leaves somebody so if and only if it finishes a process while two others wait for a resource then free, or is a valid SIGNAL of a resource somebody waits for |
| Waiters.FinishFreeWait | kernel/src/queues.c:140-170 | After a finish somebody waits for a free resource exactly when two others wait for one that is free or freed by it |
| Waiters.StrandingHappens | kernel/src/queues.c:150-170 | Such a SIGNAL and such an EXIT are reached from start-up |
| Waiters.WakeFromAt | kernel/src/queues.c:150-170 | Queue by queue, the scan leaves exactly the waiters WakeScan describes |
| Waiters.OnlyFinishWakes | kernel/src/queues.c:140 | A waiter leaves its blocked queue only in a step that finishes some process |
| Kernel.Kernel.constructor | kernel/src/deadlocks.c:3-14 | The lists built in a loop, and the semaphores, are the initial state |
| Kernel.Kernel.ModifyResourceInstance | kernel/src/deadlocks.c:89-102 | The loop changes the count of the first resource of that name, or nothing |
| Kernel.Kernel.QuantityAvailable | kernel/src/deadlocks.c:113-122 | The loop finds the count of a known resource |
| Kernel.Kernel.FreeResourcesRetained | kernel/src/deadlocks.c:149-155 | The loop releases every entry of the held list |
| Kernel.Kernel.GetQueueBlocked | kernel/src/queues.c:332-341 | The loop, which keeps the last match, finds the queue of a known resource |
| Kernel.Kernel.GetRequiredResource | kernel/src/deadlocks.c:67-76 | The loop finds the resource whose queue holds the pid |
| Kernel.Kernel.CheckDeadlocks | kernel/src/deadlocks.c:27-50 | The nested loops report exactly the specified processes, in order |
| Kernel.Kernel.WakeQueue | kernel/src/queues.c:155-168 | The index-advancing, removing loop ends in the specified state, and its wait on sem_process_blocked never blocks |
| Kernel.Kernel.WakeBlocked | kernel/src/queues.c:150-170 | The scan over all queues, the same |
| Kernel.Kernel.MoveFromBlockToReady | kernel/src/queues.c:314-330 | One waiter moves to the tail of ready, with both counters |
| Kernel.Kernel.UpdateQueueSemaphores | kernel/src/queues.c:172-193 | Which counters are adjusted for which tag, without blocking |
| Kernel.Kernel.FinishProcess | kernel/src/queues.c:96-148 | The search over all queues and what follows compute the specified finish |
| Kernel.Kernel.CreateProcess | kernel/src/handle_connection.c:345-371 | A new PCB with the next id, zero registers and counter, queued in new |
| Kernel.Kernel.LongTermTurn | kernel/src/planners.c:34-47 | One turn of the long-term planner |
| Kernel.Kernel.ShortTermTurn | kernel/src/planners.c:66-94 | One turn of the FIFO and round-robin planners; exec then holds exactly the dispatched process |
| Kernel.Kernel.HandleInterrupt | kernel/src/handle_connection.c:122-150 | The interrupted process goes to the tail of ready with the registers the CPU sent |
| Kernel.Kernel.HandleWait | kernel/src/deadlocks.c:179-203 | Granted, refused or fatal; the CPU is answered exactly when the process goes on, and the report is that of the check |
| Kernel.Kernel.HandleSignal | kernel/src/deadlocks.c:157-177 | Returned or fatal; the CPU is answered exactly when the process goes on |
| Kernel.Kernel.MoveFromExecToBlocked | kernel/src/queues.c:294-312 | The process joins the tail of its blocked queue and the check of the resulting state is made |
| Kernel.Kernel.HandleSleep | kernel/src/handle_connection.c:199-221 | The process leaves exec and the CPU is free |
| Kernel.Kernel.EndSleep | kernel/src/handle_connection.c:223-236 | A sleeper goes to ready one instruction further |
| Kernel.Kernel.Handle | kernel/src/handle_connection.c:95-197 | Every message and planner turn computes the specified step and keeps the invariant |
| Interleaving.ActKeeps | kernel/src/queues.c:195-330 | Any single semaphore or queue operation of any thread keeps all token equations, loses nobody and duplicates nobody |
| Interleaving.InterleavedSafety | kernel/src/planners.c:34-94 | After any interleaving from start-up: no planner pops an empty queue, exec holds at most one process, the wake path never blocks on sem_process_blocked, at most the configured degree of processes is admitted, and every live process is in exactly one place (a woken one between its two queue operations in two) |
| Interleaving.HandlerTokens | kernel/src/queues.c:96-193 | The dispatch handler's part: finish, wake scan, interrupt, block and sleep, operation by operation |
| Interleaving.ShortTokens | kernel/src/planners.c:66-108 | The short-term planner's part, FIFO and round robin |
| Interleaving.LongTokens | kernel/src/planners.c:34-47 | The long-term planner's part |
| Interleaving.BootInv | kernel/src/semaphores.c:3-34 | The initial values of the semaphores satisfy the equations |
| Interleaving.StopReturnsQuiet | kernel/src/handle_connection.c:30-36 | STOP_PLANNING returns only when both planners are outside their regions |
| Interleaving.StopSafety | kernel/src/handle_connection.c:30-43 | From then until a START posts, no interleaving contains a step of either planner |
| Undisturbed.ArrivalOrder | kernel/src/queues.c:195-330 | In every interleaving, each operation takes from the head of new or ready or appends; only the wake scan takes from a blocked queue |
| Undisturbed.InterruptAlone | kernel/src/handle_connection.c:122-150 | The operations on an INTERRUPT, one after the other, put the process at the tail of ready and free the CPU |
| Undisturbed.RefusalAlone | kernel/src/queues.c:294-312 | Those on a refused WAIT put it at the tail of its blocked queue and free the CPU |
| Undisturbed.SleepAlone | kernel/src/handle_connection.c:199-221 | Those on a SLEEP put it to sleep and free the CPU |
| Undisturbed.ScanAlone | kernel/src/queues.c:150-170 | Those of a wake scan terminate and wake, queue by queue, exactly the waiters WakeScan describes |
| Undisturbed.FinishAlone | kernel/src/queues.c:96-193 | Those of a finish remove the process, do that scan, and free the CPU and a place |
| Interleaving.SleepOverlapsExactly | kernel/src/handle_connection.c:199-221 | With the CPU freed before the pop, the planner can put a second process into exec before it if and only if it holds a ready token, or one is free and its region is open to it |
| Interleaving.SleepOverlapHappens | kernel/src/planners.c:66-81 | A state in which it can is reached from start-up, for any degree of at least two |
| Cpu.SumAdds | cpu/src/instruction_execution.c:27-36 | For all registers and values, SUM leaves the 32-bit sum in its destiny and the other registers alone |
| Cpu.SubSubtracts | cpu/src/instruction_execution.c:37-46 | SUB leaves the 32-bit difference, likewise |
| Cpu.SubUndoesSum | cpu/src/instruction_execution.c:27-46 | SUB takes back what SUM added |
| Cpu.SetStores | cpu/src/instruction_execution.c:19-26 | SET stores the value and leaves the other registers alone |
| Cpu.JnzInserts | cpu/src/instruction_execution.c:72-81 | JNZ, as written, does nothing at zero and else pushes its register and those behind it one further |
| Cpu.OthersKeepRegisters | cpu/src/instruction_execution.c:82-132 | No other instruction touches a register |
| Cpu.RegisterNames | cpu/src/instruction_execution.c:166-194 | AX to DX name the registers in list order, and no other text names one |
| Cpu.ParseRegisterParam | cpu/src/instruction_execution.c:166-194 | Each parameter becomes its register, or stays as text |
| Cpu.Cpu.ReplaceRegister | cpu/src/instruction_execution.c:24-25 | Removing and inserting at an index replaces that register only |
| Cpu.Cpu.ExecuteInstructionCycle | cpu/src/instruction_execution.c:3-135 | Registers change as the instruction says, and exactly the non-local instructions end the turn with their message |
| Cpu.Cpu.ExecuteTurn | cpu/src/handle_connection.c:80-127 | One turn of the loop: message, process and flag are those of the specified turn |
| Turns.SumUnderAnySchedule | cpu/src/instruction_execution.c:19-36 | A process created with SET x a; SET y b; SUM x y; EXIT is at its EXIT with the sum, b and zeros, for all a and b and under any schedule of anything |
| Turns.PreemptionHappens | cpu/src/handle_connection.c:102-124 | A local instruction under a raised flag ends the turn: CPU idle, exec empty, flag down, and the process last in ready with one more effective step |
| Turns.UninterruptedGoesOn | cpu/src/handle_connection.c:80-101 | With the flag down it sends nothing, the kernel does not change, and the process goes on with one more effective step |
| Turns.FlagGoesDown | cpu/src/handle_connection.c:101-127 | After every turn the flag is down |
| Turns.WaitGranted | kernel/src/deadlocks.c:179-203 | A WAIT of a free resource moves one instance to the process, which goes on behind the WAIT |
| Turns.WaitRefused | kernel/src/queues.c:294-312 | A WAIT of one with none free makes it the last waiter, still at the WAIT |
| Turns.SignalReturns | kernel/src/deadlocks.c:157-177 | A SIGNAL of a held resource moves the first such instance back, and the process goes on behind the SIGNAL |
| Turns.SleepPauses | kernel/src/handle_connection.c:199-221 | A SLEEP takes the process off the CPU as it is |
| Turns.SleepEnds | kernel/src/handle_connection.c:223-236 | When it is over, the process is the last in ready, behind the SLEEP |
| Turns.ProcessEnds | kernel/src/queues.c:96-148 | EXIT and every invalid request leave nothing of the process, and every resource has back what it held |
| Transparency.PreemptionTransparency | cpu/src/handle_connection.c:74-128 | After any schedule of arrivals, preemptions, sleeps, grants, refusals and finishes, every process is where an uninterrupted run of the program it was created with is after as many steps as it made effective ones, with its quantum and client unchanged; blocked processes are at the WAIT they will retry; exec is occupied exactly when the CPU is busy |
| Transparency.KernelRun | kernel/src/handle_connection.c:95-197 | Seen from the kernel, every schedule of the composed system is a run of its handlers, so the results about those hold of it |
| Transparency.ScheduleIndependence | cpu/src/handle_connection.c:74-128 | Two processes created with the same program reach EXIT with the same registers and counter, under any two schedules and configurations |
| Transparency.ActionKeeps | kernel/src/handle_connection.c:122-148 | Each action of the composed system is defined where it is possible and keeps every process on track |
| Transparency.WaitTurn | kernel/src/deadlocks.c:179-203 | A WAIT turn in all three outcomes keeps everybody on track; a granted one is one step of the uninterrupted run although CPU and kernel both increment |
| Transparency.SignalTurn | kernel/src/deadlocks.c:157-177 | A SIGNAL turn, valid or not, the same |
| Transparency.WakeUpKeeps | kernel/src/handle_connection.c:223-236 | The end of a sleep is the one step the SLEEP instruction makes |
| Transparency.LocalTurn | cpu/src/handle_connection.c:96-126 | A local turn, interrupted or not, keeps everybody on track |
| Paging.FrameIndexAgrees | memory/src/page_table.c:69-132 | After any run of hits, faults and table creations, (pid, page, frame) is in the list exactly when the page is resident in that frame; frames stay distinct and the multiset of frames never changes |
| Paging.FaultKeepsIff | memory/src/handle_connection.c:218-229 | A fault keeps that agreement if and only if the page is not resident or is itself the victim |
| Paging.PromoteConsistent | memory/src/page_table.c:108-132 | LRU promotion keeps the agreement |
| Paging.ReserveConsistent | memory/src/handle_connection.c:183-191 | Creating a table, for a new pid or a known one, keeps the agreement |
| Paging.RunsKeepClean | memory/src/page_table.c:69-132 | Over any run, a list without modified entries stays so, tables without modified pages stay so, and a page outside memory is never modified, whatever those inside are |
| Paging.FaultJoins | memory/src/page_table.c:82-94 | The entry that joins on a fault is the page's, in the victim's frame, not modified |
| Paging.PromotePermutes | memory/src/page_table.c:108-132 | A promoted entry is the entry it was |
| Paging.SwapRoundTrip | memory/src/page_table.c:9-54 | A table created for a new pid gives back block times page size in page order after any run |
| Paging.BlocksDisjoint | memory/src/page_table.c:17-22 | Distinct blocks give disjoint byte ranges |
| Replacement.LruInclusion | memory/src/page_table.c:69-132 | For any reference string a suffix stays a suffix, every hit of the smaller list is a hit of the larger, and the larger misses no more often |
| Replacement.MoreFramesNeverFaultMore | memory/src/handle_connection.c:193-229 | The same for two memories with their tables and frames: more frames never fault more, and what is resident in the smaller is resident in the larger |
| Replacement.RunFollowsPolicy | memory/src/handle_connection.c:193-229 | The frame list of the memory follows the list policy and its faults are the policy's misses |
| Replacement.LruVictim | memory/src/page_table.c:69-96 | The list is strictly ordered by last use, so the next victim is the least recently used resident page |
| Replacement.FifoVictim | memory/src/page_table.c:69-96 | Without promotion the list is exactly the latest loads in order, so the victim is the oldest loaded page |
| PageTables.PageTables.CreatePageTable | memory/src/page_table.c:9-25 | The loop builds one absent page per block, at block times page size |
| PageTables.PageTables.DeletePageTable | memory/src/page_table.c:37-54 | The loop collects the swap positions in page order |
| PageTables.PageTables.GetTablePagesByPid | memory/src/page_table.c:56-67 | The loop finds the first table of the pid |
| PageTables.PageTables.ReserveSwapMemory | memory/src/handle_connection.c:183-191 | The new table is appended |
| PageTables.PageTables.UpdateVictim | memory/src/page_table.c:98-106 | The victim's page becomes absent and unmodified, at its own index |
| PageTables.PageTables.ReplacePageFifo | memory/src/page_table.c:69-96 | The head's frame goes to the new page and its entry to the tail |
| PageTables.PageTables.ReplacePageLruWithPresence | memory/src/page_table.c:108-132 | The scan ends inside the list and the page's entry moves to the tail |
| PageTables.PageTables.GetFrame | memory/src/handle_connection.c:193-216 | A resident page yields its frame and, under LRU, is promoted; otherwise a page fault and nothing changes |
| PageTables.PageTables.HandlePageFault | memory/src/handle_connection.c:218-229 | The fault step, and exactly when it keeps the agreement |
| PageTables.PageTables.Reach | memory/src/handle_connection.c:79-86 | Asking, faulting and asking again makes the page resident, yields its frame and is one use of the page to the policy |
| Mmu.SplitRecovers | cpu/src/mmu.c:3-9 | Page times size plus displacement is the address, and the displacement lies in the page |
| Mmu.SplitOnly | cpu/src/mmu.c:3-9 | No other page and in-range displacement give the address |
| Mmu.TranslationInjective | cpu/src/instruction_execution.c:88-91 | Two resident (pid, address) pairs share a physical address only if they are equal |
| Mmu.TranslationRuns | cpu/src/instruction_execution.c:88-91 | Inside a page, physical addresses run along with logical ones from the start of the frame |
| Mmu.TranslationInBounds | memory/src/page_table.c:148-152 | After any run, every translation lies inside the memory, and a full list stays full |
| Codec.PcbLayout | shared/src/process.c:78-91 | Which field of a PCB lies where, wherever its bytes do |
| Codec.LowByteFirst | shared/src/serialization.c:53-56 | A byte further on counts 256 times as much |
| Codec.TwosComplement | shared/src/serialization.c:48-51 | Negative integers go out in two's complement |
| Codec.OneEachBytes | shared/src/serialization.c:70-80 | The lists of a small PCB, byte by byte |
| Codec.ReadyTailBytes | shared/src/process.c:87-90 | What follows the lists, byte by byte, for a small ready PCB |
| Codec.PcbAt | shared/src/process.c:78-161 | Wherever the bytes of a PCB lie, decoding returns the PCB and consumes exactly them |
| Codec.PcbAndResource | shared/src/process.c:219-226 | It composes with bytes before it and a resource name and more bytes behind it |
| Codec.PcbAndSleepTime | shared/src/process.c:93-102 | It composes with a sleep time behind it |
| Codec.StringsAt | shared/src/serialization.c:70-139 | List of strings round trip |
| Codec.WordsAt | shared/src/serialization.c:70-139 | List of words round trip |
| Codec.StringAt | shared/src/serialization.c:63-125 | String round trip, with its length prefix and NUL |
| Codec.UpToNulOf | shared/src/serialization.c:119-125 | A NUL-free string is what a reader finds before the first NUL |
| Codec.WordAt | shared/src/serialization.c:53-109 | 32-bit word round trip |
| Codec.IntAt | shared/src/serialization.c:48-101 | Signed 32-bit round trip |
| Buffers.GrownIsLeast | shared/src/serialization.c:25-32 | The grown size is the least of size, size + 64, size + 128, ... that fits |
| Buffers.Buffer.ChangeBufferSize | shared/src/serialization.c:25-32 | The loop ends with that size and keeps every byte |
| Buffers.Buffer.AddToBuffer | shared/src/serialization.c:18-23 | Earlier bytes stay, the new ones follow, and the offset stays within the size |
| Buffers.Buffer.AddString | shared/src/serialization.c:63-68 | Length, characters and NUL are appended |
| Buffers.Buffer.AddWordList | shared/src/serialization.c:70-80 | Count and words are appended |
| Buffers.Buffer.AddStringList | shared/src/serialization.c:70-80 | Count and strings are appended |
| Buffers.Buffer.AddPcb | shared/src/process.c:78-91 | All fields are appended in wire order |
| Buffers.Buffer.BufferTake | shared/src/serialization.c:87-93 | The bytes at the cursor, which advances behind them |
| Buffers.Buffer.TakeUint32 | shared/src/serialization.c:103-109 | The word at the cursor |
| Buffers.Buffer.TakeInt | shared/src/serialization.c:95-101 | The signed integer at the cursor |
| Buffers.Buffer.TakeName | shared/src/serialization.c:119-125 | The string at the cursor |
| Buffers.Buffer.TakeListOfWords | shared/src/serialization.c:127-139 | The loop reads the list at the cursor |
| Buffers.Buffer.TakeListOfNames | shared/src/serialization.c:127-139 | The loop reads the list at the cursor |
| Buffers.Buffer.TakePcbFromBuffer | shared/src/process.c:144-161 | Reads what the decoder specifies wherever that is defined |
| Streams.FrameLayout | shared/src/sockets.c:115-120 | One byte of header, the length as a word, the payload |
| Streams.FrameUnambiguous | shared/src/sockets.c:115-138 | The first package of a stream can be read in one way only |
| Streams.WireUnambiguous | shared/src/sockets.c:115-138 | Two lists of packages with the same bytes are the same list |
| Streams.Channel.SendAll | shared/src/sockets.c:73-84 | For any partial sends the loop ends and all bytes are sent, in order |
| Streams.Channel.RecvAll | shared/src/sockets.c:86-97 | For any partial receives the loop ends with exactly the bytes asked for |
| Streams.Channel.SendPackage | shared/src/sockets.c:115-120 | Header, 32-bit length and exactly the written bytes go out |
| Streams.Channel.ReceiveHeader | shared/src/sockets.c:159-164 | The header byte |
| Streams.Channel.ReceivePayload | shared/src/sockets.c:122-138 | A buffer of exactly the framed payload, to be read from its start |
| Streams.Channel.SendPackages | shared/src/sockets.c:115-120 | A list of packages appends its bytes |
| Streams.Channel.ReceivePackages | shared/src/sockets.c:122-164 | Reading back yields the same list and leaves exactly what follows it |
| Streams.Channel.SendPcbAndResource | shared/src/process.c:219-226 | A PCB and a resource name go out as one package, whatever the initial buffer size |
| Streams.Channel.ReceivePcbAndResource | kernel/src/handle_connection.c:151-170 | The receiver gets the PCB and the resource that were sent, and the channel is at the next package |
| Streams.Channel.SendSleep | shared/src/process.c:93-102 | A PCB and a sleep time go out as one package |
| Streams.Channel.ReceiveSleep | kernel/src/handle_connection.c:171-181 | The receiver gets the PCB and the time that were sent |

## Left out

- Kernel.Kernel: PCBs are values inside the queues, so two pointers to one PCB are not modelled; process ids are unbounded, so the wrap of the 32-bit `id_to_assign` is not either.
- Interleaving: processes are pids and the instance counters are arbitrary, because conservation is proved on whole handlers; the console finish of a process that is not executing is not interleaved.
- Interleaving.SleepOverlapsExactly: continuations in which only the planner moves; other threads may meanwhile post a ready token or open its region, after which its condition applies to the state reached.
- Cpu.Cpu.ExecuteTurn: the do-while around it has no bound, so the loop is the sequence of turns in Transparency rather than a method.
- Buffers.Buffer.AddToBuffer: total length is kept below 4 GiB; beyond it the source's 32-bit offset wraps.
- Streams.Channel.RecvAll: error and disconnect results of send and recv.
- Paging.SwapRoundTrip: swap positions are unbounded integers; the source computes them in `int`.
- Splitting an instruction line into words and translating its first word: an instruction arrives decoded. MOV_IN, MOV_OUT and the file instructions have no effect in the source and are one local instruction here.
- The page-fault path of the kernel (kernel/src/handle_connection.c:257-300), which is unfinished and posts ready without always enqueuing.
- `modify_multiprogramming_degree`, which re-initialises a semaphore in use and so breaks the degree equation.
- The priorities planner: the PCB has no priority field.
- Frame release when a process ends (memory/src/page_table.c:45-47, 154-163) and `send_swap`.
- Configuration, logging, the console menu, socket set-up, memory management and real time.
