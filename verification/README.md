# A verified model of the PandOSsh kernel

PandOSsh is a small uRISCV kernel. This project models its two state machines and proves what every run of
them keeps.

**The nucleus** (phases 1 and 2). PCBs and semaphore descriptors live in static pools of one arbitrary size
and are chained by intrusive links into the free list, the priority-ordered ready queue, one queue per
semaphore, the children lists, and the two descriptor lists. Every system call and interrupt runs with
interrupts off and is one event of the machine. `Nucleus.dfy` says, function by function of the C code, what
happens to the state; `Kernel.dfy` is the same code on linked pools and globals that are updated in place,
each method proved to compute the function of its name.

**The demand pager** (phase 3). The swap pool table, page tables, TLB, frames and flash devices form a
write-back cache. The pager is a protocol of several steps (choose, invalidate, write back, read, publish)
between which user loads and stores, TLB refills and other processes go on, until `releaseFrames` gives
frames back page by page. `Paging.dfy` has the steps, `Pager.dfy` the loops and in-place updates.

**The mutexes** of the support level are an automaton of places between a P and a V (`Locks.dfy`), which the
terminal calls, the pager, termination and the creation of support structures walk through (`TermCalls.dfy`). A
process that is terminated inside a terminal call is part of it, with what becomes of its mutex.

## How to read it

| file | contents |
|---|---|
| Lists, ListX | sequences; circular doubly linked lists over a heap of next and prev fields |
| Nucleus, Invariant | state and functions of the nucleus; its invariant and what each primitive keeps of it |
| Termination, ProcessLife | whom a termination ends; creation and termination keep the invariant |
| Soundness, ClockTick, WakeUps | the other handlers; the wake-up loop of a clock tick |
| Devices, Steps, Runs | device addresses; events; boot, runs and what holds in all of them |
| Semaphores, SemaphoreLaws | conservation of semaphore values, FIFO order, I/O pairing |
| IoAnswers | what a process that asked for I/O can be told |
| BoundedWaiting, CpuTime, Contexts | scheduling order, time accounting, context switching over runs |
| Processor, Identity | who has the processor and who gets it next; what never changes about a process, pids over runs |
| Kernel | the nucleus on linked structures, in place |
| Paging, PagingInvariant, FlatMemory, FlashFailures | the pager, its invariant, invisibility of paging, replacement, failed transfers |
| TextPages | read-only pages and flash devices over runs |
| Pager, PageNumbers | the pager in place; page numbers and handler stacks |
| Locks, TermCalls | mutexes of the support level |

The predicates called `Inv` hold in every state of every run (`Runs.RunInv`, `FlatMemory.RunInv`,
`Locks.MutualExclusion`), and so in particular right after start-up (`Runs.BootInv`, `PagingInvariant.BootInv`).

## Hypotheses

They are the conditions in `Enabled` of `Steps.dfy` and `Paging.dfy`, or part of the boot state; the code
relies on them. Where a program can break one, a lemma says exactly what happens then.

- The clock is monotone, and it is read at most twice in a handler.
- User code applies P and V to its own semaphores only, whose addresses are outside `deviceSemaphore`;
  semaphores start at 0 or more.
- A device is asked for I/O only while its semaphore is 0. `Runs.DeviceWaitExact` shows that this is exactly
  what the invariant needs, and `Runs.StrayInterrupt` that it is an interrupt without waiter, after the death
  of a process with outstanding I/O, that raises the semaphore.
- TLB misses are on pages that have a page table entry: 0x80000 to 0x8001E and 0xBFFFF. Nothing enforces it:
  `PageNumbers.IndexExact` and `OwnEntryExact` say which other pages of kuseg get an entry of the table, and
  `PagingInvariant.RefillExact` when a refill from it leaves the TLB coherent; `AliasBreaks` and `StackAlias` are
  accesses after which it is not.
- A U-proc is started only when no living one has its ASID; a U-proc ends only through its own `terminate`.
- For the contents of memory, flash transfers succeed; `FlashFailures.dfy` says what happens otherwise. The theory
  of the mutexes does without this hypothesis.
- `next_pid`, times and pids are unbounded integers.

## Where the code, its comments and its documentation differ

The model follows the code.

- The interrupt handler takes an interrupt of a terminal for the transmitter's if the transmitter reports a sent
  character, and for the receiver's otherwise (phase2/interrupts.c:111-121). A transmission that fails is therefore
  taken for a reception: `Devices.SourceExact` has the exact condition, `SemaphoreLaws.IoPairing` the consequences
  in any run, `SemaphoreLaws.FailedTransmission` the two processes concerned. phase3/sysSupport.c:190-194 and
  docs/phase-3.md:126 promise the writer the negative status; `IoAnswers.OnlySuccess` shows that no writer is ever
  told of an error.
- A process that SYS5 makes store into a text page, or whose page cannot be brought in during SYS4 or SYS5, is
  terminated without giving the terminal's mutex back, although `isValidAddress` accepts such a buffer
  (phase3/sysSupport.c:116-121, phase3/vmSupport.c:123-124, :196-199, :218-221). `TermCalls.ReadTerminal` and
  `WriteTerminal` say exactly when, `Locks.WholeExact` and `Locks.NeverReturned` what follows, `TermCalls.TextBuffer`
  and `Locks.LosingRun` are an input and a run.
- The comment on Yield (phase2/exceptions.c:531) says that the caller cannot be chosen again at once unless
  there are other processes; the code does the opposite, and chooses it again only if there are none.
- `isValidAddress` (phase3/sysSupport.c:116-121) accepts 30 pages of text and data, while the page table has
  31 (phase3/initProc.c:110-114).
- The masks of the page fault address (phase3/vmSupport.c:131-135) keep 18 bits of the page number, so pages of
  two quarters of the address space share entries, and page 0x8001F has that of the stack page.
- `terminate` (phase3/sysSupport.c:87-108) lets the shell go on before the support structure is back on the
  free list, so for a moment two structures can carry the same ASID; the invariant allows for it, because only
  one of them is alive.
- Pages that were written back stay changed on flash: a program that is run again starts from what its
  previous run left there (`FlatMemory.StartContent`).

## Model

| member | source | states |
|---|---|---|
| ListX.ListHeap.InitHead | headers/listx.h:92-95 | a sentinel made to point at itself is an empty list; the rings of all other lists stay intact |
| ListX.ListHeap.AddBetween | headers/listx.h:104-109 | four link writes put an unchained element between two neighbours: that list gains it at that position, in both directions of the ring |
| ListX.ListHeap.Add | headers/listx.h:119-121 | the element becomes the first of its list |
| ListX.ListHeap.AddBefore | headers/listx.h:131-133 | adding "at the tail" of an element of the ring puts the newcomer just before it |
| ListX.ListHeap.AddTail | headers/listx.h:131-133 | the element becomes the last of its list |
| ListX.ListHeap.Delete | headers/listx.h:143-159 | the element leaves the list it is in, whose other elements keep their order; it points at itself afterwards |
| ListX.ListHeap.Empty | headers/listx.h:180-182 | the pointer test answers whether the list has no elements |
| ListX.ListHeap.RemoveFirst | phase1/pcb.c:14-24 | the head element, if any, is unlinked and returned |
| ListX.LinkedInsert | headers/listx.h:104-109 | the four writes keep every ring of the heap well linked |
| ListX.LinkedDelete | headers/listx.h:143-159 | the unlinking writes keep every ring of the heap well linked |
| Nucleus.InsertPos | phase1/pcb.c:98-117 | the insertion point: everybody before it has at least the priority, the one at it has less |
| Nucleus.DescOf | phase1/asl.c:28-39 | the scan finds a descriptor with the key, or none has it |
| Nucleus.FindPid | phase2/exceptions.c:209-224 | a live process with the pid, or no live process has it |
| Invariant.InsertOrdered | phase1/pcb.c:98-117 | insertion by priority keeps a queue in descending order |
| Invariant.MakeReadyKeeps | phase1/pcb.c:98-117 | queueing an unchained PCB keeps the whole nucleus invariant |
| Invariant.OutReadyKeeps | phase1/pcb.c:140-154 | taking a PCB out of the ready queue keeps the whole invariant |
| Invariant.AllocKeeps | phase1/pcb.c:52-86 | a PCB taken from the free list is in no list, has no relatives, and the invariant holds |
| Invariant.FreeKeeps | phase1/pcb.c:37-50 | freeing a PCB that is in no list and has no children keeps the invariant |
| Invariant.InsertChildKeeps | phase1/pcb.c:161-167 | a younger process under a live parent keeps the tree sound |
| Invariant.OutChildKeeps | phase1/pcb.c:184-194 | cutting a process off its parent keeps the tree sound and makes it an orphan |
| Invariant.RemoveChildIsOutChild | phase1/pcb.c:169-182 | removing the first child is cutting that child off |
| Invariant.UnqueueKeeps | phase1/asl.c:82-94 | a waiter leaves its queue, an emptied descriptor goes back to the free list, and the ASL stays sound |
| Invariant.DescriptorAvailable | phase2/exceptions.c:326-337 | blocking never fails for lack of a descriptor: one is free whenever some PCB is in no list |
| Invariant.BlockKeeps | phase1/asl.c:23-64 | blocking the running process on a semaphore of value 0 keeps the invariant |
| Invariant.WakeKeeps | phase2/utils.c:34-44 | a V that finds waiters wakes the first of the queue, changes no other PCB and keeps the invariant |
| Invariant.VOnSemKeeps | phase2/utils.c:34-44 | V keeps the invariant in either case |
| Termination.KillKeeps | phase2/exceptions.c:245-266 | ending one childless process frees exactly it, whoever its compensating V wakes; both counters stay exact |
| Termination.KillChildrenExact | phase2/exceptions.c:239-243 | the loop over the children ends exactly the proper descendants |
| Termination.RecursiveTerminationExact | phase2/exceptions.c:234-269 | exactly the process and its descendants are freed; every other process keeps all its fields and children, except for waits ended by a compensating V; counters stay exact |
| ProcessLife.EndSubtreeExact | phase2/exceptions.c:298-302 | the same from a state between two events, with the invariant kept |
| ProcessLife.TerminationDeviceSems | phase2/exceptions.c:249-259 | termination performs no V on device semaphores or the clock |
| ProcessLife.RootOfAll | phase2/initial.c:79-80 | while any process lives, the root does and everybody descends from it |
| ProcessLife.CreateKeeps | phase2/exceptions.c:165-199 | creation keeps the invariant, with or without a free PCB |
| ProcessLife.TerminateKeeps | phase2/exceptions.c:280-316 | termination and the rescheduling after it keep the invariant |
| ProcessLife.DieKeeps | phase2/exceptions.c:567-575 | the death of a process without support structure keeps the invariant |
| Soundness.SchedulerKeeps | phase2/scheduler.c:10-47 | from a sound state the scheduler dispatches or idles in the mode the counters call for |
| Soundness.YieldKeeps | phase2/exceptions.c:535-557 | Yield breaks the order of the ready queue only internally |
| Soundness.SliceKeeps | phase2/interrupts.c:50-63 | the end of a time slice keeps the invariant |
| Soundness.PassKeeps | phase2/exceptions.c:345-361 | P keeps the invariant whether or not it blocks |
| Soundness.DeviceWaitKeeps | phase2/exceptions.c:433-453 | doIO and WaitForClock on a semaphore of value 0 keep the invariant |
| Soundness.DeviceDoneKeeps | phase2/interrupts.c:71-141 | a device interrupt keeps the invariant, with a waiter or without |
| ClockTicks.WakeClockStep | phase2/interrupts.c:162-165 | one turn of the wake-up loop makes progress towards the same final state |
| ClockTicks.WakeClockSound | phase2/interrupts.c:159-168 | the wake-up loop ends with nobody waiting for the clock and the invariant intact |
| ClockTicks.TickKeeps | phase2/interrupts.c:148-178 | a clock tick keeps the invariant |
| WakeUps.InsertAllStable | phase1/pcb.c:98-117 | inserting a sequence of processes by priority sorts them stably into the queue |
| WakeUps.ClockWakeUp | phase2/interrupts.c:159-168 | a tick readies exactly the waiters, lowers the soft-block count by their number, and yields the stable priority insertion of them all in blocking order |
| Steps.StepKeeps | phase2/exceptions.c:100-154 | each of the system calls, traps and interrupts keeps the invariant |
| Runs.BootInv | phase2/initial.c:43-92 | the start-up code establishes the invariant with the first process running |
| Runs.FirstIs | phase2/initial.c:63-84 | the first process has the state given, no parent, no support structure, no CPU time, and becomes the root, alone on the ready queue |
| Runs.BootState | phase2/initial.c:43-92 | after start-up the root, the only process, runs in the state given under pid 1; device semaphores and the clock are 0 and the rest of memory is as it was |
| Runs.RunInv | phase2/initial.c:86-92 | the invariant holds in every state of every run |
| Runs.OnePlace | phase1/pcb.c:37-86 | every PCB is in exactly one place - free, ready, the queue of the semaphore p_semAdd names, or running |
| Runs.Counters | phase2/exceptions.c:245-265 | processCount is the number of live processes, softBlockCount the number waiting for a device or the clock |
| Runs.ModeMeans | phase2/scheduler.c:27-46 | halted iff nobody lives, waiting iff nobody is ready and somebody awaits a device or the clock, panicked iff all live processes (at least one) wait on ordinary semaphores |
| Runs.PidIsUnique | phase2/exceptions.c:209-224 | the search returns p exactly when p is the one live process with the pid |
| Runs.OneTree | phase1/pcb.c:161-194 | the live processes form one tree under rootProcess |
| Runs.TerminateEnds | phase2/exceptions.c:280-316 | the processes freed by TerminateProcess are exactly the family of the one named, if any |
| Runs.DeviceWaitExact | phase2/exceptions.c:449-452 | doIO and WaitForClock keep the invariant if and only if the semaphore is 0 |
| Runs.StrayInterrupt | phase2/interrupts.c:124-130 | an interrupt leaves its semaphore at 0 if somebody waits and one higher if nobody does |
| Devices.PortsPair | phase2/exceptions.c:388-425 | the index computed from a command address is the one the interrupt of that device computes |
| Devices.PortsDiffer | phase2/exceptions.c:388-425 | devices and terminal directions never share an index |
| Devices.PortsCover | phase2/exceptions.c:389-397 | every device semaphore but the clock's belongs to a device |
| Devices.KeysInOrder | phase2/exceptions.c:388-397 | indices grow with the interrupt line and the device, receivers after all transmitters; with the lemmas above this determines the whole mapping |
| Devices.FirstPending | phase2/interrupts.c:84-86 | the lowest bit set |
| Devices.SourceExact | phase2/interrupts.c:110-122 | the handler finds the port that raised the interrupt, and passes on its status, exactly if it is no terminal or its transmitter reports a sent character just when it is the transmitter that interrupts; else it takes the other direction |
| Devices.Misread | phase2/interrupts.c:112-121 | a transmission that ends with any status but a sent character is taken for a reception |
| Devices.TransmitterAnswer | phase2/interrupts.c:112-114 | what the handler tells a transmitter is always a success |
| Devices.Decode | phase2/interrupts.c:84-122 | the loop and branches arrive at the semaphore of the port that raised the interrupt exactly under that guard, and then at its status |
| Semaphores.VWaiters | phase2/utils.c:34-44 | V on one semaphore: the first waiter leaves or the value rises; other semaphores are untouched |
| Semaphores.TerminationBalance | phase2/exceptions.c:245-259 | termination changes value minus waiters of any semaphore by the withdrawals of the waiters it kills, which SemaphoreLaws.WithdrawCount counts |
| Semaphores.PassEffect | phase2/exceptions.c:326-361 | P lowers a positive value or appends the caller to the queue, and touches nothing else |
| Semaphores.InterruptEffect | phase2/interrupts.c:124-141 | a device interrupt is a V on the device semaphore |
| Semaphores.TickEffect | phase2/interrupts.c:148-178 | a tick empties the clock queue, zeroes the clock semaphore and touches no other |
| SemaphoreLaws.StepEffect | phase2/exceptions.c:326-380 | what each event does to each semaphore: a V wakes the first waiter or raises the value, a P lowers it or queues the caller, a tick empties the clock, termination lets waiters go; nothing else touches it |
| SemaphoreLaws.StepBalance | phase2/exceptions.c:326-380 | each event changes value minus waiters by its Vs, Ps and withdrawals |
| SemaphoreLaws.SemaphoreLaw | phase2/exceptions.c:326-380 | in every run value and queue length are the positive and negative part of initial value + Vs - Ps + withdrawals by killed waiters |
| SemaphoreLaws.WithdrawCount | phase2/exceptions.c:245-259 | a termination withdraws from a device semaphore exactly once for every member of the family that waits on it in the state before, and from a user semaphore an even number of times, at least once and at most twice for each |
| SemaphoreLaws.WithdrawnCount | phase2/exceptions.c:280-316 | the same for the events of the machine |
| SemaphoreLaws.NoWaiterNoWithdrawal | phase2/exceptions.c:245-259 | a termination withdraws nothing from a semaphore none of the family waits on |
| SemaphoreLaws.StepFair | phase1/asl.c:23-132 | no event lets a waiter overtake another |
| SemaphoreLaws.FirstComeFirstServed | phase1/asl.c:23-132 | over any run survivors leave a queue in blocking order |
| SemaphoreLaws.RequestStays | phase2/exceptions.c:433-453 | only death or the device ends the wait for a device |
| SemaphoreLaws.AnswerReaches | phase2/interrupts.c:124-139 | the interrupt readies the waiter with the device status in a0 |
| SemaphoreLaws.IoPairing | phase2/interrupts.c:71-141 | over any run, a request with nobody else on the port and the next interrupt that this port raises: exactly the requester is answered, with the status of the port, if the guard of SourceExact holds; otherwise it goes on waiting |
| SemaphoreLaws.FailedTransmission | phase2/interrupts.c:112-130 | after a transmission with another status than a sent character, 4 for instance, the writer stays blocked and a waiting reader is told the status of the receiver |
| IoAnswers.WriterHears | phase2/interrupts.c:112-130 | whoever stops waiting for a transmitter and lives has been told of success |
| IoAnswers.OnlySuccess | phase3/sysSupport.c:186-194 | over any run, a process that asked a transmitter for I/O and runs again finds a success in a0 |
| BoundedWaiting.TerminationKept | phase2/exceptions.c:234-269 | termination lets nobody overtake a surviving ready process except by higher priority |
| BoundedWaiting.YieldGivesWay | phase2/exceptions.c:535-557 | Yield dispatches the best other ready process if there is one, and queues the caller behind its equals |
| BoundedWaiting.StepTurn | phase1/pcb.c:98-117 | the ready queue is a stable priority queue under every event |
| BoundedWaiting.StepAhead | phase2/scheduler.c:10-25 | a scheduler call dispatches the process or lowers the number ahead of it |
| BoundedWaiting.BoundedWait | phase2/scheduler.c:10-25 | a ready process with k ahead is dispatched by the k+1st scheduler call, unless it dies or somebody of strictly higher priority intrudes |
| BoundedWaiting.AheadCount | phase1/pcb.c:98-117 | the number of processes ahead is the position in the queue |
| CpuTimes.StepBills | phase2/utils.c:22-31 | every event charges exactly the running process for exactly its slice, or nobody, and restarts the clock of the slice accordingly |
| CpuTimes.RunAccounts | phase2/interrupts.c:132-135 | accounts are covered by the time up to the start of the current slice in every run |
| CpuTimes.NeverTwice | phase2/utils.c:22-31 | all processes together never have more than the time since boot |
| CpuTimes.CpuGrows | phase2/utils.c:22-31 | the CPU time of a living process never decreases |
| CpuTimes.ReportsGrow | phase2/exceptions.c:461-474 | of two answers of GetCPUTime to the same life of a process the later is no smaller |
| Contexts.StepContext | phase2/exceptions.c:100-154 | every event leaves each surviving process with the registers it should have; only a0 may change, and how is stated |
| Contexts.GoesOn | phase2/scheduler.c:15-26 | a process that is dispatched again goes on with the registers it had at the exception |
| Contexts.Created | phase2/exceptions.c:165-199 | the child starts in the given state, ready, with time 0, last among the children, under a fresh pid returned in a0 |
| Processor.InterruptedGoesOn | phase2/interrupts.c:132-141 | the process that a device or the clock interrupts goes on at once with the registers it had, whoever is woken |
| Processor.StaysOn | phase2/exceptions.c:100-154 | at every event but its own terminating, waiting and yielding calls, a fatal trap and the end of its slice, the running process goes on in the state that event leaves to it |
| Processor.KeepsProcessor | phase2/interrupts.c:132-174 | so over any run nothing but these takes the processor away from it |
| Processor.BestDispatched | phase2/scheduler.c:10-25 | a scheduler call, Yield apart, gives the processor to a process of the highest priority among the ready ones, the caller included |
| Identities.StepIdentity | phase2/exceptions.c:165-199 | no event changes parent, priority, pid or support structure of a survivor; its children change only by a new last one and by the one that terminates |
| Identities.StepPool | phase1/pcb.c:48-86 | PCBs are taken from the head of the free list and return at its tail; the root stays; the next pid grows by one with each creation |
| Identities.StepLives | phase2/exceptions.c:567-575 | exactly the created process comes to life, and exactly the family of a terminated or trapped process ends |
| Identities.PidGiven | phase1/pcb.c:80-83 | over any run the k-th created process gets pid k + 1, and its creator is told so: no pid is given out twice |
| Identities.IdentityForLife | phase1/pcb.c:52-86 | over any run a process keeps its identity as long as it lives |
| Kernels.Kernel.constructor | phase2/initial.c:43-57 | the pools and lists are initialised to the blank state |
| Kernels.Kernel.InitPcbs | phase1/pcb.c:26-35 | all PCBs on the free list in table order |
| Kernels.Kernel.InitASL | phase1/asl.c:8-21 | all descriptors on the free list, last one first; no active one |
| Kernels.Kernel.InitFirstProcess | phase2/initial.c:63-84 | the first PCB becomes root and ready, in the state given and otherwise blank |
| Kernels.Kernel.BootKernel | phase2/initial.c:86-92 | boot yields the modelled boot state and the invariant; the root runs in the state given, alone, and memory is as BootState says |
| Kernels.Kernel.InsertProcQ | phase1/pcb.c:98-117 | the scan and the link writes insert before the first lower priority |
| Kernels.Kernel.RemoveProcQ | phase1/pcb.c:132-138 | the head is unlinked, or nothing happens |
| Kernels.Kernel.OutProcQ | phase1/pcb.c:140-154 | the scan unlinks the PCB if it is there and says whether it was |
| Kernels.Kernel.AllocPcb | phase1/pcb.c:52-86 | a blank PCB with the next pid and p_sib initialised, or none; all lists stay intact |
| Kernels.Kernel.FreePcb | phase1/pcb.c:37-50 | the PCB is cleared and queued as free |
| Kernels.Kernel.InsertChild | phase1/pcb.c:161-167 | links and parent field of the new last child |
| Kernels.Kernel.RemoveChild | phase1/pcb.c:169-182 | the first child is cut off, if there is one |
| Kernels.Kernel.OutChild | phase1/pcb.c:184-194 | the process is cut off its parent, if it has one |
| Kernels.Kernel.InsertBlocked | phase1/asl.c:23-64 | queueing on an existing or new descriptor; 1 exactly when none is left |
| Kernels.Kernel.RemoveBlocked | phase1/asl.c:66-101 | the first waiter of the key is taken off, an emptied descriptor given back at the tail |
| Kernels.Kernel.OutBlocked | phase1/asl.c:103-132 | the PCB is taken out of its queue, an emptied descriptor given back at the head |
| Kernels.Kernel.HeadBlocked | phase1/asl.c:134-157 | the first waiter of the key, if any |
| Kernels.Kernel.UpdateProcessState | phase2/utils.c:22-31 | state saved, slice charged |
| Kernels.Kernel.VOnSem | phase2/utils.c:34-44 | direct hand-off or increment |
| Kernels.Kernel.Scheduler | phase2/scheduler.c:10-47 | dispatch, or the idle mode by the counters |
| Kernels.Kernel.SearchByPid | phase2/exceptions.c:209-224 | depth-first search: a process of the subtree with the pid, or none there has it |
| Kernels.Kernel.RecursiveTermination | phase2/exceptions.c:234-269 | the mutating loop equals the recursive function; the result is 1 exactly when the running process was in the family |
| Kernels.Kernel.TerminateProcess | phase2/exceptions.c:280-316 | NSYS2 on the linked structures |
| Kernels.Kernel.PassUpOrDie | phase2/exceptions.c:567-585 | death without support structure, else nothing of the nucleus changes |
| Kernels.Kernel.CreateProcess | phase2/exceptions.c:165-199 | NSYS1 on the linked structures |
| Kernels.Kernel.POnSem | phase2/exceptions.c:326-337 | decrement or block |
| Kernels.Kernel.Passeren | phase2/exceptions.c:345-361 | NSYS3 |
| Kernels.Kernel.Verhogen | phase2/exceptions.c:370-380 | NSYS4 |
| Kernels.Kernel.DoIO | phase2/exceptions.c:433-453 | NSYS5, from the command address |
| Kernels.Kernel.GetCPUTime | phase2/exceptions.c:461-474 | NSYS6 |
| Kernels.Kernel.WaitForClock | phase2/exceptions.c:482-488 | NSYS7 |
| Kernels.Kernel.GetSupportData | phase2/exceptions.c:496-499 | NSYS8 |
| Kernels.Kernel.GetProcessID | phase2/exceptions.c:507-527 | NSYS9 |
| Kernels.Kernel.Yield | phase2/exceptions.c:535-557 | NSYS10 |
| Kernels.Kernel.ProcessorLocalTimer | phase2/interrupts.c:50-63 | end of a time slice |
| Kernels.Kernel.NonTimerInterrupts | phase2/interrupts.c:71-141 | device interrupt |
| Kernels.Kernel.IntervalTimer | phase2/interrupts.c:148-178 | clock tick |
| Kernels.Kernel.WakeAll | phase2/interrupts.c:159-168 | the do-while loop terminates and equals the simultaneous wake-up, with the clock semaphore back at 0 |
| Kernels.Kernel.Handle | phase2/exceptions.c:100-154 | any enabled event handled in place gives the step of the state machine and keeps the invariant |
| Paging.Probe | phase3/vmSupport.c:158-163 | the line that matches page and ASID, or none does |
| Paging.FirstFree | phase3/vmSupport.c:74-78 | the lowest free frame, or all are occupied |
| PagingInvariant.BootInv | phase3/vmSupport.c:92-106 | start-up establishes the pager invariant |
| PagingInvariant.Translation | phase2/exceptions.c:33-53 | for a running process a valid line is its page table entry and names the frame of the page; an invalid one means the page is not in memory |
| PagingInvariant.RefillExact | phase2/exceptions.c:33-53 | after a miss on any page that gets an entry, the refill keeps the invariant exactly if no other line already names the page of that entry |
| PagingInvariant.RefillKeeps | phase2/exceptions.c:33-53 | it does if the page has an entry of its own; no page gets two lines |
| PagingInvariant.AliasBreaks | phase2/exceptions.c:33-53 | a page that has none misses for ever, and two refills for it into different lines break the invariant |
| PagingInvariant.StackAlias | phase2/exceptions.c:38 | one access to 0x8001F does if the stack page has a line elsewhere |
| PagingInvariant.WriteKeeps | phase3/vmSupport.c:231-239 | a user store through the TLB keeps the invariant |
| PagingInvariant.InvalidateKeeps | phase3/vmSupport.c:143-174 | invalidating the victim keeps it: afterwards no valid line maps the frame |
| PagingInvariant.WriteBackKeeps | phase3/vmSupport.c:177-200 | after the write-back, or without one if D is off, the victim equals its block |
| PagingInvariant.ReadKeeps | phase3/vmSupport.c:203-215 | reading the block in keeps the invariant |
| PagingInvariant.PublishKeeps | phase3/vmSupport.c:223-260 | publishing in swap table, page table and TLB keeps the invariant |
| PagingInvariant.ReleaseKeeps | phase3/vmSupport.c:32-55 | each turn of releaseFrames keeps the invariant |
| PagingInvariant.AllReleased | phase3/vmSupport.c:27-59 | after the loop no frame holds a page of the process and no valid line is its |
| PagingInvariant.StepKeeps | phase3/vmSupport.c:116-268 | every step of pager, refill, release, user process and support structure keeps the invariant |
| FlatMemory.OneToOne | phase3/vmSupport.c:226-239 | outside an eviction, a page is valid in a frame exactly when the swap table entry of the frame is that page with its back pointer |
| FlatMemory.NoDanglingPointer | phase3/sysSupport.c:87-108 | back pointers always lead into the structure of a living process, never into a free one |
| FlatMemory.CoherentLine | phase3/vmSupport.c:143-174 | a TLB line of a living process equals its entry and maps the frame the swap table records; never a frame in transit; no page has two lines |
| FlatMemory.ValidLineOwner | phase3/vmSupport.c:27-59 | only living processes have valid lines |
| FlatMemory.StepContent | phase3/vmSupport.c:116-268 | no step changes the contents of a page but a store of its own process, which changes one word |
| FlatMemory.LoadContent | phase3/vmSupport.c:231-239 | a user load returns the contents |
| FlatMemory.CleanPage | phase3/vmSupport.c:177-178 | a page with D off always equals its flash block |
| TextPages.DirtyExact | phase3/vmSupport.c:235-239 | over any run, D is off for a page of a living process exactly if it is one of the text pages with which it was started |
| TextPages.LineDirtyExact | phase3/vmSupport.c:235-260 | the same for its valid TLB lines |
| TextPages.NoTextStore | phase3/vmSupport.c:122-125 | so no store to a text page is ever translated |
| TextPages.TextIsConstant | phase3/initProc.c:129-136 | over any run a text page, and its block, hold what the flash device held when the process was started |
| TextPages.StepFlash | phase3/vmSupport.c:177-200 | a block changes only when a page with D on of the living process of that ASID is written back, and then to the contents of that page |
| TextPages.FlashStays | phase3/vmSupport.c:177-200 | over any run a flash device does not change while no living process has its ASID |
| FlatMemory.RunInv | phase3/vmSupport.c:116-268 | the pager invariant holds in every state of every run |
| FlatMemory.PagingInvisible | phase3/vmSupport.c:116-268 | over any run, page contents are those of a machine without paging |
| FlatMemory.LoadsAreFlat | phase3/vmSupport.c:116-268 | every load returns what the machine without paging returns |
| FlatMemory.FreeFrameFirst | phase3/vmSupport.c:69-84 | nothing is evicted while a frame is free; the lowest free frame is taken |
| FlatMemory.VictimInTurn | phase3/vmSupport.c:80-83 | evictions take the frames round robin |
| FlatMemory.VictimsDiffer | phase3/vmSupport.c:80-83 | any pool size of consecutive victims are distinct, with releases in between |
| FlashFailures.AfterFailedWrite | phase3/vmSupport.c:196-199 | a failed write of a dirty victim breaks the invariant and leaves in its page what the device left in the block; the contents of all other pages survive |
| FlashFailures.AfterFailedRead | phase3/vmSupport.c:218-221 | a failed read keeps the invariant iff the frame was free |
| Pagers.Pager.InitSwapStructs | phase3/vmSupport.c:92-106 | every frame free |
| Pagers.Pager.ReplacementAlgorithm | phase3/vmSupport.c:69-84 | the loop returns the first free frame, else the next in turn |
| Pagers.Pager.ChooseFrame | phase3/vmSupport.c:137 | the choice step of the pager |
| Pagers.Pager.InvalidateVictim | phase3/vmSupport.c:143-174 | V cleared in page table and TLB |
| Pagers.Pager.WriteVictim | phase3/vmSupport.c:177-200 | the dirty victim goes to its block |
| Pagers.Pager.ReadPage | phase3/vmSupport.c:203-215 | the block comes into the frame |
| Pagers.Pager.PublishPage | phase3/vmSupport.c:223-260 | swap table, page table and TLB in one step; every page stays as writable as it was |
| Pagers.Pager.IndexOf | phase3/vmSupport.c:131-135 | the index computed from EntryHI is that of the entry of the page, if it has one |
| Pagers.Pager.TLBPagerHandler | phase3/vmSupport.c:116-268 | the whole pager, from the EntryHI of the fault: the page ends up valid and translated, contents, D bits and invariant kept |
| Pagers.Pager.RefillHandler | phase2/exceptions.c:33-53 | from the number of the missed page: the entry with the index computed goes into a line of the hardware's choice |
| Pagers.Pager.ReleaseFrame | phase3/vmSupport.c:33-54 | one turn of the release loop |
| Pagers.Pager.ReleaseFrames | phase3/vmSupport.c:27-59 | exactly the frames of the ASID are freed, no line of it stays valid, others keep their contents |
| Pagers.Pager.InitPageTable | phase3/initProc.c:105-138 | the loop builds the initial table |
| Pagers.Pager.InitSupportFreeList | phase3/initProc.c:68-77 | all structures free, in order |
| Pagers.Pager.AllocateSupport | phase3/initProc.c:243-253 | the first free structure, if any |
| Pagers.Pager.DeallocateSupport | phase3/initProc.c:84-87 | the structure is free again, last in the list |
| PageNumbers.RoundTrip | phase3/initProc.c:106-122 | a fault on the page of an entry leads back to that entry |
| PageNumbers.EntryHiInjective | phase3/initProc.c:106-122 | EntryHI tells pages and ASIDs apart |
| PageNumbers.IndexExact | phase3/vmSupport.c:131-135 | exactly which pages of kuseg get an index inside the page table: the lowest 32 and the highest one of either half of kuseg |
| PageNumbers.OwnEntryExact | phase2/exceptions.c:36-46 | the entry found there is the page's own exactly for the pages that have one, 0x80000 to 0x8001E and 0xBFFFF |
| PageNumbers.StacksApart | phase3/initProc.c:162-179 | the handler stacks of all U-procs are disjoint and below the base |
| Locks.AskedAbove | phase3/vmSupport.c:128-213 | every mutex asked for ranks above all held: terminal, swap pool, flash, header buffer |
| Locks.HoldsAfter | phase3/vmSupport.c:128-263 | P adds and V removes exactly the mutex named, or what is lost with a process that ends |
| Locks.StepKeeps | phase3/sysSupport.c:177-264 | value + holders + losers = 1 is kept by every P, V, move and death |
| Locks.RunInv | phase3/initProc.c:205-231 | and so holds in every state of every run, with queues only behind mutexes of value 0 |
| Locks.WholeOrLost | phase3/sysSupport.c:87-108 | value + holders = 1 if nobody has died with the mutex, else the value is 0 and nobody holds it |
| Locks.StepLost | phase3/sysSupport.c:323-328 | a mutex is lost at the end of a process terminated in a terminal call, and never otherwise |
| Locks.WholeExact | phase3/sysSupport.c:213-265 | over any run value + holders = 1 exactly until such an end has occurred |
| Locks.MutualExclusion | phase3/initProc.c:205-231 | over any run nobody shares a mutex, and value + holders = 1 for all mutexes but the terminal's, and for the writer's as long as no flash transfer fails |
| Locks.StepFair | phase3/vmSupport.c:128-213 | no event lets a process overtake another in the queue of a mutex |
| Locks.FirstComeFirstServed | phase3/vmSupport.c:128-213 | over any run processes leave the queue of a mutex in the order in which they came |
| Locks.NoCircularWait | phase3/vmSupport.c:128-213 | no chain of waiting processes closes; it has at most five members |
| Locks.SomebodyCanGo | phase3/vmSupport.c:128-213 | behind every blocked process there is one that holds a mutex and is not blocked, or a mutex that is lost; the former if none is |
| Locks.DeathLosesMutex | phase3/sysSupport.c:87-108 | the end of a process terminated in a terminal call leaves its mutex at 0 without holder |
| Locks.OnlyTerminalsLost | phase3/vmSupport.c:196-221 | only a terminal mutex is ever lost, and without failed transfers only the reader's |
| Locks.NeverReturned | phase3/sysSupport.c:87-108 | from the trap or failed transfer on, for the rest of the run, nobody else gets the mutex |
| Locks.BlockedForEver | phase3/sysSupport.c:224-225 | whoever asks for a lost mutex is blocked for the rest of the run |
| Locks.LosingRun | phase3/sysSupport.c:213-265 | a run of five events, from the boot state, that loses the reader's mutex |
| TermCalls.Pager | phase3/vmSupport.c:128-263 | the mutexes held at every point of one page fault, with or without a write-back; where it stops if a transfer fails |
| TermCalls.Access | phase3/sysSupport.c:186 | any number of page faults under a terminal mutex, which is held throughout; the process is terminated exactly if a transfer fails or a store meets a page with D off |
| TermCalls.AccessInCall | phase3/vmSupport.c:122-125 | the terminal call goes on after it, or the process is terminated there with the mutex |
| TermCalls.Terminate | phase3/sysSupport.c:87-108 | terminate gives back the one mutex it takes itself and no other |
| TermCalls.InitSupportStructure | phase3/initProc.c:208-231 | the mutexes held at every point: flash mutex, then header buffer too, then flash mutex alone |
| TermCalls.Accepted | phase3/sysSupport.c:190-194 | the characters before the first error |
| TermCalls.ValidAddressExact | phase3/sysSupport.c:116-121 | the valid addresses are those of the pages that have an entry, but for entry 30 |
| TermCalls.ValidBufferExact | phase3/sysSupport.c:131-175 | the tests accept a buffer exactly if every address in it is valid |
| TermCalls.InBufferExact | phase3/sysSupport.c:236-246 | the test of character i accepts it exactly if the buffer is valid up to there |
| TermCalls.WriteLoop | phase3/sysSupport.c:177-202 | the loop: command i prints character i; result len, or minus the first bad status, with the mutex held throughout and given back, exactly if every character it fetches can be; otherwise the mutex is lost |
| TermCalls.WriteTerminal | phase3/sysSupport.c:145-202 | the tests of length and buffer terminate the process; otherwise len if every status is 5, else minus the first that is not, or the trap of WriteLoop |
| TermCalls.WritableExact | phase3/initProc.c:106-138 | D is off exactly on the pages with an index below textPages, but for the stack page |
| TermCalls.LineRead | phase3/sysSupport.c:248-258 | if the statuses are those of the characters of a line, and all can be stored, exactly the line is stored, newline included, and its length returned |
| TermCalls.CutShort | phase3/sysSupport.c:236-258 | if the line is cut short, the characters before have been stored; a bad place terminates the process, a status that is not that of a character is returned negated, and a character that cannot be stored traps the process |
| TermCalls.ReadTerminal | phase3/sysSupport.c:213-265 | a delivered line is stored and its length returned; in any case the line goes up to its first newline, error, invalid place or trap, and every mutex has been given back at the end exactly if every accepted character can be stored, that is no transfer fails and none falls on a page with D off |
| TermCalls.TextBuffer | phase3/sysSupport.c:260-261 | a buffer at 0x80000000 loses the mutex whatever is received |

## Left out

- Register and BIOS access (LDST, LDCXT, STST, WAIT, HALT, PANIC, LDIT, setTIMER): outcomes or abstract state of a step; the pass-up of an exception to a support structure changes nothing in the nucleus model.
- The state_t register file: a0 and one opaque value for everything else.
- Exception code dispatch, privilege checks and the increment of the program counter.
- An interrupt for which no device bit is set (phase2/interrupts.c:89), after which the handler returns without restarting anybody; a device is always found in the model.
- Devices.Decode: the acknowledgement written to the device, because devices have no state in the nucleus model.
- Runs.RunInv: does not model the wrap-around of next_pid (phase1/pcb.c:81-83) and of cpu_t, because pids and times are unbounded.
- Runs.PidIsUnique: searchByPid dereferences rootProcess even if that process has been freed; it is only called while a process runs, and then the root lives (Runs.OneTree).
- Kernels.Kernel.SearchByPid: recursion over a ghost copy of the tree shows termination; the C code recurses on the same lists.
- Pagers.Pager.AllocateSupport: the list of free support structures is a sequence, not a linked list, and taking from it is one step; the code does it with interrupts on and without a mutex, which the model does not capture.
- Pagers.Pager.ReleaseFrames: shown without steps of other processes between its turns; with them it is the events of Paging.dfy.
- Pagers.Pager.TLBPagerHandler: shown without steps of other processes between its stages; with them it is the events of Paging.dfy.
- Pagers.Pager.InitPageTable: EntryHI is kept as page and ASID, and PFN as frame number; PageNumbers.dfy has the bits of EntryHI.
- TLB hardware: a fixed-size table with probe, indexed write and a write to a line the hardware picks; no line matches a user page at power-on.
- A flash transfer happens in one step while the pager waits for it; partial transfers appear only in FlashFailures.dfy.
- The header read that finds the number of text pages: textPages is a parameter.
- TermCalls.WriteTerminal: what doIO returns is a parameter, of which the nucleus only ever delivers the good half (IoAnswers.OnlySuccess); the characters in the buffer are one too.
- SemaphoreLaws.WithdrawCount: for user semaphores bounds, because how many of the family a compensating V wakes before their turn depends on the queue and on the order of the children.
- TermCalls.ReadTerminal: what doIO returns is a parameter; the read of the character just stored, for the comparison with the newline, is taken to find it.
- Locks.StepKeeps: a process killed by an ancestor while it holds or waits for a mutex; terminate acts on its caller, and the shell, the only one with children, waits for them.
- Devices.SourceExact: the two registers of a terminal both waiting to be served when the interrupt comes; the handler serves one, and the other is another interrupt.
- execute and InstantiatorProcess: their P on shellSemaphore and masterSemaphore, which are ordinary semaphores of the nucleus; no mutex is held there.
- uriscv/cpu.h and the other BIOS headers are not part of this model; the mask of a virtual page number is GETPAGENO of headers/const.h.
- klog.c, the programs in testers/, the finite tests of phases 1 and 2 and the build files.
