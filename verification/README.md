# A verified model of the Yalnix kernel

The kernel under `src/` runs many processes on one processor and is never preempted: every system call runs until it
returns or puts its caller to sleep, and every trap runs to its end. This project models that machine and proves what
holds in every state it can reach, whatever the order of calls and traps.

It has four parts.

**The process machine.** `KernelState` holds the state: PCBs, the ready queue, all wait queues, the table of IPC objects,
the terminals and the clock. `KernelSteps` gives one step of it as a function: a system call up to the point where it
returns or sleeps, the resumption of a sleeping call (each PCB carries what it has still to do in the kernel), or a trap.
`KernelObject.Yalnix` is the kernel in the source's own form, global variables updated in place with the source's loops, and
all process queues as pointer-linked rings; each of its methods is proved to compute, on the state these stand for, the step
function of the same purpose, and `Dispatch` to keep the invariant. The
invariant is stated in `KernelInvariants`; the files `PlaceProofs`, `ScheduleProofs`, `OperationPlaces`, `LockProofs`,
`IpcProofs`, `LifeProofs`, `ExitProofs`, `TtyProofs` and `TtyCallProofs` prove that every step keeps it. `RunTheorems` to
`InputWitness` draw the theorems from it: about every state some run from boot leads to (`RunTheorems.Reached`), and about
every run that starts in such a state. `Outcomes`, `IpcOutcomes`, `TtyOutcomes` and `LifeOutcomes` give, for every call,
resumption and trap, the answer and the whole new state field by field in terms of the state before, apart from the step
function; `AnswerTheorems` sums up when calls fail.

**Data structures.** `IntrusiveQueue` is the pointer-linked circular queue; it behaves as a sequence. `KernelQueues` is all
queues of the kernel at once, with the two entries of every PCB: what the machine has as sequences of pids.
`PipeBuffer` is the pipe's byte buffer with its in-place shift and its doubling.

**Memory.** `FrameOwnership` says what it means that a frame has one owner. `PageTables`, `AddressSpaces`, `KernelBreak` and
`ProgramImage` are the frame table, the page tables and the calls on them, on arrays changed in place. `MemorySystem` says what
any call may do to all of memory as one value and proves what every run of calls keeps; `MemoryObject.Memory` holds the frame
table, the kernel's heap and all address spaces as objects, and each of its calls is proved to be a step of that machine.
`ExecArgs` is the argument block Exec leaves on the new stack.

**Both together.** `SystemTheorems` runs the process machine and the memory machine side by side: forks, exits and reaps of the
one are calls on the other. `PopulationTheorems` says who comes and goes in a step of the process machine. Over every run of
both, the processes other than idle are the owners of address spaces, the zombies are the dead, every call one half makes on the
other can be made, and a process keeps its frames until it is reaped.

Sizes that come from framework headers (`MAX_PROCS`, `NUM_TERMINALS`, `TERMINAL_MAX_LINE`, `PIPE_BUFFER_LEN`, `PAGESIZE`,
`MAX_PT_LEN`, the number of kernel-stack pages and the two stack-layout constants) are unspecified positive constants, so
the results hold for any value of them.

## What turned out not to hold

- *Every process can be found again.* When `ProcessSchedule` picks the process it has just put into the ready queue, no
  switch happens and that process stays marked ready (`src/process.c:189-198`, `222-242`). The next clock trap does not put it
  back, and nothing refers to it any more. `SafetyTheorems.PlacesKeptIff` shows that this is the only way to lose a process:
  a run from boot loses one exactly if some clock trap of it finds the running process marked ready.
  `SafetyTheorems.SelfPickArises` says when a trap sets that up, and `SafetyTheorems.BootThenTwoTicks` shows that two ticks
  after boot are enough.
- *Every byte a terminal receives is delivered or kept.* A reader that was handed a line longer than its buffer replaces the
  leftover line of another reader (`src/tty.c:223-224`). `InputTheorems.InputOfRun` shows, byte by byte with their numbers, that
  what was delivered and what is left is what was received exactly in the runs where that does not happen, and
  `InputWitness.InputCanBeLost` gives a run from boot where it does.
- *Input is delivered in the order it came.* Two readers can get it out of order though nothing is thrown away
  (`InputWitness.InputCanBeReordered`). A read is out of turn if it uses a line of its own while a leftover line exists
  (`src/tty.c:223-224`), or takes a line from the input queue while another reader still has bytes in hand
  (`src/tty.c:208-211`, `237-248`). `InputOrder.InputInOrder` shows that without such a read, and with any number of readers,
  input is in order and nothing is thrown away; `InputOrder.InOrderIff` shows that it is delivered in order exactly in the runs
  without such a read, where the bytes received are all different and so no two equal ones can hide an exchange. A reader alone
  at its terminal is never out of turn (`InputOrder.OneReaderInOrder`). Both witnesses receive lines of two bytes.
- *Exec does not leak frames.* The range checks of `LoadProgram` (`src/template.c:65-67`) let the text overlap the data or the
  stack; for any place the arguments can leave for the stack `ProgramImage.OverlapArises` gives a header that passes them. `ProgramImage.LoadProgram` shows that the frame accounts
  balance exactly if no page is mapped twice, however far the frames last and whether or not the file can be read; with frames
  for the whole image that is exactly if nothing overlaps.
- *The scratch page is nobody else's.* A fork maps each frame it copies into at the scratch page, whatever is mapped there, and
  unmaps the page when it has copied all (`src/process.c:429-434`), but `SetKernelBrk` accepts a break that takes the page in
  (`src/kernelbrk.c:36`). `MemorySystem.ForkLosesFrame` shows that a fork then loses a frame of the kernel's heap exactly if it
  gets as far as copying a page or succeeds; the heap is left with a hole, or, if the fork ran out of memory, with a page on a
  frame that is free. `MemorySystem.EveryRunKeeps` shows that nothing else in any run breaks the frame accounts.
- *A fork that fails changes nothing.* One that runs out of memory after copying a page returns without unmapping the scratch
  page (`src/process.c:418-427`). `MemorySystem.EntryLeftBehind` says exactly when an entry stays behind: it is on the last free
  frame, and does no harm while the break is below the page.
- *Doubling a pipe's capacity stays in range.* From a power of two it stays inside 32-bit signed integers exactly if at most
  2^30 bytes are needed (`PipeBuffer.GrowthFitsIff`).

## Model

| member | source | states |
|---|---|---|
| RunTheorems.BootInv | src/kernelstart.c:27-82 | the state in which the kernel leaves for init's program satisfies the whole invariant |
| RunTheorems.StepKept | src/syscalls.c:14-95 | every call, resumption and trap keeps the invariant; it moves the ready queue by exactly one if it schedules and not at all if not; the only process it can lose is a current process a clock trap finds marked ready |
| RunTheorems.RunKept | src/syscalls.c:14-95 | no sequence of possible steps leads out of the invariant |
| RunTheorems.Reachable | src/kernelstart.c:27-82 | every state reached from boot satisfies the invariant |
| RunTheorems.ReachedInv | src/syscalls.c:14-95 | the same, for a state some run from boot leads to |
| SafetyTheorems.OnePlace | src/process.c:209-258 | in every state reached from boot, a live process is in at most one of: running, ready queue, one wait queue, a write in flight, delayed, waiting for a child, zombie; it is in one of them exactly if it is not lost |
| SafetyTheorems.BookkeepingAgrees | src/ipc.c:351-380 | block_queue names a queue exactly if block_entry is in it, once; ready-queue members are READY, wait-queue members BLOCKED, and the current process is in no queue |
| SafetyTheorems.LostIff | src/process.c:222-242 | from any reachable state, a run ends with a lost process exactly if there was one already or some clock trap found the running process marked ready |
| SafetyTheorems.LostForever | src/process.c:222-242 | a lost process stays lost in every continuation |
| SafetyTheorems.PlacesKeptIff | src/process.c:222-242 | a run from boot loses a process exactly if some clock trap of it found the running process marked ready |
| SafetyTheorems.SelfPickArises | src/process.c:189-198 | a clock trap leaves the running process marked ready exactly if nobody else is ready and no delay ends with that tick |
| SafetyTheorems.BootThenTwoTicks | src/trap.c:30-44 | two clock traps after boot, init is lost |
| SafetyTheorems.NoDanglingPcb | src/process.c:329-365 | no queue, lock owner, terminal writer, parent pointer, list of children or current-process pointer names a process that does not exist |
| SafetyTheorems.ZombieHoldsNothing | src/process.c:261-291 | a zombie owns no lock, is in no queue, has no write in flight and no children, and is nobody's parent |
| SafetyTheorems.ParentIffChild | src/process.c:261-278 | c's parent is p exactly if c is in p's list of children, and it is there once |
| SafetyTheorems.MutualExclusion | src/ipc.c:418-460 | at most one process holds a lock through a successful call; the holder is the owner; an owner that does not hold it yet has been woken; a free lock has no waiters |
| SafetyTheorems.LockWaiterOwnsOrWaits | src/ipc.c:431-446 | a process inside LockAcquire is queued exactly while another process owns the lock; if it runs, it is the owner |
| SafetyTheorems.NoLostWakeUps | src/ipc.c:124-131 | queued pipe readers have an empty pipe, a process blocked in Wait has a child and no zombie child, queued terminal readers have an empty input queue, and nobody is queued on a free slot |
| SafetyTheorems.OutputIsFifo | src/tty.c:252-288 | sent bytes, rest of the write in flight and queued writes make up the accepted bytes; busy exactly while there is a writer; no writer means no queued write; chunks are 1 to TERMINAL_MAX_LINE bytes |
| StepTheorems.StepIsolated | src/ipc.c:351-380 | a step changes no other process's continuation, locks, pending request, exit status or running delay, removes nobody but a zombie, brings nobody but a forked child, makes no other process a zombie, and leaves every object it does not name and every line in another reader's hand alone |
| FairnessTheorems.LockStep | src/ipc.c:449-460 | Release, CvarWait and exit by the owner pass a lock to its oldest waiter, or free it; no other step changes the owner of an owned lock or takes a waiter from it |
| FairnessTheorems.LockIsFair | src/ipc.c:449-460 | over any run, after n releases of a lock the n-th waiter owns it and the other waiters are still first in line, in order |
| FairnessTheorems.KthWaiter | src/ipc.c:418-460 | the waiter at index k becomes the owner with exactly the (k+1)-th release, and until then has exactly the waiters before it that were before it |
| FairnessTheorems.ReadyIsFair | src/process.c:222-242 | over any run, after n calls of ProcessSchedule the n-th process of the ready queue runs and the others are still first, in order |
| FairnessTheorems.KthReady | src/process.c:448-458 | the process at index k of the ready queue is selected by exactly the (k+1)-th ProcessSchedule |
| FairnessTheorems.DelayStep | src/process.c:245-258 | a delay ends with the clock trap that reaches its time, and no other step of any kind changes it |
| FairnessTheorems.DelayIsExact | src/syscalls.c:361-385 | Delay(n) sleeps through every run with fewer than n clock traps, whatever else happens, and the n-th makes the caller ready or running |
| ObjectTheorems.PipeStep | src/ipc.c:102-173 | what a step's read returns, followed by what is then in the pipe, is what was in it followed by what the step's write put in; a pipe ends only by Reclaim, with nobody queued |
| ObjectTheorems.PipeIsStream | src/ipc.c:102-173 | over any run a pipe lives through, bytes read and then bytes buffered are the bytes buffered at first and then the bytes written |
| ObjectTheorems.CvarStep | src/ipc.c:241-266 | a signal wakes the oldest waiter, a broadcast all of them, and no other step takes a waiter away |
| ObjectTheorems.CvarIsFair | src/ipc.c:364-388 | over any run, n wake-ups take exactly the n oldest waiters; later ones stay behind the others |
| ObjectTheorems.CvarWaitIsAtomic | src/ipc.c:269-291 | the step that gives the lock up already has the caller last in the condition variable's queue, so no signal falls in between |
| ObjectTheorems.SuccessMeansOwner | src/ipc.c:269-291 | an Acquire or CvarWait that returns SUCCESS makes the caller own the lock, one that returns ERROR gives it nothing |
| ObjectTheorems.ResumedWaiterOwns | src/ipc.c:431-442 | a lock waiter that resumes owns the lock, so the loop ends at once and its reclaimed-lock error cannot occur |
| Outcomes.SleepIs | src/process.c:222-242 | when the caller no longer runs, the head of the ready queue does, or idle if there is none, and nothing else changes |
| Outcomes.RouseAllIs | src/ipc.c:364-388 | waking all of a queue puts its waiters at the end of the ready queue in their order, each answered SUCCESS, and changes nothing else |
| IpcOutcomes.AcquireOutcome | src/ipc.c:418-446 | Acquire fails exactly without such a lock, for idle and for the owner; it takes a free lock; it parks the caller last in the queue of a lock somebody else owns; nothing else changes |
| IpcOutcomes.AcquireResumes | src/ipc.c:431-442 | a lock waiter that resumes owns the lock, holds it, and is answered SUCCESS |
| IpcOutcomes.ReleaseOutcome | src/ipc.c:205-218 | fails exactly unless the caller owns the lock, which then is its oldest waiter's, who is last in the ready queue, or free |
| IpcOutcomes.CvarWaitOutcome | src/ipc.c:269-285 | fails exactly without such a condition variable or without the lock; else gives the lock up and parks the caller last |
| IpcOutcomes.CvarWaitResumes | src/ipc.c:285-291 | a CvarWait that resumes fails exactly if condition variable or lock is gone or the lock is its own, and else takes the lock or is parked for it |
| IpcOutcomes.SignalOutcome | src/ipc.c:241-252 | fails exactly without such a condition variable; else the oldest waiter is last in the ready queue |
| IpcOutcomes.BroadcastOutcome | src/ipc.c:255-266 | fails exactly without such a condition variable; else all waiters are in the ready queue in their order |
| IpcOutcomes.PipeReadOutcome | src/ipc.c:102-144 | which calls fail; an empty pipe parks the caller; else the answer is the number of bytes, the first there are, up to the length asked for |
| IpcOutcomes.PipeReadResumes | src/ipc.c:124-131 | a reader that resumes fails exactly if the pipe is gone, and else reads or is parked again |
| IpcOutcomes.GrownIsDoubled | src/ipc.c:400-403 | the capacity of a pipe that grows is the first doubling that is enough |
| IpcOutcomes.PipeWriteOutcome | src/ipc.c:147-173 | a write to a pipe answers its length exactly if it fits or there is memory to grow; the bytes are then at the end of the pipe and all its readers ready |
| IpcOutcomes.InitOutcome | src/ipc.c:176-196 | an init call fails exactly for a null pointer, a full table or, for a pipe, without memory; else it stores the first free slot, which holds the new object with nobody queued |
| IpcOutcomes.ReclaimOutcome | src/ipc.c:294-323 | fails exactly for a free slot, an owned lock and an object somebody waits for; else frees that slot and no other |
| TtyOutcomes.TtyReadOutcome | src/tty.c:43-78 | which calls fail; else the bytes of the leftover line or the first queued one, up to the length asked for, what is left of the line being kept; without a line the caller is parked |
| TtyOutcomes.TtyReadResumes | src/tty.c:202-230 | a reader that resumes gets its own line, or one that is there, or is parked again |
| TtyOutcomes.TtyWriteOutcome | src/tty.c:81-126 | which calls fail; else the caller sleeps, its first chunk sent if the terminal is free, and else last in the queue of writers |
| TtyOutcomes.TtyWriteResumes | src/tty.c:121-126 | a writer resumes with the number of bytes it gave |
| TtyOutcomes.ReceiveOutcome | src/tty.c:130-165 | a received line goes to the oldest waiting reader, who is last in the ready queue, or to the end of the input queue |
| TtyOutcomes.TransmitOutcome | src/tty.c:168-193 | the trap sends the next chunk of the write in flight, or ends that write with its length as the answer and sends the first chunk of the oldest queued one |
| LifeOutcomes.ForkOutcome | src/syscalls.c:98-124 | fails exactly for idle and if child or context cannot be made; else the parent is answered the child's pid and the child, every field of whose PCB is given, is last in the ready queue with the answer 0 |
| LifeOutcomes.WaitOutcome | src/syscalls.c:162-201 | Wait fails exactly for idle and without children; reaps the first zombie in the list, answering its pid and storing its status; else sleeps |
| LifeOutcomes.WaitResumes | src/syscalls.c:172-200 | the same when it resumes |
| LifeOutcomes.DelayOutcome | src/syscalls.c:361-386 | fails exactly for a negative count and for idle; answers SUCCESS at once for zero; else sleeps until the clock has advanced so far |
| LifeOutcomes.DelayResumes | src/syscalls.c:361-386 | a delay that is over is answered SUCCESS |
| LifeOutcomes.ExitOutcome | src/process.c:261-291 | the children lose their parent, the locks pass on in the order of the table, a parent that waits is ready, the caller is a zombie with its status, and the next process runs |
| LifeOutcomes.ClockOutcome | src/trap.c:30-44 | one tick: the delays that are over end in pid order, the running process goes behind them to the end of the line, and the head of the line runs |
| LifeOutcomes.BootOutcome | src/kernelstart.c:27-82 | every field of the state in which the kernel leaves for init's program |
| AnswerTheorems.FailsIff | src/syscalls.c:14-95 | in every reached state, a call or one that resumes is answered ERROR exactly if a condition on the state before holds, given for each call |
| TtyTheorems.OutputOfRun | src/tty.c:81-127 | in every run from boot, a terminal's sent bytes, rest in flight and queued writes are the accepted writes, in the order of the calls |
| TtyTheorems.TrapEndsWrite | src/tty.c:168-193 | the transmit trap continues the write in flight while bytes are left; otherwise it readies the writer, all of whose bytes were sent in exactly ceil(len / TERMINAL_MAX_LINE) chunks |
| TtyTheorems.WriteInFlight | src/tty.c:168-193 | nothing but the transmit trap of its terminal ends a write, and that only after its last chunk |
| InputTheorems.InputStep | src/tty.c:202-230 | as multisets of bytes: what is left, delivered and overwritten in a step is what was there before and what the step received |
| InputTheorems.InputConservedIff | src/tty.c:202-230 | over any run the received bytes, each as often as it came, are the ones delivered, still in the kernel, or in a leftover line that was replaced; none are missing exactly if no reader replaced a leftover line |
| InputTheorems.InputOfRun | src/tty.c:202-249 | from boot, the bytes delivered and left are the bytes received exactly if no reader replaced a leftover line |
| InputOrder.StepInTurn | src/tty.c:202-249 | with any number of readers, a step is a read out of turn, and then delivers a byte with an older one before it, or what it delivers is the front and what it receives the end of: the leftover line, the lines in hand in the order their readers are to run, the input queue |
| InputOrder.RunInTurn | src/tty.c:43-78 | the same of any run without a read out of turn; no leftover line is replaced in it |
| InputOrder.RunOutOfTurn | src/tty.c:202-249 | a run with a read out of turn delivers something else than the front of what was there and came, if all those bytes are different |
| InputOrder.AloneInTurn | src/tty.c:223-224 | a reader alone at its terminal is never out of turn |
| InputOrder.InputInOrder | src/tty.c:43-78 | over every run from boot without a read out of turn, the bytes delivered, then those left over, in hand in the order of their readers and queued, are the bytes received, in order, and none is replaced |
| InputOrder.InOrderIff | src/tty.c:202-249 | in a run from boot whose received bytes are all different, they are delivered in the order they came exactly if no read is out of turn |
| InputOrder.OneReaderInOrder | src/tty.c:43-78 | over every run from boot in which no two processes read a terminal at a time, its input is delivered in order and none is replaced |
| InputWitness.InputCanBeLost | src/tty.c:223-224 | a run from boot with two readers in which a leftover byte is thrown away |
| InputWitness.InputCanBeReordered | src/tty.c:202-230 | a run from boot with two readers in which nothing is thrown away and the bytes delivered are not the first of those received |
| LifeProofs.ForkUndone | src/syscalls.c:112-116 | a fork whose context copy fails leaves the state as if only ERROR had been returned |
| LifeProofs.WaitReapIs | src/syscalls.c:175-188 | reaping removes exactly the child and its place in the list of children, and hands out its pid and exit status |
| ExitProofs.ExitKept | src/process.c:261-291 | exit leaves a zombie with its status, releases the locks, wakes a waiting parent, and keeps everything the machine's invariant says |
| ExitProofs.ReleaseAllKept | src/ipc.c:61-70 | after the loop over the objects the exiting process owns no lock |
| KernelSteps.GrownCap | src/ipc.c:400-403 | doubling ends at a capacity that is enough and, if it grew, less than twice what is needed |
| KernelSteps.FirstFree | src/ipc.c:326-338 | the index found is the first free slot, or the size of the table |
| KernelObject.Yalnix.Dispatch | src/syscalls.c:14-95 | one call, resumption or trap of the object, pointer-linked queues included, does what the step function says and keeps the object valid |
| KernelObject.HandlersOf | src/process.c:329-365 | in every state that satisfies the invariant the pointer operations of the calls are safe: the caller is in no wait queue, a zombie child is linked nowhere but to its parent, owners and writers exist, and a free slot has an empty queue |
| KernelObject.Yalnix.ContinueCurrent | src/ipc.c:351-361 | the process that gets the processor continues in the kernel function where it slept |
| KernelObject.Yalnix.constructor | src/kernelstart.c:27-82 | the object starts in the boot state, all queues empty rings, and valid |
| KernelObject.Yalnix.ProcessMakeReady | src/process.c:209-219 | marks ready and pushes the entry if its links are null; leaves the idle process and zombies out |
| KernelObject.Yalnix.ProcessWakeDelayed | src/process.c:245-258 | the scan of the process table readies exactly the processes whose delay is over, in pid order |
| KernelObject.Yalnix.ProcessSchedule | src/process.c:222-242 | wakes delays, puts the running process back, selects the head of the ready queue or idle, and marks it running unless it is the current one |
| KernelObject.Yalnix.OrphanChildren | src/process.c:274-278 | the loop that empties the list of children and clears their parents |
| KernelObject.Yalnix.ProcessExitCurrent | src/process.c:261-291 | orphans the children, releases the locks, becomes a zombie, wakes a waiting parent and schedules |
| KernelObject.Yalnix.ProcessDestroy | src/process.c:329-365 | unlinks the process from its parent, its children, the ready queue and its wait queue, and removes it with its entries |
| KernelObject.Yalnix.BlockOnQueue | src/ipc.c:351-361 | blocks the caller at the end of the queue and schedules |
| KernelObject.Yalnix.WakeFirst | src/ipc.c:364-380 | takes the head of the queue, readies it with SUCCESS, and says who it was |
| KernelObject.Yalnix.WakeEverybody | src/ipc.c:383-388 | wakes the waiters one by one until the queue is empty |
| KernelObject.Yalnix.ReleaseLock | src/ipc.c:449-460 | frees the lock and gives it to the waiter it wakes |
| KernelObject.Yalnix.IpcProcessExit | src/ipc.c:61-70 | the loop over the table that releases the locks of one process |
| KernelObject.Yalnix.LockAcquireLoop | src/ipc.c:431-446 | takes a free lock or blocks for it |
| KernelObject.Yalnix.LockAcquire | src/ipc.c:418-446 | refuses a bad id, the idle process and the owner itself; else takes the lock or waits |
| KernelObject.Yalnix.ResumeLockAcquire | src/ipc.c:433-441 | what LockAcquire does after it slept |
| KernelObject.Yalnix.SysRelease | src/ipc.c:205-218 | refuses all but the owner |
| KernelObject.Yalnix.SysCvarWait | src/ipc.c:269-286 | refuses unless the caller owns the lock; else releases it and sleeps on the condition variable |
| KernelObject.Yalnix.ResumeSysCvarWait | src/ipc.c:286-291 | fails if the condition variable is gone, else takes the lock again |
| KernelObject.Yalnix.SysCvarSignal | src/ipc.c:241-252 | wakes one waiter of an existing condition variable |
| KernelObject.Yalnix.SysCvarBroadcast | src/ipc.c:255-266 | wakes all waiters of an existing condition variable |
| KernelObject.Yalnix.PipeReadRound | src/ipc.c:124-143 | sleeps on an empty pipe; else takes the first bytes and leaves the rest |
| KernelObject.Yalnix.SysPipeRead | src/ipc.c:102-144 | the checks of a pipe read, in their order, and then the read |
| KernelObject.Yalnix.ResumeSysPipeRead | src/ipc.c:126-130 | fails if the pipe is gone while the reader slept, else tries again |
| KernelObject.Yalnix.NewCapacity | src/ipc.c:400-403 | the doubling loop |
| KernelObject.Yalnix.SysPipeWrite | src/ipc.c:147-173 | the checks of a pipe write, growth or failure, the append, and the wake-up of all readers |
| KernelObject.Yalnix.FindFree | src/ipc.c:326-338 | the scan for a free slot |
| KernelObject.Yalnix.AllocObject | src/ipc.c:73-99 | makes a lock, condition variable or pipe in the first free slot and stores its id, or fails |
| KernelObject.Yalnix.SysReclaim | src/ipc.c:294-323 | frees an object nobody owns or waits for |
| KernelObject.Yalnix.TtyStartWrite | src/tty.c:252-288 | starts the next chunk or the next queued write of a terminal that is not busy |
| KernelObject.Yalnix.SysTtyWrite | src/tty.c:81-120 | the checks of a terminal write, the copy, and the start or queueing of it |
| KernelObject.Yalnix.ResumeSysTtyWrite | src/tty.c:122-127 | frees the copy and returns its length |
| KernelObject.Yalnix.TrapTtyTransmit | src/tty.c:168-193 | ends the chunk, readies the writer after its last one, and starts what is next |
| KernelObject.Yalnix.TtyReadRound | src/tty.c:64-77 | uses the reader's own line, the leftover line or the next queued one, and keeps what does not fit; else sleeps |
| KernelObject.Yalnix.SysTtyRead | src/tty.c:43-78 | the checks of a terminal read, in their order, and then the read |
| KernelObject.Yalnix.ResumeSysTtyRead | src/tty.c:64-77 | the loop of a terminal read after it slept |
| KernelObject.Yalnix.TrapTtyReceive | src/tty.c:130-165 | hands the line to the first reader or queues it |
| KernelObject.Yalnix.FindZombie | src/syscalls.c:175-188 | the scan of the list of children for the first zombie |
| KernelObject.Yalnix.SysWait | src/syscalls.c:162-201 | reaps the first zombie child, fails without children, else sleeps |
| KernelObject.Yalnix.ResumeSysWait | src/syscalls.c:194-200 | clears the waiting mark and looks again |
| KernelObject.Yalnix.SysFork | src/syscalls.c:98-124 | makes a child, links it to its parent and readies it, or leaves no trace of it |
| KernelObject.Yalnix.SysDelay | src/syscalls.c:361-385 | refuses a negative count, returns at once for zero, else sleeps until the clock has advanced so far |
| KernelObject.Yalnix.TrapClock | src/trap.c:30-44 | one tick and one ProcessSchedule |
| IntrusiveQueue.QueueEntry.constructor | src/Queue.c:13-18 | a new entry is in no queue, with null links |
| IntrusiveQueue.Queue.constructor | src/Queue.c:4-10 | a new queue is the empty ring |
| IntrusiveQueue.Queue.IsEmpty | src/Queue.c:21-24 | true exactly if the sequence is empty |
| IntrusiveQueue.Queue.PushBack | src/Queue.c:27-34 | appends to the sequence, touching the head, the last entry and the new one only |
| IntrusiveQueue.Queue.PopFront | src/Queue.c:37-48 | takes the first entry of the sequence, or null if there is none |
| IntrusiveQueue.Queue.Unlink | src/Queue.c:57-61 | the four assignments take the entry at any place out of the ring |
| IntrusiveQueue.Queue.Remove | src/Queue.c:51-62 | deletes the entry wherever it stands and unlinks it; an entry in no queue is left alone |
| IntrusiveQueue.Queue.LinkedEntry | src/Queue.c:51-62 | a linked entry has no null link and its neighbours point to it |
| IntrusiveQueue.NullLinksMeanUnqueued | src/process.c:215-218 | among queues that share nothing, an entry's links are null exactly if it is in none, and it is in at most one |
| IntrusiveQueue.PushOn | src/process.c:215-218 | pushing an entry with null links keeps all queues consistent and leaves the others as they were |
| IntrusiveQueue.RemoveFrom | src/process.c:346-352 | removing an entry from its queue deletes its owner from that queue's sequence and leaves the others as they were |
| IntrusiveQueue.PopFrom | src/Queue.c:37-48 | popping a queue takes its first entry and leaves all the others as they were |
| KernelQueues.Queues.constructor | src/process.c:24-33 | all queues are empty rings that share nothing, and the entries of the first processes have null links |
| KernelQueues.Queues.ReadyLinked | src/process.c:215-218 | the links of a ready entry are null exactly if its process is not in the ready queue |
| KernelQueues.Queues.BlockLinked | src/process.c:351-354 | the links of a block entry are null exactly if its process is in no wait queue |
| KernelQueues.Queues.MakeReady | src/process.c:215-218 | the null-link test and the push append the process unless it is in the ready queue already |
| KernelQueues.Queues.NextReady | src/process.c:448-458 | takes the head of the ready queue, and says whose entry it was |
| KernelQueues.Queues.Unready | src/process.c:348-350 | takes the process out of the ready queue wherever it stands, if it is there |
| KernelQueues.Queues.Block | src/ipc.c:351-361 | puts a process that is in no wait queue at the end of one, no other queue changing |
| KernelQueues.Queues.Wake | src/ipc.c:364-380 | takes the first process of a wait queue, no other queue changing |
| KernelQueues.Queues.Unblock | src/process.c:351-354 | takes the process out of the wait queue it is in |
| KernelQueues.Queues.Add | src/process.c:148-150 | a new PCB gets two entries with null links |
| KernelQueues.Queues.Drop | src/process.c:360-364 | a PCB that is in no queue can be freed |
| PipeBuffer.ShiftDown | src/ipc.c:138-141 | the overlapping upward copy moves the rest of the bytes to the front unharmed |
| PipeBuffer.PipeState.constructor | src/ipc.c:73-99 | a new pipe is empty with capacity PIPE_BUFFER_LEN |
| PipeBuffer.PipeState.EnsureCapacity | src/ipc.c:391-415 | keeps the contents, grows to the doubled capacity or fails without change; over all growths fewer bytes are copied than the final capacity |
| PipeBuffer.PipeState.Write | src/ipc.c:165-169 | appends the bytes exactly if they fit or there is memory to grow, as the state machine's pipe does, or leaves the pipe as it was |
| PipeBuffer.PipeState.Read | src/ipc.c:133-143 | takes the first bytes into the caller's buffer and nothing else, exactly as the state machine's pipe |
| PipeBuffer.GrowthIsTight | src/ipc.c:400-403 | the new capacity is at least what is needed and below twice that; no overflow up to 2^30 bytes |
| PipeBuffer.GrowthFitsIff | src/ipc.c:400-403 | from a power of two, the new capacity fits a 32-bit signed integer exactly if at most 2^30 bytes are needed |
| FrameOwnership.Claim | src/memory.c:44-56 | allocating a frame and mapping it gives it to one owner and touches nobody else's |
| FrameOwnership.Drop | src/memory.c:59-67 | freeing a mapped frame and unmapping it takes it from its owner and touches nobody else's |
| FrameOwnership.Overwrite | src/memory.c:129-148 | mapping over a mapped page leaves the old frame allocated and nobody's |
| FrameOwnership.SameSlotsSameFrames | src/syscalls.c:236-253 | a lawful change that ends with the same pages mapped to the same frames ends with the same frame table |
| FrameOwnership.LawfulKeepsPartition | src/memory.c:44-67 | a lawful change by one owner keeps every allocated frame with exactly one owner, over all owners |
| PageTables.PhysicalMemory.FrameAlloc | src/memory.c:44-56 | gives the lowest free frame and marks it, or fails exactly if none is free |
| PageTables.PhysicalMemory.FrameFree | src/memory.c:59-67 | clears the mark of a frame in range, ignores any other number |
| PageTables.MapPage | src/memory.c:129-148 | sets one entry, or refuses an index out of range and a negative frame |
| PageTables.UnmapPage | src/memory.c:151-168 | clears one entry, ignores an index out of range |
| PageTables.PhysicalMemory.FreePageTableFrames | src/memory.c:171-189 | frees the frame of every mapped page and clears the entries, and nothing else |
| PageTables.PhysicalMemory.GrowPages | src/syscalls.c:236-253 | maps the pages of the range, or leaves page table and frame table as they were; it fails exactly if too few frames are free |
| PageTables.PhysicalMemory.Rollback | src/syscalls.c:239-242 | unmaps and frees exactly the pages mapped so far |
| PageTables.PhysicalMemory.ShrinkPages | src/syscalls.c:256-261 | unmaps and frees exactly the mapped pages of the range |
| AddressSpaces.AddressSpace.AllocKernelStack | src/process.c:368-385 | takes a frame for every slot, or leaves the frame table as it was; it fails exactly if too few are free |
| AddressSpaces.AddressSpace.FreeKernelStack | src/process.c:388-402 | frees the frames of the non-zero slots and clears them |
| AddressSpaces.Rounded | src/syscalls.c:229-230 | an address lies on exactly one page, and rounding it up gives the first page start not below it |
| AddressSpaces.AddressSpace.SysBrk | src/syscalls.c:216-267 | succeeds exactly for an address between heap start and stack with enough frames free; the break is then the first page start not below the address, and every address of the heap below that is on a mapped page; changes only the pages between the two breaks; an ERROR changes nothing; the layout is kept |
| AddressSpaces.BrkThereAndBack | src/syscalls.c:216-267 | growing the break and shrinking it back restores page table, break and frame table entirely |
| AddressSpaces.AddressSpace.GrowStack | src/process.c:294-326 | succeeds exactly for an address between break and stack with enough frames free; the stack then starts on the page of that address, and every address from it up is on a mapped page; keeps the gap |
| AddressSpaces.AddressSpace.CopyRegion1 | src/process.c:405-437 | the copy, made through the scratch page of Region 0, has the validity, protection and bytes of every page on frames of its own; no allocated frame changes its contents; a success unmaps the scratch page, a failure leaves page table and frame table as they were and the scratch page on the last free frame, if there was one |
| KernelBreak.KernelHeap.SetKernelBrk | src/kernelbrk.c:23-80 | moves the break by mapping or unmapping exactly the pages between, whatever the scratch page's entry says, to the first page start not below the address or the end of the image; every address of the heap below that is on a mapped page; refuses exactly if it would go above the start of the kernel stack or too few frames are free, changing nothing |
| KernelBreak.KernelHeap.Grow | src/kernelbrk.c:50-71 | maps the pages up to the new break, or leaves page table and frame table as they were; fails exactly if too few frames are free |
| KernelBreak.HeapThereAndBack | src/kernelbrk.c:50-79 | growing the kernel's heap and shrinking it back restores the frame table, and the page table exactly if no entry in the scratch page was mapped over |
| ProgramImage.MapRange | src/template.c:145-162 | maps new frames for the range as far as frames last; a page that was mapped loses its frame |
| ProgramImage.MapImage | src/template.c:84-95 | frees the old program's pages and maps text, data and stack in this order as far as the frames last; frames get lost exactly if a page was mapped twice |
| ProgramImage.LoadProgram | src/template.c:65-142 | refuses without change exactly if a check fails; a load that succeeds leaves the new image's page table, heap start, break and stack; a load that kills leaves the first pages of the image, as many as there were frames; the frame accounts balance exactly if no page was mapped twice, with frames for everything exactly if nothing overlaps |
| ProgramImage.LoadedLayout | src/template.c:135-139 | a well-formed program starts with heap below, stack above and an unmapped gap between |
| ProgramImage.WellFormedApart | src/template.c:65-67 | segments that follow each other do not overlap |
| ProgramImage.RefusedExactly | src/template.c:65-67 | a well-formed program is refused exactly if it begins below Region 1 or leaves no unmapped page below the stack |
| ProgramImage.OverlapArises | src/template.c:56-67 | wherever the stack starts, a header passes the checks and has its text and its data on the same page; as soon as two pages are mapped, one has been mapped twice |
| ProgramImage.WholeImage | src/template.c:84-95 | with frames for the whole image the pages mapped are its ranges, and one is mapped twice exactly if they overlap |
| MemorySystem.CreateChild | src/process.c:117-163 | makes an address space that copies the parent's, exactly if there is a pid and there are frames enough for stack and pages; otherwise the frame table is what it was; what happens to the scratch page in either case |
| MemorySystem.CreateInit | src/process.c:81-114 | init is made exactly if its image fits and can be read and there are frames for it and its kernel stack; its address space holds frames nobody held before and has the image's layout |
| MemorySystem.DestroySpace | src/process.c:360-364 | all frames the process held are free again, and no other |
| MemorySystem.EntryLeftBehind | src/process.c:418-427 | with the break below the scratch page, a fork leaves an entry in it exactly if a pid was given and there were frames for the kernel stack and a page but not for all pages; it is on a free frame, and the accounts are right |
| MemorySystem.ForkLosesFrame | src/process.c:405-437 | some allocated frame is nobody's after a fork exactly if the break takes in the scratch page and the fork copies a page or succeeds; it is the frame of the heap's last page, which is unmapped, or on a free frame if the fork failed; the accounts are right exactly if not |
| MemorySystem.NextKeeps | src/process.c:117-163 | init's creation, fork, exec, break changes, stack growth or death, exit, destruction, kernel-heap changes and user stores, with all their failures, keep every allocated frame with exactly one owner and give or keep every live process its layout, exactly if the call is not a fork that maps its copies over the kernel's heap |
| MemorySystem.EveryRunKeeps | src/process.c:329-365 | the same over any sequence of such calls, pids being used again included: all states of the run are right exactly if no fork of it maps over the heap |
| MemorySystem.OneOwner | src/memory.c:44-67 | an allocated frame is reserved, or one owner holds it, in exactly one slot |
| MemorySystem.RightAtBoot | src/kernelstart.c:36-44 | with no process yet, reserved frames and the kernel's heap being all that is allocated, the accounts are right |
| MemorySystem.OthersSeeNothing | src/process.c:405-437 | no call or store changes the address space of a process it is not about, or a byte that process sees |
| MemorySystem.MemoryIsPrivate | src/process.c:405-437 | over any run without a call or store of its own a process sees the same bytes on the same pages |
| MemorySystem.ForkCopies | src/process.c:405-437 | a child starts with exactly the bytes its parent sees, and the fork changes none of the parent's |
| MemorySystem.StoreSeen | src/memory.c:129-148 | a store changes the one page it is made to, of all the process sees |
| MemoryObject.Memory.constructor | src/kernelstart.c:36-44 | starts valid, without processes, from reserved frames and the kernel's heap |
| MemoryObject.Memory.Brk | src/syscalls.c:216-267 | SysBrk on one of the address spaces is a step of the memory machine |
| MemoryObject.Memory.Fault | src/trap.c:67-86 | stack growth is one; when it fails the process is to die |
| MemoryObject.Memory.Exec | src/template.c:15-142 | loading a program is one; when the old program is gone the process is to die |
| MemoryObject.Memory.Fork | src/process.c:117-163 | a child joins the address spaces, or all is as it was but for the contents of free frames and the scratch page's entry; the accounts are right exactly if the fork maps nothing over the heap |
| MemoryObject.Memory.Init | src/kernelstart.c:54-77 | init joins the address spaces, or the kernel panics, exactly without room, a readable file and enough frames |
| MemoryObject.Memory.Destroy | src/process.c:329-365 | a process leaves the address spaces and its frames are free |
| MemoryObject.Memory.KernelBrk | src/kernelbrk.c:23-80 | SetKernelBrk leaves the address spaces alone |
| MemoryObject.Memory.Dispatch | src/syscalls.c:14-95 | whatever is asked, all objects together step as the memory machine says, stay distinct, and keep the accounts exactly if it is not a fork that maps over the heap |
| PopulationTheorems.StepPeopled | src/process.c:261-365 | a step adds the child of a fork that succeeds, removes the zombie a Wait finds, and makes a zombie of nobody but a caller that exits |
| SystemTheorems.SysKept | src/syscalls.c:97-157 | one step of processes and memory together keeps the owners of address spaces exactly the processes other than idle and the dead exactly the zombies, and every frame with one owner unless a fork maps over the kernel's heap, an undone fork included |
| SystemTheorems.EverySysRunKeeps | src/syscalls.c:14-95 | over any run of both, all of that holds in every state exactly if no fork of the run maps over the heap |
| SystemTheorems.BootRight | src/kernelstart.c:54-77 | it holds when the kernel leaves for init's program |
| SystemTheorems.KernelAsksPossible | src/syscalls.c:97-157 | a fork, exit or reap of the process half always finds memory as the call needs it: a live caller, an unused pid, a dead child with an address space |
| SystemTheorems.HeldByProcesses | src/process.c:329-365 | an allocated frame that is not reserved is held by the kernel's heap or by a process that exists and is not idle, and not by both |
| SystemTheorems.UnreapedKeep | src/process.c:261-365 | a process that is still there keeps its address space, its frames and every byte it sees, whatever step is made that is not its own doing |
| SystemTheorems.ReapFreesExactly | src/process.c:360-364 | reaping a child frees exactly the frames it held and leaves all other address spaces alone |
| SystemTheorems.ZombieKeepsMemory | src/process.c:261-291 | over any run in which it is not reaped, a zombie keeps its address space as it was, on allocated frames |
| ExecArgs.CopyExecArgs | src/syscalls.c:270-324 | copies name and vector, or the name alone as the vector; fails exactly without a name, with 64 or more arguments, or when memory runs out |
| ExecArgs.SizeOfArgs | src/template.c:51-54 | the bytes of all strings with their terminators |
| ExecArgs.FillBuffer | src/template.c:77-81 | the kernel's copy is the strings one after the other |
| ExecArgs.BlockPlaced | src/template.c:56-63 | the pointers are at the highest 8-aligned place that lets them end below the strings, the stack pointer is the initial frame below them and on the stack's first page; the stack has at least one page, and every address from the stack pointer up is on one of its pages |
| ExecArgs.BlockIsMapped | src/template.c:60-95 | on the page table LoadProgram leaves, every address from the stack pointer to the end of Region 1 is on a mapped page, writable unless the text overlaps the stack |
| ExecArgs.WriteBlock | src/template.c:121-134 | fills the block: the count, the pointers in order, two nulls, the strings, and zero everywhere else |
| ExecArgs.ArgumentsArrive | src/template.c:121-134 | reading count, pointers and strings back gives the argument vector, with null pointers behind it |
| ExecArgs.PassArguments | src/template.c:51-134 | from the vector to the new stack and back: the new program reads exactly the caller's arguments |

## Left out

- PCBs are values in a map from pids, and a PCB's list of children is a sequence of pids, so aliasing is modelled for the ready and wait queues alone (`KernelQueues`); that no pointer dangles is `SafetyTheorems.NoDanglingPcb`. The pipes of `KernelObject` are values; `PipeBuffer` shows that the buffer in place behaves as they do.
- A lock, condition variable or pipe that is reclaimed and its id used again starts a new life: pipe and condition-variable results are per life of the object, because a reader or waiter that is already awake may find its object gone (`src/ipc.c:126-130`, `286`, `304`, `314`).
- `KernelContextSwitch`, saved registers other than the return value, the copying of kernel stacks, TLB flushes and device registers: a switch is "the current process changes and its continuation resumes", and it does not fail.
- User memory seen by the process machine: buffers and pointers of system calls are arguments and results, not addresses.
- `open`, `read`, `lseek` and `LoadInfo`: the numbers in the executable's header are inputs, and whether the segments could be read is one too, and the bytes read from the file are not followed. Failing before anything is changed (no such file, bad header, no memory for the copy of the strings) is not told apart.
- Kernel `malloc` and `calloc` succeed or fail by an argument; they are not tied to `SetKernelBrk`.
- Boot: the machine starts when `KernelStart` has left for init's program; the exits of init and of the idle process stop the machine and are no steps.
- Pids are distinct and below `MAX_PROCS`, and the clock does not wrap.
- Liveness beyond the exact counts proved: an orphaned zombie is never reaped, so not every frame comes back.
- The window of Region 0 that maps the current kernel stack, and the scratch page while the break is below it, have no owner in the frame accounts; the pages of the idle process count as reserved.
- `ProcessCreateIdle`, `KCCopy`, `KCSwitch`, the trap vector and the dispatch switch: plumbing.
- AddressSpaces.AddressSpace.GrowStack: a failure leaves the pages mapped so far, as the code does; that the process then dies is part of `MemorySystem.Next`, not of this method.
- ProgramImage.LoadProgram: the layout result needs a header whose segments follow each other and whose data end where the heap starts, which the code takes from the framework.
- KernelBreak.KernelHeap.SetKernelBrk: covers the kernel once virtual memory is on, with an image that ends below the scratch page.
- MemorySystem.MemoryIsPrivate: for runs in which no fork maps over the kernel's heap; after one that ran out of memory, the heap's last page is on a frame that may be given to a process, and taking the break back would free it. SystemTheorems.UnreapedKeep and SystemTheorems.ZombieKeepsMemory ask for the same.
- SystemTheorems.SysKept: the process half and the memory half of Exec, of a stack fault and of a store meet only in who runs and who dies; contents of user memory are not followed into the buffers of system calls.
