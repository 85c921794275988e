# A register machine with round-robin threads and its synchronization fragments

This project models a small simulator of concurrency together with the code
generators that build synchronization primitives for it.

**The machine.** Threads run on a register machine:
- one shared memory of 50 cells, holding JavaScript numbers that the model takes as unbounded integers;
- for each thread, a frame made of a pc and 5 registers;
- `cas`, a test-and-set, as the only atomic primitive.

**The scheduler.** It interleaves the threads round-robin:
- Every round takes a snapshot of the ready thread ids.
- Each thread in the snapshot gets a turn of up to `SLICE` = 20 instructions.
- A thread ends its turn early when it yields, blocks or runs past the end of its program.
- A `pst` wakes a blocked thread. A `pst` sent before the target blocks is kept as a pending flag, which the target's next `blk` consumes.

**The generators.** These are pure functions that emit instruction sequences for:
- a spin-lock;
- a ring-buffer queue;
- a mutex that hands ownership to the oldest waiter;
- a semaphore that hands its credit to the oldest waiter;
- a condition variable.

The model is built in layers.

- **`Isa`** (`isa.dfy`) is the instruction set.
  - Instructions form a closed datatype rather than text.
  - `Step` is one execution of `#execute`, as a pure function on a frame and the memory.
  - Its lemmas state each opcode's effect.
- **`Runs`** (`runs.dfy`) runs a program single-threaded for a given number of steps.
  - `Goes(Exec(p), c, n, c2)` says the run from `c` reaches `c2` in `n` steps.
  - A run records in a trace every yield, block, wake-up and fault it reports.
  - The layer states generic facts: runs compose, are deterministic and are position-independent (`Relocate`). A program confined to some registers and cells changes nothing else (`RunFootprint`).
- **The generators** (`spinlock.dfy`, `queue.dfy`, `waitqueue.dfy`, `mutex.dfy`, `semaphore.dfy`, `cond.dfy`) are functions returning `seq<Instr>`.
  - Their lemmas run each fragment from a start state and state the end state, the trace and the step count. Each fragment is placed at any offset `k` of any program.
  - The queue and the mutex/semaphore wait queues are also read as sequences (`Queues.Contents`, `WaitQueues.Waiting`). This states FIFO behaviour.
- **`Scheduling`** (`sched.dfy`) is the scheduler.
  - `class Scheduler` holds `memory` (an array updated in place), `ready`, `blocked` and `pstmsg`.
  - Its methods `Execute`, `Iterate`, `Turn`, `Round` and `Loop` follow `#execute` and the three nested loops of `loop()`.
  - Each method is proved equal to a function on the value `Sched`: `Executed`, `Iteration`, `TurnFrom`, `RoundOf` and `LoopFor`.
  - The invariants are lemmas about those functions.

## The instruction set beyond conc.js

The `#execute` in conc.js (conc.js:43-113) knows neither `adi`, `sbi`, `lab`, `err` nor `prs`. Its `goto` (conc.js:21-28) takes only absolute and `:N` targets. The generators need all of these (queue.js:30-31, queue.js:42, mutex.js:33, mutex.js:40, mutex.js:68). The model therefore extends the instruction set in the only way that makes the generators' arithmetic work:

- `adi r, v` and `sbi r, v` add or subtract an immediate and advance pc by one.
- `lab name` does nothing but advance pc by one.
- `prs text` prints, so it is a no-op that advances pc.
- `err reason` faults after advancing pc, like an undefined opcode (conc.js:110-112).
- A named branch target goes to the first `lab` with that name in the thread's own program (`Isa.Find`). A name with no `lab` faults with pc advanced.

Beyond the extension, the model makes these choices:

- **Labels.** The generators draw label suffixes from `Math.random`. Here each suffix is an explicit integer parameter, so `Label` is a (tag, id) pair.
- **Addresses.** Register indices and static addresses are typed (`Reg` < 5, `Addr` < 50).
- **`ldr` and `str`.** A register address outside memory faults with pc advanced. JavaScript would read `undefined` or grow the array instead.
- **Thread ids.** Ids are natural numbers. `Object.keys` lists integer keys in ascending order, so a round's snapshot is the ascending list of ready ids.
- **Frames.** Frames are values inside the `ready` and `blocked` entries. conc.js keeps `this.frame` as an alias of the running entry's frame.
- **Setup.** The constructor's setup callback is given as the initial memory it leaves.

## Model

| member | source | states |
|---|---|---|
| Isa.Step | conc.js:43-113 | one `#execute` step on a frame and the memory: a branch jumps or falls through to pc + 1, every other instruction takes its effect and advances pc by one |
| Isa.Apply | conc.js:44-112 | the effect of every case of the `switch` but the branches on the registers and the memory, and the signal it reports: `yld` yield, `blk` block, `pst r` a wake-up of `regs[r]`, `err` and unknown opcodes a fault |
| Isa.Taken | conc.js:76-86 | whether a branch jumps: `br` always, `btr` on a nonzero register, `bfs` on a zero register |
| Isa.Jump | conc.js:21-28 | `goto`: an absolute target sets pc, a `:N` target adds N to pc, a label goes to its first `lab` |
| Isa.Find | conc.js:21-28 | a named target resolves to the first `lab` with that name; no earlier instruction has it; `None` exactly when no instruction has it |
| Isa.StepFootprint | conc.js:43-113 | every instruction writes at most its own register and its own cell; every non-branch advances pc by exactly one |
| Isa.CasTestAndSet | conc.js:87-93 | `cas r, a` puts the old cell in `r` and leaves the cell nonzero; it writes 1 iff the old value was 0 and changes no other cell; pc + 1 |
| Isa.BranchStep | conc.js:76-86 | `btr` jumps iff its register is nonzero, `bfs` iff it is zero, `br` always; a jump goes to the absolute index, the pc plus the offset, or the first matching label; an unknown label faults; branches write nothing |
| Isa.SignalSources | conc.js:94-109 | the scheduler hears yield exactly from `yld`, block exactly from `blk` and a wake-up of `regs[r]` exactly from `pst r`; each only advances pc |
| Isa.FaultsAdvance | conc.js:110-112 | a fault advances pc and changes no register or cell; `err` and unknown opcodes always fault, and only they, `ldr`/`str` and branches can |
| Runs.Exec | conc.js:125-134 | a thread running its program alone: it executes the instruction at pc while pc is inside the program, and stops once pc leaves it |
| Runs.Deterministic | conc.js:43-113 | the machine is deterministic: two runs of the same length from one configuration end in the same configuration |
| Runs.Relocate | spinlock.js:13-28 | a run of a relocatable fragment is the same run, shifted by `k`, when the fragment sits at offset `k` of a larger program |
| Runs.Compose | spinlock.js:13-28 | a fragment whose branches stay inside it, and whose labels the prefix does not define, is relocatable to its offset in `pre + q + post` |
| Runs.RunFootprint | conc.js:43-113 | a run of a program confined to some registers and cells leaves every other register and cell unchanged |
| SpinLocks.SpinLock | spinlock.js:13-15 | the instructions `spin_lock` emits, in order: `cas t, lock`, then `btr t, :-1` |
| SpinLocks.SpinTrylock | spinlock.js:17-18 | the single `cas t, lock` that `spin_trylock` emits |
| SpinLocks.SpinUnlock | spinlock.js:20-22 | the instructions `spin_unlock` emits: `imm t, 0`, then `sto t, lock` |
| SpinLocks.SpinLockYld | spinlock.js:24-28 | the instructions `spin_lock_yld` emits: `cas`, `bfs t, :+3`, `yld`, `br :-3` |
| SpinLocks.SpinTrylockTakes | spinlock.js:17-18 | `spin_trylock` leaves the old lock value in `t`; afterwards the lock cell is nonzero, and it was taken by this thread iff it was 0 |
| SpinLocks.SpinLockAcquires | spinlock.js:13-15 | `spin_lock` on a free lock takes it in two steps, leaves `t` = 0 and falls out of the fragment |
| SpinLocks.SpinLockSpins | spinlock.js:13-15 | `spin_lock` on a taken lock: `btr t, :-1` returns to the `cas` with only `t` changed |
| SpinLocks.SpinUnlockReleases | spinlock.js:20-22 | `spin_unlock` stores 0 in the lock and leaves `t` = 0 |
| SpinLocks.SpinLockYldAcquires | spinlock.js:24-28 | `spin_lock_yld` on a free lock takes it, and `bfs t, :+3` lands one past the fragment |
| SpinLocks.SpinLockYldYields | spinlock.js:24-28 | `spin_lock_yld` on a taken lock yields once, and `br :-3` returns to the `cas` |
| SpinLocks.SpinTargetsWithin | spinlock.js:13-28 | every branch of the four spin fragments lands in [start, start + length] and none is absolute |
| SpinLocks.SpinFootprint | spinlock.js:13-28 | the four fragments touch no cell but `lock` and no register but `t`, however long they run |
| Queues.NewQueue | queue.js:8-17 | head cell at `addr`, tail cell at `addr + 1`, buffer [beg, beg + len) |
| Queues.Succ | queue.js:30-34 | the slot after `i` is `i + 1`, or `beg` when that is one past the buffer; it stays inside the buffer |
| Queues.Qlength | queue.js:20-24 | the three instructions `qlength` emits: load head into `t0`, tail into `reg`, subtract |
| Queues.Enqueue | queue.js:26-43 | the twelve instructions `enqueue` emits: store at the tail slot, advance the tail with wraparound, check it against head and `err inqueue-on-full` |
| Queues.Dequeue | queue.js:45-61 | the instructions `dequeue` emits: `qlength`, `err dequeue-on-empty` when it is 0, load the head slot, advance head with wraparound |
| Queues.QlengthRuns | queue.js:20-24 | `qlength` leaves tail − head in `reg` and head in `t0`, writes no memory and reports nothing |
| Queues.EnqueueStores | queue.js:27-36 | the first eight instructions of `enqueue` store `reg` in the old tail slot and Succ(old tail) in the tail cell |
| Queues.EnqueueChecks | queue.js:38-42 | the boundary check loads head into `reg`, leaves new tail − head in `t0` and runs `err inqueue-on-full` exactly when the new tail equals head |
| Queues.EnqueueRuns | queue.js:26-43 | a whole `enqueue`: the value and the advanced tail are stored in every case; `reg` = head; the fault is reported exactly when the new tail is head |
| Queues.DequeueChecks | queue.js:45-49 | the length check runs `err dequeue-on-empty` exactly when head = tail, and goes on either way |
| Queues.DequeueTakes | queue.js:51-60 | `reg` gets the head slot and the head cell gets Succ(old head); tail and buffer unchanged |
| Queues.DequeueRuns | queue.js:45-61 | a whole `dequeue`: the fault iff head = tail, then the load and the wraparound advance of head; no other cell changes |
| Queues.Contents | queue.js:26-61 | the queue read as a sequence, oldest first: at most len − 1 elements, and none iff head = tail |
| Queues.FullIff | queue.js:38-42 | the queue is full iff Succ(tail) = head, that is iff it holds len − 1 elements |
| Queues.QlengthCounts | queue.js:20-24 | tail − head is the number of elements, or that number minus len once the tail has wrapped; it is 0 iff the queue is empty |
| Queues.EnqueueAppends | queue.js:26-36 | enqueue on a non-full queue appends the value at the back and keeps the queue well formed |
| Queues.EnqueueOverflowLoses | queue.js:36-42 | enqueue on a full queue moves the tail onto the head, so the queue then reads as empty |
| Queues.DequeueTakesFirst | queue.js:51-60 | dequeue on a non-empty queue reads the oldest element and removes exactly it |
| Queues.DequeueEmptyWraps | queue.js:45-60 | dequeue on an empty queue still advances head past tail, so the queue then reads as full of stale slots |
| Queues.EnqueueFifo | queue.js:26-43 | running `enqueue` on a queue with room: no fault, contents become old contents + [x] |
| Queues.EnqueueOnFull | queue.js:26-43 | running `enqueue` on a full queue: the value is written, the queue reads empty and the fault is raised |
| Queues.DequeueFifo | queue.js:45-61 | running `dequeue` on a non-empty queue: no fault; `reg` = first element; contents lose exactly it |
| Queues.DequeueOnEmpty | queue.js:45-61 | running `dequeue` on an empty queue raises the fault and carries on: it loads a stale slot and moves head past tail |
| WaitQueues.Pushed | mutex.js:41-47 | the memory a waiter leaves when it stores its id at the tail slot, bumps the tail and releases the internal lock |
| WaitQueues.Popped | mutex.js:66-69 | the memory a post leaves when it bumps the head of the wait queue |
| WaitQueues.Waiting | mutex.js:41-46 | the waiting ids of a linear queue, oldest first: tail − head of them |
| WaitQueues.PushAppends | mutex.js:41-46 | a push appends the id, raises tail by one and keeps head; the internal lock reads 0; other cells of the primitive keep their values |
| WaitQueues.PopTakesFirst | mutex.js:66-69 | a pop on a non-empty queue reads the oldest id and removes it; only the head cell changes |
| Mutexes.MutexLock | mutex.js:27-53 | the instructions `mutex_lock` emits, in order, with its two labels drawn from the id parameter |
| Mutexes.MutexUnlock | mutex.js:55-80 | the instructions `mutex_unlock` emits, in order, with its two labels drawn from the id parameter |
| Mutexes.MutexLockSpins | mutex.js:30 | while the internal lock is taken `mutex_lock` yields and returns to its `cas`, changing only `t0` |
| Mutexes.MutexLockFast | mutex.js:30-37 | with lock 0 and held 0 the fragment ends with held 1 and lock 0; no other cell changes and the trace stays empty (no `blk`) |
| Mutexes.MutexLockSlowBlocks | mutex.js:40-48 | with held ≠ 0 the thread reaches its `blk` with `tid` pushed on the wait queue, lock 0 and held unchanged |
| Mutexes.MutexLockSlowResumes | mutex.js:48-52 | from the `blk` the thread reports Block and then leaves the fragment |
| Mutexes.MutexLockQueues | mutex.js:41-46 | the slow path appends `tid` to the waiting ids: tail + 1, head and held unchanged, lock 0 |
| Mutexes.MutexUnlockSpins | mutex.js:58 | while the internal lock is taken `mutex_unlock` yields and returns to its `cas` |
| Mutexes.MutexUnlockHandsOver | mutex.js:60-70 | with waiters, the head id reaches `t1`, head + 1, lock 0, and held stays set before `pst t1` |
| Mutexes.MutexUnlockWakes | mutex.js:71-72 | the `pst` reports a wake-up of that id and the fragment ends |
| Mutexes.MutexUnlockHandsOverAndWakes | mutex.js:58-72 | the whole handover: fifteen steps from the top to past the end, with one wake-up of the oldest waiter in the trace |
| Mutexes.MutexUnlockReleases | mutex.js:75-79 | with no waiters held becomes 0 and lock 0, and no `pst` runs |
| Mutexes.MutexUnlockDequeues | mutex.js:66-69 | the handover wakes the oldest waiter and removes it: head + 1, tail and held unchanged |
| Mutexes.MutexLockTargetsWithin | mutex.js:27-53 | every branch of `mutex_lock` stays inside the fragment |
| Mutexes.MutexUnlockTargetsWithin | mutex.js:55-80 | every branch of `mutex_unlock` stays inside the fragment |
| Mutexes.MutexLockLabels | mutex.js:33-50 | after a prefix without its labels, the named branches of `mutex_lock` reach its own `lab`s |
| Mutexes.MutexUnlockLabels | mutex.js:63-79 | the same for `mutex_unlock` |
| Semaphores.SemWait | semaphore.js:26-52 | the instructions `sem_wait` emits, in order, with its two labels drawn from the id parameter |
| Semaphores.SemPost | semaphore.js:54-82 | the instructions `sem_post` emits, in order, with its two labels drawn from the id parameter |
| Semaphores.SemShow | semaphore.js:84-87 | the instructions `sem_show` emits: `lod t0, val`, then `prt t0` |
| Semaphores.SemWaitSpins | semaphore.js:29 | while the internal lock is taken `sem_wait` yields and returns to its `cas`, changing only `t0` |
| Semaphores.SemWaitFast | semaphore.js:31-38 | with val ≠ 0: val − 1, lock 0, nothing else changed, no `blk` |
| Semaphores.SemWaitSlowBlocks | semaphore.js:41-49 | with val = 0 the thread reaches `blk` with `tid` pushed, lock 0 and val untouched |
| Semaphores.SemWaitSlowResumes | semaphore.js:49-51 | from the `blk` the thread reports Block and then leaves the fragment |
| Semaphores.SemPostSpins | semaphore.js:57 | while the internal lock is taken `sem_post` yields and returns to its `cas` |
| Semaphores.SemPostHandsOver | semaphore.js:59-70 | with waiters the head id reaches `t1`, head + 1, lock 0, val not incremented, before `pst t1` |
| Semaphores.SemPostWakes | semaphore.js:71-72 | the `pst` reports a wake-up of that id and the fragment ends |
| Semaphores.SemPostCredits | semaphore.js:75-79 | with no waiters val + 1 and lock 0, and no `pst` runs |
| Semaphores.SemShowReads | semaphore.js:84-87 | `sem_show` loads val into `t0`, writes no memory and reports nothing |
| Semaphores.SemWaitFastCredit | semaphore.js:31-38 | a fast wait lowers val − (tail − head) by exactly one |
| Semaphores.SemWaitSlowCredit | semaphore.js:41-47 | a slow wait lowers val − (tail − head) by exactly one, and the waiter is last in line |
| Semaphores.SemPostHandsCredit | semaphore.js:59-72 | a post with waiters raises val − (tail − head) by exactly one by removing the oldest waiter; val stays |
| Semaphores.SemPostFreeCredit | semaphore.js:75-79 | a post without waiters raises val − (tail − head) by exactly one |
| Semaphores.SemWaitTargetsWithin | semaphore.js:26-52 | every branch of `sem_wait` stays inside the fragment |
| Semaphores.SemPostTargetsWithin | semaphore.js:54-82 | every branch of `sem_post` stays inside the fragment |
| Semaphores.SemWaitLabels | semaphore.js:32-51 | after a prefix without its labels, `sem_wait`'s named branches reach its own `lab`s |
| Semaphores.SemPostLabels | semaphore.js:62-81 | the same for `sem_post` |
| CondVars.NewCond | cond.js:24-29 | lock at `addr`, queue head/tail at `addr + 1`/`addr + 2`, buffer by default at `addr + 3` with length 7 |
| CondVars.CondRelease | cond.js:31-40 | the part of `cond_wait` up to its `blk`: lock, `imm t0, tid`, `enqueue`, unlock, `mutex_unlock`, `blk` |
| CondVars.CondWait | cond.js:31-43 | `cond_wait` as written: `CondRelease` followed by `mutex_lock(m, 0, 0, 1)` |
| CondVars.CondWaitFixed | cond.js:31-43 | the corrected `cond_wait` (see Findings): `CondRelease` followed by `mutex_lock(m, tid, t0, t1)` |
| CondVars.CondSignal | cond.js:45-62 | the instructions `cond_signal` emits: lock, `qlength`, `bfs` to the empty label, `dequeue`, unlock, `pst t1`, `br` to the end; on the empty path only the unlock |
| CondVars.CondWaitSplit | cond.js:31-43 | `cond_wait` is lock, enqueue, unlock, `mutex_unlock` at 19, `blk` at 41, then `mutex_lock` at 42 |
| CondVars.CondWaitSpins | cond.js:32 | while the condition's lock is taken `cond_wait` yields and returns to its `cas` |
| CondVars.CondWaitEnqueues | cond.js:32-37 | with the lock free and the queue not full, `tid` joins the back of the condition's queue and the lock is free again at `mutex_unlock` |
| CondVars.CondWaitReleasesAndBlocks | cond.js:38-40 | with nobody waiting for the mutex, held becomes 0 before the thread reports Block |
| CondVars.CondWaitHandsOverAndBlocks | cond.js:38-40 | with mutex waiters, the oldest is removed and woken before the thread reports Block; held stays set |
| CondVars.CondWaitRelocksAsZero | cond.js:42 | the re-lock as written pushes id 0, not the caller's `tid`, and overwrites registers 0 and 1 |
| CondVars.CondWaitFixedRelocksAsCaller | cond.js:42 | the corrected re-lock pushes the caller's `tid` and writes only `t0` and `t1` |
| CondVars.CondWaitFixedRelocksFast | cond.js:42 | with the mutex free, the corrected `cond_wait` takes it (held 1) and leaves the fragment |
| CondVars.CondSignalSpins | cond.js:48 | while the condition's lock is taken `cond_signal` yields and returns to its `cas` |
| CondVars.CondSignalNobody | cond.js:50-59 | on an empty queue the lock is taken and released; memory ends as before and nothing is posted |
| CondVars.CondSignalWakes | cond.js:53-56 | with waiters the oldest leaves the condition's queue and is woken after the lock is free again; nothing else changes |
| CondVars.CondSignalFootprint | cond.js:45-63 | `cond_signal` writes no register but `t0` and `t1` and no cell but its lock and its queue's head cell, so the cells of any mutex apart from those are never touched |
| CondVars.CondSignalTargetsWithin | cond.js:45-63 | every branch of `cond_signal` stays inside the fragment |
| CondVars.CondSignalLabels | cond.js:51-61 | after a prefix without its labels, `cond_signal`'s named branches reach its own `lab`s |
| Scheduling.Posted | conc.js:100-109 | what `pst` does to the scheduler: a blocked id moves with its entry from blocked to ready, any other id gets its flag set |
| Scheduling.Iteration | conc.js:126-134 | one pass of the inner `for` body: a thread past its last instruction leaves ready and the turn stops; otherwise its next instruction is executed |
| Scheduling.After | conc.js:135-148 | the response to the signal: yield stops the turn; block with a flag clears the flag and goes on; block without one moves the thread to blocked and stops; anything else goes on |
| Scheduling.Executed | conc.js:132-134 | executing an instruction of a ready thread leaves it ready, even when it posts |
| Scheduling.PostWakesOrFlags | conc.js:100-109 | `pst` on a blocked id moves that thread with its frame from blocked to ready; on any other id it sets only the flag; memory unchanged |
| Scheduling.PostIdempotent | conc.js:106 | the flag is a boolean: a second post to an id that is not blocked changes nothing |
| Scheduling.PostKeepsDisjoint | conc.js:100-107 | a post keeps ready and blocked disjoint and loses no thread |
| Scheduling.IterationCases | conc.js:124-149 | exit removes the thread; yield ends the turn with it ready; block with a flag clears the flag and goes on; block without blocks and ends the turn; anything else, a fault included, goes on |
| Scheduling.TurnFrom | conc.js:124-149 | the rest of a turn from iteration `j` executes at most SLICE − j instructions |
| Scheduling.PassFrom | conc.js:125-149 | one iteration of the turn followed by the rest of it, stopping on Stop; it executes at most SLICE − j instructions |
| Scheduling.ExecutedKeepsOthers | conc.js:43-113 | one instruction keeps ready and blocked disjoint, creates or loses no thread, and changes no other thread |
| Scheduling.IterationKeepsOthers | conc.js:126-145 | one iteration keeps disjointness, creates no thread and leaves every other thread, and every other ready id, where it was |
| Scheduling.TurnKeepsOthers | conc.js:124-149 | a whole turn keeps ready and blocked disjoint, creates no thread and changes no other thread |
| Scheduling.TurnKeepsOthersReady | conc.js:120-122 | the other ready ids stay ready during a turn, so every id of the snapshot still has its entry when its turn comes |
| Scheduling.Snapshot | conc.js:118 | the snapshot is strictly ascending and holds only ready ids |
| Scheduling.SnapshotCovers | conc.js:118-120 | every ready id is in the snapshot, so each gets a turn in the round |
| Scheduling.RoundOf | conc.js:120-151 | one round: a turn for each id of the snapshot, in order |
| Scheduling.LoopFor | conc.js:116-153 | the outer `while`: rounds over fresh snapshots until no thread is ready, or until the fuel runs out |
| Scheduling.RoundLeavesOthers | conc.js:117-151 | a round keeps disjointness; a thread not in the snapshot, even one woken during the round, is unchanged |
| Scheduling.LoopKeepsDisjoint | conc.js:116-153 | the loop keeps ready and blocked disjoint and creates no thread |
| Scheduling.LoopStopsWhenIdle | conc.js:117-119 | with ready empty the loop stops at once; otherwise, with fuel left, it runs a round over the snapshot |
| Scheduling.Scheduler.constructor | conc.js:13-18 | the threads are ready, nothing is blocked or flagged, and memory is as the setup left it |
| Scheduling.Scheduler.Execute | conc.js:43-113 | the in-place update of memory, the running frame and the ready/blocked/flag fields equals `Executed` |
| Scheduling.Scheduler.Perform | conc.js:43-113 | the `switch` updating the memory array in place agrees with `Isa.Step` |
| Scheduling.Scheduler.Branch | conc.js:76-86 | `br`/`btr`/`bfs` with `goto` agree with `Isa.Step` |
| Scheduling.Scheduler.Act | conc.js:44-112 | the non-branch cases agree with `Isa.Apply` on registers, the memory array and the reported signal |
| Scheduling.Scheduler.Iterate | conc.js:126-148 | one pass of the inner `for` body equals `Iteration` |
| Scheduling.Scheduler.Turn | conc.js:124-149 | the inner `for` equals `TurnFrom` from 0 and executes at most SLICE instructions |
| Scheduling.Scheduler.Keys | conc.js:118 | computes the snapshot of the ready ids |
| Scheduling.Scheduler.Round | conc.js:118-151 | one pass of the middle `for` over the snapshot equals `RoundOf` |
| Scheduling.Scheduler.Loop | conc.js:116-153 | the outer `while` equals `LoopFor`; if it stops before the fuel runs out, ready is empty |

## Left out

- Printing is not modelled: `print_cmd`, `prt` and `prs` output, and the banners of `loop`. `prt` and `prs` advance pc and change nothing else.
- Text is not modelled: instructions are a datatype, so the regex split and `parseInt` of operands do not exist here.
- `Math.random` label suffixes are explicit integer parameters, because randomness is outside a deterministic model. Distinct call sites are assumed to get distinct ids.
- The example programs and the example `Scheduler` instances at the bottom of the library files are not modelled, and neither are the demonstration files.
- Mutual exclusion, deadlock freedom and liveness over arbitrary interleavings are not stated. The model proves fragment pre/post conditions and scheduler invariants.
- Scheduling.Scheduler.Loop: `loop()` runs until no thread is ready and may never stop (`br 0`). The model runs at most `fuel` rounds, and ensures that stopping early means ready is empty.
- Non-numeric thread names (`'Thread-0'`) are not modelled. `Object.keys` lists them in insertion order after the integer keys.
- A pc below 0 has no instruction. conc.js would throw a TypeError before changing anything, and the `catch` would swallow it. The model reports `Faulted(NoInstruction(pc))` with no change, and the turn goes on.
- The running frame is read from the thread's `ready` entry at every instruction, where conc.js keeps `this.frame` and `thread` from the turn's start. The two differ only if the running id is also blocked, which `Disjoint` excludes.
- Registers and memory cells hold JavaScript numbers, which are doubles (conc.js:5, conc.js:9). The model types them as unbounded integers. Rounding above 2^53 is not modelled, and neither are non-integer or non-numeric values that the setup callback writes into a cell. No fragment depends on either.
- JavaScript's out-of-range array semantics are not modelled. Static register and cell indices are typed, and dynamic addresses outside memory fault.
- The fragment lemmas take assumptions the generators leave to their callers:
  - distinct registers `t0 ≠ t1`;
  - distinct cells for a primitive's fields;
  - a well-formed queue (`Queues.Valid`, `WaitQueues.Valid`): index cells outside the buffer, indices inside memory.
- CondVars.CondWaitEnqueues: stated only for a condition queue that is not full. The full case follows `Queues.EnqueueOnFull`, but no lemma chains it through `cond_wait`.
- The mutex and semaphore wait queues grow without bound, as in the source. Their lemmas require the next free slot to lie inside memory.
- The constructor's setup callback (`action(this)`) is given as the initial memory it leaves. A callback that changes the thread maps is not modelled.

## Findings

| source | as written | input that shows it | evidently intended | confidence | as-written member | corrected member |
|---|---|---|---|---|---|---|
| cond.js:42 | `cond_wait` re-locks the mutex with `mutex_lock(m, 0, 0, 1)`: it pushes thread id 0 and uses registers 0 and 1, whatever its own `tid`, `t0` and `t1` | a `cond_wait` called with `tid` = 3, woken while another thread holds the mutex: it appends 0 to the mutex's wait queue and blocks, so the next `mutex_unlock` wakes thread 0 and thread 3 stays blocked | `mutex_lock(m, tid, t0, t1)`: the caller queues itself with its own registers | high, not executed | CondVars.CondWaitRelocksAsZero | CondVars.CondWaitFixedRelocksAsCaller |
