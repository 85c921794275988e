/*
 * The condition-variable fragment generators (cond.js). A condition is an
 * internal spin lock followed by a ring-buffer queue (queue.js) of the ids of
 * the threads waiting on it. `cond_wait` puts the caller's id on that queue,
 * releases the mutex and blocks; `cond_signal` wakes the oldest waiter.
 *
 * `cond_wait` as written re-acquires the mutex with `mutex_lock(m, 0, 0, 1)`:
 * thread id 0 and registers 0 and 1, whoever the caller is. `CondWait` keeps
 * that; `CondWaitFixed` passes the caller's `tid`, `t0` and `t1`. Both share
 * everything up to the `blk` (`CondRelease`).
 */
module CondVars {
  import opened Isa
  import opened Runs
  import opened SpinLocks
  import opened Queues
  import WaitQueues
  import opened Mutexes

  datatype Cond = Cond(lock: Addr, queue: Queue)

  /** The layout: the lock at `addr`, the queue's head and tail indices after it, its buffer by default right after those. */
  function NewCond(addr: Addr, queue_beg: int := addr + 3, queue_len: int := 7): (c: Cond)
    requires addr + 2 < MEM_SIZE
    ensures c.lock == addr && c.queue.head == addr + 1 && c.queue.tail == addr + 2
    ensures c.queue.beg == queue_beg && c.queue.len == queue_len
  {
    Cond(addr, NewQueue(addr + 1, queue_beg, queue_len))
  }

  /** The lock is none of the queue's cells: neither index cell nor a buffer slot. */
  predicate Apart(c: Cond) {
    && c.lock != c.queue.head && c.lock != c.queue.tail
    && !(c.queue.beg <= c.lock < c.queue.beg + c.queue.len)
  }

  function SignalEmpty(id: int): Label { Label("empty", id) }
  function SignalEnd(id: int): Label { Label("end", id) }

  /**
   * `cond_wait` up to its `blk`: take the condition's lock, enqueue `tid`,
   * release the lock, unlock the mutex (labels drawn with `idU`), block.
   */
  function CondRelease(c: Cond, m: Mutex, tid: int, t0: Reg, t1: Reg, idU: int): seq<Instr> {
    SpinLockYld(c.lock, t0)
    + [Imm(t0, tid)]
    + Enqueue(c.queue, t0, t1)
    + SpinUnlock(c.lock, t0)
    + MutexUnlock(m, t0, t1, idU)
    + [Blk]
  }

  /** `cond_wait` as written: after waking, re-lock the mutex as thread 0 with registers 0 and 1. */
  function CondWait(c: Cond, m: Mutex, tid: int, t0: Reg, t1: Reg, idU: int, idL: int): seq<Instr> {
    CondRelease(c, m, tid, t0, t1, idU) + MutexLock(m, 0, 0, 1, idL)
  }

  /** `cond_wait` re-locking the mutex as the caller, with the caller's registers. */
  function CondWaitFixed(c: Cond, m: Mutex, tid: int, t0: Reg, t1: Reg, idU: int, idL: int): seq<Instr> {
    CondRelease(c, m, tid, t0, t1, idU) + MutexLock(m, tid, t0, t1, idL)
  }

  /**
   * Take the condition's lock; if its queue is empty release the lock;
   * otherwise dequeue the oldest id, release the lock and wake that thread.
   */
  function CondSignal(c: Cond, t0: Reg, t1: Reg, id: int): seq<Instr> {
    SpinLockYld(c.lock, t0)
    + Qlength(c.queue, t0, t1)
    + [Bfs(t0, Named(SignalEmpty(id)))]
    + Dequeue(c.queue, t1, t0)
    + SpinUnlock(c.lock, t0)
    + [Pst(t1), Br(Named(SignalEnd(id))),
       Lab(SignalEmpty(id))]
    + SpinUnlock(c.lock, t0)
    + [Lab(SignalEnd(id))]
  }

  /*
   * One lemma per instruction of each path, over the state where the
   * fragment starts: `regs`, `mem` and `tr`.
   */

  /** While the condition's lock is taken the thread yields and comes back to the `cas`, with nothing changed but `t0`. */
  lemma CondWaitSpins(p: seq<Instr>, k: nat, c: Cond, m: Mutex, tid: int, t0: Reg, t1: Reg, idU: int, regs: Regs, mem: Memory, tr: seq<Signal>)
    requires t0 != t1 && Apart(c) && mem[c.lock] != 0
    requires At(p, k, CondRelease(c, m, tid, t0, t1, idU))
    ensures Goes(Exec(p), Config(Frame(k, regs), mem, tr), 4,
                 Config(Frame(k, regs[t0 := mem[c.lock]]), mem, tr + [Yield]))
  {
    CondReleaseParts(p, k, c, m, tid, t0, t1, idU);
    SpinLockYldAtYields(p, k, c.lock, t0, regs, mem, tr);
  }

  /** The condition's lock, then `imm t0, tid`: three steps on a free lock. */
  lemma WaitLocks(p: seq<Instr>, k: nat, lock: Addr, tid: int, t0: Reg, regs: Regs, mem: Memory, tr: seq<Signal>)
    requires mem[lock] == 0
    requires At(p, k, SpinLockYld(lock, t0)) && k + 4 < |p| && p[k + 4] == Imm(t0, tid)
    ensures Goes(Exec(p), Config(Frame(k, regs), mem, tr), 3,
                 Config(Frame(k + 5, regs[t0 := tid]), mem[lock := 1], tr))
  {
    var c4 := Config(Frame(k + 4, regs[t0 := 0]), mem[lock := 1], tr);
    SpinLockYldAtAcquires(p, k, lock, t0, regs, mem, tr);
    OneImm(p, c4, t0, tid);
    ThenTo(Exec(p), Config(Frame(k, regs), mem, tr), 2, c4, 1, Config(Frame(k + 5, regs[t0 := tid]), mem[lock := 1], tr), 3);
  }

  lemma SignalAt0(p: seq<Instr>, k: nat, c: Cond, t0: Reg, t1: Reg, id: int, regs: Regs, mem: Memory, tr: seq<Signal>)
    requires t0 != t1 && Apart(c) && mem[c.lock] == 0
    requires At(p, k, CondSignal(c, t0, t1, id))
    ensures Goes(Exec(p), Config(Frame(k, regs), mem, tr), 1,
                 Config(Frame(k + 1, regs[t0 := 0]), mem[c.lock := 1], tr))
  {
    assert p[k] == CondSignal(c, t0, t1, id)[0];
    One(p, Config(Frame(k, regs), mem, tr),
        Config(Frame(k + 1, regs[t0 := 0]), mem[c.lock := 1], tr));
  }

  lemma SignalAt1(p: seq<Instr>, k: nat, c: Cond, t0: Reg, t1: Reg, id: int, regs: Regs, mem: Memory, tr: seq<Signal>)
    requires t0 != t1 && Apart(c) && mem[c.lock] == 0
    requires At(p, k, CondSignal(c, t0, t1, id))
    ensures Goes(Exec(p), Config(Frame(k + 1, regs[t0 := 0]), mem[c.lock := 1], tr), 1,
                 Config(Frame(k + 4, regs[t0 := 0]), mem[c.lock := 1], tr))
  {
    assert p[k + 1] == CondSignal(c, t0, t1, id)[1];
    One(p, Config(Frame(k + 1, regs[t0 := 0]), mem[c.lock := 1], tr),
        Config(Frame(k + 4, regs[t0 := 0]), mem[c.lock := 1], tr));
  }

  lemma SignalAt4(p: seq<Instr>, k: nat, c: Cond, t0: Reg, t1: Reg, id: int, regs: Regs, mem: Memory, tr: seq<Signal>)
    requires t0 != t1 && Apart(c) && mem[c.lock] == 0
    requires At(p, k, CondSignal(c, t0, t1, id))
    ensures Goes(Exec(p), Config(Frame(k + 4, regs[t0 := 0]), mem[c.lock := 1], tr), 1,
                 Config(Frame(k + 5, regs[t0 := 0][t1 := mem[c.queue.head]]), mem[c.lock := 1], tr))
  {
    assert p[k + 4] == CondSignal(c, t0, t1, id)[4];
    One(p, Config(Frame(k + 4, regs[t0 := 0]), mem[c.lock := 1], tr),
        Config(Frame(k + 5, regs[t0 := 0][t1 := mem[c.queue.head]]), mem[c.lock := 1], tr));
  }

  lemma SignalAt5(p: seq<Instr>, k: nat, c: Cond, t0: Reg, t1: Reg, id: int, regs: Regs, mem: Memory, tr: seq<Signal>)
    requires t0 != t1 && Apart(c) && mem[c.lock] == 0
    requires At(p, k, CondSignal(c, t0, t1, id))
    ensures Goes(Exec(p), Config(Frame(k + 5, regs[t0 := 0][t1 := mem[c.queue.head]]), mem[c.lock := 1], tr), 1,
                 Config(Frame(k + 6, regs[t1 := mem[c.queue.head]][t0 := mem[c.queue.tail]]), mem[c.lock := 1], tr))
  {
    assert p[k + 5] == CondSignal(c, t0, t1, id)[5];
    One(p, Config(Frame(k + 5, regs[t0 := 0][t1 := mem[c.queue.head]]), mem[c.lock := 1], tr),
        Config(Frame(k + 6, regs[t1 := mem[c.queue.head]][t0 := mem[c.queue.tail]]), mem[c.lock := 1], tr));
  }

  lemma SignalAt6(p: seq<Instr>, k: nat, c: Cond, t0: Reg, t1: Reg, id: int, regs: Regs, mem: Memory, tr: seq<Signal>)
    requires t0 != t1 && Apart(c) && mem[c.lock] == 0
    requires At(p, k, CondSignal(c, t0, t1, id))
    ensures Goes(Exec(p), Config(Frame(k + 6, regs[t1 := mem[c.queue.head]][t0 := mem[c.queue.tail]]), mem[c.lock := 1], tr), 1,
                 Config(Frame(k + 7, regs[t1 := mem[c.queue.head]][t0 := mem[c.queue.tail] - mem[c.queue.head]]), mem[c.lock := 1], tr))
  {
    assert p[k + 6] == CondSignal(c, t0, t1, id)[6];
    One(p, Config(Frame(k + 6, regs[t1 := mem[c.queue.head]][t0 := mem[c.queue.tail]]), mem[c.lock := 1], tr),
        Config(Frame(k + 7, regs[t1 := mem[c.queue.head]][t0 := mem[c.queue.tail] - mem[c.queue.head]]), mem[c.lock := 1], tr));
  }

  lemma SignalAt7Some(p: seq<Instr>, k: nat, c: Cond, t0: Reg, t1: Reg, id: int, regs: Regs, mem: Memory, tr: seq<Signal>)
    requires t0 != t1 && Apart(c) && mem[c.lock] == 0 && mem[c.queue.tail] != mem[c.queue.head]
    requires At(p, k, CondSignal(c, t0, t1, id))
    ensures Goes(Exec(p), Config(Frame(k + 7, regs[t1 := mem[c.queue.head]][t0 := mem[c.queue.tail] - mem[c.queue.head]]), mem[c.lock := 1], tr), 1,
                 Config(Frame(k + 8, regs[t1 := mem[c.queue.head]][t0 := mem[c.queue.tail] - mem[c.queue.head]]), mem[c.lock := 1], tr))
  {
    assert p[k + 7] == CondSignal(c, t0, t1, id)[7];
    One(p, Config(Frame(k + 7, regs[t1 := mem[c.queue.head]][t0 := mem[c.queue.tail] - mem[c.queue.head]]), mem[c.lock := 1], tr),
        Config(Frame(k + 8, regs[t1 := mem[c.queue.head]][t0 := mem[c.queue.tail] - mem[c.queue.head]]), mem[c.lock := 1], tr));
  }

  lemma {:induction false} SignalAt7Empty(p: seq<Instr>, k: nat, c: Cond, t0: Reg, t1: Reg, id: int, regs: Regs, mem: Memory, tr: seq<Signal>)
    requires t0 != t1 && Apart(c) && mem[c.lock] == 0 && mem[c.queue.tail] == mem[c.queue.head] && Find(p, SignalEmpty(id)) == Some(k + 25)
    requires At(p, k, CondSignal(c, t0, t1, id))
    ensures Goes(Exec(p), Config(Frame(k + 7, regs[t1 := mem[c.queue.head]][t0 := mem[c.queue.tail] - mem[c.queue.head]]), mem[c.lock := 1], tr), 1,
                 Config(Frame(k + 25, regs[t1 := mem[c.queue.head]][t0 := mem[c.queue.tail] - mem[c.queue.head]]), mem[c.lock := 1], tr))
  {
    assert p[k + 7] == CondSignal(c, t0, t1, id)[7];
    One(p, Config(Frame(k + 7, regs[t1 := mem[c.queue.head]][t0 := mem[c.queue.tail] - mem[c.queue.head]]), mem[c.lock := 1], tr),
        Config(Frame(k + 25, regs[t1 := mem[c.queue.head]][t0 := mem[c.queue.tail] - mem[c.queue.head]]), mem[c.lock := 1], tr));
  }

  lemma SignalAt25Empty(p: seq<Instr>, k: nat, c: Cond, t0: Reg, t1: Reg, id: int, regs: Regs, mem: Memory, tr: seq<Signal>)
    requires t0 != t1 && Apart(c) && mem[c.lock] == 0 && mem[c.queue.tail] == mem[c.queue.head]
    requires At(p, k, CondSignal(c, t0, t1, id))
    ensures Goes(Exec(p), Config(Frame(k + 25, regs[t1 := mem[c.queue.head]][t0 := mem[c.queue.tail] - mem[c.queue.head]]), mem[c.lock := 1], tr), 1,
                 Config(Frame(k + 26, regs[t1 := mem[c.queue.head]][t0 := mem[c.queue.tail] - mem[c.queue.head]]), mem[c.lock := 1], tr))
  {
    assert p[k + 25] == CondSignal(c, t0, t1, id)[25];
    One(p, Config(Frame(k + 25, regs[t1 := mem[c.queue.head]][t0 := mem[c.queue.tail] - mem[c.queue.head]]), mem[c.lock := 1], tr),
        Config(Frame(k + 26, regs[t1 := mem[c.queue.head]][t0 := mem[c.queue.tail] - mem[c.queue.head]]), mem[c.lock := 1], tr));
  }

  lemma SignalAt26Empty(p: seq<Instr>, k: nat, c: Cond, t0: Reg, t1: Reg, id: int, regs: Regs, mem: Memory, tr: seq<Signal>)
    requires t0 != t1 && Apart(c) && mem[c.lock] == 0 && mem[c.queue.tail] == mem[c.queue.head]
    requires At(p, k, CondSignal(c, t0, t1, id))
    ensures Goes(Exec(p), Config(Frame(k + 26, regs[t1 := mem[c.queue.head]][t0 := mem[c.queue.tail] - mem[c.queue.head]]), mem[c.lock := 1], tr), 1,
                 Config(Frame(k + 27, regs[t1 := mem[c.queue.head]][t0 := 0]), mem[c.lock := 1], tr))
  {
    assert p[k + 26] == CondSignal(c, t0, t1, id)[26];
    One(p, Config(Frame(k + 26, regs[t1 := mem[c.queue.head]][t0 := mem[c.queue.tail] - mem[c.queue.head]]), mem[c.lock := 1], tr),
        Config(Frame(k + 27, regs[t1 := mem[c.queue.head]][t0 := 0]), mem[c.lock := 1], tr));
  }

  lemma SignalAt27Empty(p: seq<Instr>, k: nat, c: Cond, t0: Reg, t1: Reg, id: int, regs: Regs, mem: Memory, tr: seq<Signal>)
    requires t0 != t1 && Apart(c) && mem[c.lock] == 0 && mem[c.queue.tail] == mem[c.queue.head]
    requires At(p, k, CondSignal(c, t0, t1, id))
    ensures Goes(Exec(p), Config(Frame(k + 27, regs[t1 := mem[c.queue.head]][t0 := 0]), mem[c.lock := 1], tr), 1,
                 Config(Frame(k + 28, regs[t1 := mem[c.queue.head]][t0 := 0]), mem, tr))
  {
    assert p[k + 27] == CondSignal(c, t0, t1, id)[27];
    One(p, Config(Frame(k + 27, regs[t1 := mem[c.queue.head]][t0 := 0]), mem[c.lock := 1], tr),
        Config(Frame(k + 28, regs[t1 := mem[c.queue.head]][t0 := 0]), mem, tr));
  }

  lemma SignalAt28Empty(p: seq<Instr>, k: nat, c: Cond, t0: Reg, t1: Reg, id: int, regs: Regs, mem: Memory, tr: seq<Signal>)
    requires t0 != t1 && Apart(c) && mem[c.lock] == 0 && mem[c.queue.tail] == mem[c.queue.head]
    requires At(p, k, CondSignal(c, t0, t1, id))
    ensures Goes(Exec(p), Config(Frame(k + 28, regs[t1 := mem[c.queue.head]][t0 := 0]), mem, tr), 1,
                 Config(Frame(k + 29, regs[t1 := mem[c.queue.head]][t0 := 0]), mem, tr))
  {
    assert p[k + 28] == CondSignal(c, t0, t1, id)[28];
    One(p, Config(Frame(k + 28, regs[t1 := mem[c.queue.head]][t0 := 0]), mem, tr),
        Config(Frame(k + 29, regs[t1 := mem[c.queue.head]][t0 := 0]), mem, tr));
  }

  /** The oldest id in the condition's queue once `cond_signal` holds the lock. */
  ghost function Waiter(c: Cond, mem: Memory): int
    requires Valid(c.queue, mem[c.lock := 1]) && |Contents(c.queue, mem[c.lock := 1])| > 0
  {
    Contents(c.queue, mem[c.lock := 1])[0]
  }

  /**
   * The registers of `cond_signal` once its `dequeue` has run on a queue
   * with waiters: the length check's head and difference, overwritten by the
   * advanced head in `t0` and the oldest waiter in `t1`.
   */
  ghost function SignalRegs(c: Cond, t0: Reg, t1: Reg, regs: Regs, mem: Memory): Regs
    requires Valid(c.queue, mem[c.lock := 1]) && |Contents(c.queue, mem[c.lock := 1])| > 0
  {
    regs[t1 := mem[c.queue.head]][t0 := mem[c.queue.tail] - mem[c.queue.head]][t0 := Succ(c.queue, mem[c.lock := 1][c.queue.head])][t1 := Waiter(c, mem)]
  }

  lemma SignalAt21Some(p: seq<Instr>, k: nat, c: Cond, t0: Reg, t1: Reg, id: int, regs: Regs, mem: Memory, tr: seq<Signal>)
    requires t0 != t1 && Apart(c) && Valid(c.queue, mem[c.lock := 1]) && |Contents(c.queue, mem[c.lock := 1])| > 0
    requires At(p, k, CondSignal(c, t0, t1, id))
    ensures Goes(Exec(p), Config(Frame(k + 8 + 13, SignalRegs(c, t0, t1, regs, mem)), Dequeued(c.queue, mem[c.lock := 1]), tr), 1,
                 Config(Frame(k + 22, SignalRegs(c, t0, t1, regs, mem)[t0 := 0]), Dequeued(c.queue, mem[c.lock := 1]), tr))
  {
    assert p[k + 21] == CondSignal(c, t0, t1, id)[21];
    One(p, Config(Frame(k + 8 + 13, SignalRegs(c, t0, t1, regs, mem)), Dequeued(c.queue, mem[c.lock := 1]), tr),
        Config(Frame(k + 22, SignalRegs(c, t0, t1, regs, mem)[t0 := 0]), Dequeued(c.queue, mem[c.lock := 1]), tr));
  }

  lemma SignalAt22Some(p: seq<Instr>, k: nat, c: Cond, t0: Reg, t1: Reg, id: int, regs: Regs, mem: Memory, tr: seq<Signal>)
    requires t0 != t1 && Apart(c) && Valid(c.queue, mem[c.lock := 1]) && |Contents(c.queue, mem[c.lock := 1])| > 0
    requires At(p, k, CondSignal(c, t0, t1, id))
    ensures Goes(Exec(p), Config(Frame(k + 22, SignalRegs(c, t0, t1, regs, mem)[t0 := 0]), Dequeued(c.queue, mem[c.lock := 1]), tr), 1,
                 Config(Frame(k + 23, SignalRegs(c, t0, t1, regs, mem)[t0 := 0]), Dequeued(c.queue, mem[c.lock := 1])[c.lock := 0], tr))
  {
    assert p[k + 22] == CondSignal(c, t0, t1, id)[22];
    One(p, Config(Frame(k + 22, SignalRegs(c, t0, t1, regs, mem)[t0 := 0]), Dequeued(c.queue, mem[c.lock := 1]), tr),
        Config(Frame(k + 23, SignalRegs(c, t0, t1, regs, mem)[t0 := 0]), Dequeued(c.queue, mem[c.lock := 1])[c.lock := 0], tr));
  }

  lemma SignalAt23Some(p: seq<Instr>, k: nat, c: Cond, t0: Reg, t1: Reg, id: int, regs: Regs, mem: Memory, tr: seq<Signal>)
    requires t0 != t1 && Apart(c) && Valid(c.queue, mem[c.lock := 1]) && |Contents(c.queue, mem[c.lock := 1])| > 0
    requires At(p, k, CondSignal(c, t0, t1, id))
    ensures Goes(Exec(p), Config(Frame(k + 23, SignalRegs(c, t0, t1, regs, mem)[t0 := 0]), Dequeued(c.queue, mem[c.lock := 1])[c.lock := 0], tr), 1,
                 Config(Frame(k + 24, SignalRegs(c, t0, t1, regs, mem)[t0 := 0]), Dequeued(c.queue, mem[c.lock := 1])[c.lock := 0], tr + [Wake(Waiter(c, mem))]))
  {
    assert p[k + 23] == CondSignal(c, t0, t1, id)[23];
    One(p, Config(Frame(k + 23, SignalRegs(c, t0, t1, regs, mem)[t0 := 0]), Dequeued(c.queue, mem[c.lock := 1])[c.lock := 0], tr),
        Config(Frame(k + 24, SignalRegs(c, t0, t1, regs, mem)[t0 := 0]), Dequeued(c.queue, mem[c.lock := 1])[c.lock := 0], tr + [Wake(Waiter(c, mem))]));
  }

  lemma {:induction false} SignalAt24Some(p: seq<Instr>, k: nat, c: Cond, t0: Reg, t1: Reg, id: int, regs: Regs, mem: Memory, tr: seq<Signal>)
    requires t0 != t1 && Apart(c) && Valid(c.queue, mem[c.lock := 1]) && |Contents(c.queue, mem[c.lock := 1])| > 0 && Find(p, SignalEnd(id)) == Some(k + 28)
    requires At(p, k, CondSignal(c, t0, t1, id))
    ensures Goes(Exec(p), Config(Frame(k + 24, SignalRegs(c, t0, t1, regs, mem)[t0 := 0]), Dequeued(c.queue, mem[c.lock := 1])[c.lock := 0], tr + [Wake(Waiter(c, mem))]), 1,
                 Config(Frame(k + 28, SignalRegs(c, t0, t1, regs, mem)[t0 := 0]), Dequeued(c.queue, mem[c.lock := 1])[c.lock := 0], tr + [Wake(Waiter(c, mem))]))
  {
    assert p[k + 24] == CondSignal(c, t0, t1, id)[24] == Br(Named(SignalEnd(id)));
    OneNamed(p, Config(Frame(k + 24, SignalRegs(c, t0, t1, regs, mem)[t0 := 0]), Dequeued(c.queue, mem[c.lock := 1])[c.lock := 0], tr + [Wake(Waiter(c, mem))]), SignalEnd(id), k + 28);
  }

  lemma SignalAt28Some(p: seq<Instr>, k: nat, c: Cond, t0: Reg, t1: Reg, id: int, regs: Regs, mem: Memory, tr: seq<Signal>)
    requires t0 != t1 && Apart(c) && Valid(c.queue, mem[c.lock := 1]) && |Contents(c.queue, mem[c.lock := 1])| > 0
    requires At(p, k, CondSignal(c, t0, t1, id))
    ensures Goes(Exec(p), Config(Frame(k + 28, SignalRegs(c, t0, t1, regs, mem)[t0 := 0]), Dequeued(c.queue, mem[c.lock := 1])[c.lock := 0], tr + [Wake(Waiter(c, mem))]), 1,
                 Config(Frame(k + 29, SignalRegs(c, t0, t1, regs, mem)[t0 := 0]), Dequeued(c.queue, mem[c.lock := 1])[c.lock := 0], tr + [Wake(Waiter(c, mem))]))
  {
    assert p[k + 28] == CondSignal(c, t0, t1, id)[28];
    One(p, Config(Frame(k + 28, SignalRegs(c, t0, t1, regs, mem)[t0 := 0]), Dequeued(c.queue, mem[c.lock := 1])[c.lock := 0], tr + [Wake(Waiter(c, mem))]),
        Config(Frame(k + 29, SignalRegs(c, t0, t1, regs, mem)[t0 := 0]), Dequeued(c.queue, mem[c.lock := 1])[c.lock := 0], tr + [Wake(Waiter(c, mem))]));
  }

  /** While the condition's lock is taken the thread yields and comes back to the `cas`, with nothing changed but `t0`. */
  lemma CondSignalSpins(p: seq<Instr>, k: nat, c: Cond, t0: Reg, t1: Reg, id: int, regs: Regs, mem: Memory, tr: seq<Signal>)
    requires t0 != t1 && Apart(c) && mem[c.lock] != 0
    requires At(p, k, CondSignal(c, t0, t1, id))
    ensures Goes(Exec(p), Config(Frame(k, regs), mem, tr), 4,
                 Config(Frame(k, regs[t0 := mem[c.lock]]), mem, tr + [Yield]))
  {
    CondSignalParts(p, k, c, t0, t1, id);
    SpinLockYldAtYields(p, k, c.lock, t0, regs, mem, tr);
  }

  lemma {:induction false} SignalEmptyPart1(p: seq<Instr>, k: nat, c: Cond, t0: Reg, t1: Reg, id: int, regs: Regs, mem: Memory, tr: seq<Signal>)
    requires t0 != t1 && Apart(c) && mem[c.lock] == 0 && mem[c.queue.tail] == mem[c.queue.head] && Find(p, SignalEmpty(id)) == Some(k + 25)
    requires At(p, k, CondSignal(c, t0, t1, id))
    ensures Goes(Exec(p), Config(Frame(k, regs), mem, tr), 5,
                 Config(Frame(k + 7, regs[t1 := mem[c.queue.head]][t0 := mem[c.queue.tail] - mem[c.queue.head]]), mem[c.lock := 1], tr))
  {
    SignalAt0(p, k, c, t0, t1, id, regs, mem, tr);
    SignalAt1(p, k, c, t0, t1, id, regs, mem, tr);
    SignalAt4(p, k, c, t0, t1, id, regs, mem, tr);
    SignalAt5(p, k, c, t0, t1, id, regs, mem, tr);
    SignalAt6(p, k, c, t0, t1, id, regs, mem, tr);
    ThenTo(Exec(p), Config(Frame(k, regs), mem, tr), 1,
         Config(Frame(k + 1, regs[t0 := 0]), mem[c.lock := 1], tr), 1,
         Config(Frame(k + 4, regs[t0 := 0]), mem[c.lock := 1], tr), 2);
    ThenTo(Exec(p), Config(Frame(k, regs), mem, tr), 2,
         Config(Frame(k + 4, regs[t0 := 0]), mem[c.lock := 1], tr), 1,
         Config(Frame(k + 5, regs[t0 := 0][t1 := mem[c.queue.head]]), mem[c.lock := 1], tr), 3);
    ThenTo(Exec(p), Config(Frame(k, regs), mem, tr), 3,
         Config(Frame(k + 5, regs[t0 := 0][t1 := mem[c.queue.head]]), mem[c.lock := 1], tr), 1,
         Config(Frame(k + 6, regs[t1 := mem[c.queue.head]][t0 := mem[c.queue.tail]]), mem[c.lock := 1], tr), 4);
    ThenTo(Exec(p), Config(Frame(k, regs), mem, tr), 4,
         Config(Frame(k + 6, regs[t1 := mem[c.queue.head]][t0 := mem[c.queue.tail]]), mem[c.lock := 1], tr), 1,
         Config(Frame(k + 7, regs[t1 := mem[c.queue.head]][t0 := mem[c.queue.tail] - mem[c.queue.head]]), mem[c.lock := 1], tr), 5);
  }

  lemma {:induction false} SignalEmptyPart2(p: seq<Instr>, k: nat, c: Cond, t0: Reg, t1: Reg, id: int, regs: Regs, mem: Memory, tr: seq<Signal>)
    requires t0 != t1 && Apart(c) && mem[c.lock] == 0 && mem[c.queue.tail] == mem[c.queue.head] && Find(p, SignalEmpty(id)) == Some(k + 25)
    requires At(p, k, CondSignal(c, t0, t1, id))
    ensures Goes(Exec(p), Config(Frame(k + 7, regs[t1 := mem[c.queue.head]][t0 := mem[c.queue.tail] - mem[c.queue.head]]), mem[c.lock := 1], tr), 5,
                 Config(Frame(k + 29, regs[t1 := mem[c.queue.head]][t0 := 0]), mem, tr))
  {
    SignalAt7Empty(p, k, c, t0, t1, id, regs, mem, tr);
    SignalAt25Empty(p, k, c, t0, t1, id, regs, mem, tr);
    SignalAt26Empty(p, k, c, t0, t1, id, regs, mem, tr);
    SignalAt27Empty(p, k, c, t0, t1, id, regs, mem, tr);
    SignalAt28Empty(p, k, c, t0, t1, id, regs, mem, tr);
    ThenTo(Exec(p), Config(Frame(k + 7, regs[t1 := mem[c.queue.head]][t0 := mem[c.queue.tail] - mem[c.queue.head]]), mem[c.lock := 1], tr), 1,
         Config(Frame(k + 25, regs[t1 := mem[c.queue.head]][t0 := mem[c.queue.tail] - mem[c.queue.head]]), mem[c.lock := 1], tr), 1,
         Config(Frame(k + 26, regs[t1 := mem[c.queue.head]][t0 := mem[c.queue.tail] - mem[c.queue.head]]), mem[c.lock := 1], tr), 2);
    ThenTo(Exec(p), Config(Frame(k + 7, regs[t1 := mem[c.queue.head]][t0 := mem[c.queue.tail] - mem[c.queue.head]]), mem[c.lock := 1], tr), 2,
         Config(Frame(k + 26, regs[t1 := mem[c.queue.head]][t0 := mem[c.queue.tail] - mem[c.queue.head]]), mem[c.lock := 1], tr), 1,
         Config(Frame(k + 27, regs[t1 := mem[c.queue.head]][t0 := 0]), mem[c.lock := 1], tr), 3);
    ThenTo(Exec(p), Config(Frame(k + 7, regs[t1 := mem[c.queue.head]][t0 := mem[c.queue.tail] - mem[c.queue.head]]), mem[c.lock := 1], tr), 3,
         Config(Frame(k + 27, regs[t1 := mem[c.queue.head]][t0 := 0]), mem[c.lock := 1], tr), 1,
         Config(Frame(k + 28, regs[t1 := mem[c.queue.head]][t0 := 0]), mem, tr), 4);
    ThenTo(Exec(p), Config(Frame(k + 7, regs[t1 := mem[c.queue.head]][t0 := mem[c.queue.tail] - mem[c.queue.head]]), mem[c.lock := 1], tr), 4,
         Config(Frame(k + 28, regs[t1 := mem[c.queue.head]][t0 := 0]), mem, tr), 1,
         Config(Frame(k + 29, regs[t1 := mem[c.queue.head]][t0 := 0]), mem, tr), 5);
  }

  /** With nobody waiting, `cond_signal` takes and releases the lock and posts nothing: memory and trace are as before. */
  lemma {:induction false} CondSignalNobody(p: seq<Instr>, k: nat, c: Cond, t0: Reg, t1: Reg, id: int, regs: Regs, mem: Memory, tr: seq<Signal>)
    requires t0 != t1 && Apart(c) && mem[c.lock] == 0 && mem[c.queue.tail] == mem[c.queue.head] && Find(p, SignalEmpty(id)) == Some(k + 25)
    requires At(p, k, CondSignal(c, t0, t1, id))
    ensures Goes(Exec(p), Config(Frame(k, regs), mem, tr), 10,
                 Config(Frame(k + 29, regs[t1 := mem[c.queue.head]][t0 := 0]), mem, tr))
  {
    SignalEmptyPart1(p, k, c, t0, t1, id, regs, mem, tr);
    SignalEmptyPart2(p, k, c, t0, t1, id, regs, mem, tr);
    ThenTo(Exec(p), Config(Frame(k, regs), mem, tr), 5,
         Config(Frame(k + 7, regs[t1 := mem[c.queue.head]][t0 := mem[c.queue.tail] - mem[c.queue.head]]), mem[c.lock := 1], tr), 5,
         Config(Frame(k + 29, regs[t1 := mem[c.queue.head]][t0 := 0]), mem, tr), 10);
  }

  lemma SignalChecks(p: seq<Instr>, k: nat, c: Cond, t0: Reg, t1: Reg, id: int, regs: Regs, mem: Memory, tr: seq<Signal>)
    requires t0 != t1 && Apart(c) && mem[c.lock] == 0 && mem[c.queue.tail] != mem[c.queue.head]
    requires At(p, k, CondSignal(c, t0, t1, id))
    ensures Goes(Exec(p), Config(Frame(k, regs), mem, tr), 6,
                 Config(Frame(k + 8, regs[t1 := mem[c.queue.head]][t0 := mem[c.queue.tail] - mem[c.queue.head]]), mem[c.lock := 1], tr))
  {
    SignalAt0(p, k, c, t0, t1, id, regs, mem, tr);
    SignalAt1(p, k, c, t0, t1, id, regs, mem, tr);
    SignalAt4(p, k, c, t0, t1, id, regs, mem, tr);
    SignalAt5(p, k, c, t0, t1, id, regs, mem, tr);
    SignalAt6(p, k, c, t0, t1, id, regs, mem, tr);
    SignalAt7Some(p, k, c, t0, t1, id, regs, mem, tr);
    ThenTo(Exec(p), Config(Frame(k, regs), mem, tr), 1,
         Config(Frame(k + 1, regs[t0 := 0]), mem[c.lock := 1], tr), 1,
         Config(Frame(k + 4, regs[t0 := 0]), mem[c.lock := 1], tr), 2);
    ThenTo(Exec(p), Config(Frame(k, regs), mem, tr), 2,
         Config(Frame(k + 4, regs[t0 := 0]), mem[c.lock := 1], tr), 1,
         Config(Frame(k + 5, regs[t0 := 0][t1 := mem[c.queue.head]]), mem[c.lock := 1], tr), 3);
    ThenTo(Exec(p), Config(Frame(k, regs), mem, tr), 3,
         Config(Frame(k + 5, regs[t0 := 0][t1 := mem[c.queue.head]]), mem[c.lock := 1], tr), 1,
         Config(Frame(k + 6, regs[t1 := mem[c.queue.head]][t0 := mem[c.queue.tail]]), mem[c.lock := 1], tr), 4);
    ThenTo(Exec(p), Config(Frame(k, regs), mem, tr), 4,
         Config(Frame(k + 6, regs[t1 := mem[c.queue.head]][t0 := mem[c.queue.tail]]), mem[c.lock := 1], tr), 1,
         Config(Frame(k + 7, regs[t1 := mem[c.queue.head]][t0 := mem[c.queue.tail] - mem[c.queue.head]]), mem[c.lock := 1], tr), 5);
    ThenTo(Exec(p), Config(Frame(k, regs), mem, tr), 5,
         Config(Frame(k + 7, regs[t1 := mem[c.queue.head]][t0 := mem[c.queue.tail] - mem[c.queue.head]]), mem[c.lock := 1], tr), 1,
         Config(Frame(k + 8, regs[t1 := mem[c.queue.head]][t0 := mem[c.queue.tail] - mem[c.queue.head]]), mem[c.lock := 1], tr), 6);
  }

  lemma {:induction false} SignalPosts(p: seq<Instr>, k: nat, c: Cond, t0: Reg, t1: Reg, id: int, regs: Regs, mem: Memory, tr: seq<Signal>)
    requires t0 != t1 && Apart(c) && Valid(c.queue, mem[c.lock := 1]) && |Contents(c.queue, mem[c.lock := 1])| > 0 && Find(p, SignalEnd(id)) == Some(k + 28)
    requires At(p, k, CondSignal(c, t0, t1, id))
    ensures var r, d := SignalRegs(c, t0, t1, regs, mem), Dequeued(c.queue, mem[c.lock := 1]);
            Goes(Exec(p), Config(Frame(k + 8 + 13, r), d, tr), 5,
                 Config(Frame(k + 29, r[t0 := 0]), d[c.lock := 0], tr + [Wake(Waiter(c, mem))]))
  {
    SignalAt21Some(p, k, c, t0, t1, id, regs, mem, tr);
    SignalAt22Some(p, k, c, t0, t1, id, regs, mem, tr);
    SignalAt23Some(p, k, c, t0, t1, id, regs, mem, tr);
    SignalAt24Some(p, k, c, t0, t1, id, regs, mem, tr);
    SignalAt28Some(p, k, c, t0, t1, id, regs, mem, tr);
    var r, d := SignalRegs(c, t0, t1, regs, mem), Dequeued(c.queue, mem[c.lock := 1]);
    var woken := tr + [Wake(Waiter(c, mem))];
    var c21 := Config(Frame(k + 8 + 13, r), d, tr);                 // after the dequeue
    var c22 := Config(Frame(k + 22, r[t0 := 0]), d, tr);            // `imm t0, 0`
    var c23 := Config(Frame(k + 23, r[t0 := 0]), d[c.lock := 0], tr); // lock released
    var c24 := Config(Frame(k + 24, r[t0 := 0]), d[c.lock := 0], woken); // `pst t1`
    var c28 := Config(Frame(k + 28, r[t0 := 0]), d[c.lock := 0], woken); // `br` to the end label
    var c29 := Config(Frame(k + 29, r[t0 := 0]), d[c.lock := 0], woken); // past the label
    ThenTo(Exec(p), c21, 1, c22, 1, c23, 2);
    ThenTo(Exec(p), c21, 2, c23, 1, c24, 3);
    ThenTo(Exec(p), c21, 3, c24, 1, c28, 4);
    ThenTo(Exec(p), c21, 4, c28, 1, c29, 5);
  }

  /*
   * Where the parts of each fragment sit, and what the lock leaves alone.
   */

  /** Inside `cond_wait` the enqueue starts at 5, `mutex_unlock` at 19 and the `blk` is at 41. */
  lemma CondReleaseParts(p: seq<Instr>, k: nat, c: Cond, m: Mutex, tid: int, t0: Reg, t1: Reg, idU: int)
    requires At(p, k, CondRelease(c, m, tid, t0, t1, idU))
    ensures At(p, k, SpinLockYld(c.lock, t0)) && k + 4 < |p| && p[k + 4] == Imm(t0, tid)
    ensures At(p, k + 5, Enqueue(c.queue, t0, t1))
    ensures At(p, k + 17, SpinUnlock(c.lock, t0))
    ensures At(p, k + 19, MutexUnlock(m, t0, t1, idU))
    ensures p[k + 41] == Blk
  {
    var a := SpinLockYld(c.lock, t0) + [Imm(t0, tid)];
    var e := a + Enqueue(c.queue, t0, t1);
    var u := e + SpinUnlock(c.lock, t0);
    var r := u + MutexUnlock(m, t0, t1, idU);
    AtSplit(p, k, r, [Blk]);
    AtSplit(p, k, u, MutexUnlock(m, t0, t1, idU));
    AtSplit(p, k, e, SpinUnlock(c.lock, t0));
    AtSplit(p, k, a, Enqueue(c.queue, t0, t1));
    AtSplit(p, k, SpinLockYld(c.lock, t0), [Imm(t0, tid)]);
    assert p[k + 4] == [Imm(t0, tid)][0];
    assert p[k + 41] == (r + [Blk])[41];
  }

  /** `cond_wait` is its release part followed by the re-lock at 42, as written and corrected alike. */
  lemma CondWaitSplit(p: seq<Instr>, k: nat, c: Cond, m: Mutex, tid: int, t0: Reg, t1: Reg, idU: int, idL: int)
    requires At(p, k, CondWait(c, m, tid, t0, t1, idU, idL)) || At(p, k, CondWaitFixed(c, m, tid, t0, t1, idU, idL))
    ensures At(p, k, CondRelease(c, m, tid, t0, t1, idU))
    ensures At(p, k, CondWait(c, m, tid, t0, t1, idU, idL)) ==> At(p, k + 42, MutexLock(m, 0, 0, 1, idL))
    ensures At(p, k, CondWaitFixed(c, m, tid, t0, t1, idU, idL)) ==> At(p, k + 42, MutexLock(m, tid, t0, t1, idL))
  {
    if At(p, k, CondWait(c, m, tid, t0, t1, idU, idL)) {
      AtSplit(p, k, CondRelease(c, m, tid, t0, t1, idU), MutexLock(m, 0, 0, 1, idL));
    }
    if At(p, k, CondWaitFixed(c, m, tid, t0, t1, idU, idL)) {
      AtSplit(p, k, CondRelease(c, m, tid, t0, t1, idU), MutexLock(m, tid, t0, t1, idL));
    }
  }

  /** Inside `cond_signal` the dequeue starts at 8. */
  lemma CondSignalParts(p: seq<Instr>, k: nat, c: Cond, t0: Reg, t1: Reg, id: int)
    requires At(p, k, CondSignal(c, t0, t1, id))
    ensures At(p, k, SpinLockYld(c.lock, t0))
    ensures At(p, k + 8, Dequeue(c.queue, t1, t0))
  {
    var a := SpinLockYld(c.lock, t0) + Qlength(c.queue, t0, t1) + [Bfs(t0, Named(SignalEmpty(id)))];
    var d := a + Dequeue(c.queue, t1, t0);
    var u := d + SpinUnlock(c.lock, t0);
    var b := u + [Pst(t1), Br(Named(SignalEnd(id))), Lab(SignalEmpty(id))];
    var v := b + SpinUnlock(c.lock, t0);
    AtSplit(p, k, v, [Lab(SignalEnd(id))]);
    AtSplit(p, k, b, SpinUnlock(c.lock, t0));
    AtSplit(p, k, u, [Pst(t1), Br(Named(SignalEnd(id))), Lab(SignalEmpty(id))]);
    AtSplit(p, k, d, SpinUnlock(c.lock, t0));
    AtSplit(p, k, a, Dequeue(c.queue, t1, t0));
    AtSplit(p, k, SpinLockYld(c.lock, t0) + Qlength(c.queue, t0, t1), [Bfs(t0, Named(SignalEmpty(id)))]);
    AtSplit(p, k, SpinLockYld(c.lock, t0), Qlength(c.queue, t0, t1));
  }

  /** Writing the lock cell changes neither the queue's well-formedness nor its contents. */
  lemma LockApart(c: Cond, mem: Memory, v: int)
    requires Apart(c) && Valid(c.queue, mem)
    ensures Valid(c.queue, mem[c.lock := v])
    ensures Contents(c.queue, mem[c.lock := v]) == Contents(c.queue, mem)
  {
    var q, m1 := c.queue, mem[c.lock := v];
    assert m1[q.head] == mem[q.head] && m1[q.tail] == mem[q.tail];
    forall i | 0 <= i < Dist(q, mem[q.head], mem[q.tail])
      ensures Contents(q, m1)[i] == Contents(q, mem)[i]
    {
      assert m1[Slot(q, mem[q.head], i)] == mem[Slot(q, mem[q.head], i)];
    }
  }

  /** The state `cond_wait` leaves after re-opening the condition's lock, in terms of the state it started from. */
  lemma WaitState(c: Cond, tid: int, t0: Reg, t1: Reg, regs: Regs, mem: Memory)
    requires t0 != t1 && Apart(c) && Valid(c.queue, mem) && mem[c.lock] == 0
    ensures Valid(c.queue, mem[c.lock := 1]) && Contents(c.queue, mem[c.lock := 1]) == Contents(c.queue, mem)
    ensures regs[t0 := tid][t1 := Succ(c.queue, mem[c.lock := 1][c.queue.tail]) - mem[c.lock := 1][c.queue.head]][t0 := mem[c.lock := 1][c.queue.head]][t0 := 0]
            == regs[t1 := Succ(c.queue, mem[c.queue.tail]) - mem[c.queue.head]][t0 := 0]
    ensures Enqueued(c.queue, mem[c.lock := 1], regs[t0 := tid][t0])[c.lock := 0] == Enqueued(c.queue, mem, tid)
  {
    LockApart(c, mem, 1);
  }

  /*
   * The pieces of a run are chained over configurations returned by the
   * lemmas that establish them, so that each link is matched as it is stated.
   */

  /** The lock, `imm t0, tid`, a body that runs from `k + 5` to `k + 17` keeping the trace, and the unlock. */
  lemma LockedRun(p: seq<Instr>, k: nat, lock: Addr, tid: int, t0: Reg, regs: Regs, mem: Memory, tr: seq<Signal>, e: nat, regs2: Regs, mem2: Memory) returns (n: nat)
    requires mem[lock] == 0
    requires At(p, k, SpinLockYld(lock, t0)) && k + 4 < |p| && p[k + 4] == Imm(t0, tid)
    requires Goes(Exec(p), Config(Frame(k + 5, regs[t0 := tid]), mem[lock := 1], tr), e, Config(Frame(k + 17, regs2), mem2, tr))
    requires At(p, k + 17, SpinUnlock(lock, t0))
    ensures Goes(Exec(p), Config(Frame(k, regs), mem, tr), n, Config(Frame(k + 19, regs2[t0 := 0]), mem2[lock := 0], tr))
  {
    WaitLocks(p, k, lock, tid, t0, regs, mem, tr);
    SpinUnlockAt(p, k + 17, lock, t0, regs2, mem2, tr);
    n := Then3(Exec(p), Config(Frame(k, regs), mem, tr), 3, Config(Frame(k + 5, regs[t0 := tid]), mem[lock := 1], tr),
               e, Config(Frame(k + 17, regs2), mem2, tr), 2, Config(Frame(k + 19, regs2[t0 := 0]), mem2[lock := 0], tr));
  }

  /** The run from the start of `cond_wait` to its `mutex_unlock`, in the raw form the steps give. */
  lemma WaitRuns(p: seq<Instr>, k: nat, c: Cond, tid: int, t0: Reg, t1: Reg, regs: Regs, mem: Memory, tr: seq<Signal>) returns (n: nat)
    requires t0 != t1 && mem[c.lock] == 0
    requires Valid(c.queue, mem[c.lock := 1]) && |Contents(c.queue, mem[c.lock := 1])| < c.queue.len - 1
    requires At(p, k, SpinLockYld(c.lock, t0)) && k + 4 < |p| && p[k + 4] == Imm(t0, tid)
    requires At(p, k + 5, Enqueue(c.queue, t0, t1)) && At(p, k + 17, SpinUnlock(c.lock, t0))
    ensures Goes(Exec(p), Config(Frame(k, regs), mem, tr), n,
                 Config(Frame(k + 19, regs[t0 := tid][t1 := Succ(c.queue, mem[c.lock := 1][c.queue.tail]) - mem[c.lock := 1][c.queue.head]][t0 := mem[c.lock := 1][c.queue.head]][t0 := 0]),
                        Enqueued(c.queue, mem[c.lock := 1], regs[t0 := tid][t0])[c.lock := 0], tr))
  {
    var e := WaitEnqueueRuns(p, k, c.queue, t0, t1, regs[t0 := tid], mem[c.lock := 1], tr);
    n := LockedRun(p, k, c.lock, tid, t0, regs, mem, tr, e,
                   regs[t0 := tid][t1 := Succ(c.queue, mem[c.lock := 1][c.queue.tail]) - mem[c.lock := 1][c.queue.head]][t0 := mem[c.lock := 1][c.queue.head]],
                   Enqueued(c.queue, mem[c.lock := 1], regs[t0 := tid][t0]));
  }

  /** The `enqueue` of a waiter, between the lock and the unlock. */
  lemma WaitEnqueueRuns(p: seq<Instr>, k: nat, q: Queue, t0: Reg, t1: Reg, regs: Regs, mem: Memory, tr: seq<Signal>) returns (e: nat)
    requires t0 != t1
    requires Valid(q, mem) && |Contents(q, mem)| < q.len - 1
    requires At(p, k + 5, Enqueue(q, t0, t1))
    ensures Goes(Exec(p), Config(Frame(k + 5, regs), mem, tr), e,
                 Config(Frame(k + 17, regs[t1 := Succ(q, mem[q.tail]) - mem[q.head]][t0 := mem[q.head]]), Enqueued(q, mem, regs[t0]), tr))
  {
    e := EnqueueFifo(p, k + 5, q, t0, t1, regs, mem, tr);
  }

  /**
   * The first half of `cond_wait`, with the condition's lock free and its
   * queue not full: `tid` joins the back of the condition's queue and the lock
   * is free again when the thread reaches `mutex_unlock`.
   */
  lemma CondWaitEnqueues(p: seq<Instr>, k: nat, c: Cond, m: Mutex, tid: int, t0: Reg, t1: Reg, idU: int, regs: Regs, mem: Memory, tr: seq<Signal>) returns (n: nat)
    requires t0 != t1 && Apart(c) && Valid(c.queue, mem) && |Contents(c.queue, mem)| < c.queue.len - 1 && mem[c.lock] == 0
    requires At(p, k, CondRelease(c, m, tid, t0, t1, idU))
    ensures Goes(Exec(p), Config(Frame(k, regs), mem, tr), n,
                 Config(Frame(k + 19, regs[t1 := Succ(c.queue, mem[c.queue.tail]) - mem[c.queue.head]][t0 := 0]), Enqueued(c.queue, mem, tid), tr))
    ensures Valid(c.queue, Enqueued(c.queue, mem, tid))
    ensures Contents(c.queue, Enqueued(c.queue, mem, tid)) == Contents(c.queue, mem) + [tid]
    ensures Enqueued(c.queue, mem, tid)[c.lock] == 0
  {
    CondReleaseParts(p, k, c, m, tid, t0, t1, idU);
    WaitState(c, tid, t0, t1, regs, mem);
    n := WaitRuns(p, k, c, tid, t0, t1, regs, mem, tr);
    Same(Exec(p), Config(Frame(k, regs), mem, tr), n,
         Config(Frame(k + 19, regs[t0 := tid][t1 := Succ(c.queue, mem[c.lock := 1][c.queue.tail]) - mem[c.lock := 1][c.queue.head]][t0 := mem[c.lock := 1][c.queue.head]][t0 := 0]),
                Enqueued(c.queue, mem[c.lock := 1], regs[t0 := tid][t0])[c.lock := 0], tr),
         Config(Frame(k + 19, regs[t1 := Succ(c.queue, mem[c.queue.tail]) - mem[c.queue.head]][t0 := 0]), Enqueued(c.queue, mem, tid), tr));
    EnqueueAppends(c.queue, mem, tid);
  }

  /**
   * Then `mutex_unlock` and `blk`, when nobody waits for the mutex: the mutex
   * is free (`held` 0) before the thread reports Block.
   */
  lemma {:induction false} CondWaitReleasesAndBlocks(p: seq<Instr>, k: nat, c: Cond, m: Mutex, tid: int, t0: Reg, t1: Reg, idU: int, regs: Regs, mem: Memory, tr: seq<Signal>)
    requires t0 != t1 && Distinct(m) && Find(p, UnlockEmpty(idU)) == Some(k + 35) && Find(p, UnlockEnd(idU)) == Some(k + 40)
    requires mem[m.lock] == 0 && mem[m.queue_tail] == mem[m.queue_head]
    requires At(p, k, CondRelease(c, m, tid, t0, t1, idU))
    ensures Goes(Exec(p), Config(Frame(k + 19, regs), mem, tr), 13,
                 Config(Frame(k + 42, regs[t0 := 0][t1 := 0]), mem[m.held := 0], tr + [Block]))
  {
    ReleaseFreeRaw(p, k, c, m, tid, t0, t1, idU, regs, mem, tr);
    ReleaseFreeBlocks(p, k, m, t0, t1, regs, mem, tr);
  }

  lemma ReleaseFreeBlocks(p: seq<Instr>, k: nat, m: Mutex, t0: Reg, t1: Reg, regs: Regs, mem: Memory, tr: seq<Signal>)
    requires Goes(Exec(p), Config(Frame(k + 19, regs), mem, tr), 12, Config(Frame(k + 41, regs[t0 := 0][t1 := 0]), mem[m.held := 0], tr))
    requires k + 41 < |p| && p[k + 41] == Blk
    ensures Goes(Exec(p), Config(Frame(k + 19, regs), mem, tr), 13,
                 Config(Frame(k + 42, regs[t0 := 0][t1 := 0]), mem[m.held := 0], tr + [Block]))
  {
    ThenBlk(p, Config(Frame(k + 19, regs), mem, tr), 12, Config(Frame(k + 41, regs[t0 := 0][t1 := 0]), mem[m.held := 0], tr),
            13, Config(Frame(k + 42, regs[t0 := 0][t1 := 0]), mem[m.held := 0], tr + [Block]));
  }

  lemma {:induction false} ReleaseFreeRaw(p: seq<Instr>, k: nat, c: Cond, m: Mutex, tid: int, t0: Reg, t1: Reg, idU: int, regs: Regs, mem: Memory, tr: seq<Signal>)
    requires t0 != t1 && Distinct(m) && Find(p, UnlockEmpty(idU)) == Some(k + 35) && Find(p, UnlockEnd(idU)) == Some(k + 40)
    requires mem[m.lock] == 0 && mem[m.queue_tail] == mem[m.queue_head]
    requires At(p, k, CondRelease(c, m, tid, t0, t1, idU))
    ensures Goes(Exec(p), Config(Frame(k + 19, regs), mem, tr), 12, Config(Frame(k + 41, regs[t0 := 0][t1 := 0]), mem[m.held := 0], tr))
    ensures k + 41 < |p| && p[k + 41] == Blk
  {
    CondReleaseParts(p, k, c, m, tid, t0, t1, idU);
    MutexUnlockReleases(p, k + 19, m, t0, t1, idU, regs, mem, tr);
  }

  /** The release's `mutex_unlock` at offset 19 hands the mutex over; the `blk` at offset 41 follows. */
  lemma {:induction false} ReleaseHandsOver(p: seq<Instr>, k: nat, c: Cond, m: Mutex, tid: int, t0: Reg, t1: Reg, idU: int, regs: Regs, mem: Memory, tr: seq<Signal>)
    requires t0 != t1 && Distinct(m) && Find(p, UnlockEmpty(idU)) == Some(k + 35) && Find(p, UnlockEnd(idU)) == Some(k + 40)
    requires mem[m.lock] == 0 && mem[m.queue_tail] != mem[m.queue_head] && 0 <= mem[m.queue_head] < MEM_SIZE && mem[m.queue_head] != m.lock
    requires At(p, k, CondRelease(c, m, tid, t0, t1, idU))
    ensures Goes(Exec(p), Config(Frame(k + 19, regs), mem, tr), 15,
                 Config(Frame(k + 41, regs[t0 := 0][t1 := mem[mem[m.queue_head]]]), WaitQueues.Popped(Waiters(m), mem), tr + [Wake(mem[mem[m.queue_head]])]))
    ensures k + 41 < |p| && p[k + 41] == Blk
  {
    CondReleaseParts(p, k, c, m, tid, t0, t1, idU);
    MutexUnlockHandsOverAndWakes(p, k + 19, m, t0, t1, idU, regs, mem, tr);
  }

  /**
   * Then `mutex_unlock` and `blk`, when a thread waits for the mutex: the
   * oldest waiter leaves the mutex's queue and is woken before this thread
   * reports Block; `held` stays set, now for the woken thread.
   */
  lemma {:induction false} CondWaitHandsOverAndBlocks(p: seq<Instr>, k: nat, c: Cond, m: Mutex, tid: int, t0: Reg, t1: Reg, idU: int, regs: Regs, mem: Memory, tr: seq<Signal>)
    requires t0 != t1 && Distinct(m) && Find(p, UnlockEmpty(idU)) == Some(k + 35) && Find(p, UnlockEnd(idU)) == Some(k + 40)
    requires mem[m.lock] == 0 && mem[m.queue_tail] != mem[m.queue_head] && 0 <= mem[m.queue_head] < MEM_SIZE && mem[m.queue_head] != m.lock
    requires At(p, k, CondRelease(c, m, tid, t0, t1, idU))
    ensures Goes(Exec(p), Config(Frame(k + 19, regs), mem, tr), 16,
                 Config(Frame(k + 42, regs[t0 := 0][t1 := mem[mem[m.queue_head]]]), WaitQueues.Popped(Waiters(m), mem),
                        tr + [Wake(mem[mem[m.queue_head]])] + [Block]))
  {
    ReleaseHandsOver(p, k, c, m, tid, t0, t1, idU, regs, mem, tr);
    HandOverBlocks(p, k, m, t0, t1, regs, mem, tr);
  }

  lemma HandOverBlocks(p: seq<Instr>, k: nat, m: Mutex, t0: Reg, t1: Reg, regs: Regs, mem: Memory, tr: seq<Signal>)
    requires 0 <= mem[m.queue_head] < MEM_SIZE
    requires Goes(Exec(p), Config(Frame(k + 19, regs), mem, tr), 15,
                  Config(Frame(k + 41, regs[t0 := 0][t1 := mem[mem[m.queue_head]]]), WaitQueues.Popped(Waiters(m), mem), tr + [Wake(mem[mem[m.queue_head]])]))
    requires k + 41 < |p| && p[k + 41] == Blk
    ensures Goes(Exec(p), Config(Frame(k + 19, regs), mem, tr), 16,
                 Config(Frame(k + 42, regs[t0 := 0][t1 := mem[mem[m.queue_head]]]), WaitQueues.Popped(Waiters(m), mem),
                        tr + [Wake(mem[mem[m.queue_head]])] + [Block]))
  {
    ThenBlk(p, Config(Frame(k + 19, regs), mem, tr), 15, Config(Frame(k + 41, regs[t0 := 0][t1 := mem[mem[m.queue_head]]]), WaitQueues.Popped(Waiters(m), mem), tr + [Wake(mem[mem[m.queue_head]])]),
            16, Config(Frame(k + 42, regs[t0 := 0][t1 := mem[mem[m.queue_head]]]), WaitQueues.Popped(Waiters(m), mem), tr + [Wake(mem[mem[m.queue_head]])] + [Block]));
  }


  /** The re-locking `mutex_lock` at offset 42, on a held mutex, for whichever id and registers it was generated with. */
  lemma {:induction false} RelockBlocks(p: seq<Instr>, k: nat, m: Mutex, who: int, t0: Reg, t1: Reg, idL: int, regs: Regs, mem: Memory, tr: seq<Signal>)
    requires t0 != t1 && Distinct(m) && Find(p, LockSlow(idL)) == Some(k + 51) && Find(p, LockEnd(idL)) == Some(k + 61)
    requires mem[m.lock] == 0 && mem[m.held] != 0 && 0 <= mem[m.queue_tail] < MEM_SIZE
    requires At(p, k + 42, MutexLock(m, who, t0, t1, idL))
    ensures Goes(Exec(p), Config(Frame(k + 42, regs), mem, tr), 13,
                 Config(Frame(k + 60, regs[t0 := 0][t1 := 1]), WaitQueues.Pushed(Waiters(m), mem, m.lock, who), tr))
  {
    MutexLockSlowBlocks(p, k + 42, m, who, t0, t1, idL, regs, mem, tr);
  }

  /** What a blocked `mutex_lock` leaves in the last slot of the mutex's wait queue is the id it pushed. */
  lemma PushedLast(m: Mutex, mem: Memory, who: int)
    requires Distinct(m) && WaitQueues.Valid(Waiters(m), mem, Cells(m))
    ensures WaitQueues.Pushed(Waiters(m), mem, m.lock, who)[mem[m.queue_tail]] == who
  {
    assert mem[m.queue_tail] !in Cells(m);
  }

  /**
   * `cond_wait` as written, re-locking a mutex that another thread holds:
   * the id it appends to the mutex's wait queue is 0, not the caller's
   * `tid`, and it overwrites registers 0 and 1, not `t0` and `t1`. A later
   * `mutex_unlock` therefore wakes thread 0, and the caller stays blocked.
   */
  lemma {:induction false} CondWaitRelocksAsZero(p: seq<Instr>, k: nat, c: Cond, m: Mutex, tid: int, t0: Reg, t1: Reg, idU: int, idL: int, regs: Regs, mem: Memory, tr: seq<Signal>)
    requires Distinct(m) && Find(p, LockSlow(idL)) == Some(k + 51) && Find(p, LockEnd(idL)) == Some(k + 61)
    requires mem[m.lock] == 0 && mem[m.held] != 0 && WaitQueues.Valid(Waiters(m), mem, Cells(m))
    requires At(p, k, CondWait(c, m, tid, t0, t1, idU, idL))
    ensures Goes(Exec(p), Config(Frame(k + 42, regs), mem, tr), 13,
                 Config(Frame(k + 60, regs[0 := 0][1 := 1]), WaitQueues.Pushed(Waiters(m), mem, m.lock, 0), tr))
    ensures WaitQueues.Pushed(Waiters(m), mem, m.lock, 0)[mem[m.queue_tail]] == 0
  {
    CondWaitSplit(p, k, c, m, tid, t0, t1, idU, idL);
    RelockBlocks(p, k, m, 0, 0, 1, idL, regs, mem, tr);
    PushedLast(m, mem, 0);
  }

  /** The corrected `cond_wait` appends the caller's own `tid` and uses only its own registers. */
  lemma {:induction false} CondWaitFixedRelocksAsCaller(p: seq<Instr>, k: nat, c: Cond, m: Mutex, tid: int, t0: Reg, t1: Reg, idU: int, idL: int, regs: Regs, mem: Memory, tr: seq<Signal>)
    requires t0 != t1 && Distinct(m) && Find(p, LockSlow(idL)) == Some(k + 51) && Find(p, LockEnd(idL)) == Some(k + 61)
    requires mem[m.lock] == 0 && mem[m.held] != 0 && WaitQueues.Valid(Waiters(m), mem, Cells(m))
    requires At(p, k, CondWaitFixed(c, m, tid, t0, t1, idU, idL))
    ensures Goes(Exec(p), Config(Frame(k + 42, regs), mem, tr), 13,
                 Config(Frame(k + 60, regs[t0 := 0][t1 := 1]), WaitQueues.Pushed(Waiters(m), mem, m.lock, tid), tr))
    ensures WaitQueues.Pushed(Waiters(m), mem, m.lock, tid)[mem[m.queue_tail]] == tid
  {
    CondWaitSplit(p, k, c, m, tid, t0, t1, idU, idL);
    RelockBlocks(p, k, m, tid, t0, t1, idL, regs, mem, tr);
    PushedLast(m, mem, tid);
  }

  /** The re-locking `mutex_lock` at offset 42, on a free mutex. */
  lemma {:induction false} RelockFast(p: seq<Instr>, k: nat, m: Mutex, who: int, t0: Reg, t1: Reg, idL: int, regs: Regs, mem: Memory, tr: seq<Signal>)
    requires t0 != t1 && Distinct(m) && Find(p, LockSlow(idL)) == Some(k + 51) && Find(p, LockEnd(idL)) == Some(k + 61)
    requires mem[m.lock] == 0 && mem[m.held] == 0
    requires At(p, k + 42, MutexLock(m, who, t0, t1, idL))
    ensures Goes(Exec(p), Config(Frame(k + 42, regs), mem, tr), 8,
                 Config(Frame(k + 62, regs[t0 := 0]), mem[m.held := 1], tr))
  {
    MutexLockFast(p, k + 42, m, who, t0, t1, idL, regs, mem, tr);
  }

  /** With the mutex free, the corrected `cond_wait` takes it at once and leaves the fragment. */
  lemma {:induction false} CondWaitFixedRelocksFast(p: seq<Instr>, k: nat, c: Cond, m: Mutex, tid: int, t0: Reg, t1: Reg, idU: int, idL: int, regs: Regs, mem: Memory, tr: seq<Signal>)
    requires t0 != t1 && Distinct(m) && Find(p, LockSlow(idL)) == Some(k + 51) && Find(p, LockEnd(idL)) == Some(k + 61)
    requires mem[m.lock] == 0 && mem[m.held] == 0
    requires At(p, k, CondWaitFixed(c, m, tid, t0, t1, idU, idL))
    ensures Goes(Exec(p), Config(Frame(k + 42, regs), mem, tr), 8,
                 Config(Frame(k + 62, regs[t0 := 0]), mem[m.held := 1], tr))
  {
    CondWaitSplit(p, k, c, m, tid, t0, t1, idU, idL);
    RelockFast(p, k, m, tid, t0, t1, idL, regs, mem, tr);
  }

  /** The state `cond_signal` leaves after waking, in terms of the state it started from. */
  lemma SignalState(c: Cond, t0: Reg, t1: Reg, regs: Regs, mem: Memory)
    requires t0 != t1 && Apart(c) && Valid(c.queue, mem) && |Contents(c.queue, mem)| > 0 && mem[c.lock] == 0
    ensures Valid(c.queue, mem[c.lock := 1]) && Contents(c.queue, mem[c.lock := 1]) == Contents(c.queue, mem)
    ensures SignalRegs(c, t0, t1, regs, mem)[t0 := 0]
            == regs[t1 := Contents(c.queue, mem)[0]][t0 := 0]
    ensures Dequeued(c.queue, mem[c.lock := 1])[c.lock := 0] == Dequeued(c.queue, mem)
  {
    LockApart(c, mem, 1);
  }

  lemma SignalChecksTo(p: seq<Instr>, k: nat, c: Cond, t0: Reg, t1: Reg, id: int, regs: Regs, mem: Memory, tr: seq<Signal>) returns (c8: Config)
    requires t0 != t1 && Apart(c) && mem[c.lock] == 0 && mem[c.queue.tail] != mem[c.queue.head]
    requires At(p, k, CondSignal(c, t0, t1, id))
    ensures c8 == Config(Frame(k + 8, regs[t1 := mem[c.queue.head]][t0 := mem[c.queue.tail] - mem[c.queue.head]]), mem[c.lock := 1], tr)
    ensures Goes(Exec(p), Config(Frame(k, regs), mem, tr), 6, c8)
  {
    SignalChecks(p, k, c, t0, t1, id, regs, mem, tr);
    c8 := Config(Frame(k + 8, regs[t1 := mem[c.queue.head]][t0 := mem[c.queue.tail] - mem[c.queue.head]]), mem[c.lock := 1], tr);
  }

  lemma {:induction false} SignalPostsTo(p: seq<Instr>, k: nat, c: Cond, t0: Reg, t1: Reg, id: int, regs: Regs, mem: Memory, tr: seq<Signal>, c8: Config, c21: Config) returns (c29: Config)
    requires t0 != t1 && Apart(c) && Valid(c.queue, mem[c.lock := 1]) && |Contents(c.queue, mem[c.lock := 1])| > 0 && Find(p, SignalEnd(id)) == Some(k + 28)
    requires At(p, k, CondSignal(c, t0, t1, id))
    requires c8 == Config(Frame(k + 8, regs[t1 := mem[c.queue.head]][t0 := mem[c.queue.tail] - mem[c.queue.head]]), mem[c.lock := 1], tr)
    requires c21 == Config(Frame(k + 8 + 13, c8.frame.regs[t0 := Succ(c.queue, c8.mem[c.queue.head])][t1 := Contents(c.queue, c8.mem)[0]]), Dequeued(c.queue, c8.mem), c8.trace)
    ensures c29 == Config(Frame(k + 29, SignalRegs(c, t0, t1, regs, mem)[t0 := 0]), Dequeued(c.queue, mem[c.lock := 1])[c.lock := 0], tr + [Wake(Waiter(c, mem))])
    ensures Goes(Exec(p), c21, 5, c29)
  {
    SignalPosts(p, k, c, t0, t1, id, regs, mem, tr);
    c29 := Config(Frame(k + 29, SignalRegs(c, t0, t1, regs, mem)[t0 := 0]), Dequeued(c.queue, mem[c.lock := 1])[c.lock := 0], tr + [Wake(Waiter(c, mem))]);
  }

  /** The run of `cond_signal` with waiters, in the raw form the steps give. */
  lemma {:induction false} SignalRuns(p: seq<Instr>, k: nat, c: Cond, t0: Reg, t1: Reg, id: int, regs: Regs, mem: Memory, tr: seq<Signal>) returns (n: nat)
    requires t0 != t1 && Apart(c) && mem[c.lock] == 0 && mem[c.queue.tail] != mem[c.queue.head]
    requires Valid(c.queue, mem[c.lock := 1]) && |Contents(c.queue, mem[c.lock := 1])| > 0
    requires Find(p, SignalEnd(id)) == Some(k + 28)
    requires At(p, k, CondSignal(c, t0, t1, id)) && At(p, k + 8, Dequeue(c.queue, t1, t0))
    ensures Goes(Exec(p), Config(Frame(k, regs), mem, tr), n,
                 Config(Frame(k + 29, SignalRegs(c, t0, t1, regs, mem)[t0 := 0]), Dequeued(c.queue, mem[c.lock := 1])[c.lock := 0], tr + [Wake(Waiter(c, mem))]))
  {
    var c8 := SignalChecksTo(p, k, c, t0, t1, id, regs, mem, tr);
    var d, c21 := DequeueFrom(p, k + 8, c.queue, t1, t0, c8);
    var c29 := SignalPostsTo(p, k, c, t0, t1, id, regs, mem, tr, c8, c21);
    n := Then3(Exec(p), Config(Frame(k, regs), mem, tr), 6, c8, d, c21, 5, c29);
  }

  /**
   * `cond_signal` with waiters: the oldest waiter leaves the condition's
   * queue and is woken, after the condition's lock is free again; nothing
   * else in memory changes.
   */
  lemma {:induction false} CondSignalWakes(p: seq<Instr>, k: nat, c: Cond, t0: Reg, t1: Reg, id: int, regs: Regs, mem: Memory, tr: seq<Signal>) returns (n: nat)
    requires t0 != t1 && Apart(c) && Valid(c.queue, mem) && |Contents(c.queue, mem)| > 0 && mem[c.lock] == 0
    requires Find(p, SignalEnd(id)) == Some(k + 28)
    requires At(p, k, CondSignal(c, t0, t1, id))
    ensures Goes(Exec(p), Config(Frame(k, regs), mem, tr), n,
                 Config(Frame(k + 29, regs[t1 := Contents(c.queue, mem)[0]][t0 := 0]), Dequeued(c.queue, mem),
                        tr + [Wake(Contents(c.queue, mem)[0])]))
    ensures Valid(c.queue, Dequeued(c.queue, mem))
    ensures Contents(c.queue, Dequeued(c.queue, mem)) == Contents(c.queue, mem)[1..]
  {
    SignalState(c, t0, t1, regs, mem);
    CondSignalParts(p, k, c, t0, t1, id);
    n := SignalRuns(p, k, c, t0, t1, id, regs, mem, tr);
    Same(Exec(p), Config(Frame(k, regs), mem, tr), n,
         Config(Frame(k + 29, SignalRegs(c, t0, t1, regs, mem)[t0 := 0]), Dequeued(c.queue, mem[c.lock := 1])[c.lock := 0], tr + [Wake(Waiter(c, mem))]),
         Config(Frame(k + 29, regs[t1 := Contents(c.queue, mem)[0]][t0 := 0]), Dequeued(c.queue, mem), tr + [Wake(Contents(c.queue, mem)[0])]));
    DequeueTakesFirst(c.queue, mem);
  }

  /** `cond_signal` writes no register but `t0` and `t1` and no cell but its lock and the queue's head index. */
  lemma CondSignalFootprint(c: Cond, t0: Reg, t1: Reg, id: int, cf: Config, n: nat, cf2: Config)
    requires Goes(Exec(CondSignal(c, t0, t1, id)), cf, n, cf2)
    ensures forall x: Reg :: x != t0 && x != t1 ==> cf2.frame.regs[x] == cf.frame.regs[x]
    ensures forall a: Addr :: a != c.lock && a != c.queue.head ==> cf2.mem[a] == cf.mem[a]
  {
    var rs, cells := {t0, t1}, {c.lock, c.queue.head};
    var a := SpinLockYld(c.lock, t0) + Qlength(c.queue, t0, t1);
    assert Confined(SpinLockYld(c.lock, t0), rs, cells) && Confined(Qlength(c.queue, t0, t1), rs, cells);
    ConfinedAppend(SpinLockYld(c.lock, t0), Qlength(c.queue, t0, t1), rs, cells);
    assert Confined([Bfs(t0, Named(SignalEmpty(id)))], rs, cells);
    ConfinedAppend(a, [Bfs(t0, Named(SignalEmpty(id)))], rs, cells);
    a := a + [Bfs(t0, Named(SignalEmpty(id)))];
    assert Confined(Dequeue(c.queue, t1, t0), rs, cells);
    ConfinedAppend(a, Dequeue(c.queue, t1, t0), rs, cells);
    a := a + Dequeue(c.queue, t1, t0);
    assert Confined(SpinUnlock(c.lock, t0), rs, cells);
    ConfinedAppend(a, SpinUnlock(c.lock, t0), rs, cells);
    a := a + SpinUnlock(c.lock, t0);
    assert Confined([Pst(t1), Br(Named(SignalEnd(id))), Lab(SignalEmpty(id))], rs, cells);
    ConfinedAppend(a, [Pst(t1), Br(Named(SignalEnd(id))), Lab(SignalEmpty(id))], rs, cells);
    a := a + [Pst(t1), Br(Named(SignalEnd(id))), Lab(SignalEmpty(id))];
    ConfinedAppend(a, SpinUnlock(c.lock, t0), rs, cells);
    a := a + SpinUnlock(c.lock, t0);
    assert Confined([Lab(SignalEnd(id))], rs, cells);
    ConfinedAppend(a, [Lab(SignalEnd(id))], rs, cells);
    assert a + [Lab(SignalEnd(id))] == CondSignal(c, t0, t1, id);
    RunFootprint(CondSignal(c, t0, t1, id), {t0, t1}, {c.lock, c.queue.head}, cf, n, cf2);
  }

  /** Where the labels of `cond_signal` sit inside it. */
  lemma {:induction false} SignalLabelsAt(c: Cond, t0: Reg, t1: Reg, id: int)
    ensures Find(CondSignal(c, t0, t1, id), SignalEmpty(id)) == Some(25)
    ensures Find(CondSignal(c, t0, t1, id), SignalEnd(id)) == Some(28)
  {
    var q := CondSignal(c, t0, t1, id);
    forall j | 0 <= j < 28 ensures !q[j].Lab? || j == 25 {
    }
    FindAt(q, 25, SignalEmpty(id));
    FindAt(q, 28, SignalEnd(id));
  }

  /** Every branch of `cond_signal` stays inside the fragment. */
  lemma CondSignalTargetsWithin(c: Cond, t0: Reg, t1: Reg, id: int)
    ensures TargetsWithin(CondSignal(c, t0, t1, id))
  {
    var q := CondSignal(c, t0, t1, id);
    SignalLabelsAt(c, t0, t1, id);
    forall i | 0 <= i < |q| && IsBranch(q[i])
      ensures match q[i].target
        case Abs(_) => false
        case Rel(o) => 0 <= i + o <= |q|
        case Named(l) => Find(q, l).Some?
    {
      assert i in {1, 3, 7, 11, 17, 24};
    }
  }

  /** After a prefix that defines none of its labels, `cond_signal`'s named branches reach its own `lab`s. */
  lemma {:induction false} CondSignalLabels(pre: seq<Instr>, post: seq<Instr>, c: Cond, t0: Reg, t1: Reg, id: int)
    requires NoClash(pre, CondSignal(c, t0, t1, id))
    ensures Find(pre + CondSignal(c, t0, t1, id) + post, SignalEmpty(id)) == Some(|pre| + 25)
    ensures Find(pre + CondSignal(c, t0, t1, id) + post, SignalEnd(id)) == Some(|pre| + 28)
  {
    var q := CondSignal(c, t0, t1, id);
    assert pre + q + post == pre + (q + post);
    assert IsBranch(q[7]) && q[7].target == Named(SignalEmpty(id));
    assert IsBranch(q[24]) && q[24].target == Named(SignalEnd(id));
    SignalLabelsAt(c, t0, t1, id);
    FindAppend(pre, q + post, SignalEmpty(id));
    FindAppend(q, post, SignalEmpty(id));
    FindAppend(pre, q + post, SignalEnd(id));
    FindAppend(q, post, SignalEnd(id));
  }
}
