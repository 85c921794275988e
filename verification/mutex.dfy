/*
 * The mutex fragment generators (mutex.js). A mutex is four cells: an
 * internal spin lock, the `held` flag, and the head and tail index of a wait
 * queue that only grows. Ownership is handed over: an unlock that finds a
 * waiter wakes it and leaves `held` set, so the waiter owns the mutex when it
 * resumes after its `blk`.
 *
 * Labels carry an explicit `id` where the generators draw a random number.
 * The lemmas place a fragment at index `k` of a program `p` whose labels
 * resolve to the fragment's own `lab` instructions (`MutexLabels` shows this
 * holds whenever no earlier part of `p` defines a label of the same name).
 */
module Mutexes {
  import opened Isa
  import opened Runs
  import opened SpinLocks
  import opened WaitQueues

  datatype Mutex = Mutex(lock: Addr, held: Addr, queue_head: Addr, queue_tail: Addr)

  /** The four cells are distinct. */
  predicate Distinct(m: Mutex) {
    && m.lock != m.held && m.lock != m.queue_head && m.lock != m.queue_tail
    && m.held != m.queue_head && m.held != m.queue_tail && m.queue_head != m.queue_tail
  }

  function Waiters(m: Mutex): WaitQueue {
    WaitQueue(m.queue_head, m.queue_tail)
  }

  function LockSlow(id: int): Label { Label("mtx_lock_slow", id) }
  function LockEnd(id: int): Label { Label("mtx_lock_end", id) }
  function UnlockEmpty(id: int): Label { Label("mtx_unlock_empty", id) }
  function UnlockEnd(id: int): Label { Label("mtx_unlock_end", id) }

  /**
   * Take the internal lock; try-lock `held`; if it was free release the
   * internal lock and finish, otherwise append `tid` to the wait queue,
   * release the internal lock and block.
   */
  function MutexLock(m: Mutex, tid: int, t0: Reg, t1: Reg, id: int): seq<Instr> {
    SpinLockYld(m.lock, t0)
    + SpinTrylock(m.held, t0)
    + [Btr(t0, Named(LockSlow(id)))]
    + SpinUnlock(m.lock, t0)
    + [Br(Named(LockEnd(id))),
       Lab(LockSlow(id)),
       Lod(t0, m.queue_tail), Imm(t1, tid), Str(t1, t0), Imm(t1, 1), Add(t0, t1), Sto(t0, m.queue_tail)]
    + SpinUnlock(m.lock, t0)
    + [Blk, Lab(LockEnd(id))]
  }

  /**
   * Take the internal lock; if the wait queue is non-empty take its head id,
   * release the internal lock and wake that thread, leaving `held` set;
   * otherwise clear `held` and release the internal lock.
   */
  function MutexUnlock(m: Mutex, t0: Reg, t1: Reg, id: int): seq<Instr> {
    SpinLockYld(m.lock, t0)
    + [Lod(t0, m.queue_head), Lod(t1, m.queue_tail), Sub(t1, t0), Bfs(t1, Named(UnlockEmpty(id))),
       Lod(t0, m.queue_head), Ldr(t1, t0), Adi(t0, 1), Sto(t0, m.queue_head)]
    + SpinUnlock(m.lock, t0)
    + [Pst(t1), Br(Named(UnlockEnd(id))),
       Lab(UnlockEmpty(id)), Imm(t0, 0), Sto(t0, m.held)]
    + SpinUnlock(m.lock, t0)
    + [Lab(UnlockEnd(id))]
  }

  /*
   * One lemma per instruction of each path, over the state where the
   * fragment starts: `regs`, `mem` and `tr`.
   */
  lemma LockAt0Busy(p: seq<Instr>, k: nat, m: Mutex, tid: int, t0: Reg, t1: Reg, id: int, regs: Regs, mem: Memory, tr: seq<Signal>)
    requires t0 != t1 && Distinct(m) && mem[m.lock] != 0
    requires At(p, k, MutexLock(m, tid, t0, t1, id))
    ensures Goes(Exec(p), Config(Frame(k, regs), mem, tr), 1,
                 Config(Frame(k + 1, regs[t0 := mem[m.lock]]), mem, tr))
  {
    assert p[k] == MutexLock(m, tid, t0, t1, id)[0];
    One(p, Config(Frame(k, regs), mem, tr),
        Config(Frame(k + 1, regs[t0 := mem[m.lock]]), mem, tr));
  }

  lemma LockAt1Busy(p: seq<Instr>, k: nat, m: Mutex, tid: int, t0: Reg, t1: Reg, id: int, regs: Regs, mem: Memory, tr: seq<Signal>)
    requires t0 != t1 && Distinct(m) && mem[m.lock] != 0
    requires At(p, k, MutexLock(m, tid, t0, t1, id))
    ensures Goes(Exec(p), Config(Frame(k + 1, regs[t0 := mem[m.lock]]), mem, tr), 1,
                 Config(Frame(k + 2, regs[t0 := mem[m.lock]]), mem, tr))
  {
    assert p[k + 1] == MutexLock(m, tid, t0, t1, id)[1];
    One(p, Config(Frame(k + 1, regs[t0 := mem[m.lock]]), mem, tr),
        Config(Frame(k + 2, regs[t0 := mem[m.lock]]), mem, tr));
  }

  lemma LockAt2Busy(p: seq<Instr>, k: nat, m: Mutex, tid: int, t0: Reg, t1: Reg, id: int, regs: Regs, mem: Memory, tr: seq<Signal>)
    requires t0 != t1 && Distinct(m) && mem[m.lock] != 0
    requires At(p, k, MutexLock(m, tid, t0, t1, id))
    ensures Goes(Exec(p), Config(Frame(k + 2, regs[t0 := mem[m.lock]]), mem, tr), 1,
                 Config(Frame(k + 3, regs[t0 := mem[m.lock]]), mem, tr + [Yield]))
  {
    assert p[k + 2] == MutexLock(m, tid, t0, t1, id)[2];
    One(p, Config(Frame(k + 2, regs[t0 := mem[m.lock]]), mem, tr),
        Config(Frame(k + 3, regs[t0 := mem[m.lock]]), mem, tr + [Yield]));
  }

  lemma LockAt3Busy(p: seq<Instr>, k: nat, m: Mutex, tid: int, t0: Reg, t1: Reg, id: int, regs: Regs, mem: Memory, tr: seq<Signal>)
    requires t0 != t1 && Distinct(m) && mem[m.lock] != 0
    requires At(p, k, MutexLock(m, tid, t0, t1, id))
    ensures Goes(Exec(p), Config(Frame(k + 3, regs[t0 := mem[m.lock]]), mem, tr + [Yield]), 1,
                 Config(Frame(k, regs[t0 := mem[m.lock]]), mem, tr + [Yield]))
  {
    assert p[k + 3] == MutexLock(m, tid, t0, t1, id)[3];
    One(p, Config(Frame(k + 3, regs[t0 := mem[m.lock]]), mem, tr + [Yield]),
        Config(Frame(k, regs[t0 := mem[m.lock]]), mem, tr + [Yield]));
  }

  lemma LockAt0(p: seq<Instr>, k: nat, m: Mutex, tid: int, t0: Reg, t1: Reg, id: int, regs: Regs, mem: Memory, tr: seq<Signal>)
    requires t0 != t1 && Distinct(m) && mem[m.lock] == 0
    requires At(p, k, MutexLock(m, tid, t0, t1, id))
    ensures Goes(Exec(p), Config(Frame(k, regs), mem, tr), 1,
                 Config(Frame(k + 1, regs[t0 := 0]), mem[m.lock := 1], tr))
  {
    assert p[k] == MutexLock(m, tid, t0, t1, id)[0];
    One(p, Config(Frame(k, regs), mem, tr),
        Config(Frame(k + 1, regs[t0 := 0]), mem[m.lock := 1], tr));
  }

  lemma LockAt1(p: seq<Instr>, k: nat, m: Mutex, tid: int, t0: Reg, t1: Reg, id: int, regs: Regs, mem: Memory, tr: seq<Signal>)
    requires t0 != t1 && Distinct(m) && mem[m.lock] == 0
    requires At(p, k, MutexLock(m, tid, t0, t1, id))
    ensures Goes(Exec(p), Config(Frame(k + 1, regs[t0 := 0]), mem[m.lock := 1], tr), 1,
                 Config(Frame(k + 4, regs[t0 := 0]), mem[m.lock := 1], tr))
  {
    assert p[k + 1] == MutexLock(m, tid, t0, t1, id)[1];
    One(p, Config(Frame(k + 1, regs[t0 := 0]), mem[m.lock := 1], tr),
        Config(Frame(k + 4, regs[t0 := 0]), mem[m.lock := 1], tr));
  }

  lemma LockAt4Fast(p: seq<Instr>, k: nat, m: Mutex, tid: int, t0: Reg, t1: Reg, id: int, regs: Regs, mem: Memory, tr: seq<Signal>)
    requires t0 != t1 && Distinct(m) && mem[m.lock] == 0 && mem[m.held] == 0
    requires At(p, k, MutexLock(m, tid, t0, t1, id))
    ensures Goes(Exec(p), Config(Frame(k + 4, regs[t0 := 0]), mem[m.lock := 1], tr), 1,
                 Config(Frame(k + 5, regs[t0 := 0]), mem[m.lock := 1][m.held := 1], tr))
  {
    assert p[k + 4] == MutexLock(m, tid, t0, t1, id)[4];
    One(p, Config(Frame(k + 4, regs[t0 := 0]), mem[m.lock := 1], tr),
        Config(Frame(k + 5, regs[t0 := 0]), mem[m.lock := 1][m.held := 1], tr));
  }

  lemma LockAt5Fast(p: seq<Instr>, k: nat, m: Mutex, tid: int, t0: Reg, t1: Reg, id: int, regs: Regs, mem: Memory, tr: seq<Signal>)
    requires t0 != t1 && Distinct(m) && mem[m.lock] == 0 && mem[m.held] == 0
    requires At(p, k, MutexLock(m, tid, t0, t1, id))
    ensures Goes(Exec(p), Config(Frame(k + 5, regs[t0 := 0]), mem[m.lock := 1][m.held := 1], tr), 1,
                 Config(Frame(k + 6, regs[t0 := 0]), mem[m.lock := 1][m.held := 1], tr))
  {
    assert p[k + 5] == MutexLock(m, tid, t0, t1, id)[5];
    One(p, Config(Frame(k + 5, regs[t0 := 0]), mem[m.lock := 1][m.held := 1], tr),
        Config(Frame(k + 6, regs[t0 := 0]), mem[m.lock := 1][m.held := 1], tr));
  }

  lemma LockAt6Fast(p: seq<Instr>, k: nat, m: Mutex, tid: int, t0: Reg, t1: Reg, id: int, regs: Regs, mem: Memory, tr: seq<Signal>)
    requires t0 != t1 && Distinct(m) && mem[m.lock] == 0 && mem[m.held] == 0
    requires At(p, k, MutexLock(m, tid, t0, t1, id))
    ensures Goes(Exec(p), Config(Frame(k + 6, regs[t0 := 0]), mem[m.lock := 1][m.held := 1], tr), 1,
                 Config(Frame(k + 7, regs[t0 := 0]), mem[m.lock := 1][m.held := 1], tr))
  {
    assert p[k + 6] == MutexLock(m, tid, t0, t1, id)[6];
    One(p, Config(Frame(k + 6, regs[t0 := 0]), mem[m.lock := 1][m.held := 1], tr),
        Config(Frame(k + 7, regs[t0 := 0]), mem[m.lock := 1][m.held := 1], tr));
  }

  lemma LockAt7Fast(p: seq<Instr>, k: nat, m: Mutex, tid: int, t0: Reg, t1: Reg, id: int, regs: Regs, mem: Memory, tr: seq<Signal>)
    requires t0 != t1 && Distinct(m) && mem[m.lock] == 0 && mem[m.held] == 0
    requires At(p, k, MutexLock(m, tid, t0, t1, id))
    ensures Goes(Exec(p), Config(Frame(k + 7, regs[t0 := 0]), mem[m.lock := 1][m.held := 1], tr), 1,
                 Config(Frame(k + 8, regs[t0 := 0]), mem[m.held := 1], tr))
  {
    assert p[k + 7] == MutexLock(m, tid, t0, t1, id)[7];
    One(p, Config(Frame(k + 7, regs[t0 := 0]), mem[m.lock := 1][m.held := 1], tr),
        Config(Frame(k + 8, regs[t0 := 0]), mem[m.held := 1], tr));
  }

  lemma {:induction false} LockAt8Fast(p: seq<Instr>, k: nat, m: Mutex, tid: int, t0: Reg, t1: Reg, id: int, regs: Regs, mem: Memory, tr: seq<Signal>)
    requires t0 != t1 && Distinct(m) && Find(p, LockSlow(id)) == Some(k + 9) && Find(p, LockEnd(id)) == Some(k + 19) && mem[m.lock] == 0 && mem[m.held] == 0
    requires At(p, k, MutexLock(m, tid, t0, t1, id))
    ensures Goes(Exec(p), Config(Frame(k + 8, regs[t0 := 0]), mem[m.held := 1], tr), 1,
                 Config(Frame(k + 19, regs[t0 := 0]), mem[m.held := 1], tr))
  {
    assert p[k + 8] == MutexLock(m, tid, t0, t1, id)[8];
    One(p, Config(Frame(k + 8, regs[t0 := 0]), mem[m.held := 1], tr),
        Config(Frame(k + 19, regs[t0 := 0]), mem[m.held := 1], tr));
  }

  lemma LockAt19Fast(p: seq<Instr>, k: nat, m: Mutex, tid: int, t0: Reg, t1: Reg, id: int, regs: Regs, mem: Memory, tr: seq<Signal>)
    requires t0 != t1 && Distinct(m) && mem[m.lock] == 0 && mem[m.held] == 0
    requires At(p, k, MutexLock(m, tid, t0, t1, id))
    ensures Goes(Exec(p), Config(Frame(k + 19, regs[t0 := 0]), mem[m.held := 1], tr), 1,
                 Config(Frame(k + 20, regs[t0 := 0]), mem[m.held := 1], tr))
  {
    assert p[k + 19] == MutexLock(m, tid, t0, t1, id)[19];
    One(p, Config(Frame(k + 19, regs[t0 := 0]), mem[m.held := 1], tr),
        Config(Frame(k + 20, regs[t0 := 0]), mem[m.held := 1], tr));
  }

  lemma LockAt4Slow(p: seq<Instr>, k: nat, m: Mutex, tid: int, t0: Reg, t1: Reg, id: int, regs: Regs, mem: Memory, tr: seq<Signal>)
    requires t0 != t1 && Distinct(m) && mem[m.lock] == 0 && mem[m.held] != 0
    requires At(p, k, MutexLock(m, tid, t0, t1, id))
    ensures Goes(Exec(p), Config(Frame(k + 4, regs[t0 := 0]), mem[m.lock := 1], tr), 1,
                 Config(Frame(k + 5, regs[t0 := mem[m.held]]), mem[m.lock := 1], tr))
  {
    assert p[k + 4] == MutexLock(m, tid, t0, t1, id)[4];
    One(p, Config(Frame(k + 4, regs[t0 := 0]), mem[m.lock := 1], tr),
        Config(Frame(k + 5, regs[t0 := mem[m.held]]), mem[m.lock := 1], tr));
  }

  lemma {:induction false} LockAt5Slow(p: seq<Instr>, k: nat, m: Mutex, tid: int, t0: Reg, t1: Reg, id: int, regs: Regs, mem: Memory, tr: seq<Signal>)
    requires t0 != t1 && Distinct(m) && Find(p, LockSlow(id)) == Some(k + 9) && Find(p, LockEnd(id)) == Some(k + 19) && mem[m.lock] == 0 && mem[m.held] != 0
    requires At(p, k, MutexLock(m, tid, t0, t1, id))
    ensures Goes(Exec(p), Config(Frame(k + 5, regs[t0 := mem[m.held]]), mem[m.lock := 1], tr), 1,
                 Config(Frame(k + 9, regs[t0 := mem[m.held]]), mem[m.lock := 1], tr))
  {
    assert p[k + 5] == MutexLock(m, tid, t0, t1, id)[5];
    One(p, Config(Frame(k + 5, regs[t0 := mem[m.held]]), mem[m.lock := 1], tr),
        Config(Frame(k + 9, regs[t0 := mem[m.held]]), mem[m.lock := 1], tr));
  }

  lemma LockAt9Slow(p: seq<Instr>, k: nat, m: Mutex, tid: int, t0: Reg, t1: Reg, id: int, regs: Regs, mem: Memory, tr: seq<Signal>)
    requires t0 != t1 && Distinct(m) && mem[m.lock] == 0 && mem[m.held] != 0
    requires At(p, k, MutexLock(m, tid, t0, t1, id))
    ensures Goes(Exec(p), Config(Frame(k + 9, regs[t0 := mem[m.held]]), mem[m.lock := 1], tr), 1,
                 Config(Frame(k + 10, regs[t0 := mem[m.held]]), mem[m.lock := 1], tr))
  {
    assert p[k + 9] == MutexLock(m, tid, t0, t1, id)[9];
    One(p, Config(Frame(k + 9, regs[t0 := mem[m.held]]), mem[m.lock := 1], tr),
        Config(Frame(k + 10, regs[t0 := mem[m.held]]), mem[m.lock := 1], tr));
  }

  lemma LockAt10Slow(p: seq<Instr>, k: nat, m: Mutex, tid: int, t0: Reg, t1: Reg, id: int, regs: Regs, mem: Memory, tr: seq<Signal>)
    requires t0 != t1 && Distinct(m) && mem[m.lock] == 0 && mem[m.held] != 0
    requires At(p, k, MutexLock(m, tid, t0, t1, id))
    ensures Goes(Exec(p), Config(Frame(k + 10, regs[t0 := mem[m.held]]), mem[m.lock := 1], tr), 1,
                 Config(Frame(k + 11, regs[t0 := mem[m.queue_tail]]), mem[m.lock := 1], tr))
  {
    assert p[k + 10] == MutexLock(m, tid, t0, t1, id)[10];
    One(p, Config(Frame(k + 10, regs[t0 := mem[m.held]]), mem[m.lock := 1], tr),
        Config(Frame(k + 11, regs[t0 := mem[m.queue_tail]]), mem[m.lock := 1], tr));
  }

  lemma LockAt11Slow(p: seq<Instr>, k: nat, m: Mutex, tid: int, t0: Reg, t1: Reg, id: int, regs: Regs, mem: Memory, tr: seq<Signal>)
    requires t0 != t1 && Distinct(m) && mem[m.lock] == 0 && mem[m.held] != 0
    requires At(p, k, MutexLock(m, tid, t0, t1, id))
    ensures Goes(Exec(p), Config(Frame(k + 11, regs[t0 := mem[m.queue_tail]]), mem[m.lock := 1], tr), 1,
                 Config(Frame(k + 12, regs[t0 := mem[m.queue_tail]][t1 := tid]), mem[m.lock := 1], tr))
  {
    assert p[k + 11] == MutexLock(m, tid, t0, t1, id)[11];
    One(p, Config(Frame(k + 11, regs[t0 := mem[m.queue_tail]]), mem[m.lock := 1], tr),
        Config(Frame(k + 12, regs[t0 := mem[m.queue_tail]][t1 := tid]), mem[m.lock := 1], tr));
  }

  lemma LockAt12Slow(p: seq<Instr>, k: nat, m: Mutex, tid: int, t0: Reg, t1: Reg, id: int, regs: Regs, mem: Memory, tr: seq<Signal>)
    requires t0 != t1 && Distinct(m) && mem[m.lock] == 0 && mem[m.held] != 0 && 0 <= mem[m.queue_tail] < MEM_SIZE
    requires At(p, k, MutexLock(m, tid, t0, t1, id))
    ensures Goes(Exec(p), Config(Frame(k + 12, regs[t0 := mem[m.queue_tail]][t1 := tid]), mem[m.lock := 1], tr), 1,
                 Config(Frame(k + 13, regs[t0 := mem[m.queue_tail]][t1 := tid]), mem[m.lock := 1][mem[m.queue_tail] := tid], tr))
  {
    assert p[k + 12] == MutexLock(m, tid, t0, t1, id)[12];
    One(p, Config(Frame(k + 12, regs[t0 := mem[m.queue_tail]][t1 := tid]), mem[m.lock := 1], tr),
        Config(Frame(k + 13, regs[t0 := mem[m.queue_tail]][t1 := tid]), mem[m.lock := 1][mem[m.queue_tail] := tid], tr));
  }

  lemma LockAt13Slow(p: seq<Instr>, k: nat, m: Mutex, tid: int, t0: Reg, t1: Reg, id: int, regs: Regs, mem: Memory, tr: seq<Signal>)
    requires t0 != t1 && Distinct(m) && mem[m.lock] == 0 && mem[m.held] != 0 && 0 <= mem[m.queue_tail] < MEM_SIZE
    requires At(p, k, MutexLock(m, tid, t0, t1, id))
    ensures Goes(Exec(p), Config(Frame(k + 13, regs[t0 := mem[m.queue_tail]][t1 := tid]), mem[m.lock := 1][mem[m.queue_tail] := tid], tr), 1,
                 Config(Frame(k + 14, regs[t0 := mem[m.queue_tail]][t1 := 1]), mem[m.lock := 1][mem[m.queue_tail] := tid], tr))
  {
    assert p[k + 13] == MutexLock(m, tid, t0, t1, id)[13];
    One(p, Config(Frame(k + 13, regs[t0 := mem[m.queue_tail]][t1 := tid]), mem[m.lock := 1][mem[m.queue_tail] := tid], tr),
        Config(Frame(k + 14, regs[t0 := mem[m.queue_tail]][t1 := 1]), mem[m.lock := 1][mem[m.queue_tail] := tid], tr));
  }

  lemma LockAt14Slow(p: seq<Instr>, k: nat, m: Mutex, tid: int, t0: Reg, t1: Reg, id: int, regs: Regs, mem: Memory, tr: seq<Signal>)
    requires t0 != t1 && Distinct(m) && mem[m.lock] == 0 && mem[m.held] != 0 && 0 <= mem[m.queue_tail] < MEM_SIZE
    requires At(p, k, MutexLock(m, tid, t0, t1, id))
    ensures Goes(Exec(p), Config(Frame(k + 14, regs[t0 := mem[m.queue_tail]][t1 := 1]), mem[m.lock := 1][mem[m.queue_tail] := tid], tr), 1,
                 Config(Frame(k + 15, regs[t0 := mem[m.queue_tail] + 1][t1 := 1]), mem[m.lock := 1][mem[m.queue_tail] := tid], tr))
  {
    assert p[k + 14] == MutexLock(m, tid, t0, t1, id)[14];
    One(p, Config(Frame(k + 14, regs[t0 := mem[m.queue_tail]][t1 := 1]), mem[m.lock := 1][mem[m.queue_tail] := tid], tr),
        Config(Frame(k + 15, regs[t0 := mem[m.queue_tail] + 1][t1 := 1]), mem[m.lock := 1][mem[m.queue_tail] := tid], tr));
  }

  lemma LockAt15Slow(p: seq<Instr>, k: nat, m: Mutex, tid: int, t0: Reg, t1: Reg, id: int, regs: Regs, mem: Memory, tr: seq<Signal>)
    requires t0 != t1 && Distinct(m) && mem[m.lock] == 0 && mem[m.held] != 0 && 0 <= mem[m.queue_tail] < MEM_SIZE
    requires At(p, k, MutexLock(m, tid, t0, t1, id))
    ensures Goes(Exec(p), Config(Frame(k + 15, regs[t0 := mem[m.queue_tail] + 1][t1 := 1]), mem[m.lock := 1][mem[m.queue_tail] := tid], tr), 1,
                 Config(Frame(k + 16, regs[t0 := mem[m.queue_tail] + 1][t1 := 1]), mem[m.lock := 1][mem[m.queue_tail] := tid][m.queue_tail := mem[m.queue_tail] + 1], tr))
  {
    assert p[k + 15] == MutexLock(m, tid, t0, t1, id)[15];
    One(p, Config(Frame(k + 15, regs[t0 := mem[m.queue_tail] + 1][t1 := 1]), mem[m.lock := 1][mem[m.queue_tail] := tid], tr),
        Config(Frame(k + 16, regs[t0 := mem[m.queue_tail] + 1][t1 := 1]), mem[m.lock := 1][mem[m.queue_tail] := tid][m.queue_tail := mem[m.queue_tail] + 1], tr));
  }

  lemma LockAt16Slow(p: seq<Instr>, k: nat, m: Mutex, tid: int, t0: Reg, t1: Reg, id: int, regs: Regs, mem: Memory, tr: seq<Signal>)
    requires t0 != t1 && Distinct(m) && mem[m.lock] == 0 && mem[m.held] != 0 && 0 <= mem[m.queue_tail] < MEM_SIZE
    requires At(p, k, MutexLock(m, tid, t0, t1, id))
    ensures Goes(Exec(p), Config(Frame(k + 16, regs[t0 := mem[m.queue_tail] + 1][t1 := 1]), mem[m.lock := 1][mem[m.queue_tail] := tid][m.queue_tail := mem[m.queue_tail] + 1], tr), 1,
                 Config(Frame(k + 17, regs[t0 := 0][t1 := 1]), mem[m.lock := 1][mem[m.queue_tail] := tid][m.queue_tail := mem[m.queue_tail] + 1], tr))
  {
    assert p[k + 16] == MutexLock(m, tid, t0, t1, id)[16];
    One(p, Config(Frame(k + 16, regs[t0 := mem[m.queue_tail] + 1][t1 := 1]), mem[m.lock := 1][mem[m.queue_tail] := tid][m.queue_tail := mem[m.queue_tail] + 1], tr),
        Config(Frame(k + 17, regs[t0 := 0][t1 := 1]), mem[m.lock := 1][mem[m.queue_tail] := tid][m.queue_tail := mem[m.queue_tail] + 1], tr));
  }

  lemma LockAt17Slow(p: seq<Instr>, k: nat, m: Mutex, tid: int, t0: Reg, t1: Reg, id: int, regs: Regs, mem: Memory, tr: seq<Signal>)
    requires t0 != t1 && Distinct(m) && mem[m.lock] == 0 && mem[m.held] != 0 && 0 <= mem[m.queue_tail] < MEM_SIZE
    requires At(p, k, MutexLock(m, tid, t0, t1, id))
    ensures Goes(Exec(p), Config(Frame(k + 17, regs[t0 := 0][t1 := 1]), mem[m.lock := 1][mem[m.queue_tail] := tid][m.queue_tail := mem[m.queue_tail] + 1], tr), 1,
                 Config(Frame(k + 18, regs[t0 := 0][t1 := 1]), Pushed(Waiters(m), mem, m.lock, tid), tr))
  {
    assert p[k + 17] == MutexLock(m, tid, t0, t1, id)[17];
    One(p, Config(Frame(k + 17, regs[t0 := 0][t1 := 1]), mem[m.lock := 1][mem[m.queue_tail] := tid][m.queue_tail := mem[m.queue_tail] + 1], tr),
        Config(Frame(k + 18, regs[t0 := 0][t1 := 1]), Pushed(Waiters(m), mem, m.lock, tid), tr));
  }

  lemma LockAt18Slow(p: seq<Instr>, k: nat, m: Mutex, tid: int, t0: Reg, t1: Reg, id: int, regs: Regs, mem: Memory, tr: seq<Signal>)
    requires t0 != t1 && Distinct(m) && mem[m.lock] == 0 && mem[m.held] != 0 && 0 <= mem[m.queue_tail] < MEM_SIZE
    requires At(p, k, MutexLock(m, tid, t0, t1, id))
    ensures Goes(Exec(p), Config(Frame(k + 18, regs[t0 := 0][t1 := 1]), Pushed(Waiters(m), mem, m.lock, tid), tr), 1,
                 Config(Frame(k + 19, regs[t0 := 0][t1 := 1]), Pushed(Waiters(m), mem, m.lock, tid), tr + [Block]))
  {
    assert p[k + 18] == MutexLock(m, tid, t0, t1, id)[18];
    One(p, Config(Frame(k + 18, regs[t0 := 0][t1 := 1]), Pushed(Waiters(m), mem, m.lock, tid), tr),
        Config(Frame(k + 19, regs[t0 := 0][t1 := 1]), Pushed(Waiters(m), mem, m.lock, tid), tr + [Block]));
  }

  lemma LockAt19Slow(p: seq<Instr>, k: nat, m: Mutex, tid: int, t0: Reg, t1: Reg, id: int, regs: Regs, mem: Memory, tr: seq<Signal>)
    requires t0 != t1 && Distinct(m) && mem[m.lock] == 0 && mem[m.held] != 0 && 0 <= mem[m.queue_tail] < MEM_SIZE
    requires At(p, k, MutexLock(m, tid, t0, t1, id))
    ensures Goes(Exec(p), Config(Frame(k + 19, regs[t0 := 0][t1 := 1]), Pushed(Waiters(m), mem, m.lock, tid), tr + [Block]), 1,
                 Config(Frame(k + 20, regs[t0 := 0][t1 := 1]), Pushed(Waiters(m), mem, m.lock, tid), tr + [Block]))
  {
    assert p[k + 19] == MutexLock(m, tid, t0, t1, id)[19];
    One(p, Config(Frame(k + 19, regs[t0 := 0][t1 := 1]), Pushed(Waiters(m), mem, m.lock, tid), tr + [Block]),
        Config(Frame(k + 20, regs[t0 := 0][t1 := 1]), Pushed(Waiters(m), mem, m.lock, tid), tr + [Block]));
  }

  /** While the internal lock is taken the thread yields and comes back to the `cas`, with nothing changed but `t0`. */
  lemma {:induction false} MutexLockSpins(p: seq<Instr>, k: nat, m: Mutex, tid: int, t0: Reg, t1: Reg, id: int, regs: Regs, mem: Memory, tr: seq<Signal>)
    requires t0 != t1 && Distinct(m) && Find(p, LockSlow(id)) == Some(k + 9) && Find(p, LockEnd(id)) == Some(k + 19) && mem[m.lock] != 0
    requires At(p, k, MutexLock(m, tid, t0, t1, id))
    ensures Goes(Exec(p), Config(Frame(k, regs), mem, tr), 4,
                 Config(Frame(k, regs[t0 := mem[m.lock]]), mem, tr + [Yield]))
  {
    LockAt0Busy(p, k, m, tid, t0, t1, id, regs, mem, tr);
    LockAt1Busy(p, k, m, tid, t0, t1, id, regs, mem, tr);
    LockAt2Busy(p, k, m, tid, t0, t1, id, regs, mem, tr);
    LockAt3Busy(p, k, m, tid, t0, t1, id, regs, mem, tr);
    ThenTo(Exec(p), Config(Frame(k, regs), mem, tr), 1,
         Config(Frame(k + 1, regs[t0 := mem[m.lock]]), mem, tr), 1,
         Config(Frame(k + 2, regs[t0 := mem[m.lock]]), mem, tr), 2);
    ThenTo(Exec(p), Config(Frame(k, regs), mem, tr), 2,
         Config(Frame(k + 2, regs[t0 := mem[m.lock]]), mem, tr), 1,
         Config(Frame(k + 3, regs[t0 := mem[m.lock]]), mem, tr + [Yield]), 3);
    ThenTo(Exec(p), Config(Frame(k, regs), mem, tr), 3,
         Config(Frame(k + 3, regs[t0 := mem[m.lock]]), mem, tr + [Yield]), 1,
         Config(Frame(k, regs[t0 := mem[m.lock]]), mem, tr + [Yield]), 4);
  }

  /** Fast path: with the internal lock free and `held` = 0 the fragment ends with `held` = 1 and nothing else changed (the internal lock is 0 again), and no `blk` runs. */
  lemma {:induction false} MutexLockFast(p: seq<Instr>, k: nat, m: Mutex, tid: int, t0: Reg, t1: Reg, id: int, regs: Regs, mem: Memory, tr: seq<Signal>)
    requires t0 != t1 && Distinct(m) && Find(p, LockSlow(id)) == Some(k + 9) && Find(p, LockEnd(id)) == Some(k + 19) && mem[m.lock] == 0 && mem[m.held] == 0
    requires At(p, k, MutexLock(m, tid, t0, t1, id))
    ensures Goes(Exec(p), Config(Frame(k, regs), mem, tr), 8,
                 Config(Frame(k + 20, regs[t0 := 0]), mem[m.held := 1], tr))
  {
    LockAt0(p, k, m, tid, t0, t1, id, regs, mem, tr);
    LockAt1(p, k, m, tid, t0, t1, id, regs, mem, tr);
    LockAt4Fast(p, k, m, tid, t0, t1, id, regs, mem, tr);
    LockAt5Fast(p, k, m, tid, t0, t1, id, regs, mem, tr);
    LockAt6Fast(p, k, m, tid, t0, t1, id, regs, mem, tr);
    LockAt7Fast(p, k, m, tid, t0, t1, id, regs, mem, tr);
    LockAt8Fast(p, k, m, tid, t0, t1, id, regs, mem, tr);
    LockAt19Fast(p, k, m, tid, t0, t1, id, regs, mem, tr);
    ThenTo(Exec(p), Config(Frame(k, regs), mem, tr), 1,
         Config(Frame(k + 1, regs[t0 := 0]), mem[m.lock := 1], tr), 1,
         Config(Frame(k + 4, regs[t0 := 0]), mem[m.lock := 1], tr), 2);
    ThenTo(Exec(p), Config(Frame(k, regs), mem, tr), 2,
         Config(Frame(k + 4, regs[t0 := 0]), mem[m.lock := 1], tr), 1,
         Config(Frame(k + 5, regs[t0 := 0]), mem[m.lock := 1][m.held := 1], tr), 3);
    ThenTo(Exec(p), Config(Frame(k, regs), mem, tr), 3,
         Config(Frame(k + 5, regs[t0 := 0]), mem[m.lock := 1][m.held := 1], tr), 1,
         Config(Frame(k + 6, regs[t0 := 0]), mem[m.lock := 1][m.held := 1], tr), 4);
    ThenTo(Exec(p), Config(Frame(k, regs), mem, tr), 4,
         Config(Frame(k + 6, regs[t0 := 0]), mem[m.lock := 1][m.held := 1], tr), 1,
         Config(Frame(k + 7, regs[t0 := 0]), mem[m.lock := 1][m.held := 1], tr), 5);
    ThenTo(Exec(p), Config(Frame(k, regs), mem, tr), 5,
         Config(Frame(k + 7, regs[t0 := 0]), mem[m.lock := 1][m.held := 1], tr), 1,
         Config(Frame(k + 8, regs[t0 := 0]), mem[m.held := 1], tr), 6);
    ThenTo(Exec(p), Config(Frame(k, regs), mem, tr), 6,
         Config(Frame(k + 8, regs[t0 := 0]), mem[m.held := 1], tr), 1,
         Config(Frame(k + 19, regs[t0 := 0]), mem[m.held := 1], tr), 7);
    ThenTo(Exec(p), Config(Frame(k, regs), mem, tr), 7,
         Config(Frame(k + 19, regs[t0 := 0]), mem[m.held := 1], tr), 1,
         Config(Frame(k + 20, regs[t0 := 0]), mem[m.held := 1], tr), 8);
  }

  lemma {:induction false} LockSlowPart1(p: seq<Instr>, k: nat, m: Mutex, tid: int, t0: Reg, t1: Reg, id: int, regs: Regs, mem: Memory, tr: seq<Signal>)
    requires t0 != t1 && Distinct(m) && Find(p, LockSlow(id)) == Some(k + 9) && Find(p, LockEnd(id)) == Some(k + 19) && mem[m.lock] == 0 && mem[m.held] != 0 && 0 <= mem[m.queue_tail] < MEM_SIZE
    requires At(p, k, MutexLock(m, tid, t0, t1, id))
    ensures Goes(Exec(p), Config(Frame(k, regs), mem, tr), 7,
                 Config(Frame(k + 12, regs[t0 := mem[m.queue_tail]][t1 := tid]), mem[m.lock := 1], tr))
  {
    LockAt0(p, k, m, tid, t0, t1, id, regs, mem, tr);
    LockAt1(p, k, m, tid, t0, t1, id, regs, mem, tr);
    LockAt4Slow(p, k, m, tid, t0, t1, id, regs, mem, tr);
    LockAt5Slow(p, k, m, tid, t0, t1, id, regs, mem, tr);
    LockAt9Slow(p, k, m, tid, t0, t1, id, regs, mem, tr);
    LockAt10Slow(p, k, m, tid, t0, t1, id, regs, mem, tr);
    LockAt11Slow(p, k, m, tid, t0, t1, id, regs, mem, tr);
    ThenTo(Exec(p), Config(Frame(k, regs), mem, tr), 1,
         Config(Frame(k + 1, regs[t0 := 0]), mem[m.lock := 1], tr), 1,
         Config(Frame(k + 4, regs[t0 := 0]), mem[m.lock := 1], tr), 2);
    ThenTo(Exec(p), Config(Frame(k, regs), mem, tr), 2,
         Config(Frame(k + 4, regs[t0 := 0]), mem[m.lock := 1], tr), 1,
         Config(Frame(k + 5, regs[t0 := mem[m.held]]), mem[m.lock := 1], tr), 3);
    ThenTo(Exec(p), Config(Frame(k, regs), mem, tr), 3,
         Config(Frame(k + 5, regs[t0 := mem[m.held]]), mem[m.lock := 1], tr), 1,
         Config(Frame(k + 9, regs[t0 := mem[m.held]]), mem[m.lock := 1], tr), 4);
    ThenTo(Exec(p), Config(Frame(k, regs), mem, tr), 4,
         Config(Frame(k + 9, regs[t0 := mem[m.held]]), mem[m.lock := 1], tr), 1,
         Config(Frame(k + 10, regs[t0 := mem[m.held]]), mem[m.lock := 1], tr), 5);
    ThenTo(Exec(p), Config(Frame(k, regs), mem, tr), 5,
         Config(Frame(k + 10, regs[t0 := mem[m.held]]), mem[m.lock := 1], tr), 1,
         Config(Frame(k + 11, regs[t0 := mem[m.queue_tail]]), mem[m.lock := 1], tr), 6);
    ThenTo(Exec(p), Config(Frame(k, regs), mem, tr), 6,
         Config(Frame(k + 11, regs[t0 := mem[m.queue_tail]]), mem[m.lock := 1], tr), 1,
         Config(Frame(k + 12, regs[t0 := mem[m.queue_tail]][t1 := tid]), mem[m.lock := 1], tr), 7);
  }

  lemma {:induction false} LockSlowPart2(p: seq<Instr>, k: nat, m: Mutex, tid: int, t0: Reg, t1: Reg, id: int, regs: Regs, mem: Memory, tr: seq<Signal>)
    requires t0 != t1 && Distinct(m) && Find(p, LockSlow(id)) == Some(k + 9) && Find(p, LockEnd(id)) == Some(k + 19) && mem[m.lock] == 0 && mem[m.held] != 0 && 0 <= mem[m.queue_tail] < MEM_SIZE
    requires At(p, k, MutexLock(m, tid, t0, t1, id))
    ensures Goes(Exec(p), Config(Frame(k + 12, regs[t0 := mem[m.queue_tail]][t1 := tid]), mem[m.lock := 1], tr), 6,
                 Config(Frame(k + 18, regs[t0 := 0][t1 := 1]), Pushed(Waiters(m), mem, m.lock, tid), tr))
  {
    LockAt12Slow(p, k, m, tid, t0, t1, id, regs, mem, tr);
    LockAt13Slow(p, k, m, tid, t0, t1, id, regs, mem, tr);
    LockAt14Slow(p, k, m, tid, t0, t1, id, regs, mem, tr);
    LockAt15Slow(p, k, m, tid, t0, t1, id, regs, mem, tr);
    LockAt16Slow(p, k, m, tid, t0, t1, id, regs, mem, tr);
    LockAt17Slow(p, k, m, tid, t0, t1, id, regs, mem, tr);
    ThenTo(Exec(p), Config(Frame(k + 12, regs[t0 := mem[m.queue_tail]][t1 := tid]), mem[m.lock := 1], tr), 1,
         Config(Frame(k + 13, regs[t0 := mem[m.queue_tail]][t1 := tid]), mem[m.lock := 1][mem[m.queue_tail] := tid], tr), 1,
         Config(Frame(k + 14, regs[t0 := mem[m.queue_tail]][t1 := 1]), mem[m.lock := 1][mem[m.queue_tail] := tid], tr), 2);
    ThenTo(Exec(p), Config(Frame(k + 12, regs[t0 := mem[m.queue_tail]][t1 := tid]), mem[m.lock := 1], tr), 2,
         Config(Frame(k + 14, regs[t0 := mem[m.queue_tail]][t1 := 1]), mem[m.lock := 1][mem[m.queue_tail] := tid], tr), 1,
         Config(Frame(k + 15, regs[t0 := mem[m.queue_tail] + 1][t1 := 1]), mem[m.lock := 1][mem[m.queue_tail] := tid], tr), 3);
    ThenTo(Exec(p), Config(Frame(k + 12, regs[t0 := mem[m.queue_tail]][t1 := tid]), mem[m.lock := 1], tr), 3,
         Config(Frame(k + 15, regs[t0 := mem[m.queue_tail] + 1][t1 := 1]), mem[m.lock := 1][mem[m.queue_tail] := tid], tr), 1,
         Config(Frame(k + 16, regs[t0 := mem[m.queue_tail] + 1][t1 := 1]), mem[m.lock := 1][mem[m.queue_tail] := tid][m.queue_tail := mem[m.queue_tail] + 1], tr), 4);
    ThenTo(Exec(p), Config(Frame(k + 12, regs[t0 := mem[m.queue_tail]][t1 := tid]), mem[m.lock := 1], tr), 4,
         Config(Frame(k + 16, regs[t0 := mem[m.queue_tail] + 1][t1 := 1]), mem[m.lock := 1][mem[m.queue_tail] := tid][m.queue_tail := mem[m.queue_tail] + 1], tr), 1,
         Config(Frame(k + 17, regs[t0 := 0][t1 := 1]), mem[m.lock := 1][mem[m.queue_tail] := tid][m.queue_tail := mem[m.queue_tail] + 1], tr), 5);
    ThenTo(Exec(p), Config(Frame(k + 12, regs[t0 := mem[m.queue_tail]][t1 := tid]), mem[m.lock := 1], tr), 5,
         Config(Frame(k + 17, regs[t0 := 0][t1 := 1]), mem[m.lock := 1][mem[m.queue_tail] := tid][m.queue_tail := mem[m.queue_tail] + 1], tr), 1,
         Config(Frame(k + 18, regs[t0 := 0][t1 := 1]), Pushed(Waiters(m), mem, m.lock, tid), tr), 6);
  }

  /** Slow path up to the `blk`: with `held` set, `tid` is pushed on the wait queue and the memory is `Pushed`, whose internal lock reads 0 (`MutexLockQueues`) when `blk` runs next. */
  lemma {:induction false} MutexLockSlowBlocks(p: seq<Instr>, k: nat, m: Mutex, tid: int, t0: Reg, t1: Reg, id: int, regs: Regs, mem: Memory, tr: seq<Signal>)
    requires t0 != t1 && Distinct(m) && Find(p, LockSlow(id)) == Some(k + 9) && Find(p, LockEnd(id)) == Some(k + 19) && mem[m.lock] == 0 && mem[m.held] != 0 && 0 <= mem[m.queue_tail] < MEM_SIZE
    requires At(p, k, MutexLock(m, tid, t0, t1, id))
    ensures Goes(Exec(p), Config(Frame(k, regs), mem, tr), 13,
                 Config(Frame(k + 18, regs[t0 := 0][t1 := 1]), Pushed(Waiters(m), mem, m.lock, tid), tr))
  {
    LockSlowPart1(p, k, m, tid, t0, t1, id, regs, mem, tr);
    LockSlowPart2(p, k, m, tid, t0, t1, id, regs, mem, tr);
    ThenTo(Exec(p), Config(Frame(k, regs), mem, tr), 7,
         Config(Frame(k + 12, regs[t0 := mem[m.queue_tail]][t1 := tid]), mem[m.lock := 1], tr), 6,
         Config(Frame(k + 18, regs[t0 := 0][t1 := 1]), Pushed(Waiters(m), mem, m.lock, tid), tr), 13);
  }

  /** Slow path from the `blk`: the thread reports Block, and once it runs again it leaves the fragment. */
  lemma {:induction false} MutexLockSlowResumes(p: seq<Instr>, k: nat, m: Mutex, tid: int, t0: Reg, t1: Reg, id: int, regs: Regs, mem: Memory, tr: seq<Signal>)
    requires t0 != t1 && Distinct(m) && Find(p, LockSlow(id)) == Some(k + 9) && Find(p, LockEnd(id)) == Some(k + 19) && mem[m.lock] == 0 && mem[m.held] != 0 && 0 <= mem[m.queue_tail] < MEM_SIZE
    requires At(p, k, MutexLock(m, tid, t0, t1, id))
    ensures Goes(Exec(p), Config(Frame(k + 18, regs[t0 := 0][t1 := 1]), Pushed(Waiters(m), mem, m.lock, tid), tr), 2,
                 Config(Frame(k + 20, regs[t0 := 0][t1 := 1]), Pushed(Waiters(m), mem, m.lock, tid), tr + [Block]))
  {
    LockAt18Slow(p, k, m, tid, t0, t1, id, regs, mem, tr);
    LockAt19Slow(p, k, m, tid, t0, t1, id, regs, mem, tr);
    ThenTo(Exec(p), Config(Frame(k + 18, regs[t0 := 0][t1 := 1]), Pushed(Waiters(m), mem, m.lock, tid), tr), 1,
         Config(Frame(k + 19, regs[t0 := 0][t1 := 1]), Pushed(Waiters(m), mem, m.lock, tid), tr + [Block]), 1,
         Config(Frame(k + 20, regs[t0 := 0][t1 := 1]), Pushed(Waiters(m), mem, m.lock, tid), tr + [Block]), 2);
  }
  lemma UnlockAt0Busy(p: seq<Instr>, k: nat, m: Mutex, t0: Reg, t1: Reg, id: int, regs: Regs, mem: Memory, tr: seq<Signal>)
    requires t0 != t1 && Distinct(m) && mem[m.lock] != 0
    requires At(p, k, MutexUnlock(m, t0, t1, id))
    ensures Goes(Exec(p), Config(Frame(k, regs), mem, tr), 1,
                 Config(Frame(k + 1, regs[t0 := mem[m.lock]]), mem, tr))
  {
    assert p[k] == MutexUnlock(m, t0, t1, id)[0];
    One(p, Config(Frame(k, regs), mem, tr),
        Config(Frame(k + 1, regs[t0 := mem[m.lock]]), mem, tr));
  }

  lemma UnlockAt1Busy(p: seq<Instr>, k: nat, m: Mutex, t0: Reg, t1: Reg, id: int, regs: Regs, mem: Memory, tr: seq<Signal>)
    requires t0 != t1 && Distinct(m) && mem[m.lock] != 0
    requires At(p, k, MutexUnlock(m, t0, t1, id))
    ensures Goes(Exec(p), Config(Frame(k + 1, regs[t0 := mem[m.lock]]), mem, tr), 1,
                 Config(Frame(k + 2, regs[t0 := mem[m.lock]]), mem, tr))
  {
    assert p[k + 1] == MutexUnlock(m, t0, t1, id)[1];
    One(p, Config(Frame(k + 1, regs[t0 := mem[m.lock]]), mem, tr),
        Config(Frame(k + 2, regs[t0 := mem[m.lock]]), mem, tr));
  }

  lemma UnlockAt2Busy(p: seq<Instr>, k: nat, m: Mutex, t0: Reg, t1: Reg, id: int, regs: Regs, mem: Memory, tr: seq<Signal>)
    requires t0 != t1 && Distinct(m) && mem[m.lock] != 0
    requires At(p, k, MutexUnlock(m, t0, t1, id))
    ensures Goes(Exec(p), Config(Frame(k + 2, regs[t0 := mem[m.lock]]), mem, tr), 1,
                 Config(Frame(k + 3, regs[t0 := mem[m.lock]]), mem, tr + [Yield]))
  {
    assert p[k + 2] == MutexUnlock(m, t0, t1, id)[2];
    One(p, Config(Frame(k + 2, regs[t0 := mem[m.lock]]), mem, tr),
        Config(Frame(k + 3, regs[t0 := mem[m.lock]]), mem, tr + [Yield]));
  }

  lemma UnlockAt3Busy(p: seq<Instr>, k: nat, m: Mutex, t0: Reg, t1: Reg, id: int, regs: Regs, mem: Memory, tr: seq<Signal>)
    requires t0 != t1 && Distinct(m) && mem[m.lock] != 0
    requires At(p, k, MutexUnlock(m, t0, t1, id))
    ensures Goes(Exec(p), Config(Frame(k + 3, regs[t0 := mem[m.lock]]), mem, tr + [Yield]), 1,
                 Config(Frame(k, regs[t0 := mem[m.lock]]), mem, tr + [Yield]))
  {
    assert p[k + 3] == MutexUnlock(m, t0, t1, id)[3];
    One(p, Config(Frame(k + 3, regs[t0 := mem[m.lock]]), mem, tr + [Yield]),
        Config(Frame(k, regs[t0 := mem[m.lock]]), mem, tr + [Yield]));
  }

  lemma UnlockAt0(p: seq<Instr>, k: nat, m: Mutex, t0: Reg, t1: Reg, id: int, regs: Regs, mem: Memory, tr: seq<Signal>)
    requires t0 != t1 && Distinct(m) && mem[m.lock] == 0
    requires At(p, k, MutexUnlock(m, t0, t1, id))
    ensures Goes(Exec(p), Config(Frame(k, regs), mem, tr), 1,
                 Config(Frame(k + 1, regs[t0 := 0]), mem[m.lock := 1], tr))
  {
    assert p[k] == MutexUnlock(m, t0, t1, id)[0];
    One(p, Config(Frame(k, regs), mem, tr),
        Config(Frame(k + 1, regs[t0 := 0]), mem[m.lock := 1], tr));
  }

  lemma UnlockAt1(p: seq<Instr>, k: nat, m: Mutex, t0: Reg, t1: Reg, id: int, regs: Regs, mem: Memory, tr: seq<Signal>)
    requires t0 != t1 && Distinct(m) && mem[m.lock] == 0
    requires At(p, k, MutexUnlock(m, t0, t1, id))
    ensures Goes(Exec(p), Config(Frame(k + 1, regs[t0 := 0]), mem[m.lock := 1], tr), 1,
                 Config(Frame(k + 4, regs[t0 := 0]), mem[m.lock := 1], tr))
  {
    assert p[k + 1] == MutexUnlock(m, t0, t1, id)[1];
    One(p, Config(Frame(k + 1, regs[t0 := 0]), mem[m.lock := 1], tr),
        Config(Frame(k + 4, regs[t0 := 0]), mem[m.lock := 1], tr));
  }

  lemma UnlockAt4(p: seq<Instr>, k: nat, m: Mutex, t0: Reg, t1: Reg, id: int, regs: Regs, mem: Memory, tr: seq<Signal>)
    requires t0 != t1 && Distinct(m) && mem[m.lock] == 0
    requires At(p, k, MutexUnlock(m, t0, t1, id))
    ensures Goes(Exec(p), Config(Frame(k + 4, regs[t0 := 0]), mem[m.lock := 1], tr), 1,
                 Config(Frame(k + 5, regs[t0 := mem[m.queue_head]]), mem[m.lock := 1], tr))
  {
    assert p[k + 4] == MutexUnlock(m, t0, t1, id)[4];
    One(p, Config(Frame(k + 4, regs[t0 := 0]), mem[m.lock := 1], tr),
        Config(Frame(k + 5, regs[t0 := mem[m.queue_head]]), mem[m.lock := 1], tr));
  }

  lemma UnlockAt5(p: seq<Instr>, k: nat, m: Mutex, t0: Reg, t1: Reg, id: int, regs: Regs, mem: Memory, tr: seq<Signal>)
    requires t0 != t1 && Distinct(m) && mem[m.lock] == 0
    requires At(p, k, MutexUnlock(m, t0, t1, id))
    ensures Goes(Exec(p), Config(Frame(k + 5, regs[t0 := mem[m.queue_head]]), mem[m.lock := 1], tr), 1,
                 Config(Frame(k + 6, regs[t0 := mem[m.queue_head]][t1 := mem[m.queue_tail]]), mem[m.lock := 1], tr))
  {
    assert p[k + 5] == MutexUnlock(m, t0, t1, id)[5];
    One(p, Config(Frame(k + 5, regs[t0 := mem[m.queue_head]]), mem[m.lock := 1], tr),
        Config(Frame(k + 6, regs[t0 := mem[m.queue_head]][t1 := mem[m.queue_tail]]), mem[m.lock := 1], tr));
  }

  lemma UnlockAt6(p: seq<Instr>, k: nat, m: Mutex, t0: Reg, t1: Reg, id: int, regs: Regs, mem: Memory, tr: seq<Signal>)
    requires t0 != t1 && Distinct(m) && mem[m.lock] == 0
    requires At(p, k, MutexUnlock(m, t0, t1, id))
    ensures Goes(Exec(p), Config(Frame(k + 6, regs[t0 := mem[m.queue_head]][t1 := mem[m.queue_tail]]), mem[m.lock := 1], tr), 1,
                 Config(Frame(k + 7, regs[t0 := mem[m.queue_head]][t1 := mem[m.queue_tail] - mem[m.queue_head]]), mem[m.lock := 1], tr))
  {
    assert p[k + 6] == MutexUnlock(m, t0, t1, id)[6];
    One(p, Config(Frame(k + 6, regs[t0 := mem[m.queue_head]][t1 := mem[m.queue_tail]]), mem[m.lock := 1], tr),
        Config(Frame(k + 7, regs[t0 := mem[m.queue_head]][t1 := mem[m.queue_tail] - mem[m.queue_head]]), mem[m.lock := 1], tr));
  }

  lemma UnlockAt7Wake(p: seq<Instr>, k: nat, m: Mutex, t0: Reg, t1: Reg, id: int, regs: Regs, mem: Memory, tr: seq<Signal>)
    requires t0 != t1 && Distinct(m) && mem[m.lock] == 0 && mem[m.queue_tail] != mem[m.queue_head]
    requires At(p, k, MutexUnlock(m, t0, t1, id))
    ensures Goes(Exec(p), Config(Frame(k + 7, regs[t0 := mem[m.queue_head]][t1 := mem[m.queue_tail] - mem[m.queue_head]]), mem[m.lock := 1], tr), 1,
                 Config(Frame(k + 8, regs[t0 := mem[m.queue_head]][t1 := mem[m.queue_tail] - mem[m.queue_head]]), mem[m.lock := 1], tr))
  {
    assert p[k + 7] == MutexUnlock(m, t0, t1, id)[7];
    One(p, Config(Frame(k + 7, regs[t0 := mem[m.queue_head]][t1 := mem[m.queue_tail] - mem[m.queue_head]]), mem[m.lock := 1], tr),
        Config(Frame(k + 8, regs[t0 := mem[m.queue_head]][t1 := mem[m.queue_tail] - mem[m.queue_head]]), mem[m.lock := 1], tr));
  }

  lemma UnlockAt8Wake(p: seq<Instr>, k: nat, m: Mutex, t0: Reg, t1: Reg, id: int, regs: Regs, mem: Memory, tr: seq<Signal>)
    requires t0 != t1 && Distinct(m) && mem[m.lock] == 0 && mem[m.queue_tail] != mem[m.queue_head]
    requires At(p, k, MutexUnlock(m, t0, t1, id))
    ensures Goes(Exec(p), Config(Frame(k + 8, regs[t0 := mem[m.queue_head]][t1 := mem[m.queue_tail] - mem[m.queue_head]]), mem[m.lock := 1], tr), 1,
                 Config(Frame(k + 9, regs[t0 := mem[m.queue_head]][t1 := mem[m.queue_tail] - mem[m.queue_head]]), mem[m.lock := 1], tr))
  {
    assert p[k + 8] == MutexUnlock(m, t0, t1, id)[8];
    One(p, Config(Frame(k + 8, regs[t0 := mem[m.queue_head]][t1 := mem[m.queue_tail] - mem[m.queue_head]]), mem[m.lock := 1], tr),
        Config(Frame(k + 9, regs[t0 := mem[m.queue_head]][t1 := mem[m.queue_tail] - mem[m.queue_head]]), mem[m.lock := 1], tr));
  }

  lemma UnlockAt9Wake(p: seq<Instr>, k: nat, m: Mutex, t0: Reg, t1: Reg, id: int, regs: Regs, mem: Memory, tr: seq<Signal>)
    requires t0 != t1 && Distinct(m) && mem[m.lock] == 0 && mem[m.queue_tail] != mem[m.queue_head] && 0 <= mem[m.queue_head] < MEM_SIZE && mem[m.queue_head] != m.lock
    requires At(p, k, MutexUnlock(m, t0, t1, id))
    ensures Goes(Exec(p), Config(Frame(k + 9, regs[t0 := mem[m.queue_head]][t1 := mem[m.queue_tail] - mem[m.queue_head]]), mem[m.lock := 1], tr), 1,
                 Config(Frame(k + 10, regs[t0 := mem[m.queue_head]][t1 := mem[mem[m.queue_head]]]), mem[m.lock := 1], tr))
  {
    assert p[k + 9] == MutexUnlock(m, t0, t1, id)[9];
    One(p, Config(Frame(k + 9, regs[t0 := mem[m.queue_head]][t1 := mem[m.queue_tail] - mem[m.queue_head]]), mem[m.lock := 1], tr),
        Config(Frame(k + 10, regs[t0 := mem[m.queue_head]][t1 := mem[mem[m.queue_head]]]), mem[m.lock := 1], tr));
  }

  lemma UnlockAt10Wake(p: seq<Instr>, k: nat, m: Mutex, t0: Reg, t1: Reg, id: int, regs: Regs, mem: Memory, tr: seq<Signal>)
    requires t0 != t1 && Distinct(m) && mem[m.lock] == 0 && mem[m.queue_tail] != mem[m.queue_head] && 0 <= mem[m.queue_head] < MEM_SIZE && mem[m.queue_head] != m.lock
    requires At(p, k, MutexUnlock(m, t0, t1, id))
    ensures Goes(Exec(p), Config(Frame(k + 10, regs[t0 := mem[m.queue_head]][t1 := mem[mem[m.queue_head]]]), mem[m.lock := 1], tr), 1,
                 Config(Frame(k + 11, regs[t0 := mem[m.queue_head] + 1][t1 := mem[mem[m.queue_head]]]), mem[m.lock := 1], tr))
  {
    assert p[k + 10] == MutexUnlock(m, t0, t1, id)[10];
    One(p, Config(Frame(k + 10, regs[t0 := mem[m.queue_head]][t1 := mem[mem[m.queue_head]]]), mem[m.lock := 1], tr),
        Config(Frame(k + 11, regs[t0 := mem[m.queue_head] + 1][t1 := mem[mem[m.queue_head]]]), mem[m.lock := 1], tr));
  }

  lemma UnlockAt11Wake(p: seq<Instr>, k: nat, m: Mutex, t0: Reg, t1: Reg, id: int, regs: Regs, mem: Memory, tr: seq<Signal>)
    requires t0 != t1 && Distinct(m) && mem[m.lock] == 0 && mem[m.queue_tail] != mem[m.queue_head] && 0 <= mem[m.queue_head] < MEM_SIZE && mem[m.queue_head] != m.lock
    requires At(p, k, MutexUnlock(m, t0, t1, id))
    ensures Goes(Exec(p), Config(Frame(k + 11, regs[t0 := mem[m.queue_head] + 1][t1 := mem[mem[m.queue_head]]]), mem[m.lock := 1], tr), 1,
                 Config(Frame(k + 12, regs[t0 := mem[m.queue_head] + 1][t1 := mem[mem[m.queue_head]]]), mem[m.lock := 1][m.queue_head := mem[m.queue_head] + 1], tr))
  {
    assert p[k + 11] == MutexUnlock(m, t0, t1, id)[11];
    One(p, Config(Frame(k + 11, regs[t0 := mem[m.queue_head] + 1][t1 := mem[mem[m.queue_head]]]), mem[m.lock := 1], tr),
        Config(Frame(k + 12, regs[t0 := mem[m.queue_head] + 1][t1 := mem[mem[m.queue_head]]]), mem[m.lock := 1][m.queue_head := mem[m.queue_head] + 1], tr));
  }

  lemma UnlockAt12Wake(p: seq<Instr>, k: nat, m: Mutex, t0: Reg, t1: Reg, id: int, regs: Regs, mem: Memory, tr: seq<Signal>)
    requires t0 != t1 && Distinct(m) && mem[m.lock] == 0 && mem[m.queue_tail] != mem[m.queue_head] && 0 <= mem[m.queue_head] < MEM_SIZE && mem[m.queue_head] != m.lock
    requires At(p, k, MutexUnlock(m, t0, t1, id))
    ensures Goes(Exec(p), Config(Frame(k + 12, regs[t0 := mem[m.queue_head] + 1][t1 := mem[mem[m.queue_head]]]), mem[m.lock := 1][m.queue_head := mem[m.queue_head] + 1], tr), 1,
                 Config(Frame(k + 13, regs[t0 := 0][t1 := mem[mem[m.queue_head]]]), mem[m.lock := 1][m.queue_head := mem[m.queue_head] + 1], tr))
  {
    assert p[k + 12] == MutexUnlock(m, t0, t1, id)[12];
    One(p, Config(Frame(k + 12, regs[t0 := mem[m.queue_head] + 1][t1 := mem[mem[m.queue_head]]]), mem[m.lock := 1][m.queue_head := mem[m.queue_head] + 1], tr),
        Config(Frame(k + 13, regs[t0 := 0][t1 := mem[mem[m.queue_head]]]), mem[m.lock := 1][m.queue_head := mem[m.queue_head] + 1], tr));
  }

  lemma UnlockAt13Wake(p: seq<Instr>, k: nat, m: Mutex, t0: Reg, t1: Reg, id: int, regs: Regs, mem: Memory, tr: seq<Signal>)
    requires t0 != t1 && Distinct(m) && mem[m.lock] == 0 && mem[m.queue_tail] != mem[m.queue_head] && 0 <= mem[m.queue_head] < MEM_SIZE && mem[m.queue_head] != m.lock
    requires At(p, k, MutexUnlock(m, t0, t1, id))
    ensures Goes(Exec(p), Config(Frame(k + 13, regs[t0 := 0][t1 := mem[mem[m.queue_head]]]), mem[m.lock := 1][m.queue_head := mem[m.queue_head] + 1], tr), 1,
                 Config(Frame(k + 14, regs[t0 := 0][t1 := mem[mem[m.queue_head]]]), Popped(Waiters(m), mem), tr))
  {
    assert p[k + 13] == MutexUnlock(m, t0, t1, id)[13];
    One(p, Config(Frame(k + 13, regs[t0 := 0][t1 := mem[mem[m.queue_head]]]), mem[m.lock := 1][m.queue_head := mem[m.queue_head] + 1], tr),
        Config(Frame(k + 14, regs[t0 := 0][t1 := mem[mem[m.queue_head]]]), Popped(Waiters(m), mem), tr));
  }

  lemma UnlockAt14Wake(p: seq<Instr>, k: nat, m: Mutex, t0: Reg, t1: Reg, id: int, regs: Regs, mem: Memory, tr: seq<Signal>)
    requires t0 != t1 && Distinct(m) && mem[m.lock] == 0 && mem[m.queue_tail] != mem[m.queue_head] && 0 <= mem[m.queue_head] < MEM_SIZE && mem[m.queue_head] != m.lock
    requires At(p, k, MutexUnlock(m, t0, t1, id))
    ensures Goes(Exec(p), Config(Frame(k + 14, regs[t0 := 0][t1 := mem[mem[m.queue_head]]]), Popped(Waiters(m), mem), tr), 1,
                 Config(Frame(k + 15, regs[t0 := 0][t1 := mem[mem[m.queue_head]]]), Popped(Waiters(m), mem), tr + [Wake(mem[mem[m.queue_head]])]))
  {
    assert p[k + 14] == MutexUnlock(m, t0, t1, id)[14];
    One(p, Config(Frame(k + 14, regs[t0 := 0][t1 := mem[mem[m.queue_head]]]), Popped(Waiters(m), mem), tr),
        Config(Frame(k + 15, regs[t0 := 0][t1 := mem[mem[m.queue_head]]]), Popped(Waiters(m), mem), tr + [Wake(mem[mem[m.queue_head]])]));
  }

  lemma {:induction false} UnlockAt15Wake(p: seq<Instr>, k: nat, m: Mutex, t0: Reg, t1: Reg, id: int, regs: Regs, mem: Memory, tr: seq<Signal>)
    requires t0 != t1 && Distinct(m) && Find(p, UnlockEmpty(id)) == Some(k + 16) && Find(p, UnlockEnd(id)) == Some(k + 21) && mem[m.lock] == 0 && mem[m.queue_tail] != mem[m.queue_head] && 0 <= mem[m.queue_head] < MEM_SIZE && mem[m.queue_head] != m.lock
    requires At(p, k, MutexUnlock(m, t0, t1, id))
    ensures Goes(Exec(p), Config(Frame(k + 15, regs[t0 := 0][t1 := mem[mem[m.queue_head]]]), Popped(Waiters(m), mem), tr + [Wake(mem[mem[m.queue_head]])]), 1,
                 Config(Frame(k + 21, regs[t0 := 0][t1 := mem[mem[m.queue_head]]]), Popped(Waiters(m), mem), tr + [Wake(mem[mem[m.queue_head]])]))
  {
    assert p[k + 15] == MutexUnlock(m, t0, t1, id)[15];
    One(p, Config(Frame(k + 15, regs[t0 := 0][t1 := mem[mem[m.queue_head]]]), Popped(Waiters(m), mem), tr + [Wake(mem[mem[m.queue_head]])]),
        Config(Frame(k + 21, regs[t0 := 0][t1 := mem[mem[m.queue_head]]]), Popped(Waiters(m), mem), tr + [Wake(mem[mem[m.queue_head]])]));
  }

  lemma UnlockAt21Wake(p: seq<Instr>, k: nat, m: Mutex, t0: Reg, t1: Reg, id: int, regs: Regs, mem: Memory, tr: seq<Signal>)
    requires t0 != t1 && Distinct(m) && mem[m.lock] == 0 && mem[m.queue_tail] != mem[m.queue_head] && 0 <= mem[m.queue_head] < MEM_SIZE && mem[m.queue_head] != m.lock
    requires At(p, k, MutexUnlock(m, t0, t1, id))
    ensures Goes(Exec(p), Config(Frame(k + 21, regs[t0 := 0][t1 := mem[mem[m.queue_head]]]), Popped(Waiters(m), mem), tr + [Wake(mem[mem[m.queue_head]])]), 1,
                 Config(Frame(k + 22, regs[t0 := 0][t1 := mem[mem[m.queue_head]]]), Popped(Waiters(m), mem), tr + [Wake(mem[mem[m.queue_head]])]))
  {
    assert p[k + 21] == MutexUnlock(m, t0, t1, id)[21];
    One(p, Config(Frame(k + 21, regs[t0 := 0][t1 := mem[mem[m.queue_head]]]), Popped(Waiters(m), mem), tr + [Wake(mem[mem[m.queue_head]])]),
        Config(Frame(k + 22, regs[t0 := 0][t1 := mem[mem[m.queue_head]]]), Popped(Waiters(m), mem), tr + [Wake(mem[mem[m.queue_head]])]));
  }

  lemma {:induction false} UnlockAt7Empty(p: seq<Instr>, k: nat, m: Mutex, t0: Reg, t1: Reg, id: int, regs: Regs, mem: Memory, tr: seq<Signal>)
    requires t0 != t1 && Distinct(m) && Find(p, UnlockEmpty(id)) == Some(k + 16) && Find(p, UnlockEnd(id)) == Some(k + 21) && mem[m.lock] == 0 && mem[m.queue_tail] == mem[m.queue_head]
    requires At(p, k, MutexUnlock(m, t0, t1, id))
    ensures Goes(Exec(p), Config(Frame(k + 7, regs[t0 := mem[m.queue_head]][t1 := mem[m.queue_tail] - mem[m.queue_head]]), mem[m.lock := 1], tr), 1,
                 Config(Frame(k + 16, regs[t0 := mem[m.queue_head]][t1 := 0]), mem[m.lock := 1], tr))
  {
    assert p[k + 7] == MutexUnlock(m, t0, t1, id)[7];
    One(p, Config(Frame(k + 7, regs[t0 := mem[m.queue_head]][t1 := mem[m.queue_tail] - mem[m.queue_head]]), mem[m.lock := 1], tr),
        Config(Frame(k + 16, regs[t0 := mem[m.queue_head]][t1 := 0]), mem[m.lock := 1], tr));
  }

  lemma UnlockAt16Empty(p: seq<Instr>, k: nat, m: Mutex, t0: Reg, t1: Reg, id: int, regs: Regs, mem: Memory, tr: seq<Signal>)
    requires t0 != t1 && Distinct(m) && mem[m.lock] == 0 && mem[m.queue_tail] == mem[m.queue_head]
    requires At(p, k, MutexUnlock(m, t0, t1, id))
    ensures Goes(Exec(p), Config(Frame(k + 16, regs[t0 := mem[m.queue_head]][t1 := 0]), mem[m.lock := 1], tr), 1,
                 Config(Frame(k + 17, regs[t0 := mem[m.queue_head]][t1 := 0]), mem[m.lock := 1], tr))
  {
    assert p[k + 16] == MutexUnlock(m, t0, t1, id)[16];
    One(p, Config(Frame(k + 16, regs[t0 := mem[m.queue_head]][t1 := 0]), mem[m.lock := 1], tr),
        Config(Frame(k + 17, regs[t0 := mem[m.queue_head]][t1 := 0]), mem[m.lock := 1], tr));
  }

  lemma UnlockAt17Empty(p: seq<Instr>, k: nat, m: Mutex, t0: Reg, t1: Reg, id: int, regs: Regs, mem: Memory, tr: seq<Signal>)
    requires t0 != t1 && Distinct(m) && mem[m.lock] == 0 && mem[m.queue_tail] == mem[m.queue_head]
    requires At(p, k, MutexUnlock(m, t0, t1, id))
    ensures Goes(Exec(p), Config(Frame(k + 17, regs[t0 := mem[m.queue_head]][t1 := 0]), mem[m.lock := 1], tr), 1,
                 Config(Frame(k + 18, regs[t0 := 0][t1 := 0]), mem[m.lock := 1], tr))
  {
    assert p[k + 17] == MutexUnlock(m, t0, t1, id)[17];
    One(p, Config(Frame(k + 17, regs[t0 := mem[m.queue_head]][t1 := 0]), mem[m.lock := 1], tr),
        Config(Frame(k + 18, regs[t0 := 0][t1 := 0]), mem[m.lock := 1], tr));
  }

  lemma UnlockAt18Empty(p: seq<Instr>, k: nat, m: Mutex, t0: Reg, t1: Reg, id: int, regs: Regs, mem: Memory, tr: seq<Signal>)
    requires t0 != t1 && Distinct(m) && mem[m.lock] == 0 && mem[m.queue_tail] == mem[m.queue_head]
    requires At(p, k, MutexUnlock(m, t0, t1, id))
    ensures Goes(Exec(p), Config(Frame(k + 18, regs[t0 := 0][t1 := 0]), mem[m.lock := 1], tr), 1,
                 Config(Frame(k + 19, regs[t0 := 0][t1 := 0]), mem[m.lock := 1][m.held := 0], tr))
  {
    assert p[k + 18] == MutexUnlock(m, t0, t1, id)[18];
    One(p, Config(Frame(k + 18, regs[t0 := 0][t1 := 0]), mem[m.lock := 1], tr),
        Config(Frame(k + 19, regs[t0 := 0][t1 := 0]), mem[m.lock := 1][m.held := 0], tr));
  }

  lemma UnlockAt19Empty(p: seq<Instr>, k: nat, m: Mutex, t0: Reg, t1: Reg, id: int, regs: Regs, mem: Memory, tr: seq<Signal>)
    requires t0 != t1 && Distinct(m) && mem[m.lock] == 0 && mem[m.queue_tail] == mem[m.queue_head]
    requires At(p, k, MutexUnlock(m, t0, t1, id))
    ensures Goes(Exec(p), Config(Frame(k + 19, regs[t0 := 0][t1 := 0]), mem[m.lock := 1][m.held := 0], tr), 1,
                 Config(Frame(k + 20, regs[t0 := 0][t1 := 0]), mem[m.lock := 1][m.held := 0], tr))
  {
    assert p[k + 19] == MutexUnlock(m, t0, t1, id)[19];
    One(p, Config(Frame(k + 19, regs[t0 := 0][t1 := 0]), mem[m.lock := 1][m.held := 0], tr),
        Config(Frame(k + 20, regs[t0 := 0][t1 := 0]), mem[m.lock := 1][m.held := 0], tr));
  }

  lemma UnlockAt20Empty(p: seq<Instr>, k: nat, m: Mutex, t0: Reg, t1: Reg, id: int, regs: Regs, mem: Memory, tr: seq<Signal>)
    requires t0 != t1 && Distinct(m) && mem[m.lock] == 0 && mem[m.queue_tail] == mem[m.queue_head]
    requires At(p, k, MutexUnlock(m, t0, t1, id))
    ensures Goes(Exec(p), Config(Frame(k + 20, regs[t0 := 0][t1 := 0]), mem[m.lock := 1][m.held := 0], tr), 1,
                 Config(Frame(k + 21, regs[t0 := 0][t1 := 0]), mem[m.held := 0], tr))
  {
    assert p[k + 20] == MutexUnlock(m, t0, t1, id)[20];
    One(p, Config(Frame(k + 20, regs[t0 := 0][t1 := 0]), mem[m.lock := 1][m.held := 0], tr),
        Config(Frame(k + 21, regs[t0 := 0][t1 := 0]), mem[m.held := 0], tr));
  }

  lemma UnlockAt21Empty(p: seq<Instr>, k: nat, m: Mutex, t0: Reg, t1: Reg, id: int, regs: Regs, mem: Memory, tr: seq<Signal>)
    requires t0 != t1 && Distinct(m) && mem[m.lock] == 0 && mem[m.queue_tail] == mem[m.queue_head]
    requires At(p, k, MutexUnlock(m, t0, t1, id))
    ensures Goes(Exec(p), Config(Frame(k + 21, regs[t0 := 0][t1 := 0]), mem[m.held := 0], tr), 1,
                 Config(Frame(k + 22, regs[t0 := 0][t1 := 0]), mem[m.held := 0], tr))
  {
    assert p[k + 21] == MutexUnlock(m, t0, t1, id)[21];
    One(p, Config(Frame(k + 21, regs[t0 := 0][t1 := 0]), mem[m.held := 0], tr),
        Config(Frame(k + 22, regs[t0 := 0][t1 := 0]), mem[m.held := 0], tr));
  }

  /** While the internal lock is taken the unlocking thread yields and comes back to the `cas`. */
  lemma {:induction false} MutexUnlockSpins(p: seq<Instr>, k: nat, m: Mutex, t0: Reg, t1: Reg, id: int, regs: Regs, mem: Memory, tr: seq<Signal>)
    requires t0 != t1 && Distinct(m) && Find(p, UnlockEmpty(id)) == Some(k + 16) && Find(p, UnlockEnd(id)) == Some(k + 21) && mem[m.lock] != 0
    requires At(p, k, MutexUnlock(m, t0, t1, id))
    ensures Goes(Exec(p), Config(Frame(k, regs), mem, tr), 4,
                 Config(Frame(k, regs[t0 := mem[m.lock]]), mem, tr + [Yield]))
  {
    UnlockAt0Busy(p, k, m, t0, t1, id, regs, mem, tr);
    UnlockAt1Busy(p, k, m, t0, t1, id, regs, mem, tr);
    UnlockAt2Busy(p, k, m, t0, t1, id, regs, mem, tr);
    UnlockAt3Busy(p, k, m, t0, t1, id, regs, mem, tr);
    ThenTo(Exec(p), Config(Frame(k, regs), mem, tr), 1,
         Config(Frame(k + 1, regs[t0 := mem[m.lock]]), mem, tr), 1,
         Config(Frame(k + 2, regs[t0 := mem[m.lock]]), mem, tr), 2);
    ThenTo(Exec(p), Config(Frame(k, regs), mem, tr), 2,
         Config(Frame(k + 2, regs[t0 := mem[m.lock]]), mem, tr), 1,
         Config(Frame(k + 3, regs[t0 := mem[m.lock]]), mem, tr + [Yield]), 3);
    ThenTo(Exec(p), Config(Frame(k, regs), mem, tr), 3,
         Config(Frame(k + 3, regs[t0 := mem[m.lock]]), mem, tr + [Yield]), 1,
         Config(Frame(k, regs[t0 := mem[m.lock]]), mem, tr + [Yield]), 4);
  }

  lemma {:induction false} UnlockWakePart1(p: seq<Instr>, k: nat, m: Mutex, t0: Reg, t1: Reg, id: int, regs: Regs, mem: Memory, tr: seq<Signal>)
    requires t0 != t1 && Distinct(m) && Find(p, UnlockEmpty(id)) == Some(k + 16) && Find(p, UnlockEnd(id)) == Some(k + 21) && mem[m.lock] == 0 && mem[m.queue_tail] != mem[m.queue_head] && 0 <= mem[m.queue_head] < MEM_SIZE && mem[m.queue_head] != m.lock
    requires At(p, k, MutexUnlock(m, t0, t1, id))
    ensures Goes(Exec(p), Config(Frame(k, regs), mem, tr), 7,
                 Config(Frame(k + 9, regs[t0 := mem[m.queue_head]][t1 := mem[m.queue_tail] - mem[m.queue_head]]), mem[m.lock := 1], tr))
  {
    UnlockAt0(p, k, m, t0, t1, id, regs, mem, tr);
    UnlockAt1(p, k, m, t0, t1, id, regs, mem, tr);
    UnlockAt4(p, k, m, t0, t1, id, regs, mem, tr);
    UnlockAt5(p, k, m, t0, t1, id, regs, mem, tr);
    UnlockAt6(p, k, m, t0, t1, id, regs, mem, tr);
    UnlockAt7Wake(p, k, m, t0, t1, id, regs, mem, tr);
    UnlockAt8Wake(p, k, m, t0, t1, id, regs, mem, tr);
    ThenTo(Exec(p), Config(Frame(k, regs), mem, tr), 1,
         Config(Frame(k + 1, regs[t0 := 0]), mem[m.lock := 1], tr), 1,
         Config(Frame(k + 4, regs[t0 := 0]), mem[m.lock := 1], tr), 2);
    ThenTo(Exec(p), Config(Frame(k, regs), mem, tr), 2,
         Config(Frame(k + 4, regs[t0 := 0]), mem[m.lock := 1], tr), 1,
         Config(Frame(k + 5, regs[t0 := mem[m.queue_head]]), mem[m.lock := 1], tr), 3);
    ThenTo(Exec(p), Config(Frame(k, regs), mem, tr), 3,
         Config(Frame(k + 5, regs[t0 := mem[m.queue_head]]), mem[m.lock := 1], tr), 1,
         Config(Frame(k + 6, regs[t0 := mem[m.queue_head]][t1 := mem[m.queue_tail]]), mem[m.lock := 1], tr), 4);
    ThenTo(Exec(p), Config(Frame(k, regs), mem, tr), 4,
         Config(Frame(k + 6, regs[t0 := mem[m.queue_head]][t1 := mem[m.queue_tail]]), mem[m.lock := 1], tr), 1,
         Config(Frame(k + 7, regs[t0 := mem[m.queue_head]][t1 := mem[m.queue_tail] - mem[m.queue_head]]), mem[m.lock := 1], tr), 5);
    ThenTo(Exec(p), Config(Frame(k, regs), mem, tr), 5,
         Config(Frame(k + 7, regs[t0 := mem[m.queue_head]][t1 := mem[m.queue_tail] - mem[m.queue_head]]), mem[m.lock := 1], tr), 1,
         Config(Frame(k + 8, regs[t0 := mem[m.queue_head]][t1 := mem[m.queue_tail] - mem[m.queue_head]]), mem[m.lock := 1], tr), 6);
    ThenTo(Exec(p), Config(Frame(k, regs), mem, tr), 6,
         Config(Frame(k + 8, regs[t0 := mem[m.queue_head]][t1 := mem[m.queue_tail] - mem[m.queue_head]]), mem[m.lock := 1], tr), 1,
         Config(Frame(k + 9, regs[t0 := mem[m.queue_head]][t1 := mem[m.queue_tail] - mem[m.queue_head]]), mem[m.lock := 1], tr), 7);
  }

  lemma {:induction false} UnlockWakePart2(p: seq<Instr>, k: nat, m: Mutex, t0: Reg, t1: Reg, id: int, regs: Regs, mem: Memory, tr: seq<Signal>)
    requires t0 != t1 && Distinct(m) && Find(p, UnlockEmpty(id)) == Some(k + 16) && Find(p, UnlockEnd(id)) == Some(k + 21) && mem[m.lock] == 0 && mem[m.queue_tail] != mem[m.queue_head] && 0 <= mem[m.queue_head] < MEM_SIZE && mem[m.queue_head] != m.lock
    requires At(p, k, MutexUnlock(m, t0, t1, id))
    ensures Goes(Exec(p), Config(Frame(k + 9, regs[t0 := mem[m.queue_head]][t1 := mem[m.queue_tail] - mem[m.queue_head]]), mem[m.lock := 1], tr), 5,
                 Config(Frame(k + 14, regs[t0 := 0][t1 := mem[mem[m.queue_head]]]), Popped(Waiters(m), mem), tr))
  {
    UnlockAt9Wake(p, k, m, t0, t1, id, regs, mem, tr);
    UnlockAt10Wake(p, k, m, t0, t1, id, regs, mem, tr);
    UnlockAt11Wake(p, k, m, t0, t1, id, regs, mem, tr);
    UnlockAt12Wake(p, k, m, t0, t1, id, regs, mem, tr);
    UnlockAt13Wake(p, k, m, t0, t1, id, regs, mem, tr);
    ThenTo(Exec(p), Config(Frame(k + 9, regs[t0 := mem[m.queue_head]][t1 := mem[m.queue_tail] - mem[m.queue_head]]), mem[m.lock := 1], tr), 1,
         Config(Frame(k + 10, regs[t0 := mem[m.queue_head]][t1 := mem[mem[m.queue_head]]]), mem[m.lock := 1], tr), 1,
         Config(Frame(k + 11, regs[t0 := mem[m.queue_head] + 1][t1 := mem[mem[m.queue_head]]]), mem[m.lock := 1], tr), 2);
    ThenTo(Exec(p), Config(Frame(k + 9, regs[t0 := mem[m.queue_head]][t1 := mem[m.queue_tail] - mem[m.queue_head]]), mem[m.lock := 1], tr), 2,
         Config(Frame(k + 11, regs[t0 := mem[m.queue_head] + 1][t1 := mem[mem[m.queue_head]]]), mem[m.lock := 1], tr), 1,
         Config(Frame(k + 12, regs[t0 := mem[m.queue_head] + 1][t1 := mem[mem[m.queue_head]]]), mem[m.lock := 1][m.queue_head := mem[m.queue_head] + 1], tr), 3);
    ThenTo(Exec(p), Config(Frame(k + 9, regs[t0 := mem[m.queue_head]][t1 := mem[m.queue_tail] - mem[m.queue_head]]), mem[m.lock := 1], tr), 3,
         Config(Frame(k + 12, regs[t0 := mem[m.queue_head] + 1][t1 := mem[mem[m.queue_head]]]), mem[m.lock := 1][m.queue_head := mem[m.queue_head] + 1], tr), 1,
         Config(Frame(k + 13, regs[t0 := 0][t1 := mem[mem[m.queue_head]]]), mem[m.lock := 1][m.queue_head := mem[m.queue_head] + 1], tr), 4);
    ThenTo(Exec(p), Config(Frame(k + 9, regs[t0 := mem[m.queue_head]][t1 := mem[m.queue_tail] - mem[m.queue_head]]), mem[m.lock := 1], tr), 4,
         Config(Frame(k + 13, regs[t0 := 0][t1 := mem[mem[m.queue_head]]]), mem[m.lock := 1][m.queue_head := mem[m.queue_head] + 1], tr), 1,
         Config(Frame(k + 14, regs[t0 := 0][t1 := mem[mem[m.queue_head]]]), Popped(Waiters(m), mem), tr), 5);
  }

  /** Handover up to the `pst`: with waiters, the head id is loaded into `t1` and the head bumped; the memory is the queue popped, so the internal lock is 0 and `held` unchanged (`MutexUnlockDequeues`) when `pst t1` runs next. */
  lemma {:induction false} MutexUnlockHandsOver(p: seq<Instr>, k: nat, m: Mutex, t0: Reg, t1: Reg, id: int, regs: Regs, mem: Memory, tr: seq<Signal>)
    requires t0 != t1 && Distinct(m) && Find(p, UnlockEmpty(id)) == Some(k + 16) && Find(p, UnlockEnd(id)) == Some(k + 21) && mem[m.lock] == 0 && mem[m.queue_tail] != mem[m.queue_head] && 0 <= mem[m.queue_head] < MEM_SIZE && mem[m.queue_head] != m.lock
    requires At(p, k, MutexUnlock(m, t0, t1, id))
    ensures Goes(Exec(p), Config(Frame(k, regs), mem, tr), 12,
                 Config(Frame(k + 14, regs[t0 := 0][t1 := mem[mem[m.queue_head]]]), Popped(Waiters(m), mem), tr))
  {
    UnlockWakePart1(p, k, m, t0, t1, id, regs, mem, tr);
    UnlockWakePart2(p, k, m, t0, t1, id, regs, mem, tr);
    ThenTo(Exec(p), Config(Frame(k, regs), mem, tr), 7,
         Config(Frame(k + 9, regs[t0 := mem[m.queue_head]][t1 := mem[m.queue_tail] - mem[m.queue_head]]), mem[m.lock := 1], tr), 5,
         Config(Frame(k + 14, regs[t0 := 0][t1 := mem[mem[m.queue_head]]]), Popped(Waiters(m), mem), tr), 12);
  }

  /** Handover from the `pst`: it reports a wake-up of the id taken from the queue, and the fragment ends. */
  lemma {:induction false} MutexUnlockWakes(p: seq<Instr>, k: nat, m: Mutex, t0: Reg, t1: Reg, id: int, regs: Regs, mem: Memory, tr: seq<Signal>)
    requires t0 != t1 && Distinct(m) && Find(p, UnlockEmpty(id)) == Some(k + 16) && Find(p, UnlockEnd(id)) == Some(k + 21) && mem[m.lock] == 0 && mem[m.queue_tail] != mem[m.queue_head] && 0 <= mem[m.queue_head] < MEM_SIZE && mem[m.queue_head] != m.lock
    requires At(p, k, MutexUnlock(m, t0, t1, id))
    ensures Goes(Exec(p), Config(Frame(k + 14, regs[t0 := 0][t1 := mem[mem[m.queue_head]]]), Popped(Waiters(m), mem), tr), 3,
                 Config(Frame(k + 22, regs[t0 := 0][t1 := mem[mem[m.queue_head]]]), Popped(Waiters(m), mem), tr + [Wake(mem[mem[m.queue_head]])]))
  {
    UnlockAt14Wake(p, k, m, t0, t1, id, regs, mem, tr);
    UnlockAt15Wake(p, k, m, t0, t1, id, regs, mem, tr);
    UnlockAt21Wake(p, k, m, t0, t1, id, regs, mem, tr);
    ThenTo(Exec(p), Config(Frame(k + 14, regs[t0 := 0][t1 := mem[mem[m.queue_head]]]), Popped(Waiters(m), mem), tr), 1,
         Config(Frame(k + 15, regs[t0 := 0][t1 := mem[mem[m.queue_head]]]), Popped(Waiters(m), mem), tr + [Wake(mem[mem[m.queue_head]])]), 1,
         Config(Frame(k + 21, regs[t0 := 0][t1 := mem[mem[m.queue_head]]]), Popped(Waiters(m), mem), tr + [Wake(mem[mem[m.queue_head]])]), 2);
    ThenTo(Exec(p), Config(Frame(k + 14, regs[t0 := 0][t1 := mem[mem[m.queue_head]]]), Popped(Waiters(m), mem), tr), 2,
         Config(Frame(k + 21, regs[t0 := 0][t1 := mem[mem[m.queue_head]]]), Popped(Waiters(m), mem), tr + [Wake(mem[mem[m.queue_head]])]), 1,
         Config(Frame(k + 22, regs[t0 := 0][t1 := mem[mem[m.queue_head]]]), Popped(Waiters(m), mem), tr + [Wake(mem[mem[m.queue_head]])]), 3);
  }

  /** Hand-over and wake together: fifteen steps from the top of the fragment to one past its end. */
  lemma {:induction false} MutexUnlockHandsOverAndWakes(p: seq<Instr>, k: nat, m: Mutex, t0: Reg, t1: Reg, id: int, regs: Regs, mem: Memory, tr: seq<Signal>)
    requires t0 != t1 && Distinct(m) && Find(p, UnlockEmpty(id)) == Some(k + 16) && Find(p, UnlockEnd(id)) == Some(k + 21) && mem[m.lock] == 0 && mem[m.queue_tail] != mem[m.queue_head] && 0 <= mem[m.queue_head] < MEM_SIZE && mem[m.queue_head] != m.lock
    requires At(p, k, MutexUnlock(m, t0, t1, id))
    ensures Goes(Exec(p), Config(Frame(k, regs), mem, tr), 15,
                 Config(Frame(k + 22, regs[t0 := 0][t1 := mem[mem[m.queue_head]]]), Popped(Waiters(m), mem), tr + [Wake(mem[mem[m.queue_head]])]))
  {
    MutexUnlockHandsOver(p, k, m, t0, t1, id, regs, mem, tr);
    MutexUnlockWakes(p, k, m, t0, t1, id, regs, mem, tr);
    ThenTo(Exec(p), Config(Frame(k, regs), mem, tr), 12,
         Config(Frame(k + 14, regs[t0 := 0][t1 := mem[mem[m.queue_head]]]), Popped(Waiters(m), mem), tr), 3,
         Config(Frame(k + 22, regs[t0 := 0][t1 := mem[mem[m.queue_head]]]), Popped(Waiters(m), mem), tr + [Wake(mem[mem[m.queue_head]])]), 15);
  }

  lemma {:induction false} UnlockFreePart1(p: seq<Instr>, k: nat, m: Mutex, t0: Reg, t1: Reg, id: int, regs: Regs, mem: Memory, tr: seq<Signal>)
    requires t0 != t1 && Distinct(m) && Find(p, UnlockEmpty(id)) == Some(k + 16) && Find(p, UnlockEnd(id)) == Some(k + 21) && mem[m.lock] == 0 && mem[m.queue_tail] == mem[m.queue_head]
    requires At(p, k, MutexUnlock(m, t0, t1, id))
    ensures Goes(Exec(p), Config(Frame(k, regs), mem, tr), 7,
                 Config(Frame(k + 17, regs[t0 := mem[m.queue_head]][t1 := 0]), mem[m.lock := 1], tr))
  {
    UnlockAt0(p, k, m, t0, t1, id, regs, mem, tr);
    UnlockAt1(p, k, m, t0, t1, id, regs, mem, tr);
    UnlockAt4(p, k, m, t0, t1, id, regs, mem, tr);
    UnlockAt5(p, k, m, t0, t1, id, regs, mem, tr);
    UnlockAt6(p, k, m, t0, t1, id, regs, mem, tr);
    UnlockAt7Empty(p, k, m, t0, t1, id, regs, mem, tr);
    UnlockAt16Empty(p, k, m, t0, t1, id, regs, mem, tr);
    ThenTo(Exec(p), Config(Frame(k, regs), mem, tr), 1,
         Config(Frame(k + 1, regs[t0 := 0]), mem[m.lock := 1], tr), 1,
         Config(Frame(k + 4, regs[t0 := 0]), mem[m.lock := 1], tr), 2);
    ThenTo(Exec(p), Config(Frame(k, regs), mem, tr), 2,
         Config(Frame(k + 4, regs[t0 := 0]), mem[m.lock := 1], tr), 1,
         Config(Frame(k + 5, regs[t0 := mem[m.queue_head]]), mem[m.lock := 1], tr), 3);
    ThenTo(Exec(p), Config(Frame(k, regs), mem, tr), 3,
         Config(Frame(k + 5, regs[t0 := mem[m.queue_head]]), mem[m.lock := 1], tr), 1,
         Config(Frame(k + 6, regs[t0 := mem[m.queue_head]][t1 := mem[m.queue_tail]]), mem[m.lock := 1], tr), 4);
    ThenTo(Exec(p), Config(Frame(k, regs), mem, tr), 4,
         Config(Frame(k + 6, regs[t0 := mem[m.queue_head]][t1 := mem[m.queue_tail]]), mem[m.lock := 1], tr), 1,
         Config(Frame(k + 7, regs[t0 := mem[m.queue_head]][t1 := mem[m.queue_tail] - mem[m.queue_head]]), mem[m.lock := 1], tr), 5);
    ThenTo(Exec(p), Config(Frame(k, regs), mem, tr), 5,
         Config(Frame(k + 7, regs[t0 := mem[m.queue_head]][t1 := mem[m.queue_tail] - mem[m.queue_head]]), mem[m.lock := 1], tr), 1,
         Config(Frame(k + 16, regs[t0 := mem[m.queue_head]][t1 := 0]), mem[m.lock := 1], tr), 6);
    ThenTo(Exec(p), Config(Frame(k, regs), mem, tr), 6,
         Config(Frame(k + 16, regs[t0 := mem[m.queue_head]][t1 := 0]), mem[m.lock := 1], tr), 1,
         Config(Frame(k + 17, regs[t0 := mem[m.queue_head]][t1 := 0]), mem[m.lock := 1], tr), 7);
  }

  lemma {:induction false} UnlockFreePart2(p: seq<Instr>, k: nat, m: Mutex, t0: Reg, t1: Reg, id: int, regs: Regs, mem: Memory, tr: seq<Signal>)
    requires t0 != t1 && Distinct(m) && Find(p, UnlockEmpty(id)) == Some(k + 16) && Find(p, UnlockEnd(id)) == Some(k + 21) && mem[m.lock] == 0 && mem[m.queue_tail] == mem[m.queue_head]
    requires At(p, k, MutexUnlock(m, t0, t1, id))
    ensures Goes(Exec(p), Config(Frame(k + 17, regs[t0 := mem[m.queue_head]][t1 := 0]), mem[m.lock := 1], tr), 5,
                 Config(Frame(k + 22, regs[t0 := 0][t1 := 0]), mem[m.held := 0], tr))
  {
    UnlockAt17Empty(p, k, m, t0, t1, id, regs, mem, tr);
    UnlockAt18Empty(p, k, m, t0, t1, id, regs, mem, tr);
    UnlockAt19Empty(p, k, m, t0, t1, id, regs, mem, tr);
    UnlockAt20Empty(p, k, m, t0, t1, id, regs, mem, tr);
    UnlockAt21Empty(p, k, m, t0, t1, id, regs, mem, tr);
    ThenTo(Exec(p), Config(Frame(k + 17, regs[t0 := mem[m.queue_head]][t1 := 0]), mem[m.lock := 1], tr), 1,
         Config(Frame(k + 18, regs[t0 := 0][t1 := 0]), mem[m.lock := 1], tr), 1,
         Config(Frame(k + 19, regs[t0 := 0][t1 := 0]), mem[m.lock := 1][m.held := 0], tr), 2);
    ThenTo(Exec(p), Config(Frame(k + 17, regs[t0 := mem[m.queue_head]][t1 := 0]), mem[m.lock := 1], tr), 2,
         Config(Frame(k + 19, regs[t0 := 0][t1 := 0]), mem[m.lock := 1][m.held := 0], tr), 1,
         Config(Frame(k + 20, regs[t0 := 0][t1 := 0]), mem[m.lock := 1][m.held := 0], tr), 3);
    ThenTo(Exec(p), Config(Frame(k + 17, regs[t0 := mem[m.queue_head]][t1 := 0]), mem[m.lock := 1], tr), 3,
         Config(Frame(k + 20, regs[t0 := 0][t1 := 0]), mem[m.lock := 1][m.held := 0], tr), 1,
         Config(Frame(k + 21, regs[t0 := 0][t1 := 0]), mem[m.held := 0], tr), 4);
    ThenTo(Exec(p), Config(Frame(k + 17, regs[t0 := mem[m.queue_head]][t1 := 0]), mem[m.lock := 1], tr), 4,
         Config(Frame(k + 21, regs[t0 := 0][t1 := 0]), mem[m.held := 0], tr), 1,
         Config(Frame(k + 22, regs[t0 := 0][t1 := 0]), mem[m.held := 0], tr), 5);
  }

  /** Release: with no waiters `held` is cleared, the internal lock is 0 again, and no `pst` runs. */
  lemma {:induction false} MutexUnlockReleases(p: seq<Instr>, k: nat, m: Mutex, t0: Reg, t1: Reg, id: int, regs: Regs, mem: Memory, tr: seq<Signal>)
    requires t0 != t1 && Distinct(m) && Find(p, UnlockEmpty(id)) == Some(k + 16) && Find(p, UnlockEnd(id)) == Some(k + 21) && mem[m.lock] == 0 && mem[m.queue_tail] == mem[m.queue_head]
    requires At(p, k, MutexUnlock(m, t0, t1, id))
    ensures Goes(Exec(p), Config(Frame(k, regs), mem, tr), 12,
                 Config(Frame(k + 22, regs[t0 := 0][t1 := 0]), mem[m.held := 0], tr))
  {
    UnlockFreePart1(p, k, m, t0, t1, id, regs, mem, tr);
    UnlockFreePart2(p, k, m, t0, t1, id, regs, mem, tr);
    ThenTo(Exec(p), Config(Frame(k, regs), mem, tr), 7,
         Config(Frame(k + 17, regs[t0 := mem[m.queue_head]][t1 := 0]), mem[m.lock := 1], tr), 5,
         Config(Frame(k + 22, regs[t0 := 0][t1 := 0]), mem[m.held := 0], tr), 12);
  }

  /*
   * What the paths do to the mutex as a whole.
   */

  /** The mutex's own cells: the wait queue must stay clear of them. */
  function Cells(m: Mutex): set<int> {
    {m.lock, m.held, m.queue_head, m.queue_tail}
  }

  /**
   * The slow path of `mutex_lock` appends `tid` to the waiting ids: tail up
   * by one, head unchanged, `held` unchanged, internal lock 0.
   */
  lemma MutexLockQueues(m: Mutex, mem: Memory, tid: int)
    requires Distinct(m) && Valid(Waiters(m), mem, Cells(m))
    requires mem[m.queue_tail] + 1 < MEM_SIZE && mem[m.queue_tail] + 1 !in Cells(m)
    ensures Valid(Waiters(m), Pushed(Waiters(m), mem, m.lock, tid), Cells(m))
    ensures Waiting(Waiters(m), Pushed(Waiters(m), mem, m.lock, tid)) == Waiting(Waiters(m), mem) + [tid]
    ensures Pushed(Waiters(m), mem, m.lock, tid)[m.held] == mem[m.held]
    ensures Pushed(Waiters(m), mem, m.lock, tid)[m.lock] == 0
    ensures Pushed(Waiters(m), mem, m.lock, tid)[m.queue_head] == mem[m.queue_head]
    ensures Pushed(Waiters(m), mem, m.lock, tid)[m.queue_tail] == mem[m.queue_tail] + 1
  {
    PushAppends(Waiters(m), mem, Cells(m), m.lock, tid);
  }

  /**
   * The handover path of `mutex_unlock` wakes the oldest waiter and removes
   * it: head up by one, tail and `held` unchanged.
   */
  lemma MutexUnlockDequeues(m: Mutex, mem: Memory)
    requires Distinct(m) && Valid(Waiters(m), mem, Cells(m)) && mem[m.queue_head] != mem[m.queue_tail]
    ensures mem[mem[m.queue_head]] == Waiting(Waiters(m), mem)[0]
    ensures Valid(Waiters(m), Popped(Waiters(m), mem), Cells(m))
    ensures Waiting(Waiters(m), Popped(Waiters(m), mem)) == Waiting(Waiters(m), mem)[1..]
    ensures Popped(Waiters(m), mem)[m.lock] == mem[m.lock]
    ensures Popped(Waiters(m), mem)[m.held] == mem[m.held]
    ensures Popped(Waiters(m), mem)[m.queue_tail] == mem[m.queue_tail]
  {
    PopTakesFirst(Waiters(m), mem, Cells(m));
  }

  /** Where the labels of each fragment sit inside it. */
  lemma {:induction false} LockLabelsAt(m: Mutex, tid: int, t0: Reg, t1: Reg, id: int)
    ensures Find(MutexLock(m, tid, t0, t1, id), LockSlow(id)) == Some(9)
    ensures Find(MutexLock(m, tid, t0, t1, id), LockEnd(id)) == Some(19)
  {
    var q := MutexLock(m, tid, t0, t1, id);
    forall j | 0 <= j < 19 ensures !q[j].Lab? || j == 9 {
    }
    FindAt(q, 9, LockSlow(id));
    FindAt(q, 19, LockEnd(id));
  }

  lemma {:induction false} UnlockLabelsAt(m: Mutex, t0: Reg, t1: Reg, id: int)
    ensures Find(MutexUnlock(m, t0, t1, id), UnlockEmpty(id)) == Some(16)
    ensures Find(MutexUnlock(m, t0, t1, id), UnlockEnd(id)) == Some(21)
  {
    var u := MutexUnlock(m, t0, t1, id);
    forall j | 0 <= j < 21 ensures !u[j].Lab? || j == 16 {
    }
    FindAt(u, 16, UnlockEmpty(id));
    FindAt(u, 21, UnlockEnd(id));
  }

  /** Every branch of `mutex_lock` stays inside the fragment. */
  lemma MutexLockTargetsWithin(m: Mutex, tid: int, t0: Reg, t1: Reg, id: int)
    ensures TargetsWithin(MutexLock(m, tid, t0, t1, id))
  {
    var q := MutexLock(m, tid, t0, t1, id);
    LockLabelsAt(m, tid, t0, t1, id);
    forall i | 0 <= i < |q| && IsBranch(q[i])
      ensures match q[i].target
        case Abs(_) => false
        case Rel(o) => 0 <= i + o <= |q|
        case Named(l) => Find(q, l).Some?
    {
      assert i in {1, 3, 5, 8};
    }
  }

  /** Every branch of `mutex_unlock` stays inside the fragment. */
  lemma MutexUnlockTargetsWithin(m: Mutex, t0: Reg, t1: Reg, id: int)
    ensures TargetsWithin(MutexUnlock(m, t0, t1, id))
  {
    var u := MutexUnlock(m, t0, t1, id);
    UnlockLabelsAt(m, t0, t1, id);
    forall i | 0 <= i < |u| && IsBranch(u[i])
      ensures match u[i].target
        case Abs(_) => false
        case Rel(o) => 0 <= i + o <= |u|
        case Named(l) => Find(u, l).Some?
    {
      assert i in {1, 3, 7, 15};
    }
  }

  /**
   * Placed after a prefix that defines none of its labels, `mutex_lock`'s
   * named branches reach its own `lab` instructions, which is what the path
   * lemmas above assume.
   */
  lemma {:induction false} MutexLockLabels(pre: seq<Instr>, post: seq<Instr>, m: Mutex, tid: int, t0: Reg, t1: Reg, id: int)
    requires NoClash(pre, MutexLock(m, tid, t0, t1, id))
    ensures Find(pre + MutexLock(m, tid, t0, t1, id) + post, LockSlow(id)) == Some(|pre| + 9)
    ensures Find(pre + MutexLock(m, tid, t0, t1, id) + post, LockEnd(id)) == Some(|pre| + 19)
  {
    var q := MutexLock(m, tid, t0, t1, id);
    assert pre + q + post == pre + (q + post);
    assert IsBranch(q[5]) && q[5].target == Named(LockSlow(id));
    assert IsBranch(q[8]) && q[8].target == Named(LockEnd(id));
    LockLabelsAt(m, tid, t0, t1, id);
    FindAppend(pre, q + post, LockSlow(id));
    FindAppend(q, post, LockSlow(id));
    FindAppend(pre, q + post, LockEnd(id));
    FindAppend(q, post, LockEnd(id));
  }

  /** The same for `mutex_unlock`. */
  lemma {:induction false} MutexUnlockLabels(pre: seq<Instr>, post: seq<Instr>, m: Mutex, t0: Reg, t1: Reg, id: int)
    requires NoClash(pre, MutexUnlock(m, t0, t1, id))
    ensures Find(pre + MutexUnlock(m, t0, t1, id) + post, UnlockEmpty(id)) == Some(|pre| + 16)
    ensures Find(pre + MutexUnlock(m, t0, t1, id) + post, UnlockEnd(id)) == Some(|pre| + 21)
  {
    var u := MutexUnlock(m, t0, t1, id);
    assert pre + u + post == pre + (u + post);
    assert IsBranch(u[7]) && u[7].target == Named(UnlockEmpty(id));
    assert IsBranch(u[15]) && u[15].target == Named(UnlockEnd(id));
    UnlockLabelsAt(m, t0, t1, id);
    FindAppend(pre, u + post, UnlockEmpty(id));
    FindAppend(u, post, UnlockEmpty(id));
    FindAppend(pre, u + post, UnlockEnd(id));
    FindAppend(u, post, UnlockEnd(id));
  }
}
