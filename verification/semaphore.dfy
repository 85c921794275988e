/*
 * The semaphore fragment generators (semaphore.js). A semaphore is four
 * cells: an internal spin lock, the count `val`, and the head and tail index
 * of a wait queue that only grows. A post that finds a waiter hands its
 * credit straight to that waiter and leaves `val` alone.
 *
 * As for the mutex, labels carry an explicit `id` and the lemmas place a
 * fragment at index `k` of a program `p` whose labels resolve to the
 * fragment's own `lab` instructions (`SemWaitLabels`, `SemPostLabels`).
 */
module Semaphores {
  import opened Isa
  import opened Runs
  import opened SpinLocks
  import opened WaitQueues

  datatype Semaphore = Semaphore(lock: Addr, val: Addr, queue_head: Addr, queue_tail: Addr)

  /** The four cells are distinct. */
  predicate Distinct(s: Semaphore) {
    && s.lock != s.val && s.lock != s.queue_head && s.lock != s.queue_tail
    && s.val != s.queue_head && s.val != s.queue_tail && s.queue_head != s.queue_tail
  }

  function Waiters(s: Semaphore): WaitQueue {
    WaitQueue(s.queue_head, s.queue_tail)
  }

  function Cells(s: Semaphore): set<int> {
    {s.lock, s.val, s.queue_head, s.queue_tail}
  }

  function WaitSlow(id: int): Label { Label("sem_wait_slow", id) }
  function WaitEnd(id: int): Label { Label("sem_wait_end", id) }
  function PostEmpty(id: int): Label { Label("sem_post_empty", id) }
  function PostEnd(id: int): Label { Label("sem_post_end", id) }

  /**
   * Take the internal lock; if `val` is nonzero decrement it and release the
   * lock; otherwise append `tid` to the wait queue, release the lock and block.
   */
  function SemWait(s: Semaphore, tid: int, t0: Reg, t1: Reg, id: int): seq<Instr> {
    SpinLockYld(s.lock, t0)
    + [Lod(t0, s.val), Bfs(t0, Named(WaitSlow(id))), Adi(t0, -1), Sto(t0, s.val)]
    + SpinUnlock(s.lock, t0)
    + [Br(Named(WaitEnd(id))),
       Lab(WaitSlow(id)),
       Lod(t0, s.queue_tail), Imm(t1, tid), Str(t1, t0), Adi(t0, 1), Sto(t0, s.queue_tail)]
    + SpinUnlock(s.lock, t0)
    + [Blk, Lab(WaitEnd(id))]
  }

  /**
   * Take the internal lock; if the wait queue is non-empty take its head id,
   * release the lock and wake that thread; otherwise increment `val` and
   * release the lock.
   */
  function SemPost(s: Semaphore, t0: Reg, t1: Reg, id: int): seq<Instr> {
    SpinLockYld(s.lock, t0)
    + [Lod(t0, s.queue_head), Lod(t1, s.queue_tail), Sub(t1, t0), Bfs(t1, Named(PostEmpty(id))),
       Lod(t0, s.queue_head), Ldr(t1, t0), Adi(t0, 1), Sto(t0, s.queue_head)]
    + SpinUnlock(s.lock, t0)
    + [Pst(t1), Br(Named(PostEnd(id))),
       Lab(PostEmpty(id)), Lod(t0, s.val), Adi(t0, 1), Sto(t0, s.val)]
    + SpinUnlock(s.lock, t0)
    + [Lab(PostEnd(id))]
  }

  /** Load `val` into `t0` and print it. */
  function SemShow(s: Semaphore, t0: Reg): seq<Instr> {
    [Lod(t0, s.val), Prt(t0)]
  }

  /*
   * One lemma per instruction of each path, over the state where the
   * fragment starts: `regs`, `mem` and `tr`.
   */
  lemma WaitAt0Busy(p: seq<Instr>, k: nat, s: Semaphore, tid: int, t0: Reg, t1: Reg, id: int, regs: Regs, mem: Memory, tr: seq<Signal>)
    requires t0 != t1 && Distinct(s) && mem[s.lock] != 0
    requires At(p, k, SemWait(s, tid, t0, t1, id))
    ensures Goes(Exec(p), Config(Frame(k, regs), mem, tr), 1,
                 Config(Frame(k + 1, regs[t0 := mem[s.lock]]), mem, tr))
  {
    assert p[k] == SemWait(s, tid, t0, t1, id)[0];
    One(p, Config(Frame(k, regs), mem, tr),
        Config(Frame(k + 1, regs[t0 := mem[s.lock]]), mem, tr));
  }

  lemma WaitAt1Busy(p: seq<Instr>, k: nat, s: Semaphore, tid: int, t0: Reg, t1: Reg, id: int, regs: Regs, mem: Memory, tr: seq<Signal>)
    requires t0 != t1 && Distinct(s) && mem[s.lock] != 0
    requires At(p, k, SemWait(s, tid, t0, t1, id))
    ensures Goes(Exec(p), Config(Frame(k + 1, regs[t0 := mem[s.lock]]), mem, tr), 1,
                 Config(Frame(k + 2, regs[t0 := mem[s.lock]]), mem, tr))
  {
    assert p[k + 1] == SemWait(s, tid, t0, t1, id)[1];
    One(p, Config(Frame(k + 1, regs[t0 := mem[s.lock]]), mem, tr),
        Config(Frame(k + 2, regs[t0 := mem[s.lock]]), mem, tr));
  }

  lemma WaitAt2Busy(p: seq<Instr>, k: nat, s: Semaphore, tid: int, t0: Reg, t1: Reg, id: int, regs: Regs, mem: Memory, tr: seq<Signal>)
    requires t0 != t1 && Distinct(s) && mem[s.lock] != 0
    requires At(p, k, SemWait(s, tid, t0, t1, id))
    ensures Goes(Exec(p), Config(Frame(k + 2, regs[t0 := mem[s.lock]]), mem, tr), 1,
                 Config(Frame(k + 3, regs[t0 := mem[s.lock]]), mem, tr + [Yield]))
  {
    assert p[k + 2] == SemWait(s, tid, t0, t1, id)[2];
    One(p, Config(Frame(k + 2, regs[t0 := mem[s.lock]]), mem, tr),
        Config(Frame(k + 3, regs[t0 := mem[s.lock]]), mem, tr + [Yield]));
  }

  lemma WaitAt3Busy(p: seq<Instr>, k: nat, s: Semaphore, tid: int, t0: Reg, t1: Reg, id: int, regs: Regs, mem: Memory, tr: seq<Signal>)
    requires t0 != t1 && Distinct(s) && mem[s.lock] != 0
    requires At(p, k, SemWait(s, tid, t0, t1, id))
    ensures Goes(Exec(p), Config(Frame(k + 3, regs[t0 := mem[s.lock]]), mem, tr + [Yield]), 1,
                 Config(Frame(k, regs[t0 := mem[s.lock]]), mem, tr + [Yield]))
  {
    assert p[k + 3] == SemWait(s, tid, t0, t1, id)[3];
    One(p, Config(Frame(k + 3, regs[t0 := mem[s.lock]]), mem, tr + [Yield]),
        Config(Frame(k, regs[t0 := mem[s.lock]]), mem, tr + [Yield]));
  }

  lemma WaitAt0(p: seq<Instr>, k: nat, s: Semaphore, tid: int, t0: Reg, t1: Reg, id: int, regs: Regs, mem: Memory, tr: seq<Signal>)
    requires t0 != t1 && Distinct(s) && mem[s.lock] == 0
    requires At(p, k, SemWait(s, tid, t0, t1, id))
    ensures Goes(Exec(p), Config(Frame(k, regs), mem, tr), 1,
                 Config(Frame(k + 1, regs[t0 := 0]), mem[s.lock := 1], tr))
  {
    assert p[k] == SemWait(s, tid, t0, t1, id)[0];
    One(p, Config(Frame(k, regs), mem, tr),
        Config(Frame(k + 1, regs[t0 := 0]), mem[s.lock := 1], tr));
  }

  lemma WaitAt1(p: seq<Instr>, k: nat, s: Semaphore, tid: int, t0: Reg, t1: Reg, id: int, regs: Regs, mem: Memory, tr: seq<Signal>)
    requires t0 != t1 && Distinct(s) && mem[s.lock] == 0
    requires At(p, k, SemWait(s, tid, t0, t1, id))
    ensures Goes(Exec(p), Config(Frame(k + 1, regs[t0 := 0]), mem[s.lock := 1], tr), 1,
                 Config(Frame(k + 4, regs[t0 := 0]), mem[s.lock := 1], tr))
  {
    assert p[k + 1] == SemWait(s, tid, t0, t1, id)[1];
    One(p, Config(Frame(k + 1, regs[t0 := 0]), mem[s.lock := 1], tr),
        Config(Frame(k + 4, regs[t0 := 0]), mem[s.lock := 1], tr));
  }

  lemma WaitAt4Fast(p: seq<Instr>, k: nat, s: Semaphore, tid: int, t0: Reg, t1: Reg, id: int, regs: Regs, mem: Memory, tr: seq<Signal>)
    requires t0 != t1 && Distinct(s) && mem[s.lock] == 0 && mem[s.val] != 0
    requires At(p, k, SemWait(s, tid, t0, t1, id))
    ensures Goes(Exec(p), Config(Frame(k + 4, regs[t0 := 0]), mem[s.lock := 1], tr), 1,
                 Config(Frame(k + 5, regs[t0 := mem[s.val]]), mem[s.lock := 1], tr))
  {
    assert p[k + 4] == SemWait(s, tid, t0, t1, id)[4];
    One(p, Config(Frame(k + 4, regs[t0 := 0]), mem[s.lock := 1], tr),
        Config(Frame(k + 5, regs[t0 := mem[s.val]]), mem[s.lock := 1], tr));
  }

  lemma WaitAt5Fast(p: seq<Instr>, k: nat, s: Semaphore, tid: int, t0: Reg, t1: Reg, id: int, regs: Regs, mem: Memory, tr: seq<Signal>)
    requires t0 != t1 && Distinct(s) && mem[s.lock] == 0 && mem[s.val] != 0
    requires At(p, k, SemWait(s, tid, t0, t1, id))
    ensures Goes(Exec(p), Config(Frame(k + 5, regs[t0 := mem[s.val]]), mem[s.lock := 1], tr), 1,
                 Config(Frame(k + 6, regs[t0 := mem[s.val]]), mem[s.lock := 1], tr))
  {
    assert p[k + 5] == SemWait(s, tid, t0, t1, id)[5];
    One(p, Config(Frame(k + 5, regs[t0 := mem[s.val]]), mem[s.lock := 1], tr),
        Config(Frame(k + 6, regs[t0 := mem[s.val]]), mem[s.lock := 1], tr));
  }

  lemma WaitAt6Fast(p: seq<Instr>, k: nat, s: Semaphore, tid: int, t0: Reg, t1: Reg, id: int, regs: Regs, mem: Memory, tr: seq<Signal>)
    requires t0 != t1 && Distinct(s) && mem[s.lock] == 0 && mem[s.val] != 0
    requires At(p, k, SemWait(s, tid, t0, t1, id))
    ensures Goes(Exec(p), Config(Frame(k + 6, regs[t0 := mem[s.val]]), mem[s.lock := 1], tr), 1,
                 Config(Frame(k + 7, regs[t0 := mem[s.val] - 1]), mem[s.lock := 1], tr))
  {
    assert p[k + 6] == SemWait(s, tid, t0, t1, id)[6];
    One(p, Config(Frame(k + 6, regs[t0 := mem[s.val]]), mem[s.lock := 1], tr),
        Config(Frame(k + 7, regs[t0 := mem[s.val] - 1]), mem[s.lock := 1], tr));
  }

  lemma WaitAt7Fast(p: seq<Instr>, k: nat, s: Semaphore, tid: int, t0: Reg, t1: Reg, id: int, regs: Regs, mem: Memory, tr: seq<Signal>)
    requires t0 != t1 && Distinct(s) && mem[s.lock] == 0 && mem[s.val] != 0
    requires At(p, k, SemWait(s, tid, t0, t1, id))
    ensures Goes(Exec(p), Config(Frame(k + 7, regs[t0 := mem[s.val] - 1]), mem[s.lock := 1], tr), 1,
                 Config(Frame(k + 8, regs[t0 := mem[s.val] - 1]), mem[s.lock := 1][s.val := mem[s.val] - 1], tr))
  {
    assert p[k + 7] == SemWait(s, tid, t0, t1, id)[7];
    One(p, Config(Frame(k + 7, regs[t0 := mem[s.val] - 1]), mem[s.lock := 1], tr),
        Config(Frame(k + 8, regs[t0 := mem[s.val] - 1]), mem[s.lock := 1][s.val := mem[s.val] - 1], tr));
  }

  lemma WaitAt8Fast(p: seq<Instr>, k: nat, s: Semaphore, tid: int, t0: Reg, t1: Reg, id: int, regs: Regs, mem: Memory, tr: seq<Signal>)
    requires t0 != t1 && Distinct(s) && mem[s.lock] == 0 && mem[s.val] != 0
    requires At(p, k, SemWait(s, tid, t0, t1, id))
    ensures Goes(Exec(p), Config(Frame(k + 8, regs[t0 := mem[s.val] - 1]), mem[s.lock := 1][s.val := mem[s.val] - 1], tr), 1,
                 Config(Frame(k + 9, regs[t0 := 0]), mem[s.lock := 1][s.val := mem[s.val] - 1], tr))
  {
    assert p[k + 8] == SemWait(s, tid, t0, t1, id)[8];
    One(p, Config(Frame(k + 8, regs[t0 := mem[s.val] - 1]), mem[s.lock := 1][s.val := mem[s.val] - 1], tr),
        Config(Frame(k + 9, regs[t0 := 0]), mem[s.lock := 1][s.val := mem[s.val] - 1], tr));
  }

  lemma WaitAt9Fast(p: seq<Instr>, k: nat, s: Semaphore, tid: int, t0: Reg, t1: Reg, id: int, regs: Regs, mem: Memory, tr: seq<Signal>)
    requires t0 != t1 && Distinct(s) && mem[s.lock] == 0 && mem[s.val] != 0
    requires At(p, k, SemWait(s, tid, t0, t1, id))
    ensures Goes(Exec(p), Config(Frame(k + 9, regs[t0 := 0]), mem[s.lock := 1][s.val := mem[s.val] - 1], tr), 1,
                 Config(Frame(k + 10, regs[t0 := 0]), mem[s.val := mem[s.val] - 1], tr))
  {
    assert p[k + 9] == SemWait(s, tid, t0, t1, id)[9];
    One(p, Config(Frame(k + 9, regs[t0 := 0]), mem[s.lock := 1][s.val := mem[s.val] - 1], tr),
        Config(Frame(k + 10, regs[t0 := 0]), mem[s.val := mem[s.val] - 1], tr));
  }

  lemma {:induction false} WaitAt10Fast(p: seq<Instr>, k: nat, s: Semaphore, tid: int, t0: Reg, t1: Reg, id: int, regs: Regs, mem: Memory, tr: seq<Signal>)
    requires t0 != t1 && Distinct(s) && Find(p, WaitSlow(id)) == Some(k + 11) && Find(p, WaitEnd(id)) == Some(k + 20) && mem[s.lock] == 0 && mem[s.val] != 0
    requires At(p, k, SemWait(s, tid, t0, t1, id))
    ensures Goes(Exec(p), Config(Frame(k + 10, regs[t0 := 0]), mem[s.val := mem[s.val] - 1], tr), 1,
                 Config(Frame(k + 20, regs[t0 := 0]), mem[s.val := mem[s.val] - 1], tr))
  {
    assert p[k + 10] == SemWait(s, tid, t0, t1, id)[10];
    One(p, Config(Frame(k + 10, regs[t0 := 0]), mem[s.val := mem[s.val] - 1], tr),
        Config(Frame(k + 20, regs[t0 := 0]), mem[s.val := mem[s.val] - 1], tr));
  }

  lemma WaitAt20Fast(p: seq<Instr>, k: nat, s: Semaphore, tid: int, t0: Reg, t1: Reg, id: int, regs: Regs, mem: Memory, tr: seq<Signal>)
    requires t0 != t1 && Distinct(s) && mem[s.lock] == 0 && mem[s.val] != 0
    requires At(p, k, SemWait(s, tid, t0, t1, id))
    ensures Goes(Exec(p), Config(Frame(k + 20, regs[t0 := 0]), mem[s.val := mem[s.val] - 1], tr), 1,
                 Config(Frame(k + 21, regs[t0 := 0]), mem[s.val := mem[s.val] - 1], tr))
  {
    assert p[k + 20] == SemWait(s, tid, t0, t1, id)[20];
    One(p, Config(Frame(k + 20, regs[t0 := 0]), mem[s.val := mem[s.val] - 1], tr),
        Config(Frame(k + 21, regs[t0 := 0]), mem[s.val := mem[s.val] - 1], tr));
  }

  lemma WaitAt4Slow(p: seq<Instr>, k: nat, s: Semaphore, tid: int, t0: Reg, t1: Reg, id: int, regs: Regs, mem: Memory, tr: seq<Signal>)
    requires t0 != t1 && Distinct(s) && mem[s.lock] == 0 && mem[s.val] == 0
    requires At(p, k, SemWait(s, tid, t0, t1, id))
    ensures Goes(Exec(p), Config(Frame(k + 4, regs[t0 := 0]), mem[s.lock := 1], tr), 1,
                 Config(Frame(k + 5, regs[t0 := 0]), mem[s.lock := 1], tr))
  {
    assert p[k + 4] == SemWait(s, tid, t0, t1, id)[4];
    One(p, Config(Frame(k + 4, regs[t0 := 0]), mem[s.lock := 1], tr),
        Config(Frame(k + 5, regs[t0 := 0]), mem[s.lock := 1], tr));
  }

  lemma {:induction false} WaitAt5Slow(p: seq<Instr>, k: nat, s: Semaphore, tid: int, t0: Reg, t1: Reg, id: int, regs: Regs, mem: Memory, tr: seq<Signal>)
    requires t0 != t1 && Distinct(s) && Find(p, WaitSlow(id)) == Some(k + 11) && Find(p, WaitEnd(id)) == Some(k + 20) && mem[s.lock] == 0 && mem[s.val] == 0
    requires At(p, k, SemWait(s, tid, t0, t1, id))
    ensures Goes(Exec(p), Config(Frame(k + 5, regs[t0 := 0]), mem[s.lock := 1], tr), 1,
                 Config(Frame(k + 11, regs[t0 := 0]), mem[s.lock := 1], tr))
  {
    assert p[k + 5] == SemWait(s, tid, t0, t1, id)[5];
    One(p, Config(Frame(k + 5, regs[t0 := 0]), mem[s.lock := 1], tr),
        Config(Frame(k + 11, regs[t0 := 0]), mem[s.lock := 1], tr));
  }

  lemma WaitAt11Slow(p: seq<Instr>, k: nat, s: Semaphore, tid: int, t0: Reg, t1: Reg, id: int, regs: Regs, mem: Memory, tr: seq<Signal>)
    requires t0 != t1 && Distinct(s) && mem[s.lock] == 0 && mem[s.val] == 0
    requires At(p, k, SemWait(s, tid, t0, t1, id))
    ensures Goes(Exec(p), Config(Frame(k + 11, regs[t0 := 0]), mem[s.lock := 1], tr), 1,
                 Config(Frame(k + 12, regs[t0 := 0]), mem[s.lock := 1], tr))
  {
    assert p[k + 11] == SemWait(s, tid, t0, t1, id)[11];
    One(p, Config(Frame(k + 11, regs[t0 := 0]), mem[s.lock := 1], tr),
        Config(Frame(k + 12, regs[t0 := 0]), mem[s.lock := 1], tr));
  }

  lemma WaitAt12Slow(p: seq<Instr>, k: nat, s: Semaphore, tid: int, t0: Reg, t1: Reg, id: int, regs: Regs, mem: Memory, tr: seq<Signal>)
    requires t0 != t1 && Distinct(s) && mem[s.lock] == 0 && mem[s.val] == 0
    requires At(p, k, SemWait(s, tid, t0, t1, id))
    ensures Goes(Exec(p), Config(Frame(k + 12, regs[t0 := 0]), mem[s.lock := 1], tr), 1,
                 Config(Frame(k + 13, regs[t0 := mem[s.queue_tail]]), mem[s.lock := 1], tr))
  {
    assert p[k + 12] == SemWait(s, tid, t0, t1, id)[12];
    One(p, Config(Frame(k + 12, regs[t0 := 0]), mem[s.lock := 1], tr),
        Config(Frame(k + 13, regs[t0 := mem[s.queue_tail]]), mem[s.lock := 1], tr));
  }

  lemma WaitAt13Slow(p: seq<Instr>, k: nat, s: Semaphore, tid: int, t0: Reg, t1: Reg, id: int, regs: Regs, mem: Memory, tr: seq<Signal>)
    requires t0 != t1 && Distinct(s) && mem[s.lock] == 0 && mem[s.val] == 0
    requires At(p, k, SemWait(s, tid, t0, t1, id))
    ensures Goes(Exec(p), Config(Frame(k + 13, regs[t0 := mem[s.queue_tail]]), mem[s.lock := 1], tr), 1,
                 Config(Frame(k + 14, regs[t0 := mem[s.queue_tail]][t1 := tid]), mem[s.lock := 1], tr))
  {
    assert p[k + 13] == SemWait(s, tid, t0, t1, id)[13];
    One(p, Config(Frame(k + 13, regs[t0 := mem[s.queue_tail]]), mem[s.lock := 1], tr),
        Config(Frame(k + 14, regs[t0 := mem[s.queue_tail]][t1 := tid]), mem[s.lock := 1], tr));
  }

  lemma WaitAt14Slow(p: seq<Instr>, k: nat, s: Semaphore, tid: int, t0: Reg, t1: Reg, id: int, regs: Regs, mem: Memory, tr: seq<Signal>)
    requires t0 != t1 && Distinct(s) && mem[s.lock] == 0 && mem[s.val] == 0 && 0 <= mem[s.queue_tail] < MEM_SIZE
    requires At(p, k, SemWait(s, tid, t0, t1, id))
    ensures Goes(Exec(p), Config(Frame(k + 14, regs[t0 := mem[s.queue_tail]][t1 := tid]), mem[s.lock := 1], tr), 1,
                 Config(Frame(k + 15, regs[t0 := mem[s.queue_tail]][t1 := tid]), mem[s.lock := 1][mem[s.queue_tail] := tid], tr))
  {
    assert p[k + 14] == SemWait(s, tid, t0, t1, id)[14];
    One(p, Config(Frame(k + 14, regs[t0 := mem[s.queue_tail]][t1 := tid]), mem[s.lock := 1], tr),
        Config(Frame(k + 15, regs[t0 := mem[s.queue_tail]][t1 := tid]), mem[s.lock := 1][mem[s.queue_tail] := tid], tr));
  }

  lemma WaitAt15Slow(p: seq<Instr>, k: nat, s: Semaphore, tid: int, t0: Reg, t1: Reg, id: int, regs: Regs, mem: Memory, tr: seq<Signal>)
    requires t0 != t1 && Distinct(s) && mem[s.lock] == 0 && mem[s.val] == 0 && 0 <= mem[s.queue_tail] < MEM_SIZE
    requires At(p, k, SemWait(s, tid, t0, t1, id))
    ensures Goes(Exec(p), Config(Frame(k + 15, regs[t0 := mem[s.queue_tail]][t1 := tid]), mem[s.lock := 1][mem[s.queue_tail] := tid], tr), 1,
                 Config(Frame(k + 16, regs[t0 := mem[s.queue_tail] + 1][t1 := tid]), mem[s.lock := 1][mem[s.queue_tail] := tid], tr))
  {
    assert p[k + 15] == SemWait(s, tid, t0, t1, id)[15];
    One(p, Config(Frame(k + 15, regs[t0 := mem[s.queue_tail]][t1 := tid]), mem[s.lock := 1][mem[s.queue_tail] := tid], tr),
        Config(Frame(k + 16, regs[t0 := mem[s.queue_tail] + 1][t1 := tid]), mem[s.lock := 1][mem[s.queue_tail] := tid], tr));
  }

  lemma WaitAt16Slow(p: seq<Instr>, k: nat, s: Semaphore, tid: int, t0: Reg, t1: Reg, id: int, regs: Regs, mem: Memory, tr: seq<Signal>)
    requires t0 != t1 && Distinct(s) && mem[s.lock] == 0 && mem[s.val] == 0 && 0 <= mem[s.queue_tail] < MEM_SIZE
    requires At(p, k, SemWait(s, tid, t0, t1, id))
    ensures Goes(Exec(p), Config(Frame(k + 16, regs[t0 := mem[s.queue_tail] + 1][t1 := tid]), mem[s.lock := 1][mem[s.queue_tail] := tid], tr), 1,
                 Config(Frame(k + 17, regs[t0 := mem[s.queue_tail] + 1][t1 := tid]), mem[s.lock := 1][mem[s.queue_tail] := tid][s.queue_tail := mem[s.queue_tail] + 1], tr))
  {
    assert p[k + 16] == SemWait(s, tid, t0, t1, id)[16];
    One(p, Config(Frame(k + 16, regs[t0 := mem[s.queue_tail] + 1][t1 := tid]), mem[s.lock := 1][mem[s.queue_tail] := tid], tr),
        Config(Frame(k + 17, regs[t0 := mem[s.queue_tail] + 1][t1 := tid]), mem[s.lock := 1][mem[s.queue_tail] := tid][s.queue_tail := mem[s.queue_tail] + 1], tr));
  }

  lemma WaitAt17Slow(p: seq<Instr>, k: nat, s: Semaphore, tid: int, t0: Reg, t1: Reg, id: int, regs: Regs, mem: Memory, tr: seq<Signal>)
    requires t0 != t1 && Distinct(s) && mem[s.lock] == 0 && mem[s.val] == 0 && 0 <= mem[s.queue_tail] < MEM_SIZE
    requires At(p, k, SemWait(s, tid, t0, t1, id))
    ensures Goes(Exec(p), Config(Frame(k + 17, regs[t0 := mem[s.queue_tail] + 1][t1 := tid]), mem[s.lock := 1][mem[s.queue_tail] := tid][s.queue_tail := mem[s.queue_tail] + 1], tr), 1,
                 Config(Frame(k + 18, regs[t0 := 0][t1 := tid]), mem[s.lock := 1][mem[s.queue_tail] := tid][s.queue_tail := mem[s.queue_tail] + 1], tr))
  {
    assert p[k + 17] == SemWait(s, tid, t0, t1, id)[17];
    One(p, Config(Frame(k + 17, regs[t0 := mem[s.queue_tail] + 1][t1 := tid]), mem[s.lock := 1][mem[s.queue_tail] := tid][s.queue_tail := mem[s.queue_tail] + 1], tr),
        Config(Frame(k + 18, regs[t0 := 0][t1 := tid]), mem[s.lock := 1][mem[s.queue_tail] := tid][s.queue_tail := mem[s.queue_tail] + 1], tr));
  }

  lemma WaitAt18Slow(p: seq<Instr>, k: nat, s: Semaphore, tid: int, t0: Reg, t1: Reg, id: int, regs: Regs, mem: Memory, tr: seq<Signal>)
    requires t0 != t1 && Distinct(s) && mem[s.lock] == 0 && mem[s.val] == 0 && 0 <= mem[s.queue_tail] < MEM_SIZE
    requires At(p, k, SemWait(s, tid, t0, t1, id))
    ensures Goes(Exec(p), Config(Frame(k + 18, regs[t0 := 0][t1 := tid]), mem[s.lock := 1][mem[s.queue_tail] := tid][s.queue_tail := mem[s.queue_tail] + 1], tr), 1,
                 Config(Frame(k + 19, regs[t0 := 0][t1 := tid]), Pushed(Waiters(s), mem, s.lock, tid), tr))
  {
    assert p[k + 18] == SemWait(s, tid, t0, t1, id)[18];
    One(p, Config(Frame(k + 18, regs[t0 := 0][t1 := tid]), mem[s.lock := 1][mem[s.queue_tail] := tid][s.queue_tail := mem[s.queue_tail] + 1], tr),
        Config(Frame(k + 19, regs[t0 := 0][t1 := tid]), Pushed(Waiters(s), mem, s.lock, tid), tr));
  }

  lemma WaitAt19Slow(p: seq<Instr>, k: nat, s: Semaphore, tid: int, t0: Reg, t1: Reg, id: int, regs: Regs, mem: Memory, tr: seq<Signal>)
    requires t0 != t1 && Distinct(s) && mem[s.lock] == 0 && mem[s.val] == 0 && 0 <= mem[s.queue_tail] < MEM_SIZE
    requires At(p, k, SemWait(s, tid, t0, t1, id))
    ensures Goes(Exec(p), Config(Frame(k + 19, regs[t0 := 0][t1 := tid]), Pushed(Waiters(s), mem, s.lock, tid), tr), 1,
                 Config(Frame(k + 20, regs[t0 := 0][t1 := tid]), Pushed(Waiters(s), mem, s.lock, tid), tr + [Block]))
  {
    assert p[k + 19] == SemWait(s, tid, t0, t1, id)[19];
    One(p, Config(Frame(k + 19, regs[t0 := 0][t1 := tid]), Pushed(Waiters(s), mem, s.lock, tid), tr),
        Config(Frame(k + 20, regs[t0 := 0][t1 := tid]), Pushed(Waiters(s), mem, s.lock, tid), tr + [Block]));
  }

  lemma WaitAt20Slow(p: seq<Instr>, k: nat, s: Semaphore, tid: int, t0: Reg, t1: Reg, id: int, regs: Regs, mem: Memory, tr: seq<Signal>)
    requires t0 != t1 && Distinct(s) && mem[s.lock] == 0 && mem[s.val] == 0 && 0 <= mem[s.queue_tail] < MEM_SIZE
    requires At(p, k, SemWait(s, tid, t0, t1, id))
    ensures Goes(Exec(p), Config(Frame(k + 20, regs[t0 := 0][t1 := tid]), Pushed(Waiters(s), mem, s.lock, tid), tr + [Block]), 1,
                 Config(Frame(k + 21, regs[t0 := 0][t1 := tid]), Pushed(Waiters(s), mem, s.lock, tid), tr + [Block]))
  {
    assert p[k + 20] == SemWait(s, tid, t0, t1, id)[20];
    One(p, Config(Frame(k + 20, regs[t0 := 0][t1 := tid]), Pushed(Waiters(s), mem, s.lock, tid), tr + [Block]),
        Config(Frame(k + 21, regs[t0 := 0][t1 := tid]), Pushed(Waiters(s), mem, s.lock, tid), tr + [Block]));
  }

  /** While the internal lock is taken the thread yields and comes back to the `cas`, with nothing changed but `t0`. */
  lemma SemWaitSpins(p: seq<Instr>, k: nat, s: Semaphore, tid: int, t0: Reg, t1: Reg, id: int, regs: Regs, mem: Memory, tr: seq<Signal>)
    requires t0 != t1 && Distinct(s) && mem[s.lock] != 0
    requires At(p, k, SemWait(s, tid, t0, t1, id))
    ensures Goes(Exec(p), Config(Frame(k, regs), mem, tr), 4,
                 Config(Frame(k, regs[t0 := mem[s.lock]]), mem, tr + [Yield]))
  {
    WaitAt0Busy(p, k, s, tid, t0, t1, id, regs, mem, tr);
    WaitAt1Busy(p, k, s, tid, t0, t1, id, regs, mem, tr);
    WaitAt2Busy(p, k, s, tid, t0, t1, id, regs, mem, tr);
    WaitAt3Busy(p, k, s, tid, t0, t1, id, regs, mem, tr);
    ThenTo(Exec(p), Config(Frame(k, regs), mem, tr), 1,
         Config(Frame(k + 1, regs[t0 := mem[s.lock]]), mem, tr), 1,
         Config(Frame(k + 2, regs[t0 := mem[s.lock]]), mem, tr), 2);
    ThenTo(Exec(p), Config(Frame(k, regs), mem, tr), 2,
         Config(Frame(k + 2, regs[t0 := mem[s.lock]]), mem, tr), 1,
         Config(Frame(k + 3, regs[t0 := mem[s.lock]]), mem, tr + [Yield]), 3);
    ThenTo(Exec(p), Config(Frame(k, regs), mem, tr), 3,
         Config(Frame(k + 3, regs[t0 := mem[s.lock]]), mem, tr + [Yield]), 1,
         Config(Frame(k, regs[t0 := mem[s.lock]]), mem, tr + [Yield]), 4);
  }

  lemma {:induction false} WaitFastPart1(p: seq<Instr>, k: nat, s: Semaphore, tid: int, t0: Reg, t1: Reg, id: int, regs: Regs, mem: Memory, tr: seq<Signal>)
    requires t0 != t1 && Distinct(s) && Find(p, WaitSlow(id)) == Some(k + 11) && Find(p, WaitEnd(id)) == Some(k + 20) && mem[s.lock] == 0 && mem[s.val] != 0
    requires At(p, k, SemWait(s, tid, t0, t1, id))
    ensures Goes(Exec(p), Config(Frame(k, regs), mem, tr), 5,
                 Config(Frame(k + 7, regs[t0 := mem[s.val] - 1]), mem[s.lock := 1], tr))
  {
    WaitAt0(p, k, s, tid, t0, t1, id, regs, mem, tr);
    WaitAt1(p, k, s, tid, t0, t1, id, regs, mem, tr);
    WaitAt4Fast(p, k, s, tid, t0, t1, id, regs, mem, tr);
    WaitAt5Fast(p, k, s, tid, t0, t1, id, regs, mem, tr);
    WaitAt6Fast(p, k, s, tid, t0, t1, id, regs, mem, tr);
    ThenTo(Exec(p), Config(Frame(k, regs), mem, tr), 1,
         Config(Frame(k + 1, regs[t0 := 0]), mem[s.lock := 1], tr), 1,
         Config(Frame(k + 4, regs[t0 := 0]), mem[s.lock := 1], tr), 2);
    ThenTo(Exec(p), Config(Frame(k, regs), mem, tr), 2,
         Config(Frame(k + 4, regs[t0 := 0]), mem[s.lock := 1], tr), 1,
         Config(Frame(k + 5, regs[t0 := mem[s.val]]), mem[s.lock := 1], tr), 3);
    ThenTo(Exec(p), Config(Frame(k, regs), mem, tr), 3,
         Config(Frame(k + 5, regs[t0 := mem[s.val]]), mem[s.lock := 1], tr), 1,
         Config(Frame(k + 6, regs[t0 := mem[s.val]]), mem[s.lock := 1], tr), 4);
    ThenTo(Exec(p), Config(Frame(k, regs), mem, tr), 4,
         Config(Frame(k + 6, regs[t0 := mem[s.val]]), mem[s.lock := 1], tr), 1,
         Config(Frame(k + 7, regs[t0 := mem[s.val] - 1]), mem[s.lock := 1], tr), 5);
  }

  lemma {:induction false} WaitFastPart2(p: seq<Instr>, k: nat, s: Semaphore, tid: int, t0: Reg, t1: Reg, id: int, regs: Regs, mem: Memory, tr: seq<Signal>)
    requires t0 != t1 && Distinct(s) && Find(p, WaitSlow(id)) == Some(k + 11) && Find(p, WaitEnd(id)) == Some(k + 20) && mem[s.lock] == 0 && mem[s.val] != 0
    requires At(p, k, SemWait(s, tid, t0, t1, id))
    ensures Goes(Exec(p), Config(Frame(k + 7, regs[t0 := mem[s.val] - 1]), mem[s.lock := 1], tr), 5,
                 Config(Frame(k + 21, regs[t0 := 0]), mem[s.val := mem[s.val] - 1], tr))
  {
    WaitAt7Fast(p, k, s, tid, t0, t1, id, regs, mem, tr);
    WaitAt8Fast(p, k, s, tid, t0, t1, id, regs, mem, tr);
    WaitAt9Fast(p, k, s, tid, t0, t1, id, regs, mem, tr);
    WaitAt10Fast(p, k, s, tid, t0, t1, id, regs, mem, tr);
    WaitAt20Fast(p, k, s, tid, t0, t1, id, regs, mem, tr);
    ThenTo(Exec(p), Config(Frame(k + 7, regs[t0 := mem[s.val] - 1]), mem[s.lock := 1], tr), 1,
         Config(Frame(k + 8, regs[t0 := mem[s.val] - 1]), mem[s.lock := 1][s.val := mem[s.val] - 1], tr), 1,
         Config(Frame(k + 9, regs[t0 := 0]), mem[s.lock := 1][s.val := mem[s.val] - 1], tr), 2);
    ThenTo(Exec(p), Config(Frame(k + 7, regs[t0 := mem[s.val] - 1]), mem[s.lock := 1], tr), 2,
         Config(Frame(k + 9, regs[t0 := 0]), mem[s.lock := 1][s.val := mem[s.val] - 1], tr), 1,
         Config(Frame(k + 10, regs[t0 := 0]), mem[s.val := mem[s.val] - 1], tr), 3);
    ThenTo(Exec(p), Config(Frame(k + 7, regs[t0 := mem[s.val] - 1]), mem[s.lock := 1], tr), 3,
         Config(Frame(k + 10, regs[t0 := 0]), mem[s.val := mem[s.val] - 1], tr), 1,
         Config(Frame(k + 20, regs[t0 := 0]), mem[s.val := mem[s.val] - 1], tr), 4);
    ThenTo(Exec(p), Config(Frame(k + 7, regs[t0 := mem[s.val] - 1]), mem[s.lock := 1], tr), 4,
         Config(Frame(k + 20, regs[t0 := 0]), mem[s.val := mem[s.val] - 1], tr), 1,
         Config(Frame(k + 21, regs[t0 := 0]), mem[s.val := mem[s.val] - 1], tr), 5);
  }

  /** Fast path: with `val` nonzero, `val` goes down by one and nothing else changes (the internal lock is 0 again), and no `blk` runs. */
  lemma {:induction false} SemWaitFast(p: seq<Instr>, k: nat, s: Semaphore, tid: int, t0: Reg, t1: Reg, id: int, regs: Regs, mem: Memory, tr: seq<Signal>)
    requires t0 != t1 && Distinct(s) && Find(p, WaitSlow(id)) == Some(k + 11) && Find(p, WaitEnd(id)) == Some(k + 20) && mem[s.lock] == 0 && mem[s.val] != 0
    requires At(p, k, SemWait(s, tid, t0, t1, id))
    ensures Goes(Exec(p), Config(Frame(k, regs), mem, tr), 10,
                 Config(Frame(k + 21, regs[t0 := 0]), mem[s.val := mem[s.val] - 1], tr))
  {
    WaitFastPart1(p, k, s, tid, t0, t1, id, regs, mem, tr);
    WaitFastPart2(p, k, s, tid, t0, t1, id, regs, mem, tr);
    ThenTo(Exec(p), Config(Frame(k, regs), mem, tr), 5,
         Config(Frame(k + 7, regs[t0 := mem[s.val] - 1]), mem[s.lock := 1], tr), 5,
         Config(Frame(k + 21, regs[t0 := 0]), mem[s.val := mem[s.val] - 1], tr), 10);
  }

  lemma {:induction false} WaitSlowPart1(p: seq<Instr>, k: nat, s: Semaphore, tid: int, t0: Reg, t1: Reg, id: int, regs: Regs, mem: Memory, tr: seq<Signal>)
    requires t0 != t1 && Distinct(s) && Find(p, WaitSlow(id)) == Some(k + 11) && Find(p, WaitEnd(id)) == Some(k + 20) && mem[s.lock] == 0 && mem[s.val] == 0 && 0 <= mem[s.queue_tail] < MEM_SIZE
    requires At(p, k, SemWait(s, tid, t0, t1, id))
    ensures Goes(Exec(p), Config(Frame(k, regs), mem, tr), 7,
                 Config(Frame(k + 14, regs[t0 := mem[s.queue_tail]][t1 := tid]), mem[s.lock := 1], tr))
  {
    WaitAt0(p, k, s, tid, t0, t1, id, regs, mem, tr);
    WaitAt1(p, k, s, tid, t0, t1, id, regs, mem, tr);
    WaitAt4Slow(p, k, s, tid, t0, t1, id, regs, mem, tr);
    WaitAt5Slow(p, k, s, tid, t0, t1, id, regs, mem, tr);
    WaitAt11Slow(p, k, s, tid, t0, t1, id, regs, mem, tr);
    WaitAt12Slow(p, k, s, tid, t0, t1, id, regs, mem, tr);
    WaitAt13Slow(p, k, s, tid, t0, t1, id, regs, mem, tr);
    ThenTo(Exec(p), Config(Frame(k, regs), mem, tr), 1,
         Config(Frame(k + 1, regs[t0 := 0]), mem[s.lock := 1], tr), 1,
         Config(Frame(k + 4, regs[t0 := 0]), mem[s.lock := 1], tr), 2);
    ThenTo(Exec(p), Config(Frame(k, regs), mem, tr), 2,
         Config(Frame(k + 4, regs[t0 := 0]), mem[s.lock := 1], tr), 1,
         Config(Frame(k + 5, regs[t0 := 0]), mem[s.lock := 1], tr), 3);
    ThenTo(Exec(p), Config(Frame(k, regs), mem, tr), 3,
         Config(Frame(k + 5, regs[t0 := 0]), mem[s.lock := 1], tr), 1,
         Config(Frame(k + 11, regs[t0 := 0]), mem[s.lock := 1], tr), 4);
    ThenTo(Exec(p), Config(Frame(k, regs), mem, tr), 4,
         Config(Frame(k + 11, regs[t0 := 0]), mem[s.lock := 1], tr), 1,
         Config(Frame(k + 12, regs[t0 := 0]), mem[s.lock := 1], tr), 5);
    ThenTo(Exec(p), Config(Frame(k, regs), mem, tr), 5,
         Config(Frame(k + 12, regs[t0 := 0]), mem[s.lock := 1], tr), 1,
         Config(Frame(k + 13, regs[t0 := mem[s.queue_tail]]), mem[s.lock := 1], tr), 6);
    ThenTo(Exec(p), Config(Frame(k, regs), mem, tr), 6,
         Config(Frame(k + 13, regs[t0 := mem[s.queue_tail]]), mem[s.lock := 1], tr), 1,
         Config(Frame(k + 14, regs[t0 := mem[s.queue_tail]][t1 := tid]), mem[s.lock := 1], tr), 7);
  }

  lemma {:induction false} WaitSlowPart2(p: seq<Instr>, k: nat, s: Semaphore, tid: int, t0: Reg, t1: Reg, id: int, regs: Regs, mem: Memory, tr: seq<Signal>)
    requires t0 != t1 && Distinct(s) && Find(p, WaitSlow(id)) == Some(k + 11) && Find(p, WaitEnd(id)) == Some(k + 20) && mem[s.lock] == 0 && mem[s.val] == 0 && 0 <= mem[s.queue_tail] < MEM_SIZE
    requires At(p, k, SemWait(s, tid, t0, t1, id))
    ensures Goes(Exec(p), Config(Frame(k + 14, regs[t0 := mem[s.queue_tail]][t1 := tid]), mem[s.lock := 1], tr), 5,
                 Config(Frame(k + 19, regs[t0 := 0][t1 := tid]), Pushed(Waiters(s), mem, s.lock, tid), tr))
  {
    WaitAt14Slow(p, k, s, tid, t0, t1, id, regs, mem, tr);
    WaitAt15Slow(p, k, s, tid, t0, t1, id, regs, mem, tr);
    WaitAt16Slow(p, k, s, tid, t0, t1, id, regs, mem, tr);
    WaitAt17Slow(p, k, s, tid, t0, t1, id, regs, mem, tr);
    WaitAt18Slow(p, k, s, tid, t0, t1, id, regs, mem, tr);
    ThenTo(Exec(p), Config(Frame(k + 14, regs[t0 := mem[s.queue_tail]][t1 := tid]), mem[s.lock := 1], tr), 1,
         Config(Frame(k + 15, regs[t0 := mem[s.queue_tail]][t1 := tid]), mem[s.lock := 1][mem[s.queue_tail] := tid], tr), 1,
         Config(Frame(k + 16, regs[t0 := mem[s.queue_tail] + 1][t1 := tid]), mem[s.lock := 1][mem[s.queue_tail] := tid], tr), 2);
    ThenTo(Exec(p), Config(Frame(k + 14, regs[t0 := mem[s.queue_tail]][t1 := tid]), mem[s.lock := 1], tr), 2,
         Config(Frame(k + 16, regs[t0 := mem[s.queue_tail] + 1][t1 := tid]), mem[s.lock := 1][mem[s.queue_tail] := tid], tr), 1,
         Config(Frame(k + 17, regs[t0 := mem[s.queue_tail] + 1][t1 := tid]), mem[s.lock := 1][mem[s.queue_tail] := tid][s.queue_tail := mem[s.queue_tail] + 1], tr), 3);
    ThenTo(Exec(p), Config(Frame(k + 14, regs[t0 := mem[s.queue_tail]][t1 := tid]), mem[s.lock := 1], tr), 3,
         Config(Frame(k + 17, regs[t0 := mem[s.queue_tail] + 1][t1 := tid]), mem[s.lock := 1][mem[s.queue_tail] := tid][s.queue_tail := mem[s.queue_tail] + 1], tr), 1,
         Config(Frame(k + 18, regs[t0 := 0][t1 := tid]), mem[s.lock := 1][mem[s.queue_tail] := tid][s.queue_tail := mem[s.queue_tail] + 1], tr), 4);
    ThenTo(Exec(p), Config(Frame(k + 14, regs[t0 := mem[s.queue_tail]][t1 := tid]), mem[s.lock := 1], tr), 4,
         Config(Frame(k + 18, regs[t0 := 0][t1 := tid]), mem[s.lock := 1][mem[s.queue_tail] := tid][s.queue_tail := mem[s.queue_tail] + 1], tr), 1,
         Config(Frame(k + 19, regs[t0 := 0][t1 := tid]), Pushed(Waiters(s), mem, s.lock, tid), tr), 5);
  }

  /** Slow path up to the `blk`: with `val` = 0, `tid` is pushed on the wait queue and the internal lock is 0 again; `val` is untouched. */
  lemma {:induction false} SemWaitSlowBlocks(p: seq<Instr>, k: nat, s: Semaphore, tid: int, t0: Reg, t1: Reg, id: int, regs: Regs, mem: Memory, tr: seq<Signal>)
    requires t0 != t1 && Distinct(s) && Find(p, WaitSlow(id)) == Some(k + 11) && Find(p, WaitEnd(id)) == Some(k + 20) && mem[s.lock] == 0 && mem[s.val] == 0 && 0 <= mem[s.queue_tail] < MEM_SIZE
    requires At(p, k, SemWait(s, tid, t0, t1, id))
    ensures Goes(Exec(p), Config(Frame(k, regs), mem, tr), 12,
                 Config(Frame(k + 19, regs[t0 := 0][t1 := tid]), Pushed(Waiters(s), mem, s.lock, tid), tr))
  {
    WaitSlowPart1(p, k, s, tid, t0, t1, id, regs, mem, tr);
    WaitSlowPart2(p, k, s, tid, t0, t1, id, regs, mem, tr);
    ThenTo(Exec(p), Config(Frame(k, regs), mem, tr), 7,
         Config(Frame(k + 14, regs[t0 := mem[s.queue_tail]][t1 := tid]), mem[s.lock := 1], tr), 5,
         Config(Frame(k + 19, regs[t0 := 0][t1 := tid]), Pushed(Waiters(s), mem, s.lock, tid), tr), 12);
  }

  /** Slow path from the `blk`: the thread reports Block, and once it runs again it leaves the fragment. */
  lemma SemWaitSlowResumes(p: seq<Instr>, k: nat, s: Semaphore, tid: int, t0: Reg, t1: Reg, id: int, regs: Regs, mem: Memory, tr: seq<Signal>)
    requires t0 != t1 && Distinct(s) && mem[s.lock] == 0 && mem[s.val] == 0 && 0 <= mem[s.queue_tail] < MEM_SIZE
    requires At(p, k, SemWait(s, tid, t0, t1, id))
    ensures Goes(Exec(p), Config(Frame(k + 19, regs[t0 := 0][t1 := tid]), Pushed(Waiters(s), mem, s.lock, tid), tr), 2,
                 Config(Frame(k + 21, regs[t0 := 0][t1 := tid]), Pushed(Waiters(s), mem, s.lock, tid), tr + [Block]))
  {
    WaitAt19Slow(p, k, s, tid, t0, t1, id, regs, mem, tr);
    WaitAt20Slow(p, k, s, tid, t0, t1, id, regs, mem, tr);
    ThenTo(Exec(p), Config(Frame(k + 19, regs[t0 := 0][t1 := tid]), Pushed(Waiters(s), mem, s.lock, tid), tr), 1,
         Config(Frame(k + 20, regs[t0 := 0][t1 := tid]), Pushed(Waiters(s), mem, s.lock, tid), tr + [Block]), 1,
         Config(Frame(k + 21, regs[t0 := 0][t1 := tid]), Pushed(Waiters(s), mem, s.lock, tid), tr + [Block]), 2);
  }
  lemma PostAt0Busy(p: seq<Instr>, k: nat, s: Semaphore, t0: Reg, t1: Reg, id: int, regs: Regs, mem: Memory, tr: seq<Signal>)
    requires t0 != t1 && Distinct(s) && mem[s.lock] != 0
    requires At(p, k, SemPost(s, t0, t1, id))
    ensures Goes(Exec(p), Config(Frame(k, regs), mem, tr), 1,
                 Config(Frame(k + 1, regs[t0 := mem[s.lock]]), mem, tr))
  {
    assert p[k] == SemPost(s, t0, t1, id)[0];
    One(p, Config(Frame(k, regs), mem, tr),
        Config(Frame(k + 1, regs[t0 := mem[s.lock]]), mem, tr));
  }

  lemma PostAt1Busy(p: seq<Instr>, k: nat, s: Semaphore, t0: Reg, t1: Reg, id: int, regs: Regs, mem: Memory, tr: seq<Signal>)
    requires t0 != t1 && Distinct(s) && mem[s.lock] != 0
    requires At(p, k, SemPost(s, t0, t1, id))
    ensures Goes(Exec(p), Config(Frame(k + 1, regs[t0 := mem[s.lock]]), mem, tr), 1,
                 Config(Frame(k + 2, regs[t0 := mem[s.lock]]), mem, tr))
  {
    assert p[k + 1] == SemPost(s, t0, t1, id)[1];
    One(p, Config(Frame(k + 1, regs[t0 := mem[s.lock]]), mem, tr),
        Config(Frame(k + 2, regs[t0 := mem[s.lock]]), mem, tr));
  }

  lemma PostAt2Busy(p: seq<Instr>, k: nat, s: Semaphore, t0: Reg, t1: Reg, id: int, regs: Regs, mem: Memory, tr: seq<Signal>)
    requires t0 != t1 && Distinct(s) && mem[s.lock] != 0
    requires At(p, k, SemPost(s, t0, t1, id))
    ensures Goes(Exec(p), Config(Frame(k + 2, regs[t0 := mem[s.lock]]), mem, tr), 1,
                 Config(Frame(k + 3, regs[t0 := mem[s.lock]]), mem, tr + [Yield]))
  {
    assert p[k + 2] == SemPost(s, t0, t1, id)[2];
    One(p, Config(Frame(k + 2, regs[t0 := mem[s.lock]]), mem, tr),
        Config(Frame(k + 3, regs[t0 := mem[s.lock]]), mem, tr + [Yield]));
  }

  lemma PostAt3Busy(p: seq<Instr>, k: nat, s: Semaphore, t0: Reg, t1: Reg, id: int, regs: Regs, mem: Memory, tr: seq<Signal>)
    requires t0 != t1 && Distinct(s) && mem[s.lock] != 0
    requires At(p, k, SemPost(s, t0, t1, id))
    ensures Goes(Exec(p), Config(Frame(k + 3, regs[t0 := mem[s.lock]]), mem, tr + [Yield]), 1,
                 Config(Frame(k, regs[t0 := mem[s.lock]]), mem, tr + [Yield]))
  {
    assert p[k + 3] == SemPost(s, t0, t1, id)[3];
    One(p, Config(Frame(k + 3, regs[t0 := mem[s.lock]]), mem, tr + [Yield]),
        Config(Frame(k, regs[t0 := mem[s.lock]]), mem, tr + [Yield]));
  }

  lemma PostAt0(p: seq<Instr>, k: nat, s: Semaphore, t0: Reg, t1: Reg, id: int, regs: Regs, mem: Memory, tr: seq<Signal>)
    requires t0 != t1 && Distinct(s) && mem[s.lock] == 0
    requires At(p, k, SemPost(s, t0, t1, id))
    ensures Goes(Exec(p), Config(Frame(k, regs), mem, tr), 1,
                 Config(Frame(k + 1, regs[t0 := 0]), mem[s.lock := 1], tr))
  {
    assert p[k] == SemPost(s, t0, t1, id)[0];
    One(p, Config(Frame(k, regs), mem, tr),
        Config(Frame(k + 1, regs[t0 := 0]), mem[s.lock := 1], tr));
  }

  lemma PostAt1(p: seq<Instr>, k: nat, s: Semaphore, t0: Reg, t1: Reg, id: int, regs: Regs, mem: Memory, tr: seq<Signal>)
    requires t0 != t1 && Distinct(s) && mem[s.lock] == 0
    requires At(p, k, SemPost(s, t0, t1, id))
    ensures Goes(Exec(p), Config(Frame(k + 1, regs[t0 := 0]), mem[s.lock := 1], tr), 1,
                 Config(Frame(k + 4, regs[t0 := 0]), mem[s.lock := 1], tr))
  {
    assert p[k + 1] == SemPost(s, t0, t1, id)[1];
    One(p, Config(Frame(k + 1, regs[t0 := 0]), mem[s.lock := 1], tr),
        Config(Frame(k + 4, regs[t0 := 0]), mem[s.lock := 1], tr));
  }

  lemma PostAt4(p: seq<Instr>, k: nat, s: Semaphore, t0: Reg, t1: Reg, id: int, regs: Regs, mem: Memory, tr: seq<Signal>)
    requires t0 != t1 && Distinct(s) && mem[s.lock] == 0
    requires At(p, k, SemPost(s, t0, t1, id))
    ensures Goes(Exec(p), Config(Frame(k + 4, regs[t0 := 0]), mem[s.lock := 1], tr), 1,
                 Config(Frame(k + 5, regs[t0 := mem[s.queue_head]]), mem[s.lock := 1], tr))
  {
    assert p[k + 4] == SemPost(s, t0, t1, id)[4];
    One(p, Config(Frame(k + 4, regs[t0 := 0]), mem[s.lock := 1], tr),
        Config(Frame(k + 5, regs[t0 := mem[s.queue_head]]), mem[s.lock := 1], tr));
  }

  lemma PostAt5(p: seq<Instr>, k: nat, s: Semaphore, t0: Reg, t1: Reg, id: int, regs: Regs, mem: Memory, tr: seq<Signal>)
    requires t0 != t1 && Distinct(s) && mem[s.lock] == 0
    requires At(p, k, SemPost(s, t0, t1, id))
    ensures Goes(Exec(p), Config(Frame(k + 5, regs[t0 := mem[s.queue_head]]), mem[s.lock := 1], tr), 1,
                 Config(Frame(k + 6, regs[t0 := mem[s.queue_head]][t1 := mem[s.queue_tail]]), mem[s.lock := 1], tr))
  {
    assert p[k + 5] == SemPost(s, t0, t1, id)[5];
    One(p, Config(Frame(k + 5, regs[t0 := mem[s.queue_head]]), mem[s.lock := 1], tr),
        Config(Frame(k + 6, regs[t0 := mem[s.queue_head]][t1 := mem[s.queue_tail]]), mem[s.lock := 1], tr));
  }

  lemma PostAt6(p: seq<Instr>, k: nat, s: Semaphore, t0: Reg, t1: Reg, id: int, regs: Regs, mem: Memory, tr: seq<Signal>)
    requires t0 != t1 && Distinct(s) && mem[s.lock] == 0
    requires At(p, k, SemPost(s, t0, t1, id))
    ensures Goes(Exec(p), Config(Frame(k + 6, regs[t0 := mem[s.queue_head]][t1 := mem[s.queue_tail]]), mem[s.lock := 1], tr), 1,
                 Config(Frame(k + 7, regs[t0 := mem[s.queue_head]][t1 := mem[s.queue_tail] - mem[s.queue_head]]), mem[s.lock := 1], tr))
  {
    assert p[k + 6] == SemPost(s, t0, t1, id)[6];
    One(p, Config(Frame(k + 6, regs[t0 := mem[s.queue_head]][t1 := mem[s.queue_tail]]), mem[s.lock := 1], tr),
        Config(Frame(k + 7, regs[t0 := mem[s.queue_head]][t1 := mem[s.queue_tail] - mem[s.queue_head]]), mem[s.lock := 1], tr));
  }

  lemma PostAt7Wake(p: seq<Instr>, k: nat, s: Semaphore, t0: Reg, t1: Reg, id: int, regs: Regs, mem: Memory, tr: seq<Signal>)
    requires t0 != t1 && Distinct(s) && mem[s.lock] == 0 && mem[s.queue_tail] != mem[s.queue_head]
    requires At(p, k, SemPost(s, t0, t1, id))
    ensures Goes(Exec(p), Config(Frame(k + 7, regs[t0 := mem[s.queue_head]][t1 := mem[s.queue_tail] - mem[s.queue_head]]), mem[s.lock := 1], tr), 1,
                 Config(Frame(k + 8, regs[t0 := mem[s.queue_head]][t1 := mem[s.queue_tail] - mem[s.queue_head]]), mem[s.lock := 1], tr))
  {
    assert p[k + 7] == SemPost(s, t0, t1, id)[7];
    One(p, Config(Frame(k + 7, regs[t0 := mem[s.queue_head]][t1 := mem[s.queue_tail] - mem[s.queue_head]]), mem[s.lock := 1], tr),
        Config(Frame(k + 8, regs[t0 := mem[s.queue_head]][t1 := mem[s.queue_tail] - mem[s.queue_head]]), mem[s.lock := 1], tr));
  }

  lemma PostAt8Wake(p: seq<Instr>, k: nat, s: Semaphore, t0: Reg, t1: Reg, id: int, regs: Regs, mem: Memory, tr: seq<Signal>)
    requires t0 != t1 && Distinct(s) && mem[s.lock] == 0 && mem[s.queue_tail] != mem[s.queue_head]
    requires At(p, k, SemPost(s, t0, t1, id))
    ensures Goes(Exec(p), Config(Frame(k + 8, regs[t0 := mem[s.queue_head]][t1 := mem[s.queue_tail] - mem[s.queue_head]]), mem[s.lock := 1], tr), 1,
                 Config(Frame(k + 9, regs[t0 := mem[s.queue_head]][t1 := mem[s.queue_tail] - mem[s.queue_head]]), mem[s.lock := 1], tr))
  {
    assert p[k + 8] == SemPost(s, t0, t1, id)[8];
    One(p, Config(Frame(k + 8, regs[t0 := mem[s.queue_head]][t1 := mem[s.queue_tail] - mem[s.queue_head]]), mem[s.lock := 1], tr),
        Config(Frame(k + 9, regs[t0 := mem[s.queue_head]][t1 := mem[s.queue_tail] - mem[s.queue_head]]), mem[s.lock := 1], tr));
  }

  lemma PostAt9Wake(p: seq<Instr>, k: nat, s: Semaphore, t0: Reg, t1: Reg, id: int, regs: Regs, mem: Memory, tr: seq<Signal>)
    requires t0 != t1 && Distinct(s) && mem[s.lock] == 0 && mem[s.queue_tail] != mem[s.queue_head] && 0 <= mem[s.queue_head] < MEM_SIZE && mem[s.queue_head] != s.lock
    requires At(p, k, SemPost(s, t0, t1, id))
    ensures Goes(Exec(p), Config(Frame(k + 9, regs[t0 := mem[s.queue_head]][t1 := mem[s.queue_tail] - mem[s.queue_head]]), mem[s.lock := 1], tr), 1,
                 Config(Frame(k + 10, regs[t0 := mem[s.queue_head]][t1 := mem[mem[s.queue_head]]]), mem[s.lock := 1], tr))
  {
    assert p[k + 9] == SemPost(s, t0, t1, id)[9];
    One(p, Config(Frame(k + 9, regs[t0 := mem[s.queue_head]][t1 := mem[s.queue_tail] - mem[s.queue_head]]), mem[s.lock := 1], tr),
        Config(Frame(k + 10, regs[t0 := mem[s.queue_head]][t1 := mem[mem[s.queue_head]]]), mem[s.lock := 1], tr));
  }

  lemma PostAt10Wake(p: seq<Instr>, k: nat, s: Semaphore, t0: Reg, t1: Reg, id: int, regs: Regs, mem: Memory, tr: seq<Signal>)
    requires t0 != t1 && Distinct(s) && mem[s.lock] == 0 && mem[s.queue_tail] != mem[s.queue_head] && 0 <= mem[s.queue_head] < MEM_SIZE && mem[s.queue_head] != s.lock
    requires At(p, k, SemPost(s, t0, t1, id))
    ensures Goes(Exec(p), Config(Frame(k + 10, regs[t0 := mem[s.queue_head]][t1 := mem[mem[s.queue_head]]]), mem[s.lock := 1], tr), 1,
                 Config(Frame(k + 11, regs[t0 := mem[s.queue_head] + 1][t1 := mem[mem[s.queue_head]]]), mem[s.lock := 1], tr))
  {
    assert p[k + 10] == SemPost(s, t0, t1, id)[10];
    One(p, Config(Frame(k + 10, regs[t0 := mem[s.queue_head]][t1 := mem[mem[s.queue_head]]]), mem[s.lock := 1], tr),
        Config(Frame(k + 11, regs[t0 := mem[s.queue_head] + 1][t1 := mem[mem[s.queue_head]]]), mem[s.lock := 1], tr));
  }

  lemma PostAt11Wake(p: seq<Instr>, k: nat, s: Semaphore, t0: Reg, t1: Reg, id: int, regs: Regs, mem: Memory, tr: seq<Signal>)
    requires t0 != t1 && Distinct(s) && mem[s.lock] == 0 && mem[s.queue_tail] != mem[s.queue_head] && 0 <= mem[s.queue_head] < MEM_SIZE && mem[s.queue_head] != s.lock
    requires At(p, k, SemPost(s, t0, t1, id))
    ensures Goes(Exec(p), Config(Frame(k + 11, regs[t0 := mem[s.queue_head] + 1][t1 := mem[mem[s.queue_head]]]), mem[s.lock := 1], tr), 1,
                 Config(Frame(k + 12, regs[t0 := mem[s.queue_head] + 1][t1 := mem[mem[s.queue_head]]]), mem[s.lock := 1][s.queue_head := mem[s.queue_head] + 1], tr))
  {
    assert p[k + 11] == SemPost(s, t0, t1, id)[11];
    One(p, Config(Frame(k + 11, regs[t0 := mem[s.queue_head] + 1][t1 := mem[mem[s.queue_head]]]), mem[s.lock := 1], tr),
        Config(Frame(k + 12, regs[t0 := mem[s.queue_head] + 1][t1 := mem[mem[s.queue_head]]]), mem[s.lock := 1][s.queue_head := mem[s.queue_head] + 1], tr));
  }

  lemma PostAt12Wake(p: seq<Instr>, k: nat, s: Semaphore, t0: Reg, t1: Reg, id: int, regs: Regs, mem: Memory, tr: seq<Signal>)
    requires t0 != t1 && Distinct(s) && mem[s.lock] == 0 && mem[s.queue_tail] != mem[s.queue_head] && 0 <= mem[s.queue_head] < MEM_SIZE && mem[s.queue_head] != s.lock
    requires At(p, k, SemPost(s, t0, t1, id))
    ensures Goes(Exec(p), Config(Frame(k + 12, regs[t0 := mem[s.queue_head] + 1][t1 := mem[mem[s.queue_head]]]), mem[s.lock := 1][s.queue_head := mem[s.queue_head] + 1], tr), 1,
                 Config(Frame(k + 13, regs[t0 := 0][t1 := mem[mem[s.queue_head]]]), mem[s.lock := 1][s.queue_head := mem[s.queue_head] + 1], tr))
  {
    assert p[k + 12] == SemPost(s, t0, t1, id)[12];
    One(p, Config(Frame(k + 12, regs[t0 := mem[s.queue_head] + 1][t1 := mem[mem[s.queue_head]]]), mem[s.lock := 1][s.queue_head := mem[s.queue_head] + 1], tr),
        Config(Frame(k + 13, regs[t0 := 0][t1 := mem[mem[s.queue_head]]]), mem[s.lock := 1][s.queue_head := mem[s.queue_head] + 1], tr));
  }

  lemma PostAt13Wake(p: seq<Instr>, k: nat, s: Semaphore, t0: Reg, t1: Reg, id: int, regs: Regs, mem: Memory, tr: seq<Signal>)
    requires t0 != t1 && Distinct(s) && mem[s.lock] == 0 && mem[s.queue_tail] != mem[s.queue_head] && 0 <= mem[s.queue_head] < MEM_SIZE && mem[s.queue_head] != s.lock
    requires At(p, k, SemPost(s, t0, t1, id))
    ensures Goes(Exec(p), Config(Frame(k + 13, regs[t0 := 0][t1 := mem[mem[s.queue_head]]]), mem[s.lock := 1][s.queue_head := mem[s.queue_head] + 1], tr), 1,
                 Config(Frame(k + 14, regs[t0 := 0][t1 := mem[mem[s.queue_head]]]), Popped(Waiters(s), mem), tr))
  {
    assert p[k + 13] == SemPost(s, t0, t1, id)[13];
    One(p, Config(Frame(k + 13, regs[t0 := 0][t1 := mem[mem[s.queue_head]]]), mem[s.lock := 1][s.queue_head := mem[s.queue_head] + 1], tr),
        Config(Frame(k + 14, regs[t0 := 0][t1 := mem[mem[s.queue_head]]]), Popped(Waiters(s), mem), tr));
  }

  lemma PostAt14Wake(p: seq<Instr>, k: nat, s: Semaphore, t0: Reg, t1: Reg, id: int, regs: Regs, mem: Memory, tr: seq<Signal>)
    requires t0 != t1 && Distinct(s) && mem[s.lock] == 0 && mem[s.queue_tail] != mem[s.queue_head] && 0 <= mem[s.queue_head] < MEM_SIZE && mem[s.queue_head] != s.lock
    requires At(p, k, SemPost(s, t0, t1, id))
    ensures Goes(Exec(p), Config(Frame(k + 14, regs[t0 := 0][t1 := mem[mem[s.queue_head]]]), Popped(Waiters(s), mem), tr), 1,
                 Config(Frame(k + 15, regs[t0 := 0][t1 := mem[mem[s.queue_head]]]), Popped(Waiters(s), mem), tr + [Wake(mem[mem[s.queue_head]])]))
  {
    assert p[k + 14] == SemPost(s, t0, t1, id)[14];
    One(p, Config(Frame(k + 14, regs[t0 := 0][t1 := mem[mem[s.queue_head]]]), Popped(Waiters(s), mem), tr),
        Config(Frame(k + 15, regs[t0 := 0][t1 := mem[mem[s.queue_head]]]), Popped(Waiters(s), mem), tr + [Wake(mem[mem[s.queue_head]])]));
  }

  lemma {:induction false} PostAt15Wake(p: seq<Instr>, k: nat, s: Semaphore, t0: Reg, t1: Reg, id: int, regs: Regs, mem: Memory, tr: seq<Signal>)
    requires t0 != t1 && Distinct(s) && Find(p, PostEmpty(id)) == Some(k + 16) && Find(p, PostEnd(id)) == Some(k + 22) && mem[s.lock] == 0 && mem[s.queue_tail] != mem[s.queue_head] && 0 <= mem[s.queue_head] < MEM_SIZE && mem[s.queue_head] != s.lock
    requires At(p, k, SemPost(s, t0, t1, id))
    ensures Goes(Exec(p), Config(Frame(k + 15, regs[t0 := 0][t1 := mem[mem[s.queue_head]]]), Popped(Waiters(s), mem), tr + [Wake(mem[mem[s.queue_head]])]), 1,
                 Config(Frame(k + 22, regs[t0 := 0][t1 := mem[mem[s.queue_head]]]), Popped(Waiters(s), mem), tr + [Wake(mem[mem[s.queue_head]])]))
  {
    assert p[k + 15] == SemPost(s, t0, t1, id)[15];
    One(p, Config(Frame(k + 15, regs[t0 := 0][t1 := mem[mem[s.queue_head]]]), Popped(Waiters(s), mem), tr + [Wake(mem[mem[s.queue_head]])]),
        Config(Frame(k + 22, regs[t0 := 0][t1 := mem[mem[s.queue_head]]]), Popped(Waiters(s), mem), tr + [Wake(mem[mem[s.queue_head]])]));
  }

  lemma PostAt22Wake(p: seq<Instr>, k: nat, s: Semaphore, t0: Reg, t1: Reg, id: int, regs: Regs, mem: Memory, tr: seq<Signal>)
    requires t0 != t1 && Distinct(s) && mem[s.lock] == 0 && mem[s.queue_tail] != mem[s.queue_head] && 0 <= mem[s.queue_head] < MEM_SIZE && mem[s.queue_head] != s.lock
    requires At(p, k, SemPost(s, t0, t1, id))
    ensures Goes(Exec(p), Config(Frame(k + 22, regs[t0 := 0][t1 := mem[mem[s.queue_head]]]), Popped(Waiters(s), mem), tr + [Wake(mem[mem[s.queue_head]])]), 1,
                 Config(Frame(k + 23, regs[t0 := 0][t1 := mem[mem[s.queue_head]]]), Popped(Waiters(s), mem), tr + [Wake(mem[mem[s.queue_head]])]))
  {
    assert p[k + 22] == SemPost(s, t0, t1, id)[22];
    One(p, Config(Frame(k + 22, regs[t0 := 0][t1 := mem[mem[s.queue_head]]]), Popped(Waiters(s), mem), tr + [Wake(mem[mem[s.queue_head]])]),
        Config(Frame(k + 23, regs[t0 := 0][t1 := mem[mem[s.queue_head]]]), Popped(Waiters(s), mem), tr + [Wake(mem[mem[s.queue_head]])]));
  }

  lemma {:induction false} PostAt7Empty(p: seq<Instr>, k: nat, s: Semaphore, t0: Reg, t1: Reg, id: int, regs: Regs, mem: Memory, tr: seq<Signal>)
    requires t0 != t1 && Distinct(s) && Find(p, PostEmpty(id)) == Some(k + 16) && Find(p, PostEnd(id)) == Some(k + 22) && mem[s.lock] == 0 && mem[s.queue_tail] == mem[s.queue_head]
    requires At(p, k, SemPost(s, t0, t1, id))
    ensures Goes(Exec(p), Config(Frame(k + 7, regs[t0 := mem[s.queue_head]][t1 := mem[s.queue_tail] - mem[s.queue_head]]), mem[s.lock := 1], tr), 1,
                 Config(Frame(k + 16, regs[t0 := mem[s.queue_head]][t1 := 0]), mem[s.lock := 1], tr))
  {
    assert p[k + 7] == SemPost(s, t0, t1, id)[7];
    One(p, Config(Frame(k + 7, regs[t0 := mem[s.queue_head]][t1 := mem[s.queue_tail] - mem[s.queue_head]]), mem[s.lock := 1], tr),
        Config(Frame(k + 16, regs[t0 := mem[s.queue_head]][t1 := 0]), mem[s.lock := 1], tr));
  }

  lemma PostAt16Empty(p: seq<Instr>, k: nat, s: Semaphore, t0: Reg, t1: Reg, id: int, regs: Regs, mem: Memory, tr: seq<Signal>)
    requires t0 != t1 && Distinct(s) && mem[s.lock] == 0 && mem[s.queue_tail] == mem[s.queue_head]
    requires At(p, k, SemPost(s, t0, t1, id))
    ensures Goes(Exec(p), Config(Frame(k + 16, regs[t0 := mem[s.queue_head]][t1 := 0]), mem[s.lock := 1], tr), 1,
                 Config(Frame(k + 17, regs[t0 := mem[s.queue_head]][t1 := 0]), mem[s.lock := 1], tr))
  {
    assert p[k + 16] == SemPost(s, t0, t1, id)[16];
    One(p, Config(Frame(k + 16, regs[t0 := mem[s.queue_head]][t1 := 0]), mem[s.lock := 1], tr),
        Config(Frame(k + 17, regs[t0 := mem[s.queue_head]][t1 := 0]), mem[s.lock := 1], tr));
  }

  lemma PostAt17Empty(p: seq<Instr>, k: nat, s: Semaphore, t0: Reg, t1: Reg, id: int, regs: Regs, mem: Memory, tr: seq<Signal>)
    requires t0 != t1 && Distinct(s) && mem[s.lock] == 0 && mem[s.queue_tail] == mem[s.queue_head]
    requires At(p, k, SemPost(s, t0, t1, id))
    ensures Goes(Exec(p), Config(Frame(k + 17, regs[t0 := mem[s.queue_head]][t1 := 0]), mem[s.lock := 1], tr), 1,
                 Config(Frame(k + 18, regs[t0 := mem[s.val]][t1 := 0]), mem[s.lock := 1], tr))
  {
    assert p[k + 17] == SemPost(s, t0, t1, id)[17];
    One(p, Config(Frame(k + 17, regs[t0 := mem[s.queue_head]][t1 := 0]), mem[s.lock := 1], tr),
        Config(Frame(k + 18, regs[t0 := mem[s.val]][t1 := 0]), mem[s.lock := 1], tr));
  }

  lemma PostAt18Empty(p: seq<Instr>, k: nat, s: Semaphore, t0: Reg, t1: Reg, id: int, regs: Regs, mem: Memory, tr: seq<Signal>)
    requires t0 != t1 && Distinct(s) && mem[s.lock] == 0 && mem[s.queue_tail] == mem[s.queue_head]
    requires At(p, k, SemPost(s, t0, t1, id))
    ensures Goes(Exec(p), Config(Frame(k + 18, regs[t0 := mem[s.val]][t1 := 0]), mem[s.lock := 1], tr), 1,
                 Config(Frame(k + 19, regs[t0 := mem[s.val] + 1][t1 := 0]), mem[s.lock := 1], tr))
  {
    assert p[k + 18] == SemPost(s, t0, t1, id)[18];
    One(p, Config(Frame(k + 18, regs[t0 := mem[s.val]][t1 := 0]), mem[s.lock := 1], tr),
        Config(Frame(k + 19, regs[t0 := mem[s.val] + 1][t1 := 0]), mem[s.lock := 1], tr));
  }

  lemma PostAt19Empty(p: seq<Instr>, k: nat, s: Semaphore, t0: Reg, t1: Reg, id: int, regs: Regs, mem: Memory, tr: seq<Signal>)
    requires t0 != t1 && Distinct(s) && mem[s.lock] == 0 && mem[s.queue_tail] == mem[s.queue_head]
    requires At(p, k, SemPost(s, t0, t1, id))
    ensures Goes(Exec(p), Config(Frame(k + 19, regs[t0 := mem[s.val] + 1][t1 := 0]), mem[s.lock := 1], tr), 1,
                 Config(Frame(k + 20, regs[t0 := mem[s.val] + 1][t1 := 0]), mem[s.lock := 1][s.val := mem[s.val] + 1], tr))
  {
    assert p[k + 19] == SemPost(s, t0, t1, id)[19];
    One(p, Config(Frame(k + 19, regs[t0 := mem[s.val] + 1][t1 := 0]), mem[s.lock := 1], tr),
        Config(Frame(k + 20, regs[t0 := mem[s.val] + 1][t1 := 0]), mem[s.lock := 1][s.val := mem[s.val] + 1], tr));
  }

  lemma PostAt20Empty(p: seq<Instr>, k: nat, s: Semaphore, t0: Reg, t1: Reg, id: int, regs: Regs, mem: Memory, tr: seq<Signal>)
    requires t0 != t1 && Distinct(s) && mem[s.lock] == 0 && mem[s.queue_tail] == mem[s.queue_head]
    requires At(p, k, SemPost(s, t0, t1, id))
    ensures Goes(Exec(p), Config(Frame(k + 20, regs[t0 := mem[s.val] + 1][t1 := 0]), mem[s.lock := 1][s.val := mem[s.val] + 1], tr), 1,
                 Config(Frame(k + 21, regs[t0 := 0][t1 := 0]), mem[s.lock := 1][s.val := mem[s.val] + 1], tr))
  {
    assert p[k + 20] == SemPost(s, t0, t1, id)[20];
    One(p, Config(Frame(k + 20, regs[t0 := mem[s.val] + 1][t1 := 0]), mem[s.lock := 1][s.val := mem[s.val] + 1], tr),
        Config(Frame(k + 21, regs[t0 := 0][t1 := 0]), mem[s.lock := 1][s.val := mem[s.val] + 1], tr));
  }

  lemma PostAt21Empty(p: seq<Instr>, k: nat, s: Semaphore, t0: Reg, t1: Reg, id: int, regs: Regs, mem: Memory, tr: seq<Signal>)
    requires t0 != t1 && Distinct(s) && mem[s.lock] == 0 && mem[s.queue_tail] == mem[s.queue_head]
    requires At(p, k, SemPost(s, t0, t1, id))
    ensures Goes(Exec(p), Config(Frame(k + 21, regs[t0 := 0][t1 := 0]), mem[s.lock := 1][s.val := mem[s.val] + 1], tr), 1,
                 Config(Frame(k + 22, regs[t0 := 0][t1 := 0]), mem[s.val := mem[s.val] + 1], tr))
  {
    assert p[k + 21] == SemPost(s, t0, t1, id)[21];
    One(p, Config(Frame(k + 21, regs[t0 := 0][t1 := 0]), mem[s.lock := 1][s.val := mem[s.val] + 1], tr),
        Config(Frame(k + 22, regs[t0 := 0][t1 := 0]), mem[s.val := mem[s.val] + 1], tr));
  }

  lemma PostAt22Empty(p: seq<Instr>, k: nat, s: Semaphore, t0: Reg, t1: Reg, id: int, regs: Regs, mem: Memory, tr: seq<Signal>)
    requires t0 != t1 && Distinct(s) && mem[s.lock] == 0 && mem[s.queue_tail] == mem[s.queue_head]
    requires At(p, k, SemPost(s, t0, t1, id))
    ensures Goes(Exec(p), Config(Frame(k + 22, regs[t0 := 0][t1 := 0]), mem[s.val := mem[s.val] + 1], tr), 1,
                 Config(Frame(k + 23, regs[t0 := 0][t1 := 0]), mem[s.val := mem[s.val] + 1], tr))
  {
    assert p[k + 22] == SemPost(s, t0, t1, id)[22];
    One(p, Config(Frame(k + 22, regs[t0 := 0][t1 := 0]), mem[s.val := mem[s.val] + 1], tr),
        Config(Frame(k + 23, regs[t0 := 0][t1 := 0]), mem[s.val := mem[s.val] + 1], tr));
  }

  /** While the internal lock is taken the posting thread yields and comes back to the `cas`. */
  lemma SemPostSpins(p: seq<Instr>, k: nat, s: Semaphore, t0: Reg, t1: Reg, id: int, regs: Regs, mem: Memory, tr: seq<Signal>)
    requires t0 != t1 && Distinct(s) && mem[s.lock] != 0
    requires At(p, k, SemPost(s, t0, t1, id))
    ensures Goes(Exec(p), Config(Frame(k, regs), mem, tr), 4,
                 Config(Frame(k, regs[t0 := mem[s.lock]]), mem, tr + [Yield]))
  {
    PostAt0Busy(p, k, s, t0, t1, id, regs, mem, tr);
    PostAt1Busy(p, k, s, t0, t1, id, regs, mem, tr);
    PostAt2Busy(p, k, s, t0, t1, id, regs, mem, tr);
    PostAt3Busy(p, k, s, t0, t1, id, regs, mem, tr);
    ThenTo(Exec(p), Config(Frame(k, regs), mem, tr), 1,
         Config(Frame(k + 1, regs[t0 := mem[s.lock]]), mem, tr), 1,
         Config(Frame(k + 2, regs[t0 := mem[s.lock]]), mem, tr), 2);
    ThenTo(Exec(p), Config(Frame(k, regs), mem, tr), 2,
         Config(Frame(k + 2, regs[t0 := mem[s.lock]]), mem, tr), 1,
         Config(Frame(k + 3, regs[t0 := mem[s.lock]]), mem, tr + [Yield]), 3);
    ThenTo(Exec(p), Config(Frame(k, regs), mem, tr), 3,
         Config(Frame(k + 3, regs[t0 := mem[s.lock]]), mem, tr + [Yield]), 1,
         Config(Frame(k, regs[t0 := mem[s.lock]]), mem, tr + [Yield]), 4);
  }

  lemma {:induction false} PostWakePart1(p: seq<Instr>, k: nat, s: Semaphore, t0: Reg, t1: Reg, id: int, regs: Regs, mem: Memory, tr: seq<Signal>)
    requires t0 != t1 && Distinct(s) && Find(p, PostEmpty(id)) == Some(k + 16) && Find(p, PostEnd(id)) == Some(k + 22) && mem[s.lock] == 0 && mem[s.queue_tail] != mem[s.queue_head] && 0 <= mem[s.queue_head] < MEM_SIZE && mem[s.queue_head] != s.lock
    requires At(p, k, SemPost(s, t0, t1, id))
    ensures Goes(Exec(p), Config(Frame(k, regs), mem, tr), 7,
                 Config(Frame(k + 9, regs[t0 := mem[s.queue_head]][t1 := mem[s.queue_tail] - mem[s.queue_head]]), mem[s.lock := 1], tr))
  {
    PostAt0(p, k, s, t0, t1, id, regs, mem, tr);
    PostAt1(p, k, s, t0, t1, id, regs, mem, tr);
    PostAt4(p, k, s, t0, t1, id, regs, mem, tr);
    PostAt5(p, k, s, t0, t1, id, regs, mem, tr);
    PostAt6(p, k, s, t0, t1, id, regs, mem, tr);
    PostAt7Wake(p, k, s, t0, t1, id, regs, mem, tr);
    PostAt8Wake(p, k, s, t0, t1, id, regs, mem, tr);
    ThenTo(Exec(p), Config(Frame(k, regs), mem, tr), 1,
         Config(Frame(k + 1, regs[t0 := 0]), mem[s.lock := 1], tr), 1,
         Config(Frame(k + 4, regs[t0 := 0]), mem[s.lock := 1], tr), 2);
    ThenTo(Exec(p), Config(Frame(k, regs), mem, tr), 2,
         Config(Frame(k + 4, regs[t0 := 0]), mem[s.lock := 1], tr), 1,
         Config(Frame(k + 5, regs[t0 := mem[s.queue_head]]), mem[s.lock := 1], tr), 3);
    ThenTo(Exec(p), Config(Frame(k, regs), mem, tr), 3,
         Config(Frame(k + 5, regs[t0 := mem[s.queue_head]]), mem[s.lock := 1], tr), 1,
         Config(Frame(k + 6, regs[t0 := mem[s.queue_head]][t1 := mem[s.queue_tail]]), mem[s.lock := 1], tr), 4);
    ThenTo(Exec(p), Config(Frame(k, regs), mem, tr), 4,
         Config(Frame(k + 6, regs[t0 := mem[s.queue_head]][t1 := mem[s.queue_tail]]), mem[s.lock := 1], tr), 1,
         Config(Frame(k + 7, regs[t0 := mem[s.queue_head]][t1 := mem[s.queue_tail] - mem[s.queue_head]]), mem[s.lock := 1], tr), 5);
    ThenTo(Exec(p), Config(Frame(k, regs), mem, tr), 5,
         Config(Frame(k + 7, regs[t0 := mem[s.queue_head]][t1 := mem[s.queue_tail] - mem[s.queue_head]]), mem[s.lock := 1], tr), 1,
         Config(Frame(k + 8, regs[t0 := mem[s.queue_head]][t1 := mem[s.queue_tail] - mem[s.queue_head]]), mem[s.lock := 1], tr), 6);
    ThenTo(Exec(p), Config(Frame(k, regs), mem, tr), 6,
         Config(Frame(k + 8, regs[t0 := mem[s.queue_head]][t1 := mem[s.queue_tail] - mem[s.queue_head]]), mem[s.lock := 1], tr), 1,
         Config(Frame(k + 9, regs[t0 := mem[s.queue_head]][t1 := mem[s.queue_tail] - mem[s.queue_head]]), mem[s.lock := 1], tr), 7);
  }

  lemma {:induction false} PostWakePart2(p: seq<Instr>, k: nat, s: Semaphore, t0: Reg, t1: Reg, id: int, regs: Regs, mem: Memory, tr: seq<Signal>)
    requires t0 != t1 && Distinct(s) && Find(p, PostEmpty(id)) == Some(k + 16) && Find(p, PostEnd(id)) == Some(k + 22) && mem[s.lock] == 0 && mem[s.queue_tail] != mem[s.queue_head] && 0 <= mem[s.queue_head] < MEM_SIZE && mem[s.queue_head] != s.lock
    requires At(p, k, SemPost(s, t0, t1, id))
    ensures Goes(Exec(p), Config(Frame(k + 9, regs[t0 := mem[s.queue_head]][t1 := mem[s.queue_tail] - mem[s.queue_head]]), mem[s.lock := 1], tr), 5,
                 Config(Frame(k + 14, regs[t0 := 0][t1 := mem[mem[s.queue_head]]]), Popped(Waiters(s), mem), tr))
  {
    PostAt9Wake(p, k, s, t0, t1, id, regs, mem, tr);
    PostAt10Wake(p, k, s, t0, t1, id, regs, mem, tr);
    PostAt11Wake(p, k, s, t0, t1, id, regs, mem, tr);
    PostAt12Wake(p, k, s, t0, t1, id, regs, mem, tr);
    PostAt13Wake(p, k, s, t0, t1, id, regs, mem, tr);
    ThenTo(Exec(p), Config(Frame(k + 9, regs[t0 := mem[s.queue_head]][t1 := mem[s.queue_tail] - mem[s.queue_head]]), mem[s.lock := 1], tr), 1,
         Config(Frame(k + 10, regs[t0 := mem[s.queue_head]][t1 := mem[mem[s.queue_head]]]), mem[s.lock := 1], tr), 1,
         Config(Frame(k + 11, regs[t0 := mem[s.queue_head] + 1][t1 := mem[mem[s.queue_head]]]), mem[s.lock := 1], tr), 2);
    ThenTo(Exec(p), Config(Frame(k + 9, regs[t0 := mem[s.queue_head]][t1 := mem[s.queue_tail] - mem[s.queue_head]]), mem[s.lock := 1], tr), 2,
         Config(Frame(k + 11, regs[t0 := mem[s.queue_head] + 1][t1 := mem[mem[s.queue_head]]]), mem[s.lock := 1], tr), 1,
         Config(Frame(k + 12, regs[t0 := mem[s.queue_head] + 1][t1 := mem[mem[s.queue_head]]]), mem[s.lock := 1][s.queue_head := mem[s.queue_head] + 1], tr), 3);
    ThenTo(Exec(p), Config(Frame(k + 9, regs[t0 := mem[s.queue_head]][t1 := mem[s.queue_tail] - mem[s.queue_head]]), mem[s.lock := 1], tr), 3,
         Config(Frame(k + 12, regs[t0 := mem[s.queue_head] + 1][t1 := mem[mem[s.queue_head]]]), mem[s.lock := 1][s.queue_head := mem[s.queue_head] + 1], tr), 1,
         Config(Frame(k + 13, regs[t0 := 0][t1 := mem[mem[s.queue_head]]]), mem[s.lock := 1][s.queue_head := mem[s.queue_head] + 1], tr), 4);
    ThenTo(Exec(p), Config(Frame(k + 9, regs[t0 := mem[s.queue_head]][t1 := mem[s.queue_tail] - mem[s.queue_head]]), mem[s.lock := 1], tr), 4,
         Config(Frame(k + 13, regs[t0 := 0][t1 := mem[mem[s.queue_head]]]), mem[s.lock := 1][s.queue_head := mem[s.queue_head] + 1], tr), 1,
         Config(Frame(k + 14, regs[t0 := 0][t1 := mem[mem[s.queue_head]]]), Popped(Waiters(s), mem), tr), 5);
  }

  /** Handover up to the `pst`: with waiters, the head id is loaded into `t1` and the head bumped; `val` is not incremented, and the memory is the queue popped, so the internal lock is 0 when `pst t1` runs next. */
  lemma {:induction false} SemPostHandsOver(p: seq<Instr>, k: nat, s: Semaphore, t0: Reg, t1: Reg, id: int, regs: Regs, mem: Memory, tr: seq<Signal>)
    requires t0 != t1 && Distinct(s) && Find(p, PostEmpty(id)) == Some(k + 16) && Find(p, PostEnd(id)) == Some(k + 22) && mem[s.lock] == 0 && mem[s.queue_tail] != mem[s.queue_head] && 0 <= mem[s.queue_head] < MEM_SIZE && mem[s.queue_head] != s.lock
    requires At(p, k, SemPost(s, t0, t1, id))
    ensures Goes(Exec(p), Config(Frame(k, regs), mem, tr), 12,
                 Config(Frame(k + 14, regs[t0 := 0][t1 := mem[mem[s.queue_head]]]), Popped(Waiters(s), mem), tr))
  {
    PostWakePart1(p, k, s, t0, t1, id, regs, mem, tr);
    PostWakePart2(p, k, s, t0, t1, id, regs, mem, tr);
    ThenTo(Exec(p), Config(Frame(k, regs), mem, tr), 7,
         Config(Frame(k + 9, regs[t0 := mem[s.queue_head]][t1 := mem[s.queue_tail] - mem[s.queue_head]]), mem[s.lock := 1], tr), 5,
         Config(Frame(k + 14, regs[t0 := 0][t1 := mem[mem[s.queue_head]]]), Popped(Waiters(s), mem), tr), 12);
  }

  /** Handover from the `pst`: it reports a wake-up of the id taken from the queue, and the fragment ends. */
  lemma {:induction false} SemPostWakes(p: seq<Instr>, k: nat, s: Semaphore, t0: Reg, t1: Reg, id: int, regs: Regs, mem: Memory, tr: seq<Signal>)
    requires t0 != t1 && Distinct(s) && Find(p, PostEmpty(id)) == Some(k + 16) && Find(p, PostEnd(id)) == Some(k + 22) && mem[s.lock] == 0 && mem[s.queue_tail] != mem[s.queue_head] && 0 <= mem[s.queue_head] < MEM_SIZE && mem[s.queue_head] != s.lock
    requires At(p, k, SemPost(s, t0, t1, id))
    ensures Goes(Exec(p), Config(Frame(k + 14, regs[t0 := 0][t1 := mem[mem[s.queue_head]]]), Popped(Waiters(s), mem), tr), 3,
                 Config(Frame(k + 23, regs[t0 := 0][t1 := mem[mem[s.queue_head]]]), Popped(Waiters(s), mem), tr + [Wake(mem[mem[s.queue_head]])]))
  {
    PostAt14Wake(p, k, s, t0, t1, id, regs, mem, tr);
    PostAt15Wake(p, k, s, t0, t1, id, regs, mem, tr);
    PostAt22Wake(p, k, s, t0, t1, id, regs, mem, tr);
    ThenTo(Exec(p), Config(Frame(k + 14, regs[t0 := 0][t1 := mem[mem[s.queue_head]]]), Popped(Waiters(s), mem), tr), 1,
         Config(Frame(k + 15, regs[t0 := 0][t1 := mem[mem[s.queue_head]]]), Popped(Waiters(s), mem), tr + [Wake(mem[mem[s.queue_head]])]), 1,
         Config(Frame(k + 22, regs[t0 := 0][t1 := mem[mem[s.queue_head]]]), Popped(Waiters(s), mem), tr + [Wake(mem[mem[s.queue_head]])]), 2);
    ThenTo(Exec(p), Config(Frame(k + 14, regs[t0 := 0][t1 := mem[mem[s.queue_head]]]), Popped(Waiters(s), mem), tr), 2,
         Config(Frame(k + 22, regs[t0 := 0][t1 := mem[mem[s.queue_head]]]), Popped(Waiters(s), mem), tr + [Wake(mem[mem[s.queue_head]])]), 1,
         Config(Frame(k + 23, regs[t0 := 0][t1 := mem[mem[s.queue_head]]]), Popped(Waiters(s), mem), tr + [Wake(mem[mem[s.queue_head]])]), 3);
  }

  lemma {:induction false} PostFreePart1(p: seq<Instr>, k: nat, s: Semaphore, t0: Reg, t1: Reg, id: int, regs: Regs, mem: Memory, tr: seq<Signal>)
    requires t0 != t1 && Distinct(s) && Find(p, PostEmpty(id)) == Some(k + 16) && Find(p, PostEnd(id)) == Some(k + 22) && mem[s.lock] == 0 && mem[s.queue_tail] == mem[s.queue_head]
    requires At(p, k, SemPost(s, t0, t1, id))
    ensures Goes(Exec(p), Config(Frame(k, regs), mem, tr), 7,
                 Config(Frame(k + 17, regs[t0 := mem[s.queue_head]][t1 := 0]), mem[s.lock := 1], tr))
  {
    PostAt0(p, k, s, t0, t1, id, regs, mem, tr);
    PostAt1(p, k, s, t0, t1, id, regs, mem, tr);
    PostAt4(p, k, s, t0, t1, id, regs, mem, tr);
    PostAt5(p, k, s, t0, t1, id, regs, mem, tr);
    PostAt6(p, k, s, t0, t1, id, regs, mem, tr);
    PostAt7Empty(p, k, s, t0, t1, id, regs, mem, tr);
    PostAt16Empty(p, k, s, t0, t1, id, regs, mem, tr);
    ThenTo(Exec(p), Config(Frame(k, regs), mem, tr), 1,
         Config(Frame(k + 1, regs[t0 := 0]), mem[s.lock := 1], tr), 1,
         Config(Frame(k + 4, regs[t0 := 0]), mem[s.lock := 1], tr), 2);
    ThenTo(Exec(p), Config(Frame(k, regs), mem, tr), 2,
         Config(Frame(k + 4, regs[t0 := 0]), mem[s.lock := 1], tr), 1,
         Config(Frame(k + 5, regs[t0 := mem[s.queue_head]]), mem[s.lock := 1], tr), 3);
    ThenTo(Exec(p), Config(Frame(k, regs), mem, tr), 3,
         Config(Frame(k + 5, regs[t0 := mem[s.queue_head]]), mem[s.lock := 1], tr), 1,
         Config(Frame(k + 6, regs[t0 := mem[s.queue_head]][t1 := mem[s.queue_tail]]), mem[s.lock := 1], tr), 4);
    ThenTo(Exec(p), Config(Frame(k, regs), mem, tr), 4,
         Config(Frame(k + 6, regs[t0 := mem[s.queue_head]][t1 := mem[s.queue_tail]]), mem[s.lock := 1], tr), 1,
         Config(Frame(k + 7, regs[t0 := mem[s.queue_head]][t1 := mem[s.queue_tail] - mem[s.queue_head]]), mem[s.lock := 1], tr), 5);
    ThenTo(Exec(p), Config(Frame(k, regs), mem, tr), 5,
         Config(Frame(k + 7, regs[t0 := mem[s.queue_head]][t1 := mem[s.queue_tail] - mem[s.queue_head]]), mem[s.lock := 1], tr), 1,
         Config(Frame(k + 16, regs[t0 := mem[s.queue_head]][t1 := 0]), mem[s.lock := 1], tr), 6);
    ThenTo(Exec(p), Config(Frame(k, regs), mem, tr), 6,
         Config(Frame(k + 16, regs[t0 := mem[s.queue_head]][t1 := 0]), mem[s.lock := 1], tr), 1,
         Config(Frame(k + 17, regs[t0 := mem[s.queue_head]][t1 := 0]), mem[s.lock := 1], tr), 7);
  }

  lemma {:induction false} PostFreePart2(p: seq<Instr>, k: nat, s: Semaphore, t0: Reg, t1: Reg, id: int, regs: Regs, mem: Memory, tr: seq<Signal>)
    requires t0 != t1 && Distinct(s) && Find(p, PostEmpty(id)) == Some(k + 16) && Find(p, PostEnd(id)) == Some(k + 22) && mem[s.lock] == 0 && mem[s.queue_tail] == mem[s.queue_head]
    requires At(p, k, SemPost(s, t0, t1, id))
    ensures Goes(Exec(p), Config(Frame(k + 17, regs[t0 := mem[s.queue_head]][t1 := 0]), mem[s.lock := 1], tr), 6,
                 Config(Frame(k + 23, regs[t0 := 0][t1 := 0]), mem[s.val := mem[s.val] + 1], tr))
  {
    PostAt17Empty(p, k, s, t0, t1, id, regs, mem, tr);
    PostAt18Empty(p, k, s, t0, t1, id, regs, mem, tr);
    PostAt19Empty(p, k, s, t0, t1, id, regs, mem, tr);
    PostAt20Empty(p, k, s, t0, t1, id, regs, mem, tr);
    PostAt21Empty(p, k, s, t0, t1, id, regs, mem, tr);
    PostAt22Empty(p, k, s, t0, t1, id, regs, mem, tr);
    ThenTo(Exec(p), Config(Frame(k + 17, regs[t0 := mem[s.queue_head]][t1 := 0]), mem[s.lock := 1], tr), 1,
         Config(Frame(k + 18, regs[t0 := mem[s.val]][t1 := 0]), mem[s.lock := 1], tr), 1,
         Config(Frame(k + 19, regs[t0 := mem[s.val] + 1][t1 := 0]), mem[s.lock := 1], tr), 2);
    ThenTo(Exec(p), Config(Frame(k + 17, regs[t0 := mem[s.queue_head]][t1 := 0]), mem[s.lock := 1], tr), 2,
         Config(Frame(k + 19, regs[t0 := mem[s.val] + 1][t1 := 0]), mem[s.lock := 1], tr), 1,
         Config(Frame(k + 20, regs[t0 := mem[s.val] + 1][t1 := 0]), mem[s.lock := 1][s.val := mem[s.val] + 1], tr), 3);
    ThenTo(Exec(p), Config(Frame(k + 17, regs[t0 := mem[s.queue_head]][t1 := 0]), mem[s.lock := 1], tr), 3,
         Config(Frame(k + 20, regs[t0 := mem[s.val] + 1][t1 := 0]), mem[s.lock := 1][s.val := mem[s.val] + 1], tr), 1,
         Config(Frame(k + 21, regs[t0 := 0][t1 := 0]), mem[s.lock := 1][s.val := mem[s.val] + 1], tr), 4);
    ThenTo(Exec(p), Config(Frame(k + 17, regs[t0 := mem[s.queue_head]][t1 := 0]), mem[s.lock := 1], tr), 4,
         Config(Frame(k + 21, regs[t0 := 0][t1 := 0]), mem[s.lock := 1][s.val := mem[s.val] + 1], tr), 1,
         Config(Frame(k + 22, regs[t0 := 0][t1 := 0]), mem[s.val := mem[s.val] + 1], tr), 5);
    ThenTo(Exec(p), Config(Frame(k + 17, regs[t0 := mem[s.queue_head]][t1 := 0]), mem[s.lock := 1], tr), 5,
         Config(Frame(k + 22, regs[t0 := 0][t1 := 0]), mem[s.val := mem[s.val] + 1], tr), 1,
         Config(Frame(k + 23, regs[t0 := 0][t1 := 0]), mem[s.val := mem[s.val] + 1], tr), 6);
  }

  /** No waiters: `val` goes up by one, the internal lock is 0 again, and no `pst` runs. */
  lemma {:induction false} SemPostCredits(p: seq<Instr>, k: nat, s: Semaphore, t0: Reg, t1: Reg, id: int, regs: Regs, mem: Memory, tr: seq<Signal>)
    requires t0 != t1 && Distinct(s) && Find(p, PostEmpty(id)) == Some(k + 16) && Find(p, PostEnd(id)) == Some(k + 22) && mem[s.lock] == 0 && mem[s.queue_tail] == mem[s.queue_head]
    requires At(p, k, SemPost(s, t0, t1, id))
    ensures Goes(Exec(p), Config(Frame(k, regs), mem, tr), 13,
                 Config(Frame(k + 23, regs[t0 := 0][t1 := 0]), mem[s.val := mem[s.val] + 1], tr))
  {
    PostFreePart1(p, k, s, t0, t1, id, regs, mem, tr);
    PostFreePart2(p, k, s, t0, t1, id, regs, mem, tr);
    ThenTo(Exec(p), Config(Frame(k, regs), mem, tr), 7,
         Config(Frame(k + 17, regs[t0 := mem[s.queue_head]][t1 := 0]), mem[s.lock := 1], tr), 6,
         Config(Frame(k + 23, regs[t0 := 0][t1 := 0]), mem[s.val := mem[s.val] + 1], tr), 13);
  }

  /** `sem_show` loads `val` into `t0`, prints it, and writes no memory. */
  lemma SemShowReads(p: seq<Instr>, k: nat, s: Semaphore, t0: Reg, regs: Regs, mem: Memory, tr: seq<Signal>)
    requires At(p, k, SemShow(s, t0))
    ensures Goes(Exec(p), Config(Frame(k, regs), mem, tr), 2, Config(Frame(k + 2, regs[t0 := mem[s.val]]), mem, tr))
  {
    var c0, c1 := Config(Frame(k, regs), mem, tr), Config(Frame(k + 1, regs[t0 := mem[s.val]]), mem, tr);
    assert p[k + 0] == SemShow(s, t0)[0] && p[k + 1] == SemShow(s, t0)[1];
    One(p, c0, c1);
    One(p, c1, Config(Frame(k + 2, regs[t0 := mem[s.val]]), mem, tr));
    ThenTo(Exec(p), c0, 1, c1, 1, Config(Frame(k + 2, regs[t0 := mem[s.val]]), mem, tr), 2);
  }

  /*
   * Conservation. `Credit` is `val` minus the number of waiters: each wait
   * lowers it by one and each post raises it by one, whichever path runs.
   */

  ghost function Credit(s: Semaphore, mem: Memory): int {
    mem[s.val] - (mem[s.queue_tail] - mem[s.queue_head])
  }

  /** The fast wait takes one credit. */
  lemma SemWaitFastCredit(s: Semaphore, mem: Memory)
    requires Distinct(s)
    ensures Credit(s, mem[s.val := mem[s.val] - 1]) == Credit(s, mem) - 1
  {
  }

  /** The slow wait adds a waiter and leaves `val`: one credit less, and the waiter is last in line. */
  lemma SemWaitSlowCredit(s: Semaphore, mem: Memory, tid: int)
    requires Distinct(s) && Valid(Waiters(s), mem, Cells(s))
    requires mem[s.queue_tail] + 1 < MEM_SIZE && mem[s.queue_tail] + 1 !in Cells(s)
    ensures Credit(s, Pushed(Waiters(s), mem, s.lock, tid)) == Credit(s, mem) - 1
    ensures Pushed(Waiters(s), mem, s.lock, tid)[s.val] == mem[s.val]
    ensures Valid(Waiters(s), Pushed(Waiters(s), mem, s.lock, tid), Cells(s))
    ensures Waiting(Waiters(s), Pushed(Waiters(s), mem, s.lock, tid)) == Waiting(Waiters(s), mem) + [tid]
  {
    PushAppends(Waiters(s), mem, Cells(s), s.lock, tid);
  }

  /** A post with waiters gives its credit to the oldest waiter, whom it removes; `val` stays. */
  lemma SemPostHandsCredit(s: Semaphore, mem: Memory)
    requires Distinct(s) && Valid(Waiters(s), mem, Cells(s)) && mem[s.queue_head] != mem[s.queue_tail]
    ensures Credit(s, Popped(Waiters(s), mem)) == Credit(s, mem) + 1
    ensures Popped(Waiters(s), mem)[s.val] == mem[s.val] && Popped(Waiters(s), mem)[s.lock] == mem[s.lock]
    ensures mem[mem[s.queue_head]] == Waiting(Waiters(s), mem)[0]
    ensures Valid(Waiters(s), Popped(Waiters(s), mem), Cells(s))
    ensures Waiting(Waiters(s), Popped(Waiters(s), mem)) == Waiting(Waiters(s), mem)[1..]
  {
    PopTakesFirst(Waiters(s), mem, Cells(s));
  }

  /** A post without waiters adds one credit to `val`. */
  lemma SemPostFreeCredit(s: Semaphore, mem: Memory)
    requires Distinct(s)
    ensures Credit(s, mem[s.val := mem[s.val] + 1]) == Credit(s, mem) + 1
  {
  }

  /** Where the labels of each fragment sit inside it. */
  lemma {:induction false} WaitLabelsAt(s: Semaphore, tid: int, t0: Reg, t1: Reg, id: int)
    ensures Find(SemWait(s, tid, t0, t1, id), WaitSlow(id)) == Some(11)
    ensures Find(SemWait(s, tid, t0, t1, id), WaitEnd(id)) == Some(20)
  {
    var q := SemWait(s, tid, t0, t1, id);
    forall j | 0 <= j < 20 ensures !q[j].Lab? || j == 11 {
    }
    FindAt(q, 11, WaitSlow(id));
    FindAt(q, 20, WaitEnd(id));
  }

  lemma {:induction false} PostLabelsAt(s: Semaphore, t0: Reg, t1: Reg, id: int)
    ensures Find(SemPost(s, t0, t1, id), PostEmpty(id)) == Some(16)
    ensures Find(SemPost(s, t0, t1, id), PostEnd(id)) == Some(22)
  {
    var u := SemPost(s, t0, t1, id);
    forall j | 0 <= j < 22 ensures !u[j].Lab? || j == 16 {
    }
    FindAt(u, 16, PostEmpty(id));
    FindAt(u, 22, PostEnd(id));
  }

  /** Every branch of `sem_wait` stays inside the fragment. */
  lemma SemWaitTargetsWithin(s: Semaphore, tid: int, t0: Reg, t1: Reg, id: int)
    ensures TargetsWithin(SemWait(s, tid, t0, t1, id))
  {
    var q := SemWait(s, tid, t0, t1, id);
    WaitLabelsAt(s, tid, t0, t1, id);
    forall i | 0 <= i < |q| && IsBranch(q[i])
      ensures match q[i].target
        case Abs(_) => false
        case Rel(o) => 0 <= i + o <= |q|
        case Named(l) => Find(q, l).Some?
    {
      assert i in {1, 3, 5, 10};
    }
  }

  /** Every branch of `sem_post` stays inside the fragment. */
  lemma SemPostTargetsWithin(s: Semaphore, t0: Reg, t1: Reg, id: int)
    ensures TargetsWithin(SemPost(s, t0, t1, id))
  {
    var u := SemPost(s, t0, t1, id);
    PostLabelsAt(s, t0, t1, id);
    forall i | 0 <= i < |u| && IsBranch(u[i])
      ensures match u[i].target
        case Abs(_) => false
        case Rel(o) => 0 <= i + o <= |u|
        case Named(l) => Find(u, l).Some?
    {
      assert i in {1, 3, 7, 15};
    }
  }

  /** After a prefix that defines none of its labels, `sem_wait`'s named branches reach its own `lab`s. */
  lemma {:induction false} SemWaitLabels(pre: seq<Instr>, post: seq<Instr>, s: Semaphore, tid: int, t0: Reg, t1: Reg, id: int)
    requires NoClash(pre, SemWait(s, tid, t0, t1, id))
    ensures Find(pre + SemWait(s, tid, t0, t1, id) + post, WaitSlow(id)) == Some(|pre| + 11)
    ensures Find(pre + SemWait(s, tid, t0, t1, id) + post, WaitEnd(id)) == Some(|pre| + 20)
  {
    var q := SemWait(s, tid, t0, t1, id);
    assert pre + q + post == pre + (q + post);
    assert IsBranch(q[5]) && q[5].target == Named(WaitSlow(id));
    assert IsBranch(q[10]) && q[10].target == Named(WaitEnd(id));
    WaitLabelsAt(s, tid, t0, t1, id);
    FindAppend(pre, q + post, WaitSlow(id));
    FindAppend(q, post, WaitSlow(id));
    FindAppend(pre, q + post, WaitEnd(id));
    FindAppend(q, post, WaitEnd(id));
  }

  /** The same for `sem_post`. */
  lemma {:induction false} SemPostLabels(pre: seq<Instr>, post: seq<Instr>, s: Semaphore, t0: Reg, t1: Reg, id: int)
    requires NoClash(pre, SemPost(s, t0, t1, id))
    ensures Find(pre + SemPost(s, t0, t1, id) + post, PostEmpty(id)) == Some(|pre| + 16)
    ensures Find(pre + SemPost(s, t0, t1, id) + post, PostEnd(id)) == Some(|pre| + 22)
  {
    var u := SemPost(s, t0, t1, id);
    assert pre + u + post == pre + (u + post);
    assert IsBranch(u[7]) && u[7].target == Named(PostEmpty(id));
    assert IsBranch(u[15]) && u[15].target == Named(PostEnd(id));
    PostLabelsAt(s, t0, t1, id);
    FindAppend(pre, u + post, PostEmpty(id));
    FindAppend(u, post, PostEmpty(id));
    FindAppend(pre, u + post, PostEnd(id));
    FindAppend(u, post, PostEnd(id));
  }
}
