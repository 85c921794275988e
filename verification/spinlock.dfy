/*
 * The spin-lock fragment generators (spinlock.js). A lock is one memory
 * cell, 0 when free; `t` is the scratch register the fragment may use.
 */
module SpinLocks {
  import opened Isa
  import opened Runs

  /** Test-and-set until the old value was 0. */
  function SpinLock(lock: Addr, t: Reg): seq<Instr> {
    [Cas(t, lock), Btr(t, Rel(-1))]
  }

  /** One test-and-set; the old value of the lock is left in `t`. */
  function SpinTrylock(lock: Addr, t: Reg): seq<Instr> {
    [Cas(t, lock)]
  }

  function SpinUnlock(lock: Addr, t: Reg): seq<Instr> {
    [Imm(t, 0), Sto(t, lock)]
  }

  /** Test-and-set; on failure give up the turn and try again. */
  function SpinLockYld(lock: Addr, t: Reg): seq<Instr> {
    [Cas(t, lock), Bfs(t, Rel(3)), Yld, Br(Rel(-3))]
  }

  /** The try-lock leaves the old lock value in `t`; afterwards the lock is taken, by this thread iff it was free. */
  lemma SpinTrylockTakes(lock: Addr, t: Reg, regs: Regs, mem: Memory, tr: seq<Signal>)
    ensures Goes(Exec(SpinTrylock(lock, t)), Config(Frame(0, regs), mem, tr), 1,
                 Config(Frame(1, regs[t := mem[lock]]), if mem[lock] == 0 then mem[lock := 1] else mem, tr))
    ensures (if mem[lock] == 0 then mem[lock := 1] else mem)[lock] != 0
  {
    OneCas(SpinTrylock(lock, t), Config(Frame(0, regs), mem, tr), t, lock);
  }

  /** On a free lock the spin-lock takes it at once, leaves `t` = 0 and falls out of the fragment. */
  lemma SpinLockAcquires(lock: Addr, t: Reg, regs: Regs, mem: Memory, tr: seq<Signal>)
    requires mem[lock] == 0
    ensures Goes(Exec(SpinLock(lock, t)), Config(Frame(0, regs), mem, tr), 2,
                 Config(Frame(2, regs[t := 0]), mem[lock := 1], tr))
  {
    var q := SpinLock(lock, t);
    var c0, c1 := Config(Frame(0, regs), mem, tr), Config(Frame(1, regs[t := 0]), mem[lock := 1], tr);
    OneCas(q, c0, t, lock);
    OneFall(q, c1);
    ThenTo(Exec(q), c0, 1, c1, 1, Config(Frame(2, regs[t := 0]), mem[lock := 1], tr), 2);
  }

  /** On a taken lock `btr t, :-1` goes back to the `cas`, and nothing but `t` has changed. */
  lemma SpinLockSpins(lock: Addr, t: Reg, regs: Regs, mem: Memory, tr: seq<Signal>)
    requires mem[lock] != 0
    ensures Goes(Exec(SpinLock(lock, t)), Config(Frame(0, regs), mem, tr), 2,
                 Config(Frame(0, regs[t := mem[lock]]), mem, tr))
  {
    var q := SpinLock(lock, t);
    var c0, c1 := Config(Frame(0, regs), mem, tr), Config(Frame(1, regs[t := mem[lock]]), mem, tr);
    OneCas(q, c0, t, lock);
    OneRel(q, c1, -1);
    ThenTo(Exec(q), c0, 1, c1, 1, Config(Frame(0, regs[t := mem[lock]]), mem, tr), 2);
  }

  /** Unlocking stores 0 in the lock and leaves `t` = 0. */
  lemma SpinUnlockReleases(lock: Addr, t: Reg, regs: Regs, mem: Memory, tr: seq<Signal>)
    ensures Goes(Exec(SpinUnlock(lock, t)), Config(Frame(0, regs), mem, tr), 2,
                 Config(Frame(2, regs[t := 0]), mem[lock := 0], tr))
  {
    var q := SpinUnlock(lock, t);
    var c0, c1 := Config(Frame(0, regs), mem, tr), Config(Frame(1, regs[t := 0]), mem, tr);
    OneImm(q, c0, t, 0);
    OneSto(q, c1, t, lock);
    ThenTo(Exec(q), c0, 1, c1, 1, Config(Frame(2, regs[t := 0]), mem[lock := 0], tr), 2);
  }

  /** On a free lock the yielding spin-lock takes it, and `bfs t, :+3` lands one past its end. */
  lemma SpinLockYldAcquires(lock: Addr, t: Reg, regs: Regs, mem: Memory, tr: seq<Signal>)
    requires mem[lock] == 0
    ensures Goes(Exec(SpinLockYld(lock, t)), Config(Frame(0, regs), mem, tr), 2,
                 Config(Frame(4, regs[t := 0]), mem[lock := 1], tr))
  {
    var q := SpinLockYld(lock, t);
    var c0, c1 := Config(Frame(0, regs), mem, tr), Config(Frame(1, regs[t := 0]), mem[lock := 1], tr);
    OneCas(q, c0, t, lock);
    OneRel(q, c1, 3);
    ThenTo(Exec(q), c0, 1, c1, 1, Config(Frame(4, regs[t := 0]), mem[lock := 1], tr), 2);
  }

  /** On a taken lock the yielding spin-lock yields once and `br :-3` returns to the `cas`. */
  lemma SpinLockYldYields(lock: Addr, t: Reg, regs: Regs, mem: Memory, tr: seq<Signal>)
    requires mem[lock] != 0
    ensures Goes(Exec(SpinLockYld(lock, t)), Config(Frame(0, regs), mem, tr), 4,
                 Config(Frame(0, regs[t := mem[lock]]), mem, tr + [Yield]))
  {
    var q := SpinLockYld(lock, t);
    var r1 := regs[t := mem[lock]];
    var c0, c1, c2 := Config(Frame(0, regs), mem, tr), Config(Frame(1, r1), mem, tr), Config(Frame(2, r1), mem, tr);
    var c3, c4 := Config(Frame(3, r1), mem, tr + [Yield]), Config(Frame(0, r1), mem, tr + [Yield]);
    OneCas(q, c0, t, lock);
    OneFall(q, c1);
    OneYld(q, c2);
    OneRel(q, c3, -3);
    ThenTo(Exec(q), c0, 1, c1, 1, c2, 2);
    ThenTo(Exec(q), c0, 2, c2, 1, c3, 3);
    ThenTo(Exec(q), c0, 3, c3, 1, c4, 4);
  }

  /*
   * The same runs for a fragment placed at offset `j` of a larger program
   * (its branches are all relative, so the run is the same wherever it sits).
   */

  /** Unlocking at offset `j`. */
  lemma SpinUnlockAt(p: seq<Instr>, j: nat, lock: Addr, t: Reg, regs: Regs, mem: Memory, tr: seq<Signal>)
    requires At(p, j, SpinUnlock(lock, t))
    ensures Goes(Exec(p), Config(Frame(j, regs), mem, tr), 2,
                 Config(Frame(j + 2, regs[t := 0]), mem[lock := 0], tr))
  {
    var q := SpinUnlock(lock, t);
    assert p[j] == q[0] && p[j + 1] == q[1];
    var c0, c1 := Config(Frame(j, regs), mem, tr), Config(Frame(j + 1, regs[t := 0]), mem, tr);
    OneImm(p, c0, t, 0);
    OneSto(p, c1, t, lock);
    ThenTo(Exec(p), c0, 1, c1, 1, Config(Frame(j + 2, regs[t := 0]), mem[lock := 0], tr), 2);
  }

  /** The yielding spin-lock at offset `j`, on a free lock. */
  lemma SpinLockYldAtAcquires(p: seq<Instr>, j: nat, lock: Addr, t: Reg, regs: Regs, mem: Memory, tr: seq<Signal>)
    requires At(p, j, SpinLockYld(lock, t)) && mem[lock] == 0
    ensures Goes(Exec(p), Config(Frame(j, regs), mem, tr), 2,
                 Config(Frame(j + 4, regs[t := 0]), mem[lock := 1], tr))
  {
    var q := SpinLockYld(lock, t);
    assert p[j] == q[0] && p[j + 1] == q[1];
    var c0, c1 := Config(Frame(j, regs), mem, tr), Config(Frame(j + 1, regs[t := 0]), mem[lock := 1], tr);
    OneCas(p, c0, t, lock);
    OneRel(p, c1, 3);
    ThenTo(Exec(p), c0, 1, c1, 1, Config(Frame(j + 4, regs[t := 0]), mem[lock := 1], tr), 2);
  }

  /** The yielding spin-lock at offset `j`, on a taken lock. */
  lemma SpinLockYldAtYields(p: seq<Instr>, j: nat, lock: Addr, t: Reg, regs: Regs, mem: Memory, tr: seq<Signal>)
    requires At(p, j, SpinLockYld(lock, t)) && mem[lock] != 0
    ensures Goes(Exec(p), Config(Frame(j, regs), mem, tr), 4,
                 Config(Frame(j, regs[t := mem[lock]]), mem, tr + [Yield]))
  {
    var q := SpinLockYld(lock, t);
    assert p[j] == q[0] && p[j + 1] == q[1] && p[j + 2] == q[2] && p[j + 3] == q[3];
    var r1 := regs[t := mem[lock]];
    var c0, c1, c2 := Config(Frame(j, regs), mem, tr), Config(Frame(j + 1, r1), mem, tr), Config(Frame(j + 2, r1), mem, tr);
    var c3, c4 := Config(Frame(j + 3, r1), mem, tr + [Yield]), Config(Frame(j, r1), mem, tr + [Yield]);
    OneCas(p, c0, t, lock);
    OneFall(p, c1);
    OneYld(p, c2);
    OneRel(p, c3, -3);
    ThenTo(Exec(p), c0, 1, c1, 1, c2, 2);
    ThenTo(Exec(p), c0, 2, c2, 1, c3, 3);
    ThenTo(Exec(p), c0, 3, c3, 1, c4, 4);
  }

  /** Every branch of the four fragments lands inside [start, start + length]. */
  lemma SpinTargetsWithin(lock: Addr, t: Reg)
    ensures TargetsWithin(SpinLock(lock, t))
    ensures TargetsWithin(SpinTrylock(lock, t))
    ensures TargetsWithin(SpinUnlock(lock, t))
    ensures TargetsWithin(SpinLockYld(lock, t))
  {
  }

  /** The fragments touch no memory cell but `lock` and no register but `t`, however long they run. */
  lemma SpinFootprint(lock: Addr, t: Reg, q: seq<Instr>, c: Config, n: nat, c2: Config)
    requires q in [SpinLock(lock, t), SpinTrylock(lock, t), SpinUnlock(lock, t), SpinLockYld(lock, t)]
    requires Goes(Exec(q), c, n, c2)
    ensures forall x: Reg :: x != t ==> c2.frame.regs[x] == c.frame.regs[x]
    ensures forall a: Addr :: a != lock ==> c2.mem[a] == c.mem[a]
  {
    assert Confined(q, {t}, {lock});
    RunFootprint(q, {t}, {lock}, c, n, c2);
  }
}
