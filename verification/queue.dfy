/*
 * The ring-buffer queue fragment generators (queue.js). A queue keeps its
 * head and tail indices in two memory cells and its elements in the cells
 * [beg, beg + len); head = tail means empty, so it holds at most len - 1
 * elements.
 *
 * The lemmas place a fragment anywhere in a program `p` (at index `k`) and
 * follow its run instruction by instruction; `EnqueueRuns`, `DequeueRuns`
 * and `QlengthRuns` state a whole run, and the section at the end relates
 * the memory they leave behind to the queue's contents as a sequence.
 */
module Queues {
  import opened Isa
  import opened Runs

  datatype Queue = Queue(head: Addr, tail: Addr, beg: int, len: int)

  /** The layout: head index at `addr`, tail index right after it, elements in [beg, beg + len). */
  function NewQueue(addr: Addr, beg: int, len: int): (q: Queue)
    requires addr + 1 < MEM_SIZE
    ensures q.head == addr && q.tail == addr + 1 && q.head != q.tail
    ensures q.beg == beg && q.len == len
  {
    Queue(addr, addr + 1, beg, len)
  }

  /** `reg` := tail - head, with head left in `t0`. */
  function Qlength(q: Queue, reg: Reg, t0: Reg): seq<Instr> {
    [Lod(t0, q.head), Lod(reg, q.tail), Sub(reg, t0)]
  }

  /** Store `reg` at the tail slot, advance the tail with wraparound, fault if it ran into the head. */
  function Enqueue(q: Queue, reg: Reg, t0: Reg): seq<Instr> {
    [ Lod(t0, q.tail), Str(reg, t0),
      Adi(t0, 1), Sbi(t0, q.beg + q.len), Bfs(t0, Rel(2)), Adi(t0, q.len), Adi(t0, q.beg),
      Sto(t0, q.tail),
      Lod(reg, q.head), Sub(t0, reg), Btr(t0, Rel(2)), Err("inqueue-on-full") ]
  }

  /** Fault if empty (and go on regardless), load the head slot into `reg`, advance the head with wraparound. */
  function Dequeue(q: Queue, reg: Reg, t0: Reg): seq<Instr> {
    Qlength(q, reg, t0) + [Btr(reg, Rel(2)), Err("dequeue-on-empty"),
      Lod(t0, q.head), Ldr(reg, t0),
      Adi(t0, 1), Sbi(t0, q.beg + q.len), Bfs(t0, Rel(2)), Adi(t0, q.len), Adi(t0, q.beg),
      Sto(t0, q.head)]
  }

  /** The slot after `i`: `i + 1`, or `beg` when `i + 1` is one past the buffer; it stays in the buffer. */
  function Succ(q: Queue, i: int): (j: int)
    ensures q.beg <= i < q.beg + q.len ==> q.beg <= j < q.beg + q.len
    ensures j == q.beg || j == i + 1
  {
    if i + 1 == q.beg + q.len then q.beg else i + 1
  }

  /** Memory after `enqueue` of `x`: `x` in the old tail slot, then the tail advanced. */
  function Enqueued(q: Queue, mem: Memory, x: int): Memory
    requires 0 <= mem[q.tail] < MEM_SIZE
  {
    mem[mem[q.tail] := x][q.tail := Succ(q, mem[q.tail])]
  }

  /** Memory after `dequeue`: the head advanced, nothing else. */
  function Dequeued(q: Queue, mem: Memory): Memory {
    mem[q.head := Succ(q, mem[q.head])]
  }

  const FULL: Signal := Faulted(Raised("inqueue-on-full"))
  const EMPTY: Signal := Faulted(Raised("dequeue-on-empty"))

  /*
   * One lemma per instruction of each path, all over the same parameters:
   * `regs`, `mem` and `tr` are the state where the fragment starts.
   */

  lemma EnqueueAt0(p: seq<Instr>, k: nat, q: Queue, reg: Reg, t0: Reg, regs: Regs, mem: Memory, tr: seq<Signal>)
    requires reg != t0 && 0 <= mem[q.tail] < MEM_SIZE
    requires At(p, k, Enqueue(q, reg, t0))
    ensures Goes(Exec(p), Config(Frame(k, regs), mem, tr), 1,
                 Config(Frame(k + 1, regs[t0 := mem[q.tail]]), mem, tr))
  {
    assert p[k] == Enqueue(q, reg, t0)[0];
    One(p, Config(Frame(k, regs), mem, tr),
        Config(Frame(k + 1, regs[t0 := mem[q.tail]]), mem, tr));
  }

  lemma EnqueueAt1(p: seq<Instr>, k: nat, q: Queue, reg: Reg, t0: Reg, regs: Regs, mem: Memory, tr: seq<Signal>)
    requires reg != t0 && 0 <= mem[q.tail] < MEM_SIZE
    requires At(p, k, Enqueue(q, reg, t0))
    ensures Goes(Exec(p), Config(Frame(k + 1, regs[t0 := mem[q.tail]]), mem, tr), 1,
                 Config(Frame(k + 2, regs[t0 := mem[q.tail]]), mem[mem[q.tail] := regs[reg]], tr))
  {
    assert p[k + 1] == Enqueue(q, reg, t0)[1];
    One(p, Config(Frame(k + 1, regs[t0 := mem[q.tail]]), mem, tr),
        Config(Frame(k + 2, regs[t0 := mem[q.tail]]), mem[mem[q.tail] := regs[reg]], tr));
  }

  lemma EnqueueAt2(p: seq<Instr>, k: nat, q: Queue, reg: Reg, t0: Reg, regs: Regs, mem: Memory, tr: seq<Signal>)
    requires reg != t0 && 0 <= mem[q.tail] < MEM_SIZE
    requires At(p, k, Enqueue(q, reg, t0))
    ensures Goes(Exec(p), Config(Frame(k + 2, regs[t0 := mem[q.tail]]), mem[mem[q.tail] := regs[reg]], tr), 1,
                 Config(Frame(k + 3, regs[t0 := mem[q.tail] + 1]), mem[mem[q.tail] := regs[reg]], tr))
  {
    assert p[k + 2] == Enqueue(q, reg, t0)[2];
    One(p, Config(Frame(k + 2, regs[t0 := mem[q.tail]]), mem[mem[q.tail] := regs[reg]], tr),
        Config(Frame(k + 3, regs[t0 := mem[q.tail] + 1]), mem[mem[q.tail] := regs[reg]], tr));
  }

  lemma EnqueueAt3(p: seq<Instr>, k: nat, q: Queue, reg: Reg, t0: Reg, regs: Regs, mem: Memory, tr: seq<Signal>)
    requires reg != t0 && 0 <= mem[q.tail] < MEM_SIZE
    requires At(p, k, Enqueue(q, reg, t0))
    ensures Goes(Exec(p), Config(Frame(k + 3, regs[t0 := mem[q.tail] + 1]), mem[mem[q.tail] := regs[reg]], tr), 1,
                 Config(Frame(k + 4, regs[t0 := mem[q.tail] + 1 - (q.beg + q.len)]), mem[mem[q.tail] := regs[reg]], tr))
  {
    assert p[k + 3] == Enqueue(q, reg, t0)[3];
    One(p, Config(Frame(k + 3, regs[t0 := mem[q.tail] + 1]), mem[mem[q.tail] := regs[reg]], tr),
        Config(Frame(k + 4, regs[t0 := mem[q.tail] + 1 - (q.beg + q.len)]), mem[mem[q.tail] := regs[reg]], tr));
  }

  lemma EnqueueAt4(p: seq<Instr>, k: nat, q: Queue, reg: Reg, t0: Reg, regs: Regs, mem: Memory, tr: seq<Signal>)
    requires reg != t0 && 0 <= mem[q.tail] < MEM_SIZE && mem[q.tail] + 1 != q.beg + q.len
    requires At(p, k, Enqueue(q, reg, t0))
    ensures Goes(Exec(p), Config(Frame(k + 4, regs[t0 := mem[q.tail] + 1 - (q.beg + q.len)]), mem[mem[q.tail] := regs[reg]], tr), 1,
                 Config(Frame(k + 5, regs[t0 := mem[q.tail] + 1 - (q.beg + q.len)]), mem[mem[q.tail] := regs[reg]], tr))
  {
    assert p[k + 4] == Enqueue(q, reg, t0)[4];
    One(p, Config(Frame(k + 4, regs[t0 := mem[q.tail] + 1 - (q.beg + q.len)]), mem[mem[q.tail] := regs[reg]], tr),
        Config(Frame(k + 5, regs[t0 := mem[q.tail] + 1 - (q.beg + q.len)]), mem[mem[q.tail] := regs[reg]], tr));
  }

  lemma EnqueueAt4Wrap(p: seq<Instr>, k: nat, q: Queue, reg: Reg, t0: Reg, regs: Regs, mem: Memory, tr: seq<Signal>)
    requires reg != t0 && 0 <= mem[q.tail] < MEM_SIZE && mem[q.tail] + 1 == q.beg + q.len
    requires At(p, k, Enqueue(q, reg, t0))
    ensures Goes(Exec(p), Config(Frame(k + 4, regs[t0 := mem[q.tail] + 1 - (q.beg + q.len)]), mem[mem[q.tail] := regs[reg]], tr), 1,
                 Config(Frame(k + 6, regs[t0 := 0]), mem[mem[q.tail] := regs[reg]], tr))
  {
    assert p[k + 4] == Enqueue(q, reg, t0)[4];
    One(p, Config(Frame(k + 4, regs[t0 := mem[q.tail] + 1 - (q.beg + q.len)]), mem[mem[q.tail] := regs[reg]], tr),
        Config(Frame(k + 6, regs[t0 := 0]), mem[mem[q.tail] := regs[reg]], tr));
  }

  lemma EnqueueAt5(p: seq<Instr>, k: nat, q: Queue, reg: Reg, t0: Reg, regs: Regs, mem: Memory, tr: seq<Signal>)
    requires reg != t0 && 0 <= mem[q.tail] < MEM_SIZE
    requires At(p, k, Enqueue(q, reg, t0))
    ensures Goes(Exec(p), Config(Frame(k + 5, regs[t0 := mem[q.tail] + 1 - (q.beg + q.len)]), mem[mem[q.tail] := regs[reg]], tr), 1,
                 Config(Frame(k + 6, regs[t0 := mem[q.tail] + 1 - q.beg]), mem[mem[q.tail] := regs[reg]], tr))
  {
    assert p[k + 5] == Enqueue(q, reg, t0)[5];
    One(p, Config(Frame(k + 5, regs[t0 := mem[q.tail] + 1 - (q.beg + q.len)]), mem[mem[q.tail] := regs[reg]], tr),
        Config(Frame(k + 6, regs[t0 := mem[q.tail] + 1 - q.beg]), mem[mem[q.tail] := regs[reg]], tr));
  }

  lemma EnqueueAt6(p: seq<Instr>, k: nat, q: Queue, reg: Reg, t0: Reg, regs: Regs, mem: Memory, tr: seq<Signal>)
    requires reg != t0 && 0 <= mem[q.tail] < MEM_SIZE && mem[q.tail] + 1 != q.beg + q.len
    requires At(p, k, Enqueue(q, reg, t0))
    ensures Goes(Exec(p), Config(Frame(k + 6, regs[t0 := mem[q.tail] + 1 - q.beg]), mem[mem[q.tail] := regs[reg]], tr), 1,
                 Config(Frame(k + 7, regs[t0 := Succ(q, mem[q.tail])]), mem[mem[q.tail] := regs[reg]], tr))
  {
    assert p[k + 6] == Enqueue(q, reg, t0)[6];
    One(p, Config(Frame(k + 6, regs[t0 := mem[q.tail] + 1 - q.beg]), mem[mem[q.tail] := regs[reg]], tr),
        Config(Frame(k + 7, regs[t0 := Succ(q, mem[q.tail])]), mem[mem[q.tail] := regs[reg]], tr));
  }

  lemma EnqueueAt6Wrap(p: seq<Instr>, k: nat, q: Queue, reg: Reg, t0: Reg, regs: Regs, mem: Memory, tr: seq<Signal>)
    requires reg != t0 && 0 <= mem[q.tail] < MEM_SIZE && mem[q.tail] + 1 == q.beg + q.len
    requires At(p, k, Enqueue(q, reg, t0))
    ensures Goes(Exec(p), Config(Frame(k + 6, regs[t0 := 0]), mem[mem[q.tail] := regs[reg]], tr), 1,
                 Config(Frame(k + 7, regs[t0 := Succ(q, mem[q.tail])]), mem[mem[q.tail] := regs[reg]], tr))
  {
    assert p[k + 6] == Enqueue(q, reg, t0)[6];
    One(p, Config(Frame(k + 6, regs[t0 := 0]), mem[mem[q.tail] := regs[reg]], tr),
        Config(Frame(k + 7, regs[t0 := Succ(q, mem[q.tail])]), mem[mem[q.tail] := regs[reg]], tr));
  }

  lemma EnqueueAt7(p: seq<Instr>, k: nat, q: Queue, reg: Reg, t0: Reg, regs: Regs, mem: Memory, tr: seq<Signal>)
    requires reg != t0 && 0 <= mem[q.tail] < MEM_SIZE
    requires At(p, k, Enqueue(q, reg, t0))
    ensures Goes(Exec(p), Config(Frame(k + 7, regs[t0 := Succ(q, mem[q.tail])]), mem[mem[q.tail] := regs[reg]], tr), 1,
                 Config(Frame(k + 8, regs[t0 := Succ(q, mem[q.tail])]), Enqueued(q, mem, regs[reg]), tr))
  {
    assert p[k + 7] == Enqueue(q, reg, t0)[7];
    One(p, Config(Frame(k + 7, regs[t0 := Succ(q, mem[q.tail])]), mem[mem[q.tail] := regs[reg]], tr),
        Config(Frame(k + 8, regs[t0 := Succ(q, mem[q.tail])]), Enqueued(q, mem, regs[reg]), tr));
  }

  lemma EnqueueAt8(p: seq<Instr>, k: nat, q: Queue, reg: Reg, t0: Reg, regs: Regs, mem: Memory, tr: seq<Signal>)
    requires reg != t0 && 0 <= mem[q.tail] < MEM_SIZE
    requires At(p, k, Enqueue(q, reg, t0))
    ensures Goes(Exec(p), Config(Frame(k + 8, regs[t0 := Succ(q, mem[q.tail])]), Enqueued(q, mem, regs[reg]), tr), 1,
                 Config(Frame(k + 9, regs[t0 := Succ(q, mem[q.tail])][reg := Enqueued(q, mem, regs[reg])[q.head]]), Enqueued(q, mem, regs[reg]), tr))
  {
    assert p[k + 8] == Enqueue(q, reg, t0)[8];
    One(p, Config(Frame(k + 8, regs[t0 := Succ(q, mem[q.tail])]), Enqueued(q, mem, regs[reg]), tr),
        Config(Frame(k + 9, regs[t0 := Succ(q, mem[q.tail])][reg := Enqueued(q, mem, regs[reg])[q.head]]), Enqueued(q, mem, regs[reg]), tr));
  }

  lemma EnqueueAt9(p: seq<Instr>, k: nat, q: Queue, reg: Reg, t0: Reg, regs: Regs, mem: Memory, tr: seq<Signal>)
    requires reg != t0 && 0 <= mem[q.tail] < MEM_SIZE
    requires At(p, k, Enqueue(q, reg, t0))
    ensures Goes(Exec(p), Config(Frame(k + 9, regs[t0 := Succ(q, mem[q.tail])][reg := Enqueued(q, mem, regs[reg])[q.head]]), Enqueued(q, mem, regs[reg]), tr), 1,
                 Config(Frame(k + 10, regs[t0 := Succ(q, mem[q.tail]) - Enqueued(q, mem, regs[reg])[q.head]][reg := Enqueued(q, mem, regs[reg])[q.head]]), Enqueued(q, mem, regs[reg]), tr))
  {
    assert p[k + 9] == Enqueue(q, reg, t0)[9];
    One(p, Config(Frame(k + 9, regs[t0 := Succ(q, mem[q.tail])][reg := Enqueued(q, mem, regs[reg])[q.head]]), Enqueued(q, mem, regs[reg]), tr),
        Config(Frame(k + 10, regs[t0 := Succ(q, mem[q.tail]) - Enqueued(q, mem, regs[reg])[q.head]][reg := Enqueued(q, mem, regs[reg])[q.head]]), Enqueued(q, mem, regs[reg]), tr));
  }

  lemma EnqueueAt10(p: seq<Instr>, k: nat, q: Queue, reg: Reg, t0: Reg, regs: Regs, mem: Memory, tr: seq<Signal>)
    requires reg != t0 && 0 <= mem[q.tail] < MEM_SIZE && Succ(q, mem[q.tail]) != Enqueued(q, mem, regs[reg])[q.head]
    requires At(p, k, Enqueue(q, reg, t0))
    ensures Goes(Exec(p), Config(Frame(k + 10, regs[t0 := Succ(q, mem[q.tail]) - Enqueued(q, mem, regs[reg])[q.head]][reg := Enqueued(q, mem, regs[reg])[q.head]]), Enqueued(q, mem, regs[reg]), tr), 1,
                 Config(Frame(k + 12, regs[t0 := Succ(q, mem[q.tail]) - Enqueued(q, mem, regs[reg])[q.head]][reg := Enqueued(q, mem, regs[reg])[q.head]]), Enqueued(q, mem, regs[reg]), tr))
  {
    assert p[k + 10] == Enqueue(q, reg, t0)[10];
    One(p, Config(Frame(k + 10, regs[t0 := Succ(q, mem[q.tail]) - Enqueued(q, mem, regs[reg])[q.head]][reg := Enqueued(q, mem, regs[reg])[q.head]]), Enqueued(q, mem, regs[reg]), tr),
        Config(Frame(k + 12, regs[t0 := Succ(q, mem[q.tail]) - Enqueued(q, mem, regs[reg])[q.head]][reg := Enqueued(q, mem, regs[reg])[q.head]]), Enqueued(q, mem, regs[reg]), tr));
  }

  lemma EnqueueAt10Full(p: seq<Instr>, k: nat, q: Queue, reg: Reg, t0: Reg, regs: Regs, mem: Memory, tr: seq<Signal>)
    requires reg != t0 && 0 <= mem[q.tail] < MEM_SIZE && Succ(q, mem[q.tail]) == Enqueued(q, mem, regs[reg])[q.head]
    requires At(p, k, Enqueue(q, reg, t0))
    ensures Goes(Exec(p), Config(Frame(k + 10, regs[t0 := Succ(q, mem[q.tail]) - Enqueued(q, mem, regs[reg])[q.head]][reg := Enqueued(q, mem, regs[reg])[q.head]]), Enqueued(q, mem, regs[reg]), tr), 1,
                 Config(Frame(k + 11, regs[t0 := Succ(q, mem[q.tail]) - Enqueued(q, mem, regs[reg])[q.head]][reg := Enqueued(q, mem, regs[reg])[q.head]]), Enqueued(q, mem, regs[reg]), tr))
  {
    assert p[k + 10] == Enqueue(q, reg, t0)[10];
    One(p, Config(Frame(k + 10, regs[t0 := Succ(q, mem[q.tail]) - Enqueued(q, mem, regs[reg])[q.head]][reg := Enqueued(q, mem, regs[reg])[q.head]]), Enqueued(q, mem, regs[reg]), tr),
        Config(Frame(k + 11, regs[t0 := Succ(q, mem[q.tail]) - Enqueued(q, mem, regs[reg])[q.head]][reg := Enqueued(q, mem, regs[reg])[q.head]]), Enqueued(q, mem, regs[reg]), tr));
  }

  lemma EnqueueAt11(p: seq<Instr>, k: nat, q: Queue, reg: Reg, t0: Reg, regs: Regs, mem: Memory, tr: seq<Signal>)
    requires reg != t0 && 0 <= mem[q.tail] < MEM_SIZE
    requires At(p, k, Enqueue(q, reg, t0))
    ensures Goes(Exec(p), Config(Frame(k + 11, regs[t0 := Succ(q, mem[q.tail]) - Enqueued(q, mem, regs[reg])[q.head]][reg := Enqueued(q, mem, regs[reg])[q.head]]), Enqueued(q, mem, regs[reg]), tr), 1,
                 Config(Frame(k + 12, regs[t0 := Succ(q, mem[q.tail]) - Enqueued(q, mem, regs[reg])[q.head]][reg := Enqueued(q, mem, regs[reg])[q.head]]), Enqueued(q, mem, regs[reg]), tr + [FULL]))
  {
    assert p[k + 11] == Enqueue(q, reg, t0)[11];
    One(p, Config(Frame(k + 11, regs[t0 := Succ(q, mem[q.tail]) - Enqueued(q, mem, regs[reg])[q.head]][reg := Enqueued(q, mem, regs[reg])[q.head]]), Enqueued(q, mem, regs[reg]), tr),
        Config(Frame(k + 12, regs[t0 := Succ(q, mem[q.tail]) - Enqueued(q, mem, regs[reg])[q.head]][reg := Enqueued(q, mem, regs[reg])[q.head]]), Enqueued(q, mem, regs[reg]), tr + [FULL]));
  }

  lemma QlengthAt0(p: seq<Instr>, k: nat, q: Queue, reg: Reg, t0: Reg, regs: Regs, mem: Memory, tr: seq<Signal>)
    requires reg != t0
    requires At(p, k, Qlength(q, reg, t0))
    ensures Goes(Exec(p), Config(Frame(k, regs), mem, tr), 1,
                 Config(Frame(k + 1, regs[t0 := mem[q.head]]), mem, tr))
  {
    assert p[k] == Qlength(q, reg, t0)[0];
    One(p, Config(Frame(k, regs), mem, tr),
        Config(Frame(k + 1, regs[t0 := mem[q.head]]), mem, tr));
  }

  lemma QlengthAt1(p: seq<Instr>, k: nat, q: Queue, reg: Reg, t0: Reg, regs: Regs, mem: Memory, tr: seq<Signal>)
    requires reg != t0
    requires At(p, k, Qlength(q, reg, t0))
    ensures Goes(Exec(p), Config(Frame(k + 1, regs[t0 := mem[q.head]]), mem, tr), 1,
                 Config(Frame(k + 2, regs[t0 := mem[q.head]][reg := mem[q.tail]]), mem, tr))
  {
    assert p[k + 1] == Qlength(q, reg, t0)[1];
    One(p, Config(Frame(k + 1, regs[t0 := mem[q.head]]), mem, tr),
        Config(Frame(k + 2, regs[t0 := mem[q.head]][reg := mem[q.tail]]), mem, tr));
  }

  lemma QlengthAt2(p: seq<Instr>, k: nat, q: Queue, reg: Reg, t0: Reg, regs: Regs, mem: Memory, tr: seq<Signal>)
    requires reg != t0
    requires At(p, k, Qlength(q, reg, t0))
    ensures Goes(Exec(p), Config(Frame(k + 2, regs[t0 := mem[q.head]][reg := mem[q.tail]]), mem, tr), 1,
                 Config(Frame(k + 3, regs[t0 := mem[q.head]][reg := mem[q.tail] - mem[q.head]]), mem, tr))
  {
    assert p[k + 2] == Qlength(q, reg, t0)[2];
    One(p, Config(Frame(k + 2, regs[t0 := mem[q.head]][reg := mem[q.tail]]), mem, tr),
        Config(Frame(k + 3, regs[t0 := mem[q.head]][reg := mem[q.tail] - mem[q.head]]), mem, tr));
  }

  lemma DequeueAt3(p: seq<Instr>, k: nat, q: Queue, reg: Reg, t0: Reg, regs: Regs, mem: Memory, tr: seq<Signal>)
    requires reg != t0 && 0 <= mem[q.head] < MEM_SIZE && mem[q.tail] != mem[q.head]
    requires At(p, k, Dequeue(q, reg, t0))
    ensures Goes(Exec(p), Config(Frame(k + 3, regs[t0 := mem[q.head]][reg := mem[q.tail] - mem[q.head]]), mem, tr), 1,
                 Config(Frame(k + 5, regs[t0 := mem[q.head]][reg := mem[q.tail] - mem[q.head]]), mem, if mem[q.tail] == mem[q.head] then tr + [EMPTY] else tr))
  {
    assert p[k + 3] == Dequeue(q, reg, t0)[3];
    One(p, Config(Frame(k + 3, regs[t0 := mem[q.head]][reg := mem[q.tail] - mem[q.head]]), mem, tr),
        Config(Frame(k + 5, regs[t0 := mem[q.head]][reg := mem[q.tail] - mem[q.head]]), mem, if mem[q.tail] == mem[q.head] then tr + [EMPTY] else tr));
  }

  lemma DequeueAt3Empty(p: seq<Instr>, k: nat, q: Queue, reg: Reg, t0: Reg, regs: Regs, mem: Memory, tr: seq<Signal>)
    requires reg != t0 && 0 <= mem[q.head] < MEM_SIZE && mem[q.tail] == mem[q.head]
    requires At(p, k, Dequeue(q, reg, t0))
    ensures Goes(Exec(p), Config(Frame(k + 3, regs[t0 := mem[q.head]][reg := mem[q.tail] - mem[q.head]]), mem, tr), 1,
                 Config(Frame(k + 4, regs[t0 := mem[q.head]][reg := mem[q.tail] - mem[q.head]]), mem, tr))
  {
    assert p[k + 3] == Dequeue(q, reg, t0)[3];
    One(p, Config(Frame(k + 3, regs[t0 := mem[q.head]][reg := mem[q.tail] - mem[q.head]]), mem, tr),
        Config(Frame(k + 4, regs[t0 := mem[q.head]][reg := mem[q.tail] - mem[q.head]]), mem, tr));
  }

  lemma DequeueAt4(p: seq<Instr>, k: nat, q: Queue, reg: Reg, t0: Reg, regs: Regs, mem: Memory, tr: seq<Signal>)
    requires reg != t0 && 0 <= mem[q.head] < MEM_SIZE && mem[q.tail] == mem[q.head]
    requires At(p, k, Dequeue(q, reg, t0))
    ensures Goes(Exec(p), Config(Frame(k + 4, regs[t0 := mem[q.head]][reg := mem[q.tail] - mem[q.head]]), mem, tr), 1,
                 Config(Frame(k + 5, regs[t0 := mem[q.head]][reg := mem[q.tail] - mem[q.head]]), mem, if mem[q.tail] == mem[q.head] then tr + [EMPTY] else tr))
  {
    assert p[k + 4] == Dequeue(q, reg, t0)[4];
    One(p, Config(Frame(k + 4, regs[t0 := mem[q.head]][reg := mem[q.tail] - mem[q.head]]), mem, tr),
        Config(Frame(k + 5, regs[t0 := mem[q.head]][reg := mem[q.tail] - mem[q.head]]), mem, if mem[q.tail] == mem[q.head] then tr + [EMPTY] else tr));
  }

  lemma DequeueAt5(p: seq<Instr>, k: nat, q: Queue, reg: Reg, t0: Reg, regs: Regs, mem: Memory, tr: seq<Signal>)
    requires reg != t0 && 0 <= mem[q.head] < MEM_SIZE
    requires At(p, k, Dequeue(q, reg, t0))
    ensures Goes(Exec(p), Config(Frame(k + 5, regs[t0 := mem[q.head]][reg := mem[q.tail] - mem[q.head]]), mem, if mem[q.tail] == mem[q.head] then tr + [EMPTY] else tr), 1,
                 Config(Frame(k + 6, regs[t0 := mem[q.head]][reg := mem[q.tail] - mem[q.head]]), mem, if mem[q.tail] == mem[q.head] then tr + [EMPTY] else tr))
  {
    assert p[k + 5] == Dequeue(q, reg, t0)[5];
    One(p, Config(Frame(k + 5, regs[t0 := mem[q.head]][reg := mem[q.tail] - mem[q.head]]), mem, if mem[q.tail] == mem[q.head] then tr + [EMPTY] else tr),
        Config(Frame(k + 6, regs[t0 := mem[q.head]][reg := mem[q.tail] - mem[q.head]]), mem, if mem[q.tail] == mem[q.head] then tr + [EMPTY] else tr));
  }

  lemma DequeueAt6(p: seq<Instr>, k: nat, q: Queue, reg: Reg, t0: Reg, regs: Regs, mem: Memory, tr: seq<Signal>)
    requires reg != t0 && 0 <= mem[q.head] < MEM_SIZE
    requires At(p, k, Dequeue(q, reg, t0))
    ensures Goes(Exec(p), Config(Frame(k + 6, regs[t0 := mem[q.head]][reg := mem[q.tail] - mem[q.head]]), mem, if mem[q.tail] == mem[q.head] then tr + [EMPTY] else tr), 1,
                 Config(Frame(k + 7, regs[t0 := mem[q.head]][reg := mem[mem[q.head]]]), mem, if mem[q.tail] == mem[q.head] then tr + [EMPTY] else tr))
  {
    assert p[k + 6] == Dequeue(q, reg, t0)[6];
    One(p, Config(Frame(k + 6, regs[t0 := mem[q.head]][reg := mem[q.tail] - mem[q.head]]), mem, if mem[q.tail] == mem[q.head] then tr + [EMPTY] else tr),
        Config(Frame(k + 7, regs[t0 := mem[q.head]][reg := mem[mem[q.head]]]), mem, if mem[q.tail] == mem[q.head] then tr + [EMPTY] else tr));
  }

  lemma DequeueAt7(p: seq<Instr>, k: nat, q: Queue, reg: Reg, t0: Reg, regs: Regs, mem: Memory, tr: seq<Signal>)
    requires reg != t0 && 0 <= mem[q.head] < MEM_SIZE
    requires At(p, k, Dequeue(q, reg, t0))
    ensures Goes(Exec(p), Config(Frame(k + 7, regs[t0 := mem[q.head]][reg := mem[mem[q.head]]]), mem, if mem[q.tail] == mem[q.head] then tr + [EMPTY] else tr), 1,
                 Config(Frame(k + 8, regs[t0 := mem[q.head] + 1][reg := mem[mem[q.head]]]), mem, if mem[q.tail] == mem[q.head] then tr + [EMPTY] else tr))
  {
    assert p[k + 7] == Dequeue(q, reg, t0)[7];
    One(p, Config(Frame(k + 7, regs[t0 := mem[q.head]][reg := mem[mem[q.head]]]), mem, if mem[q.tail] == mem[q.head] then tr + [EMPTY] else tr),
        Config(Frame(k + 8, regs[t0 := mem[q.head] + 1][reg := mem[mem[q.head]]]), mem, if mem[q.tail] == mem[q.head] then tr + [EMPTY] else tr));
  }

  lemma DequeueAt8(p: seq<Instr>, k: nat, q: Queue, reg: Reg, t0: Reg, regs: Regs, mem: Memory, tr: seq<Signal>)
    requires reg != t0 && 0 <= mem[q.head] < MEM_SIZE
    requires At(p, k, Dequeue(q, reg, t0))
    ensures Goes(Exec(p), Config(Frame(k + 8, regs[t0 := mem[q.head] + 1][reg := mem[mem[q.head]]]), mem, if mem[q.tail] == mem[q.head] then tr + [EMPTY] else tr), 1,
                 Config(Frame(k + 9, regs[t0 := mem[q.head] + 1 - (q.beg + q.len)][reg := mem[mem[q.head]]]), mem, if mem[q.tail] == mem[q.head] then tr + [EMPTY] else tr))
  {
    assert p[k + 8] == Dequeue(q, reg, t0)[8];
    One(p, Config(Frame(k + 8, regs[t0 := mem[q.head] + 1][reg := mem[mem[q.head]]]), mem, if mem[q.tail] == mem[q.head] then tr + [EMPTY] else tr),
        Config(Frame(k + 9, regs[t0 := mem[q.head] + 1 - (q.beg + q.len)][reg := mem[mem[q.head]]]), mem, if mem[q.tail] == mem[q.head] then tr + [EMPTY] else tr));
  }

  lemma DequeueAt9(p: seq<Instr>, k: nat, q: Queue, reg: Reg, t0: Reg, regs: Regs, mem: Memory, tr: seq<Signal>)
    requires reg != t0 && 0 <= mem[q.head] < MEM_SIZE && mem[q.head] + 1 != q.beg + q.len
    requires At(p, k, Dequeue(q, reg, t0))
    ensures Goes(Exec(p), Config(Frame(k + 9, regs[t0 := mem[q.head] + 1 - (q.beg + q.len)][reg := mem[mem[q.head]]]), mem, if mem[q.tail] == mem[q.head] then tr + [EMPTY] else tr), 1,
                 Config(Frame(k + 10, regs[t0 := mem[q.head] + 1 - (q.beg + q.len)][reg := mem[mem[q.head]]]), mem, if mem[q.tail] == mem[q.head] then tr + [EMPTY] else tr))
  {
    assert p[k + 9] == Dequeue(q, reg, t0)[9];
    One(p, Config(Frame(k + 9, regs[t0 := mem[q.head] + 1 - (q.beg + q.len)][reg := mem[mem[q.head]]]), mem, if mem[q.tail] == mem[q.head] then tr + [EMPTY] else tr),
        Config(Frame(k + 10, regs[t0 := mem[q.head] + 1 - (q.beg + q.len)][reg := mem[mem[q.head]]]), mem, if mem[q.tail] == mem[q.head] then tr + [EMPTY] else tr));
  }

  lemma DequeueAt9Wrap(p: seq<Instr>, k: nat, q: Queue, reg: Reg, t0: Reg, regs: Regs, mem: Memory, tr: seq<Signal>)
    requires reg != t0 && 0 <= mem[q.head] < MEM_SIZE && mem[q.head] + 1 == q.beg + q.len
    requires At(p, k, Dequeue(q, reg, t0))
    ensures Goes(Exec(p), Config(Frame(k + 9, regs[t0 := mem[q.head] + 1 - (q.beg + q.len)][reg := mem[mem[q.head]]]), mem, if mem[q.tail] == mem[q.head] then tr + [EMPTY] else tr), 1,
                 Config(Frame(k + 11, regs[t0 := 0][reg := mem[mem[q.head]]]), mem, if mem[q.tail] == mem[q.head] then tr + [EMPTY] else tr))
  {
    assert p[k + 9] == Dequeue(q, reg, t0)[9];
    One(p, Config(Frame(k + 9, regs[t0 := mem[q.head] + 1 - (q.beg + q.len)][reg := mem[mem[q.head]]]), mem, if mem[q.tail] == mem[q.head] then tr + [EMPTY] else tr),
        Config(Frame(k + 11, regs[t0 := 0][reg := mem[mem[q.head]]]), mem, if mem[q.tail] == mem[q.head] then tr + [EMPTY] else tr));
  }

  lemma DequeueAt10(p: seq<Instr>, k: nat, q: Queue, reg: Reg, t0: Reg, regs: Regs, mem: Memory, tr: seq<Signal>)
    requires reg != t0 && 0 <= mem[q.head] < MEM_SIZE
    requires At(p, k, Dequeue(q, reg, t0))
    ensures Goes(Exec(p), Config(Frame(k + 10, regs[t0 := mem[q.head] + 1 - (q.beg + q.len)][reg := mem[mem[q.head]]]), mem, if mem[q.tail] == mem[q.head] then tr + [EMPTY] else tr), 1,
                 Config(Frame(k + 11, regs[t0 := mem[q.head] + 1 - q.beg][reg := mem[mem[q.head]]]), mem, if mem[q.tail] == mem[q.head] then tr + [EMPTY] else tr))
  {
    assert p[k + 10] == Dequeue(q, reg, t0)[10];
    One(p, Config(Frame(k + 10, regs[t0 := mem[q.head] + 1 - (q.beg + q.len)][reg := mem[mem[q.head]]]), mem, if mem[q.tail] == mem[q.head] then tr + [EMPTY] else tr),
        Config(Frame(k + 11, regs[t0 := mem[q.head] + 1 - q.beg][reg := mem[mem[q.head]]]), mem, if mem[q.tail] == mem[q.head] then tr + [EMPTY] else tr));
  }

  lemma DequeueAt11(p: seq<Instr>, k: nat, q: Queue, reg: Reg, t0: Reg, regs: Regs, mem: Memory, tr: seq<Signal>)
    requires reg != t0 && 0 <= mem[q.head] < MEM_SIZE && mem[q.head] + 1 != q.beg + q.len
    requires At(p, k, Dequeue(q, reg, t0))
    ensures Goes(Exec(p), Config(Frame(k + 11, regs[t0 := mem[q.head] + 1 - q.beg][reg := mem[mem[q.head]]]), mem, if mem[q.tail] == mem[q.head] then tr + [EMPTY] else tr), 1,
                 Config(Frame(k + 12, regs[t0 := Succ(q, mem[q.head])][reg := mem[mem[q.head]]]), mem, if mem[q.tail] == mem[q.head] then tr + [EMPTY] else tr))
  {
    assert p[k + 11] == Dequeue(q, reg, t0)[11];
    One(p, Config(Frame(k + 11, regs[t0 := mem[q.head] + 1 - q.beg][reg := mem[mem[q.head]]]), mem, if mem[q.tail] == mem[q.head] then tr + [EMPTY] else tr),
        Config(Frame(k + 12, regs[t0 := Succ(q, mem[q.head])][reg := mem[mem[q.head]]]), mem, if mem[q.tail] == mem[q.head] then tr + [EMPTY] else tr));
  }

  lemma DequeueAt11Wrap(p: seq<Instr>, k: nat, q: Queue, reg: Reg, t0: Reg, regs: Regs, mem: Memory, tr: seq<Signal>)
    requires reg != t0 && 0 <= mem[q.head] < MEM_SIZE && mem[q.head] + 1 == q.beg + q.len
    requires At(p, k, Dequeue(q, reg, t0))
    ensures Goes(Exec(p), Config(Frame(k + 11, regs[t0 := 0][reg := mem[mem[q.head]]]), mem, if mem[q.tail] == mem[q.head] then tr + [EMPTY] else tr), 1,
                 Config(Frame(k + 12, regs[t0 := Succ(q, mem[q.head])][reg := mem[mem[q.head]]]), mem, if mem[q.tail] == mem[q.head] then tr + [EMPTY] else tr))
  {
    assert p[k + 11] == Dequeue(q, reg, t0)[11];
    One(p, Config(Frame(k + 11, regs[t0 := 0][reg := mem[mem[q.head]]]), mem, if mem[q.tail] == mem[q.head] then tr + [EMPTY] else tr),
        Config(Frame(k + 12, regs[t0 := Succ(q, mem[q.head])][reg := mem[mem[q.head]]]), mem, if mem[q.tail] == mem[q.head] then tr + [EMPTY] else tr));
  }

  lemma DequeueAt12(p: seq<Instr>, k: nat, q: Queue, reg: Reg, t0: Reg, regs: Regs, mem: Memory, tr: seq<Signal>)
    requires reg != t0 && 0 <= mem[q.head] < MEM_SIZE
    requires At(p, k, Dequeue(q, reg, t0))
    ensures Goes(Exec(p), Config(Frame(k + 12, regs[t0 := Succ(q, mem[q.head])][reg := mem[mem[q.head]]]), mem, if mem[q.tail] == mem[q.head] then tr + [EMPTY] else tr), 1,
                 Config(Frame(k + 13, regs[t0 := Succ(q, mem[q.head])][reg := mem[mem[q.head]]]), Dequeued(q, mem), if mem[q.tail] == mem[q.head] then tr + [EMPTY] else tr))
  {
    assert p[k + 12] == Dequeue(q, reg, t0)[12];
    One(p, Config(Frame(k + 12, regs[t0 := Succ(q, mem[q.head])][reg := mem[mem[q.head]]]), mem, if mem[q.tail] == mem[q.head] then tr + [EMPTY] else tr),
        Config(Frame(k + 13, regs[t0 := Succ(q, mem[q.head])][reg := mem[mem[q.head]]]), Dequeued(q, mem), if mem[q.tail] == mem[q.head] then tr + [EMPTY] else tr));
  }
  /** `qlength` leaves tail - head in `reg` and head in `t0`, and writes no memory. */
  lemma QlengthRuns(p: seq<Instr>, k: nat, q: Queue, reg: Reg, t0: Reg, regs: Regs, mem: Memory, tr: seq<Signal>)
    requires reg != t0
    requires At(p, k, Qlength(q, reg, t0))
    ensures Goes(Exec(p), Config(Frame(k, regs), mem, tr), 3,
                 Config(Frame(k + 3, regs[t0 := mem[q.head]][reg := mem[q.tail] - mem[q.head]]), mem, tr))
  {
    var c0, c1 := Config(Frame(k, regs), mem, tr), Config(Frame(k + 1, regs[t0 := mem[q.head]]), mem, tr);
    var c2 := Config(Frame(k + 2, regs[t0 := mem[q.head]][reg := mem[q.tail]]), mem, tr);
    QlengthAt0(p, k, q, reg, t0, regs, mem, tr);
    QlengthAt1(p, k, q, reg, t0, regs, mem, tr);
    QlengthAt2(p, k, q, reg, t0, regs, mem, tr);
    ThenTo(Exec(p), c0, 1, c1, 1, c2, 2);
    ThenTo(Exec(p), c0, 2, c2, 1, Config(Frame(k + 3, regs[t0 := mem[q.head]][reg := mem[q.tail] - mem[q.head]]), mem, tr), 3);
  }

  /**
   * Instructions 0-7 of `enqueue`: `reg` is stored in the old tail slot and
   * the tail cell gets Succ(old tail), which `t0` also holds.
   */
  lemma EnqueueStores(p: seq<Instr>, k: nat, q: Queue, reg: Reg, t0: Reg, regs: Regs, mem: Memory, tr: seq<Signal>) returns (n: nat)
    requires reg != t0 && 0 <= mem[q.tail] < MEM_SIZE
    requires At(p, k, Enqueue(q, reg, t0))
    ensures n == if mem[q.tail] + 1 == q.beg + q.len then 7 else 8
    ensures Goes(Exec(p), Config(Frame(k, regs), mem, tr), n,
                 Config(Frame(k + 8, regs[t0 := Succ(q, mem[q.tail])]), Enqueued(q, mem, regs[reg]), tr))
  {
    var m1 := mem[mem[q.tail] := regs[reg]];
    var c0, c1 := Config(Frame(k, regs), mem, tr), Config(Frame(k + 1, regs[t0 := mem[q.tail]]), mem, tr);
    var c2 := Config(Frame(k + 2, regs[t0 := mem[q.tail]]), m1, tr);
    var c3 := Config(Frame(k + 3, regs[t0 := mem[q.tail] + 1]), m1, tr);
    var c4 := Config(Frame(k + 4, regs[t0 := mem[q.tail] + 1 - (q.beg + q.len)]), m1, tr);
    var c7 := Config(Frame(k + 7, regs[t0 := Succ(q, mem[q.tail])]), m1, tr);
    var c8 := Config(Frame(k + 8, regs[t0 := Succ(q, mem[q.tail])]), Enqueued(q, mem, regs[reg]), tr);
    EnqueueAt0(p, k, q, reg, t0, regs, mem, tr);
    EnqueueAt1(p, k, q, reg, t0, regs, mem, tr);
    EnqueueAt2(p, k, q, reg, t0, regs, mem, tr);
    EnqueueAt3(p, k, q, reg, t0, regs, mem, tr);
    EnqueueAt7(p, k, q, reg, t0, regs, mem, tr);
    ThenTo(Exec(p), c0, 1, c1, 1, c2, 2);
    ThenTo(Exec(p), c0, 2, c2, 1, c3, 3);
    ThenTo(Exec(p), c0, 3, c3, 1, c4, 4);
    if mem[q.tail] + 1 == q.beg + q.len {
      var c6 := Config(Frame(k + 6, regs[t0 := 0]), m1, tr);
      EnqueueAt4Wrap(p, k, q, reg, t0, regs, mem, tr);
      EnqueueAt6Wrap(p, k, q, reg, t0, regs, mem, tr);
      ThenTo(Exec(p), c0, 4, c4, 1, c6, 5);
      ThenTo(Exec(p), c0, 5, c6, 1, c7, 6);
      ThenTo(Exec(p), c0, 6, c7, 1, c8, 7);
      n := 7;
    } else {
      var c5 := Config(Frame(k + 5, regs[t0 := mem[q.tail] + 1 - (q.beg + q.len)]), m1, tr);
      var c6 := Config(Frame(k + 6, regs[t0 := mem[q.tail] + 1 - q.beg]), m1, tr);
      EnqueueAt4(p, k, q, reg, t0, regs, mem, tr);
      EnqueueAt5(p, k, q, reg, t0, regs, mem, tr);
      EnqueueAt6(p, k, q, reg, t0, regs, mem, tr);
      ThenTo(Exec(p), c0, 4, c4, 1, c5, 5);
      ThenTo(Exec(p), c0, 5, c5, 1, c6, 6);
      ThenTo(Exec(p), c0, 6, c6, 1, c7, 7);
      ThenTo(Exec(p), c0, 7, c7, 1, c8, 8);
      n := 8;
    }
  }

  /**
   * Instructions 8-11 of `enqueue`: `reg` := head, `t0` := new tail - head,
   * and `err inqueue-on-full` runs exactly when the new tail equals head.
   */
  lemma EnqueueChecks(p: seq<Instr>, k: nat, q: Queue, reg: Reg, t0: Reg, regs: Regs, mem: Memory, tr: seq<Signal>) returns (n: nat)
    requires reg != t0 && 0 <= mem[q.tail] < MEM_SIZE
    requires At(p, k, Enqueue(q, reg, t0))
    ensures n == if Succ(q, mem[q.tail]) == Enqueued(q, mem, regs[reg])[q.head] then 4 else 3
    ensures Goes(Exec(p), Config(Frame(k + 8, regs[t0 := Succ(q, mem[q.tail])]), Enqueued(q, mem, regs[reg]), tr), n,
                 Config(Frame(k + 12, regs[t0 := Succ(q, mem[q.tail]) - Enqueued(q, mem, regs[reg])[q.head]][reg := Enqueued(q, mem, regs[reg])[q.head]]), Enqueued(q, mem, regs[reg]), if Succ(q, mem[q.tail]) == Enqueued(q, mem, regs[reg])[q.head] then tr + [FULL] else tr))
  {
    var m, s := Enqueued(q, mem, regs[reg]), Succ(q, mem[q.tail]);
    var r := regs[t0 := s - m[q.head]][reg := m[q.head]];
    var c8 := Config(Frame(k + 8, regs[t0 := s]), m, tr);
    var c9 := Config(Frame(k + 9, regs[t0 := s][reg := m[q.head]]), m, tr);
    var c10 := Config(Frame(k + 10, r), m, tr);
    EnqueueAt8(p, k, q, reg, t0, regs, mem, tr);
    EnqueueAt9(p, k, q, reg, t0, regs, mem, tr);
    ThenTo(Exec(p), c8, 1, c9, 1, c10, 2);
    if s == m[q.head] {
      EnqueueAt10Full(p, k, q, reg, t0, regs, mem, tr);
      EnqueueAt11(p, k, q, reg, t0, regs, mem, tr);
      ThenTo(Exec(p), c8, 2, c10, 1, Config(Frame(k + 11, r), m, tr), 3);
      ThenTo(Exec(p), c8, 3, Config(Frame(k + 11, r), m, tr), 1, Config(Frame(k + 12, r), m, tr + [FULL]), 4);
      n := 4;
    } else {
      EnqueueAt10(p, k, q, reg, t0, regs, mem, tr);
      ThenTo(Exec(p), c8, 2, c10, 1, Config(Frame(k + 12, r), m, tr), 3);
      n := 3;
    }
  }

  /**
   * A whole `enqueue`: the value and the advanced tail are stored whatever
   * happens, `reg` ends up holding head, `t0` new tail - head, and
   * `err inqueue-on-full` runs exactly when the new tail equals head.
   */
  lemma EnqueueRuns(p: seq<Instr>, k: nat, q: Queue, reg: Reg, t0: Reg, regs: Regs, mem: Memory, tr: seq<Signal>) returns (n: nat)
    requires reg != t0 && 0 <= mem[q.tail] < MEM_SIZE
    requires At(p, k, Enqueue(q, reg, t0))
    ensures n == (if mem[q.tail] + 1 == q.beg + q.len then 7 else 8) + (if Succ(q, mem[q.tail]) == Enqueued(q, mem, regs[reg])[q.head] then 4 else 3)
    ensures Goes(Exec(p), Config(Frame(k, regs), mem, tr), n,
                 Config(Frame(k + 12, regs[t0 := Succ(q, mem[q.tail]) - Enqueued(q, mem, regs[reg])[q.head]][reg := Enqueued(q, mem, regs[reg])[q.head]]), Enqueued(q, mem, regs[reg]), if Succ(q, mem[q.tail]) == Enqueued(q, mem, regs[reg])[q.head] then tr + [FULL] else tr))
  {
    var a := EnqueueStores(p, k, q, reg, t0, regs, mem, tr);
    var b := EnqueueChecks(p, k, q, reg, t0, regs, mem, tr);
    Then(Exec(p), Config(Frame(k, regs), mem, tr), a,
         Config(Frame(k + 8, regs[t0 := Succ(q, mem[q.tail])]), Enqueued(q, mem, regs[reg]), tr), b,
         Config(Frame(k + 12, regs[t0 := Succ(q, mem[q.tail]) - Enqueued(q, mem, regs[reg])[q.head]][reg := Enqueued(q, mem, regs[reg])[q.head]]), Enqueued(q, mem, regs[reg]), if Succ(q, mem[q.tail]) == Enqueued(q, mem, regs[reg])[q.head] then tr + [FULL] else tr));
    n := a + b;
  }

  /** `dequeue` starts with the `qlength` fragment. */
  lemma QlengthInDequeue(p: seq<Instr>, k: nat, q: Queue, reg: Reg, t0: Reg)
    requires At(p, k, Dequeue(q, reg, t0))
    ensures At(p, k, Qlength(q, reg, t0))
  {
    assert p[k] == Dequeue(q, reg, t0)[0] && p[k + 1] == Dequeue(q, reg, t0)[1] && p[k + 2] == Dequeue(q, reg, t0)[2];
  }

  /** Instructions 0-4 of `dequeue`: the length check, with `err dequeue-on-empty` exactly when head = tail. */
  lemma DequeueChecks(p: seq<Instr>, k: nat, q: Queue, reg: Reg, t0: Reg, regs: Regs, mem: Memory, tr: seq<Signal>) returns (n: nat)
    requires reg != t0 && 0 <= mem[q.head] < MEM_SIZE
    requires At(p, k, Dequeue(q, reg, t0))
    ensures n == if mem[q.tail] == mem[q.head] then 5 else 4
    ensures Goes(Exec(p), Config(Frame(k, regs), mem, tr), n,
                 Config(Frame(k + 5, regs[t0 := mem[q.head]][reg := mem[q.tail] - mem[q.head]]), mem, if mem[q.tail] == mem[q.head] then tr + [EMPTY] else tr))
  {
    var r := regs[t0 := mem[q.head]][reg := mem[q.tail] - mem[q.head]];
    var t := if mem[q.tail] == mem[q.head] then tr + [EMPTY] else tr;
    var c0, c3 := Config(Frame(k, regs), mem, tr), Config(Frame(k + 3, r), mem, tr);
    QlengthInDequeue(p, k, q, reg, t0);
    QlengthRuns(p, k, q, reg, t0, regs, mem, tr);
    if mem[q.tail] == mem[q.head] {
      DequeueAt3Empty(p, k, q, reg, t0, regs, mem, tr);
      DequeueAt4(p, k, q, reg, t0, regs, mem, tr);
      ThenTo(Exec(p), c0, 3, c3, 1, Config(Frame(k + 4, r), mem, tr), 4);
      ThenTo(Exec(p), c0, 4, Config(Frame(k + 4, r), mem, tr), 1, Config(Frame(k + 5, r), mem, t), 5);
      n := 5;
    } else {
      DequeueAt3(p, k, q, reg, t0, regs, mem, tr);
      ThenTo(Exec(p), c0, 3, c3, 1, Config(Frame(k + 5, r), mem, t), 4);
      n := 4;
    }
  }

  /** Instructions 5-12 of `dequeue`: `reg` := the head slot, and the head cell gets Succ(old head). */
  lemma DequeueTakes(p: seq<Instr>, k: nat, q: Queue, reg: Reg, t0: Reg, regs: Regs, mem: Memory, tr: seq<Signal>) returns (n: nat)
    requires reg != t0 && 0 <= mem[q.head] < MEM_SIZE
    requires At(p, k, Dequeue(q, reg, t0))
    ensures n == if mem[q.head] + 1 == q.beg + q.len then 7 else 8
    ensures Goes(Exec(p), Config(Frame(k + 5, regs[t0 := mem[q.head]][reg := mem[q.tail] - mem[q.head]]), mem, if mem[q.tail] == mem[q.head] then tr + [EMPTY] else tr), n,
                 Config(Frame(k + 13, regs[t0 := Succ(q, mem[q.head])][reg := mem[mem[q.head]]]), Dequeued(q, mem), if mem[q.tail] == mem[q.head] then tr + [EMPTY] else tr))
  {
    var t := if mem[q.tail] == mem[q.head] then tr + [EMPTY] else tr;
    var v := mem[mem[q.head]];
    var c5 := Config(Frame(k + 5, regs[t0 := mem[q.head]][reg := mem[q.tail] - mem[q.head]]), mem, t);
    var c6 := Config(Frame(k + 6, regs[t0 := mem[q.head]][reg := mem[q.tail] - mem[q.head]]), mem, t);
    var c7 := Config(Frame(k + 7, regs[t0 := mem[q.head]][reg := v]), mem, t);
    var c8 := Config(Frame(k + 8, regs[t0 := mem[q.head] + 1][reg := v]), mem, t);
    var c9 := Config(Frame(k + 9, regs[t0 := mem[q.head] + 1 - (q.beg + q.len)][reg := v]), mem, t);
    var c12 := Config(Frame(k + 12, regs[t0 := Succ(q, mem[q.head])][reg := v]), mem, t);
    var c13 := Config(Frame(k + 13, regs[t0 := Succ(q, mem[q.head])][reg := v]), Dequeued(q, mem), t);
    DequeueAt5(p, k, q, reg, t0, regs, mem, tr);
    DequeueAt6(p, k, q, reg, t0, regs, mem, tr);
    DequeueAt7(p, k, q, reg, t0, regs, mem, tr);
    DequeueAt8(p, k, q, reg, t0, regs, mem, tr);
    DequeueAt12(p, k, q, reg, t0, regs, mem, tr);
    ThenTo(Exec(p), c5, 1, c6, 1, c7, 2);
    ThenTo(Exec(p), c5, 2, c7, 1, c8, 3);
    ThenTo(Exec(p), c5, 3, c8, 1, c9, 4);
    if mem[q.head] + 1 == q.beg + q.len {
      var c11 := Config(Frame(k + 11, regs[t0 := 0][reg := v]), mem, t);
      DequeueAt9Wrap(p, k, q, reg, t0, regs, mem, tr);
      DequeueAt11Wrap(p, k, q, reg, t0, regs, mem, tr);
      ThenTo(Exec(p), c5, 4, c9, 1, c11, 5);
      ThenTo(Exec(p), c5, 5, c11, 1, c12, 6);
      ThenTo(Exec(p), c5, 6, c12, 1, c13, 7);
      n := 7;
    } else {
      var c10 := Config(Frame(k + 10, regs[t0 := mem[q.head] + 1 - (q.beg + q.len)][reg := v]), mem, t);
      var c11 := Config(Frame(k + 11, regs[t0 := mem[q.head] + 1 - q.beg][reg := v]), mem, t);
      DequeueAt9(p, k, q, reg, t0, regs, mem, tr);
      DequeueAt10(p, k, q, reg, t0, regs, mem, tr);
      DequeueAt11(p, k, q, reg, t0, regs, mem, tr);
      ThenTo(Exec(p), c5, 4, c9, 1, c10, 5);
      ThenTo(Exec(p), c5, 5, c10, 1, c11, 6);
      ThenTo(Exec(p), c5, 6, c11, 1, c12, 7);
      ThenTo(Exec(p), c5, 7, c12, 1, c13, 8);
      n := 8;
    }
  }

  /**
   * A whole `dequeue`: `err dequeue-on-empty` runs exactly when head = tail
   * (and execution carries on), `reg` gets the head slot, the head advances
   * with wraparound, and no other cell changes.
   */
  lemma DequeueRuns(p: seq<Instr>, k: nat, q: Queue, reg: Reg, t0: Reg, regs: Regs, mem: Memory, tr: seq<Signal>) returns (n: nat)
    requires reg != t0 && 0 <= mem[q.head] < MEM_SIZE
    requires At(p, k, Dequeue(q, reg, t0))
    ensures n == (if mem[q.tail] == mem[q.head] then 5 else 4) + (if mem[q.head] + 1 == q.beg + q.len then 7 else 8)
    ensures Goes(Exec(p), Config(Frame(k, regs), mem, tr), n,
                 Config(Frame(k + 13, regs[t0 := Succ(q, mem[q.head])][reg := mem[mem[q.head]]]), Dequeued(q, mem), if mem[q.tail] == mem[q.head] then tr + [EMPTY] else tr))
  {
    var t := if mem[q.tail] == mem[q.head] then tr + [EMPTY] else tr;
    var a := DequeueChecks(p, k, q, reg, t0, regs, mem, tr);
    var b := DequeueTakes(p, k, q, reg, t0, regs, mem, tr);
    Then(Exec(p), Config(Frame(k, regs), mem, tr), a,
         Config(Frame(k + 5, regs[t0 := mem[q.head]][reg := mem[q.tail] - mem[q.head]]), mem, t), b,
         Config(Frame(k + 13, regs[t0 := Succ(q, mem[q.head])][reg := mem[mem[q.head]]]), Dequeued(q, mem), t));
    n := a + b;
  }

  /*
   * The queue as a sequence. In a well-formed queue the head and tail
   * cells lie outside the buffer and both indices lie inside it; the
   * elements are the slots from head (inclusive) up to tail (exclusive),
   * going round the end of the buffer.
   */
  ghost predicate Valid(q: Queue, mem: Memory) {
    && q.head != q.tail
    && 1 <= q.len && 0 <= q.beg && q.beg + q.len <= MEM_SIZE
    && !(q.beg <= q.head < q.beg + q.len) && !(q.beg <= q.tail < q.beg + q.len)
    && q.beg <= mem[q.head] < q.beg + q.len && q.beg <= mem[q.tail] < q.beg + q.len
  }

  /** How many steps of `Succ` lead from slot `h` to slot `t`. */
  function Dist(q: Queue, h: int, t: int): (d: int)
    requires q.beg <= h < q.beg + q.len && q.beg <= t < q.beg + q.len
    ensures 0 <= d < q.len
    ensures d == 0 <==> h == t
  {
    if h <= t then t - h else t - h + q.len
  }

  /** The slot `i` steps of `Succ` after slot `h`. */
  function Slot(q: Queue, h: int, i: int): (s: int)
    requires q.beg <= h < q.beg + q.len && 0 <= i < q.len
    ensures q.beg <= s < q.beg + q.len
  {
    if h + i < q.beg + q.len then h + i else h + i - q.len
  }

  /** The elements, oldest first; the queue holds at most len - 1 of them, and none iff head = tail. */
  ghost function Contents(q: Queue, mem: Memory): (s: seq<int>)
    requires Valid(q, mem)
    ensures |s| < q.len
    ensures |s| == 0 <==> mem[q.head] == mem[q.tail]
  {
    seq(Dist(q, mem[q.head], mem[q.tail]), i requires 0 <= i < Dist(q, mem[q.head], mem[q.tail]) => mem[Slot(q, mem[q.head], i)])
  }

  lemma SlotSucc(q: Queue, h: int, i: int)
    requires q.beg <= h < q.beg + q.len && 0 <= i && i + 1 < q.len
    ensures Slot(q, h, i + 1) == Succ(q, Slot(q, h, i))
    ensures Slot(q, Succ(q, h), i) == Slot(q, h, i + 1)
  {
  }

  lemma DistSucc(q: Queue, h: int, t: int)
    requires q.beg <= h < q.beg + q.len && q.beg <= t < q.beg + q.len
    ensures Dist(q, h, t) + 1 < q.len ==> Dist(q, h, Succ(q, t)) == Dist(q, h, t) + 1
    ensures Dist(q, h, t) + 1 == q.len ==> Succ(q, t) == h
    ensures h != t ==> Dist(q, Succ(q, h), t) == Dist(q, h, t) - 1
    ensures h == t ==> Dist(q, Succ(q, h), t) == q.len - 1
  {
  }

  /** The slots of the elements come before the tail slot, which is the next one after them. */
  lemma SlotBeforeTail(q: Queue, h: int, t: int, i: int)
    requires q.beg <= h < q.beg + q.len && q.beg <= t < q.beg + q.len && 0 <= i <= Dist(q, h, t)
    ensures Slot(q, h, i) == t <==> i == Dist(q, h, t)
  {
  }

  /** The tail slot is the next free one: the queue is full iff the tail's successor is the head. */
  lemma FullIff(q: Queue, mem: Memory)
    requires Valid(q, mem)
    ensures Succ(q, mem[q.tail]) == mem[q.head] <==> |Contents(q, mem)| == q.len - 1
  {
    DistSucc(q, mem[q.head], mem[q.tail]);
  }

  /** `qlength` leaves tail - head: the number of elements, or that minus len once the tail has wrapped; 0 iff empty. */
  lemma QlengthCounts(q: Queue, mem: Memory)
    requires Valid(q, mem)
    ensures mem[q.tail] - mem[q.head] == |Contents(q, mem)| || mem[q.tail] - mem[q.head] == |Contents(q, mem)| - q.len
    ensures mem[q.tail] - mem[q.head] == 0 <==> |Contents(q, mem)| == 0
  {
  }

  /** Enqueue on a queue that is not full appends `x` and keeps the queue well formed. */
  lemma EnqueueAppends(q: Queue, mem: Memory, x: int)
    requires Valid(q, mem) && |Contents(q, mem)| < q.len - 1
    ensures Valid(q, Enqueued(q, mem, x))
    ensures Contents(q, Enqueued(q, mem, x)) == Contents(q, mem) + [x]
  {
    var h, t := mem[q.head], mem[q.tail];
    var m := Enqueued(q, mem, x);
    DistSucc(q, h, t);
    assert m[q.head] == h && m[q.tail] == Succ(q, t);
    var s, s2 := Contents(q, mem), Contents(q, m);
    assert |s2| == |s| + 1;
    forall i | 0 <= i < |s2|
      ensures s2[i] == (s + [x])[i]
    {
      SlotBeforeTail(q, h, t, i);
    }
  }

  /** Enqueue on a full queue overwrites nothing in use but moves the tail onto the head: the queue reads as empty. */
  lemma EnqueueOverflowLoses(q: Queue, mem: Memory, x: int)
    requires Valid(q, mem) && |Contents(q, mem)| == q.len - 1
    ensures Valid(q, Enqueued(q, mem, x))
    ensures Contents(q, Enqueued(q, mem, x)) == []
  {
    FullIff(q, mem);
  }

  /** Dequeue on a non-empty queue reads the oldest element and removes it. */
  lemma DequeueTakesFirst(q: Queue, mem: Memory)
    requires Valid(q, mem) && |Contents(q, mem)| > 0
    ensures mem[mem[q.head]] == Contents(q, mem)[0]
    ensures Valid(q, Dequeued(q, mem))
    ensures Contents(q, Dequeued(q, mem)) == Contents(q, mem)[1..]
  {
    var h, t := mem[q.head], mem[q.tail];
    var m := Dequeued(q, mem);
    DistSucc(q, h, t);
    var s, s2 := Contents(q, mem), Contents(q, m);
    assert |s2| == |s| - 1;
    forall i | 0 <= i < |s2|
      ensures s2[i] == s[i + 1]
    {
      SlotSucc(q, h, i);
    }
  }

  /** Dequeue on an empty queue still advances the head, past the tail: the queue then reads as full of stale slots. */
  lemma DequeueEmptyWraps(q: Queue, mem: Memory)
    requires Valid(q, mem) && |Contents(q, mem)| == 0
    ensures Valid(q, Dequeued(q, mem))
    ensures |Contents(q, Dequeued(q, mem))| == q.len - 1
  {
    DistSucc(q, mem[q.head], mem[q.tail]);
  }

  /*
   * Whole runs of the fragments on a well-formed queue, stated in terms of
   * its contents.
   */

  lemma EnqueueKeepsHead(q: Queue, mem: Memory, x: int)
    requires Valid(q, mem)
    ensures Enqueued(q, mem, x)[q.head] == mem[q.head]
    ensures Succ(q, mem[q.tail]) == mem[q.head] <==> |Contents(q, mem)| == q.len - 1
  {
    FullIff(q, mem);
  }

  /** `enqueue` on a queue with room: no fault, `x` appended, `reg` left holding the head index. */
  lemma EnqueueFifo(p: seq<Instr>, k: nat, q: Queue, reg: Reg, t0: Reg, regs: Regs, mem: Memory, tr: seq<Signal>) returns (n: nat)
    requires reg != t0 && Valid(q, mem) && |Contents(q, mem)| < q.len - 1
    requires At(p, k, Enqueue(q, reg, t0))
    ensures Goes(Exec(p), Config(Frame(k, regs), mem, tr), n,
                 Config(Frame(k + 12, regs[t0 := Succ(q, mem[q.tail]) - mem[q.head]][reg := mem[q.head]]), Enqueued(q, mem, regs[reg]), tr))
    ensures Valid(q, Enqueued(q, mem, regs[reg]))
    ensures Contents(q, Enqueued(q, mem, regs[reg])) == Contents(q, mem) + [regs[reg]]
  {
    n := EnqueueRuns(p, k, q, reg, t0, regs, mem, tr);
    EnqueueKeepsHead(q, mem, regs[reg]);
    EnqueueAppends(q, mem, regs[reg]);
    Same(Exec(p), Config(Frame(k, regs), mem, tr), n,
         Config(Frame(k + 12, regs[t0 := Succ(q, mem[q.tail]) - Enqueued(q, mem, regs[reg])[q.head]][reg := Enqueued(q, mem, regs[reg])[q.head]]), Enqueued(q, mem, regs[reg]), if Succ(q, mem[q.tail]) == Enqueued(q, mem, regs[reg])[q.head] then tr + [FULL] else tr),
         Config(Frame(k + 12, regs[t0 := Succ(q, mem[q.tail]) - mem[q.head]][reg := mem[q.head]]), Enqueued(q, mem, regs[reg]), tr));
  }

  /** `enqueue` on a full queue: `x` is written, the tail moves onto the head so the queue reads as empty, and the fault is raised after. */
  lemma EnqueueOnFull(p: seq<Instr>, k: nat, q: Queue, reg: Reg, t0: Reg, regs: Regs, mem: Memory, tr: seq<Signal>) returns (n: nat)
    requires reg != t0 && Valid(q, mem) && |Contents(q, mem)| == q.len - 1
    requires At(p, k, Enqueue(q, reg, t0))
    ensures Goes(Exec(p), Config(Frame(k, regs), mem, tr), n,
                 Config(Frame(k + 12, regs[t0 := 0][reg := mem[q.head]]), Enqueued(q, mem, regs[reg]), tr + [FULL]))
    ensures Contents(q, Enqueued(q, mem, regs[reg])) == []
  {
    n := EnqueueRuns(p, k, q, reg, t0, regs, mem, tr);
    EnqueueKeepsHead(q, mem, regs[reg]);
    EnqueueOverflowLoses(q, mem, regs[reg]);
    Same(Exec(p), Config(Frame(k, regs), mem, tr), n,
         Config(Frame(k + 12, regs[t0 := Succ(q, mem[q.tail]) - Enqueued(q, mem, regs[reg])[q.head]][reg := Enqueued(q, mem, regs[reg])[q.head]]), Enqueued(q, mem, regs[reg]), if Succ(q, mem[q.tail]) == Enqueued(q, mem, regs[reg])[q.head] then tr + [FULL] else tr),
         Config(Frame(k + 12, regs[t0 := 0][reg := mem[q.head]]), Enqueued(q, mem, regs[reg]), tr + [FULL]));
  }

  /** `dequeue` on a non-empty queue: no fault, `reg` gets the oldest element and it leaves the queue. */
  lemma DequeueFifo(p: seq<Instr>, k: nat, q: Queue, reg: Reg, t0: Reg, regs: Regs, mem: Memory, tr: seq<Signal>) returns (n: nat)
    requires reg != t0 && Valid(q, mem) && |Contents(q, mem)| > 0
    requires At(p, k, Dequeue(q, reg, t0))
    ensures Goes(Exec(p), Config(Frame(k, regs), mem, tr), n,
                 Config(Frame(k + 13, regs[t0 := Succ(q, mem[q.head])][reg := Contents(q, mem)[0]]), Dequeued(q, mem), tr))
    ensures Valid(q, Dequeued(q, mem))
    ensures Contents(q, Dequeued(q, mem)) == Contents(q, mem)[1..]
  {
    n := DequeueRuns(p, k, q, reg, t0, regs, mem, tr);
    DequeueTakesFirst(q, mem);
    Same(Exec(p), Config(Frame(k, regs), mem, tr), n,
         Config(Frame(k + 13, regs[t0 := Succ(q, mem[q.head])][reg := mem[mem[q.head]]]), Dequeued(q, mem), if mem[q.tail] == mem[q.head] then tr + [EMPTY] else tr),
         Config(Frame(k + 13, regs[t0 := Succ(q, mem[q.head])][reg := Contents(q, mem)[0]]), Dequeued(q, mem), tr));
  }

  /** `dequeue` on an empty queue raises the fault and carries on: it loads a stale slot and moves the head past the tail. */
  lemma DequeueOnEmpty(p: seq<Instr>, k: nat, q: Queue, reg: Reg, t0: Reg, regs: Regs, mem: Memory, tr: seq<Signal>) returns (n: nat)
    requires reg != t0 && Valid(q, mem) && |Contents(q, mem)| == 0
    requires At(p, k, Dequeue(q, reg, t0))
    ensures Goes(Exec(p), Config(Frame(k, regs), mem, tr), n,
                 Config(Frame(k + 13, regs[t0 := Succ(q, mem[q.head])][reg := mem[mem[q.head]]]), Dequeued(q, mem), tr + [EMPTY]))
    ensures |Contents(q, Dequeued(q, mem))| == q.len - 1
  {
    n := DequeueRuns(p, k, q, reg, t0, regs, mem, tr);
    DequeueEmptyWraps(q, mem);
    Same(Exec(p), Config(Frame(k, regs), mem, tr), n,
         Config(Frame(k + 13, regs[t0 := Succ(q, mem[q.head])][reg := mem[mem[q.head]]]), Dequeued(q, mem), if mem[q.tail] == mem[q.head] then tr + [EMPTY] else tr),
         Config(Frame(k + 13, regs[t0 := Succ(q, mem[q.head])][reg := mem[mem[q.head]]]), Dequeued(q, mem), tr + [EMPTY]));
  }

  /** `DequeueFifo` for a thread given as one configuration; the configuration it reaches is returned. */
  lemma DequeueFrom(p: seq<Instr>, k: nat, q: Queue, reg: Reg, t0: Reg, s: Config) returns (n: nat, s2: Config)
    requires s.frame.pc == k && reg != t0 && Valid(q, s.mem) && |Contents(q, s.mem)| > 0
    requires At(p, k, Dequeue(q, reg, t0))
    ensures s2 == Config(Frame(k + 13, s.frame.regs[t0 := Succ(q, s.mem[q.head])][reg := Contents(q, s.mem)[0]]), Dequeued(q, s.mem), s.trace)
    ensures Goes(Exec(p), s, n, s2)
  {
    n := DequeueFifo(p, k, q, reg, t0, s.frame.regs, s.mem, s.trace);
    s2 := Config(Frame(k + 13, s.frame.regs[t0 := Succ(q, s.mem[q.head])][reg := Contents(q, s.mem)[0]]), Dequeued(q, s.mem), s.trace);
    assert s == Config(Frame(k, s.frame.regs), s.mem, s.trace);
  }
}
