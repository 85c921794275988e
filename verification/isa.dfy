/*
 * The instruction set of the register machine and the step function of its
 * executor (conc.js, `Frame` and `Scheduler.#execute`).
 *
 * Instructions are a closed datatype instead of text; register indices and
 * memory addresses that appear as operands are checked by their types.
 */
module Isa {

  /** Shared memory cells, registers per frame, instructions per turn. */
  const MEM_SIZE: int := 50
  const REG_SIZE: int := 5
  const SLICE: int := 20

  type Reg = r: int | 0 <= r < REG_SIZE
  type Addr = a: int | 0 <= a < MEM_SIZE
  type Regs = s: seq<int> | |s| == REG_SIZE witness [0, 0, 0, 0, 0]
  type Memory = s: seq<int> | |s| == MEM_SIZE witness seq(MEM_SIZE, _ => 0)

  datatype Option<T> = None | Some(value: T)

  /** A label name: a fixed tag and the id that keeps call sites apart. */
  datatype Label = Label(tag: string, id: int)

  /** A jump target: an absolute index, an offset from the branch itself (`:+N`, `:-N`), or a label. */
  datatype Target = Abs(index: int) | Rel(offset: int) | Named(name: Label)

  datatype Instr =
    | Prt(r: Reg)
    | Prs(text: string)
    | Imm(r: Reg, v: int)
    | Add(r: Reg, s: Reg)
    | Sub(r: Reg, s: Reg)
    | Adi(r: Reg, v: int)
    | Sbi(r: Reg, v: int)
    | Lod(r: Reg, a: Addr)
    | Sto(r: Reg, a: Addr)
    | Ldr(r: Reg, s: Reg)
    | Str(r: Reg, s: Reg)
    | Br(target: Target)
    | Btr(r: Reg, target: Target)
    | Bfs(r: Reg, target: Target)
    | Cas(r: Reg, a: Addr)
    | Yld
    | Blk
    | Pst(r: Reg)
    | Lab(name: Label)
    | Err(reason: string)
    | Undefined(op: string)

  /** A thread's program counter and private register file. */
  datatype Frame = Frame(pc: int, regs: Regs)

  /** What an instruction may raise; every fault is caught by the scheduler. */
  datatype Fault =
    | UndefinedInstruction(op: string)
    | Raised(reason: string)
    | UnknownLabel(name: Label)
    | BadAddress(addr: int)
    | NoInstruction(pc: int)

  /** What a step reports to the scheduler besides its effect on frame and memory. */
  datatype Signal = Normal | Yield | Block | Wake(id: int) | Faulted(fault: Fault)

  datatype Outcome = Outcome(frame: Frame, mem: Memory, signal: Signal)

  predicate IsBranch(cmd: Instr) {
    cmd.Br? || cmd.Btr? || cmd.Bfs?
  }

  /** Index of the first `lab` carrying `name`, if any. */
  function Find(prog: seq<Instr>, name: Label): (r: Option<nat>)
    ensures r.Some? ==> r.value < |prog| && prog[r.value] == Lab(name)
    ensures r.Some? ==> forall i :: 0 <= i < r.value ==> prog[i] != Lab(name)
    ensures r.None? ==> forall i :: 0 <= i < |prog| ==> prog[i] != Lab(name)
  {
    if prog == [] then None
    else if prog[0] == Lab(name) then Some(0)
    else match Find(prog[1..], name)
      case None => None
      case Some(i) => Some(i + 1)
  }

  /** The `goto` of a branch whose condition holds. */
  function Jump(prog: seq<Instr>, f: Frame, mem: Memory, t: Target): Outcome {
    match t
    case Abs(i) => Outcome(f.(pc := i), mem, Normal)
    case Rel(o) => Outcome(f.(pc := f.pc + o), mem, Normal)
    case Named(l) =>
      match Find(prog, l)
      case Some(i) => Outcome(f.(pc := i), mem, Normal)
      case None => Outcome(f.(pc := f.pc + 1), mem, Faulted(UnknownLabel(l)))
  }

  /** What a non-branch instruction does to the registers and the memory, and what it reports. */
  datatype Effect = Effect(regs: Regs, mem: Memory, signal: Signal)

  /**
   * The effect of every instruction but a branch. `prt` and `prs` only print
   * and `lab` only marks a position, so all three leave the state alone.
   */
  function Apply(cmd: Instr, regs: Regs, mem: Memory): Effect
    requires !IsBranch(cmd)
  {
    match cmd
    case Prt(_) => Effect(regs, mem, Normal)
    case Prs(_) => Effect(regs, mem, Normal)
    case Imm(r, v) => Effect(regs[r := v], mem, Normal)
    case Add(r, s) => Effect(regs[r := regs[r] + regs[s]], mem, Normal)
    case Sub(r, s) => Effect(regs[r := regs[r] - regs[s]], mem, Normal)
    case Adi(r, v) => Effect(regs[r := regs[r] + v], mem, Normal)
    case Sbi(r, v) => Effect(regs[r := regs[r] - v], mem, Normal)
    case Lod(r, a) => Effect(regs[r := mem[a]], mem, Normal)
    case Sto(r, a) => Effect(regs, mem[a := regs[r]], Normal)
    case Ldr(r, s) =>
      if 0 <= regs[s] < MEM_SIZE then Effect(regs[r := mem[regs[s]]], mem, Normal)
      else Effect(regs, mem, Faulted(BadAddress(regs[s])))
    case Str(r, s) =>
      if 0 <= regs[s] < MEM_SIZE then Effect(regs, mem[regs[s] := regs[r]], Normal)
      else Effect(regs, mem, Faulted(BadAddress(regs[s])))
    case Cas(r, a) => Effect(regs[r := mem[a]], if mem[a] == 0 then mem[a := 1] else mem, Normal)
    case Yld => Effect(regs, mem, Yield)
    case Blk => Effect(regs, mem, Block)
    case Pst(r) => Effect(regs, mem, Wake(regs[r]))
    case Lab(_) => Effect(regs, mem, Normal)
    case Err(reason) => Effect(regs, mem, Faulted(Raised(reason)))
    case Undefined(op) => Effect(regs, mem, Faulted(UndefinedInstruction(op)))
  }

  /** Whether a branch jumps: `br` always, `btr` on a nonzero and `bfs` on a zero register. */
  predicate Taken(cmd: Instr, regs: Regs)
    requires IsBranch(cmd)
  {
    match cmd
    case Br(_) => true
    case Btr(r, _) => regs[r] != 0
    case Bfs(r, _) => regs[r] == 0
  }

  /**
   * Executes `cmd`, the instruction at `f.pc` of `prog`: a branch either
   * jumps or falls through, every other instruction takes its effect and
   * advances pc by one.
   */
  function Step(cmd: Instr, prog: seq<Instr>, f: Frame, mem: Memory): Outcome {
    if IsBranch(cmd) then
      if Taken(cmd, f.regs) then Jump(prog, f, mem, cmd.target)
      else Outcome(Frame(f.pc + 1, f.regs), mem, Normal)
    else
      var e := Apply(cmd, f.regs, mem);
      Outcome(Frame(f.pc + 1, e.regs), e.mem, e.signal)
  }

  /** The register an instruction may write. */
  function WrittenReg(cmd: Instr): Option<Reg> {
    match cmd
    case Imm(r, _) => Some(r)
    case Add(r, _) => Some(r)
    case Sub(r, _) => Some(r)
    case Adi(r, _) => Some(r)
    case Sbi(r, _) => Some(r)
    case Lod(r, _) => Some(r)
    case Ldr(r, _) => Some(r)
    case Cas(r, _) => Some(r)
    case _ => None
  }

  /** The memory cell an instruction may write; for `str` it depends on the registers. */
  function WrittenCell(cmd: Instr, regs: Regs): Option<int> {
    match cmd
    case Sto(_, a) => Some(a)
    case Cas(_, a) => Some(a)
    case Str(_, s) => Some(regs[s])
    case _ => None
  }

  /**
   * Every instruction changes at most one named register and one memory cell,
   * and every instruction except a branch advances pc by exactly one.
   */
  lemma StepFootprint(cmd: Instr, prog: seq<Instr>, f: Frame, mem: Memory)
    ensures var o := Step(cmd, prog, f, mem);
      && (forall q: Reg :: WrittenReg(cmd) != Some(q) ==> o.frame.regs[q] == f.regs[q])
      && (forall x: Addr :: WrittenCell(cmd, f.regs) != Some(x) ==> o.mem[x] == mem[x])
      && (!IsBranch(cmd) ==> o.frame.pc == f.pc + 1)
  {
  }

  /** `cas` is a test-and-set: it returns the old cell and sets it to 1 only when it was 0. */
  lemma CasTestAndSet(r: Reg, a: Addr, prog: seq<Instr>, f: Frame, mem: Memory)
    ensures var o := Step(Cas(r, a), prog, f, mem);
      && o.frame == Frame(f.pc + 1, f.regs[r := mem[a]])
      && o.mem[a] != 0
      && (o.mem[a] == 1 <== mem[a] == 0)
      && (mem[a] != 0 ==> o.mem == mem)
      && (forall x: Addr :: x != a ==> o.mem[x] == mem[x])
      && o.signal == Normal
  {
  }

  /**
   * `btr` jumps iff its register is nonzero and `bfs` iff it is zero; a jump
   * sets pc to an absolute index, adds an offset to the branch's own pc, or
   * goes to the first matching label. Branches change no register and no cell.
   */
  lemma {:induction false} BranchStep(cmd: Instr, prog: seq<Instr>, f: Frame, mem: Memory)
    requires IsBranch(cmd)
    ensures var o := Step(cmd, prog, f, mem);
      var taken := cmd.Br? || (cmd.Btr? && f.regs[cmd.r] != 0) || (cmd.Bfs? && f.regs[cmd.r] == 0);
      && o.frame.regs == f.regs && o.mem == mem
      && (!taken ==> o.frame.pc == f.pc + 1 && o.signal == Normal)
      && (taken && cmd.target.Abs? ==> o.frame.pc == cmd.target.index && o.signal == Normal)
      && (taken && cmd.target.Rel? ==> o.frame.pc == f.pc + cmd.target.offset && o.signal == Normal)
      && (taken && cmd.target.Named? && Find(prog, cmd.target.name).Some? ==>
            o.frame.pc == Find(prog, cmd.target.name).value && o.signal == Normal)
      && (taken && cmd.target.Named? && Find(prog, cmd.target.name).None? ==>
            o.frame.pc == f.pc + 1 && o.signal == Faulted(UnknownLabel(cmd.target.name)))
  {
  }

  /**
   * The scheduler hears `yield` exactly from `yld`, `block` exactly from
   * `blk` and a wake-up exactly from `pst`; each of them only advances pc.
   */
  lemma SignalSources(cmd: Instr, prog: seq<Instr>, f: Frame, mem: Memory)
    ensures var o := Step(cmd, prog, f, mem);
      && (o.signal == Yield <==> cmd == Yld)
      && (o.signal == Block <==> cmd == Blk)
      && (o.signal.Wake? <==> cmd.Pst?)
      && (cmd.Pst? ==> o.signal == Wake(f.regs[cmd.r]))
      && (cmd.Yld? || cmd.Blk? || cmd.Pst? ==> o.frame == Frame(f.pc + 1, f.regs) && o.mem == mem)
  {
  }

  /**
   * A fault leaves registers and memory alone and advances pc past the
   * faulting instruction; `err` and an undefined opcode always fault.
   */
  lemma FaultsAdvance(cmd: Instr, prog: seq<Instr>, f: Frame, mem: Memory)
    ensures var o := Step(cmd, prog, f, mem);
      && (o.signal.Faulted? ==> o.frame == Frame(f.pc + 1, f.regs) && o.mem == mem)
      && (cmd.Err? || cmd.Undefined? ==> o.signal.Faulted?)
      && (o.signal.Faulted? ==> cmd.Err? || cmd.Undefined? || cmd.Ldr? || cmd.Str? || IsBranch(cmd))
  {
  }

  /** A `lab` with no earlier namesake is what a named jump finds. */
  lemma {:induction false} FindAt(prog: seq<Instr>, i: nat, name: Label)
    requires i < |prog| && prog[i] == Lab(name)
    requires forall j :: 0 <= j < i ==> prog[j] != Lab(name)
    ensures Find(prog, name) == Some(i)
  {
    if i > 0 {
      assert prog[0] != Lab(name);
      forall j | 0 <= j < i - 1 ensures prog[1..][j] != Lab(name) {
        assert prog[1..][j] == prog[j + 1];
      }
      FindAt(prog[1..], i - 1, name);
    }
  }

  /** A label in the second part of a program is found there unless the first part has it. */
  lemma {:induction false} FindAppend(a: seq<Instr>, b: seq<Instr>, name: Label)
    ensures Find(a + b, name) ==
      if Find(a, name).Some? then Find(a, name)
      else match Find(b, name) case None => None case Some(i) => Some(|a| + i)
  {
    if a == [] {
      assert a + b == b;
    } else {
      assert (a + b)[1..] == a[1..] + b;
      FindAppend(a[1..], b, name);
    }
  }
}
