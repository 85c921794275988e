/*
 * Single-threaded runs of an instruction sequence, used to state what a
 * generated fragment does. The thread runs its own instructions one after
 * the other; a `yld` or `blk` is recorded in the trace and the thread goes
 * on where it would resume, and a run is defined only while pc stays inside
 * the program.
 */
module Runs {
  import opened Isa

  /** A thread as a fragment sees it: its frame, the shared memory, and the signals raised so far. */
  datatype Config = Config(frame: Frame, mem: Memory, trace: seq<Signal>)

  /** Executes the instruction at pc; every signal but `Normal` is appended to the trace. */
  function Next(prog: seq<Instr>, c: Config): Config
    requires 0 <= c.frame.pc < |prog|
  {
    var o := Step(prog[c.frame.pc], prog, c.frame, c.mem);
    Config(o.frame, o.mem, if o.signal == Normal then c.trace else c.trace + [o.signal])
  }

  /** The machine running `prog` alone: it can step exactly while pc is inside the program. */
  function Exec(prog: seq<Instr>): Config -> Option<Config> {
    (c: Config) => if 0 <= c.frame.pc < |prog| then Some(Next(prog, c)) else None
  }

  /**
   * From `c` the machine `next` takes exactly `n` steps and reaches `c2`.
   * The definition is split over two predicates so that the verifier
   * unfolds a run one step at a time, and only where a proof asks for it.
   * The measure is written `n + 0` rather than `n`: with a bare parameter
   * as its measure, a run of literal length would be unrolled to its end
   * wherever it is mentioned.
   */
  ghost predicate Goes(next: Config -> Option<Config>, c: Config, n: nat, c2: Config)
    decreases n + 0, 1
  {
    if n == 0 then c2 == c else Moves(next, c, n, c2)
  }

  /** A run of `n` > 0 steps: a first step, then `n - 1` more. */
  ghost predicate Moves(next: Config -> Option<Config>, c: Config, n: nat, c2: Config)
    decreases n + 0, 0
  {
    n > 0 && next(c).Some? && Goes(next, next(c).value, n - 1, c2)
  }

  /** Two runs that meet compose into one. */
  lemma {:induction false} Then(next: Config -> Option<Config>, c1: Config, a: nat, c2: Config, b: nat, c3: Config)
    requires Goes(next, c1, a, c2)
    requires Goes(next, c2, b, c3)
    ensures Goes(next, c1, a + b, c3)
    decreases a
  {
    if a > 0 {
      Then(next, next(c1).value, a - 1, c2, b, c3);
    }
  }

  /** A run followed by one `blk`: the thread reports Block and moves past it. */
  lemma ThenBlk(q: seq<Instr>, c: Config, a: nat, s: Config, n: nat, s2: Config)
    requires Goes(Exec(q), c, a, s) && 0 <= s.frame.pc < |q| && q[s.frame.pc] == Blk
    requires n == a + 1 && s2 == Config(Frame(s.frame.pc + 1, s.frame.regs), s.mem, s.trace + [Block])
    ensures Goes(Exec(q), c, n, s2)
  {
    OneBlk(q, s);
    Then(Exec(q), c, a, s, 1, s2);
  }

  /** Three runs in a row make one run, whose length is the sum. */
  lemma Then3(next: Config -> Option<Config>, c1: Config, a: nat, c2: Config, b: nat, c3: Config, d: nat, c4: Config) returns (n: nat)
    requires Goes(next, c1, a, c2) && Goes(next, c2, b, c3) && Goes(next, c3, d, c4)
    ensures n == a + b + d && Goes(next, c1, n, c4)
  {
    Then(next, c1, a, c2, b, c3);
    Then(next, c1, a + b, c3, d, c4);
    n := a + b + d;
  }

  /** `Then` with the total length named up front, so that callers can state it as their own count. */
  lemma ThenTo(next: Config -> Option<Config>, c1: Config, a: nat, c2: Config, b: nat, c3: Config, n: nat)
    requires Goes(next, c1, a, c2) && Goes(next, c2, b, c3) && n == a + b
    ensures Goes(next, c1, n, c3)
  {
    Then(next, c1, a, c2, b, c3);
  }

  /** A run's end state may be written in any form equal to it. */
  lemma Same(next: Config -> Option<Config>, c: Config, n: nat, c2: Config, c3: Config)
    requires Goes(next, c, n, c2) && c2 == c3
    ensures Goes(next, c, n, c3)
  {
  }

  /** A single step is a run of length one. */
  lemma One(q: seq<Instr>, c: Config, c1: Config)
    requires 0 <= c.frame.pc < |q| && Next(q, c) == c1
    ensures Goes(Exec(q), c, 1, c1)
  {
  }

  /*
   * One lemma per kind of instruction: the single step it takes, as a run of
   * length one (the cases of `#execute`).
   */

  /** A step of an instruction that is not a branch: pc advances and the effect of `Apply` is taken. */
  lemma OneEffect(q: seq<Instr>, c: Config, e: Effect)
    requires 0 <= c.frame.pc < |q| && !IsBranch(q[c.frame.pc]) && Apply(q[c.frame.pc], c.frame.regs, c.mem) == e
    ensures Goes(Exec(q), c, 1, Config(Frame(c.frame.pc + 1, e.regs), e.mem, if e.signal == Normal then c.trace else c.trace + [e.signal]))
  {
    One(q, c, Config(Frame(c.frame.pc + 1, e.regs), e.mem, if e.signal == Normal then c.trace else c.trace + [e.signal]));
  }

  /** `prt`, `prs` and `lab` only advance pc. */
  lemma OneSkip(q: seq<Instr>, c: Config)
    requires 0 <= c.frame.pc < |q| && (q[c.frame.pc].Prt? || q[c.frame.pc].Prs? || q[c.frame.pc].Lab?)
    ensures Goes(Exec(q), c, 1, c.(frame := c.frame.(pc := c.frame.pc + 1)))
  {
    OneEffect(q, c, Effect(c.frame.regs, c.mem, Normal));
  }

  lemma OneImm(q: seq<Instr>, c: Config, r: Reg, v: int)
    requires 0 <= c.frame.pc < |q| && q[c.frame.pc] == Imm(r, v)
    ensures Goes(Exec(q), c, 1, c.(frame := Frame(c.frame.pc + 1, c.frame.regs[r := v])))
  {
    OneEffect(q, c, Effect(c.frame.regs[r := v], c.mem, Normal));
  }

  lemma OneAdd(q: seq<Instr>, c: Config, r: Reg, s: Reg)
    requires 0 <= c.frame.pc < |q| && q[c.frame.pc] == Add(r, s)
    ensures Goes(Exec(q), c, 1, c.(frame := Frame(c.frame.pc + 1, c.frame.regs[r := c.frame.regs[r] + c.frame.regs[s]])))
  {
    OneEffect(q, c, Effect(c.frame.regs[r := c.frame.regs[r] + c.frame.regs[s]], c.mem, Normal));
  }

  lemma OneSub(q: seq<Instr>, c: Config, r: Reg, s: Reg)
    requires 0 <= c.frame.pc < |q| && q[c.frame.pc] == Sub(r, s)
    ensures Goes(Exec(q), c, 1, c.(frame := Frame(c.frame.pc + 1, c.frame.regs[r := c.frame.regs[r] - c.frame.regs[s]])))
  {
    OneEffect(q, c, Effect(c.frame.regs[r := c.frame.regs[r] - c.frame.regs[s]], c.mem, Normal));
  }

  lemma OneAdi(q: seq<Instr>, c: Config, r: Reg, v: int)
    requires 0 <= c.frame.pc < |q| && q[c.frame.pc] == Adi(r, v)
    ensures Goes(Exec(q), c, 1, c.(frame := Frame(c.frame.pc + 1, c.frame.regs[r := c.frame.regs[r] + v])))
  {
    OneEffect(q, c, Effect(c.frame.regs[r := c.frame.regs[r] + v], c.mem, Normal));
  }

  lemma OneSbi(q: seq<Instr>, c: Config, r: Reg, v: int)
    requires 0 <= c.frame.pc < |q| && q[c.frame.pc] == Sbi(r, v)
    ensures Goes(Exec(q), c, 1, c.(frame := Frame(c.frame.pc + 1, c.frame.regs[r := c.frame.regs[r] - v])))
  {
    OneEffect(q, c, Effect(c.frame.regs[r := c.frame.regs[r] - v], c.mem, Normal));
  }

  lemma OneLod(q: seq<Instr>, c: Config, r: Reg, a: Addr)
    requires 0 <= c.frame.pc < |q| && q[c.frame.pc] == Lod(r, a)
    ensures Goes(Exec(q), c, 1, c.(frame := Frame(c.frame.pc + 1, c.frame.regs[r := c.mem[a]])))
  {
    OneEffect(q, c, Effect(c.frame.regs[r := c.mem[a]], c.mem, Normal));
  }

  lemma OneSto(q: seq<Instr>, c: Config, r: Reg, a: Addr)
    requires 0 <= c.frame.pc < |q| && q[c.frame.pc] == Sto(r, a)
    ensures Goes(Exec(q), c, 1, Config(Frame(c.frame.pc + 1, c.frame.regs), c.mem[a := c.frame.regs[r]], c.trace))
  {
    OneEffect(q, c, Effect(c.frame.regs, c.mem[a := c.frame.regs[r]], Normal));
  }

  /** `ldr r, s` with an address in range. */
  lemma OneLdr(q: seq<Instr>, c: Config, r: Reg, s: Reg, a: Addr)
    requires 0 <= c.frame.pc < |q| && q[c.frame.pc] == Ldr(r, s) && c.frame.regs[s] == a
    ensures Goes(Exec(q), c, 1, c.(frame := Frame(c.frame.pc + 1, c.frame.regs[r := c.mem[a]])))
  {
    OneEffect(q, c, Effect(c.frame.regs[r := c.mem[a]], c.mem, Normal));
  }

  /** `str r, s` with an address in range. */
  lemma OneStr(q: seq<Instr>, c: Config, r: Reg, s: Reg, a: Addr)
    requires 0 <= c.frame.pc < |q| && q[c.frame.pc] == Str(r, s) && c.frame.regs[s] == a
    ensures Goes(Exec(q), c, 1, Config(Frame(c.frame.pc + 1, c.frame.regs), c.mem[a := c.frame.regs[r]], c.trace))
  {
    OneEffect(q, c, Effect(c.frame.regs, c.mem[a := c.frame.regs[r]], Normal));
  }

  lemma OneCas(q: seq<Instr>, c: Config, r: Reg, a: Addr)
    requires 0 <= c.frame.pc < |q| && q[c.frame.pc] == Cas(r, a)
    ensures Goes(Exec(q), c, 1,
      Config(Frame(c.frame.pc + 1, c.frame.regs[r := c.mem[a]]), if c.mem[a] == 0 then c.mem[a := 1] else c.mem, c.trace))
  {
    OneEffect(q, c, Effect(c.frame.regs[r := c.mem[a]], if c.mem[a] == 0 then c.mem[a := 1] else c.mem, Normal));
  }

  lemma OneYld(q: seq<Instr>, c: Config)
    requires 0 <= c.frame.pc < |q| && q[c.frame.pc] == Yld
    ensures Goes(Exec(q), c, 1, Config(Frame(c.frame.pc + 1, c.frame.regs), c.mem, c.trace + [Yield]))
  {
    OneEffect(q, c, Effect(c.frame.regs, c.mem, Yield));
  }

  lemma OneBlk(q: seq<Instr>, c: Config)
    requires 0 <= c.frame.pc < |q| && q[c.frame.pc] == Blk
    ensures Goes(Exec(q), c, 1, Config(Frame(c.frame.pc + 1, c.frame.regs), c.mem, c.trace + [Block]))
  {
    OneEffect(q, c, Effect(c.frame.regs, c.mem, Block));
  }

  lemma OnePst(q: seq<Instr>, c: Config, r: Reg)
    requires 0 <= c.frame.pc < |q| && q[c.frame.pc] == Pst(r)
    ensures Goes(Exec(q), c, 1, Config(Frame(c.frame.pc + 1, c.frame.regs), c.mem, c.trace + [Wake(c.frame.regs[r])]))
  {
    OneEffect(q, c, Effect(c.frame.regs, c.mem, Wake(c.frame.regs[r])));
  }

  lemma OneErr(q: seq<Instr>, c: Config, reason: string)
    requires 0 <= c.frame.pc < |q| && q[c.frame.pc] == Err(reason)
    ensures Goes(Exec(q), c, 1, Config(Frame(c.frame.pc + 1, c.frame.regs), c.mem, c.trace + [Faulted(Raised(reason))]))
  {
    OneEffect(q, c, Effect(c.frame.regs, c.mem, Faulted(Raised(reason))));
  }

  /** A branch that is not taken advances pc. */
  lemma OneFall(q: seq<Instr>, c: Config)
    requires 0 <= c.frame.pc < |q| && IsBranch(q[c.frame.pc]) && !Taken(q[c.frame.pc], c.frame.regs)
    ensures Goes(Exec(q), c, 1, c.(frame := c.frame.(pc := c.frame.pc + 1)))
  {
    One(q, c, c.(frame := c.frame.(pc := c.frame.pc + 1)));
  }

  /** A taken branch with an offset adds it to its own pc. */
  lemma OneRel(q: seq<Instr>, c: Config, o: int)
    requires 0 <= c.frame.pc < |q| && IsBranch(q[c.frame.pc]) && Taken(q[c.frame.pc], c.frame.regs)
    requires q[c.frame.pc].target == Rel(o)
    ensures Goes(Exec(q), c, 1, c.(frame := c.frame.(pc := c.frame.pc + o)))
  {
    One(q, c, c.(frame := c.frame.(pc := c.frame.pc + o)));
  }

  /** A taken branch to a label goes to the first `lab` of that name. */
  lemma {:induction false} OneNamed(q: seq<Instr>, c: Config, l: Label, i: nat)
    requires 0 <= c.frame.pc < |q| && IsBranch(q[c.frame.pc]) && Taken(q[c.frame.pc], c.frame.regs)
    requires q[c.frame.pc].target == Named(l) && Find(q, l) == Some(i)
    ensures Goes(Exec(q), c, 1, c.(frame := c.frame.(pc := i)))
  {
    One(q, c, c.(frame := c.frame.(pc := i)));
  }

  /** The machine is deterministic: a run of `n` steps has one end. */
  lemma {:induction false} Deterministic(next: Config -> Option<Config>, c: Config, n: nat, c2: Config, c3: Config)
    requires Goes(next, c, n, c2)
    requires Goes(next, c, n, c3)
    ensures c2 == c3
    decreases n
  {
    if n > 0 {
      Deterministic(next, next(c).value, n - 1, c2, c3);
    }
  }

  /** A map `h` that commutes with the steps carries every run of `n1` to a run of `n2`. */
  lemma {:induction false} Simulate(n1: Config -> Option<Config>, n2: Config -> Option<Config>, h: Config -> Config,
                                    c: Config, n: nat, c2: Config)
    requires forall x :: n1(x).Some? ==> n2(h(x)) == Some(h(n1(x).value))
    requires Goes(n1, c, n, c2)
    ensures Goes(n2, h(c), n, h(c2))
    decreases n
  {
    if n > 0 {
      Simulate(n1, n2, h, n1(c).value, n - 1, c2);
    }
  }

  /** A property that every step keeps holds at the end of every run. */
  lemma {:induction false} Preserved(next: Config -> Option<Config>, inv: Config -> bool, c: Config, n: nat, c2: Config)
    requires forall x :: inv(x) && next(x).Some? ==> inv(next(x).value)
    requires inv(c)
    requires Goes(next, c, n, c2)
    ensures inv(c2)
    decreases n
  {
    if n > 0 {
      Preserved(next, inv, next(c).value, n - 1, c2);
    }
  }

  /** `q` sits in `p` at offset `k`. */
  predicate At(p: seq<Instr>, k: nat, q: seq<Instr>) {
    k + |q| <= |p| && forall i :: 0 <= i < |q| ==> p[k + i] == q[i]
  }

  /** Both halves of a concatenation sit in `p` where the whole does. */
  lemma AtSplit(p: seq<Instr>, k: nat, a: seq<Instr>, b: seq<Instr>)
    requires At(p, k, a + b)
    ensures At(p, k, a) && At(p, k + |a|, b)
  {
    forall i | 0 <= i < |a| ensures p[k + i] == a[i] {
      assert (a + b)[i] == a[i];
    }
    forall i | 0 <= i < |b| ensures p[k + |a| + i] == b[i] {
      assert (a + b)[|a| + i] == b[i];
    }
  }

  /**
   * Every branch of `q` leads somewhere that means the same in `q` alone
   * and in `q` placed at offset `k` of `p`: no absolute targets, and every
   * label it jumps to is found in `q` and found at the shifted index in `p`.
   */
  ghost predicate Relocatable(q: seq<Instr>, p: seq<Instr>, k: nat) {
    && At(p, k, q)
    && forall i :: 0 <= i < |q| && IsBranch(q[i]) ==>
         match q[i].target
         case Abs(_) => false
         case Rel(_) => true
         case Named(l) => Find(q, l).Some? && Find(p, l) == Some(k + Find(q, l).value)
  }

  function Shifted(c: Config, k: int): Config {
    c.(frame := c.frame.(pc := c.frame.pc + k))
  }

  lemma StepShift(q: seq<Instr>, p: seq<Instr>, k: nat, c: Config)
    requires Relocatable(q, p, k)
    requires 0 <= c.frame.pc < |q|
    ensures 0 <= c.frame.pc + k < |p|
    ensures Next(p, Shifted(c, k)) == Shifted(Next(q, c), k)
  {
    assert p[k + c.frame.pc] == q[c.frame.pc];
  }

  /**
   * Position independence: a run of a relocatable fragment is the same run,
   * shifted, when the fragment is embedded in a larger program.
   */
  lemma Relocate(q: seq<Instr>, p: seq<Instr>, k: nat, c: Config, n: nat, c2: Config)
    requires Relocatable(q, p, k)
    requires Goes(Exec(q), c, n, c2)
    ensures Goes(Exec(p), Shifted(c, k), n, Shifted(c2, k))
  {
    var h := (x: Config) => Shifted(x, k);
    forall x | Exec(q)(x).Some?
      ensures Exec(p)(h(x)) == Some(h(Exec(q)(x).value))
    {
      StepShift(q, p, k, x);
    }
    Simulate(Exec(q), Exec(p), h, c, n, c2);
  }

  /** All branch targets of `q` lie in [0, |q|], and none is absolute. */
  ghost predicate TargetsWithin(q: seq<Instr>) {
    forall i :: 0 <= i < |q| && IsBranch(q[i]) ==>
      match q[i].target
      case Abs(_) => false
      case Rel(o) => 0 <= i + o <= |q|
      case Named(l) => Find(q, l).Some?
  }

  /** No label that `q` jumps to is defined in `pre`. */
  ghost predicate NoClash(pre: seq<Instr>, q: seq<Instr>) {
    forall i :: 0 <= i < |q| && IsBranch(q[i]) && q[i].target.Named? ==> Find(pre, q[i].target.name).None?
  }

  /** Fragments whose targets stay inside compose by concatenation. */
  lemma Compose(pre: seq<Instr>, q: seq<Instr>, post: seq<Instr>)
    requires TargetsWithin(q)
    requires NoClash(pre, q)
    ensures Relocatable(q, pre + q + post, |pre|)
  {
    var p := pre + q + post;
    forall i | 0 <= i < |q| && IsBranch(q[i]) && q[i].target.Named?
      ensures Find(p, q[i].target.name) == Some(|pre| + Find(q, q[i].target.name).value)
    {
      var l := q[i].target.name;
      FindAppend(pre, q + post, l);
      FindAppend(q, post, l);
      assert p == pre + (q + post);
    }
  }

  /** No instruction of `q` writes outside registers `rs` and cells `cells`. */
  ghost predicate Confined(q: seq<Instr>, rs: set<Reg>, cells: set<Addr>) {
    forall i :: 0 <= i < |q| ==>
      && !q[i].Str?
      && (WrittenReg(q[i]).Some? ==> WrittenReg(q[i]).value in rs)
      && (q[i].Sto? || q[i].Cas? ==> q[i].a in cells)
  }

  /** Confinement of the parts gives confinement of the whole. */
  lemma ConfinedAppend(a: seq<Instr>, b: seq<Instr>, rs: set<Reg>, cells: set<Addr>)
    requires Confined(a, rs, cells) && Confined(b, rs, cells)
    ensures Confined(a + b, rs, cells)
  {
    forall i | 0 <= i < |a + b|
      ensures !(a + b)[i].Str?
      ensures WrittenReg((a + b)[i]).Some? ==> WrittenReg((a + b)[i]).value in rs
      ensures (a + b)[i].Sto? || (a + b)[i].Cas? ==> (a + b)[i].a in cells
    {
      if i < |a| {
        assert (a + b)[i] == a[i];
      } else {
        assert (a + b)[i] == b[i - |a|];
      }
    }
  }

  /** A run of a confined program leaves every other register and cell as it was. */
  lemma RunFootprint(q: seq<Instr>, rs: set<Reg>, cells: set<Addr>, c: Config, n: nat, c2: Config)
    requires Confined(q, rs, cells)
    requires Goes(Exec(q), c, n, c2)
    ensures forall x: Reg :: x !in rs ==> c2.frame.regs[x] == c.frame.regs[x]
    ensures forall a: Addr :: a !in cells ==> c2.mem[a] == c.mem[a]
  {
    var inv := (x: Config) =>
      && (forall r: Reg :: r !in rs ==> x.frame.regs[r] == c.frame.regs[r])
      && (forall a: Addr :: a !in cells ==> x.mem[a] == c.mem[a]);
    forall x | inv(x) && Exec(q)(x).Some?
      ensures inv(Exec(q)(x).value)
    {
      StepFootprint(q[x.frame.pc], q, x.frame, x.mem);
    }
    Preserved(Exec(q), inv, c, n, c2);
  }
}
