/*
 * The scheduler of conc.js: one object holds the shared memory, the ready
 * and the blocked threads by id and the ids with a pending wake-up; `loop`
 * gives every ready thread a turn of at most SLICE instructions, round after
 * round, over a snapshot of the ready ids taken at the start of the round.
 *
 * Every method of the class is specified by a function on `Sched`, a value
 * holding the same four fields, and the scheduler's invariants are proved as
 * lemmas about those functions.
 */
module Scheduling {
  import opened Isa

  /** A logical thread: its program and its frame. */
  datatype Thread = Thread(cmds: seq<Instr>, frame: Frame)

  /** The scheduler's fields as a value; `pstmsg` holds the ids whose flag is set. */
  datatype Sched = Sched(memory: Memory, ready: map<nat, Thread>, blocked: map<nat, Thread>, pstmsg: set<int>)

  /** Whether the inner `for` of a turn goes on after an iteration. */
  datatype Verdict = Continue | Stop

  /** No thread is both ready and blocked. */
  ghost predicate Disjoint(s: Sched) {
    forall u :: u in s.ready ==> u !in s.blocked
  }

  /** Every thread the scheduler knows of, ready or blocked. */
  function Threads(s: Sched): map<nat, Thread> {
    s.ready + s.blocked
  }

  /** `pst` on `id`: a blocked thread becomes ready; for any other id the wake-up flag is set. */
  function Posted(s: Sched, id: int): Sched {
    if id >= 0 && id in s.blocked then
      s.(ready := s.ready[id := s.blocked[id]], blocked := s.blocked - {id})
    else
      s.(pstmsg := s.pstmsg + {id})
  }

  /**
   * `#execute` on the instruction at the pc of thread `tid`, with the
   * post that `pst` makes. A pc below 0 finds no instruction: the call
   * throws before anything changes, and the fault is caught.
   */
  function Executed(s: Sched, tid: nat): (r: (Sched, Signal))
    requires tid in s.ready
    ensures tid in r.0.ready
  {
    var t := s.ready[tid];
    if 0 <= t.frame.pc < |t.cmds| then
      var o := Step(t.cmds[t.frame.pc], t.cmds, t.frame, s.memory);
      var s1 := s.(memory := o.mem, ready := s.ready[tid := t.(frame := o.frame)]);
      (if o.signal.Wake? then Posted(s1, o.signal.id) else s1, o.signal)
    else
      (s, Faulted(NoInstruction(t.frame.pc)))
  }

  /**
   * One pass through the body of the inner `for`: the thread exits when its
   * pc is past its program; otherwise it executes one instruction, and a
   * yield ends the turn, a block either consumes a pending wake-up or moves
   * the thread to `blocked` and ends the turn, and anything else (a fault
   * included) lets the turn go on. The count is the instructions executed.
   */
  function Iteration(s: Sched, tid: nat): (Sched, Verdict, nat)
    requires tid in s.ready
  {
    var t := s.ready[tid];
    if t.frame.pc >= |t.cmds| then
      (s.(ready := s.ready - {tid}), Stop, 0)
    else
      var (s1, sig) := Executed(s, tid);
      After(s1, sig, tid)
  }

  /** What the turn does with the signal of the instruction just executed. */
  function After(s1: Sched, sig: Signal, tid: nat): (Sched, Verdict, nat)
    requires tid in s1.ready
  {
    if sig == Yield then (s1, Stop, 1)
    else if sig == Block && tid in s1.pstmsg then (s1.(pstmsg := s1.pstmsg - {tid}), Continue, 1)
    else if sig == Block then (s1.(blocked := s1.blocked[tid := s1.ready[tid]], ready := s1.ready - {tid}), Stop, 1)
    else (s1, Continue, 1)
  }

  /** A thread that went on after an iteration is still ready. */
  lemma IterationKeepsRunner(s: Sched, tid: nat)
    requires tid in s.ready
    ensures Iteration(s, tid).1 == Continue ==> tid in Iteration(s, tid).0.ready
  {
  }

  /**
   * The rest of a turn of `tid` from iteration `j` of the inner `for`, with
   * the number of instructions it executes; a turn ends after SLICE
   * iterations at the latest.
   */
  function TurnFrom(s: Sched, tid: nat, j: nat): (r: (Sched, nat))
    requires tid in s.ready && j <= SLICE
    ensures r.1 <= SLICE - j
    decreases SLICE - j, 1
  {
    if j == SLICE then (s, 0) else PassFrom(s, tid, j)
  }

  /** Iteration `j` of a turn, followed by the rest of the turn if it goes on. */
  function PassFrom(s: Sched, tid: nat, j: nat): (r: (Sched, nat))
    requires tid in s.ready && j < SLICE
    ensures r.1 <= SLICE - j
    decreases SLICE - j, 0
  {
    var (s1, v, n) := Iteration(s, tid);
    IterationKeepsRunner(s, tid);
    if v == Stop then (s1, n)
    else
      var (s2, m) := TurnFrom(s1, tid, j + 1);
      (s2, n + m)
  }

  /** An iteration either ends the turn or leaves the rest of the turn to do. */
  lemma TurnUnfolds(s: Sched, tid: nat, j: nat)
    requires tid in s.ready && j < SLICE
    ensures var (s1, v, n) := Iteration(s, tid);
      && (v == Stop ==> TurnFrom(s, tid, j) == (s1, n))
      && (v == Continue ==> tid in s1.ready && TurnFrom(s, tid, j) == (TurnFrom(s1, tid, j + 1).0, n + TurnFrom(s1, tid, j + 1).1))
  {
    IterationKeepsRunner(s, tid);
  }

  /** Ids in `order` are pairwise different. */
  ghost predicate Distinct(order: seq<nat>) {
    forall i, j :: 0 <= i < j < |order| ==> order[i] != order[j]
  }

  /** A round over `order`: each id in turn, all of them ready when the round starts. */
  ghost function RoundOf(s: Sched, order: seq<nat>): Sched
    requires forall i :: 0 <= i < |order| ==> order[i] in s.ready
    requires Distinct(order)
    decreases |order|
  {
    if order == [] then s
    else
      TurnKeepsOthersReady(s, order[0], 0);
      RoundOf(TurnFrom(s, order[0], 0).0, order[1..])
  }

  /** The least id of a non-empty set. */
  ghost function Least(ks: set<nat>): (m: nat)
    requires ks != {}
    ensures m in ks && forall x :: x in ks ==> m <= x
    decreases ks
  {
    var y :| y in ks;
    if ks == {y} then y
    else
      var m := Least(ks - {y});
      assert forall x :: x in ks ==> x == y || x in ks - {y};
      if y < m then y else m
  }

  /** The ids of the ready threads in ascending order, as `Object.keys` lists integer keys. */
  ghost function Snapshot(ks: set<nat>): (r: seq<nat>)
    ensures forall i, j :: 0 <= i < j < |r| ==> r[i] < r[j]
    ensures forall i :: 0 <= i < |r| ==> r[i] in ks
    decreases ks
  {
    if ks == {} then []
    else
      var m := Least(ks);
      [m] + Snapshot(ks - {m})
  }

  /** Every ready id is in the snapshot, so each gets a turn in the round. */
  lemma {:induction false} SnapshotCovers(ks: set<nat>, x: nat)
    requires x in ks
    ensures x in Snapshot(ks)
    decreases ks
  {
    var m := Least(ks);
    if x != m {
      SnapshotCovers(ks - {m}, x);
    }
  }

  /** A snapshot starts with the least id, followed by the snapshot of the others. */
  lemma SnapshotStarts(ks: set<nat>, m: nat)
    requires m in ks && forall x :: x in ks ==> m <= x
    ensures Snapshot(ks) == [m] + Snapshot(ks - {m})
  {
    assert m == Least(ks);
  }

  /** `loop` for at most `fuel` rounds: it stops as soon as no thread is ready. */
  ghost function LoopFor(s: Sched, fuel: nat): Sched
    decreases fuel
  {
    if fuel == 0 || s.ready == map[] then s
    else LoopFor(RoundOf(s, Snapshot(s.ready.Keys)), fuel - 1)
  }

  /** A posted thread leaves `blocked` for `ready` with its frame; any other id only gets its flag set. */
  lemma PostWakesOrFlags(s: Sched, id: int)
    ensures var s2 := Posted(s, id);
      && s2.memory == s.memory
      && (id >= 0 && id in s.blocked ==>
            id in s2.ready && s2.ready[id] == s.blocked[id] && id !in s2.blocked && s2.pstmsg == s.pstmsg)
      && (!(id >= 0 && id in s.blocked) ==>
            s2.ready == s.ready && s2.blocked == s.blocked && id in s2.pstmsg)
  {
  }

  /** The flag is a boolean: a second post to an id that is not blocked changes nothing more. */
  lemma PostIdempotent(s: Sched, id: int)
    requires !(id >= 0 && id in s.blocked)
    ensures Posted(Posted(s, id), id) == Posted(s, id)
  {
  }

  /** A post keeps ready and blocked apart and loses no thread. */
  lemma PostKeepsDisjoint(s: Sched, id: int)
    requires Disjoint(s)
    ensures Disjoint(Posted(s, id))
    ensures Threads(Posted(s, id)) == Threads(s)
  {
    var s2 := Posted(s, id);
    if id >= 0 && id in s.blocked {
      forall u | u in Threads(s2) ensures u in Threads(s) && Threads(s2)[u] == Threads(s)[u] {
      }
      forall u | u in Threads(s) ensures u in Threads(s2) {
      }
    }
  }

  /**
   * A block consumes a pending wake-up and the thread goes on in the same
   * turn; without one the thread moves from ready to blocked and its turn
   * ends. A yield ends the turn with the thread still ready, and a thread
   * whose pc is past its program leaves the scheduler.
   */
  lemma IterationCases(s: Sched, tid: nat)
    requires Disjoint(s) && tid in s.ready
    ensures var (s2, v, n) := Iteration(s, tid);
      var t := s.ready[tid];
      var sig := Executed(s, tid).1;
      && (t.frame.pc >= |t.cmds| ==> tid !in Threads(s2) && v == Stop && n == 0)
      && (t.frame.pc < |t.cmds| && sig == Yield ==> tid in s2.ready && v == Stop && n == 1)
      && (t.frame.pc < |t.cmds| && sig == Block && tid in s.pstmsg ==>
            tid in s2.ready && tid !in s2.pstmsg && v == Continue)
      && (t.frame.pc < |t.cmds| && sig == Block && tid !in s.pstmsg ==>
            tid in s2.blocked && tid !in s2.ready && s2.blocked[tid] == Executed(s, tid).0.ready[tid] && v == Stop)
      && (t.frame.pc < |t.cmds| && sig != Yield && sig != Block ==> tid in s2.ready && v == Continue)
  {
    var t := s.ready[tid];
    if 0 <= t.frame.pc < |t.cmds| {
      ExecutedSignals(s, tid);
    }
  }

  /** A blocking or yielding step posts no one, and the flags it sees are the ones before it. */
  lemma ExecutedSignals(s: Sched, tid: nat)
    requires tid in s.ready
    ensures var (s1, sig) := Executed(s, tid);
      && tid in s1.ready
      && (!sig.Wake? ==> s1.pstmsg == s.pstmsg && s1.blocked == s.blocked && s1.ready.Keys == s.ready.Keys)
  {
  }

  /** One instruction keeps ready and blocked apart and changes no thread but the one running. */
  lemma ExecutedKeepsOthers(s: Sched, tid: nat)
    requires Disjoint(s) && tid in s.ready
    ensures var s1 := Executed(s, tid).0;
      && Disjoint(s1)
      && tid in s1.ready
      && Threads(s1).Keys == Threads(s).Keys
      && (forall u :: u in Threads(s) && u != tid ==> Threads(s1)[u] == Threads(s)[u])
  {
    var t := s.ready[tid];
    if 0 <= t.frame.pc < |t.cmds| {
      var o := Step(t.cmds[t.frame.pc], t.cmds, t.frame, s.memory);
      var s1 := s.(memory := o.mem, ready := s.ready[tid := t.(frame := o.frame)]);
      assert Disjoint(s1);
      assert Threads(s1).Keys == Threads(s).Keys;
      if o.signal.Wake? {
        PostKeepsDisjoint(s1, o.signal.id);
      }
    }
  }

  /** No ready thread leaves `ready` when an instruction executes. */
  lemma ExecutedKeepsReady(s: Sched, tid: nat)
    requires tid in s.ready
    ensures forall u :: u in s.ready ==> u in Executed(s, tid).0.ready
  {
    var t := s.ready[tid];
    if 0 <= t.frame.pc < |t.cmds| {
      var o := Step(t.cmds[t.frame.pc], t.cmds, t.frame, s.memory);
      var s1 := s.(memory := o.mem, ready := s.ready[tid := t.(frame := o.frame)]);
      assert forall u :: u in s.ready ==> u in s1.ready;
      if o.signal.Wake? {
        assert forall u :: u in s1.ready ==> u in Posted(s1, o.signal.id).ready;
      }
    }
  }

  /** What follows the instruction keeps ready and blocked apart and moves no thread but the runner. */
  lemma AfterKeepsOthers(s1: Sched, sig: Signal, tid: nat)
    requires Disjoint(s1) && tid in s1.ready
    ensures var s2 := After(s1, sig, tid).0;
      && Disjoint(s2)
      && Threads(s2).Keys == Threads(s1).Keys
      && (forall u :: u in Threads(s1) && u != tid ==> Threads(s2)[u] == Threads(s1)[u])
      && (forall u :: u in s1.ready && u != tid ==> u in s2.ready)
  {
  }

  /** One iteration keeps ready and blocked apart and touches no other thread; only the runner may leave. */
  lemma IterationKeepsOthers(s: Sched, tid: nat)
    requires Disjoint(s) && tid in s.ready
    ensures var s2 := Iteration(s, tid).0;
      && Disjoint(s2)
      && Threads(s2).Keys <= Threads(s).Keys
      && (forall u :: u in Threads(s) && u != tid ==> u in Threads(s2) && Threads(s2)[u] == Threads(s)[u])
      && (forall u :: u in s.ready && u != tid ==> u in s2.ready)
  {
    var t := s.ready[tid];
    if t.frame.pc < |t.cmds| {
      var (s1, sig) := Executed(s, tid);
      ExecutedKeepsOthers(s, tid);
      ExecutedKeepsReady(s, tid);
      AfterKeepsOthers(s1, sig, tid);
    }
  }

  /**
   * A turn keeps ready and blocked apart, changes no thread but its own,
   * keeps every other ready thread ready and creates no thread.
   */
  lemma {:induction false} TurnKeepsOthers(s: Sched, tid: nat, j: nat)
    requires Disjoint(s) && tid in s.ready && j <= SLICE
    ensures var s2 := TurnFrom(s, tid, j).0;
      && Disjoint(s2)
      && Threads(s2).Keys <= Threads(s).Keys
      && (forall u :: u in Threads(s) && u != tid ==> u in Threads(s2) && Threads(s2)[u] == Threads(s)[u])
      && (forall u :: u in s.ready && u != tid ==> u in s2.ready)
    decreases SLICE - j
  {
    if j < SLICE {
      IterationKeepsOthers(s, tid);
      var (s1, v, n) := Iteration(s, tid);
      if v == Continue {
        IterationKeepsRunner(s, tid);
        TurnKeepsOthers(s1, tid, j + 1);
      }
    }
  }

  /** The ready ids other than the runner stay ready during a turn, whatever the state. */
  lemma {:induction false} TurnKeepsOthersReady(s: Sched, tid: nat, j: nat)
    requires tid in s.ready && j <= SLICE
    ensures forall u :: u in s.ready && u != tid ==> u in TurnFrom(s, tid, j).0.ready
    decreases SLICE - j
  {
    if j < SLICE {
      var (s1, v, n) := Iteration(s, tid);
      var t := s.ready[tid];
      if t.frame.pc < |t.cmds| {
        ExecutedKeepsReady(s, tid);
      }
      if v == Continue {
        IterationKeepsRunner(s, tid);
        TurnKeepsOthersReady(s1, tid, j + 1);
      }
    }
  }

  /**
   * A round keeps ready and blocked apart, and a thread whose id is not in
   * the round's order gets no turn: a thread woken during the round is
   * still as it was when it blocked.
   */
  lemma {:induction false} RoundLeavesOthers(s: Sched, order: seq<nat>)
    requires Disjoint(s)
    requires forall i :: 0 <= i < |order| ==> order[i] in s.ready
    requires Distinct(order)
    ensures Disjoint(RoundOf(s, order))
    ensures Threads(RoundOf(s, order)).Keys <= Threads(s).Keys
    ensures forall u :: u in Threads(s) && u !in order ==>
              u in Threads(RoundOf(s, order)) && Threads(RoundOf(s, order))[u] == Threads(s)[u]
    decreases |order|
  {
    if order != [] {
      TurnKeepsOthers(s, order[0], 0);
      TurnKeepsOthersReady(s, order[0], 0);
      var s1 := TurnFrom(s, order[0], 0).0;
      assert forall i :: 0 <= i < |order[1..]| ==> order[1..][i] in s1.ready by {
        forall i | 0 <= i < |order[1..]| ensures order[1..][i] in s1.ready {
          assert order[1..][i] == order[i + 1] && order[i + 1] != order[0];
        }
      }
      RoundLeavesOthers(s1, order[1..]);
      forall u | u in Threads(s) && u !in order
        ensures u in Threads(RoundOf(s, order)) && Threads(RoundOf(s, order))[u] == Threads(s)[u]
      {
        assert u != order[0] && u !in order[1..];
      }
    }
  }

  /** The loop keeps ready and blocked apart, and stops short of its fuel only when no thread is ready. */
  lemma {:induction false} LoopKeepsDisjoint(s: Sched, fuel: nat)
    requires Disjoint(s)
    ensures Disjoint(LoopFor(s, fuel))
    ensures Threads(LoopFor(s, fuel)).Keys <= Threads(s).Keys
    decreases fuel
  {
    if fuel > 0 && s.ready != map[] {
      var order := Snapshot(s.ready.Keys);
      RoundLeavesOthers(s, order);
      LoopKeepsDisjoint(RoundOf(s, order), fuel - 1);
    }
  }

  /** With no thread ready the loop stops at once; with fuel left it stops only then. */
  lemma {:induction false} LoopStopsWhenIdle(s: Sched, fuel: nat)
    ensures s.ready == map[] ==> LoopFor(s, fuel) == s
    ensures fuel > 0 && s.ready != map[] ==> LoopFor(s, fuel) == LoopFor(RoundOf(s, Snapshot(s.ready.Keys)), fuel - 1)
  {
  }

  /**
   * The scheduler object. `memory` is the shared 50-cell array; the frame
   * in use is the frame of the running thread's entry in `ready`.
   */
  class Scheduler {
    const memory: array<int>
    var ready: map<nat, Thread>
    var blocked: map<nat, Thread>
    var pstmsg: set<int>

    ghost predicate Valid()
      reads this
    {
      memory.Length == MEM_SIZE
    }

    /** The fields as a value. */
    function View(): Sched
      reads this, memory
      requires Valid()
    {
      Sched(memory[..], ready, blocked, pstmsg)
    }

    /** A scheduler over `threads`; `init` is the memory the setup callback leaves. */
    constructor (threads: map<nat, Thread>, init: Memory)
      ensures Valid() && fresh(memory)
      ensures View() == Sched(init, threads, map[], {})
      ensures Disjoint(View())
    {
      var a := new int[MEM_SIZE](i requires 0 <= i < MEM_SIZE => init[i]);
      memory := a;
      ready := threads;
      blocked := map[];
      pstmsg := {};
      assert a[..] == init;
    }

    /** `#execute` on the instruction at the pc of thread `tid`, updating its frame and memory in place. */
    method Execute(tid: nat) returns (signal: Signal)
      requires Valid() && tid in ready
      modifies this, memory
      ensures Valid()
      ensures (View(), signal) == Executed(old(View()), tid)
    {
      var t := ready[tid];
      if !(0 <= t.frame.pc < |t.cmds|) {
        return Faulted(NoInstruction(t.frame.pc));
      }
      var f;
      f, signal := Perform(t.cmds[t.frame.pc], t.cmds, t.frame);
      ready := ready[tid := Thread(t.cmds, f)];
      if signal.Wake? {
        var id := signal.id;
        if id >= 0 && id in blocked {
          ready := ready[id := blocked[id]];
          blocked := blocked - {id};
        } else {
          pstmsg := pstmsg + {id};
        }
      }
    }

    /** The `switch` of `#execute`: `cmd` acts on frame `f` of program `prog` and on the memory in place. */
    method Perform(cmd: Instr, prog: seq<Instr>, f: Frame) returns (f2: Frame, signal: Signal)
      requires Valid()
      modifies memory
      ensures Outcome(f2, memory[..], signal) == Step(cmd, prog, f, old(memory[..]))
    {
      if IsBranch(cmd) {
        f2, signal := Branch(cmd, prog, f);
      } else {
        var regs;
        regs, signal := Act(cmd, f.regs);
        f2 := Frame(f.pc + 1, regs);
      }
    }

    /** `br`, `btr` and `bfs`: `goto` when the condition holds, else on to the next instruction. */
    method Branch(cmd: Instr, prog: seq<Instr>, f: Frame) returns (f2: Frame, signal: Signal)
      requires Valid() && IsBranch(cmd)
      ensures Outcome(f2, memory[..], signal) == Step(cmd, prog, f, memory[..])
    {
      f2, signal := Frame(f.pc + 1, f.regs), Normal;
      var jump := match cmd
        case Br(_) => true
        case Btr(r, _) => f.regs[r] != 0
        case Bfs(r, _) => f.regs[r] == 0;
      if jump {
        var o := Jump(prog, f, memory[..], cmd.target);
        f2, signal := o.frame, o.signal;
      }
    }

    /** Every other case of the `switch`: registers and memory change in place, pc moves on by one. */
    method Act(cmd: Instr, regs: Regs) returns (regs2: Regs, signal: Signal)
      requires Valid() && !IsBranch(cmd)
      modifies memory
      ensures Effect(regs2, memory[..], signal) == Apply(cmd, regs, old(memory[..]))
    {
      regs2 := regs;
      signal := Normal;
      match cmd {
        case Prt(_) =>
        case Prs(_) =>
        case Imm(r, v) => regs2 := regs[r := v];
        case Add(r, x) => regs2 := regs[r := regs[r] + regs[x]];
        case Sub(r, x) => regs2 := regs[r := regs[r] - regs[x]];
        case Adi(r, v) => regs2 := regs[r := regs[r] + v];
        case Sbi(r, v) => regs2 := regs[r := regs[r] - v];
        case Lod(r, a) => regs2 := regs[r := memory[a]];
        case Sto(r, a) => memory[a] := regs[r];
        case Ldr(r, x) =>
          if 0 <= regs[x] < MEM_SIZE {
            regs2 := regs[r := memory[regs[x]]];
          } else {
            signal := Faulted(BadAddress(regs[x]));
          }
        case Str(r, x) =>
          if 0 <= regs[x] < MEM_SIZE {
            memory[regs[x]] := regs[r];
          } else {
            signal := Faulted(BadAddress(regs[x]));
          }
        case Cas(r, a) =>
          regs2 := regs[r := memory[a]];
          if memory[a] == 0 {
            memory[a] := 1;
          }
        case Yld => signal := Yield;
        case Blk => signal := Block;
        case Pst(r) => signal := Wake(regs[r]);
        case Lab(_) =>
        case Err(reason) => signal := Faulted(Raised(reason));
        case Undefined(op) => signal := Faulted(UndefinedInstruction(op));
      }
    }

    /** One pass through the body of the inner `for` of `loop` for thread `tid`. */
    method Iterate(tid: nat) returns (v: Verdict, n: nat)
      requires Valid() && tid in ready
      modifies this, memory
      ensures Valid()
      ensures (View(), v, n) == Iteration(old(View()), tid)
    {
      var t := ready[tid];
      if t.frame.pc >= |t.cmds| {
        ready := ready - {tid};
        return Stop, 0;
      }
      var sig := Execute(tid);
      v, n := Continue, 1;
      if sig == Yield {
        v := Stop;
      } else if sig == Block {
        if tid in pstmsg {
          pstmsg := pstmsg - {tid};
        } else {
          blocked := blocked[tid := ready[tid]];
          ready := ready - {tid};
          v := Stop;
        }
      }
    }

    /** The inner `for` of `loop`: one turn of thread `tid`; `steps` counts the instructions executed. */
    method Turn(tid: nat) returns (steps: nat)
      requires Valid() && tid in ready
      modifies this, memory
      ensures Valid()
      ensures (View(), steps) == TurnFrom(old(View()), tid, 0)
      ensures steps <= SLICE
    {
      steps := 0;
      for j := 0 to SLICE
        invariant Valid() && tid in ready
        invariant TurnFrom(View(), tid, j).0 == TurnFrom(old(View()), tid, 0).0
        invariant steps + TurnFrom(View(), tid, j).1 == TurnFrom(old(View()), tid, 0).1
      {
        ghost var before := View();
        var v, n := Iterate(tid);
        TurnUnfolds(before, tid, j);
        steps := steps + n;
        if v == Stop {
          return;
        }
      }
    }

    /** One round of `loop`: a turn for each id of the snapshot, in order. */
    method Round()
      requires Valid()
      modifies this, memory
      ensures Valid()
      ensures View() == RoundOf(old(View()), Snapshot(old(View()).ready.Keys))
    {
      ghost var s0 := View();
      var order := Keys();
      ghost var done := 0;
      for i := 0 to |order|
        invariant Valid()
        invariant forall k :: i <= k < |order| ==> order[k] in ready
        invariant RoundOf(View(), order[i..]) == RoundOf(s0, order)
      {
        TurnKeepsOthersReady(View(), order[i], 0);
        assert order[i..][1..] == order[i + 1..];
        var _ := Turn(order[i]);
      }
    }

    /** The ready ids in ascending order (`Object.keys` on integer keys). */
    method Keys() returns (order: seq<nat>)
      requires Valid()
      ensures order == Snapshot(ready.Keys)
    {
      var rest := ready.Keys;
      order := [];
      while rest != {}
        invariant order + Snapshot(rest) == Snapshot(ready.Keys)
        decreases rest
      {
        ghost var least := Least(rest);
        var m :| m in rest && forall x :: x in rest ==> m <= x;
        SnapshotStarts(rest, m);
        assert order + Snapshot(rest) == (order + [m]) + Snapshot(rest - {m});
        order, rest := order + [m], rest - {m};
      }
    }

    /**
     * `loop` for at most `fuel` rounds (the source loops for ever on a
     * thread that never ends); `rounds` counts the rounds run.
     */
    method Loop(fuel: nat) returns (rounds: nat)
      requires Valid()
      modifies this, memory
      ensures Valid()
      ensures View() == LoopFor(old(View()), fuel)
      ensures rounds <= fuel && (rounds < fuel ==> ready == map[])
    {
      rounds := 0;
      while rounds < fuel && ready != map[]
        invariant Valid() && rounds <= fuel
        invariant LoopFor(View(), fuel - rounds) == LoopFor(old(View()), fuel)
        decreases fuel - rounds
      {
        LoopStopsWhenIdle(View(), fuel - rounds);
        Round();
        rounds := rounds + 1;
      }
    }
  }
}
