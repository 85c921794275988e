/*
 * The wait queue inside the mutex and the semaphore (mutex.js, semaphore.js).
 * Unlike the ring-buffer queue it never wraps: a waiter's id is stored at the
 * tail index, which then goes up by one, and a post takes the id at the head
 * index, which then goes up by one. The waiting ids are the cells from head
 * (inclusive) to tail (exclusive).
 */
module WaitQueues {
  import opened Isa

  /** The cells holding the head and the tail index. */
  datatype WaitQueue = WaitQueue(head: Addr, tail: Addr)

  /**
   * Both indices are addresses with head <= tail, the slots in use and the
   * next free slot lie inside memory, and none of them is one of `cells`
   * (the primitive's own cells, the two index cells among them).
   */
  ghost predicate Valid(w: WaitQueue, mem: Memory, cells: set<int>) {
    && w.head != w.tail && w.head in cells && w.tail in cells
    && 0 <= mem[w.head] <= mem[w.tail] < MEM_SIZE
    && forall c :: c in cells ==> !(mem[w.head] <= c <= mem[w.tail])
  }

  /** The waiting ids, oldest first; there are tail - head of them. */
  function Waiting(w: WaitQueue, mem: Memory): (s: seq<int>)
    requires 0 <= mem[w.head] <= mem[w.tail] <= MEM_SIZE
    ensures |s| == mem[w.tail] - mem[w.head]
    ensures s == [] <==> mem[w.head] == mem[w.tail]
  {
    mem[mem[w.head]..mem[w.tail]]
  }

  /** Memory after a waiter stores `x` at the tail slot, bumps the tail and clears `lock`. */
  function Pushed(w: WaitQueue, mem: Memory, lock: Addr, x: int): Memory
    requires 0 <= mem[w.tail] < MEM_SIZE
  {
    mem[mem[w.tail] := x][w.tail := mem[w.tail] + 1][lock := 0]
  }

  /** Memory after a post bumps the head. */
  function Popped(w: WaitQueue, mem: Memory): Memory {
    mem[w.head := mem[w.head] + 1]
  }

  /**
   * A push appends `x`: tail goes up by one, head stays, `lock` reads 0 and
   * every other cell of the primitive keeps its value.
   */
  lemma PushAppends(w: WaitQueue, mem: Memory, cells: set<int>, lock: Addr, x: int)
    requires Valid(w, mem, cells) && lock in cells && lock != w.head && lock != w.tail
    requires mem[w.tail] + 1 < MEM_SIZE && mem[w.tail] + 1 !in cells
    ensures Valid(w, Pushed(w, mem, lock, x), cells)
    ensures Waiting(w, Pushed(w, mem, lock, x)) == Waiting(w, mem) + [x]
    ensures Pushed(w, mem, lock, x)[w.tail] == mem[w.tail] + 1
    ensures Pushed(w, mem, lock, x)[w.head] == mem[w.head]
    ensures Pushed(w, mem, lock, x)[lock] == 0
    ensures forall c: Addr :: c in cells && c != w.tail && c != lock ==> Pushed(w, mem, lock, x)[c] == mem[c]
  {
    var m := Pushed(w, mem, lock, x);
    var h, t := mem[w.head], mem[w.tail];
    assert !(h <= w.head <= t) && !(h <= w.tail <= t) && !(h <= lock <= t);
    assert m[w.head] == h && m[w.tail] == t + 1;
    forall i | 0 <= i < t + 1 - h
      ensures m[h + i] == (Waiting(w, mem) + [x])[i]
    {
      assert !(h <= w.tail <= t) && !(h <= lock <= t);
    }
  }

  /** A post on a non-empty queue reads the oldest waiter and removes it; nothing but the head cell changes. */
  lemma PopTakesFirst(w: WaitQueue, mem: Memory, cells: set<int>)
    requires Valid(w, mem, cells) && mem[w.head] != mem[w.tail]
    ensures mem[mem[w.head]] == Waiting(w, mem)[0]
    ensures Valid(w, Popped(w, mem), cells)
    ensures Waiting(w, Popped(w, mem)) == Waiting(w, mem)[1..]
    ensures Popped(w, mem)[w.head] == mem[w.head] + 1
    ensures forall c: Addr :: c != w.head ==> Popped(w, mem)[c] == mem[c]
  {
    var m := Popped(w, mem);
    var h, t := mem[w.head], mem[w.tail];
    assert m[w.head] == h + 1 && m[w.tail] == t;
    forall i | 0 <= i < t - h - 1
      ensures m[h + 1 + i] == Waiting(w, mem)[1..][i]
    {
      assert !(h <= w.head <= t);
    }
  }
}
