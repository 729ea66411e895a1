/**
 Allocation of frame buffers, which are told apart by a number that is never used twice.
 */
module Buffers {
  /** The allocator: `live` are the buffers handed out and not yet freed. */
  class BufferPool {
    var next: nat
    var live: set<nat>

    ghost predicate Valid()
      reads this
    {
      forall id :: id in live ==> id < next
    }

    constructor ()
      ensures Valid() && live == {}
    {
      next, live := 0, {};
    }

    /** A number never handed out before. */
    method Alloc() returns (id: nat)
      requires Valid()
      modifies this
      ensures Valid() && id == old(next) && next == id + 1
      ensures id !in old(live) && live == old(live) + {id}
    {
      id := next;
      next := next + 1;
      live := live + {id};
    }

    /** Freeing needs a live buffer: no buffer is ever freed twice. */
    method Free(id: nat)
      requires Valid() && id in live
      modifies this
      ensures Valid() && next == old(next) && live == old(live) - {id}
    {
      live := live - {id};
    }
  }
}
