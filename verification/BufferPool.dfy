/**
 The buffer pool as the object it is: a free list of arrays that is popped and pushed in place.
 `PoolProtocol` proves what its counts do under concurrency; here it is proved that no array ever has two owners,
 that all of them keep the configured size, and that a new one is made only when the free list has run out.
 */
module BufferPool {
  import opened Bytes
  import PoolProtocol

  class BufferPool {
    const bufferSize: nat
    ghost const capacity: nat
    var buffers: seq<array<Byte>>
    var permits: nat
    /** Arrays handed out and not pushed back, permits owned by clients, and how many arrays were ever made. */
    ghost var lent: set<array<Byte>>
    ghost var owned: nat
    ghost var created: nat

    ghost predicate Valid()
      reads this
    {
      && bufferSize > 0
      && permits + owned == capacity
      && |lent| <= owned
      && created == |buffers| + |lent| <= capacity
      && (forall i, j | 0 <= i < j < |buffers| :: buffers[i] != buffers[j])
      && (forall i | 0 <= i < |buffers| :: buffers[i] !in lent && buffers[i].Length == bufferSize)
      && (forall b | b in lent :: b.Length == bufferSize)
    }

    constructor (bufferSize: nat, bufferCount: nat)
      requires bufferSize > 0
      ensures Valid() && this.bufferSize == bufferSize && capacity == bufferCount
      ensures permits == bufferCount && buffers == [] && lent == {} && owned == 0 && created == 0
    {
      this.bufferSize, this.capacity := bufferSize, bufferCount;
      buffers, permits := [], bufferCount;
      lent, owned, created := {}, 0, 0;
    }

    /** `pop().unwrap_or_else(..)`: the last buffer of the free list, or a new one. */
    method Pop() returns (buffer: array<Byte>)
      requires Valid() && |lent| < owned
      modifies this
      ensures Valid() && buffer !in old(lent) && lent == old(lent) + {buffer}
      ensures permits == old(permits) && owned == old(owned)
      ensures old(buffers) != [] ==>
                && buffer == old(buffers)[|old(buffers)| - 1] && buffers == old(buffers)[..|old(buffers)| - 1]
                && created == old(created)
      ensures old(buffers) == [] ==> fresh(buffer) && buffers == [] && created == old(created) + 1
    {
      if |buffers| > 0 {
        buffer := buffers[|buffers| - 1];
        buffers := buffers[..|buffers| - 1];
      } else {
        buffer := new Byte[bufferSize](_ => 0);
        created := created + 1;
      }
      lent := lent + {buffer};
    }

    /** Both permits are there, so the request is granted at once; then both buffers are popped. */
    method AcquirePair() returns (first: array<Byte>, second: array<Byte>)
      requires Valid() && permits >= 2
      modifies this
      ensures Valid() && first != second && first !in old(lent) && second !in old(lent)
      ensures lent == old(lent) + {first, second} && first.Length == second.Length == bufferSize
      ensures permits == old(permits) - 2 && owned == old(owned) + 2
      ensures |buffers| == |old(buffers)| + PoolProtocol.Missing(|old(buffers)|, 2) - 2
      ensures created == old(created) + PoolProtocol.Missing(|old(buffers)|, 2)
    {
      permits, owned := permits - 2, owned + 2;
      first := Pop();
      second := Pop();
    }

    /** The first half of dropping a pooled buffer: back on the free list, the permit still owned. */
    method PushBack(buffer: array<Byte>)
      requires Valid() && buffer in lent
      modifies this
      ensures Valid() && buffers == old(buffers) + [buffer] && lent == old(lent) - {buffer}
      ensures permits == old(permits) && owned == old(owned) && created == old(created)
    {
      buffers := buffers + [buffer];
      lent := lent - {buffer};
    }

    /** The second half: the permit goes back. */
    method ReleasePermit()
      requires Valid() && |lent| < owned
      modifies this
      ensures Valid() && permits == old(permits) + 1 && owned == old(owned) - 1
      ensures buffers == old(buffers) && lent == old(lent) && created == old(created)
    {
      permits, owned := permits + 1, owned - 1;
    }

    /** Dropping a pooled buffer: the push comes before the release. */
    method Drop(buffer: array<Byte>)
      requires Valid() && buffer in lent
      modifies this
      ensures Valid() && buffers == old(buffers) + [buffer] && lent == old(lent) - {buffer}
      ensures permits == old(permits) + 1 && owned == old(owned) - 1 && created == old(created)
    {
      PushBack(buffer);
      ReleasePermit();
    }
  }
}
