/** URL failover of `establish_connection`: the sticky cyclic search for a reachable server. */
module Failover {
  import opened Wrappers

  /** The index tried at this offset of a cycle. */
  function TriedAt(start: nat, count: nat, offset: nat): nat
    requires count > 0
  {
    (start + offset) % count
  }

  class UrlCursor {
    const count: nat
    var lastUrlIdx: nat

    ghost predicate Valid()
      reads this
    {
      lastUrlIdx < count
    }

    /** `[primary] + failover_urls`, starting at the primary. */
    constructor (failoverUrls: nat)
      ensures Valid() && count == 1 + failoverUrls && lastUrlIdx == 0
    {
      count := 1 + failoverUrls;
      lastUrlIdx := 0;
    }

    /**
     * One connection cycle; `reachable` says which servers answer. The servers tried are the
     * cyclic sequence from the sticky start up to and including the first that answers.
     */
    method Connect(reachable: nat -> bool) returns (socket: Option<nat>, tried: seq<nat>)
      requires Valid()
      modifies this
      ensures Valid()
      ensures |tried| <= count
      ensures forall k :: 0 <= k < |tried| ==> tried[k] == TriedAt(old(lastUrlIdx), count, k)
      ensures forall k :: 0 <= k < |tried| - 1 ==> !reachable(tried[k])
      ensures socket.Some? ==>
                tried != [] && socket.value == tried[|tried| - 1] && reachable(socket.value)
                && lastUrlIdx == socket.value
      ensures socket.None? ==>
                |tried| == count && lastUrlIdx == old(lastUrlIdx)
                && forall i :: 0 <= i < count ==> !reachable(i)
    {
      var start := lastUrlIdx;
      socket, tried := None, [];
      for offset := 0 to count
        invariant lastUrlIdx == start == old(lastUrlIdx)
        invariant |tried| == offset
        invariant forall k :: 0 <= k < offset ==> tried[k] == TriedAt(start, count, k) && !reachable(tried[k])
      {
        var idx := (start + offset) % count;
        tried := tried + [idx];
        if reachable(idx) {
          lastUrlIdx := idx;
          return Some(idx), tried;
        }
      }
      forall i | 0 <= i < count
        ensures !reachable(i)
      {
        var k := OffsetOf(start, count, i);
        assert tried[k] == i;
      }
    }
  }

  /** Every index is tried at some offset of a full cycle. */
  lemma OffsetOf(start: nat, count: nat, i: nat) returns (k: nat)
    requires start < count && i < count
    ensures k < count && TriedAt(start, count, k) == i
  {
    k := if start <= i then i - start else i + count - start;
    WrapOnce(start + k, count);
  }

  lemma WrapOnce(x: nat, count: nat)
    requires x < 2 * count
    ensures x % count == if x < count then x else x - count
  {
    var q, r := x / count, x % count;
    assert x == count * q + r && 0 <= r < count;
    assert q >= 2 ==> count * q >= count * 2;
    assert q == 0 || q == 1;
  }

  /** A cycle begins at its start and goes to the successor each time, wrapping at the end of the list. */
  lemma TriedInOrder(start: nat, count: nat)
    requires start < count
    ensures TriedAt(start, count, 0) == start
    ensures forall k :: 0 < k < count ==>
              TriedAt(start, count, k)
              == if TriedAt(start, count, k - 1) + 1 == count then 0 else TriedAt(start, count, k - 1) + 1
  {
    WrapOnce(start, count);
    forall k | 0 < k < count
      ensures TriedAt(start, count, k)
              == if TriedAt(start, count, k - 1) + 1 == count then 0 else TriedAt(start, count, k - 1) + 1
    {
      WrapOnce(start + k, count);
      WrapOnce(start + (k - 1), count);
    }
  }

  /** No index is tried twice within one cycle. */
  lemma TriedOnce(start: nat, count: nat, j: nat, k: nat)
    requires start < count && j < k < count
    ensures TriedAt(start, count, j) != TriedAt(start, count, k)
  {
    WrapOnce(start + j, count);
    WrapOnce(start + k, count);
  }
}
