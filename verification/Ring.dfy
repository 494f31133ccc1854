/** Index arithmetic of a ring (handoff.rs:208-214). Logical positions are unbounded; the slot of a
    position is its remainder by the number of slots. */
module Ring {
  /** The remainder of `position` by `count`, taken one lap at a time; see IndexIsRemainder. */
  function IndexOf(position: nat, count: nat): (index: nat)
    requires count > 0
    ensures index < count
  {
    if position < count then position else IndexOf(position - count, count)
  }

  function NextIndex(index: nat, count: nat): nat
    requires count > 0
  {
    IndexOf(index + 1, count)
  }

  function Distance(first: nat, second: nat, count: nat): nat
    requires first < count
  {
    IndexOf(second + count - first, count)
  }

  lemma {:induction false} IndexIsRemainder(position: nat, count: nat)
    requires count > 0
    ensures IndexOf(position, count) == position % count
  {
    if position >= count {
      IndexIsRemainder(position - count, count);
      var q, r := (position - count) / count, (position - count) % count;
      assert position == count * (q + 1) + r;
      RemainderUnique(position, count, q + 1, r);
    }
  }

  lemma RemainderUnique(a: nat, count: nat, q: nat, r: nat)
    requires r < count && a == count * q + r
    ensures a % count == r
  {
    var d := a / count - q;
    assert count * d == r - a % count;
    MultipleBounds(count, d);
  }

  lemma MultipleBounds(count: int, laps: int)
    requires count > 0
    ensures laps >= 1 ==> count * laps >= count
    ensures laps <= -1 ==> count * laps <= -count
  {
  }

  /** Stepping an index is stepping the position behind it. */
  lemma {:induction false} NextIndexOfPosition(position: nat, count: nat)
    requires count > 0
    ensures NextIndex(IndexOf(position, count), count) == IndexOf(position + 1, count)
  {
    if position >= count {
      NextIndexOfPosition(position - count, count);
    }
  }

  /** Two positions less than one lap apart that share an index are the same position. */
  lemma {:induction false} SameIndex(a: nat, b: nat, count: nat)
    requires count > 0 && a <= b < a + count && IndexOf(a, count) == IndexOf(b, count)
    ensures a == b
  {
    if a >= count {
      SameIndex(a - count, b - count, count);
    }
  }

  /** The stored-index distance is the true distance when the positions are less than one lap apart. */
  lemma {:induction false} DistanceOfPositions(a: nat, b: nat, count: nat)
    requires count > 0 && a <= b < a + count
    ensures Distance(IndexOf(a, count), IndexOf(b, count), count) == b - a
  {
    if a >= count {
      DistanceOfPositions(a - count, b - count, count);
    } else if b < count {
      assert IndexOf(b + count - a, count) == IndexOf(b - a, count);
    } else {
      assert IndexOf(b, count) == b - count;
    }
  }

  /** With at most `count - 1` positions between them, the next index meets the other one exactly when
      the ring is full. */
  lemma NextMeets(head: nat, tail: nat, count: nat)
    requires count > 0 && head <= tail < head + count
    ensures NextIndex(IndexOf(tail, count), count) == IndexOf(head, count) <==> tail + 1 == head + count
  {
    NextIndexOfPosition(tail, count);
    if IndexOf(tail + 1, count) == IndexOf(head, count) && tail + 1 < head + count {
      SameIndex(head, tail + 1, count);
    }
    assert IndexOf(head + count, count) == IndexOf(head, count);
  }
}
