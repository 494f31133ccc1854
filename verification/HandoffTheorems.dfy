/** What holds in every interleaving of the newest-audio handoff. Every statement is about
    `From(slotCount, events)`: the state after an arbitrary sequence of atomic steps. */
module HandoffTheorems {
  import opened Wrappers
  import opened Ring
  import opened Handoff

  // ----- slots are read only while they are stable -----

  /** Once `pop` has passed its generation recheck, the claimed slot is initialised with exactly the
      value accepted at the consumer's logical position, and no uninitialised slot is ever copied. */
  lemma CopiedSlotIsExact<T>(slotCount: nat, events: seq<Event<T>>)
    requires slotCount >= 2
    ensures var w := From(slotCount, events);
            && !w.pop.Undefined?
            && (w.pop.CopySlot? ==> w.memory.slots[w.pop.claimed].Some?
                                    && w.memory.slots[w.pop.claimed] == ValueAt(w.history, w.history.head))
            && (w.pop.Release? ==> Some(w.pop.copied) == ValueAt(w.history, w.history.head))
  {
    var w := From(slotCount, events);
    if w.pop.CopySlot? {
      assert Holds(w.memory, w.history, w.history.head);
    }
  }

  /** From the recheck until the claim is released, no producer step writes the claimed slot or moves
      the consumer's cursor. */
  lemma ClaimedSlotIsNotWritten<T>(slotCount: nat, events: seq<Event<T>>, value: T)
    requires slotCount >= 2
    requires From(slotCount, events).pop.CopySlot? || From(slotCount, events).pop.Release?
    ensures var w := From(slotCount, events);
            var next := ProducerStep(w, value);
            && next.memory.slots[w.pop.claimed] == w.memory.slots[w.pop.claimed]
            && next.memory.consumer == w.memory.consumer && next.memory.reading && next.pop == w.pop
  {
    var w := From(slotCount, events);
    if w.push.WriteSlot? && w.memory.producer == w.pop.claimed {
      SameIndex(w.history.head, |w.history.accepted|, slotCount);
    }
  }

  /** However stale the consumer cursor `push` decided on, the slot it writes holds no waiting value. */
  lemma StaleSnapshotIsConservative<T>(slotCount: nat, events: seq<Event<T>>, position: nat)
    requires slotCount >= 2
    requires From(slotCount, events).push.WriteSlot?
    requires From(slotCount, events).history.head <= position < |From(slotCount, events).history.accepted|
    ensures IndexOf(position, slotCount) != From(slotCount, events).memory.producer
  {
    var w := From(slotCount, events);
    if IndexOf(position, slotCount) == w.memory.producer {
      SameIndex(position, |w.history.accepted|, slotCount);
    }
  }

  // ----- order, duplicates and conservation -----

  /** `part` is the subsequence of `whole` at the strictly increasing places `at`. */
  ghost predicate SubsequenceAt<T>(part: seq<T>, whole: seq<T>, at: seq<nat>) {
    && |at| == |part| && Increasing(at, |whole|)
    && (forall k | 0 <= k < |part| :: part[k] == whole[at[k]])
  }

  ghost function PlacesPopped<T>(h: History<T>): seq<nat> {
    seq(|h.popped|, k requires 0 <= k < |h.popped| =>
      if h.popped[k] < |h.accepted| then h.accepted[h.popped[k]] else 0)
  }

  /** The popped values are a strictly ordered subsequence of the pushed values: nothing is returned
      twice, out of order or invented. */
  lemma PoppedValuesAreASubsequence<T>(slotCount: nat, events: seq<Event<T>>)
    requires slotCount >= 2
    ensures var h := From(slotCount, events).history;
            SubsequenceAt(h.returned, h.pushed, PlacesPopped(h))
  {
  }

  /** The best-effort count of `observe`, from the stored indexes. */
  ghost function Available<T>(m: Memory<T>): nat
    requires m.consumer < |m.slots|
  {
    Distance(m.consumer, m.producer, |m.slots|)
  }

  /** The values waiting in memory, oldest first, read slot by slot from the consumer's index. */
  ghost function Waiting<T>(m: Memory<T>): (values: seq<Option<T>>)
    requires m.consumer < |m.slots|
    ensures |values| == Available(m)
  {
    seq(Available(m), k requires 0 <= k => m.slots[IndexOf(m.consumer + k, |m.slots|)])
  }

  lemma {:induction false} IndexShift(head: nat, k: nat, count: nat)
    requires count > 0
    ensures IndexOf(IndexOf(head, count) + k, count) == IndexOf(head + k, count)
  {
    if head >= count {
      IndexShift(head - count, k, count);
    }
  }

  /** Whenever the producer is idle, every push is accounted for: pushes = pops + discarded + available,
      at most `slotCount - 1` values wait, and those in memory are exactly the latest accepted ones. */
  lemma Conservation<T>(slotCount: nat, events: seq<Event<T>>)
    requires slotCount >= 2 && From(slotCount, events).push.ProducerIdle?
    ensures var w := From(slotCount, events);
            && |w.history.pushed| == |w.history.returned| + w.memory.discarded + Available(w.memory)
            && Available(w.memory) <= slotCount - 1
            && Available(w.memory) <= |w.history.accepted|
            && (forall k | 0 <= k < Available(w.memory) ::
                  Waiting(w.memory)[k] == ValueAt(w.history, |w.history.accepted| - Available(w.memory) + k))
  {
    var w := From(slotCount, events);
    var h := w.history;
    DistanceOfPositions(h.head, |h.accepted|, slotCount);
    forall k | 0 <= k < Available(w.memory)
      ensures Waiting(w.memory)[k] == ValueAt(h, |h.accepted| - Available(w.memory) + k)
    {
      IndexShift(h.head, k, slotCount);
      assert Holds(w.memory, h, h.head + k);
    }
  }

  /** A completed push was accepted unless it was answered `DroppedDuringRead`. */
  ghost predicate Answered<T>(w: World<T>) {
    var h := w.history;
    && (forall i | 0 <= i < |h.outcomes| :: h.outcomes[i] == DroppedDuringRead <==> i !in h.accepted)
    && (w.push.CloseWindow? ==> (w.push.outcome == DroppedDuringRead <==> |h.pushed| - 1 !in h.accepted))
  }

  lemma StepKeepsAnswered<T>(w: World<T>, event: Event<T>)
    requires Inv(w) && Answered(w)
    ensures Answered(Step(w, event))
  {
    var next := Step(w, event);
    if event.ConsumerTurn? {
      assert next.history.outcomes == w.history.outcomes && next.history.accepted == w.history.accepted;
    } else if w.push.StoreProducer? {
      forall i | 0 <= i < |w.history.outcomes|
        ensures i in next.history.accepted <==> i in w.history.accepted
      {
      }
      assert next.history.accepted[|w.history.accepted|] == |w.history.pushed| - 1;
    }
  }

  lemma {:induction false} RunKeepsAnswered<T>(w: World<T>, events: seq<Event<T>>)
    requires Inv(w) && Answered(w)
    ensures Answered(Run(w, events))
    decreases |events|
  {
    if events != [] {
      StepKeepsAnswered(w, events[0]);
      StepKeepsInv(w, events[0]);
      RunKeepsAnswered(Step(w, events[0]), events[1..]);
    }
  }

  /** An idle producer has answered every push; exactly those answered `DroppedDuringRead` were lost
      before reaching a slot. */
  lemma OutcomesAnswerEveryPush<T>(slotCount: nat, events: seq<Event<T>>)
    requires slotCount >= 2 && From(slotCount, events).push.ProducerIdle?
    ensures var h := From(slotCount, events).history;
            && |h.outcomes| == |h.pushed|
            && |h.accepted| + h.dropped == |h.pushed|
            && (forall i | 0 <= i < |h.outcomes| :: h.outcomes[i] == DroppedDuringRead <==> i !in h.accepted)
  {
    InitialInv<T>(slotCount);
    RunKeepsAnswered(Fresh<T>(slotCount), events);
  }

  /** The exchange fails exactly when the claim bit is set at that moment or the consumer has moved
      since the cursor was reloaded. */
  lemma DroppedExactlyWhenConsumerInterferes<T>(slotCount: nat, events: seq<Event<T>>, value: T)
    requires slotCount >= 2 && From(slotCount, events).push.SwapConsumer?
    ensures var w := From(slotCount, events);
            ProducerStep(w, value).push.CountDropped? <==> w.memory.reading || w.history.head != w.push.seenAt
  {
    var w := From(slotCount, events);
    if w.memory.consumer == w.push.seen {
      SameIndex(w.push.seenAt, w.history.head, slotCount);
    }
  }

  // ----- a push without interference -----

  /** `steps` consecutive operations of the producer. */
  ghost function Turns<T>(w: World<T>, value: T, steps: nat): World<T>
    decreases steps
  {
    if steps == 0 || !InBounds(w) then w else Turns(ProducerStep(w, value), value, steps - 1)
  }

  ghost predicate Full<T>(w: World<T>) {
    |w.history.accepted| + 1 == w.history.head + |w.memory.slots|
  }

  lemma {:induction false} TurnsCompose<T>(w: World<T>, value: T, first: nat, second: nat)
    ensures Turns(w, value, first + second) == Turns(Turns(w, value, first), value, second)
    decreases first
  {
    if first > 0 && InBounds(w) {
      TurnsCompose(ProducerStep(w, value), value, first - 1, second);
    } else if second > 0 && !InBounds(w) {
      assert Turns(w, value, first + second) == w == Turns(w, value, second);
    }
  }

  lemma TurnsStayInBounds<T>(w: World<T>, value: T)
    requires InBounds(w)
    ensures InBounds(ProducerStep(w, value))
  {
  }

  lemma {:induction false} TurnsKeepInv<T>(w: World<T>, value: T, steps: nat)
    requires Inv(w)
    ensures Inv(Turns(w, value, steps)) && |Turns(w, value, steps).memory.slots| == |w.memory.slots|
    decreases steps
  {
    if steps > 0 {
      ProducerStepKeepsInv(w, value);
      TurnsKeepInv(ProducerStep(w, value), value, steps - 1);
    }
  }

  lemma PushWithSpareSlot<T>(w: World<T>, value: T)
    requires InBounds(w) && w.push.ProducerIdle?
    requires NextIndex(w.memory.producer, |w.memory.slots|) != w.memory.consumer
    ensures var next := Turns(w, value, 4);
            && next.push.ProducerIdle? && next.pop == w.pop
            && next.history == w.history.(pushed := w.history.pushed + [value],
                 outcomes := w.history.outcomes + [Published], accepted := w.history.accepted + [|w.history.pushed|])
            && next.memory.discarded == w.memory.discarded
  {
  }

  lemma PushOpensWindow<T>(w: World<T>, value: T)
    requires InBounds(w) && w.push.ProducerIdle?
    requires NextIndex(w.memory.producer, |w.memory.slots|) == w.memory.consumer
    ensures var next := Turns(w, value, 4);
            && InBounds(next)
            && next.push == SwapConsumer(value, w.memory.consumer, w.history.head) && next.pop == w.pop
            && next.history == w.history.(pushed := w.history.pushed + [value])
            && next.memory == w.memory.(generation := w.memory.generation + 1)
  {
    var w1 := ProducerStep(w, value);
    var w2 := ProducerStep(w1, value);
    var w3 := ProducerStep(w2, value);
    assert Turns(w, value, 4) == Turns(w1, value, 3) == Turns(w2, value, 2) == Turns(w3, value, 1);
  }

  lemma DropsWhileReading<T>(w: World<T>, value: T)
    requires InBounds(w) && w.push.SwapConsumer? && w.memory.reading
    ensures var next := Turns(w, value, 3);
            && next.push.ProducerIdle? && next.pop == w.pop
            && next.history == w.history.(outcomes := w.history.outcomes + [DroppedDuringRead], dropped := w.history.dropped + 1)
            && next.memory.discarded == w.memory.discarded + 1
  {
    var w1 := ProducerStep(w, value);
    var w2 := ProducerStep(w1, value);
    assert Turns(w, value, 3) == Turns(w1, value, 2) == Turns(w2, value, 1);
  }

  lemma SwapsWhenUnclaimed<T>(w: World<T>, value: T)
    requires InBounds(w) && !w.memory.reading
    requires w.push == SwapConsumer(value, w.memory.consumer, w.history.head)
    ensures var next := Turns(w, value, 2);
            && InBounds(next) && next.push == WriteSlot(value, true) && next.pop == w.pop
            && next.history == w.history.(head := |w.history.accepted|,
                 skipped := w.history.skipped + |w.history.accepted| - w.history.head)
            && next.memory.discarded == w.memory.discarded
                 + Distance(w.memory.consumer, w.memory.producer, |w.memory.slots|)
  {
  }

  lemma FillsReplacedSlot<T>(w: World<T>, value: T)
    requires InBounds(w) && w.push == WriteSlot(value, true)
    ensures var next := Turns(w, value, 3);
            && next.push.ProducerIdle? && next.pop == w.pop
            && next.history == w.history.(outcomes := w.history.outcomes + [ReplacedStale],
                 accepted := w.history.accepted + [|w.history.pushed| - 1])
            && next.memory.discarded == w.memory.discarded
  {
  }

  lemma CursorsOf<T>(w: World<T>)
    requires Inv(w)
    ensures NextIndex(w.memory.producer, |w.memory.slots|) == w.memory.consumer <==> Full(w)
    ensures Distance(w.memory.consumer, w.memory.producer, |w.memory.slots|) == |w.history.accepted| - w.history.head
  {
    NextMeets(w.history.head, |w.history.accepted|, |w.memory.slots|);
    DistanceOfPositions(w.history.head, |w.history.accepted|, |w.memory.slots|);
  }

  lemma ReplaceAlone<T>(w: World<T>, value: T)
    requires InBounds(w) && w.push.ProducerIdle? && !w.memory.reading
    requires NextIndex(w.memory.producer, |w.memory.slots|) == w.memory.consumer
    ensures var next := Turns(w, value, 9);
            && next.push.ProducerIdle? && next.pop == w.pop
            && next.history == w.history.(pushed := w.history.pushed + [value],
                 outcomes := w.history.outcomes + [ReplacedStale], accepted := w.history.accepted + [|w.history.pushed|],
                 head := |w.history.accepted|, skipped := w.history.skipped + |w.history.accepted| - w.history.head)
            && next.memory.discarded == w.memory.discarded
                 + Distance(w.memory.consumer, w.memory.producer, |w.memory.slots|)
  {
    PushOpensWindow(w, value);
    TurnsCompose(w, value, 4, 5);
    var window := Turns(w, value, 4);
    SwapsWhenUnclaimed(window, value);
    TurnsCompose(window, value, 2, 3);
    FillsReplacedSlot(Turns(window, value, 2), value);
  }

  lemma DropAlone<T>(w: World<T>, value: T)
    requires InBounds(w) && w.push.ProducerIdle? && w.memory.reading
    requires NextIndex(w.memory.producer, |w.memory.slots|) == w.memory.consumer
    ensures var next := Turns(w, value, 7);
            && next.push.ProducerIdle? && next.pop == w.pop
            && next.history == w.history.(pushed := w.history.pushed + [value],
                 outcomes := w.history.outcomes + [DroppedDuringRead], dropped := w.history.dropped + 1)
            && next.memory.discarded == w.memory.discarded + 1
  {
    PushOpensWindow(w, value);
    TurnsCompose(w, value, 4, 3);
    DropsWhileReading(Turns(w, value, 4), value);
  }

  /** With no consumer step in between, a push ends after at most nine operations. It keeps its value as
      the newest, after every value already waiting or after skipping them all when the ring is full;
      only a full ring whose oldest value is claimed drops the pushed value. */
  lemma PushAlone<T>(w: World<T>, value: T)
    requires Inv(w) && w.push.ProducerIdle?
    ensures var next := Turns(w, value, if !Full(w) then 4 else if w.memory.reading then 7 else 9);
            && next.push.ProducerIdle? && next.pop == w.pop
            && next.history.pushed == w.history.pushed + [value]
            && next.history.outcomes == w.history.outcomes
                 + [if !Full(w) then Published else if w.memory.reading then DroppedDuringRead else ReplacedStale]
            && next.history.accepted == w.history.accepted
                 + (if Full(w) && w.memory.reading then [] else [|w.history.pushed|])
            && next.history.head == (if Full(w) && !w.memory.reading then |w.history.accepted| else w.history.head)
            && next.memory.discarded == w.memory.discarded
                 + (if !Full(w) then 0 else if w.memory.reading then 1 else |w.memory.slots| - 1)
  {
    CursorsOf(w);
    if !Full(w) {
      PushWithSpareSlot(w, value);
    } else if w.memory.reading {
      DropAlone(w, value);
    } else {
      ReplaceAlone(w, value);
    }
  }

  /** The two branches an uninterrupted push takes. */
  lemma PushBranches<T>(w: World<T>, value: T)
    requires Inv(w) && w.push.ProducerIdle?
    ensures Turns(w, value, 2).push.WriteSlot? <==> !Full(w)
    ensures Full(w) ==> (Turns(w, value, 5).push.CountDropped? <==> w.memory.reading)
  {
    CursorsOf(w);
    SecondTurn(w, value);
    if Full(w) {
      PushOpensWindow(w, value);
      TurnsCompose(w, value, 4, 1);
      assert Turns(w, value, 5) == Turns(ProducerStep(Turns(w, value, 4), value), value, 0);
    }
  }

  lemma SecondTurn<T>(w: World<T>, value: T)
    requires InBounds(w) && w.push.ProducerIdle?
    ensures Turns(w, value, 2).push.WriteSlot? <==> NextIndex(w.memory.producer, |w.memory.slots|) != w.memory.consumer
  {
  }

  // ----- a pop without interference -----

  /** `steps` consecutive operations of the consumer. */
  ghost function PopTurns<T>(w: World<T>, steps: nat): World<T>
    decreases steps
  {
    if steps == 0 || !InBounds(w) then w else PopTurns(ConsumerStep(w), steps - 1)
  }

  /** Operations left in the current `pop` if the producer stands still. */
  ghost function Remaining<T>(w: World<T>): nat {
    match w.pop
    case ConsumerIdle => 0
    case LoadGeneration => 7
    case LoadState(g) => if g == w.memory.generation then 6 else 12
    case LoadProducer(g, _) => if g == w.memory.generation then 5 else 11
    case Claim(g) => if g == w.memory.generation then 4 else 10
    case Recheck(g, _) => if g == w.memory.generation then 3 else 9
    case Unclaim(_) => 8
    case CopySlot(_) => 2
    case Release(_, _) => 1
    case Undefined => 0
  }

  /** The empty ring this pop is about to report is that of an earlier generation; see EmptyAnswerMayBeStale. */
  ghost predicate Outdated<T>(w: World<T>) {
    w.pop.LoadProducer? && w.pop.seen == w.memory.producer
  }

  lemma WaitingMeansApart<T>(w: World<T>)
    requires Inv(w) && w.history.head < |w.history.accepted|
    ensures w.memory.consumer != w.memory.producer
    ensures w.memory.slots[w.memory.consumer] == ValueAt(w.history, w.history.head) != None
  {
    assert Holds(w.memory, w.history, w.history.head);
    if w.memory.consumer == w.memory.producer {
      SameIndex(w.history.head, |w.history.accepted|, |w.memory.slots|);
    }
  }

  /** A pop under way, with a value waiting and the producer standing still outside a replacement, goes on until it has
      returned and released the oldest waiting value, also after a recheck that failed: it tries again and does not give
      up. */
  lemma {:induction false} PopReturnsAlone<T>(w: World<T>)
    requires Inv(w) && !w.pop.ConsumerIdle? && !WindowOpen(w.push) && w.history.head < |w.history.accepted|
    requires !Outdated(w)
    ensures var next := PopTurns(w, Remaining(w));
            && next.pop.ConsumerIdle? && next.push == w.push && !next.memory.reading
            && next.memory.generation == w.memory.generation
            && next.history == w.history.(popped := w.history.popped + [w.history.head], head := w.history.head + 1,
                 returned := w.history.returned + [ValueAt(w.history, w.history.head).value])
    decreases Remaining(w)
  {
    WaitingMeansApart(w);
    var next := ConsumerStep(w);
    ConsumerStepKeepsInv(w);
    assert PopTurns(w, Remaining(w)) == PopTurns(next, Remaining(w) - 1);
    if w.pop.Release? {
      assert PopTurns(next, 0) == next;
    } else {
      PopReturnsAlone(next);
    }
  }

  /** With no producer step in between and no replacement under way, a pop of a non-empty handoff ends
      after eight operations having returned and released the oldest waiting value. */
  lemma PopAlone<T>(w: World<T>)
    requires Inv(w) && w.pop.ConsumerIdle? && !WindowOpen(w.push) && w.history.head < |w.history.accepted|
    ensures var next := PopTurns(w, 8);
            && next.pop.ConsumerIdle? && next.push == w.push && !next.memory.reading
            && next.history.head == w.history.head + 1
            && |next.history.returned| == |w.history.returned| + 1
            && next.history.returned[..|w.history.returned|] == w.history.returned
            && Some(next.history.returned[|w.history.returned|]) == ValueAt(w.history, w.history.head)
  {
    ConsumerStepKeepsInv(w);
    PopReturnsAlone(ConsumerStep(w));
  }

  /** A pop whose recheck has failed takes back its claim and tries again: with the producer standing still afterwards,
      it returns the oldest waiting value after eight operations. */
  lemma InterferedPopTriesAgain<T>(w: World<T>)
    requires Inv(w) && w.pop.Unclaim? && !WindowOpen(w.push) && w.history.head < |w.history.accepted|
    ensures PopTurns(w, 8).pop.ConsumerIdle?
    ensures PopTurns(w, 8).history.returned == w.history.returned + [ValueAt(w.history, w.history.head).value]
  {
    PopReturnsAlone(w);
  }

  // ----- a pop that returns nothing -----

  ghost predicate Empty<T>(w: World<T>) {
    w.history.head == |w.history.accepted|
  }

  /** Whether the ring has been empty at some moment since the latest pop began; `since` is the answer for `w`. */
  ghost function EmptySince<T>(w: World<T>, events: seq<Event<T>>, since: bool): bool
    requires Inv(w)
    decreases |events|
  {
    if events == [] then since
    else
      StepKeepsInv(w, events[0]);
      var next := Step(w, events[0]);
      var begins := events[0].ConsumerTurn? && w.pop.ConsumerIdle?;
      EmptySince(next, events[1..], Empty(next) || (since && !begins))
  }

  /** Before the claim: the ring has been empty, or the generation stands, or a replacement has opened its window and not
      moved the consumer yet. */
  ghost predicate Explained<T>(w: World<T>, since: bool) {
    && (Empty(w) && !w.pop.ConsumerIdle? ==> since)
    && (w.pop.LoadState? || w.pop.LoadProducer? ==>
          || since
          || w.pop.generation == w.memory.generation
          || (w.pop.generation + 1 == w.memory.generation
              && (w.push.ReloadConsumer? || (w.push.SwapConsumer? && w.push.seen == w.memory.consumer))
              && (w.pop.LoadProducer? ==> w.pop.seen == w.memory.consumer)))
  }

  lemma StepKeepsExplained<T>(w: World<T>, event: Event<T>, since: bool)
    requires Inv(w) && Explained(w, since)
    ensures Explained(Step(w, event), Empty(Step(w, event)) || (since && !(event.ConsumerTurn? && w.pop.ConsumerIdle?)))
  {
  }

  lemma {:induction false} RunIsExplained<T>(w: World<T>, events: seq<Event<T>>, since: bool)
    requires Inv(w) && Explained(w, since)
    ensures Explained(Run(w, events), EmptySince(w, events, since))
    decreases |events|
  {
    if events != [] {
      StepKeepsInv(w, events[0]);
      StepKeepsExplained(w, events[0], since);
      var next := Step(w, events[0]);
      RunIsExplained(next, events[1..], Empty(next) || (since && !(events[0].ConsumerTurn? && w.pop.ConsumerIdle?)));
    }
  }

  /** The next operation ends the pop without a value. */
  ghost predicate GivesUp<T>(w: World<T>)
    requires InBounds(w)
  {
    !w.pop.ConsumerIdle? && ConsumerStep(w).pop.ConsumerIdle? && ConsumerStep(w).history.returned == w.history.returned
  }

  /** In every run, a pop that ends without a value has found a replacement under way at its generation load, or the ring
      has been empty at some moment since it began. While the generation stands it gives up exactly on an empty ring. */
  lemma PopGivesUpWithReason<T>(slotCount: nat, events: seq<Event<T>>)
    requires slotCount >= 2
    ensures var w := From(slotCount, events);
            && InBounds(w) && Inv(Fresh<T>(slotCount))
            && (GivesUp(w) ==>
                  || (w.pop.LoadGeneration? && WindowOpen(w.push))
                  || (w.pop.LoadProducer? && EmptySince(Fresh<T>(slotCount), events, true)))
            && (w.pop.LoadGeneration? && WindowOpen(w.push) ==> GivesUp(w))
            && (w.pop.LoadProducer? && w.pop.generation == w.memory.generation ==> (GivesUp(w) <==> Empty(w)))
  {
    var w := From(slotCount, events);
    InitialInv<T>(slotCount);
    RunIsExplained(Fresh<T>(slotCount), events, true);
    if !Empty(w) {
      WaitingMeansApart(w);
    }
  }

  lemma {:induction false} RunAppend<T>(w: World<T>, a: seq<Event<T>>, b: seq<Event<T>>)
    requires Inv(w)
    ensures Run(w, a + b) == Run(Run(w, a), b)
    decreases |a|
  {
    if a == [] {
      assert a + b == b;
    } else {
      assert (a + b)[1..] == a[1..] + b;
      StepKeepsInv(w, a[0]);
      RunAppend(Step(w, a[0]), a[1..], b);
    }
  }

  function Pushing<T>(value: T, steps: nat): (events: seq<Event<T>>)
    ensures |events| == steps
  {
    seq(steps, _ => ProducerTurn(value))
  }

  function Popping<T>(steps: nat): (events: seq<Event<T>>)
    ensures |events| == steps
  {
    seq(steps, _ => ConsumerTurn)
  }

  lemma {:induction false} PushingRuns<T>(w: World<T>, value: T, steps: nat)
    requires Inv(w)
    ensures Run(w, Pushing(value, steps)) == Turns(w, value, steps)
    decreases steps
  {
    if steps > 0 {
      ProducerStepKeepsInv(w, value);
      assert Pushing(value, steps)[1..] == Pushing(value, steps - 1);
      PushingRuns(ProducerStep(w, value), value, steps - 1);
    }
  }

  lemma {:induction false} PoppingRuns<T>(w: World<T>, steps: nat)
    requires Inv(w)
    ensures Run(w, Popping(steps)) == PopTurns(w, steps)
    decreases steps
  {
    if steps > 0 {
      ConsumerStepKeepsInv(w);
      assert Popping<T>(steps)[1..] == Popping<T>(steps - 1);
      PoppingRuns(ConsumerStep(w), steps - 1);
    }
  }

  lemma PopLoadsConsumer<T>(w: World<T>)
    requires Inv(w) && w.pop.ConsumerIdle? && !WindowOpen(w.push)
    ensures PopTurns(w, 3) == w.(pop := LoadProducer(w.memory.generation, w.memory.consumer), cost := PopTurns(w, 3).cost)
  {
    var w1 := ConsumerStep(w);
    var w2 := ConsumerStep(w1);
    assert PopTurns(w, 3) == PopTurns(w1, 2) == PopTurns(w2, 1);
  }

  /** Between the two index loads of a pop, a push replaces the only value of two slots. */
  lemma ReplacedBetweenLoads<T>(w: World<T>, value: T)
    requires Inv(w) && w.push.ProducerIdle? && |w.memory.slots| == 2
    requires w.pop.LoadProducer? && w.pop.seen == w.memory.consumer
    requires w.history.head == 0 && |w.history.accepted| == 1
    ensures var next := Turns(w, value, 9);
            && InBounds(next) && GivesUp(next) && !WindowOpen(next.push) && !Empty(next)
            && ValueAt(next.history, next.history.head) == Some(value)
  {
    hide Turns, ProducerStep;
    PushAlone(w, value);
    TurnsKeepInv(w, value, 9);
    var next := Turns(w, value, 9);
    assert !WindowOpen(next.push) && next.pop == w.pop;
    assert IndexOf(2, 2) == 0 == IndexOf(0, 2);
    MeetsEmptyHanded(next);
  }

  lemma MeetsEmptyHanded<T>(w: World<T>)
    requires InBounds(w) && w.pop.LoadProducer? && w.pop.seen == w.memory.producer
    ensures GivesUp(w)
  {
  }

  /** A pop may return nothing although a value waits when it looks: of two slots, the only value was replaced by a whole
      push between the two index loads of the pop, and the indexes it compares come from both sides of that. */
  lemma EmptyAnswerMayBeStale<T>(first: T, second: T)
    ensures var w := From(2, Pushing(first, 4) + Popping(3) + Pushing(second, 9));
            && InBounds(w) && GivesUp(w) && !WindowOpen(w.push) && !Empty(w)
            && ValueAt(w.history, w.history.head) == Some(second)
  {
    hide Inv, InBounds, GivesUp, Run, Turns, PopTurns, Pushing, Popping, ValueAt;
    var w0 := Fresh<T>(2);
    InitialInv<T>(2);
    RunAppend(w0, Pushing(first, 4) + Popping(3), Pushing(second, 9));
    RunAppend(w0, Pushing(first, 4), Popping(3));
    PushingRuns(w0, first, 4);
    PushAlone(w0, first);
    var w1 := Run(w0, Pushing(first, 4));
    PoppingRuns(w1, 3);
    PopLoadsConsumer(w1);
    var w2 := Run(w1, Popping(3));
    PushingRuns(w2, second, 9);
    ReplacedBetweenLoads(w2, second);
  }

  // ----- the cost of a pop -----

  ghost predicate CostInv<T>(w: World<T>) {
    && w.cost.start <= w.memory.generation
    && (!w.pop.ConsumerIdle? ==> w.cost.steps + Remaining(w) <= 7 + 6 * (w.memory.generation - w.cost.start))
    && w.cost.steps <= 7 + 6 * (w.memory.generation - w.cost.start)
  }

  lemma ConsumerStepKeepsCost<T>(w: World<T>)
    requires Inv(w) && CostInv(w)
    ensures CostInv(ConsumerStep(w))
    ensures !w.pop.ConsumerIdle? ==> Remaining(ConsumerStep(w)) < Remaining(w)
  {
  }

  lemma ProducerStepKeepsCost<T>(w: World<T>, value: T)
    requires Inv(w) && CostInv(w)
    ensures CostInv(ProducerStep(w, value))
  {
    var next := ProducerStep(w, value);
    assert next.pop == w.pop && next.cost == w.cost;
    assert w.memory.generation <= next.memory.generation <= w.memory.generation + 1;
    assert next.memory.generation == w.memory.generation ==> Remaining(next) == Remaining(w);
  }

  lemma {:induction false} RunKeepsCost<T>(w: World<T>, events: seq<Event<T>>)
    requires Inv(w) && CostInv(w)
    ensures CostInv(Run(w, events))
    decreases |events|
  {
    if events != [] {
      match events[0] {
        case ProducerTurn(value) => ProducerStepKeepsCost(w, value);
        case ConsumerTurn => ConsumerStepKeepsCost(w);
      }
      StepKeepsInv(w, events[0]);
      RunKeepsCost(Step(w, events[0]), events[1..]);
    }
  }

  /** `pop` never spins for free: after its first seven operations, every further six are paid for by a
      generation increment the producer made since the pop began; and each of its operations takes it
      strictly closer to returning unless the producer moves. */
  lemma PopIsPaidForByTheProducer<T>(slotCount: nat, events: seq<Event<T>>)
    requires slotCount >= 2
    ensures var w := From(slotCount, events);
            && w.cost.start <= w.memory.generation
            && w.cost.steps <= 7 + 6 * (w.memory.generation - w.cost.start)
            && (!w.pop.ConsumerIdle? ==> Remaining(ConsumerStep(w)) < Remaining(w))
  {
    InitialInv<T>(slotCount);
    RunKeepsCost(Fresh<T>(slotCount), events);
    ConsumerStepKeepsCost(From(slotCount, events));
  }
}
