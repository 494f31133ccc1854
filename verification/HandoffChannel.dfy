/** The handoff as one object changed in place: its slots, its atomics and where each endpoint stands.
    Every turn performs one atomic operation of `push` or `pop`; `Execute` performs an interleaving. */
module HandoffChannel {
  import opened Wrappers
  import opened Ring
  import opened Handoff
  import opened HandoffTheorems

  class Channel<T> {
    const slots: array<Option<T>>
    var producer: nat
    var consumer: nat
    var reading: bool
    var generation: nat
    var discarded: nat
    var push: ProducerPc<T>
    var pop: ConsumerPc<T>
    var history: History<T>
    var cost: Cost

    ghost function View(): World<T>
      reads this, slots
    {
      World(Memory(slots[..], producer, consumer, reading, generation, discarded), history, push, pop, cost)
    }

    ghost predicate Valid()
      reads this, slots
    {
      Inv(View())
    }

    constructor (slotCount: nat)
      requires slotCount >= 2
      ensures Valid() && fresh(slots) && View() == Fresh<T>(slotCount)
    {
      slots := new Option<T>[slotCount](_ => None);
      producer, consumer, reading, generation, discarded := 0, 0, false, 0, 0;
      push, pop := ProducerIdle, ConsumerIdle;
      history, cost := History([], [], [], 0, [], [], 0, 0), Cost(0, 0);
      new;
      assert slots[..] == Fresh<T>(slotCount).memory.slots;
      InitialInv<T>(slotCount);
    }

    /** The next atomic operation of `push`; starts `push(value)` when no push is under way. */
    method ProducerTurn(value: T)
      requires InBounds(View())
      modifies this, slots
      ensures View() == ProducerStep(old(View()), value)
    {
      match push {
        case ProducerIdle =>
          history := history.(pushed := history.pushed + [value]);
          push := LoadConsumer(value);
        case LoadConsumer(v) =>
          if NextIndex(producer, slots.Length) != consumer {
            push := WriteSlot(v, false);
          } else {
            push := OpenWindow(v);
          }
        case WriteSlot(v, replacing) =>
          slots[producer] := Some(v);
          push := StoreProducer(v, replacing);
        case StoreProducer(v, replacing) =>
          producer := NextIndex(producer, slots.Length);
          history := history.(accepted := history.accepted + [|history.pushed| - 1]);
          if replacing {
            push := CloseWindow(v, ReplacedStale);
          } else {
            history := history.(outcomes := history.outcomes + [Published]);
            push := ProducerIdle;
          }
        case OpenWindow(v) =>
          generation := generation + 1;
          push := ReloadConsumer(v);
        case ReloadConsumer(v) =>
          push := SwapConsumer(v, consumer, history.head);
        case SwapConsumer(v, seen, _) =>
          if !reading && consumer == seen {
            consumer := producer;
            history := history.(skipped := history.skipped + |history.accepted| - history.head, head := |history.accepted|);
            push := CountDiscarded(v, Distance(seen, producer, slots.Length));
          } else {
            push := CountDropped(v);
          }
        case CountDiscarded(v, distance) =>
          discarded := discarded + distance;
          push := WriteSlot(v, true);
        case CountDropped(v) =>
          discarded := discarded + 1;
          history := history.(dropped := history.dropped + 1);
          push := CloseWindow(v, DroppedDuringRead);
        case CloseWindow(_, outcome) =>
          generation := generation + 1;
          history := history.(outcomes := history.outcomes + [outcome]);
          push := ProducerIdle;
      }
    }

    /** The next atomic operation of `pop`; starts a pop when none is under way. */
    method ConsumerTurn()
      requires InBounds(View())
      modifies this
      ensures View() == ConsumerStep(old(View()))
    {
      cost := if pop.ConsumerIdle? then Cost(generation, 0) else Cost(cost.start, cost.steps + 1);
      match pop {
        case ConsumerIdle =>
          pop := LoadGeneration;
        case LoadGeneration =>
          pop := if generation % 2 != 0 then ConsumerIdle else LoadState(generation);
        case LoadState(seenGeneration) =>
          pop := LoadProducer(seenGeneration, consumer);
        case LoadProducer(seenGeneration, seen) =>
          pop := if seen == producer then ConsumerIdle else Claim(seenGeneration);
        case Claim(seenGeneration) =>
          pop := Recheck(seenGeneration, consumer);
          reading := true;
        case Recheck(seenGeneration, claimed) =>
          pop := if generation != seenGeneration then Unclaim(claimed) else CopySlot(claimed);
        case Unclaim(claimed) =>
          consumer, reading := claimed, false;
          pop := LoadGeneration;
        case CopySlot(claimed) =>
          pop := match slots[claimed] case Some(value) => Release(claimed, value) case None => Undefined;
        case Release(claimed, copied) =>
          consumer, reading := NextIndex(claimed, slots.Length), false;
          history := history.(popped := history.popped + [history.head],
                              returned := history.returned + [copied], head := history.head + 1);
          pop := ConsumerIdle;
        case Undefined =>
      }
    }

    /** Performs one interleaving of both endpoints. */
    method Execute(events: seq<Event<T>>)
      requires Valid()
      modifies this, slots
      ensures Valid() && View() == Run(old(View()), events)
    {
      for i := 0 to |events|
        invariant Valid() && Run(View(), events[i..]) == Run(old(View()), events)
      {
        ghost var before := View();
        assert events[i..][0] == events[i] && events[i..][1..] == events[i + 1..];
        match events[i] {
          case ProducerTurn(value) => ProducerTurn(value);
          case ConsumerTurn => ConsumerTurn();
        }
        StepKeepsInv(before, events[i]);
      }
    }

    /** One more operation of an uninterrupted push. */
    method ContinuePush(value: T, ghost start: World<T>, ghost done: nat)
      requires InBounds(View()) && View() == Turns(start, value, done)
      modifies this, slots
      ensures InBounds(View()) && View() == Turns(start, value, done + 1)
    {
      TurnsStayInBounds(View(), value);
      TurnsCompose(start, value, done, 1);
      ghost var before := View();
      ProducerTurn(value);
      assert Turns(before, value, 1) == Turns(View(), value, 0);
    }

    /** `push(value)` with the consumer standing still, wherever it stands. */
    method Push(value: T) returns (outcome: PublishOutcome)
      requires Valid() && push.ProducerIdle?
      modifies this, slots
      ensures Valid() && push.ProducerIdle? && pop == old(pop)
      ensures history.pushed == old(history.pushed) + [value]
      ensures history.outcomes == old(history.outcomes) + [outcome]
      ensures outcome == if !old(Full(View())) then Published else if old(reading) then DroppedDuringRead else ReplacedStale
      ensures history.accepted == old(history.accepted)
                + (if outcome == DroppedDuringRead then [] else [|old(history.pushed)|])
      ensures history.head == if outcome == ReplacedStale then |old(history.accepted)| else old(history.head)
      ensures discarded == old(discarded)
                + (match outcome case Published => 0 case DroppedDuringRead => 1 case ReplacedStale => slots.Length - 1)
    {
      ghost var start := View();
      PushAlone(start, value);
      TurnsKeepInv(start, value, if !Full(start) then 4 else if reading then 7 else 9);
      PushBranches(start, value);
      ContinuePush(value, start, 0);
      ContinuePush(value, start, 1);
      if push.WriteSlot? {
        ContinuePush(value, start, 2);
        ContinuePush(value, start, 3);
        return Published;
      }
      ContinuePush(value, start, 2);
      ContinuePush(value, start, 3);
      ContinuePush(value, start, 4);
      if push.CountDropped? {
        ContinuePush(value, start, 5);
        ContinuePush(value, start, 6);
        return DroppedDuringRead;
      }
      ContinuePush(value, start, 5);
      ContinuePush(value, start, 6);
      ContinuePush(value, start, 7);
      ContinuePush(value, start, 8);
      return ReplacedStale;
    }

    /** `pop()` with the producer standing still, wherever it stands: nothing while a replacement is under way or the ring
        is empty, else the oldest waiting value, which is released. */
    method Pop() returns (value: Option<T>)
      requires Valid() && pop.ConsumerIdle?
      modifies this
      ensures Valid() && pop.ConsumerIdle? && push == old(push) && slots[..] == old(slots[..])
      ensures old(WindowOpen(push) || Empty(View())) ==> value == None && history == old(history)
      ensures !old(WindowOpen(push) || Empty(View())) ==>
                && value == old(ValueAt(history, history.head)) != None
                && history == old(history).(popped := old(history.popped) + [old(history.head)],
                     head := old(history.head) + 1, returned := old(history.returned) + [value.value])
    {
      var before := |history.returned|;
      ConsumerStepKeepsInv(View());
      ConsumerTurn();
      while !pop.ConsumerIdle?
        invariant Valid() && push == old(push) && slots[..] == old(slots[..]) && generation == old(generation)
        invariant !pop.ConsumerIdle? ==> history == old(history) && Undisturbed(View())
        invariant pop.ConsumerIdle? && old(WindowOpen(push) || Empty(View())) ==> history == old(history)
        invariant pop.ConsumerIdle? && !old(WindowOpen(push) || Empty(View())) ==>
                    && old(ValueAt(history, history.head)) != None
                    && history == old(history).(popped := old(history.popped) + [old(history.head)],
                         head := old(history.head) + 1,
                         returned := old(history.returned) + [old(ValueAt(history, history.head)).value])
        decreases HandoffTheorems.Remaining(View())
      {
        UndisturbedStep(View());
        ConsumerTurn();
      }
      value := if |history.returned| == before then None else Some(history.returned[before]);
    }
  }

  /** A pop under way since whose beginning the producer has not moved. */
  ghost predicate Undisturbed<T>(w: World<T>) {
    && !w.pop.Unclaim?
    && (w.pop.LoadState? || w.pop.LoadProducer? || w.pop.Claim? || w.pop.Recheck? ==>
          w.pop.generation == w.memory.generation)
    && (w.pop.ConsumerIdle? || w.pop.LoadGeneration? || !WindowOpen(w.push))
    && (w.pop.Claim? || w.pop.Recheck? || w.pop.CopySlot? || w.pop.Release? ==> !Empty(w))
  }

  lemma UndisturbedStep<T>(w: World<T>)
    requires Inv(w) && !w.pop.ConsumerIdle? && Undisturbed(w)
    ensures var next := ConsumerStep(w);
            && Inv(next) && next.push == w.push && next.memory.slots == w.memory.slots
            && next.memory.generation == w.memory.generation
            && HandoffTheorems.Remaining(next) < HandoffTheorems.Remaining(w)
            && (!next.pop.ConsumerIdle? ==> Undisturbed(next) && next.history == w.history)
            && (next.pop.ConsumerIdle? && (WindowOpen(w.push) || Empty(w)) ==> next.history == w.history)
            && (next.pop.ConsumerIdle? && !WindowOpen(w.push) && !Empty(w) ==>
                  && ValueAt(w.history, w.history.head) != None
                  && next.history == w.history.(popped := w.history.popped + [w.history.head], head := w.history.head + 1,
                       returned := w.history.returned + [ValueAt(w.history, w.history.head).value]))
  {
    ConsumerStepKeepsInv(w);
    if !Empty(w) {
      WaitingMeansApart(w);
    }
  }
}
