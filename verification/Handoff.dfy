/** The newest-audio handoff as two endpoints that interleave one atomic step at a time
    (rust/asl3/src/handoff.rs). Each endpoint is a program counter; a run is any sequence of steps.
    Stored indexes are kept beside the logical positions and the history they stand for. */
module Handoff {
  import opened Wrappers
  import opened Ring

  datatype PublishOutcome = Published | ReplacedStale | DroppedDuringRead

  /** Where `push` stands; each constructor names the atomic operation it performs next. */
  datatype ProducerPc<T> =
    | ProducerIdle
    | LoadConsumer(value: T)
    | WriteSlot(value: T, replacing: bool)
    | StoreProducer(value: T, replacing: bool)
    | OpenWindow(value: T)
    | ReloadConsumer(value: T)
    | SwapConsumer(value: T, seen: nat, seenAt: nat) // `seenAt` is the position behind index `seen`
    | CountDiscarded(value: T, distance: nat)
    | CountDropped(value: T)
    | CloseWindow(value: T, outcome: PublishOutcome)

  /** Where `pop` stands. */
  datatype ConsumerPc<T> =
    | ConsumerIdle
    | LoadGeneration
    | LoadState(generation: nat)
    | LoadProducer(generation: nat, seen: nat)
    | Claim(generation: nat)
    | Recheck(generation: nat, claimed: nat)
    | Unclaim(claimed: nat)
    | CopySlot(claimed: nat)
    | Release(claimed: nat, copied: T)
    | Undefined // an uninitialised slot was copied

  /** The shared atomics and slots. */
  datatype Memory<T> = Memory(
    slots: seq<Option<T>>,
    producer: nat,
    consumer: nat,
    reading: bool,
    generation: nat,
    discarded: nat
  )

  /** What has happened: every value given to `push` and its outcome, which pushes reached a slot, the
      logical position of the consumer, the positions and values `pop` returned, and the losses. */
  datatype History<T> = History(
    pushed: seq<T>,
    outcomes: seq<PublishOutcome>,
    accepted: seq<nat>,
    head: nat,
    popped: seq<nat>,
    returned: seq<T>,
    skipped: nat,
    dropped: nat
  )

  /** Steps of the current or latest `pop`, and the generation it started at. */
  datatype Cost = Cost(start: nat, steps: nat)

  datatype World<T> = World(
    memory: Memory<T>,
    history: History<T>,
    push: ProducerPc<T>,
    pop: ConsumerPc<T>,
    cost: Cost
  )

  datatype Event<T> = ProducerTurn(value: T) | ConsumerTurn

  /** The largest index that leaves one bit of a 64-bit word for the claim. */
  const INDEX_MASK: nat := 0x7fff_ffff_ffff_ffff

  function Fresh<T>(slotCount: nat): World<T> {
    World(Memory(seq(slotCount, _ => None), 0, 0, false, 0, 0),
          History([], [], [], 0, [], [], 0, 0), ProducerIdle, ConsumerIdle, Cost(0, 0))
  }

  function Split<T>(slotCount: nat): (handoff: Result<World<T>, ()>) {
    if 2 <= slotCount <= INDEX_MASK then Ok(Fresh(slotCount)) else Err(())
  }

  // ----- atomic steps -----

  predicate InBounds<T>(w: World<T>) {
    && w.memory.producer < |w.memory.slots| && w.memory.consumer < |w.memory.slots|
    && (w.pop.CopySlot? ==> w.pop.claimed < |w.memory.slots|)
    && (w.push.SwapConsumer? ==> w.push.seen < |w.memory.slots|)
    && (!w.push.ProducerIdle? ==> |w.history.pushed| > 0)
    && w.history.head <= |w.history.accepted|
  }

  /** One atomic step of `push`; when idle, the call `push(value)` itself. */
  function ProducerStep<T>(w: World<T>, value: T): World<T>
    requires InBounds(w)
  {
    var m, h := w.memory, w.history;
    match w.push
    case ProducerIdle =>
      w.(history := h.(pushed := h.pushed + [value]), push := LoadConsumer(value))
    case LoadConsumer(v) =>
      if NextIndex(m.producer, |m.slots|) != m.consumer
      then w.(push := WriteSlot(v, false))
      else w.(push := OpenWindow(v))
    case WriteSlot(v, replacing) =>
      w.(memory := m.(slots := m.slots[m.producer := Some(v)]), push := StoreProducer(v, replacing))
    case StoreProducer(v, replacing) =>
      var stored := m.(producer := NextIndex(m.producer, |m.slots|));
      var logged := h.(accepted := h.accepted + [|h.pushed| - 1]);
      if replacing
      then w.(memory := stored, history := logged, push := CloseWindow(v, ReplacedStale))
      else w.(memory := stored, history := logged.(outcomes := h.outcomes + [Published]), push := ProducerIdle)
    case OpenWindow(v) =>
      w.(memory := m.(generation := m.generation + 1), push := ReloadConsumer(v))
    case ReloadConsumer(v) =>
      w.(push := SwapConsumer(v, m.consumer, h.head))
    case SwapConsumer(v, seen, _) =>
      if !m.reading && m.consumer == seen
      then w.(memory := m.(consumer := m.producer),
              history := h.(head := |h.accepted|, skipped := h.skipped + |h.accepted| - h.head),
              push := CountDiscarded(v, Distance(seen, m.producer, |m.slots|)))
      else w.(push := CountDropped(v))
    case CountDiscarded(v, distance) =>
      w.(memory := m.(discarded := m.discarded + distance), push := WriteSlot(v, true))
    case CountDropped(v) =>
      w.(memory := m.(discarded := m.discarded + 1), history := h.(dropped := h.dropped + 1),
         push := CloseWindow(v, DroppedDuringRead))
    case CloseWindow(_, outcome) =>
      w.(memory := m.(generation := m.generation + 1), history := h.(outcomes := h.outcomes + [outcome]),
         push := ProducerIdle)
  }

  /** One atomic step of `pop`; when idle, the call of `pop` itself. */
  function ConsumerStep<T>(w: World<T>): World<T>
    requires InBounds(w)
  {
    var cost := if w.pop.ConsumerIdle? then Cost(w.memory.generation, 0) else Cost(w.cost.start, w.cost.steps + 1);
    ConsumerMove(w).(cost := cost)
  }

  function ConsumerMove<T>(w: World<T>): World<T>
    requires InBounds(w)
  {
    var m, h := w.memory, w.history;
    match w.pop
    case ConsumerIdle =>
      w.(pop := LoadGeneration)
    case LoadGeneration =>
      w.(pop := if m.generation % 2 != 0 then ConsumerIdle else LoadState(m.generation))
    case LoadState(generation) =>
      w.(pop := LoadProducer(generation, m.consumer))
    case LoadProducer(generation, seen) =>
      w.(pop := if seen == m.producer then ConsumerIdle else Claim(generation))
    case Claim(generation) =>
      w.(memory := m.(reading := true), pop := Recheck(generation, m.consumer))
    case Recheck(generation, claimed) =>
      w.(pop := if m.generation != generation then Unclaim(claimed) else CopySlot(claimed))
    case Unclaim(claimed) =>
      w.(memory := m.(consumer := claimed, reading := false), pop := LoadGeneration)
    case CopySlot(claimed) =>
      w.(pop := match m.slots[claimed] case Some(value) => Release(claimed, value) case None => Undefined)
    case Release(claimed, copied) =>
      w.(memory := m.(consumer := NextIndex(claimed, |m.slots|), reading := false),
         history := h.(popped := h.popped + [h.head], returned := h.returned + [copied], head := h.head + 1),
         pop := ConsumerIdle)
    case Undefined => w
  }

  // ----- the invariant -----

  ghost predicate Increasing(s: seq<nat>, bound: int) {
    && (forall i, j | 0 <= i < j < |s| :: s[i] < s[j])
    && (forall i | 0 <= i < |s| :: s[i] < bound)
  }

  /** The value accepted at a logical position. */
  ghost function ValueAt<T>(h: History<T>, position: nat): Option<T> {
    if position < |h.accepted| && h.accepted[position] < |h.pushed| then Some(h.pushed[h.accepted[position]]) else None
  }

  /** The slot of a logical position holds the value accepted there. */
  ghost predicate Holds<T>(m: Memory<T>, h: History<T>, position: nat)
    requires |m.slots| > 0
  {
    ValueAt(h, position).Some? && m.slots[IndexOf(position, |m.slots|)] == ValueAt(h, position)
  }

  /** The producer has moved the consumer's cursor and not yet closed its window. */
  ghost predicate Replacing<T>(pc: ProducerPc<T>) {
    || pc.CountDiscarded? || (pc.WriteSlot? && pc.replacing) || (pc.StoreProducer? && pc.replacing)
    || (pc.CloseWindow? && pc.outcome == ReplacedStale)
  }

  /** The generation is odd exactly while the producer is between its two increments. */
  ghost predicate WindowOpen<T>(pc: ProducerPc<T>) {
    || Replacing(pc) || pc.ReloadConsumer? || pc.SwapConsumer? || pc.CountDropped? || pc.CloseWindow?
  }

  /** The value of the push in progress has neither been accepted nor dropped. */
  ghost predicate InFlight<T>(pc: ProducerPc<T>) {
    !pc.ProducerIdle? && !pc.CloseWindow?
  }

  ghost predicate Holding<T>(pc: ConsumerPc<T>) {
    pc.Recheck? || pc.Unclaim? || pc.CopySlot? || pc.Release?
  }

  ghost function Undecided<T>(pc: ProducerPc<T>): nat {
    if InFlight(pc) then 1 else 0
  }

  ghost predicate HistoryInv<T>(h: History<T>, undecided: nat, slotCount: nat) {
    && h.head <= |h.accepted| <= h.head + slotCount - 1
    && Increasing(h.accepted, |h.pushed| - undecided)
    && Increasing(h.popped, h.head)
    && |h.popped| == |h.returned|
    && |h.popped| + h.skipped == h.head
    && |h.pushed| == |h.accepted| + h.dropped + undecided
    && (forall k | 0 <= k < |h.returned| :: ValueAt(h, h.popped[k]) == Some(h.returned[k]))
  }

  ghost predicate MemoryInv<T>(w: World<T>) {
    var m, h, n := w.memory, w.history, |w.memory.slots|;
    && n >= 2
    && m.producer == IndexOf(|h.accepted|, n)
    && m.consumer == IndexOf(h.head, n)
    && m.reading == Holding(w.pop)
    && (m.generation % 2 == 1) == WindowOpen(w.push)
    && (forall position | h.head <= position < |h.accepted| :: Holds(m, h, position))
    && m.discarded + (if w.push.CountDiscarded? then w.push.distance else 0) == h.skipped + h.dropped
    && |h.outcomes| == |h.pushed| - (if w.push.ProducerIdle? then 0 else 1)
  }

  ghost predicate ProducerInv<T>(w: World<T>) {
    var m, h, n := w.memory, w.history, |w.memory.slots|;
    && (!w.push.ProducerIdle? ==> |h.pushed| > 0 && h.pushed[|h.pushed| - 1] == w.push.value)
    && (w.push.WriteSlot? || w.push.StoreProducer? ==>
          && |h.accepted| + 2 <= h.head + n
          && (w.push.replacing ==> h.head == |h.accepted|))
    && (w.push.StoreProducer? && m.producer < n ==> m.slots[m.producer] == Some(w.push.value))
    && (w.push.SwapConsumer? ==>
          && n > 0 && w.push.seen == IndexOf(w.push.seenAt, n)
          && w.push.seenAt <= h.head && |h.accepted| < w.push.seenAt + n)
    && (w.push.CountDiscarded? ==> h.head == |h.accepted|)
    && (w.push.CloseWindow? ==> w.push.outcome != Published)
    && (w.push.CloseWindow? && w.push.outcome == ReplacedStale ==>
          h.head + 1 == |h.accepted| && h.accepted[h.head] == |h.pushed| - 1)
  }

  ghost predicate ConsumerInv<T>(w: World<T>) {
    var m, h := w.memory, w.history;
    match w.pop
    case ConsumerIdle => true
    case LoadGeneration => true
    case LoadState(g) => g % 2 == 0 && g <= m.generation
    case LoadProducer(g, seen) => g % 2 == 0 && g <= m.generation && (g == m.generation ==> seen == m.consumer)
    case Claim(g) => g % 2 == 0 && g <= m.generation && (g == m.generation ==> h.head < |h.accepted|)
    case Recheck(g, claimed) =>
      g % 2 == 0 && g <= m.generation && claimed == m.consumer && (g == m.generation ==> h.head < |h.accepted|)
    case Unclaim(claimed) => claimed == m.consumer
    case CopySlot(claimed) => claimed == m.consumer && h.head < |h.accepted| && !Replacing(w.push)
    case Release(claimed, copied) =>
      claimed == m.consumer && h.head < |h.accepted| && !Replacing(w.push) && ValueAt(h, h.head) == Some(copied)
    case Undefined => false
  }

  ghost predicate Inv<T>(w: World<T>) {
    && InBounds(w)
    && HistoryInv(w.history, Undecided(w.push), |w.memory.slots|)
    && MemoryInv(w) && ProducerInv(w) && ConsumerInv(w)
  }

  /** A handoff can be made of at least two slots, and of at most as many as leave one bit of a word for the claim. */
  lemma SplitExactly<T>(slotCount: nat)
    ensures Split<T>(slotCount).Ok? <==> 2 <= slotCount < 0x8000_0000_0000_0000
    ensures Split<T>(slotCount).Ok? ==> Inv(Split<T>(slotCount).value) && |Split<T>(slotCount).value.memory.slots| == slotCount
  {
    if 2 <= slotCount {
      InitialInv<T>(slotCount);
    }
  }

  lemma InitialInv<T>(slotCount: nat)
    requires slotCount >= 2
    ensures Inv(Fresh<T>(slotCount))
  {
  }

  // ----- producer steps keep the invariant, one program point at a time -----

  lemma WaitingKept<T>(w: World<T>, next: World<T>)
    requires MemoryInv(w) && next.memory.slots == w.memory.slots
    requires next.history.accepted == w.history.accepted && w.history.pushed <= next.history.pushed
    requires w.history.head <= next.history.head
    ensures forall position | next.history.head <= position < |next.history.accepted| ::
              Holds(next.memory, next.history, position)
  {
    forall position | next.history.head <= position < |next.history.accepted|
      ensures Holds(next.memory, next.history, position)
    {
      assert Holds(w.memory, w.history, position);
    }
  }

  lemma WriteSlotKeepsInv<T>(w: World<T>, value: T)
    requires Inv(w) && w.push.WriteSlot?
    ensures Inv(ProducerStep(w, value))
  {
    var next := ProducerStep(w, value);
    forall position | w.history.head <= position < |w.history.accepted|
      ensures Holds(next.memory, next.history, position)
    {
      assert Holds(w.memory, w.history, position);
      if IndexOf(position, |w.memory.slots|) == w.memory.producer {
        SameIndex(position, |w.history.accepted|, |w.memory.slots|);
      }
    }
  }

  lemma StoreProducerKeepsHistory<T>(w: World<T>, value: T)
    requires Inv(w) && w.push.StoreProducer?
    ensures var next := ProducerStep(w, value);
            HistoryInv(next.history, Undecided(next.push), |next.memory.slots|)
  {
  }

  lemma StoreProducerKeepsInv<T>(w: World<T>, value: T)
    requires Inv(w) && w.push.StoreProducer?
    ensures Inv(ProducerStep(w, value))
  {
    var next := ProducerStep(w, value);
    StoreProducerKeepsHistory(w, value);
    NextIndexOfPosition(|w.history.accepted|, |w.memory.slots|);
    forall position | w.history.head <= position < |next.history.accepted|
      ensures Holds(next.memory, next.history, position)
    {
      if position < |w.history.accepted| {
        assert Holds(w.memory, w.history, position);
      }
    }
  }

  lemma LoadConsumerKeepsInv<T>(w: World<T>, value: T)
    requires Inv(w) && w.push.LoadConsumer?
    ensures Inv(ProducerStep(w, value))
  {
    NextMeets(w.history.head, |w.history.accepted|, |w.memory.slots|);
    WaitingKept(w, ProducerStep(w, value));
  }

  lemma SwapConsumerKeepsInv<T>(w: World<T>, value: T)
    requires Inv(w) && w.push.SwapConsumer?
    ensures Inv(ProducerStep(w, value))
  {
    if !w.memory.reading && w.memory.consumer == w.push.seen {
      SameIndex(w.push.seenAt, w.history.head, |w.memory.slots|);
      DistanceOfPositions(w.history.head, |w.history.accepted|, |w.memory.slots|);
    }
  }

  lemma BeginPushKeepsInv<T>(w: World<T>, value: T)
    requires Inv(w) && w.push.ProducerIdle?
    ensures Inv(ProducerStep(w, value))
  {
    WaitingKept(w, ProducerStep(w, value));
  }

  lemma WindowStepsKeepInv<T>(w: World<T>, value: T)
    requires Inv(w)
    requires w.push.OpenWindow? || w.push.ReloadConsumer? || w.push.CountDiscarded? || w.push.CountDropped? || w.push.CloseWindow?
    ensures Inv(ProducerStep(w, value))
  {
    WaitingKept(w, ProducerStep(w, value));
  }

  lemma ProducerStepKeepsInv<T>(w: World<T>, value: T)
    requires Inv(w)
    ensures Inv(ProducerStep(w, value))
  {
    match w.push
    case ProducerIdle => BeginPushKeepsInv(w, value);
    case WriteSlot(_, _) => WriteSlotKeepsInv(w, value);
    case StoreProducer(_, _) => StoreProducerKeepsInv(w, value);
    case LoadConsumer(_) => LoadConsumerKeepsInv(w, value);
    case SwapConsumer(_, _, _) => SwapConsumerKeepsInv(w, value);
    case _ => WindowStepsKeepInv(w, value);
  }

  // ----- consumer steps keep the invariant -----

  lemma ReleaseKeepsInv<T>(w: World<T>)
    requires Inv(w) && w.pop.Release?
    ensures Inv(ConsumerStep(w))
  {
    NextIndexOfPosition(w.history.head, |w.memory.slots|);
    WaitingKept(w, ConsumerStep(w));
  }

  lemma CopySlotKeepsInv<T>(w: World<T>)
    requires Inv(w) && w.pop.CopySlot?
    ensures Inv(ConsumerStep(w))
  {
    assert Holds(w.memory, w.history, w.history.head);
    WaitingKept(w, ConsumerStep(w));
  }

  lemma ClaimStepsKeepInv<T>(w: World<T>)
    requires Inv(w) && (w.pop.Claim? || w.pop.Recheck? || w.pop.Unclaim?)
    ensures Inv(ConsumerStep(w))
  {
    WaitingKept(w, ConsumerStep(w));
  }

  lemma LoadStepsKeepInv<T>(w: World<T>)
    requires Inv(w) && !w.pop.Release? && !w.pop.CopySlot? && !w.pop.Claim? && !w.pop.Recheck? && !w.pop.Unclaim?
    ensures Inv(ConsumerStep(w))
  {
    WaitingKept(w, ConsumerStep(w));
  }

  lemma ConsumerStepKeepsInv<T>(w: World<T>)
    requires Inv(w)
    ensures Inv(ConsumerStep(w))
  {
    match w.pop
    case Release(_, _) => ReleaseKeepsInv(w);
    case CopySlot(_) => CopySlotKeepsInv(w);
    case Claim(_) => ClaimStepsKeepInv(w);
    case Recheck(_, _) => ClaimStepsKeepInv(w);
    case Unclaim(_) => ClaimStepsKeepInv(w);
    case _ => LoadStepsKeepInv(w);
  }

  // ----- runs -----

  ghost function Step<T>(w: World<T>, event: Event<T>): World<T>
    requires InBounds(w)
  {
    match event
    case ProducerTurn(value) => ProducerStep(w, value)
    case ConsumerTurn => ConsumerStep(w)
  }

  lemma StepKeepsInv<T>(w: World<T>, event: Event<T>)
    requires Inv(w)
    ensures Inv(Step(w, event)) && |Step(w, event).memory.slots| == |w.memory.slots|
  {
    match event
    case ProducerTurn(value) => ProducerStepKeepsInv(w, value);
    case ConsumerTurn => ConsumerStepKeepsInv(w);
  }

  /** The states an interleaving passes through after `w`: one event at a time, in order. */
  ghost function Run<T>(w: World<T>, events: seq<Event<T>>): (after: World<T>)
    requires Inv(w)
    ensures Inv(after) && |after.memory.slots| == |w.memory.slots|
    decreases |events|
  {
    if events == [] then w
    else
      StepKeepsInv(w, events[0]);
      Run(Step(w, events[0]), events[1..])
  }

  /** The state after any interleaving from the freshly split handoff. */
  ghost function From<T>(slotCount: nat, events: seq<Event<T>>): (after: World<T>)
    requires slotCount >= 2
    ensures Inv(after) && |after.memory.slots| == slotCount
  {
    InitialInv<T>(slotCount);
    Run(Fresh<T>(slotCount), events)
  }
}
