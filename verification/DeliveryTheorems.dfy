/** What the controller sees over whole runs: alternating edges, the frames that were taken, and every status event at
    most once and in order, also when the handoff drops packets (rust/asl3/src/adapter.rs:165-192, 322-344, 740-792). */
module DeliveryTheorems {
  import opened Wrappers
  import opened Pcm
  import opened StatusJournal
  import opened Delivery
  import Handoff
  import HandoffTheorems

  // ----- receiver edges -----

  function Edges(actions: seq<Action>): seq<bool> {
    if actions == [] then []
    else (match actions[0] case ReceiverKey(_) => [true] case ReceiverUnkey => [false] case _ => []) + Edges(actions[1..])
  }

  /** Each edge differs from the state before it, the first one from `keyed`. */
  ghost predicate Alternate(keyed: bool, edges: seq<bool>) {
    forall i | 0 <= i < |edges| :: edges[i] != if i == 0 then keyed else edges[i - 1]
  }

  function LastEdge(keyed: bool, edges: seq<bool>): bool {
    if edges == [] then keyed else edges[|edges| - 1]
  }

  lemma {:induction false} EdgesAppend(a: seq<Action>, b: seq<Action>)
    ensures Edges(a + b) == Edges(a) + Edges(b)
  {
    if a == [] {
      assert a + b == b;
    } else {
      assert (a + b)[1..] == a[1..] + b;
      EdgesAppend(a[1..], b);
    }
  }

  lemma AlternateJoins(keyed: bool, a: seq<bool>, b: seq<bool>)
    requires Alternate(keyed, a) && Alternate(LastEdge(keyed, a), b)
    ensures Alternate(keyed, a + b) && LastEdge(keyed, a + b) == LastEdge(LastEdge(keyed, a), b)
  {
    forall i | 0 <= i < |a + b|
      ensures (a + b)[i] != if i == 0 then keyed else (a + b)[i - 1]
    {
      if i < |a| {
        assert (a + b)[i] == a[i];
        assert i > 0 ==> (a + b)[i - 1] == a[i - 1];
      } else {
        var j := i - |a|;
        assert (a + b)[i] == b[j];
        assert b[j] != if j == 0 then LastEdge(keyed, a) else b[j - 1];
        assert i > 0 ==> (a + b)[i - 1] == if j > 0 then b[j - 1] else a[|a| - 1];
      }
    }
    assert b != [] ==> (a + b)[|a + b| - 1] == b[|b| - 1];
    assert b == [] ==> a + b == a;
  }

  lemma CallEdges(d: Deliverer, arrival: Option<Packet>)
    requires Delivery.Valid(d) && ReadyArrival(arrival)
    ensures var (after, action) := NextAction(d, arrival);
            var edges := Edges(Emitted(action));
            Alternate(d.keyed, edges) && after.keyed == LastEdge(d.keyed, edges)
  {
  }

  /** Key and unkey alternate over any run, starting from the state delivered before it. */
  lemma {:induction false} EdgesAlternate(d: Deliverer, offers: Offers)
    requires Delivery.Valid(d) && AllOffersReady(offers)
    ensures var (after, trace, taken) := Calls(d, offers);
            Alternate(d.keyed, Edges(trace)) && after.keyed == LastEdge(d.keyed, Edges(trace))
    decreases |offers|
  {
    if offers != [] {
      CallEdges(d, offers[0]);
      var (next, action) := NextAction(d, offers[0]);
      var (after, trace, taken) := Calls(next, offers[1..]);
      EdgesAlternate(next, offers[1..]);
      EdgesAppend(Emitted(action), trace);
      AlternateJoins(d.keyed, Edges(Emitted(action)), Edges(trace));
    }
  }

  /** The deliverer of the next station generation (adapter.rs:898-933): a fresh event count and the receiver state
      that was delivered last. A reload is only possible without a pending packet. */
  function Reloaded(d: Deliverer): Option<Deliverer> {
    if d.pending.Some? then None else Some(Deliverer(None, d.keyed, 0, 0, d.latest))
  }

  /** The actions of one generation and, after a reload, of the next. */
  ghost function AcrossReload(d: Deliverer, before: Offers, later: Offers): (trace: Option<seq<Action>>)
    requires Delivery.Valid(d) && AllOffersReady(before) && AllOffersReady(later)
  {
    var (drained, first, _) := Calls(d, before);
    match Reloaded(drained)
    case None => None
    case Some(next) => Some(first + Calls(next, later).1)
  }

  /** Key and unkey alternate across a reload too: the new generation repeats no edge and misses none. */
  lemma EdgesAlternateAcrossReload(d: Deliverer, before: Offers, later: Offers)
    requires Delivery.Valid(d) && AllOffersReady(before) && AllOffersReady(later)
    requires AcrossReload(d, before, later).Some?
    ensures Alternate(d.keyed, Edges(AcrossReload(d, before, later).value))
  {
    var (drained, first, taken) := Calls(d, before);
    var next := Reloaded(drained).value;
    EdgesAlternate(d, before);
    EdgesAlternate(next, later);
    JoinedTraces(d.keyed, first, Calls(next, later).1);
  }

  lemma JoinedTraces(keyed: bool, first: seq<Action>, second: seq<Action>)
    requires Alternate(keyed, Edges(first)) && Alternate(LastEdge(keyed, Edges(first)), Edges(second))
    ensures Alternate(keyed, Edges(first + second))
  {
    EdgesAppend(first, second);
    AlternateJoins(keyed, Edges(first), Edges(second));
  }

  function ToneOf(action: Action): seq<Option<nat>> {
    if action.ReceiverKey? then [action.ctcss] else []
  }

  /** The tones that the key actions carry. */
  function Tones(actions: seq<Action>): seq<Option<nat>> {
    if actions == [] then [] else ToneOf(actions[0]) + Tones(actions[1..])
  }

  /** The tones of the packets with which the receiver becomes keyed. */
  function TonesKeyed(keyed: bool, packets: seq<Packet>): seq<Option<nat>>
    decreases |packets|
  {
    if packets == [] then []
    else (if !keyed && packets[0].qualification.receiverKeyed then [packets[0].ctcss] else [])
         + TonesKeyed(packets[0].qualification.receiverKeyed, packets[1..])
  }

  lemma TonesKeyedAppend(keyed: bool, first: seq<Packet>, rest: seq<Packet>)
    requires |first| <= 1
    ensures TonesKeyed(keyed, first + rest)
              == TonesKeyed(keyed, first)
                 + TonesKeyed(if first == [] then keyed else first[0].qualification.receiverKeyed, rest)
  {
    if first == [] {
      assert first + rest == rest;
    } else {
      assert (first + rest)[0] == first[0] && (first + rest)[1..] == rest && first[1..] == [];
    }
  }

  lemma CallTones(d: Deliverer, arrival: Option<Packet>)
    requires Delivery.Valid(d) && ReadyArrival(arrival) && Between(d)
    ensures var (after, action) := NextAction(d, arrival);
            && Delivery.Valid(after) && Between(after) && |Taken(d, arrival)| <= 1
            && Tones(Emitted(action)) == TonesKeyed(d.keyed, Taken(d, arrival))
            && after.keyed == (if Taken(d, arrival) == [] then d.keyed
                               else Taken(d, arrival)[0].qualification.receiverKeyed)
            && after.latest == (if Taken(d, arrival) == [] then d.latest else Taken(d, arrival)[0].qualification)
  {
  }

  lemma {:induction false} TonesAppend(a: seq<Action>, b: seq<Action>)
    ensures Tones(a + b) == Tones(a) + Tones(b)
  {
    if a == [] {
      assert a + b == b;
    } else {
      assert (a + b)[1..] == a[1..] + b;
      TonesAppend(a[1..], b);
    }
  }

  /** Over any run each key action carries the tone of the packet with which the receiver became keyed, there is one for
      each such packet and no other, and the latest qualification is that of the packet taken last. */
  lemma {:induction false} KeysCarryTheirTones(d: Deliverer, offers: Offers)
    requires Delivery.Valid(d) && AllOffersReady(offers) && Between(d)
    ensures var (after, trace, taken) := Calls(d, offers);
            && Tones(trace) == TonesKeyed(d.keyed, taken)
            && after.latest == if taken == [] then d.latest else taken[|taken| - 1].qualification
    decreases |offers|
  {
    hide NextAction, Taken;
    if offers != [] {
      CallTones(d, offers[0]);
      var (next, action) := NextAction(d, offers[0]);
      var (after, trace, taken) := Calls(next, offers[1..]);
      KeysCarryTheirTones(next, offers[1..]);
      TonesAppend(Emitted(action), trace);
      TonesKeyedAppend(d.keyed, Taken(d, offers[0]), taken);
    }
  }

  // ----- voice -----

  function Voices(actions: seq<Action>): seq<Frame> {
    if actions == [] then []
    else (match actions[0] case Voice(frame) => [frame] case _ => []) + Voices(actions[1..])
  }

  lemma {:induction false} VoicesAppend(a: seq<Action>, b: seq<Action>)
    ensures Voices(a + b) == Voices(a) + Voices(b)
  {
    if a == [] {
      assert a + b == b;
    } else {
      assert (a + b)[1..] == a[1..] + b;
      VoicesAppend(a[1..], b);
    }
  }

  lemma {:induction false} NotesAreSilent(journal: Journal, next: nat)
    requires Ready(journal)
    ensures Voices(Notes(journal, next)) == [] && Edges(Notes(journal, next)) == []
    decreases journal.produced - next
  {
    if next < journal.produced {
      NotesAreSilent(journal, next + 1);
    }
  }

  lemma GroupVoice(keyed: bool, next: nat, packet: Packet)
    requires Ready(packet.journal)
    ensures Voices(Group(keyed, next, packet)) == [packet.frame]
  {
    var notes := Notes(packet.journal, Max(next, OldestSequence(packet.journal)));
    NotesAreSilent(packet.journal, Max(next, OldestSequence(packet.journal)));
    VoicesAppend(notes, [Voice(packet.frame)]);
    assert [Voice(packet.frame)][1..] == [];
    var edge := if keyed != Keyed(packet) then [Edge(packet)] else [];
    assert edge != [] ==> edge[1..] == [];
    VoicesAppend(edge, StatusGroup(packet, next));
  }

  /** Every packet taken yields exactly its own frame, in the order taken. */
  lemma {:induction false} OneVoicePerPacket(keyed: bool, next: nat, packets: seq<Packet>)
    requires AllReady(packets)
    ensures Voices(Groups(keyed, next, packets)) == seq(|packets|, k requires 0 <= k < |packets| => packets[k].frame)
    decreases |packets|
  {
    if packets != [] {
      GroupVoice(keyed, next, packets[0]);
      var rest := Groups(Keyed(packets[0]), Max(next, packets[0].journal.produced), packets[1..]);
      VoicesAppend(Group(keyed, next, packets[0]), rest);
      OneVoicePerPacket(Keyed(packets[0]), Max(next, packets[0].journal.produced), packets[1..]);
    }
  }

  /** The voice operations of a run from a drained deliverer are the frames of the packets taken, in order; only the
      frame of a packet that is still pending may be missing. */
  lemma VoicesOfRun(d: Deliverer, offers: Offers)
    requires d.pending.None? && AllOffersReady(offers)
    ensures var (after, trace, taken) := Calls(d, offers);
            var frames := seq(|taken|, k requires 0 <= k < |taken| => taken[k].frame);
            && Voices(trace) + Voices(Owed(after)) == frames
            && (after.pending.None? ==> Voices(trace) == frames)
  {
    var (after, trace, taken) := Calls(d, offers);
    TraceIsGroups(d, offers);
    assert [] + Groups(d.keyed, d.next, taken) == Groups(d.keyed, d.next, taken);
    OneVoicePerPacket(d.keyed, d.next, taken);
    VoicesAppend(trace, Owed(after));
    if after.pending.None? {
      assert trace + [] == trace;
    }
  }

  // ----- status events -----

  function Notified(actions: seq<Action>): seq<Status> {
    if actions == [] then []
    else (match actions[0] case Notify(status) => [status] case _ => []) + Notified(actions[1..])
  }

  lemma {:induction false} NotifiedAppend(a: seq<Action>, b: seq<Action>)
    ensures Notified(a + b) == Notified(a) + Notified(b)
  {
    if a == [] {
      assert a + b == b;
    } else {
      assert (a + b)[1..] == a[1..] + b;
      NotifiedAppend(a[1..], b);
    }
  }

  function Range(from: nat, limit: nat): (numbers: seq<nat>)
    ensures |numbers| == if from < limit then limit - from else 0
    ensures forall i | 0 <= i < |numbers| :: numbers[i] == from + i
    decreases limit - from
  {
    if from >= limit then [] else [from] + Range(from + 1, limit)
  }

  /** The event numbers delivered for these packets, when events below `next` were dealt with before. */
  function Delivered(next: nat, packets: seq<Packet>): seq<nat>
    decreases |packets|
  {
    if packets == [] then []
    else
      var journal := packets[0].journal;
      Range(Max(next, OldestSequence(journal)), journal.produced) + Delivered(Max(next, journal.produced), packets[1..])
  }

  /** The journals of these packets are those of one stream of events. */
  ghost predicate Carry(packets: seq<Packet>, history: seq<Status>) {
    forall k | 0 <= k < |packets| ::
      && packets[k].journal.produced <= |history|
      && Records(packets[k].journal, history[..packets[k].journal.produced])
  }

  ghost function At(history: seq<Status>, numbers: seq<nat>): seq<Status>
    requires forall i | 0 <= i < |numbers| :: numbers[i] < |history|
  {
    seq(|numbers|, i requires 0 <= i < |numbers| => history[numbers[i]])
  }

  lemma AtAppend(history: seq<Status>, a: seq<nat>, b: seq<nat>)
    requires forall i | 0 <= i < |a| :: a[i] < |history|
    requires forall i | 0 <= i < |b| :: b[i] < |history|
    ensures At(history, a + b) == At(history, a) + At(history, b)
  {
  }

  lemma {:induction false} NotesAreHistory(journal: Journal, next: nat, history: seq<Status>)
    requires journal.produced <= |history| && Records(journal, history[..journal.produced])
    requires OldestSequence(journal) <= next
    ensures Notified(Notes(journal, next)) == At(history, Range(next, journal.produced))
    decreases journal.produced - next
  {
    if next < journal.produced {
      NotesAreHistory(journal, next + 1, history);
    }
  }

  lemma GroupStatuses(keyed: bool, next: nat, packet: Packet, history: seq<Status>)
    requires packet.journal.produced <= |history| && Records(packet.journal, history[..packet.journal.produced])
    ensures Notified(Group(keyed, next, packet))
              == At(history, Range(Max(next, OldestSequence(packet.journal)), packet.journal.produced))
  {
    var start := Max(next, OldestSequence(packet.journal));
    NotesAreHistory(packet.journal, start, history);
    NotifiedAppend(Notes(packet.journal, start), [Voice(packet.frame)]);
    assert [Voice(packet.frame)][1..] == [];
    var edge := if keyed != Keyed(packet) then [Edge(packet)] else [];
    assert edge != [] ==> edge[1..] == [];
    NotifiedAppend(edge, StatusGroup(packet, next));
  }

  lemma {:induction false} DeliveredBounds(next: nat, packets: seq<Packet>, history: seq<Status>)
    requires Carry(packets, history)
    ensures forall i | 0 <= i < |Delivered(next, packets)| :: next <= Delivered(next, packets)[i] < |history|
    decreases |packets|
  {
    if packets != [] {
      DeliveredBounds(Max(next, packets[0].journal.produced), packets[1..], history);
    }
  }

  /** The status notices of the packets taken are the history at the delivered numbers. */
  lemma {:induction false} NotifiedAreHistory(keyed: bool, next: nat, packets: seq<Packet>, history: seq<Status>)
    requires AllReady(packets) && Carry(packets, history)
    ensures forall i | 0 <= i < |Delivered(next, packets)| :: Delivered(next, packets)[i] < |history|
    ensures Notified(Groups(keyed, next, packets)) == At(history, Delivered(next, packets))
    decreases |packets|
  {
    DeliveredBounds(next, packets, history);
    if packets != [] {
      var journal := packets[0].journal;
      var later := Max(next, journal.produced);
      GroupStatuses(keyed, next, packets[0], history);
      NotifiedAreHistory(Keyed(packets[0]), later, packets[1..], history);
      NotifiedAppend(Group(keyed, next, packets[0]), Groups(Keyed(packets[0]), later, packets[1..]));
      AtAppend(history, Range(Max(next, OldestSequence(journal)), journal.produced), Delivered(later, packets[1..]));
    }
  }

  /** No event is delivered twice, and no event after a later one. */
  lemma {:induction false} DeliveredOnceInOrder(next: nat, packets: seq<Packet>)
    ensures forall i | 0 <= i < |Delivered(next, packets)| :: next <= Delivered(next, packets)[i]
    ensures forall i, j | 0 <= i < j < |Delivered(next, packets)| :: Delivered(next, packets)[i] < Delivered(next, packets)[j]
    decreases |packets|
  {
    if packets != [] {
      DeliveredOnceInOrder(Max(next, packets[0].journal.produced), packets[1..]);
    }
  }

  /** The first packet whose journal was taken after event `i`. */
  function FirstAfter(packets: seq<Packet>, i: nat): (k: Option<nat>)
    ensures k.Some? ==> k.value < |packets| && i < packets[k.value].journal.produced
    ensures k.Some? ==> forall j | 0 <= j < k.value :: packets[j].journal.produced <= i
    ensures k.None? ==> forall j | 0 <= j < |packets| :: packets[j].journal.produced <= i
  {
    if packets == [] then None
    else if i < packets[0].journal.produced then Some(0)
    else match FirstAfter(packets[1..], i) case None => None case Some(k) => Some(k + 1)
  }

  /** Event `i` is delivered exactly when the first packet taken after it was built with at most fifteen newer
      events. */
  lemma {:induction false} DeliveredExactly(next: nat, packets: seq<Packet>, i: nat)
    ensures i in Delivered(next, packets)
            <==> && next <= i && FirstAfter(packets, i).Some?
                 && packets[FirstAfter(packets, i).value].journal.produced - i <= 16
    decreases |packets|
  {
    if packets != [] {
      var journal := packets[0].journal;
      var later := Max(next, journal.produced);
      var range := Range(Max(next, OldestSequence(journal)), journal.produced);
      assert i in Delivered(next, packets) <==> i in range || i in Delivered(later, packets[1..]);
      InRange(Max(next, OldestSequence(journal)), journal.produced, i);
      if i < journal.produced {
        DeliveredOnceInOrder(later, packets[1..]);
      } else {
        DeliveredExactly(later, packets[1..], i);
      }
    }
  }

  lemma {:induction false} InRange(from: nat, limit: nat, i: nat)
    ensures i in Range(from, limit) <==> from <= i < limit
    decreases limit - from
  {
    if from < limit {
      InRange(from + 1, limit, i);
    }
  }

  /** Over any run from a drained deliverer: the notices sent are the first ones of the delivered history, all of them
      once the last packet is done with; and the event number counts exactly the delivered and the discarded. */
  lemma StatusesOfRun(d: Deliverer, offers: Offers, history: seq<Status>)
    requires d.pending.None? && AllOffersReady(offers) && Carry(Calls(d, offers).2, history)
    ensures var (after, trace, taken) := Calls(d, offers);
            && (forall i | 0 <= i < |Delivered(d.next, taken)| :: Delivered(d.next, taken)[i] < |history|)
            && Notified(trace) <= At(history, Delivered(d.next, taken))
            && (after.pending.None? ==> Notified(trace) == At(history, Delivered(d.next, taken)))
            && after.next - d.next == |Notified(trace)| + (after.discarded - d.discarded)
  {
    var (after, trace, taken) := Calls(d, offers);
    TraceIsGroups(d, offers);
    assert [] + Groups(d.keyed, d.next, taken) == Groups(d.keyed, d.next, taken);
    NotifiedAreHistory(d.keyed, d.next, taken, history);
    NotifiedAppend(trace, Owed(after));
    NextCounts(d, offers);
    if after.pending.None? {
      assert trace + [] == trace;
    }
  }

  lemma CallCounts(d: Deliverer, arrival: Option<Packet>)
    requires Delivery.Valid(d) && ReadyArrival(arrival)
    ensures var (after, action) := NextAction(d, arrival);
            after.next - d.next == |Notified(Emitted(action))| + (after.discarded - d.discarded)
  {
    var (after, action) := NextAction(d, arrival);
    if action.Some? {
      assert [action.value][1..] == [];
    }
  }

  lemma {:induction false} NextCounts(d: Deliverer, offers: Offers)
    requires Delivery.Valid(d) && AllOffersReady(offers)
    ensures var (after, trace, taken) := Calls(d, offers);
            after.next - d.next == |Notified(trace)| + (after.discarded - d.discarded)
    decreases |offers|
  {
    if offers != [] {
      CallCounts(d, offers[0]);
      var (next, action) := NextAction(d, offers[0]);
      var (after, trace, taken) := Calls(next, offers[1..]);
      NextCounts(next, offers[1..]);
      NotifiedAppend(Emitted(action), trace);
    }
  }

  // ----- through the handoff -----

  /** Packets as one publisher builds them: each carries the events recorded so far. */
  ghost predicate Built(packets: seq<Packet>, history: seq<Status>) {
    && Carry(packets, history)
    && forall j, k | 0 <= j <= k < |packets| :: packets[j].journal.produced <= packets[k].journal.produced
  }

  lemma SubsequenceIsBuilt(part: seq<Packet>, whole: seq<Packet>, places: seq<nat>, history: seq<Status>)
    requires HandoffTheorems.SubsequenceAt(part, whole, places) && Built(whole, history)
    ensures Built(part, history)
  {
  }

  /** However the handoff interleaves and whatever it drops, for a fresh controller that has taken what the handoff
      returned: its notices are the history at the numbers of every event that some returned packet still carried, each
      once and in order, all of them once the last packet is done with. A missing event had at least sixteen newer ones
      before the first returned packet built after it, and the controller has counted it as discarded. */
  lemma DroppedPacketsLoseNoCarriedStatus(
      slotCount: nat, events: seq<Handoff.Event<Packet>>, d: Deliverer, offers: Offers, history: seq<Status>, i: nat)
    requires slotCount >= 2 && Built(Handoff.From(slotCount, events).history.pushed, history)
    requires d.pending.None? && d.next == d.discarded == 0 && AllOffersReady(offers)
    requires Calls(d, offers).2 == Handoff.From(slotCount, events).history.returned
    ensures var returned := Handoff.From(slotCount, events).history.returned;
            var (after, trace, _) := Calls(d, offers);
            var numbers := Delivered(0, returned);
            && (forall a, b | 0 <= a < b < |numbers| :: numbers[a] < numbers[b] < |history|)
            && (forall k | 0 <= k < |numbers| :: numbers[k] < |history|)
            && Notified(trace) <= At(history, numbers)
            && (after.pending.None? ==> Notified(trace) == At(history, numbers))
            && after.next == |Notified(trace)| + after.discarded
            && ((exists k | 0 <= k < |returned| ::
                   i < returned[k].journal.produced && OldestSequence(returned[k].journal) <= i) ==> i in numbers)
            && (FirstAfter(returned, i).Some? && i !in numbers ==>
                  returned[FirstAfter(returned, i).value].journal.produced > i + STATUS_CAPACITY)
  {
    var w := Handoff.From(slotCount, events);
    HandoffTheorems.PoppedValuesAreASubsequence(slotCount, events);
    SubsequenceIsBuilt(w.history.returned, w.history.pushed, HandoffTheorems.PlacesPopped(w.history), history);
    StatusesOfRun(d, offers, history);
    DeliveredOnceInOrder(0, w.history.returned);
    DeliveredExactly(0, w.history.returned, i);
  }
}
