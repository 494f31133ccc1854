/** How received packets become controller operations (rust/asl3/src/adapter.rs:740-792): an edge when the receiver
    state changes, the status events not delivered yet, and the voice frame. */
module Delivery {
  import opened Wrappers
  import opened Pcm
  import opened StatusJournal

  datatype Qualification = Qualification(
    carrierActive: bool, subaudibleActive: bool, receiverKeyed: bool, ctcssDecoded: Option<nat>, dcsValid: bool)

  datatype Packet = Packet(frame: Frame, qualification: Qualification, ctcss: Option<nat>, journal: Journal)

  datatype Phase = ReceiverState | StatusEvents | VoiceFrame

  datatype Action = ReceiverKey(ctcss: Option<nat>) | ReceiverUnkey | Notify(status: Status) | Voice(frame: Frame)

  datatype Pending = Pending(packet: Packet, phase: Phase)

  datatype Deliverer = Deliverer(
    pending: Option<Pending>, keyed: bool, next: nat, discarded: nat, latest: Qualification)

  function Keyed(packet: Packet): bool {
    packet.qualification.receiverKeyed
  }

  // ----- one call -----

  function FromVoice(d: Deliverer, packet: Packet): (Deliverer, Option<Action>) {
    (d.(pending := None), Some(Voice(packet.frame)))
  }

  /** Events older than the journal are given up. */
  function Caught(d: Deliverer, packet: Packet): Deliverer {
    var oldest := OldestSequence(packet.journal);
    if d.next < oldest then d.(discarded := d.discarded + (oldest - d.next), next := oldest) else d
  }

  function FromStatus(d: Deliverer, packet: Packet): (Deliverer, Option<Action>)
    requires Ready(packet.journal)
  {
    var caught := Caught(d, packet);
    if caught.next < packet.journal.produced then
      (caught.(next := caught.next + 1, pending := Some(Pending(packet, StatusEvents))),
       Some(Notify(Get(packet.journal, caught.next))))
    else FromVoice(caught, packet)
  }

  function Edge(packet: Packet): Action {
    if Keyed(packet) then ReceiverKey(packet.ctcss) else ReceiverUnkey
  }

  function FromReceiver(d: Deliverer, packet: Packet): (Deliverer, Option<Action>)
    requires Ready(packet.journal)
  {
    var seen := d.(latest := packet.qualification);
    if seen.keyed != Keyed(packet) then
      (seen.(keyed := Keyed(packet), pending := Some(Pending(packet, StatusEvents))), Some(Edge(packet)))
    else FromStatus(seen, packet)
  }

  ghost predicate Valid(d: Deliverer) {
    d.pending.Some? ==> Ready(d.pending.value.packet.journal)
  }

  ghost predicate ReadyArrival(arrival: Option<Packet>) {
    arrival.Some? ==> Ready(arrival.value.journal)
  }

  /** One call; `arrival` is what the handoff yields if it is asked, which happens only without a pending packet. */
  function NextAction(d: Deliverer, arrival: Option<Packet>): (Deliverer, Option<Action>)
    requires Valid(d) && ReadyArrival(arrival)
  {
    match d.pending
    case Some(Pending(packet, ReceiverState)) => FromReceiver(d, packet)
    case Some(Pending(packet, StatusEvents)) => FromStatus(d, packet)
    case Some(Pending(packet, VoiceFrame)) => FromVoice(d, packet)
    case None =>
      match arrival
      case None => (d, None)
      case Some(packet) => FromReceiver(d, packet)
  }

  // ----- what one packet is worth -----

  function Max(a: nat, b: nat): nat { if a < b then b else a }

  /** The events of the journal from `next` on. */
  function Notes(journal: Journal, next: nat): seq<Action>
    requires Ready(journal)
    decreases journal.produced - next
  {
    if next >= journal.produced then [] else [Notify(Get(journal, next))] + Notes(journal, next + 1)
  }

  function StatusGroup(packet: Packet, next: nat): seq<Action>
    requires Ready(packet.journal)
  {
    Notes(packet.journal, Max(next, OldestSequence(packet.journal))) + [Voice(packet.frame)]
  }

  /** An edge if the receiver state differs from the one delivered last, the events that are new and still in the
      journal, and one voice frame. */
  function Group(keyed: bool, next: nat, packet: Packet): seq<Action>
    requires Ready(packet.journal)
  {
    (if keyed != Keyed(packet) then [Edge(packet)] else []) + StatusGroup(packet, next)
  }

  ghost predicate AllReady(packets: seq<Packet>) {
    forall k | 0 <= k < |packets| :: Ready(packets[k].journal)
  }

  function Groups(keyed: bool, next: nat, packets: seq<Packet>): seq<Action>
    requires AllReady(packets)
    decreases |packets|
  {
    if packets == [] then []
    else Group(keyed, next, packets[0]) + Groups(Keyed(packets[0]), Max(next, packets[0].journal.produced), packets[1..])
  }

  /** What is still owed for the pending packet. */
  function Owed(d: Deliverer): seq<Action>
    requires Valid(d)
  {
    match d.pending
    case None => []
    case Some(Pending(packet, ReceiverState)) => Group(d.keyed, d.next, packet)
    case Some(Pending(packet, StatusEvents)) => StatusGroup(packet, d.next)
    case Some(Pending(packet, VoiceFrame)) => [Voice(packet.frame)]
  }

  /** The receiver state and event number once the pending packet is done with. */
  function SettledKeyed(d: Deliverer): bool {
    match d.pending
    case Some(Pending(packet, ReceiverState)) => Keyed(packet)
    case _ => d.keyed
  }

  function SettledNext(d: Deliverer): nat {
    match d.pending
    case None => d.next
    case Some(Pending(packet, VoiceFrame)) => d.next
    case Some(Pending(packet, _)) => Max(d.next, packet.journal.produced)
  }

  /** What a call takes from the handoff. */
  function Taken(d: Deliverer, arrival: Option<Packet>): seq<Packet> {
    if d.pending.None? && arrival.Some? then [arrival.value] else []
  }

  function Emitted(action: Option<Action>): seq<Action> {
    match action case None => [] case Some(a) => [a]
  }

  /** Between calls a pending packet has delivered its receiver state. */
  ghost predicate Between(d: Deliverer) {
    d.pending.Some? ==> !d.pending.value.phase.ReceiverState?
  }

  lemma StatusStep(d: Deliverer, packet: Packet)
    requires Ready(packet.journal)
    ensures var (after, action) := FromStatus(d, packet);
            && Valid(after) && action.Some?
            && Emitted(action) + Owed(after) == StatusGroup(packet, d.next)
            && SettledKeyed(after) == d.keyed && SettledNext(after) == Max(d.next, packet.journal.produced)
  {
  }

  lemma ReceiverStep(d: Deliverer, packet: Packet)
    requires Ready(packet.journal)
    ensures var (after, action) := FromReceiver(d, packet);
            && Valid(after) && action.Some?
            && Emitted(action) + Owed(after) == Group(d.keyed, d.next, packet)
            && SettledKeyed(after) == Keyed(packet) && SettledNext(after) == Max(d.next, packet.journal.produced)
  {
  }

  /** A call delivers the first thing owed; without anything owed it takes one packet and delivers the first thing that
      packet is worth; without a packet either it does nothing. */
  lemma CallDeliversNext(d: Deliverer, arrival: Option<Packet>)
    requires Valid(d) && ReadyArrival(arrival)
    ensures var (after, action) := NextAction(d, arrival);
            var taken := Taken(d, arrival);
            && Valid(after)
            && (action.None? <==> d.pending.None? && arrival.None?)
            && (action.None? ==> after == d)
            && (taken != [] ==> after.latest == taken[0].qualification)
            && (taken == [] && Between(d) ==> after.latest == d.latest)
            && (Between(d) ==> Between(after))
            && Emitted(action) + Owed(after) == Owed(d) + Groups(SettledKeyed(d), SettledNext(d), taken)
            && SettledKeyed(after) == (if taken == [] then SettledKeyed(d) else Keyed(taken[0]))
            && SettledNext(after) == (if taken == [] then SettledNext(d) else Max(SettledNext(d), taken[0].journal.produced))
  {
    match d.pending {
      case Some(Pending(packet, phase)) =>
        assert Owed(d) + [] == Owed(d);
        match phase {
          case ReceiverState => ReceiverStep(d, packet);
          case StatusEvents => StatusStep(d, packet);
          case VoiceFrame => assert [Voice(packet.frame)] + [] == [Voice(packet.frame)];
        }
      case None =>
        match arrival {
          case None =>
          case Some(packet) =>
            ReceiverStep(d, packet);
            var group := Group(d.keyed, d.next, packet);
            assert [packet][1..] == [] && [] + (group + []) == group;
        }
    }
  }

  // ----- whole runs -----

  /** What each call is offered by the handoff. */
  type Offers = seq<Option<Packet>>

  ghost predicate AllOffersReady(offers: Offers) {
    forall k | 0 <= k < |offers| :: ReadyArrival(offers[k])
  }

  /** The state, the actions and the packets taken, after one call for each offer. */
  ghost function Calls(d: Deliverer, offers: Offers): (r: (Deliverer, seq<Action>, seq<Packet>))
    requires Valid(d) && AllOffersReady(offers)
    ensures Valid(r.0) && AllReady(r.2)
    decreases |offers|
  {
    if offers == [] then (d, [], [])
    else
      CallDeliversNext(d, offers[0]);
      var (after, action) := NextAction(d, offers[0]);
      var (last, trace, taken) := Calls(after, offers[1..]);
      (last, Emitted(action) + trace, Taken(d, offers[0]) + taken)
  }

  lemma GroupsAppend(keyed: bool, next: nat, first: seq<Packet>, rest: seq<Packet>)
    requires AllReady(first) && AllReady(rest) && |first| <= 1
    ensures Groups(keyed, next, first + rest)
              == Groups(keyed, next, first)
                 + Groups(if first == [] then keyed else Keyed(first[0]),
                          if first == [] then next else Max(next, first[0].journal.produced), rest)
  {
    if first == [] {
      assert [] + rest == rest && [] + Groups(keyed, next, rest) == Groups(keyed, next, rest);
    } else {
      assert (first + rest)[1..] == rest && first[1..] == [];
      var group := Group(keyed, next, first[0]);
      assert group + [] == group;
    }
  }

  /** One step `a` that turns what was at the start into what is in the middle, and a rest that ends in `end`. */
  lemma Regroup<T>(a: seq<T>, t: seq<T>, end: seq<T>, middle: seq<T>, r: seq<T>, start: seq<T>, g: seq<T>)
    requires t + end == middle + r && a + middle == start + g
    ensures a + t + end == start + (g + r)
  {
    assert a + t + end == a + (t + end);
    assert a + (middle + r) == a + middle + r;
    assert start + g + r == start + (g + r);
  }

  /** The trace of any run, completed with what is still owed, is the concatenation of one group per packet taken:
      whatever the timing of the calls, nothing is lost, repeated or reordered. */
  lemma {:induction false} TraceIsGroups(d: Deliverer, offers: Offers)
    requires Valid(d) && AllOffersReady(offers)
    ensures var (after, trace, taken) := Calls(d, offers);
            && trace + Owed(after) == Owed(d) + Groups(SettledKeyed(d), SettledNext(d), taken)
    decreases |offers|
  {
    if offers == [] {
      assert [] + Owed(d) == Owed(d) + [];
    } else {
      CallDeliversNext(d, offers[0]);
      var (next, action) := NextAction(d, offers[0]);
      var (after, trace, taken) := Calls(next, offers[1..]);
      TraceIsGroups(next, offers[1..]);
      var first := Taken(d, offers[0]);
      GroupsAppend(SettledKeyed(d), SettledNext(d), first, taken);
      var rest := Groups(SettledKeyed(next), SettledNext(next), taken);
      Regroup(Emitted(action), trace, Owed(after), Owed(next), rest, Owed(d),
              Groups(SettledKeyed(d), SettledNext(d), first));
    }
  }
}
