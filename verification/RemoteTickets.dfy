/** Remote commands between control producers, the physical worker and polling callers
    (rust/driver/src/remote_base.rs). Every atomic load, exchange, push and pop is one step; a run is any
    sequence of steps of any number of tickets, with revocation and retirement at any point. */
module RemoteTickets {
  import opened Wrappers

  datatype RequestError = Busy | Stopped | StaleSource | Rejected(code: int)

  /** A successful reply is identified by a number; its content never influences the protocol. */
  type Completion = Result<nat, RequestError>

  /** Where the work of one request stands. `last` marks the completion made by dropping the work. */
  datatype Work =
    | Admitting
    | Queued
    | InHand
    | CheckGeneration(result: Completion)
    | CheckSource(reply: nat)
    | CheckSourceGeneration(reply: nat)
    | Claiming(result: Completion, last: bool)
    | RecordError(result: Completion, last: bool)
    | Publishing(result: Completion, last: bool)
    | Gone

  /** Where the caller's `take_completion` stands. */
  datatype Poll = NotPolling | PollClaiming | PollPublishing | PollTaking

  /** The claim flag and the one-slot result, with everything ever put in and taken out of it. */
  datatype Cell = Cell(completed: bool, slot: Option<Completion>, filled: seq<Completion>, taken: seq<Completion>)

  /** The caller's lease: whether a ticket is held, still authorised, and keyed. */
  datatype Source = Source(held: bool, valid: bool, active: bool)

  datatype Ticket = Ticket(detached: bool, urgent: bool, source: Source, cell: Cell, work: Work, poll: Poll)

  datatype World = World(
    accepting: bool,
    parallelError: int,
    capacity: nat,
    tickets: seq<Ticket>,
    ordinary: seq<nat>,
    urgent: seq<nat>
  )

  datatype Event =
    | Submit(detached: bool, urgent: bool, active: bool, wellFormed: bool)
    | Enqueue(id: nat)
    | NextUrgent
    | NextOrdinary
    | AbandonUrgent
    | AbandonOrdinary
    | Complete(id: nat, result: Completion)
    | DropWork(id: nat)
    | WorkTurn(id: nat)
    | PollTurn(id: nat)
    | SourceState(id: nat, active: bool, valid: bool)
    | DropTicket(id: nat)
    | Retire

  function Fresh(capacity: nat): World {
    World(true, 0, capacity, [], [], [])
  }

  // ----- steps -----

  function ErrorCode(error: RequestError): int {
    match error
    case Rejected(code) => code
    case Busy => -9
    case Stopped => -10
    case StaleSource => -10
  }

  /** `result.push(result)` into the one-slot queue. */
  function Fill(c: Cell, result: Completion): Cell {
    if c.slot.None? then c.(slot := Some(result), filled := c.filled + [result]) else c
  }

  function Take(c: Cell): Cell {
    match c.slot
    case None => c
    case Some(result) => c.(slot := None, taken := c.taken + [result])
  }

  function AfterCompletion(last: bool): Work {
    if last then Gone else Claiming(Err(Stopped), true)
  }

  /** One step of `RemoteWork::complete` or of dropping the work. */
  function WorkStep(t: Ticket, accepting: bool): Ticket {
    match t.work
    case CheckGeneration(result) =>
      t.(work := if !accepting then Claiming(Err(Stopped), false)
                 else if result.Ok? then CheckSource(result.value)
                 else Claiming(result, false))
    case CheckSource(reply) =>
      t.(work := if t.source.valid then CheckSourceGeneration(reply) else Claiming(Err(StaleSource), false))
    case CheckSourceGeneration(reply) =>
      t.(work := if accepting then Claiming(Ok(reply), false) else Claiming(Err(StaleSource), false))
    case Claiming(result, last) =>
      if t.cell.completed then t.(work := AfterCompletion(last))
      else t.(cell := t.cell.(completed := true),
              work := if t.detached && result.Err? then RecordError(result, last) else Publishing(result, last))
    case RecordError(result, last) =>
      t.(work := Publishing(result, last))
    case Publishing(result, last) =>
      t.(cell := Fill(t.cell, result), work := AfterCompletion(last))
    case _ => t
  }

  function RecordedError(error: int, work: Work): int {
    if work.RecordError? && work.result.Err? && error == 0 then ErrorCode(work.result.error) else error
  }

  /** One step of `take_completion`; when idle, its load of the generation. */
  function PollStep(t: Ticket, accepting: bool): Ticket {
    match t.poll
    case NotPolling =>
      if t.source.held then t.(poll := if accepting then PollTaking else PollClaiming) else t
    case PollClaiming =>
      if t.cell.completed then t.(poll := PollTaking)
      else t.(cell := t.cell.(completed := true), poll := PollPublishing)
    case PollPublishing => t.(cell := Fill(t.cell, Err(Stopped)), poll := PollTaking)
    case PollTaking => t.(cell := Take(t.cell), poll := NotPolling)
  }

  function Submitted(detached: bool, urgent: bool, active: bool): Ticket {
    Ticket(detached, urgent && !detached, Source(!detached, true, active), Cell(false, None, [], []), Admitting, NotPolling)
  }

  function SetTicket(w: World, id: nat, t: Ticket): World
    requires id < |w.tickets|
  {
    w.(tickets := w.tickets[id := t])
  }

  function DequeuedUrgent(w: World, work: Work): World {
    if w.urgent != [] && w.urgent[0] < |w.tickets|
    then SetTicket(w.(urgent := w.urgent[1..]), w.urgent[0], w.tickets[w.urgent[0]].(work := work))
    else w
  }

  function DequeuedOrdinary(w: World, work: Work): World {
    if w.ordinary != [] && w.ordinary[0] < |w.tickets|
    then SetTicket(w.(ordinary := w.ordinary[1..]), w.ordinary[0], w.tickets[w.ordinary[0]].(work := work))
    else w
  }

  function GivenBack(t: Ticket): Ticket {
    t.(source := t.source.(held := false), work := Claiming(Err(Stopped), true))
  }

  /** A full queue gives the work back, and dropping it completes the request as stopped. */
  function Enqueued(w: World, id: nat): World
    requires id < |w.tickets|
  {
    var t := w.tickets[id];
    if t.urgent && |w.urgent| < 1 then
      SetTicket(w.(urgent := w.urgent + [id]), id, t.(work := Queued))
    else if !t.urgent && |w.ordinary| < w.capacity then
      SetTicket(w.(ordinary := w.ordinary + [id]), id, t.(work := Queued))
    else
      SetTicket(w, id, GivenBack(t))
  }

  /** What the events of one ticket do to it. */
  function TicketStep(t: Ticket, accepting: bool, event: Event): Ticket {
    match event
    case Complete(_, result) => if t.work == InHand then t.(work := CheckGeneration(result)) else t
    case DropWork(_) => if t.work == InHand then t.(work := Claiming(Err(Stopped), true)) else t
    case WorkTurn(_) => WorkStep(t, accepting)
    case PollTurn(_) => PollStep(t, accepting)
    case SourceState(_, active, valid) =>
      if t.source.held then t.(source := Source(true, valid && t.source.valid, active)) else t
    case DropTicket(_) =>
      if t.source.held && t.poll.NotPolling? then t.(source := Source(false, false, t.source.active)) else t
    case _ => t
  }

  /** The checks made before a request is queued; only command records can be malformed. */
  function Admission(w: World, detached: bool, wellFormed: bool): Result<(), RequestError> {
    if !w.accepting then Err(Stopped)
    else if !detached && !wellFormed then Err(Rejected(-1003))
    else Ok(())
  }

  function Step(w: World, event: Event): World {
    match event
    case Submit(detached, urgent, active, wellFormed) =>
      if Admission(w, detached, wellFormed).Ok? then w.(tickets := w.tickets + [Submitted(detached, urgent, active)]) else w
    case Enqueue(id) =>
      if id < |w.tickets| && w.tickets[id].work == Admitting then Enqueued(w, id) else w
    case NextUrgent => DequeuedUrgent(w, InHand)
    case NextOrdinary => DequeuedOrdinary(w, InHand)
    case AbandonUrgent => DequeuedUrgent(w, Claiming(Err(Stopped), true))
    case AbandonOrdinary => DequeuedOrdinary(w, Claiming(Err(Stopped), true))
    case Retire => w.(accepting := false)
    case _ =>
      if event.id < |w.tickets| then LocalStep(w, event.id, event) else w
  }

  function LocalStep(w: World, id: nat, event: Event): World
    requires id < |w.tickets|
  {
    var error := if event.WorkTurn? then RecordedError(w.parallelError, w.tickets[id].work) else w.parallelError;
    SetTicket(w.(parallelError := error), id, TicketStep(w.tickets[id], w.accepting, event))
  }

  /** Any interleaving. */
  function Run(w: World, events: seq<Event>): World
    decreases |events|
  {
    if events == [] then w else Run(Step(w, events[0]), events[1..])
  }

  // ----- the invariant -----

  ghost function WorkClaims(work: Work): nat {
    if work.RecordError? || work.Publishing? then 1 else 0
  }

  ghost function PollClaims(poll: Poll): nat {
    if poll.PollPublishing? then 1 else 0
  }

  /** The claim has one owner, whoever owns it publishes once, and what is published is taken once. */
  ghost predicate CellInv(c: Cell, claims: nat) {
    && |c.filled| + claims == (if c.completed then 1 else 0)
    && (c.slot.Some? ==> c.taken == [] && c.filled == [c.slot.value])
    && (c.slot.None? ==> c.filled == c.taken)
  }

  ghost predicate TicketInv(t: Ticket) {
    && CellInv(t.cell, WorkClaims(t.work) + PollClaims(t.poll))
    && (t.work.Claiming? && t.work.last ==> t.work.result == Err(Stopped))
    // work never disappears without its request being completed
    && (t.work.Gone? ==> t.cell.completed)
  }

  /** A queue lists exactly the tickets whose work is queued in it, once each. */
  ghost predicate QueueInv(queue: seq<nat>, tickets: seq<Ticket>, urgent: bool) {
    && (forall k | 0 <= k < |queue| ::
          queue[k] < |tickets| && tickets[queue[k]].work.Queued? && tickets[queue[k]].urgent == urgent)
    && (forall i, j | 0 <= i < j < |queue| :: queue[i] != queue[j])
    && (forall id | 0 <= id < |tickets| :: tickets[id].work.Queued? && tickets[id].urgent == urgent ==> id in queue)
  }

  ghost predicate Inv(w: World) {
    && |w.urgent| <= 1 && |w.ordinary| <= w.capacity
    && QueueInv(w.urgent, w.tickets, true)
    && QueueInv(w.ordinary, w.tickets, false)
    && (forall id | 0 <= id < |w.tickets| :: TicketInv(w.tickets[id]))
  }

  lemma FreshInv(capacity: nat)
    ensures Inv(Fresh(capacity))
  {
  }

  lemma WorkStepKeepsTicket(t: Ticket, accepting: bool)
    requires TicketInv(t)
    ensures TicketInv(WorkStep(t, accepting))
  {
  }

  lemma PollStepKeepsTicket(t: Ticket, accepting: bool)
    requires TicketInv(t)
    ensures TicketInv(PollStep(t, accepting))
  {
    match t.poll {
      case NotPolling =>
      case _ =>
    }
  }

  lemma TicketStepKeepsTicket(t: Ticket, accepting: bool, event: Event)
    requires TicketInv(t)
    ensures TicketInv(TicketStep(t, accepting, event))
    ensures TicketStep(t, accepting, event).urgent == t.urgent
    ensures TicketStep(t, accepting, event).work.Queued? == t.work.Queued?
  {
    WorkStepKeepsTicket(t, accepting);
    PollStepKeepsTicket(t, accepting);
  }

  lemma UnmovedKeepsQueue(queue: seq<nat>, tickets: seq<Ticket>, urgent: bool, id: nat, t: Ticket)
    requires QueueInv(queue, tickets, urgent) && id < |tickets|
    requires t.urgent == tickets[id].urgent
    requires t.work.Queued? == tickets[id].work.Queued? || t.urgent != urgent
    ensures QueueInv(queue, tickets[id := t], urgent)
  {
  }

  lemma PoppedKeepsQueue(queue: seq<nat>, tickets: seq<Ticket>, urgent: bool, t: Ticket)
    requires QueueInv(queue, tickets, urgent) && queue != []
    requires t.urgent == urgent && !t.work.Queued?
    ensures QueueInv(queue[1..], tickets[queue[0] := t], urgent)
  {
  }

  lemma PushedKeepsQueue(queue: seq<nat>, tickets: seq<Ticket>, urgent: bool, id: nat, t: Ticket)
    requires QueueInv(queue, tickets, urgent) && id < |tickets|
    requires t.urgent == urgent == tickets[id].urgent && t.work.Queued? && !tickets[id].work.Queued?
    ensures QueueInv(queue + [id], tickets[id := t], urgent)
  {
  }

  lemma SubmittedKeepsQueue(queue: seq<nat>, tickets: seq<Ticket>, urgent: bool, t: Ticket)
    requires QueueInv(queue, tickets, urgent) && !t.work.Queued?
    ensures QueueInv(queue, tickets + [t], urgent)
  {
  }

  lemma DequeuedKeepsInv(w: World, work: Work)
    requires Inv(w) && (work == InHand || work == Claiming(Err(Stopped), true))
    ensures Inv(DequeuedUrgent(w, work)) && Inv(DequeuedOrdinary(w, work))
  {
    if w.urgent != [] {
      var id := w.urgent[0];
      var t := w.tickets[id].(work := work);
      PoppedKeepsQueue(w.urgent, w.tickets, true, t);
      UnmovedKeepsQueue(w.ordinary, w.tickets, false, id, t);
    }
    if w.ordinary != [] {
      var id := w.ordinary[0];
      var t := w.tickets[id].(work := work);
      PoppedKeepsQueue(w.ordinary, w.tickets, false, t);
      UnmovedKeepsQueue(w.urgent, w.tickets, true, id, t);
    }
  }

  lemma EnqueuedKeepsInv(w: World, id: nat)
    requires Inv(w) && id < |w.tickets| && w.tickets[id].work == Admitting
    ensures Inv(Enqueued(w, id))
  {
    var t := w.tickets[id];
    if t.urgent && |w.urgent| < 1 {
      PushedKeepsQueue(w.urgent, w.tickets, true, id, t.(work := Queued));
      UnmovedKeepsQueue(w.ordinary, w.tickets, false, id, t.(work := Queued));
    } else if !t.urgent && |w.ordinary| < w.capacity {
      PushedKeepsQueue(w.ordinary, w.tickets, false, id, t.(work := Queued));
      UnmovedKeepsQueue(w.urgent, w.tickets, true, id, t.(work := Queued));
    } else {
      UnmovedKeepsQueue(w.urgent, w.tickets, true, id, GivenBack(t));
      UnmovedKeepsQueue(w.ordinary, w.tickets, false, id, GivenBack(t));
    }
  }

  lemma LocalStepKeepsInv(w: World, id: nat, event: Event)
    requires Inv(w) && id < |w.tickets|
    ensures Inv(LocalStep(w, id, event))
  {
    var t := w.tickets[id];
    TicketStepKeepsTicket(t, w.accepting, event);
    var next := TicketStep(t, w.accepting, event);
    UnmovedKeepsQueue(w.urgent, w.tickets, true, id, next);
    UnmovedKeepsQueue(w.ordinary, w.tickets, false, id, next);
  }

  lemma StepKeepsInv(w: World, event: Event)
    requires Inv(w)
    ensures Inv(Step(w, event))
  {
    match event
    case Submit(detached, urgent, active, _) =>
      SubmittedKeepsQueue(w.urgent, w.tickets, true, Submitted(detached, urgent, active));
      SubmittedKeepsQueue(w.ordinary, w.tickets, false, Submitted(detached, urgent, active));
    case Enqueue(id) =>
      if id < |w.tickets| && w.tickets[id].work == Admitting {
        EnqueuedKeepsInv(w, id);
      }
    case NextUrgent => DequeuedKeepsInv(w, InHand);
    case NextOrdinary => DequeuedKeepsInv(w, InHand);
    case AbandonUrgent => DequeuedKeepsInv(w, Claiming(Err(Stopped), true));
    case AbandonOrdinary => DequeuedKeepsInv(w, Claiming(Err(Stopped), true));
    case Retire =>
    case _ =>
      if event.id < |w.tickets| {
        LocalStepKeepsInv(w, event.id, event);
      }
  }

  /** One step changes one ticket in one of six ways. */
  lemma StepOnTicket(w: World, event: Event, id: nat)
    requires Inv(w) && id < |w.tickets|
    ensures id < |Step(w, event).tickets|
    ensures var t, t' := w.tickets[id], Step(w, event).tickets[id];
            || t' == t
            || t' == TicketStep(t, w.accepting, event)
            || (t.work.Admitting? && (t' == t.(work := Queued) || t' == GivenBack(t)))
            || (t.work.Queued? && (t' == t.(work := InHand) || t' == t.(work := Claiming(Err(Stopped), true))))
    ensures Step(w, event).accepting ==> w.accepting
    ensures !event.Retire? ==> Step(w, event).accepting == w.accepting
  {
  }

  lemma {:induction false} RunKeepsInv(w: World, events: seq<Event>)
    requires Inv(w)
    ensures Inv(Run(w, events))
    decreases |events|
  {
    if events != [] {
      StepKeepsInv(w, events[0]);
      RunKeepsInv(Step(w, events[0]), events[1..]);
    }
  }
}
