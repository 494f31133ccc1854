/** What every interleaving of the remote command protocol guarantees. */
module RemoteTicketTheorems {
  import opened Wrappers
  import opened RemoteTickets

  // ----- exactly one completion -----

  /** A result slot is filled at most once and what was put in is taken at most once: the caller never
      sees two results, nor one that was not published. */
  lemma CompletedAtMostOnce(capacity: nat, events: seq<Event>, id: nat)
    requires id < |Run(Fresh(capacity), events).tickets|
    ensures var c := Run(Fresh(capacity), events).tickets[id].cell;
            && |c.filled| <= 1
            && c.taken + (if c.slot.Some? then [c.slot.value] else []) == c.filled
            && (c.filled != [] ==> c.completed)
  {
    FreshInv(capacity);
    RunKeepsInv(Fresh(capacity), events);
    assert TicketInv(Run(Fresh(capacity), events).tickets[id]);
  }

  /** Queues stay within their slots, one of them reserved for urgent work, and list each request whose
      work is queued exactly once. */
  lemma QueuesAreBounded(capacity: nat, events: seq<Event>)
    ensures var w := Run(Fresh(capacity), events);
            && |w.urgent| <= 1 && |w.ordinary| <= w.capacity
            && (forall id | 0 <= id < |w.tickets| ::
                  w.tickets[id].work.Queued? <==> id in w.urgent || id in w.ordinary)
            && (forall i, j | 0 <= i < j < |w.ordinary| :: w.ordinary[i] != w.ordinary[j])
  {
    FreshInv(capacity);
    RunKeepsInv(Fresh(capacity), events);
  }

  // ----- revocation and retirement are terminal -----

  lemma StepKeepsRevoked(w: World, event: Event, id: nat)
    requires id < |w.tickets|
    ensures id < |Step(w, event).tickets|
    ensures !w.tickets[id].source.valid ==> !Step(w, event).tickets[id].source.valid
    ensures !w.accepting ==> !Step(w, event).accepting
    ensures !w.accepting ==> |Step(w, event).tickets| == |w.tickets|
  {
    if 0 <= id < |w.tickets| {
      assert TicketStep(w.tickets[id], w.accepting, event).source.valid ==> w.tickets[id].source.valid;
    }
  }

  /** A revoked source never becomes valid again and a retired generation never accepts again, whatever
      happens afterwards. */
  lemma {:induction false} RevocationIsTerminal(w: World, events: seq<Event>, id: nat)
    requires id < |w.tickets|
    ensures id < |Run(w, events).tickets|
    ensures !w.tickets[id].source.valid ==> !Run(w, events).tickets[id].source.valid
    ensures !w.accepting ==> !Run(w, events).accepting && |Run(w, events).tickets| == |w.tickets|
    decreases |events|
  {
    if events != [] {
      StepKeepsRevoked(w, events[0], id);
      RevocationIsTerminal(Step(w, events[0]), events[1..], id);
    }
  }

  /** Success is out of reach: the check that would notice is still ahead, or it has already refused. */
  ghost predicate Doomed(t: Ticket, accepting: bool) {
    && (forall k | 0 <= k < |t.cell.filled| :: t.cell.filled[k].Err?)
    && match t.work
       case Admitting => !t.source.valid || !accepting
       case Queued => !t.source.valid || !accepting
       case InHand => !t.source.valid || !accepting
       case CheckGeneration(_) => !t.source.valid || !accepting
       case CheckSource(_) => !t.source.valid || !accepting
       case CheckSourceGeneration(_) => !accepting
       case Claiming(result, _) => result.Err?
       case RecordError(result, _) => result.Err?
       case Publishing(result, _) => result.Err?
       case Gone => true
  }

  lemma WorkStepKeepsDoomed(t: Ticket, accepting: bool)
    requires Doomed(t, accepting)
    ensures Doomed(WorkStep(t, accepting), accepting)
  {
  }

  lemma PollStepKeepsDoomed(t: Ticket, accepting: bool)
    requires Doomed(t, accepting)
    ensures Doomed(PollStep(t, accepting), accepting)
  {
  }

  lemma TicketStepKeepsDoomed(t: Ticket, accepting: bool, event: Event)
    requires Doomed(t, accepting)
    ensures Doomed(TicketStep(t, accepting, event), accepting)
  {
    WorkStepKeepsDoomed(t, accepting);
    PollStepKeepsDoomed(t, accepting);
  }

  lemma StepKeepsDoomed(w: World, event: Event, id: nat)
    requires Inv(w) && id < |w.tickets| && Doomed(w.tickets[id], w.accepting)
    ensures id < |Step(w, event).tickets| && Doomed(Step(w, event).tickets[id], Step(w, event).accepting)
  {
    StepOnTicket(w, event, id);
    TicketStepKeepsDoomed(w.tickets[id], w.accepting, event);
  }

  lemma {:induction false} RunKeepsDoomed(w: World, events: seq<Event>, id: nat)
    requires Inv(w) && id < |w.tickets| && Doomed(w.tickets[id], w.accepting)
    ensures id < |Run(w, events).tickets| && Doomed(Run(w, events).tickets[id], Run(w, events).accepting)
    decreases |events|
  {
    if events != [] {
      StepKeepsDoomed(w, events[0], id);
      StepKeepsInv(w, events[0]);
      RunKeepsDoomed(Step(w, events[0]), events[1..], id);
    }
  }

  /** The worker has not yet made the check that revocation, or retirement, would fail. */
  ghost predicate BeforeChecks(t: Ticket) {
    t.work.Admitting? || t.work.Queued? || t.work.InHand? || t.work.CheckGeneration? || t.work.CheckSource?
  }

  /** If the source is revoked or the generation retired before the worker checks the source, no later
      step of anyone can make this request succeed. */
  lemma NoSuccessAfterRevocation(capacity: nat, before: seq<Event>, after: seq<Event>, id: nat)
    requires id < |Run(Fresh(capacity), before).tickets|
    requires var w := Run(Fresh(capacity), before);
             BeforeChecks(w.tickets[id]) && (!w.tickets[id].source.valid || !w.accepting)
    ensures var w := Run(Run(Fresh(capacity), before), after);
            && id < |w.tickets|
            && (forall k | 0 <= k < |w.tickets[id].cell.filled| :: w.tickets[id].cell.filled[k].Err?)
            && (forall k | 0 <= k < |w.tickets[id].cell.taken| :: w.tickets[id].cell.taken[k].Err?)
  {
    var w := Run(Fresh(capacity), before);
    FreshInv(capacity);
    RunKeepsInv(Fresh(capacity), before);
    NothingFilledBeforeChecks(capacity, before, id);
    RunKeepsDoomed(w, after, id);
    RunKeepsInv(w, after);
    var t := Run(w, after).tickets[id];
    assert TicketInv(t);
    assert t.cell.taken <= t.cell.filled;
  }

  /** Before the checks the only result there can be is the caller's own `Stopped`. */
  ghost predicate OnlyStopped(t: Ticket) {
    BeforeChecks(t) || t.work.CheckSourceGeneration? ==>
      forall k | 0 <= k < |t.cell.filled| :: t.cell.filled[k] == Err(Stopped)
  }

  lemma TicketStepKeepsOnlyStopped(t: Ticket, accepting: bool, event: Event)
    requires TicketInv(t) && OnlyStopped(t)
    ensures OnlyStopped(TicketStep(t, accepting, event))
  {
    if event.PollTurn? && (BeforeChecks(t) || t.work.CheckSourceGeneration?) {
      var c, c' := t.cell.filled, PollStep(t, accepting).cell.filled;
      assert c' == c || c' == c + [Err(Stopped)];
    }
  }

  lemma KnownTicketStaysOnlyStopped(w: World, event: Event, id: nat)
    requires Inv(w) && id < |w.tickets| && OnlyStopped(w.tickets[id])
    ensures id < |Step(w, event).tickets| && OnlyStopped(Step(w, event).tickets[id])
  {
    StepOnTicket(w, event, id);
    TicketStepKeepsOnlyStopped(w.tickets[id], w.accepting, event);
  }

  lemma StepKeepsOnlyStopped(w: World, event: Event)
    requires Inv(w) && forall id | 0 <= id < |w.tickets| :: OnlyStopped(w.tickets[id])
    ensures forall id | 0 <= id < |Step(w, event).tickets| :: OnlyStopped(Step(w, event).tickets[id])
  {
    forall id | 0 <= id < |Step(w, event).tickets|
      ensures OnlyStopped(Step(w, event).tickets[id])
    {
      if id < |w.tickets| {
        KnownTicketStaysOnlyStopped(w, event, id);
      }
    }
  }

  lemma {:induction false} RunKeepsOnlyStopped(w: World, events: seq<Event>)
    requires Inv(w) && forall id | 0 <= id < |w.tickets| :: OnlyStopped(w.tickets[id])
    ensures forall id | 0 <= id < |Run(w, events).tickets| :: OnlyStopped(Run(w, events).tickets[id])
    decreases |events|
  {
    if events != [] {
      StepKeepsOnlyStopped(w, events[0]);
      StepKeepsInv(w, events[0]);
      RunKeepsOnlyStopped(Step(w, events[0]), events[1..]);
    }
  }

  lemma NothingFilledBeforeChecks(capacity: nat, events: seq<Event>, id: nat)
    requires id < |Run(Fresh(capacity), events).tickets|
    requires BeforeChecks(Run(Fresh(capacity), events).tickets[id])
    ensures forall k | 0 <= k < |Run(Fresh(capacity), events).tickets[id].cell.filled| ::
              Run(Fresh(capacity), events).tickets[id].cell.filled[k] == Err(Stopped)
  {
    FreshInv(capacity);
    RunKeepsOnlyStopped(Fresh(capacity), events);
    assert OnlyStopped(Run(Fresh(capacity), events).tickets[id]);
  }

  // ----- the window between the checks and the claim -----

  ghost predicate Succeeded(w: World, id: nat) {
    id < |w.tickets| && exists k :: 0 <= k < |w.tickets[id].cell.filled| && w.tickets[id].cell.filled[k].Ok?
  }

  /** Some continuation publishes a success. */
  ghost predicate CanSucceed(w: World, id: nat) {
    exists events: seq<Event> :: Succeeded(Run(w, events), id)
  }

  /** A success has been published, or the worker has it in hand behind its last check with the claim still open or its
      own. With the source revoked in a live generation, one check is left that looks at the generation only. */
  ghost predicate SuccessLeft(t: Ticket, accepting: bool) {
    || (exists k :: 0 <= k < |t.cell.filled| && t.cell.filled[k].Ok?)
    || (t.work.Claiming? && t.work.result.Ok? && !t.cell.completed)
    || ((t.work.RecordError? || t.work.Publishing?) && t.work.result.Ok?)
    || (t.work.CheckSourceGeneration? && accepting && !t.cell.completed)
  }

  ghost predicate Withdrawn(t: Ticket, accepting: bool) {
    !accepting || !t.source.valid
  }

  lemma TicketStepKeepsNoSuccess(t: Ticket, accepting: bool, event: Event)
    requires Withdrawn(t, accepting) && !SuccessLeft(t, accepting)
    ensures var next := TicketStep(t, accepting, event); Withdrawn(next, accepting) && !SuccessLeft(next, accepting)
  {
    var next := TicketStep(t, accepting, event);
    assert next.cell.filled == t.cell.filled
        || (|next.cell.filled| == |t.cell.filled| + 1 && next.cell.filled[..|t.cell.filled|] == t.cell.filled);
  }

  lemma StepKeepsNoSuccess(w: World, event: Event, id: nat)
    requires Inv(w) && id < |w.tickets|
    requires Withdrawn(w.tickets[id], w.accepting) && !SuccessLeft(w.tickets[id], w.accepting)
    ensures var next := Step(w, event);
            && id < |next.tickets|
            && Withdrawn(next.tickets[id], next.accepting) && !SuccessLeft(next.tickets[id], next.accepting)
  {
    StepOnTicket(w, event, id);
    TicketStepKeepsNoSuccess(w.tickets[id], w.accepting, event);
  }

  lemma {:induction false} RunKeepsNoSuccess(w: World, events: seq<Event>, id: nat)
    requires Inv(w) && id < |w.tickets|
    requires Withdrawn(w.tickets[id], w.accepting) && !SuccessLeft(w.tickets[id], w.accepting)
    ensures !Succeeded(Run(w, events), id)
    decreases |events|
  {
    if events != [] {
      StepKeepsNoSuccess(w, events[0], id);
      StepKeepsInv(w, events[0]);
      RunKeepsNoSuccess(Step(w, events[0]), events[1..], id);
    }
  }

  lemma RunOne(w: World, event: Event)
    ensures Run(w, [event]) == Step(w, event)
  {
    assert [event][1..] == [];
  }

  lemma RunTwo(w: World, first: Event, second: Event)
    ensures Run(w, [first, second]) == Step(Step(w, first), second)
  {
    assert [first, second][1..] == [second];
    RunOne(Step(w, first), second);
  }

  /** The worker's own next steps publish a success it has behind its last check. */
  lemma LastStepsPublish(w: World, id: nat) returns (events: seq<Event>)
    requires Inv(w) && id < |w.tickets| && SuccessLeft(w.tickets[id], w.accepting)
    ensures Succeeded(Run(w, events), id)
  {
    var t, turn := w.tickets[id], WorkTurn(id);
    assert TicketInv(t);
    if exists k :: 0 <= k < |t.cell.filled| && t.cell.filled[k].Ok? {
      return [];
    }
    if t.work.Publishing? {
      RunOne(w, turn);
      assert Run(w, [turn]).tickets[id].cell.filled[0].Ok?;
      return [turn];
    }
    var next := Step(w, turn);
    StepKeepsInv(w, turn);
    if t.work.CheckSourceGeneration? {
      var third := Step(Step(next, turn), turn);
      RunTwo(next, turn, turn);
      assert [turn, turn, turn][1..] == [turn, turn];
      assert Run(w, [turn, turn, turn]) == third && third.tickets[id].cell.filled[0].Ok?;
      return [turn, turn, turn];
    }
    RunTwo(w, turn, turn);
    assert Step(next, turn).tickets[id].cell.filled[0].Ok?;
    return [turn, turn];
  }

  /** Once the generation is retired or the source revoked, some continuation delivers a success exactly when
      `SuccessLeft` holds at that moment: a retired generation can report success only from a worker that has made its
      last check and can still claim, or has claimed. */
  lemma SuccessAfterWithdrawalExactly(w: World, id: nat)
    requires Inv(w) && id < |w.tickets| && Withdrawn(w.tickets[id], w.accepting)
    ensures CanSucceed(w, id) <==> SuccessLeft(w.tickets[id], w.accepting)
  {
    if SuccessLeft(w.tickets[id], w.accepting) {
      var events := LastStepsPublish(w, id);
      assert Succeeded(Run(w, events), id);
    } else {
      forall events: seq<Event>
        ensures !Succeeded(Run(w, events), id)
      {
        RunKeepsNoSuccess(w, events, id);
      }
    }
  }

  lemma {:induction false} RunAppend(w: World, a: seq<Event>, b: seq<Event>)
    ensures Run(w, a + b) == Run(Run(w, a), b)
    decreases |a|
  {
    if a == [] {
      assert a + b == b;
    } else {
      assert (a + b)[1..] == a[1..] + b;
      RunAppend(Step(w, a[0]), a[1..], b);
    }
  }

  /** One request admitted, dequeued and answered by the worker with a success that has passed all three checks. */
  function CheckedRun(reply: nat): seq<Event> {
    [Submit(false, false, false, true), Enqueue(0), NextOrdinary, Complete(0, Ok(reply))]
    + [WorkTurn(0), WorkTurn(0), WorkTurn(0)]
  }

  lemma CheckedRunReachesClaim(capacity: nat, reply: nat)
    requires capacity > 0
    ensures var w := Run(Fresh(capacity), CheckedRun(reply));
            && w.accepting && |w.tickets| == 1
            && w.tickets[0] == Ticket(false, false, Source(true, true, false), Cell(false, None, [], []),
                                      Claiming(Ok(reply), false), NotPolling)
  {
    var admit := [Submit(false, false, false, true), Enqueue(0), NextOrdinary, Complete(0, Ok(reply))];
    var check := [WorkTurn(0), WorkTurn(0), WorkTurn(0)];
    var w1 := Step(Fresh(capacity), Submit(false, false, false, true));
    var w2 := Step(w1, Enqueue(0));
    assert w2.ordinary == [0] && w2.accepting && |w2.tickets| == 1;
    var w := Step(Step(w2, NextOrdinary), Complete(0, Ok(reply)));
    assert w.accepting && w.tickets == [Ticket(false, false, Source(true, true, false), Cell(false, None, [], []),
                                               CheckGeneration(Ok(reply)), NotPolling)];
    assert Run(Fresh(capacity), admit) == w by {
      assert admit[1..][1..] == [NextOrdinary, Complete(0, Ok(reply))];
      RunTwo(w2, NextOrdinary, Complete(0, Ok(reply)));
    }
    RunAppend(Fresh(capacity), admit, check);
    assert check[1..] == [WorkTurn(0), WorkTurn(0)];
    RunTwo(Step(w, WorkTurn(0)), WorkTurn(0), WorkTurn(0));
  }

  /** A run in which the generation is retired before anything is claimed, and which still ends in a success. */
  lemma RetirementAfterChecksMaySucceed(capacity: nat, reply: nat)
    requires capacity > 0
    ensures var retired := Run(Fresh(capacity), CheckedRun(reply) + [Retire]);
            var after := Run(Fresh(capacity), CheckedRun(reply) + [Retire] + [WorkTurn(0), WorkTurn(0)]);
            && !retired.accepting && |retired.tickets| == 1 && !retired.tickets[0].cell.completed
            && |after.tickets| == 1 && after.tickets[0].cell.filled == [Ok(reply)]
  {
    CheckedRunReachesClaim(capacity, reply);
    var checked := Run(Fresh(capacity), CheckedRun(reply));
    RunAppend(Fresh(capacity), CheckedRun(reply), [Retire]);
    RunOne(checked, Retire);
    RunAppend(Fresh(capacity), CheckedRun(reply) + [Retire], [WorkTurn(0), WorkTurn(0)]);
    RunTwo(Step(checked, Retire), WorkTurn(0), WorkTurn(0));
  }

  // ----- a caller that keeps polling gets an answer -----

  /** How often an event occurs in a run. */
  ghost function Count(events: seq<Event>, event: Event): nat {
    if events == [] then 0 else (if events[0] == event then 1 else 0) + Count(events[1..], event)
  }

  /** The caller has its ticket, and the request has left admission, which may still give the ticket back. */
  ghost predicate Waiting(w: World, id: nat) {
    id < |w.tickets| && w.tickets[id].source.held && !w.tickets[id].work.Admitting?
  }

  lemma TicketIsSound(w: World, id: nat)
    requires Inv(w) && id < |w.tickets|
    ensures TicketInv(w.tickets[id])
  {
  }

  /** What one event of an interleaving does to a waiting request whose caller keeps its ticket. */
  lemma StepOnWaiting(w: World, event: Event, id: nat)
    requires Inv(w) && Waiting(w, id) && event != DropTicket(id)
    ensures Waiting(Step(w, event), id)
    ensures var t, next := w.tickets[id], Step(w, event).tickets[id];
            && (event == PollTurn(id) ==> next == PollStep(t, w.accepting))
            && (event == WorkTurn(id) ==> next == WorkStep(t, w.accepting))
            && (event != PollTurn(id) && event != WorkTurn(id) ==>
                  next.cell == t.cell && next.poll == t.poll
                  && (next.work == t.work || (WorkClaims(t.work) == 0 && WorkClaims(next.work) == 0)))
  {
    match event {
      case NextUrgent => DequeuedOnWaiting(w, InHand, id);
      case NextOrdinary => DequeuedOnWaiting(w, InHand, id);
      case AbandonUrgent => DequeuedOnWaiting(w, Claiming(Err(Stopped), true), id);
      case AbandonOrdinary => DequeuedOnWaiting(w, Claiming(Err(Stopped), true), id);
      case Submit(_, _, _, _) =>
      case Enqueue(_) =>
      case Retire =>
      case _ => LocalOnWaiting(w, event, id);
    }
  }

  /** The events that name a ticket. */
  ghost predicate Local(event: Event) {
    || event.Complete? || event.DropWork? || event.WorkTurn? || event.PollTurn? || event.SourceState?
    || event.DropTicket?
  }

  lemma LocalOnWaiting(w: World, event: Event, id: nat)
    requires Waiting(w, id) && event != DropTicket(id) && Local(event)
    ensures Waiting(Step(w, event), id)
    ensures var t, next := w.tickets[id], Step(w, event).tickets[id];
            && (event == PollTurn(id) ==> next == PollStep(t, w.accepting))
            && (event == WorkTurn(id) ==> next == WorkStep(t, w.accepting))
            && (event != PollTurn(id) && event != WorkTurn(id) ==>
                  next.cell == t.cell && next.poll == t.poll
                  && (next.work == t.work || (WorkClaims(t.work) == 0 && WorkClaims(next.work) == 0)))
  {
    if event.id == id {
      hide TicketStep;
      TicketStepOnWaiting(w.tickets[id], w.accepting, event, id);
    }
  }

  lemma TicketStepOnWaiting(t: Ticket, accepting: bool, event: Event, id: nat)
    requires t.source.held && !t.work.Admitting? && !event.DropTicket?
    ensures var next := TicketStep(t, accepting, event);
            && next.source.held && !next.work.Admitting?
            && (event == PollTurn(id) ==> next == PollStep(t, accepting))
            && (event == WorkTurn(id) ==> next == WorkStep(t, accepting))
            && (!event.PollTurn? && !event.WorkTurn? ==>
                  next.cell == t.cell && next.poll == t.poll
                  && (next.work == t.work || (WorkClaims(t.work) == 0 && WorkClaims(next.work) == 0)))
  {
  }

  lemma DequeuedOnWaiting(w: World, work: Work, id: nat)
    requires Inv(w) && Waiting(w, id) && WorkClaims(work) == 0 && !work.Admitting?
    ensures forall next | next in [DequeuedUrgent(w, work), DequeuedOrdinary(w, work)] ::
              && Waiting(next, id)
              && next.tickets[id].cell == w.tickets[id].cell && next.tickets[id].poll == w.tickets[id].poll
              && (next.tickets[id].work == w.tickets[id].work
                  || (WorkClaims(w.tickets[id].work) == 0 && WorkClaims(next.tickets[id].work) == 0))
  {
  }

  /** The completion is claimed and the worker does not hold the claim: it is published, or the caller publishes it. */
  ghost predicate Answered(t: Ticket) {
    t.cell.completed && WorkClaims(t.work) == 0
  }

  /** The caller's own operations until it has taken the result. */
  ghost function PollsLeft(t: Ticket): nat {
    if t.cell.taken != [] then 0
    else match t.poll
      case NotPolling => 3
      case PollClaiming => 2
      case PollPublishing => 2
      case PollTaking => 1
  }

  lemma AnsweredStep(w: World, event: Event, id: nat)
    requires Inv(w) && Waiting(w, id) && event != DropTicket(id) && Answered(w.tickets[id])
    ensures Waiting(Step(w, event), id)
    ensures var t, next := w.tickets[id], Step(w, event).tickets[id];
            && Answered(next) && PollsLeft(next) <= PollsLeft(t)
            && (event == PollTurn(id) && PollsLeft(t) > 0 ==> PollsLeft(next) < PollsLeft(t))
  {
    hide Inv, Step;
    StepOnWaiting(w, event, id);
    TicketIsSound(w, id);
  }

  /** Whatever else happens in between, a caller that keeps its ticket and makes as many polling operations as are left
      holds the one result of an answered request. */
  lemma {:induction false} AnsweredIsTaken(w: World, events: seq<Event>, id: nat)
    requires Inv(w) && Waiting(w, id) && Answered(w.tickets[id])
    requires DropTicket(id) !in events && Count(events, PollTurn(id)) >= PollsLeft(w.tickets[id])
    ensures Waiting(Run(w, events), id) && |Run(w, events).tickets[id].cell.taken| == 1
    decreases |events|
  {
    assert TicketInv(w.tickets[id]);
    if events != [] {
      AnsweredStep(w, events[0], id);
      StepKeepsInv(w, events[0]);
      assert DropTicket(id) !in events[1..];
      AnsweredIsTaken(Step(w, events[0]), events[1..], id);
    }
  }

  /** After the result is published, any continuation with three polling operations of the ticket's holder ends with
      the one result taken, however worker, revocation, retirement and other callers interleave with them. */
  lemma PollAfterPublication(w: World, events: seq<Event>, id: nat)
    requires Inv(w) && Waiting(w, id) && w.tickets[id].cell.filled != []
    requires DropTicket(id) !in events && Count(events, PollTurn(id)) >= 3
    ensures Waiting(Run(w, events), id) && |Run(w, events).tickets[id].cell.taken| == 1
  {
    assert TicketInv(w.tickets[id]);
    AnsweredIsTaken(w, events, id);
  }

  /** Work that is gone, completed or abandoned, has left an answer, even in a live generation: any continuation with
      three polling operations ends with it taken. */
  lemma AbandonedWorkIsAnswered(w: World, events: seq<Event>, id: nat)
    requires Inv(w) && Waiting(w, id) && w.tickets[id].work.Gone?
    requires DropTicket(id) !in events && Count(events, PollTurn(id)) >= 3
    ensures Waiting(Run(w, events), id) && |Run(w, events).tickets[id].cell.taken| == 1
  {
    assert TicketInv(w.tickets[id]);
    AnsweredIsTaken(w, events, id);
  }

  /** The caller's own operations until the completion is claimed by somebody, in a retired generation. */
  ghost function ClaimLeft(t: Ticket): nat {
    if t.cell.completed then 0
    else match t.poll
      case NotPolling => 2
      case PollClaiming => 1
      case PollPublishing => 0
      case PollTaking => 3
  }

  lemma ClaimStep(w: World, event: Event, id: nat)
    requires Inv(w) && !w.accepting && Waiting(w, id) && event != DropTicket(id)
    ensures Waiting(Step(w, event), id) && !Step(w, event).accepting
    ensures var t, next := w.tickets[id], Step(w, event).tickets[id];
            && ClaimLeft(next) <= ClaimLeft(t)
            && (event == PollTurn(id) && ClaimLeft(t) > 0 ==> ClaimLeft(next) < ClaimLeft(t))
  {
    hide Inv;
    StepOnWaiting(w, event, id);
    StepOnTicket(w, event, id);
    TicketIsSound(w, id);
  }

  /** Three polling operations after retirement get the request completed, by whomever. */
  lemma {:induction false} PollingCompletes(w: World, events: seq<Event>, id: nat)
    requires Inv(w) && !w.accepting && Waiting(w, id)
    requires DropTicket(id) !in events && Count(events, PollTurn(id)) >= ClaimLeft(w.tickets[id])
    ensures Inv(Run(w, events)) && !Run(w, events).accepting && Waiting(Run(w, events), id)
    ensures Run(w, events).tickets[id].cell.completed
    decreases |events|
  {
    assert TicketInv(w.tickets[id]);
    if events != [] {
      ClaimStep(w, events[0], id);
      StepKeepsInv(w, events[0]);
      assert DropTicket(id) !in events[1..];
      PollingCompletes(Step(w, events[0]), events[1..], id);
    }
  }

  /** The worker's own steps until it has published what it claimed. */
  ghost function PublicationLeft(t: Ticket): nat {
    if t.work.RecordError? then 2 else if t.work.Publishing? then 1 else 0
  }

  lemma PublicationStep(w: World, event: Event, id: nat)
    requires Inv(w) && Waiting(w, id) && event != DropTicket(id) && w.tickets[id].cell.completed
    ensures Waiting(Step(w, event), id) && Step(w, event).tickets[id].cell.completed
    ensures var t, next := w.tickets[id], Step(w, event).tickets[id];
            && PublicationLeft(next) <= PublicationLeft(t)
            && (event == WorkTurn(id) && PublicationLeft(t) > 0 ==> PublicationLeft(next) < PublicationLeft(t))
  {
    hide Inv, Step;
    StepOnWaiting(w, event, id);
    TicketIsSound(w, id);
  }

  /** A completed request is answered once the worker, if it holds the claim, has made its own two steps. */
  lemma {:induction false} WorkerPublishes(w: World, events: seq<Event>, id: nat)
    requires Inv(w) && Waiting(w, id) && w.tickets[id].cell.completed
    requires DropTicket(id) !in events && Count(events, WorkTurn(id)) >= PublicationLeft(w.tickets[id])
    ensures Inv(Run(w, events)) && Waiting(Run(w, events), id) && Answered(Run(w, events).tickets[id])
    decreases |events|
  {
    if events != [] {
      PublicationStep(w, events[0], id);
      StepKeepsInv(w, events[0]);
      assert DropTicket(id) !in events[1..];
      WorkerPublishes(Step(w, events[0]), events[1..], id);
    }
  }

  /** Every held request reaches its one terminal result for a caller that keeps polling after retirement. From any
      reachable retired state, in any interleaving: three polling operations get it completed; the worker's own two
      steps, if it was the worker that claimed, get it published; three more polling operations take it. */
  lemma RetiredRequestsBecomeTerminal(
      capacity: nat, before: seq<Event>, claim: seq<Event>, publish: seq<Event>, take: seq<Event>, id: nat)
    requires !Run(Fresh(capacity), before).accepting && Waiting(Run(Fresh(capacity), before), id)
    requires DropTicket(id) !in claim && DropTicket(id) !in publish && DropTicket(id) !in take
    requires Count(claim, PollTurn(id)) >= 3 && Count(take, PollTurn(id)) >= 3
    ensures var claimed := Run(Run(Fresh(capacity), before), claim);
            && Waiting(claimed, id) && claimed.tickets[id].cell.completed
            && (WorkClaims(claimed.tickets[id].work) == 0 || Count(publish, WorkTurn(id)) >= 2 ==>
                  var last := Run(Run(claimed, publish), take);
                  Waiting(last, id) && |last.tickets[id].cell.taken| == 1)
  {
    FreshInv(capacity);
    RunKeepsInv(Fresh(capacity), before);
    var retired := Run(Fresh(capacity), before);
    PollingCompletes(retired, claim, id);
    var claimed := Run(retired, claim);
    if WorkClaims(claimed.tickets[id].work) == 0 || Count(publish, WorkTurn(id)) >= 2 {
      CompletedIsTaken(claimed, publish, take, id);
    }
  }

  lemma CompletedIsTaken(w: World, publish: seq<Event>, take: seq<Event>, id: nat)
    requires Inv(w) && Waiting(w, id) && w.tickets[id].cell.completed
    requires WorkClaims(w.tickets[id].work) == 0 || Count(publish, WorkTurn(id)) >= 2
    requires DropTicket(id) !in publish && DropTicket(id) !in take && Count(take, PollTurn(id)) >= 3
    ensures Waiting(Run(Run(w, publish), take), id)
    ensures |Run(Run(w, publish), take).tickets[id].cell.taken| == 1
  {
    hide Inv, Waiting;
    WorkerPublishes(w, publish, id);
    AnsweredIsTaken(Run(w, publish), take, id);
  }

  /** The caller's own operations until it has its result, in a retired generation whose worker stands still. */
  ghost function PollsLeftAlone(t: Ticket): nat {
    if t.cell.completed then PollsLeft(t)
    else match t.poll
      case NotPolling => 4
      case PollClaiming => 3
      case PollPublishing => 2
      case PollTaking => 5
  }

  /** A request whose worker is stuck, for instance in device I/O, becomes terminal all the same: unless the worker has
      claimed the completion, five polling operations after retirement take a result without any step of it. */
  lemma {:induction false} SlowWorkerDoesNotDelay(w: World, events: seq<Event>, id: nat)
    requires Inv(w) && !w.accepting && Waiting(w, id) && WorkClaims(w.tickets[id].work) == 0
    requires DropTicket(id) !in events && WorkTurn(id) !in events
    requires Count(events, PollTurn(id)) >= PollsLeftAlone(w.tickets[id])
    ensures Waiting(Run(w, events), id) && |Run(w, events).tickets[id].cell.taken| == 1
    ensures PollsLeftAlone(w.tickets[id]) <= 5
    decreases |events|
  {
    assert TicketInv(w.tickets[id]);
    if events != [] {
      StepOnWaiting(w, events[0], id);
      StepOnTicket(w, events[0], id);
      StepKeepsInv(w, events[0]);
      assert TicketInv(Step(w, events[0]).tickets[id]);
      assert DropTicket(id) !in events[1..] && WorkTurn(id) !in events[1..];
      SlowWorkerDoesNotDelay(Step(w, events[0]), events[1..], id);
    }
  }

  /** One whole call of `take_completion` with nobody else moving. */
  ghost function PollCall(t: Ticket, accepting: bool): Ticket
    requires t.poll.NotPolling?
  {
    var t1 := PollStep(t, accepting);
    var t2 := if t1.poll.PollClaiming? then PollStep(t1, accepting) else t1;
    var t3 := if t2.poll.PollPublishing? then PollStep(t2, accepting) else t2;
    PollStep(t3, accepting)
  }

  /** A single uninterrupted call after retirement ends with the one result taken, unless the worker has claimed the
      completion and not yet published it. */
  lemma UninterruptedPollTakes(t: Ticket)
    requires TicketInv(t) && t.poll.NotPolling? && t.source.held && WorkClaims(t.work) == 0
    ensures var t' := PollCall(t, false);
            t'.poll.NotPolling? && TicketInv(t') && |t'.cell.taken| == 1
  {
  }

  /** A worker that has claimed the completion publishes it within two of its own steps. */
  lemma ClaimedWorkIsPublished(t: Ticket, accepting: bool)
    requires TicketInv(t) && WorkClaims(t.work) == 1
    ensures var t' := if t.work.RecordError? then WorkStep(WorkStep(t, accepting), accepting) else WorkStep(t, accepting);
            WorkClaims(t'.work) == 0 && t'.cell.slot.Some? && t'.poll == t.poll && t'.source == t.source && TicketInv(t')
  {
  }

  // ----- the first detached error is kept -----

  lemma {:induction false} FirstErrorIsKept(w: World, events: seq<Event>)
    requires w.parallelError != 0
    ensures Run(w, events).parallelError == w.parallelError
    decreases |events|
  {
    if events != [] {
      FirstErrorIsKept(Step(w, events[0]), events[1..]);
    }
  }

  /** A detached request refused by a full queue is recorded as stopped, not as busy: the refused work is
      dropped, and dropping it completes the request. */
  lemma FullQueueRecordsStopped(w: World, id: nat)
    requires Inv(w) && id < |w.tickets| && w.tickets[id].work == Admitting && w.tickets[id].detached
    requires !w.tickets[id].urgent && |w.ordinary| == w.capacity
    requires !w.tickets[id].cell.completed && w.parallelError == 0
    ensures Run(w, [Enqueue(id), WorkTurn(id), WorkTurn(id)]).parallelError == ErrorCode(Stopped)
    ensures ErrorCode(Stopped) != ErrorCode(Busy)
  {
    var w1 := Step(w, Enqueue(id));
    var w2 := Step(w1, WorkTurn(id));
    assert Run(w, [Enqueue(id), WorkTurn(id), WorkTurn(id)]) == Run(w1, [WorkTurn(id), WorkTurn(id)])
        == Run(w2, [WorkTurn(id)]) == Step(w2, WorkTurn(id));
  }

  // ----- what each event is for -----

  /** An urgent command finds its reserved slot whatever waits in the ordinary queue: in an accepting port it is queued
      exactly when no other urgent one is, and a detached request never takes that slot. */
  lemma UrgentIsAdmitted(w: World, active: bool, detached: bool)
    requires Inv(w) && w.accepting
    ensures var id := |w.tickets|;
            var after := Run(w, [Submit(detached, true, active, true), Enqueue(id)]);
            && |after.tickets| == id + 1
            && (!detached ==>
                  && (after.tickets[id].work == Queued <==> w.urgent == [])
                  && after.urgent == (if w.urgent == [] then [id] else w.urgent) && after.ordinary == w.ordinary)
            && (detached ==>
                  && (after.tickets[id].work == Queued <==> |w.ordinary| < w.capacity)
                  && after.urgent == w.urgent)
  {
    RunTwo(w, Submit(detached, true, active, true), Enqueue(|w.tickets|));
  }

  /** The lease of a caller ends with its ticket or when it is told invalid, and says keyed or not as told last. */
  lemma LeaseFollowsItsEvents(w: World, id: nat, active: bool, valid: bool)
    requires id < |w.tickets|
    ensures var t := w.tickets[id];
            var told, dropped := Step(w, SourceState(id, active, valid)).tickets[id], Step(w, DropTicket(id)).tickets[id];
            && told.source == (if t.source.held then Source(true, t.source.valid && valid, active) else t.source)
            && (t.source.held && t.poll.NotPolling? ==> !dropped.source.held && !dropped.source.valid)
            && told.cell == t.cell == dropped.cell && told.work == t.work == dropped.work
  {
  }

  /** Revoking the source of a held request that has not reached the worker's source check makes success impossible in
      every continuation, and so does dropping its ticket or retiring the generation. */
  lemma RevokingEventsExcludeSuccess(capacity: nat, before: seq<Event>, active: bool, after: seq<Event>, id: nat)
    requires id < |Run(Fresh(capacity), before).tickets| && BeforeChecks(Run(Fresh(capacity), before).tickets[id])
    ensures var w := Run(Fresh(capacity), before);
            && (w.tickets[id].source.held ==> !Succeeded(Run(Step(w, SourceState(id, active, false)), after), id))
            && (w.tickets[id].source.held && w.tickets[id].poll.NotPolling? ==>
                  !Succeeded(Run(Step(w, DropTicket(id)), after), id))
            && !Succeeded(Run(Step(w, Retire), after), id)
  {
    FreshInv(capacity);
    RunKeepsInv(Fresh(capacity), before);
    var w := Run(Fresh(capacity), before);
    NothingFilledBeforeChecks(capacity, before, id);
    WithdrawnByEvent(w, SourceState(id, active, false), after, id);
    WithdrawnByEvent(w, DropTicket(id), after, id);
    WithdrawnByEvent(w, Retire, after, id);
  }

  lemma WithdrawnByEvent(w: World, event: Event, after: seq<Event>, id: nat)
    requires Inv(w) && id < |w.tickets| && BeforeChecks(w.tickets[id])
    requires forall k | 0 <= k < |w.tickets[id].cell.filled| :: w.tickets[id].cell.filled[k] == Err(Stopped)
    requires event.SourceState? || event.DropTicket? || event.Retire?
    ensures id < |Step(w, event).tickets|
    ensures Withdrawn(Step(w, event).tickets[id], Step(w, event).accepting) ==> !Succeeded(Run(Step(w, event), after), id)
  {
    StepKeepsInv(w, event);
    StepOnTicket(w, event, id);
    if Withdrawn(Step(w, event).tickets[id], Step(w, event).accepting) {
      RunKeepsNoSuccess(Step(w, event), after, id);
    }
  }

  /** Work that the worker drops, or abandons in a queue, is completed as stopped unless it was completed before. */
  lemma DroppedWorkIsStopped(t: Ticket, accepting: bool, id: nat)
    requires TicketInv(t) && (t.work == InHand || t.work == Claiming(Err(Stopped), true))
    ensures var dropped := TicketStep(t, accepting, DropWork(id));
            var t1 := WorkStep(dropped, accepting);
            var t2 := if t1.work.RecordError? then WorkStep(t1, accepting) else t1;
            var t3 := if t2.work.Publishing? then WorkStep(t2, accepting) else t2;
            && t3.work == Gone
            && t3.cell.filled == if t.cell.completed then t.cell.filled else [Err(Stopped)]
  {
  }

  lemma AbandonedIsDropped(w: World)
    requires Inv(w)
    ensures w.urgent != [] ==>
              && Step(w, AbandonUrgent).urgent == w.urgent[1..]
              && Step(w, AbandonUrgent).tickets[w.urgent[0]].work == Claiming(Err(Stopped), true)
    ensures w.ordinary != [] ==>
              && Step(w, AbandonOrdinary).ordinary == w.ordinary[1..]
              && Step(w, AbandonOrdinary).tickets[w.ordinary[0]].work == Claiming(Err(Stopped), true)
  {
  }

  /** The code left behind by a detached request that fails first: its own code for a rejection, one for a full queue and
      one for an end without authority. A request whose caller holds a ticket leaves none. */
  lemma DetachedErrorIsRecorded(w: World, id: nat, error: RequestError)
    requires Inv(w) && id < |w.tickets| && w.parallelError == 0
    requires w.tickets[id].work.Claiming? && w.tickets[id].work.result == Err(error) && !w.tickets[id].cell.completed
    ensures Run(w, [WorkTurn(id), WorkTurn(id)]).parallelError
              == if !w.tickets[id].detached then 0
                 else match error case Rejected(code) => code case Busy => -9 case Stopped => -10 case StaleSource => -10
  {
    RunTwo(w, WorkTurn(id), WorkTurn(id));
  }
}
