/** The bounded command port as one object changed in place. */
module RemoteQueue {
  import opened Wrappers
  import opened RemoteTickets

  class CommandPort {
    const capacity: nat
    var accepting: bool
    var parallelError: int
    var tickets: seq<Ticket>
    var ordinary: seq<nat>
    var urgent: seq<nat>

    ghost function View(): World
      reads this
    {
      World(accepting, parallelError, capacity, tickets, ordinary, urgent)
    }

    ghost predicate Valid()
      reads this
    {
      Inv(View())
    }

    constructor (slots: nat)
      ensures Valid() && View() == Fresh(slots)
    {
      capacity := slots;
      accepting, parallelError, tickets, ordinary, urgent := true, 0, [], [], [];
      new;
      FreshInv(slots);
    }

    /** The admission check; an admitted request is created but not yet queued. */
    method Admit(detached: bool, isUrgent: bool, active: bool, wellFormed: bool) returns (id: Result<nat, RequestError>)
      requires Valid()
      modifies this
      ensures Valid() && View() == Step(old(View()), Submit(detached, isUrgent, active, wellFormed))
      ensures id.Ok? <==> old(accepting) && (detached || wellFormed)
      ensures id.Ok? ==>
                && id.value == |old(tickets)| && |tickets| == id.value + 1 && tickets[..id.value] == old(tickets)
                && var t := tickets[id.value];
                   && t.detached == detached && (t.urgent <==> isUrgent && !detached)
                   && t.source == Source(!detached, true, active)
                   && t.cell == Cell(false, None, [], []) && t.work == Admitting && t.poll == NotPolling
      ensures id.Err? ==> View() == old(View())
      ensures id.Err? ==> id.error == if !old(accepting) then Stopped else Rejected(-1003)
    {
      StepKeepsInv(View(), Submit(detached, isUrgent, active, wellFormed));
      if !accepting {
        return Err(Stopped);
      }
      if !detached && !wellFormed {
        return Err(Rejected(-1003));
      }
      tickets := tickets + [Submitted(detached, isUrgent, active)];
      return Ok(|tickets| - 1);
    }

    /** The bounded push; a full queue drops the work it is given. */
    method Queue(id: nat) returns (result: Result<(), RequestError>)
      requires Valid() && id < |tickets| && tickets[id].work == Admitting
      modifies this
      ensures Valid() && View() == Step(old(View()), Enqueue(id))
      ensures result == Err(Busy) <==> if old(tickets)[id].urgent then |old(urgent)| == 1 else |old(ordinary)| == capacity
      ensures result.Ok? <==> tickets[id].work.Queued?
      ensures result.Ok? ==> tickets == old(tickets)[id := old(tickets)[id].(work := Queued)]
      ensures result.Err? ==>
                && urgent == old(urgent) && ordinary == old(ordinary)
                && tickets == old(tickets)[id := old(tickets)[id].(work := Claiming(Err(Stopped), true),
                                                                   source := old(tickets)[id].source.(held := false))]
    {
      StepKeepsInv(View(), Enqueue(id));
      var t := tickets[id];
      if t.urgent && |urgent| < 1 {
        urgent := urgent + [id];
      } else if !t.urgent && |ordinary| < capacity {
        ordinary := ordinary + [id];
      } else {
        tickets := tickets[id := GivenBack(t)];
        return Err(Busy);
      }
      tickets := tickets[id := t.(work := Queued)];
      return Ok(());
    }

    /** Takes urgent work first. */
    method Next() returns (id: Option<nat>)
      requires Valid()
      modifies this
      ensures Valid()
      ensures id.None? <==> old(urgent) == [] && old(ordinary) == []
      ensures View() == Step(old(View()), if old(urgent) != [] then NextUrgent else NextOrdinary)
      ensures id.Some? ==> id.value == (if old(urgent) != [] then old(urgent)[0] else old(ordinary)[0])
    {
      StepKeepsInv(View(), NextUrgent);
      StepKeepsInv(View(), NextOrdinary);
      if urgent != [] {
        id := Some(urgent[0]);
        urgent := urgent[1..];
      } else if ordinary != [] {
        id := Some(ordinary[0]);
        ordinary := ordinary[1..];
      } else {
        return None;
      }
      tickets := tickets[id.value := tickets[id.value].(work := InHand)];
    }

    /** One event of one ticket: a step of its work or of its caller's poll, or a change of its source. */
    method TicketTurn(id: nat, event: Event)
      requires Valid() && id < |tickets|
      modifies this
      ensures Valid() && View() == LocalStep(old(View()), id, event)
      ensures tickets == old(tickets)[id := TicketStep(old(tickets)[id], accepting, event)]
      ensures accepting == old(accepting) && TicketInv(tickets[id])
    {
      LocalStepKeepsInv(View(), id, event);
      if event.WorkTurn? {
        parallelError := RecordedError(parallelError, tickets[id].work);
      }
      tickets := tickets[id := TicketStep(tickets[id], accepting, event)];
    }

    lemma TicketIsSound(id: nat)
      requires Valid() && id < |tickets|
      ensures TicketInv(tickets[id])
    {
    }

    /** The checks of `RemoteWork::complete(result)`. */
    method CheckWork(id: nat, result: Completion)
      requires Valid() && id < |tickets| && tickets[id].work == InHand
      modifies this
      ensures Valid() && accepting == old(accepting)
      ensures tickets == old(tickets)[id := old(tickets)[id].(work :=
                Claiming(if !accepting then Err(Stopped)
                         else if result.Ok? && !old(tickets)[id].source.valid then Err(StaleSource)
                         else result, false))]
    {
      hide Inv;
      TicketTurn(id, Complete(id, result));
      TicketTurn(id, WorkTurn(id));
      if tickets[id].work.CheckSource? {
        TicketTurn(id, WorkTurn(id));
        if tickets[id].work.CheckSourceGeneration? {
          TicketTurn(id, WorkTurn(id));
        }
      }
    }

    /** The claim and the publication of one result. */
    method PublishWork(id: nat)
      requires Valid() && id < |tickets| && tickets[id].work.Claiming?
      modifies this
      ensures Valid() && |tickets| == |old(tickets)|
      ensures tickets[id].work == AfterCompletion(old(tickets)[id].work.last)
      ensures tickets[id].cell.completed && tickets[id].poll == old(tickets)[id].poll
      ensures tickets[id].cell.filled == if old(tickets)[id].cell.completed then old(tickets)[id].cell.filled
                                         else [old(tickets)[id].work.result]
    {
      hide Inv, LocalStep, RecordedError, ErrorCode, PollStep;
      TicketIsSound(id);
      TicketTurn(id, WorkTurn(id));
      if tickets[id].work.RecordError? {
        TicketTurn(id, WorkTurn(id));
      }
      if tickets[id].work.Publishing? {
        TicketTurn(id, WorkTurn(id));
      }
    }

    /** `RemoteWork::complete(result)` and the drop of the work, with nobody else moving. */
    method CompleteWork(id: nat, result: Completion)
      requires Valid() && id < |tickets| && tickets[id].work == InHand
      modifies this
      ensures Valid() && |tickets| == |old(tickets)| && tickets[id].work.Gone?
      ensures tickets[id].cell.filled == if old(tickets)[id].cell.completed then old(tickets)[id].cell.filled
                                         else if !old(accepting) then [Err(Stopped)]
                                         else if result.Ok? && !old(tickets)[id].source.valid then [Err(StaleSource)]
                                         else [result]
    {
      CheckWork(id, result);
      PublishWork(id);
      PublishWork(id);
    }

    /** `take_completion`, with nobody else moving. */
    method TakeCompletion(id: nat) returns (result: Option<Completion>)
      requires Valid() && id < |tickets| && tickets[id].poll.NotPolling? && tickets[id].source.held
      modifies this
      ensures Valid() && |tickets| == |old(tickets)| && tickets[id].poll.NotPolling?
      ensures old(tickets)[id].cell.slot.Some? ==> result == old(tickets)[id].cell.slot
      ensures old(tickets)[id].cell.slot.None? ==>
                result == if !old(accepting) && !old(tickets)[id].cell.completed then Some(Err(Stopped)) else None
      ensures result.Some? ==> tickets[id].cell.taken == [result.value]
    {
      hide Inv;
      TicketIsSound(id);
      TicketTurn(id, PollTurn(id));
      if tickets[id].poll.PollClaiming? {
        TicketTurn(id, PollTurn(id));
        if tickets[id].poll.PollPublishing? {
          TicketTurn(id, PollTurn(id));
        }
      }
      result := tickets[id].cell.slot;
      TicketTurn(id, PollTurn(id));
    }

    method RetireGeneration()
      requires Valid()
      modifies this
      ensures Valid() && View() == Step(old(View()), Retire) && !accepting
    {
      StepKeepsInv(View(), Retire);
      accepting := false;
    }
  }
}
