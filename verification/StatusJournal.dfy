/** The cumulative journal of the latest sixteen status events (rust/asl3/src/adapter.rs:165-192). A copy of it
    travels in every packet, so a lost packet loses no status that a later packet still carries. */
module StatusJournal {
  import opened Wrappers

  const STATUS_CAPACITY: nat := 16

  datatype Status = TransmitCtcssReady(tone: nat) | VoterRssi(value: nat)

  datatype Journal = Journal(events: seq<Status>, produced: nat)

  predicate Ready(journal: Journal) {
    |journal.events| == STATUS_CAPACITY
  }

  function Empty(): (journal: Journal)
    ensures Ready(journal)
  {
    Journal(seq(STATUS_CAPACITY, _ => VoterRssi(0)), 0)
  }

  function Push(journal: Journal, status: Status): (next: Journal)
    requires Ready(journal)
    ensures Ready(next)
  {
    Journal(journal.events[journal.produced % STATUS_CAPACITY := status], journal.produced + 1)
  }

  function OldestSequence(journal: Journal): nat {
    if journal.produced > STATUS_CAPACITY then journal.produced - STATUS_CAPACITY else 0
  }

  function Get(journal: Journal, sequence: nat): Status
    requires Ready(journal)
  {
    journal.events[sequence % STATUS_CAPACITY]
  }

  /** The journal after every event of `history`, in order. */
  ghost predicate Records(journal: Journal, history: seq<Status>) {
    && Ready(journal) && journal.produced == |history|
    && forall s | OldestSequence(journal) <= s < |history| :: Get(journal, s) == history[s]
  }

  lemma EmptyRecords()
    ensures Records(Empty(), [])
  {
  }

  /** One more event keeps the other fifteen. */
  lemma PushRecords(journal: Journal, history: seq<Status>, status: Status)
    requires Records(journal, history)
    ensures Records(Push(journal, status), history + [status])
  {
  }

  /** The events of one callback: at most one of each kind, in array order. */
  function PushAll(journal: Journal, statuses: seq<Option<Status>>): (next: Journal)
    requires Ready(journal)
    ensures Ready(next)
    decreases |statuses|
  {
    if statuses == [] then journal
    else match statuses[0]
      case None => PushAll(journal, statuses[1..])
      case Some(status) => PushAll(Push(journal, status), statuses[1..])
  }

  function Present(statuses: seq<Option<Status>>): seq<Status> {
    if statuses == [] then []
    else (match statuses[0] case None => [] case Some(status) => [status]) + Present(statuses[1..])
  }

  lemma {:induction false} PushAllRecords(journal: Journal, history: seq<Status>, statuses: seq<Option<Status>>)
    requires Records(journal, history)
    ensures Records(PushAll(journal, statuses), history + Present(statuses))
    decreases |statuses|
  {
    if statuses == [] {
      assert history + [] == history;
    } else {
      match statuses[0] {
        case None =>
          assert [] + Present(statuses[1..]) == Present(statuses[1..]);
          PushAllRecords(journal, history, statuses[1..]);
        case Some(status) =>
          PushRecords(journal, history, status);
          PushAllRecords(Push(journal, status), history + [status], statuses[1..]);
          assert history + [status] + Present(statuses[1..]) == history + ([status] + Present(statuses[1..]));
      }
    }
  }
}
