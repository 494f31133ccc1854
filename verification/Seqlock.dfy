/** The snapshot protocol shared by the site cache (rust/driver/src/hardware_site.rs:299-391) and the
    loudness meter (rust/core/src/loudness_meter.rs:49-107): one writer brackets its word stores with two
    increments of a sequence number, and a reader retries, at most three times, unless it saw the same
    even number before and after its loads. The number of words and the number of readers are arbitrary. */
module Seqlock {
  const ATTEMPTS: nat := 3

  datatype Writer<W> =
    | WriterIdle
    | Storing(values: seq<W>, next: nat)

  /** Where one read stands. `since` is the version that was current when the read began. */
  datatype Reader<W> =
    | ReaderIdle
    | LoadSequence(attempt: nat, since: nat)
    | LoadWords(attempt: nat, sequence: nat, words: seq<W>, since: nat)
    | CheckSequence(attempt: nat, sequence: nat, words: seq<W>, since: nat)
    | Coherent(words: seq<W>, version: nat, since: nat)
    | Busy

  /** `published` lists every completed snapshot, starting with the initial words. */
  datatype World<W> = World(
    sequence: nat,
    words: seq<W>,
    writer: Writer<W>,
    readers: map<nat, Reader<W>>,
    published: seq<seq<W>>
  )

  datatype Event<W> = WriterTurn(values: seq<W>) | ReaderTurn(reader: nat)

  function Initial<W>(words: seq<W>): World<W> {
    World(0, words, WriterIdle, map[], [words])
  }

  function Version<W>(w: World<W>): nat
    requires w.published != []
  {
    |w.published| - 1
  }

  /** One atomic step of `publish(values)`; when idle, its first increment. */
  function WriterStep<W>(w: World<W>, values: seq<W>): World<W> {
    match w.writer
    case WriterIdle =>
      if |values| != |w.words| then w
      else w.(sequence := w.sequence + 1, writer := Storing(values, 0))
    case Storing(storing, next) =>
      if next < |w.words| && next < |storing|
      then w.(words := w.words[next := storing[next]], writer := Storing(storing, next + 1))
      else w.(sequence := w.sequence + 1, writer := WriterIdle, published := w.published + [storing])
  }

  function ReaderOf<W>(w: World<W>, reader: nat): Reader<W> {
    if reader in w.readers then w.readers[reader] else ReaderIdle
  }

  function Retry<W>(attempt: nat, since: nat): Reader<W> {
    if attempt + 1 < ATTEMPTS then LoadSequence(attempt + 1, since) else Busy
  }

  /** One atomic step of a read; when idle or finished, the start of a new one. */
  function ReaderMove<W>(w: World<W>, r: Reader<W>): Reader<W>
    requires w.published != []
  {
    match r
    case LoadSequence(attempt, since) =>
      if w.sequence % 2 != 0 then Retry(attempt, since) else LoadWords(attempt, w.sequence, [], since)
    case LoadWords(attempt, sequence, words, since) =>
      if |words| < |w.words| then LoadWords(attempt, sequence, words + [w.words[|words|]], since)
      else CheckSequence(attempt, sequence, words, since)
    case CheckSequence(attempt, sequence, words, since) =>
      if w.sequence != sequence then Retry(attempt, since) else Coherent(words, sequence / 2, since)
    case _ => LoadSequence(0, Version(w))
  }

  function ReaderStep<W>(w: World<W>, reader: nat): World<W>
    requires w.published != []
  {
    w.(readers := w.readers[reader := ReaderMove(w, ReaderOf(w, reader))])
  }

  // ----- the invariant -----

  ghost predicate WriterInv<W>(w: World<W>) {
    && w.published != []
    && (forall i | 0 <= i < |w.published| :: |w.published[i]| == |w.words|)
    && match w.writer
       case WriterIdle => w.sequence == 2 * Version(w) && w.words == w.published[Version(w)]
       case Storing(values, next) =>
         && w.sequence == 2 * Version(w) + 1
         && |values| == |w.words| && next <= |values|
         && w.words == values[..next] + w.published[Version(w)][next..]
  }

  ghost predicate ReaderInv<W>(w: World<W>, r: Reader<W>)
    requires WriterInv(w)
  {
    match r
    case ReaderIdle => true
    case Busy => true
    case LoadSequence(attempt, since) => attempt < ATTEMPTS && since <= Version(w)
    case LoadWords(attempt, sequence, words, since) => attempt < ATTEMPTS && Collected(w, sequence, words, since)
    case CheckSequence(attempt, sequence, words, since) =>
      attempt < ATTEMPTS && Collected(w, sequence, words, since) && |words| == |w.words|
    case Coherent(words, version, since) =>
      since <= version <= Version(w) && words == w.published[version]
  }

  /** Words loaded since an even sequence number are those of that version while the number stands. */
  ghost predicate Collected<W>(w: World<W>, sequence: nat, words: seq<W>, since: nat)
    requires WriterInv(w)
  {
    && sequence % 2 == 0 && sequence <= w.sequence
    && since <= sequence / 2 <= Version(w)
    && |words| <= |w.words|
    && (sequence == w.sequence ==> words == w.published[sequence / 2][..|words|])
  }

  ghost predicate Inv<W>(w: World<W>) {
    && WriterInv(w)
    && (forall id | id in w.readers :: ReaderInv(w, w.readers[id]))
  }

  ghost function Step<W>(w: World<W>, event: Event<W>): World<W>
    requires w.published != []
  {
    match event
    case WriterTurn(values) => WriterStep(w, values)
    case ReaderTurn(reader) => ReaderStep(w, reader)
  }

  lemma WriterStepKeepsReader<W>(w: World<W>, values: seq<W>, r: Reader<W>)
    requires WriterInv(w) && ReaderInv(w, r)
    ensures WriterInv(WriterStep(w, values)) && ReaderInv(WriterStep(w, values), r)
  {
  }

  lemma ReaderMoveKeepsInv<W>(w: World<W>, r: Reader<W>)
    requires WriterInv(w) && ReaderInv(w, r)
    ensures ReaderInv(w, ReaderMove(w, r))
  {
  }

  lemma StepKeepsInv<W>(w: World<W>, event: Event<W>)
    requires Inv(w)
    ensures Inv(Step(w, event))
  {
    match event
    case WriterTurn(values) =>
      WriterStepKeepsReader(w, values, ReaderIdle);
      forall id | id in w.readers
        ensures ReaderInv(WriterStep(w, values), w.readers[id])
      {
        WriterStepKeepsReader(w, values, w.readers[id]);
      }
    case ReaderTurn(reader) =>
      var next := ReaderStep(w, reader);
      ReaderMoveKeepsInv(w, ReaderOf(w, reader));
      forall id | id in next.readers
        ensures ReaderInv(next, next.readers[id])
      {
        assert id == reader || next.readers[id] == w.readers[id];
      }
  }

  /** The state after an interleaving of one writer and any readers. */
  ghost function Run<W>(w: World<W>, events: seq<Event<W>>): World<W>
    requires w.published != []
    decreases |events|
  {
    if events == [] then w else Run(Step(w, events[0]), events[1..])
  }

  lemma {:induction false} RunKeepsInv<W>(w: World<W>, events: seq<Event<W>>)
    requires Inv(w)
    ensures Inv(Run(w, events)) && |Run(w, events).words| == |w.words|
    decreases |events|
  {
    if events != [] {
      StepKeepsInv(w, events[0]);
      RunKeepsInv(Step(w, events[0]), events[1..]);
    }
  }

  // ----- what a reader may rely on -----

  /** Snapshots are only ever appended. */
  lemma {:induction false} PublishedGrows<W>(w: World<W>, events: seq<Event<W>>)
    requires Inv(w)
    ensures w.published <= Run(w, events).published
    decreases |events|
  {
    if events != [] {
      StepKeepsInv(w, events[0]);
      PublishedGrows(Step(w, events[0]), events[1..]);
    }
  }

  /** In every interleaving, a successful read returns all the words of exactly one published snapshot
      (or of the initial state), never a mixture, and that snapshot was current at some instant between
      the start and the end of the read. */
  lemma ReadsAreCoherent<W>(words: seq<W>, events: seq<Event<W>>, reader: nat)
    ensures var w := Run(Initial(words), events);
            var read := ReaderOf(w, reader);
            read.Coherent? ==>
              && w.published != [] && w.published[0] == words
              && read.since <= read.version <= Version(w)
              && read.words == w.published[read.version]
  {
    InitialInv(words);
    RunKeepsInv(Initial(words), events);
    PublishedGrows(Initial(words), events);
  }

  lemma InitialInv<W>(words: seq<W>)
    ensures Inv(Initial(words))
  {
  }

  /** The version a coherent read reports was the current one at the very step that loaded its sequence
      number: that step saw no store in progress. */
  lemma VersionIsCurrentWhenLoaded<W>(w: World<W>, reader: nat)
    requires Inv(w) && ReaderOf(w, reader).LoadSequence?
    requires ReaderOf(ReaderStep(w, reader), reader).LoadWords?
    ensures w.writer.WriterIdle? && w.words == w.published[Version(w)]
    ensures ReaderOf(ReaderStep(w, reader), reader).sequence / 2 == Version(w)
  {
  }

  /** What all attempts from `attempt` on can take, at `each` steps. */
  ghost function Attempts(attempt: nat, each: nat): nat
    decreases ATTEMPTS - attempt
  {
    if attempt < ATTEMPTS then each + Attempts(attempt + 1, each) else 0
  }

  /** Steps left before a read ends, whatever the writer does. */
  ghost function Left<W>(r: Reader<W>, wordCount: nat): int {
    match r
    case LoadSequence(attempt, _) => Attempts(attempt, wordCount + 3)
    case LoadWords(attempt, _, words, _) => Attempts(attempt, wordCount + 3) - 1 - |words|
    case CheckSequence(attempt, _, _, _) => Attempts(attempt + 1, wordCount + 3) + 1
    case _ => 0
  }

  /** A read never waits for the writer: every one of its steps brings it closer to a result, so it ends
      within three passes over the words, coherent or `Busy`. */
  lemma ReadsAreBounded<W>(w: World<W>, reader: nat)
    requires Inv(w)
    requires ReaderOf(w, reader).LoadSequence? || ReaderOf(w, reader).LoadWords? || ReaderOf(w, reader).CheckSequence?
    ensures 0 <= Left(ReaderOf(ReaderStep(w, reader), reader), |w.words|) < Left(ReaderOf(w, reader), |w.words|)
    ensures Left(ReaderOf(w, reader), |w.words|) <= 3 * (|w.words| + 3)
  {
    var r := ReaderOf(w, reader);
    assert r.attempt == 0 || r.attempt == 1 || r.attempt == 2;
  }

  ghost function ReaderTurns<W>(w: World<W>, reader: nat, steps: nat): World<W>
    requires w.published != []
    decreases steps
  {
    if steps == 0 then w else ReaderTurns(ReaderStep(w, reader), reader, steps - 1)
  }

  lemma {:induction false} LoadsAlone<W>(w: World<W>, reader: nat)
    requires Inv(w) && w.writer.WriterIdle? && ReaderOf(w, reader).LoadWords?
    requires ReaderOf(w, reader).sequence == w.sequence
    ensures var r := ReaderOf(w, reader);
            ReaderOf(ReaderTurns(w, reader, |w.words| - |r.words| + 2), reader)
              == Coherent(w.words, Version(w), r.since)
    decreases |w.words| - |ReaderOf(w, reader).words|
  {
    var r := ReaderOf(w, reader);
    var next := ReaderStep(w, reader);
    StepKeepsInv(w, ReaderTurn(reader));
    if |r.words| < |w.words| {
      LoadsAlone(next, reader);
    } else {
      assert r.words == w.words;
      assert ReaderTurns(w, reader, 2) == ReaderTurns(next, reader, 1) == ReaderTurns(ReaderStep(next, reader), reader, 0);
    }
  }

  /** With the writer idle, the first attempt succeeds and returns the current words. */
  lemma ReadAlone<W>(w: World<W>, reader: nat)
    requires Inv(w) && w.writer.WriterIdle? && ReaderOf(w, reader).LoadSequence?
    ensures ReaderOf(ReaderTurns(w, reader, |w.words| + 3), reader)
              == Coherent(w.words, Version(w), ReaderOf(w, reader).since)
  {
    StepKeepsInv(w, ReaderTurn(reader));
    LoadsAlone(ReaderStep(w, reader), reader);
  }

  // ----- a disturbed read -----

  /** What the read has loaded so far is out of date. */
  ghost predicate Disturbed<W>(w: World<W>, r: Reader<W>) {
    (r.LoadWords? || r.CheckSequence?) && r.sequence != w.sequence
  }

  /** Steps to the end of a read with the writer idle from now on. */
  ghost function StepsToEnd<W>(w: World<W>, r: Reader<W>): nat {
    match r
    case LoadSequence(_, _) => |w.words| + 3
    case LoadWords(_, sequence, words, _) =>
      (if |words| < |w.words| then |w.words| - |words| else 0) + 2 + (if Disturbed(w, r) then |w.words| + 3 else 0)
    case CheckSequence(_, sequence, _, _) => 1 + (if Disturbed(w, r) then |w.words| + 3 else 0)
    case _ => 0
  }

  /** A read that the writer has disturbed is not lost: in its first and second attempt it tries again, and with the writer
      idle from then on it returns the current words. A third attempt that was disturbed is the last. */
  lemma {:induction false} DisturbedReadRecovers<W>(w: World<W>, reader: nat)
    requires Inv(w) && w.writer.WriterIdle?
    requires var r := ReaderOf(w, reader); r.LoadSequence? || r.LoadWords? || r.CheckSequence?
    ensures var r := ReaderOf(w, reader);
            ReaderOf(ReaderTurns(w, reader, if r.attempt == 2 && Disturbed(w, r) then StepsToEnd(w, r) - |w.words| - 3
                                            else StepsToEnd(w, r)), reader)
              == if r.attempt == 2 && Disturbed(w, r) then Busy else Coherent(w.words, Version(w), r.since)
    decreases StepsToEnd(w, ReaderOf(w, reader))
  {
    var r := ReaderOf(w, reader);
    var next := ReaderStep(w, reader);
    var steps := if r.attempt == 2 && Disturbed(w, r) then StepsToEnd(w, r) - |w.words| - 3 else StepsToEnd(w, r);
    StepKeepsInv(w, ReaderTurn(reader));
    assert ReaderInv(w, r);
    assert ReaderTurns(w, reader, steps) == ReaderTurns(next, reader, steps - 1);
    if r.CheckSequence? && (!Disturbed(w, r) || r.attempt == 2) {
      assert ReaderTurns(next, reader, 0) == next;
    } else {
      DisturbedReadRecovers(next, reader);
    }
  }

  /** A read gives up only in its third attempt, after a store was under way or completed during each of the three. */
  lemma GivesUpAfterThreeAttempts<W>(w: World<W>, reader: nat)
    requires Inv(w)
    ensures var r, next := ReaderOf(w, reader), ReaderOf(ReaderStep(w, reader), reader);
            var interfered := (r.LoadSequence? && !w.writer.WriterIdle?) || (r.CheckSequence? && Disturbed(w, r));
            && (next.Busy? <==> interfered && r.attempt == 2)
            && (interfered && r.attempt < 2 ==> next == LoadSequence(r.attempt + 1, r.since))
            && (r.LoadWords? || ((r.LoadSequence? || r.CheckSequence?) && !interfered) ==>
                  next.Coherent? || next.attempt == r.attempt)
            && (r.ReaderIdle? || r.Coherent? || r.Busy? ==> next == LoadSequence(0, Version(w)))
  {
    assert ReaderInv(w, ReaderOf(w, reader));
  }
}
