/** The seqlock as an object changed in place: one word store, load or sequence operation per turn. */
module SeqlockCells {
  import opened Seqlock

  class Cells<W(0)> {
    var sequence: nat
    const words: array<W>
    var writer: Writer<W>
    var readers: map<nat, Reader<W>>
    ghost var published: seq<seq<W>>

    ghost function View(): World<W>
      reads this, words
    {
      World(sequence, words[..], writer, readers, published)
    }

    ghost predicate Valid()
      reads this, words
    {
      Inv(View())
    }

    constructor (initial: seq<W>)
      ensures Valid() && fresh(words) && View() == Initial(initial)
    {
      sequence := 0;
      words := new W[|initial|](i requires 0 <= i < |initial| => initial[i]);
      writer, readers, published := WriterIdle, map[], [initial];
      new;
      assert words[..] == initial;
      InitialInv(initial);
    }

    /** The next atomic operation of the writer. */
    method WriterTurn(values: seq<W>)
      requires Valid()
      modifies this, words
      ensures Valid() && View() == WriterStep(old(View()), values)
    {
      StepKeepsInv(View(), Event.WriterTurn(values));
      match writer {
        case WriterIdle =>
          if |values| == words.Length {
            sequence, writer := sequence + 1, Storing(values, 0);
          }
        case Storing(storing, next) =>
          if next < words.Length && next < |storing| {
            words[next] := storing[next];
            writer := Storing(storing, next + 1);
          } else {
            sequence, writer := sequence + 1, WriterIdle;
            published := published + [storing];
          }
      }
    }

    /** The next atomic operation of one reader. */
    method ReaderTurn(reader: nat)
      requires Valid()
      modifies this
      ensures Valid() && View() == ReaderStep(old(View()), reader)
    {
      StepKeepsInv(View(), Event.ReaderTurn(reader));
      var current := if reader in readers then readers[reader] else ReaderIdle;
      var next;
      match current {
        case LoadSequence(attempt, since) =>
          next := if sequence % 2 != 0 then Retry(attempt, since) else LoadWords(attempt, sequence, [], since);
        case LoadWords(attempt, seen, loaded, since) =>
          if |loaded| < words.Length {
            next := LoadWords(attempt, seen, loaded + [words[|loaded|]], since);
          } else {
            next := CheckSequence(attempt, seen, loaded, since);
          }
        case CheckSequence(attempt, seen, loaded, since) =>
          next := if sequence != seen then Retry(attempt, since) else Coherent(loaded, seen / 2, since);
        case _ =>
          next := LoadSequence(0, sequence / 2);
      }
      readers := readers[reader := next];
    }

    /** `publish(values)` with no read in between, word by word. */
    method Publish(values: seq<W>)
      requires Valid() && writer.WriterIdle? && |values| == words.Length
      modifies this, words
      ensures Valid() && writer.WriterIdle?
      ensures words[..] == values && sequence == old(sequence) + 2
      ensures published == old(published) + [values] && readers == old(readers)
    {
      WriterTurn(values);
      for next := 0 to words.Length
        invariant Valid() && writer == Storing(values, next)
        invariant sequence == old(sequence) + 1 && published == old(published) && readers == old(readers)
      {
        WriterTurn(values);
      }
      WriterTurn(values);
    }

    /** Performs one interleaving of the writer and any readers. */
    method Execute(events: seq<Event<W>>)
      requires Valid()
      modifies this, words
      ensures Valid() && View() == Run(old(View()), events)
    {
      for i := 0 to |events|
        invariant Valid() && Run(View(), events[i..]) == Run(old(View()), events)
      {
        assert events[i..][0] == events[i] && events[i..][1..] == events[i + 1..];
        match events[i] {
          case WriterTurn(values) => WriterTurn(values);
          case ReaderTurn(reader) => ReaderTurn(reader);
        }
      }
    }
  }
}
