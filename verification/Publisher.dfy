/** Receive publication (rust/asl3/src/adapter.rs:311-409): native audio in blocks of any size becomes one controller
    frame for every 960 native samples. */
module Publisher {
  import opened Wrappers
  import opened Pcm
  import opened StatusJournal
  import opened Delivery
  import DeliveryTheorems

  const NATIVE_FRAME := 960

  datatype Metadata = Metadata(qualification: Qualification, ctcss: Option<nat>, statuses: seq<Option<Status>>)

  datatype AdapterError =
    | InvalidNativeFrame
    | SampleRate
    | ConversionStalled
    | InvalidConversionResult
    | PcmBoundary(error: PcmError)

  /** The buffer a converter writes into. */
  type Converted = buffer: seq<Float> | |buffer| == NATIVE_FRAME witness seq(NATIVE_FRAME, _ => NonFinite)

  /** One answer of the sample-rate converter: how much input it used and how much it says it wrote, with the buffer. */
  datatype Conversion = ConversionFailed | Progress(used: nat, generated: nat, output: Converted)

  /** The frame for native samples `from..from + 960`, silent while the receiver is unkeyed. */
  function AdvancedFrame(stream: seq<Float>, from: nat, keyed: bool): Frame
    requires from + NATIVE_FRAME <= |stream|
  {
    Frame(Advanced, if keyed then QuantiseAll(stream[from..from + NATIVE_FRAME]) else Silence(NATIVE_FRAME))
  }

  /** A packet as a block with this metadata completes it. */
  ghost predicate Describes(packet: Packet, metadata: Metadata, journal: Journal) {
    packet.qualification == metadata.qualification && packet.ctcss == metadata.ctcss && packet.journal == journal
  }

  /** At most one packet more, completed by this block. */
  ghost predicate Extends(after: seq<Packet>, before: seq<Packet>, completed: bool, metadata: Metadata, journal: Journal) {
    if completed then |after| == |before| + 1 && after[..|before|] == before && Describes(after[|before|], metadata, journal)
    else after == before
  }

  lemma QuantiseAppend(a: seq<Float>, b: seq<Float>)
    ensures QuantiseAll(a + b) == QuantiseAll(a) + QuantiseAll(b)
  {
  }

  /** The stream once `offset` samples of the block have been accepted. */
  ghost function Accepted(stream: seq<Float>, native: seq<Float>, offset: nat): seq<Float>
    requires offset <= |native|
  {
    stream + native[..offset]
  }

  lemma StreamGrows(stream: seq<Float>, native: seq<Float>, offset: nat, count: nat)
    requires offset + count <= |native|
    ensures Accepted(stream, native, 0) == stream
    ensures Accepted(stream, native, offset) + native[offset..offset + count] == Accepted(stream, native, offset + count)
  {
  }

  lemma AllAccepted(stream: seq<Float>, native: seq<Float>)
    ensures Accepted(stream, native, |native|) == stream + native
    ensures Accepted(stream, native, 0) == stream
  {
  }

  // ----- conversion to 8 kHz -----

  /** Why an answer is refused, with `left` samples of the span to convert and `queued` in the assembler. */
  function Fault(answer: Conversion, left: nat, queued: nat): Option<AdapterError> {
    if answer.ConversionFailed? then Some(SampleRate)
    else if answer.used > left || answer.generated > NATIVE_FRAME then Some(InvalidConversionResult)
    else if answer.used == 0 && answer.generated == 0 then Some(ConversionStalled)
    else if queued + answer.generated > ASSEMBLY_CAPACITY then Some(PcmBoundary(AssemblyOverflow))
    else None
  }

  /** What an answer adds to the assembler. */
  function Output(answer: Conversion): (samples: seq<int>)
    ensures answer.Progress? && answer.generated <= NATIVE_FRAME ==> |samples| == answer.generated
  {
    if answer.Progress? && answer.generated <= NATIVE_FRAME then QuantiseAll(answer.output[..answer.generated]) else []
  }

  /** How a conversion ends: its result, the number of the next answer, and what is queued. */
  datatype Conclusion = Conclusion(result: Result<(), AdapterError>, asked: nat, queued: seq<int>)

  /** Asks for answers until the span is used up or one is refused; it ends, because an answer without progress is refused
      and the assembler is bounded. */
  function Convert(converter: nat -> Conversion, asked: nat, left: nat, queued: seq<int>): (end: Conclusion)
    requires |queued| <= ASSEMBLY_CAPACITY
    decreases left + (ASSEMBLY_CAPACITY - |queued|)
  {
    if left == 0 then Conclusion(Ok(()), asked, queued)
    else
      var answer := converter(asked);
      match Fault(answer, left, |queued|)
      case Some(error) => Conclusion(Err(error), asked + 1, queued)
      case None => Convert(converter, asked + 1, left - answer.used, queued + Output(answer))
  }

  /** Of the answers with numbers `from..limit`: the input they used and the samples they wrote. */
  function UsedBy(converter: nat -> Conversion, from: nat, limit: nat): nat
    decreases limit - from
  {
    if from >= limit then 0
    else (if converter(from).Progress? then converter(from).used else 0) + UsedBy(converter, from + 1, limit)
  }

  function WrittenBy(converter: nat -> Conversion, from: nat, limit: nat): seq<int>
    decreases limit - from
  {
    if from >= limit then [] else Output(converter(from)) + WrittenBy(converter, from + 1, limit)
  }

  /** A conversion that succeeds has used exactly its span and queued everything its answers wrote, in order; one that
      fails has queued what the answers before the refused one wrote, and reports why that one was refused. */
  lemma {:induction false} ConversionIsItsAnswers(converter: nat -> Conversion, asked: nat, left: nat, queued: seq<int>)
    requires |queued| <= ASSEMBLY_CAPACITY
    ensures var end := Convert(converter, asked, left, queued);
            match end.result
            case Ok(_) =>
              && asked <= end.asked
              && UsedBy(converter, asked, end.asked) == left
              && end.queued == queued + WrittenBy(converter, asked, end.asked)
            case Err(error) =>
              && asked < end.asked
              && UsedBy(converter, asked, end.asked - 1) < left
              && end.queued == queued + WrittenBy(converter, asked, end.asked - 1)
              && Fault(converter(end.asked - 1), left - UsedBy(converter, asked, end.asked - 1), |end.queued|) == Some(error)
    decreases left + (ASSEMBLY_CAPACITY - |queued|)
  {
    hide Output;
    if left == 0 {
      assert queued + [] == queued;
    } else {
      var answer := converter(asked);
      if Fault(answer, left, |queued|).None? {
        ConversionIsItsAnswers(converter, asked + 1, left - answer.used, queued + Output(answer));
        hide Convert, Fault;
        Regrouped(queued, Output(answer));
      } else {
        assert queued + [] == queued;
      }
    }
  }

  lemma Regrouped(a: seq<int>, b: seq<int>)
    ensures forall c: seq<int> :: a + b + c == a + (b + c)
  {
  }

  class ReceivePublisher {
    const mode: Mode
    const assembler: FrameAssembler
    const quantised: array<int>
    var nativeRemainder: nat
    var statuses: Journal
    /** The frames given to the handoff, oldest first. */
    var published: seq<Packet>
    /** The converter's answers in the order they will be asked for. */
    const converter: nat -> Conversion
    var asked: nat
    /** In advanced mode: the native samples accepted so far. */
    ghost var stream: seq<Float>
    ghost var history: seq<Status>

    ghost predicate Valid()
      reads this, assembler, assembler.samples, quantised
    {
      && assembler.Valid() && assembler.mode == mode && quantised.Length == NATIVE_FRAME
      && quantised != assembler.samples
      && nativeRemainder < NATIVE_FRAME
      && Records(statuses, history)
      && DeliveryTheorems.Built(published, history)
      && (mode == Advanced ==> Framed())
    }

    /** Advanced mode: one frame per 960 samples, and the samples since wait quantised in the assembler. */
    ghost predicate Framed()
      reads this, assembler, assembler.samples
      requires assembler.Valid()
    {
      && |stream| == NATIVE_FRAME * |published| + nativeRemainder
      && assembler.Queued() == QuantiseAll(stream[NATIVE_FRAME * |published|..])
      && (forall k | 0 <= k < |published| :: NATIVE_FRAME * k + NATIVE_FRAME <= |stream|)
      && (forall k | 0 <= k < |published| ::
            published[k].frame == AdvancedFrame(stream, NATIVE_FRAME * k, Keyed(published[k])))
    }

    constructor (mode: Mode, converter: nat -> Conversion)
      ensures Valid() && this.mode == mode && published == [] && stream == [] && nativeRemainder == 0
      ensures fresh(assembler) && fresh(assembler.samples) && fresh(quantised)
    {
      this.mode, this.converter, asked := mode, converter, 0;
      assembler := new FrameAssembler(mode);
      quantised := new int[NATIVE_FRAME](_ => 0);
      nativeRemainder, statuses, published, stream, history := 0, StatusJournal.Empty(), [], [], [];
      new;
      EmptyRecords();
    }

    method Quantised(samples: seq<Float>) returns (result: Result<(), AdapterError>)
      requires assembler.Valid() && |samples| <= quantised.Length && quantised != assembler.samples
      modifies quantised, assembler, assembler.samples
      ensures assembler.Valid()
      ensures old(assembler.count) + |samples| <= ASSEMBLY_CAPACITY ==>
                result == Ok(()) && assembler.Queued() == old(assembler.Queued()) + QuantiseAll(samples)
      ensures old(assembler.count) + |samples| > ASSEMBLY_CAPACITY ==>
                result == Err(PcmBoundary(AssemblyOverflow)) && assembler.Queued() == old(assembler.Queued())
    {
      for i := 0 to |samples|
        invariant assembler.Valid() && assembler.Queued() == old(assembler.Queued())
        invariant assembler.count == old(assembler.count)
        invariant forall j | 0 <= j < i :: quantised[j] == Quantise(samples[j])
      {
        quantised[i] := Quantise(samples[i]);
      }
      assert quantised[..|samples|] == QuantiseAll(samples);
      var appended := assembler.Append(quantised[..|samples|]);
      match appended {
        case Ok(_) => return Ok(());
        case Err(error) => return Err(PcmBoundary(error));
      }
    }

    /** Passes a span on to the assembler: quantised as it is in advanced mode, else through the converter. */
    method ConvertSpan(input: seq<Float>) returns (result: Result<(), AdapterError>)
      requires assembler.Valid() && |input| <= quantised.Length && quantised.Length == NATIVE_FRAME
      requires quantised != assembler.samples
      modifies `asked, quantised, assembler, assembler.samples
      ensures assembler.Valid()
      ensures mode == Advanced && old(assembler.count) + |input| <= ASSEMBLY_CAPACITY ==>
                result == Ok(()) && assembler.Queued() == old(assembler.Queued()) + QuantiseAll(input)
      ensures mode == Advanced && old(assembler.count) + |input| > ASSEMBLY_CAPACITY ==>
                result == Err(PcmBoundary(AssemblyOverflow)) && assembler.Queued() == old(assembler.Queued())
      ensures mode == AppRpt ==>
                Conclusion(result, asked, assembler.Queued())
                  == Convert(converter, old(asked), |input|, old(assembler.Queued()))
    {
      if mode == Advanced {
        result := Quantised(input);
        return;
      }
      var used := 0;
      while used < |input|
        invariant assembler.Valid() && used <= |input|
        invariant Convert(converter, asked, |input| - used, assembler.Queued())
               == Convert(converter, old(asked), |input|, old(assembler.Queued()))
        decreases |input| - used + (ASSEMBLY_CAPACITY - assembler.count)
      {
        var answer := converter(asked);
        asked := asked + 1;
        if answer.ConversionFailed? {
          return Err(SampleRate);
        }
        if answer.used > |input| - used || answer.generated > NATIVE_FRAME {
          return Err(InvalidConversionResult);
        }
        if answer.used == 0 && answer.generated == 0 {
          return Err(ConversionStalled);
        }
        used := used + answer.used;
        result := Quantised(answer.output[..answer.generated]);
        if result.Err? {
          return;
        }
      }
      return Ok(());
    }

    method TakeFrame(keyed: bool) returns (frame: Frame)
      requires assembler.Valid() && assembler.mode == mode
      modifies assembler, assembler.samples
      ensures assembler.Valid() && WellSized(frame) && frame.mode == mode
      ensures frame.samples == if keyed then Padded(old(assembler.Queued()), FrameSamples(mode))
                               else Silence(FrameSamples(mode))
      ensures assembler.Queued() == Behind(old(assembler.Queued()), FrameSamples(mode))
    {
      var samples := new int[FrameSamples(mode)];
      var taken := assembler.TakePadded(samples);
      if !keyed {
        forall i | 0 <= i < samples.Length {
          samples[i] := 0;
        }
      }
      frame := Frame(mode, samples[..]);
    }

    /** One span of at most a frame, counted only if its conversion succeeded. */
    method AcceptSpan(span: seq<Float>) returns (result: Result<(), AdapterError>)
      requires Valid() && nativeRemainder + |span| <= NATIVE_FRAME
      modifies `asked, `stream, `nativeRemainder, quantised, assembler, assembler.samples
      ensures assembler.Valid()
      ensures nativeRemainder == old(nativeRemainder) + (if result.Ok? then |span| else 0)
      ensures mode == Advanced ==> result.Ok? && stream == old(stream) + span && Framed()
    {
      result := ConvertSpan(span);
      if result.Err? {
        return;
      }
      nativeRemainder := nativeRemainder + |span|;
      if mode == Advanced {
        ghost var start := NATIVE_FRAME * |published|;
        QuantiseAppend(stream[start..], span);
        assert (stream + span)[start..] == stream[start..] + span;
        forall k | 0 <= k < |published|
          ensures NATIVE_FRAME * k + NATIVE_FRAME <= |stream|
          ensures AdvancedFrame(stream, NATIVE_FRAME * k, Keyed(published[k]))
               == AdvancedFrame(stream + span, NATIVE_FRAME * k, Keyed(published[k]))
        {
          assert (stream + span)[NATIVE_FRAME * k..NATIVE_FRAME * k + NATIVE_FRAME]
              == stream[NATIVE_FRAME * k..NATIVE_FRAME * k + NATIVE_FRAME];
        }
        stream := stream + span;
      }
    }

    /** A whole native frame has been accepted: one packet, with the journal as it is now. */
    method CompleteFrame(metadata: Metadata)
      requires assembler.Valid() && assembler.mode == mode && nativeRemainder == NATIVE_FRAME
      requires Records(statuses, history) && DeliveryTheorems.Built(published, history)
      requires mode == Advanced ==> Framed()
      modifies `nativeRemainder, `published, assembler, assembler.samples
      ensures assembler.Valid() && nativeRemainder == 0
      ensures DeliveryTheorems.Built(published, history)
      ensures mode == Advanced ==> Framed()
      ensures Extends(published, old(published), true, metadata, statuses)
      ensures var packet := published[|old(published)|]; packet.frame.mode == mode && WellSized(packet.frame)
      ensures mode == AppRpt ==>
                published[|old(published)|].frame.samples
                  == if metadata.qualification.receiverKeyed then Padded(old(assembler.Queued()), APP_RPT_FRAME)
                     else Silence(APP_RPT_FRAME)
    {
      nativeRemainder := 0;
      var frame := TakeFrame(metadata.qualification.receiverKeyed);
      var packet := Packet(frame, metadata.qualification, metadata.ctcss, statuses);
      if mode == Advanced {
        ghost var start := NATIVE_FRAME * |published|;
        assert stream[start..] == stream[start..start + NATIVE_FRAME];
        assert stream[start + NATIVE_FRAME..] == [];
        assert frame == AdvancedFrame(stream, start, Keyed(packet));
      }
      BuiltGrows(published, history, packet);
      hide DeliveryTheorems.Built;
      published := published + [packet];
    }

    /** One turn of the publication loop. */
    method TakeSpan(span: seq<Float>, metadata: Metadata) returns (result: Result<bool, AdapterError>)
      requires Valid() && nativeRemainder + |span| <= NATIVE_FRAME
      modifies `asked, `stream, `nativeRemainder, `published, quantised, assembler, assembler.samples
      ensures Valid()
      ensures result.Err? ==> mode == AppRpt && published == old(published)
      ensures result.Ok? ==>
                && result.value == (old(nativeRemainder) + |span| == NATIVE_FRAME)
                && nativeRemainder == (if result.value then 0 else old(nativeRemainder) + |span|)
                && Extends(published, old(published), result.value, metadata, statuses)
      ensures mode == Advanced ==> stream == old(stream) + span
    {
      var accepted := AcceptSpan(span);
      match accepted {
        case Err(error) => return Err(error);
        case Ok(_) =>
      }
      if nativeRemainder == NATIVE_FRAME {
        CompleteFrame(metadata);
        return Ok(true);
      }
      return Ok(false);
    }

    method RecordStatuses(metadata: Metadata)
      requires Valid()
      modifies `statuses, `history
      ensures Valid() && history == old(history) + Present(metadata.statuses)
    {
      PushAllRecords(statuses, history, metadata.statuses);
      statuses, history := PushAll(statuses, metadata.statuses), history + Present(metadata.statuses);
      BuiltLater(published, old(history), Present(metadata.statuses));
    }

    /** Accepts one native block of 1 to 960 samples. It completes a frame exactly when 960 samples have come together,
        and never more than one. In advanced mode it always succeeds, and by `Framed` frame k holds samples 960k to
        960k + 960 of the whole stream however the stream was cut into blocks. */
    method Publish(native: seq<Float>, metadata: Metadata) returns (result: Result<bool, AdapterError>)
      requires Valid()
      modifies this, quantised, assembler, assembler.samples
      ensures Valid()
      ensures |native| == 0 || |native| > NATIVE_FRAME ==>
                && result == Err(InvalidNativeFrame)
                && published == old(published) && stream == old(stream) && history == old(history)
      ensures 0 < |native| <= NATIVE_FRAME ==> history == old(history) + Present(metadata.statuses)
      ensures mode == Advanced && 0 < |native| <= NATIVE_FRAME ==> result.Ok? && stream == old(stream) + native
      ensures result.Ok? ==>
                var total := old(nativeRemainder) + |native|;
                && result.value == (total >= NATIVE_FRAME)
                && nativeRemainder == (if result.value then total - NATIVE_FRAME else total)
                && Extends(published, old(published), result.value, metadata, statuses)
      ensures result.Err? && published != old(published) ==>
                Extends(published, old(published), true, metadata, statuses)
    {
      if |native| == 0 || |native| > NATIVE_FRAME {
        return Err(InvalidNativeFrame);
      }
      RecordStatuses(metadata);
      AllAccepted(stream, native);
      var offset := 0;
      var completed := false;
      while offset < |native|
        invariant Valid() && offset <= |native|
        invariant nativeRemainder + (|native| - offset)
                    == old(nativeRemainder) + |native| - (if completed then NATIVE_FRAME else 0)
        invariant mode == Advanced ==> stream == Accepted(old(stream), native, offset)
        invariant Extends(published, old(published), completed, metadata, statuses)
        invariant history == old(history) + Present(metadata.statuses)
      {
        var count := if NATIVE_FRAME - nativeRemainder < |native| - offset then NATIVE_FRAME - nativeRemainder
                     else |native| - offset;
        StreamGrows(old(stream), native, offset, count);
        var taken := TakeSpan(native[offset..offset + count], metadata);
        match taken {
          case Err(error) => return Err(error);
          case Ok(frame) => completed := completed || frame;
        }
        offset := offset + count;
      }
      return Ok(completed);
    }
  }

  /** Two publishers that accepted the same native samples, cut into whatever blocks, have published the same number of
      frames, one for each complete 960 samples, and frames that were keyed alike hold the same samples. */
  lemma SplitDoesNotMatter(a: ReceivePublisher, b: ReceivePublisher)
    requires a.Valid() && b.Valid() && a.mode == Advanced && b.mode == Advanced && a.stream == b.stream
    ensures |a.published| == |a.stream| / NATIVE_FRAME == |b.published|
    ensures forall k | 0 <= k < |a.published| ::
              Keyed(a.published[k]) == Keyed(b.published[k]) ==> a.published[k].frame == b.published[k].frame
  {
  }

  /** A packet built from the events so far joins those built before. */
  lemma BuiltGrows(packets: seq<Packet>, history: seq<Status>, packet: Packet)
    requires DeliveryTheorems.Built(packets, history) && Records(packet.journal, history)
    ensures DeliveryTheorems.Built(packets + [packet], history)
  {
    assert history[..|history|] == history;
  }

  /** Packets built before stay built when events are added. */
  lemma BuiltLater(packets: seq<Packet>, history: seq<Status>, more: seq<Status>)
    requires DeliveryTheorems.Built(packets, history)
    ensures DeliveryTheorems.Built(packets, history + more)
  {
  }
}
