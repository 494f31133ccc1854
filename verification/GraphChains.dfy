/** The compiled graph of a whole chain means the chain (rust/core/src/ffmpeg_graph.rs:77-281). */
module GraphChains {
  import opened Wrappers
  import opened FilterGraph
  import opened StageOrder
  import opened GraphCompiler
  import opened GraphRuns

  /** Which labels may have been produced once the serial number has reached `serial`. */
  ghost predicate Below(produced: set<Label>, serial: nat, banded: bool) {
    forall each | each in produced ::
      || each.In?
      || (each.Serial? && each.n < serial)
      || (each.Part? && each.n <= serial)
      || (each.Band? && banded)
  }

  /** The graph so far is well wired and carries `x` on its one open link. */
  ghost predicate Reaches(graph: seq<Node>, current: Label, serial: nat, banded: bool, x: Signal) {
    match Run(graph, START)
    case None => false
    case Some(wires) => wires.waiting == map[current := x] && Below(wires.produced, serial, banded)
  }

  /** A piece of graph that turns `x` on `input` into `y` on `output`, whatever was produced below `serial`. */
  ghost predicate Delivers(
    nodes: seq<Node>, produced: set<Label>, input: Label, x: Signal, output: Label, y: Signal, serial: nat, banded: bool)
  {
    match Run(nodes, Wires(produced, map[input := x]))
    case None => false
    case Some(wires) => wires.waiting == map[output := y] && Below(wires.produced, serial, banded)
  }

  lemma Extend(
      graph: seq<Node>, nodes: seq<Node>, current: Label, serial: nat, x: Signal, next: Label, y: Signal, banded: bool,
      serial': nat, banded': bool)
    requires Reaches(graph, current, serial, banded, x)
    requires Delivers(nodes, Run(graph, START).value.produced, current, x, next, y, serial', banded')
    ensures Reaches(graph + nodes, next, serial', banded', y)
  {
    RunAppend(graph, nodes, START);
  }

  lemma UnaryDelivers(input: Label, filters: seq<Filter>, serial: nat, banded: bool, produced: set<Label>, x: Signal, y: Signal)
    requires Below(produced, serial, banded) && ApplyAll(filters, [x]) == Some([y])
    ensures Delivers([Unary(input, filters, Serial(serial))], produced, input, x, Serial(serial), y, serial + 1, banded)
  {
    UnaryRuns(input, filters, Serial(serial), produced, x, y);
    RunOne(Unary(input, filters, Serial(serial)), Wires(produced, map[input := x]));
  }

  lemma SidechainDelivers(
      input: Label, serial: nat, sidechain: Sidechain, filters: seq<Filter>, produced: set<Label>, x: Signal, y: Signal)
    requires Below(produced, serial, false) && ApplyAll(filters, [x, Detector(sidechain, x)]) == Some([y])
    ensures Delivers(SidechainNodes(input, Serial(serial), serial + 1, sidechain, filters), produced, input, x,
                     Serial(serial), y, serial + 1, false)
  {
    SidechainRuns(input, Serial(serial), serial + 1, sidechain, filters, produced, x, y);
  }

  lemma ThreeBandDelivers(
      input: Label, serial: nat, bands: Bands, detection: Detection, produced: set<Label>, x: Signal)
    requires Below(produced, serial, false)
    ensures Delivers(ThreeBandNodes(input, Serial(serial), serial + 1, bands, detection), produced, input, x,
                     Serial(serial), ThreeBandEffect(bands, detection, x), serial + 1, false)
  {
    ThreeBandRuns(input, Serial(serial), serial + 1, bands, detection, produced, x);
  }

  lemma StageDelivers(stages: Stages, stage: Stage, input: Label, serial: nat, produced: set<Label>, x: Signal)
    requires Below(produced, serial, false)
    ensures Delivers(StageNodes(stages, stage, input, Serial(serial), serial + 1), produced, input, x,
                     Serial(serial), StageEffect(stages, stage, x), serial + 1, false)
  {
    var y := StageEffect(stages, stage, x);
    match stage {
      case Equalizer =>
        var bass, bell, treble := Bass(stages.equalizer.low), Bell(stages.equalizer.mid), Treble(stages.equalizer.high);
        ApplyThree(bass, bell, treble, [x], [Filtered(bass, x)], [Filtered(bell, Filtered(bass, x))]);
        UnaryDelivers(input, [bass, bell, treble], serial, false, produced, x, y);
      case Deesser =>
        ApplyOne(DynamicEqualizer(stages.deesser), [x]);
        UnaryDelivers(input, [DynamicEqualizer(stages.deesser)], serial, false, produced, x, y);
      case Agc =>
        var joined := Combined(FilterGraph.Join, x, x);
        ApplyThree(FilterGraph.Join, Ladspa(stages.agc), Mono, [x, x], [joined], [Filtered(Ladspa(stages.agc), joined)]);
        SidechainDelivers(input, serial, Sidechain(0.0, 0.0), [FilterGraph.Join, Ladspa(stages.agc), Mono], produced, x, y);
      case Expander =>
        ApplyOne(SidechainGate(stages.gate), [x, Detector(stages.gateSidechain, x)]);
        SidechainDelivers(input, serial, stages.gateSidechain, [SidechainGate(stages.gate)], produced, x, y);
      case Compressor =>
        var c := stages.compressor;
        if c.layout == ThreeBand {
          ThreeBandDelivers(input, serial, c.bands, Rms, produced, x);
        } else {
          var gate, makeup := SidechainCompress(c.full.curve), Volume(c.full.makeupGainDb);
          var d := Detector(c.sidechain, x);
          ApplyTwo(gate, makeup, [x, d], [Combined(gate, x, d)]);
          SidechainDelivers(input, serial, c.sidechain, [gate, makeup], produced, x, y);
        }
      case Limiter =>
        if stages.limiter.layout == ThreeBand {
          ThreeBandDelivers(input, serial, stages.limiter.bands, Peak, produced, x);
        } else {
          ApplyOne(Compress(stages.limiter.full.curve, Peak), [x]);
          UnaryDelivers(input, [Compress(stages.limiter.full.curve, Peak)], serial, false, produced, x, y);
        }
    }
  }

  lemma BandpassDelivers(input: Label, serial: nat, highpassHz: real, lowpassHz: real, produced: set<Label>, x: Signal)
    requires Below(produced, serial, false)
    ensures Delivers(BandpassNodes(input, Serial(serial), Cln, highpassHz, lowpassHz), produced, input, x,
                     Serial(serial), BandpassEffect(highpassHz, lowpassHz, x), serial + 1, true)
  {
    BandpassRuns(input, Serial(serial), Cln, highpassHz, lowpassHz, produced, x);
  }

  function PeakFilters(limiter: PeakLimiter, rateHz: int): seq<Filter> {
    if limiter.oversample > 1 then [Resample(rateHz * limiter.oversample), PeakLimit(limiter.settings), Resample(rateHz)]
    else [PeakLimit(limiter.settings)]
  }

  lemma PeakApplies(limiter: PeakLimiter, rateHz: int, x: Signal)
    requires limiter.enabled
    ensures ApplyAll(PeakFilters(limiter, rateHz), [x]) == Some([PeakEffect(limiter, rateHz, x)])
  {
    var up, limit, down := Resample(rateHz * limiter.oversample), PeakLimit(limiter.settings), Resample(rateHz);
    ApplyOne(limit, [x]);
    ApplyThree(up, limit, down, [x], [Filtered(up, x)], [Filtered(limit, Filtered(up, x))]);
  }

  /** The last node hands the open link on to `out`. */
  lemma Finish(graph: seq<Node>, current: Label, serial: nat, banded: bool, x: Signal)
    requires Reaches(graph, current, serial, banded, x)
    ensures Computes(graph + [Unary(current, [Anull], Out)], x)
  {
    var wires := Run(graph, START).value;
    RunAppend(graph, [Unary(current, [Anull], Out)], START);
    ApplyOne(Anull, [x]);
    UnaryRuns(current, [Anull], Out, wires.produced, x, x);
    RunOne(Unary(current, [Anull], Out), wires);
  }

  lemma Begin()
    ensures Reaches([], In, 0, false, Source)
  {
  }

  // ----- the compiler -----

  class Emitter {
    var graph: seq<Node>
    var current: Label
    var serial: nat
    ghost var banded: bool
    ghost var signal: Signal

    ghost predicate Valid()
      reads this
    {
      Reaches(graph, current, serial, banded, signal)
    }

    constructor ()
      ensures Valid() && signal == Source && !banded
    {
      graph, current, serial, banded, signal := [], In, 0, false, Source;
      new;
      Begin();
    }

    method AppendUnary(filters: seq<Filter>, ghost y: Signal)
      requires Valid() && ApplyAll(filters, [signal]) == Some([y])
      modifies this
      ensures Valid() && signal == y && banded == old(banded)
    {
      var next := Serial(serial);
      UnaryDelivers(current, filters, serial, banded, Run(graph, START).value.produced, signal, y);
      Extend(graph, [Unary(current, filters, next)], current, serial, signal, next, y, banded, serial + 1, banded);
      graph := graph + [Unary(current, filters, next)];
      current, serial, signal := next, serial + 1, y;
    }

    method AppendGain(gainDb: real)
      requires Valid()
      modifies this
      ensures Valid() && signal == Gain(gainDb, old(signal)) && banded == old(banded)
    {
      if gainDb != 0.0 {
        ApplyOne(Volume(gainDb), [signal]);
        AppendUnary([Volume(gainDb)], Filtered(Volume(gainDb), signal));
      }
    }

    method AppendStage(stages: Stages, stage: Stage)
      requires Valid() && !banded
      modifies this
      ensures Valid() && !banded && signal == StageEffect(stages, stage, old(signal))
    {
      var next := Serial(serial);
      var nodes := StageNodes(stages, stage, current, next, serial + 1);
      ghost var y := StageEffect(stages, stage, signal);
      StageDelivers(stages, stage, current, serial, Run(graph, START).value.produced, signal);
      Extend(graph, nodes, current, serial, signal, next, y, false, serial + 1, false);
      graph := graph + nodes;
      current, serial, signal := next, serial + 1, y;
    }

    method AppendBandpass(highpassHz: real, lowpassHz: real)
      requires Valid() && !banded
      modifies this
      ensures Valid() && signal == BandpassEffect(highpassHz, lowpassHz, old(signal))
    {
      var next := Serial(serial);
      var nodes := BandpassNodes(current, next, Cln, highpassHz, lowpassHz);
      ghost var y := BandpassEffect(highpassHz, lowpassHz, signal);
      BandpassDelivers(current, serial, highpassHz, lowpassHz, Run(graph, START).value.produced, signal);
      Extend(graph, nodes, current, serial, signal, next, y, false, serial + 1, true);
      graph := graph + nodes;
      current, serial, banded, signal := next, serial + 1, true, y;
    }

    method AppendPeakLimiter(limiter: PeakLimiter, rateHz: int)
      requires Valid()
      modifies this
      ensures Valid() && signal == PeakEffect(limiter, rateHz, old(signal))
    {
      if limiter.enabled {
        var filters := [PeakLimit(limiter.settings)];
        if limiter.oversample > 1 {
          filters := [Resample(rateHz * limiter.oversample)] + filters + [Resample(rateHz)];
        }
        PeakApplies(limiter, rateHz, signal);
        assert filters == PeakFilters(limiter, rateHz);
        AppendUnary(filters, PeakEffect(limiter, rateHz, signal));
      }
    }

    /** The switched-on stages, in the configured order. */
    method AppendStages(chain: Chain)
      requires Valid() && !banded && chain.enabled
      modifies this
      ensures Valid() && !banded && signal == Composed(chain.stages, AppliedStages(chain), old(signal))
    {
      for i := 0 to |chain.order|
        invariant Valid() && !banded
        invariant Composed(chain.stages, Applied(chain.order[i..], chain.switches), signal)
                    == Composed(chain.stages, AppliedStages(chain), old(signal))
      {
        NextApplied(chain.order, chain.switches, i, chain.stages, signal);
        if !chain.switches(chain.order[i]) {
          continue;
        }
        AppendStage(chain.stages, chain.order[i]);
      }
    }
  }

  lemma NextApplied(order: seq<Stage>, switches: Switches, i: nat, stages: Stages, x: Signal)
    requires i < |order|
    ensures Composed(stages, Applied(order[i..], switches), x)
              == Composed(stages, Applied(order[i + 1..], switches),
                          if switches(order[i]) then StageEffect(stages, order[i], x) else x)
  {
    var rest := Applied(order[i + 1..], switches);
    assert order[i..][0] == order[i] && order[i..][1..] == order[i + 1..];
    assert ([order[i]] + rest)[1..] == rest && [] + rest == rest;
  }

  /** The compiler refuses exactly the chains whose crossover the sample rate cannot carry; any other chain becomes a
      well-wired graph that computes what the chain means. */
  method OrderedChain(chain: Chain, request: Request) returns (result: Result<seq<Node>, GraphError>)
    ensures result == Err(CrossoverAboveNyquist) <==>
              && chain.enabled
              && var compressor, limiter := chain.stages.compressor, chain.stages.limiter;
                 || (chain.switches(Compressor) && compressor.layout == ThreeBand
                     && 2.0 * compressor.bands.highHz >= request.rateHz as real)
                 || (chain.switches(Limiter) && limiter.layout == ThreeBand
                     && 2.0 * limiter.bands.highHz >= request.rateHz as real)
    ensures result.Err? ==> result.error == CrossoverAboveNyquist
    ensures result.Ok? ==> Computes(result.value, Meaning(chain, request))
    ensures Meaning(chain, request) ==
              var raised := if chain.role == LocalReceive && !request.transmitTail then Gain(0.0, Source)
                            else Gain(chain.inputGainDb, Source);
              var staged := if chain.enabled then Composed(chain.stages, Applied(chain.order, chain.switches), raised)
                            else raised;
              var emphasised := if request.transmitTail && request.preemphasis
                                then Filtered(Preemphasis(request.cornerHz), staged) else staged;
              var levelled := Gain(chain.outputGainDb, emphasised);
              var banded := if request.transmitTail && chain.tail.enabled
                            then BandpassEffect(chain.tail.highpassHz, chain.tail.lowpassHz, levelled) else levelled;
              PeakEffect(chain.peakLimiter, request.rateHz, banded)
  {
    if Rejected(chain, request.rateHz) {
      return Err(CrossoverAboveNyquist);
    }
    var emitter := new Emitter();
    emitter.AppendGain(if request.transmitTail || chain.role != LocalReceive then chain.inputGainDb else 0.0);
    if chain.enabled {
      emitter.AppendStages(chain);
    }
    ghost var staged := emitter.signal;
    assert staged == Composed(chain.stages, AppliedStages(chain), Gain(InputGainDb(chain, request), Source));
    if request.transmitTail && request.preemphasis {
      ApplyOne(Preemphasis(request.cornerHz), [emitter.signal]);
      emitter.AppendUnary([Preemphasis(request.cornerHz)], Filtered(Preemphasis(request.cornerHz), emitter.signal));
    }
    emitter.AppendGain(chain.outputGainDb);
    if request.transmitTail && chain.tail.enabled {
      emitter.AppendBandpass(chain.tail.highpassHz, chain.tail.lowpassHz);
    }
    emitter.AppendPeakLimiter(chain.peakLimiter, request.rateHz);
    assert emitter.signal == Tail(chain, request, staged);
    Finish(emitter.graph, emitter.current, emitter.serial, emitter.banded, emitter.signal);
    return Ok(emitter.graph + [Unary(emitter.current, [Anull], Out)]);
  }

  /** Local and link dynamics at a given rate (ffmpeg_graph.rs:150-164). */
  method DynamicsAtRate(chain: Chain, rateHz: int) returns (result: Result<seq<Node>, GraphError>)
    ensures result.Ok? <==> 8_000 <= rateHz <= 384_000 && !Rejected(chain, rateHz)
    ensures result.Ok? ==>
              Computes(result.value,
                PeakEffect(chain.peakLimiter, rateHz,
                  Gain(chain.outputGainDb,
                    Composed(chain.stages, AppliedStages(chain),
                      if chain.role == LocalReceive then Source else Gain(chain.inputGainDb, Source)))))
  {
    if !(8_000 <= rateHz <= 384_000) {
      return Err(InvalidSampleRate);
    }
    result := OrderedChain(chain, Request(false, false, 0.0, rateHz));
  }
}
