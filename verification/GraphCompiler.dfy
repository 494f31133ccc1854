/** The compiler from a processing chain to a labelled filter graph (rust/core/src/ffmpeg_graph.rs:77-612), and what
    the chain means. */
module GraphCompiler {
  import opened FilterGraph
  import opened StageOrder

  // ----- the processing chain (rust/core/src/processing_profile.rs) -----

  datatype Role = LocalReceive | Link | VoiceTelemetry

  datatype DynamicsBand = DynamicsBand(curve: Curve, makeupGainDb: real)

  datatype Bands = Bands(lowHz: real, highHz: real, low: DynamicsBand, mid: DynamicsBand, high: DynamicsBand)

  datatype Sidechain = Sidechain(highpassHz: real, lowpassHz: real)

  datatype Layout = FullBand | ThreeBand

  datatype Dynamics = Dynamics(layout: Layout, full: DynamicsBand, bands: Bands, sidechain: Sidechain)

  datatype Tone = Tone(low: Shelf, mid: Shelf, high: Shelf)

  datatype Stages = Stages(
    equalizer: Tone, deesser: seq<real>, agc: seq<real>, gate: seq<real>, gateSidechain: Sidechain,
    compressor: Dynamics, limiter: Dynamics)

  datatype Bandpass = Bandpass(enabled: bool, highpassHz: real, lowpassHz: real)

  datatype PeakLimiter = PeakLimiter(enabled: bool, settings: seq<real>, oversample: nat)

  datatype Chain = Chain(
    enabled: bool, role: Role, inputGainDb: real, outputGainDb: real, order: seq<Stage>, switches: Switches,
    stages: Stages, tail: Bandpass, peakLimiter: PeakLimiter)

  datatype GraphError = InvalidSampleRate | CrossoverAboveNyquist | InvalidNotchFrequency

  /** What a caller of the compiler chooses beside the chain. */
  datatype Request = Request(transmitTail: bool, preemphasis: bool, cornerHz: real, rateHz: int)

  // ----- what a chain means -----

  function Detector(sidechain: Sidechain, x: Signal): Signal {
    var high := if sidechain.highpassHz > 0.0 then Filtered(Highpass(sidechain.highpassHz), x) else x;
    if sidechain.lowpassHz > 0.0 then Filtered(Lowpass(sidechain.lowpassHz), high) else high
  }

  function BandEffect(band: DynamicsBand, detection: Detection, x: Signal): Signal {
    var compressed := Filtered(Compress(band.curve, detection), x);
    if band.makeupGainDb != 0.0 then Filtered(Volume(band.makeupGainDb), compressed) else compressed
  }

  function ThreeBandEffect(bands: Bands, detection: Detection, x: Signal): Signal {
    var splitter := Crossover([bands.lowHz, bands.highHz], 4);
    Mixed(BandEffect(bands.low, detection, BandOf(splitter, 0, x)),
          BandEffect(bands.mid, detection, BandOf(splitter, 1, x)),
          BandEffect(bands.high, detection, BandOf(splitter, 2, x)))
  }

  /** What one stage does to a signal. The gain control and the one-band dynamics listen to a filtered copy of the
      signal they act on. */
  function StageEffect(stages: Stages, stage: Stage, x: Signal): Signal {
    match stage
    case Equalizer =>
      Filtered(Treble(stages.equalizer.high), Filtered(Bell(stages.equalizer.mid), Filtered(Bass(stages.equalizer.low), x)))
    case Deesser => Filtered(DynamicEqualizer(stages.deesser), x)
    case Agc => Filtered(Mono, Filtered(Ladspa(stages.agc), Combined(FilterGraph.Join, x, x)))
    case Expander => Combined(SidechainGate(stages.gate), x, Detector(stages.gateSidechain, x))
    case Compressor =>
      var c := stages.compressor;
      if c.layout == ThreeBand then ThreeBandEffect(c.bands, Rms, x)
      else Filtered(Volume(c.full.makeupGainDb), Combined(SidechainCompress(c.full.curve), x, Detector(c.sidechain, x)))
    case Limiter =>
      if stages.limiter.layout == ThreeBand then ThreeBandEffect(stages.limiter.bands, Peak, x)
      else Filtered(Compress(stages.limiter.full.curve, Peak), x)
  }

  /** The stages one after the other, the first one nearest to the input. */
  function Composed(stages: Stages, applied: seq<Stage>, x: Signal): Signal {
    if applied == [] then x else Composed(stages, applied[1..], StageEffect(stages, applied[0], x))
  }

  function Gain(gainDb: real, x: Signal): Signal {
    if gainDb != 0.0 then Filtered(Volume(gainDb), x) else x
  }

  /** An edge of zero leaves that side of the band open. */
  function BandpassEffect(highpassHz: real, lowpassHz: real, x: Signal): Signal {
    var high := if highpassHz == 0.0 then x else BandOf(Crossover([highpassHz], 20), 1, x);
    if lowpassHz == 0.0 then high else BandOf(Crossover([lowpassHz], 20), 0, high)
  }

  function PeakEffect(limiter: PeakLimiter, rateHz: int, x: Signal): Signal {
    if !limiter.enabled then x
    else if limiter.oversample > 1 then
      Filtered(Resample(rateHz), Filtered(PeakLimit(limiter.settings), Filtered(Resample(rateHz * limiter.oversample), x)))
    else Filtered(PeakLimit(limiter.settings), x)
  }

  /** Local receive audio has its input gain applied elsewhere. */
  function InputGainDb(chain: Chain, request: Request): real {
    if request.transmitTail || chain.role != LocalReceive then chain.inputGainDb else 0.0
  }

  function AppliedStages(chain: Chain): seq<Stage> {
    if chain.enabled then Applied(chain.order, chain.switches) else []
  }

  function Tail(chain: Chain, request: Request, x: Signal): Signal {
    var emphasised := if request.transmitTail && request.preemphasis then Filtered(Preemphasis(request.cornerHz), x) else x;
    var levelled := Gain(chain.outputGainDb, emphasised);
    var banded := if request.transmitTail && chain.tail.enabled
                  then BandpassEffect(chain.tail.highpassHz, chain.tail.lowpassHz, levelled) else levelled;
    PeakEffect(chain.peakLimiter, request.rateHz, banded)
  }

  /** Input gain, the switched-on stages in order, pre-emphasis, output gain, band-pass and peak limiter. */
  function Meaning(chain: Chain, request: Request): Signal {
    Tail(chain, request, Composed(chain.stages, AppliedStages(chain), Gain(InputGainDb(chain, request), Source)))
  }

  /** A three-band stage needs its upper crossover below half the sample rate. */
  predicate CrossoverTooHigh(chain: Chain, stage: Stage, dynamics: Dynamics, rateHz: int) {
    chain.switches(stage) && dynamics.layout == ThreeBand && dynamics.bands.highHz >= rateHz as real / 2.0
  }

  predicate Rejected(chain: Chain, rateHz: int) {
    chain.enabled && (CrossoverTooHigh(chain, Compressor, chain.stages.compressor, rateHz)
                      || CrossoverTooHigh(chain, Limiter, chain.stages.limiter, rateHz))
  }

  // ----- what is emitted -----

  function Unary(input: Label, filters: seq<Filter>, output: Label): Node {
    Node([input], filters, [output])
  }

  function SidechainNodes(input: Label, output: Label, prefix: nat, sidechain: Sidechain, filters: seq<Filter>)
    : seq<Node>
  {
    var highpass := if sidechain.highpassHz > 0.0 then Highpass(sidechain.highpassHz) else Anull;
    var lowpass := if sidechain.lowpassHz > 0.0 then Lowpass(sidechain.lowpassHz) else Anull;
    [Node([input], [Split], [Part(prefix, Main), Part(prefix, Sc)]),
     Unary(Part(prefix, Sc), [highpass, lowpass], Part(prefix, Det)),
     Node([Part(prefix, Main), Part(prefix, Det)], filters, [output])]
  }

  function BandFilters(band: DynamicsBand, detection: Detection): seq<Filter> {
    if band.makeupGainDb != 0.0 then [Compress(band.curve, detection), Volume(band.makeupGainDb)]
    else [Compress(band.curve, detection)]
  }

  function ThreeBandNodes(input: Label, output: Label, prefix: nat, bands: Bands, detection: Detection): seq<Node> {
    [Node([input], [Crossover([bands.lowHz, bands.highHz], 4)], [Part(prefix, Lo), Part(prefix, Mid), Part(prefix, Hi)]),
     Unary(Part(prefix, Lo), BandFilters(bands.low, detection), Part(prefix, Loc)),
     Unary(Part(prefix, Mid), BandFilters(bands.mid, detection), Part(prefix, Midc)),
     Unary(Part(prefix, Hi), BandFilters(bands.high, detection), Part(prefix, Hic)),
     Node([Part(prefix, Loc), Part(prefix, Midc), Part(prefix, Hic)], [Mix], [output])]
  }

  function StageNodes(stages: Stages, stage: Stage, input: Label, output: Label, prefix: nat): seq<Node> {
    match stage
    case Equalizer =>
      [Unary(input, [Bass(stages.equalizer.low), Bell(stages.equalizer.mid), Treble(stages.equalizer.high)], output)]
    case Deesser => [Unary(input, [DynamicEqualizer(stages.deesser)], output)]
    case Agc => SidechainNodes(input, output, prefix, Sidechain(0.0, 0.0), [FilterGraph.Join, Ladspa(stages.agc), Mono])
    case Expander => SidechainNodes(input, output, prefix, stages.gateSidechain, [SidechainGate(stages.gate)])
    case Compressor =>
      var c := stages.compressor;
      if c.layout == ThreeBand then ThreeBandNodes(input, output, prefix, c.bands, Rms)
      else SidechainNodes(input, output, prefix, c.sidechain,
                          [SidechainCompress(c.full.curve), Volume(c.full.makeupGainDb)])
    case Limiter =>
      if stages.limiter.layout == ThreeBand then ThreeBandNodes(input, output, prefix, stages.limiter.bands, Peak)
      else [Unary(input, [Compress(stages.limiter.full.curve, Peak)], output)]
  }

  function BandpassNodes(input: Label, output: Label, prefix: BandPrefix, highpassHz: real, lowpassHz: real): seq<Node> {
    if highpassHz == 0.0 && lowpassHz == 0.0 then [Unary(input, [Anull], output)]
    else if highpassHz == 0.0 then
      [Node([input], [Crossover([lowpassHz], 20)], [output, Band(prefix, High)]),
       Node([Band(prefix, High)], [Sink], [])]
    else if lowpassHz == 0.0 then
      [Node([input], [Crossover([highpassHz], 20)], [Band(prefix, Low), output]),
       Node([Band(prefix, Low)], [Sink], [])]
    else
      [Node([input], [Crossover([highpassHz], 20)], [Band(prefix, Low), Band(prefix, Middle)]),
       Node([Band(prefix, Low)], [Sink], []),
       Node([Band(prefix, Middle)], [Crossover([lowpassHz], 20)], [output, Band(prefix, High)]),
       Node([Band(prefix, High)], [Sink], [])]
  }
}
