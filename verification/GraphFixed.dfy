/** The graphs with a fixed shape: receive filter, decoded-tone notch and DCS shaping
    (rust/core/src/ffmpeg_graph.rs:64-148). */
module GraphFixed {
  import opened Wrappers
  import opened FilterGraph
  import opened GraphCompiler
  import opened GraphRuns

  datatype PlFilter = Disabled | DecodedToneNotch | HighPassFilter

  function ReceiveMeaning(bandpass: Bandpass, pl: PlFilter, highpassHz: real): Signal {
    var banded := if bandpass.enabled then BandpassEffect(bandpass.highpassHz, bandpass.lowpassHz, Source) else Source;
    if pl == HighPassFilter then BandOf(Crossover([highpassHz], 20), 1, banded) else banded
  }

  lemma PlTail(graph: seq<Node>, current: Label, pl: PlFilter, highpassHz: real, x: Signal)
    requires Run(graph, START).Some?
    requires var wires := Run(graph, START).value;
             wires.waiting == map[current := x] && Out !in wires.produced && CtLow !in wires.produced
    ensures pl == HighPassFilter ==>
              Computes(graph + [Node([current], [Crossover([highpassHz], 20)], [CtLow, Out]), Node([CtLow], [Sink], [])],
                       BandOf(Crossover([highpassHz], 20), 1, x))
    ensures pl != HighPassFilter ==> Computes(graph + [Unary(current, [Anull], Out)], x)
  {
    var wires := Run(graph, START).value;
    var tail := [Node([current], [Crossover([highpassHz], 20)], [CtLow, Out]), Node([CtLow], [Sink], [])];
    if pl == HighPassFilter {
      SplitThenSink(current, highpassHz, CtLow, Out, CtLow, wires.produced, x);
      RunAppend(graph, tail, START);
    } else {
      ApplyOne(Anull, [x]);
      UnaryRuns(current, [Anull], Out, wires.produced, x, x);
      RunOne(Unary(current, [Anull], Out), wires);
      RunAppend(graph, [Unary(current, [Anull], Out)], START);
    }
  }

  /** The receive filter is the band-pass, when it is on, and then the high-pass PL filter, when that is chosen. The
      decoded-tone notch is not part of this graph. */
  method ReceiveFilter(bandpass: Bandpass, pl: PlFilter, highpassHz: real) returns (graph: seq<Node>)
    ensures Computes(graph, ReceiveMeaning(bandpass, pl, highpassHz))
  {
    graph := [];
    var current := In;
    ghost var x := Source;
    if bandpass.enabled {
      BandpassRuns(In, RxBandpass, Rxbp, bandpass.highpassHz, bandpass.lowpassHz, {In}, Source);
      graph := BandpassNodes(In, RxBandpass, Rxbp, bandpass.highpassHz, bandpass.lowpassHz);
      current := RxBandpass;
      x := BandpassEffect(bandpass.highpassHz, bandpass.lowpassHz, Source);
    }
    PlTail(graph, current, pl, highpassHz, x);
    if pl == HighPassFilter {
      graph := graph + [Node([current], [Crossover([highpassHz], 20)], [CtLow, Out]), Node([CtLow], [Sink], [])];
    } else {
      graph := graph + [Unary(current, [Anull], Out)];
    }
  }

  /** The same filter several times over. */
  function Repeated(filter: Filter, times: nat, x: Signal): Signal {
    if times == 0 then x else Pass(filter, Repeated(filter, times - 1, x))
  }

  /** A decoded tone between 50 and 300 Hz is rejected four times in a row; any other frequency is refused. */
  method DecodedToneNotch(frequencyHz: real, widthHz: real) returns (result: Result<seq<Node>, GraphError>)
    ensures result.Ok? <==> 50.0 <= frequencyHz <= 300.0
    ensures result.Ok? ==> Computes(result.value, Repeated(Bandreject(frequencyHz, widthHz), 4, Source))
    ensures result.Err? ==> result.error == InvalidNotchFrequency
  {
    if !(50.0 <= frequencyHz <= 300.0) {
      return Err(InvalidNotchFrequency);
    }
    var filter := Bandreject(frequencyHz, widthHz);
    var graph: seq<Node> := [];
    var current := In;
    for section := 0 to 4
      invariant match Run(graph, START)
                case None => false
                case Some(wires) =>
                  && wires.waiting == map[current := Repeated(filter, section, Source)]
                  && (forall n | section <= n :: Notch(n) !in wires.produced)
                  && (section < 4 ==> Out !in wires.produced)
      invariant section == 4 ==> current == Out
    {
      var next := if section == 3 then Out else Notch(section);
      ghost var wires := Run(graph, START).value;
      ghost var x := Repeated(filter, section, Source);
      ApplyOne(filter, [x]);
      UnaryRuns(current, [filter], next, wires.produced, x, Filtered(filter, x));
      RunOne(Unary(current, [filter], next), wires);
      RunAppend(graph, [Unary(current, [filter], next)], START);
      graph := graph + [Unary(current, [filter], next)];
      current := next;
    }
    return Ok(graph);
  }

  /** The compensation gain of 3.42 dB applies to normal signalling only, never to the turn-off code. */
  method DcsFilter(turnoff: bool) returns (graph: seq<Node>)
    ensures var low := BandOf(Crossover([250.0], 20), 0, Source);
            Computes(graph, Filtered(FloatFormat, if turnoff then low else Filtered(Volume(-3.42), low)))
  {
    var compensation: seq<Filter> := if turnoff then [] else [Volume(-3.42)];
    var shaping := compensation + [FloatFormat];
    var low := BandOf(Crossover([250.0], 20), 0, Source);
    var y := Filtered(FloatFormat, if turnoff then low else Filtered(Volume(-3.42), low));
    var split := [Node([In], [Crossover([250.0], 20)], [DcsLow, DcsHigh]), Node([DcsHigh], [Sink], [])];
    SplitThenSink(In, 250.0, DcsLow, DcsHigh, DcsHigh, {In}, Source);
    assert ApplyAll(shaping, [low]) == Some([y]) by {
      if turnoff {
        assert shaping == [FloatFormat];
        ApplyOne(FloatFormat, [low]);
      } else {
        assert shaping == [Volume(-3.42), FloatFormat];
        ApplyTwo(Volume(-3.42), FloatFormat, [low], [Filtered(Volume(-3.42), low)]);
      }
    }
    UnaryRuns(DcsLow, shaping, Out, {In} + {DcsLow, DcsHigh}, low, y);
    RunOne(Unary(DcsLow, shaping, Out), Wires({In} + {DcsLow, DcsHigh}, map[DcsLow := low]));
    RunAppend(split, [Unary(DcsLow, shaping, Out)], START);
    graph := split + [Unary(DcsLow, shaping, Out)];
  }
}
