/** Each emitted piece of graph, run on its own, delivers the effect it stands for. */
module GraphRuns {
  import opened Wrappers
  import opened FilterGraph
  import opened GraphCompiler

  // ----- taking, filtering and putting a few links -----

  lemma TakeOne(a: Label, x: Signal)
    ensures Take([a], map[a := x]) == Some(([x], map[]))
  {
    assert [a][1..] == [] && [x] + [] == [x];
    assert map[a := x] - {a} == map[];
  }

  lemma TakeFrom(a: Label, waiting: map<Label, Signal>)
    requires a in waiting
    ensures Take([a], waiting) == Some(([waiting[a]], waiting - {a}))
  {
    assert [a][1..] == [] && [waiting[a]] + [] == [waiting[a]];
  }

  lemma TakeTwo(a: Label, x: Signal, b: Label, y: Signal)
    requires a != b
    ensures Take([a, b], map[a := x, b := y]) == Some(([x, y], map[]))
  {
    assert [a, b][1..] == [b] && [x] + [y] == [x, y];
    assert map[a := x, b := y] - {a} == map[b := y];
    TakeOne(b, y);
  }

  lemma TakeThree(a: Label, x: Signal, b: Label, y: Signal, c: Label, z: Signal)
    requires a != b && a != c && b != c
    ensures Take([a, b, c], map[a := x, b := y, c := z]) == Some(([x, y, z], map[]))
  {
    assert [a, b, c][1..] == [b, c];
    assert map[a := x, b := y, c := z] - {a} == map[b := y, c := z];
    TakeTwo(b, y, c, z);
    assert [x] + [y, z] == [x, y, z];
  }

  lemma PutOne(a: Label, x: Signal, wires: Wires)
    requires a !in wires.produced
    ensures Put([a], [x], wires) == Some(Wires(wires.produced + {a}, wires.waiting[a := x]))
  {
  }

  lemma PutTwo(a: Label, x: Signal, b: Label, y: Signal, wires: Wires)
    requires a !in wires.produced && b !in wires.produced && a != b
    ensures Put([a, b], [x, y], wires) == Some(Wires(wires.produced + {a, b}, wires.waiting[a := x][b := y]))
  {
    assert [a, b][1..] == [b] && [x, y][1..] == [y];
    PutOne(b, y, Wires(wires.produced + {a}, wires.waiting[a := x]));
    assert wires.produced + {a} + {b} == wires.produced + {a, b};
  }

  lemma PutThree(a: Label, x: Signal, b: Label, y: Signal, c: Label, z: Signal, wires: Wires)
    requires a !in wires.produced && b !in wires.produced && c !in wires.produced && a != b && a != c && b != c
    ensures Put([a, b, c], [x, y, z], wires)
              == Some(Wires(wires.produced + {a, b, c}, wires.waiting[a := x][b := y][c := z]))
  {
    assert [a, b, c][1..] == [b, c] && [x, y, z][1..] == [y, z];
    PutTwo(b, y, c, z, Wires(wires.produced + {a}, wires.waiting[a := x]));
    assert wires.produced + {a} + {b, c} == wires.produced + {a, b, c};
  }

  lemma ApplyOne(filter: Filter, xs: seq<Signal>)
    ensures ApplyAll([filter], xs) == Apply(filter, xs)
  {
  }

  lemma ApplyTwo(first: Filter, second: Filter, xs: seq<Signal>, ys: seq<Signal>)
    requires Apply(first, xs) == Some(ys)
    ensures ApplyAll([first, second], xs) == Apply(second, ys)
  {
    assert [first, second][1..] == [second];
    ApplyOne(second, ys);
  }

  lemma ApplyThree(first: Filter, second: Filter, third: Filter, xs: seq<Signal>, ys: seq<Signal>, zs: seq<Signal>)
    requires Apply(first, xs) == Some(ys) && Apply(second, ys) == Some(zs)
    ensures ApplyAll([first, second, third], xs) == Apply(third, zs)
  {
    assert [first, second, third][1..] == [second, third];
    ApplyTwo(second, third, ys, zs);
  }

  // ----- one node -----

  /** One waiting link through one-to-one filters. */
  lemma UnaryRuns(input: Label, filters: seq<Filter>, output: Label, produced: set<Label>, x: Signal, y: Signal)
    requires ApplyAll(filters, [x]) == Some([y]) && output !in produced
    ensures RunNode(Unary(input, filters, output), Wires(produced, map[input := x]))
              == Some(Wires(produced + {output}, map[output := y]))
  {
    TakeOne(input, x);
    PutOne(output, y, Wires(produced, map[]));
    assert map[][output := y] == map[output := y];
  }

  /** One of several waiting links through one-to-one filters. */
  lemma UnaryBeside(
      input: Label, filters: seq<Filter>, output: Label, produced: set<Label>, waiting: map<Label, Signal>, y: Signal)
    requires input in waiting && ApplyAll(filters, [waiting[input]]) == Some([y]) && output !in produced
    ensures RunNode(Unary(input, filters, output), Wires(produced, waiting))
              == Some(Wires(produced + {output}, (waiting - {input})[output := y]))
  {
    TakeFrom(input, waiting);
    PutOne(output, y, Wires(produced, waiting - {input}));
  }

  /** A link that nobody needs ends in a sink. */
  lemma SinkRuns(input: Label, produced: set<Label>, waiting: map<Label, Signal>)
    requires input in waiting
    ensures RunNode(Node([input], [Sink], []), Wires(produced, waiting)) == Some(Wires(produced, waiting - {input}))
  {
    TakeFrom(input, waiting);
    ApplyOne(Sink, [waiting[input]]);
  }

  /** A crossover of two bands, whichever link gets which band. */
  lemma CrossoverRuns(input: Label, hz: real, order: nat, a: Label, b: Label, produced: set<Label>, x: Signal)
    requires a !in produced && b !in produced && a != b
    ensures var splitter := Crossover([hz], order);
            RunNode(Node([input], [splitter], [a, b]), Wires(produced, map[input := x]))
              == Some(Wires(produced + {a, b}, map[a := BandOf(splitter, 0, x), b := BandOf(splitter, 1, x)]))
  {
    var splitter := Crossover([hz], order);
    TakeOne(input, x);
    ApplyOne(splitter, [x]);
    PutTwo(a, BandOf(splitter, 0, x), b, BandOf(splitter, 1, x), Wires(produced, map[]));
    assert map[][a := BandOf(splitter, 0, x)][b := BandOf(splitter, 1, x)]
        == map[a := BandOf(splitter, 0, x), b := BandOf(splitter, 1, x)];
  }

  lemma RunOne(node: Node, wires: Wires)
    ensures Run([node], wires) == RunNode(node, wires)
  {
  }

  lemma RunTwo(first: Node, second: Node, wires: Wires, next: Wires)
    requires RunNode(first, wires) == Some(next)
    ensures Run([first, second], wires) == RunNode(second, next)
  {
    assert [first, second][1..] == [second];
    RunOne(second, next);
  }

  lemma RunThree(first: Node, second: Node, third: Node, wires: Wires, next: Wires, last: Wires)
    requires RunNode(first, wires) == Some(next) && RunNode(second, next) == Some(last)
    ensures Run([first, second, third], wires) == RunNode(third, last)
  {
    assert [first, second, third][1..] == [second, third];
    RunTwo(second, third, next, last);
  }

  // ----- the split band-pass -----

  /** Splits into two bands and throws one of them away. */
  lemma SplitThenSink(input: Label, hz: real, a: Label, b: Label, unused: Label, produced: set<Label>, x: Signal)
    requires a !in produced && b !in produced && a != b && unused in {a, b}
    ensures var splitter := Crossover([hz], 20);
            var kept, index := if unused == a then b else a, if unused == a then 1 else 0;
            Run([Node([input], [splitter], [a, b]), Node([unused], [Sink], [])], Wires(produced, map[input := x]))
              == Some(Wires(produced + {a, b}, map[kept := BandOf(splitter, index, x)]))
  {
    var splitter := Crossover([hz], 20);
    var split := map[a := BandOf(splitter, 0, x), b := BandOf(splitter, 1, x)];
    CrossoverRuns(input, hz, 20, a, b, produced, x);
    SinkRuns(unused, produced + {a, b}, split);
    RunTwo(Node([input], [splitter], [a, b]), Node([unused], [Sink], []), Wires(produced, map[input := x]),
           Wires(produced + {a, b}, split));
    if unused == a {
      assert split - {a} == map[b := BandOf(splitter, 1, x)];
    } else {
      assert split - {b} == map[a := BandOf(splitter, 0, x)];
    }
  }

  lemma BothEdgesRun(
      input: Label, output: Label, prefix: BandPrefix, highpassHz: real, lowpassHz: real, produced: set<Label>, x: Signal)
    requires output !in produced && !output.Band? && highpassHz != 0.0 && lowpassHz != 0.0
    requires forall side :: Band(prefix, side) !in produced
    ensures var low, high, middle := Band(prefix, Low), Band(prefix, High), Band(prefix, Middle);
            Run(BandpassNodes(input, output, prefix, highpassHz, lowpassHz), Wires(produced, map[input := x]))
              == Some(Wires(produced + {low, middle} + {output, high},
                            map[output := BandpassEffect(highpassHz, lowpassHz, x)]))
  {
    var nodes := BandpassNodes(input, output, prefix, highpassHz, lowpassHz);
    var low, high, middle := Band(prefix, Low), Band(prefix, High), Band(prefix, Middle);
    var y := BandOf(Crossover([highpassHz], 20), 1, x);
    SplitThenSink(input, highpassHz, low, middle, low, produced, x);
    SplitThenSink(middle, lowpassHz, output, high, high, produced + {low, middle}, y);
    assert nodes == [nodes[0], nodes[1]] + [nodes[2], nodes[3]];
    RunAppend([nodes[0], nodes[1]], [nodes[2], nodes[3]], Wires(produced, map[input := x]));
  }

  /** The labels a band-pass makes for itself. */
  function BandLabels(prefix: BandPrefix, highpassHz: real, lowpassHz: real): set<Label> {
    if highpassHz == 0.0 && lowpassHz == 0.0 then {}
    else if highpassHz == 0.0 then {Band(prefix, High)}
    else if lowpassHz == 0.0 then {Band(prefix, Low)}
    else {Band(prefix, Low), Band(prefix, Middle), Band(prefix, High)}
  }

  lemma BandpassRuns(
      input: Label, output: Label, prefix: BandPrefix, highpassHz: real, lowpassHz: real, produced: set<Label>, x: Signal)
    requires output !in produced && !output.Band?
    requires forall side :: Band(prefix, side) !in produced
    ensures Run(BandpassNodes(input, output, prefix, highpassHz, lowpassHz), Wires(produced, map[input := x]))
              == Some(Wires(produced + {output} + BandLabels(prefix, highpassHz, lowpassHz),
                            map[output := BandpassEffect(highpassHz, lowpassHz, x)]))
  {
    var low, high, middle := Band(prefix, Low), Band(prefix, High), Band(prefix, Middle);
    if highpassHz == 0.0 && lowpassHz == 0.0 {
      ApplyOne(Anull, [x]);
      UnaryRuns(input, [Anull], output, produced, x, x);
      RunOne(Unary(input, [Anull], output), Wires(produced, map[input := x]));
      assert produced + {output} == produced + {output} + {};
    } else if highpassHz == 0.0 {
      SplitThenSink(input, lowpassHz, output, high, high, produced, x);
      assert produced + {output, high} == produced + {output} + {high};
    } else if lowpassHz == 0.0 {
      SplitThenSink(input, highpassHz, low, output, low, produced, x);
      assert produced + {low, output} == produced + {output} + {low};
    } else {
      BothEdgesRun(input, output, prefix, highpassHz, lowpassHz, produced, x);
      assert produced + {low, middle} + {output, high} == produced + {output} + {low, middle, high};
    }
  }

  // ----- sidechains -----

  lemma DetectorFilters(sidechain: Sidechain, x: Signal)
    ensures var highpass := if sidechain.highpassHz > 0.0 then Highpass(sidechain.highpassHz) else Anull;
            var lowpass := if sidechain.lowpassHz > 0.0 then Lowpass(sidechain.lowpassHz) else Anull;
            ApplyAll([highpass, lowpass], [x]) == Some([Detector(sidechain, x)])
  {
    var highpass := if sidechain.highpassHz > 0.0 then Highpass(sidechain.highpassHz) else Anull;
    var lowpass := if sidechain.lowpassHz > 0.0 then Lowpass(sidechain.lowpassHz) else Anull;
    ApplyTwo(highpass, lowpass, [x], [Pass(highpass, x)]);
  }

  lemma SidechainRuns(
      input: Label, output: Label, prefix: nat, sidechain: Sidechain, filters: seq<Filter>, produced: set<Label>,
      x: Signal, y: Signal)
    requires output !in produced && !output.Part? && forall part :: Part(prefix, part) !in produced
    requires ApplyAll(filters, [x, Detector(sidechain, x)]) == Some([y])
    ensures Run(SidechainNodes(input, output, prefix, sidechain, filters), Wires(produced, map[input := x]))
              == Some(Wires(produced + {Part(prefix, Main), Part(prefix, Sc)} + {Part(prefix, Det)} + {output},
                            map[output := y]))
  {
    var main, sc, det := Part(prefix, Main), Part(prefix, Sc), Part(prefix, Det);
    var nodes := SidechainNodes(input, output, prefix, sidechain, filters);
    var d := Detector(sidechain, x);
    var split := Wires(produced + {main, sc}, map[main := x, sc := x]);
    assert RunNode(nodes[0], Wires(produced, map[input := x])) == Some(split) by {
      TakeOne(input, x);
      ApplyOne(Split, [x]);
      PutTwo(main, x, sc, x, Wires(produced, map[]));
      assert map[][main := x][sc := x] == map[main := x, sc := x];
    }
    var heard := Wires(produced + {main, sc} + {det}, map[main := x, det := d]);
    assert RunNode(nodes[1], split) == Some(heard) by {
      DetectorFilters(sidechain, x);
      UnaryBeside(sc, nodes[1].filters, det, split.produced, split.waiting, d);
      assert (split.waiting - {sc})[det := d] == map[main := x, det := d];
    }
    var done := Wires(heard.produced + {output}, map[output := y]);
    assert RunNode(nodes[2], heard) == Some(done) by {
      TakeTwo(main, x, det, d);
      PutOne(output, y, Wires(heard.produced, map[]));
      assert map[][output := y] == map[output := y];
    }
    RunThree(nodes[0], nodes[1], nodes[2], Wires(produced, map[input := x]), split, heard);
  }

  // ----- three bands -----

  lemma BandFiltersApply(band: DynamicsBand, detection: Detection, x: Signal)
    ensures ApplyAll(BandFilters(band, detection), [x]) == Some([BandEffect(band, detection, x)])
  {
    var compress := Compress(band.curve, detection);
    ApplyOne(compress, [x]);
    ApplyTwo(compress, Volume(band.makeupGainDb), [x], [Filtered(compress, x)]);
  }

  lemma BandsSplit(input: Label, prefix: nat, bands: Bands, produced: set<Label>, x: Signal)
    requires forall part :: Part(prefix, part) !in produced
    ensures var splitter := Crossover([bands.lowHz, bands.highHz], 4);
            var lo, mid, hi := Part(prefix, Lo), Part(prefix, Mid), Part(prefix, Hi);
            RunNode(Node([input], [splitter], [lo, mid, hi]), Wires(produced, map[input := x]))
              == Some(Wires(produced + {lo, mid, hi},
                            map[lo := BandOf(splitter, 0, x), mid := BandOf(splitter, 1, x), hi := BandOf(splitter, 2, x)]))
  {
    var splitter := Crossover([bands.lowHz, bands.highHz], 4);
    var lo, mid, hi := Part(prefix, Lo), Part(prefix, Mid), Part(prefix, Hi);
    TakeOne(input, x);
    ApplyOne(splitter, [x]);
    PutThree(lo, BandOf(splitter, 0, x), mid, BandOf(splitter, 1, x), hi, BandOf(splitter, 2, x), Wires(produced, map[]));
    assert map[][lo := BandOf(splitter, 0, x)][mid := BandOf(splitter, 1, x)][hi := BandOf(splitter, 2, x)]
        == map[lo := BandOf(splitter, 0, x), mid := BandOf(splitter, 1, x), hi := BandOf(splitter, 2, x)];
  }

  /** The waiting links after one band has been compressed. */
  function Replaced(waiting: map<Label, Signal>, a: Label, b: Label, y: Signal): map<Label, Signal> {
    (waiting - {a})[b := y]
  }

  lemma AllReplaced(
      lo: Label, mid: Label, hi: Label, loc: Label, midc: Label, hic: Label,
      x: Signal, y: Signal, z: Signal, a: Signal, b: Signal, c: Signal)
    requires lo != mid && lo != hi && mid != hi && loc !in {lo, mid, hi, midc, hic} && midc !in {lo, mid, hi, hic}
    requires hic !in {lo, mid, hi}
    ensures var start := map[lo := x, mid := y, hi := z];
            && mid in Replaced(start, lo, loc, a) && Replaced(start, lo, loc, a)[mid] == y
            && hi in Replaced(Replaced(start, lo, loc, a), mid, midc, b)
            && Replaced(Replaced(start, lo, loc, a), mid, midc, b)[hi] == z
            && Replaced(Replaced(Replaced(start, lo, loc, a), mid, midc, b), hi, hic, c) == map[loc := a, midc := b, hic := c]
  {
  }

  /** Compresses the three bands one after the other. */
  lemma BandsCompressed(
      prefix: nat, bands: Bands, detection: Detection, produced: set<Label>, x: Signal, y: Signal, z: Signal)
    requires Part(prefix, Loc) !in produced && Part(prefix, Midc) !in produced && Part(prefix, Hic) !in produced
    ensures var lo, mid, hi := Part(prefix, Lo), Part(prefix, Mid), Part(prefix, Hi);
            var loc, midc, hic := Part(prefix, Loc), Part(prefix, Midc), Part(prefix, Hic);
            Run([Unary(lo, BandFilters(bands.low, detection), loc), Unary(mid, BandFilters(bands.mid, detection), midc),
                 Unary(hi, BandFilters(bands.high, detection), hic)],
                Wires(produced, map[lo := x, mid := y, hi := z]))
              == Some(Wires(produced + {loc} + {midc} + {hic},
                            map[loc := BandEffect(bands.low, detection, x), midc := BandEffect(bands.mid, detection, y),
                                hic := BandEffect(bands.high, detection, z)]))
  {
    var lo, mid, hi := Part(prefix, Lo), Part(prefix, Mid), Part(prefix, Hi);
    var loc, midc, hic := Part(prefix, Loc), Part(prefix, Midc), Part(prefix, Hic);
    var a, b, c := BandEffect(bands.low, detection, x), BandEffect(bands.mid, detection, y), BandEffect(bands.high, detection, z);
    var start := map[lo := x, mid := y, hi := z];
    var one := Replaced(start, lo, loc, a);
    var two := Replaced(one, mid, midc, b);
    AllReplaced(lo, mid, hi, loc, midc, hic, x, y, z, a, b, c);
    BandFiltersApply(bands.low, detection, x);
    BandFiltersApply(bands.mid, detection, y);
    BandFiltersApply(bands.high, detection, z);
    UnaryBeside(lo, BandFilters(bands.low, detection), loc, produced, start, a);
    UnaryBeside(mid, BandFilters(bands.mid, detection), midc, produced + {loc}, one, b);
    UnaryBeside(hi, BandFilters(bands.high, detection), hic, produced + {loc} + {midc}, two, c);
    RunThree(Unary(lo, BandFilters(bands.low, detection), loc), Unary(mid, BandFilters(bands.mid, detection), midc),
             Unary(hi, BandFilters(bands.high, detection), hic), Wires(produced, start),
             Wires(produced + {loc}, one), Wires(produced + {loc} + {midc}, two));
  }

  lemma BandsMixed(prefix: nat, output: Label, produced: set<Label>, a: Signal, b: Signal, c: Signal)
    requires output !in produced
    ensures var loc, midc, hic := Part(prefix, Loc), Part(prefix, Midc), Part(prefix, Hic);
            RunNode(Node([loc, midc, hic], [Mix], [output]), Wires(produced, map[loc := a, midc := b, hic := c]))
              == Some(Wires(produced + {output}, map[output := Mixed(a, b, c)]))
  {
    var loc, midc, hic := Part(prefix, Loc), Part(prefix, Midc), Part(prefix, Hic);
    TakeThree(loc, a, midc, b, hic, c);
    ApplyOne(Mix, [a, b, c]);
    PutOne(output, Mixed(a, b, c), Wires(produced, map[]));
    assert map[][output := Mixed(a, b, c)] == map[output := Mixed(a, b, c)];
  }

  lemma ThreeBandRuns(
      input: Label, output: Label, prefix: nat, bands: Bands, detection: Detection, produced: set<Label>, x: Signal)
    requires output !in produced && !output.Part? && forall part :: Part(prefix, part) !in produced
    ensures Run(ThreeBandNodes(input, output, prefix, bands, detection), Wires(produced, map[input := x]))
              == Some(Wires(produced + {Part(prefix, Lo), Part(prefix, Mid), Part(prefix, Hi)} + {Part(prefix, Loc)}
                              + {Part(prefix, Midc)} + {Part(prefix, Hic)} + {output},
                            map[output := ThreeBandEffect(bands, detection, x)]))
  {
    var nodes := ThreeBandNodes(input, output, prefix, bands, detection);
    var splitter := Crossover([bands.lowHz, bands.highHz], 4);
    var x0, x1, x2 := BandOf(splitter, 0, x), BandOf(splitter, 1, x), BandOf(splitter, 2, x);
    var split := Wires(produced + {Part(prefix, Lo), Part(prefix, Mid), Part(prefix, Hi)},
                       map[Part(prefix, Lo) := x0, Part(prefix, Mid) := x1, Part(prefix, Hi) := x2]);
    var middle := [nodes[1], nodes[2], nodes[3]];
    assert Run(nodes[1..], split) == Run(middle + [nodes[4]], split) by {
      assert nodes[1..] == middle + [nodes[4]];
    }
    BandsSplit(input, prefix, bands, produced, x);
    BandsCompressed(prefix, bands, detection, split.produced, x0, x1, x2);
    var mixed := Run(middle, split).value;
    RunAppend(middle, [nodes[4]], split);
    RunOne(nodes[4], mixed);
    BandsMixed(prefix, output, mixed.produced, BandEffect(bands.low, detection, x0),
               BandEffect(bands.mid, detection, x1), BandEffect(bands.high, detection, x2));
  }
}
