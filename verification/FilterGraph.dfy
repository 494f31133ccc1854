/** Labelled filter graphs of the kind the compiler emits, what they compute, and what makes them well wired
    (rust/core/src/ffmpeg_graph.rs). A node `[a][b]f,g[c];` takes its input links, runs its filters one after the
    other and produces its output links. A link is produced once, and consumed once, after it was produced. */
module FilterGraph {
  import opened Wrappers

  // ----- labels -----

  datatype StagePart = Main | Sc | Det | Lo | Mid | Hi | Loc | Midc | Hic

  datatype BandPart = Low | High | Middle

  datatype BandPrefix = Cln | Rxbp

  datatype Label =
    | In
    | Out
    | Serial(n: nat)
    | Part(n: nat, part: StagePart)
    | Band(prefix: BandPrefix, side: BandPart)
    | RxBandpass
    | CtLow
    | Notch(n: nat)
    | DcsLow
    | DcsHigh

  // ----- filters and signals -----

  datatype Detection = Rms | Peak

  datatype Shelf = Shelf(gainDb: real, frequencyHz: real, width: real)

  datatype Curve = Curve(thresholdDbfs: real, ratio: real, kneeDb: real, attackMs: real, releaseMs: real)

  datatype Filter =
    | Anull
    | Volume(gainDb: real)
    | Bass(shelf: Shelf)
    | Bell(shelf: Shelf)
    | Treble(shelf: Shelf)
    | DynamicEqualizer(settings: seq<real>)
    | Highpass(hz: real)
    | Lowpass(hz: real)
    | Preemphasis(hz: real)
    | Compress(curve: Curve, detection: Detection)
    | Resample(rateHz: int)
    | PeakLimit(settings: seq<real>)
    | Bandreject(hz: real, width: real)
    | Ladspa(settings: seq<real>)
    | Mono
    | FloatFormat
    | Split
    | Crossover(splits: seq<real>, order: nat)
    | Join
    | SidechainGate(settings: seq<real>)
    | SidechainCompress(curve: Curve)
    | Mix
    | Sink

  /** What flows through a link, as a term over the graph's input. Filters are uninterpreted, except that `anull`
      passes its input on and `asplit` copies it. */
  datatype Signal =
    | Source
    | Filtered(filter: Filter, of: Signal)
    | BandOf(filter: Filter, index: nat, of: Signal)
    | Combined(filter: Filter, main: Signal, side: Signal)
    | Mixed(low: Signal, mid: Signal, high: Signal)

  function Pass(filter: Filter, x: Signal): Signal {
    if filter.Anull? then x else Filtered(filter, x)
  }

  /** One filter on the signals it is given, in the order of the links; a wrong number of links is an error. */
  function Apply(filter: Filter, xs: seq<Signal>): Option<seq<Signal>> {
    match filter
    case Split => if |xs| == 1 then Some([xs[0], xs[0]]) else None
    case Crossover(splits, order) =>
      if |xs| != 1 then None
      else if |splits| == 1 then Some([BandOf(filter, 0, xs[0]), BandOf(filter, 1, xs[0])])
      else if |splits| == 2 then Some([BandOf(filter, 0, xs[0]), BandOf(filter, 1, xs[0]), BandOf(filter, 2, xs[0])])
      else None
    case Join => if |xs| == 2 then Some([Combined(filter, xs[0], xs[1])]) else None
    case SidechainGate(_) => if |xs| == 2 then Some([Combined(filter, xs[0], xs[1])]) else None
    case SidechainCompress(_) => if |xs| == 2 then Some([Combined(filter, xs[0], xs[1])]) else None
    case Mix => if |xs| == 3 then Some([Mixed(xs[0], xs[1], xs[2])]) else None
    case Sink => if |xs| == 1 then Some([]) else None
    case _ => if |xs| == 1 then Some([Pass(filter, xs[0])]) else None
  }

  function ApplyAll(filters: seq<Filter>, xs: seq<Signal>): Option<seq<Signal>> {
    if filters == [] then Some(xs)
    else match Apply(filters[0], xs)
      case None => None
      case Some(ys) => ApplyAll(filters[1..], ys)
  }

  // ----- graphs -----

  datatype Node = Node(inputs: seq<Label>, filters: seq<Filter>, outputs: seq<Label>)

  /** The labels produced so far and, of these, the ones not yet consumed. */
  datatype Wires = Wires(produced: set<Label>, waiting: map<Label, Signal>)

  const START := Wires({In}, map[In := Source])

  /** Consumes links from left to right; a link that is not waiting is an error. */
  function Take(inputs: seq<Label>, waiting: map<Label, Signal>): Option<(seq<Signal>, map<Label, Signal>)> {
    if inputs == [] then Some(([], waiting))
    else if inputs[0] !in waiting then None
    else match Take(inputs[1..], waiting - {inputs[0]})
      case None => None
      case Some(rest) => Some(([waiting[inputs[0]]] + rest.0, rest.1))
  }

  /** Produces links from left to right; a link that was produced before is an error. */
  function Put(outputs: seq<Label>, xs: seq<Signal>, wires: Wires): Option<Wires> {
    if outputs == [] && xs == [] then Some(wires)
    else if outputs == [] || xs == [] || outputs[0] in wires.produced then None
    else Put(outputs[1..], xs[1..], Wires(wires.produced + {outputs[0]}, wires.waiting[outputs[0] := xs[0]]))
  }

  function RunNode(node: Node, wires: Wires): Option<Wires> {
    match Take(node.inputs, wires.waiting)
    case None => None
    case Some(taken) =>
      match ApplyAll(node.filters, taken.0)
      case None => None
      case Some(ys) => Put(node.outputs, ys, Wires(wires.produced, taken.1))
  }

  function Run(graph: seq<Node>, wires: Wires): Option<Wires> {
    if graph == [] then Some(wires)
    else match RunNode(graph[0], wires)
      case None => None
      case Some(next) => Run(graph[1..], next)
  }

  /** The graph is well wired from `in` to `out` and carries this signal to `out`. */
  predicate Computes(graph: seq<Node>, x: Signal) {
    match Run(graph, START)
    case None => false
    case Some(wires) => wires.waiting == map[Out := x]
  }

  lemma {:induction false} RunAppend(a: seq<Node>, b: seq<Node>, wires: Wires)
    ensures Run(a + b, wires)
              == match Run(a, wires)
                 case None => None
                 case Some(next) => Run(b, next)
  {
    if a == [] {
      assert a + b == b;
    } else {
      assert (a + b)[1..] == a[1..] + b;
      match RunNode(a[0], wires) {
        case None =>
        case Some(next) => RunAppend(a[1..], b, next);
      }
    }
  }

  // ----- well wired graphs are linear -----

  function Occurs(labels: seq<Label>, link: Label): nat {
    if labels == [] then 0 else (if labels[0] == link then 1 else 0) + Occurs(labels[1..], link)
  }

  function Produced(graph: seq<Node>, link: Label): nat {
    if graph == [] then 0 else Occurs(graph[0].outputs, link) + Produced(graph[1..], link)
  }

  function Consumed(graph: seq<Node>, link: Label): nat {
    if graph == [] then 0 else Occurs(graph[0].inputs, link) + Consumed(graph[1..], link)
  }

  function One(b: bool): nat { if b then 1 else 0 }

  lemma {:induction false} TakeCounts(inputs: seq<Label>, waiting: map<Label, Signal>, link: Label)
    requires Take(inputs, waiting).Some?
    ensures Occurs(inputs, link) + One(link in Take(inputs, waiting).value.1) == One(link in waiting)
  {
    if inputs != [] {
      TakeCounts(inputs[1..], waiting - {inputs[0]}, link);
    }
  }

  lemma {:induction false} PutCounts(outputs: seq<Label>, xs: seq<Signal>, wires: Wires, link: Label)
    requires Put(outputs, xs, wires).Some? && wires.waiting.Keys <= wires.produced
    ensures var after := Put(outputs, xs, wires).value;
            && Occurs(outputs, link) + One(link in wires.produced) == One(link in after.produced)
            && Occurs(outputs, link) + One(link in wires.waiting) == One(link in after.waiting)
            && after.waiting.Keys <= after.produced
  {
    if outputs != [] {
      var next := Wires(wires.produced + {outputs[0]}, wires.waiting[outputs[0] := xs[0]]);
      PutCounts(outputs[1..], xs[1..], next, link);
    }
  }

  lemma {:induction false} TakeShrinks(inputs: seq<Label>, waiting: map<Label, Signal>)
    requires Take(inputs, waiting).Some?
    ensures Take(inputs, waiting).value.1.Keys <= waiting.Keys
  {
    if inputs != [] {
      TakeShrinks(inputs[1..], waiting - {inputs[0]});
    }
  }

  lemma NodeCounts(node: Node, wires: Wires, link: Label)
    requires RunNode(node, wires).Some? && wires.waiting.Keys <= wires.produced
    ensures var after := RunNode(node, wires).value;
            && Occurs(node.outputs, link) + One(link in wires.produced) == One(link in after.produced)
            && Occurs(node.outputs, link) + One(link in wires.waiting)
                 == Occurs(node.inputs, link) + One(link in after.waiting)
            && after.waiting.Keys <= after.produced
  {
    var taken := Take(node.inputs, wires.waiting).value;
    TakeCounts(node.inputs, wires.waiting, link);
    TakeShrinks(node.inputs, wires.waiting);
    PutCounts(node.outputs, ApplyAll(node.filters, taken.0).value, Wires(wires.produced, taken.1), link);
  }

  lemma {:induction false} RunCounts(graph: seq<Node>, wires: Wires, link: Label)
    requires Run(graph, wires).Some? && wires.waiting.Keys <= wires.produced
    ensures var after := Run(graph, wires).value;
            && Produced(graph, link) + One(link in wires.produced) == One(link in after.produced)
            && Produced(graph, link) + One(link in wires.waiting)
                 == Consumed(graph, link) + One(link in after.waiting)
  {
    if graph != [] {
      NodeCounts(graph[0], wires, link);
      RunCounts(graph[1..], RunNode(graph[0], wires).value, link);
    }
  }

  /** In a graph that computes something, `in` is only consumed and `out` only produced, and each other link is
      produced once and consumed once, or not used at all. */
  lemma WellWiredIsLinear(graph: seq<Node>, x: Signal, link: Label)
    requires Computes(graph, x)
    ensures Produced(graph, link) <= 1 && Consumed(graph, link) <= 1
    ensures link == In ==> Produced(graph, In) == 0 && Consumed(graph, In) == 1
    ensures link == Out ==> Produced(graph, Out) == 1 && Consumed(graph, Out) == 0
    ensures link != In && link != Out ==> Produced(graph, link) == Consumed(graph, link)
  {
    RunCounts(graph, START, link);
  }

  /** A node consumes only what nodes before it produced. */
  lemma ConsumedAfterProduced(graph: seq<Node>, x: Signal, k: nat, link: Label)
    requires Computes(graph, x) && k < |graph| && link in graph[k].inputs
    ensures link == In || Produced(graph[..k], link) == 1
  {
    assert graph == graph[..k] + graph[k..];
    RunAppend(graph[..k], graph[k..], START);
    var before := Run(graph[..k], START).value;
    assert graph[k..][0] == graph[k];
    RunCounts(graph[..k], START, link);
    TakeCounts(graph[k].inputs, before.waiting, link);
    OccursIn(graph[k].inputs, link);
  }

  lemma {:induction false} OccursIn(labels: seq<Label>, link: Label)
    requires link in labels
    ensures Occurs(labels, link) >= 1
  {
    if labels[0] != link {
      OccursIn(labels[1..], link);
    }
  }
}
