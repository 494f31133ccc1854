/** Sixteen-bit PCM at the controller boundary and the assembly of fixed frames (rust/asl3/src/pcm.rs). */
module Pcm {
  import opened Wrappers

  const APP_RPT_FRAME := 160
  const ADVANCED_FRAME := 960
  const ASSEMBLY_CAPACITY := 1920

  datatype Mode = AppRpt | Advanced

  function FrameSamples(mode: Mode): (n: nat)
    ensures 0 < n <= ADVANCED_FRAME
  {
    if mode.AppRpt? then APP_RPT_FRAME else ADVANCED_FRAME
  }

  datatype PcmError = AssemblyOverflow | InvalidFrameSize

  // ----- samples -----

  /** A sample as it arrives: infinities and not-a-number are one case. */
  datatype Float = NonFinite | Finite(value: real)

  const MAX_SAMPLE := 32767
  const MIN_SAMPLE := -32768

  predicate IsSample(s: int) {
    MIN_SAMPLE <= s <= MAX_SAMPLE
  }

  /** Nearest integer, ties to even. */
  function RoundTiesEven(x: real): int {
    var below := x.Floor;
    var rest := x - below as real;
    if rest < 0.5 || (rest == 0.5 && below % 2 == 0) then below else below + 1
  }

  /** Scaling by 32768 is exact in binary floating point, so the model computes on reals. */
  function Quantise(sample: Float): (s: int)
    ensures IsSample(s)
  {
    match sample
    case NonFinite => 0
    case Finite(value) =>
      Saturate(value * 32768.0)
  }

  function Saturate(scaled: real): (s: int)
    ensures IsSample(s)
  {
    if scaled >= 32767.0 then MAX_SAMPLE
    else if scaled <= -32768.0 then MIN_SAMPLE
    else RoundTiesEven(scaled)
  }

  function Normalise(s: int): Float {
    Finite(s as real / 32768.0)
  }

  /** A sixteen-bit sample survives the trip through floating point. */
  lemma NormaliseThenQuantise(s: int)
    requires IsSample(s)
    ensures Quantise(Normalise(s)) == s
  {
  }

  function Apart(x: real, s: int): real {
    if x > s as real then x - s as real else s as real - x
  }

  lemma RoundIsNearest(x: real, other: int)
    ensures Apart(x, RoundTiesEven(x)) <= Apart(x, other)
  {
    if other > x.Floor {
      assert other as real >= (x.Floor + 1) as real;
    } else {
      assert other as real <= x.Floor as real;
    }
  }

  /** No sixteen-bit sample is nearer to the scaled input than the one chosen, so quantisation never wraps. */
  lemma QuantiseIsNearest(value: real, other: int)
    requires IsSample(other)
    ensures Apart(value * 32768.0, Quantise(Finite(value))) <= Apart(value * 32768.0, other)
  {
    var scaled := value * 32768.0;
    if -32768.0 < scaled < 32767.0 {
      RoundIsNearest(scaled, other);
    }
  }

  /** Of two samples equally near the even one is chosen, and what is no number becomes silence. */
  lemma QuantiseTies(value: real, other: int)
    requires IsSample(other) && other != Quantise(Finite(value))
    requires Apart(value * 32768.0, other) == Apart(value * 32768.0, Quantise(Finite(value)))
    ensures Quantise(Finite(value)) % 2 == 0
    ensures Quantise(NonFinite) == 0
  {
    var scaled := value * 32768.0;
    if -32768.0 < scaled < 32767.0 {
      TieIsEven(scaled, other);
    }
  }

  lemma TieIsEven(x: real, other: int)
    requires other != RoundTiesEven(x) && Apart(x, other) == Apart(x, RoundTiesEven(x))
    ensures RoundTiesEven(x) % 2 == 0
  {
    var below := x.Floor;
    if other > below {
      assert other as real >= (below + 1) as real;
    } else {
      assert other as real <= below as real;
    }
  }

  function QuantiseAll(input: seq<Float>): seq<int> {
    seq(|input|, i requires 0 <= i < |input| => Quantise(input[i]))
  }

  function Silence(n: nat): seq<int> {
    seq(n, _ => 0)
  }

  datatype Frame = Frame(mode: Mode, samples: seq<int>)

  predicate WellSized(frame: Frame) {
    |frame.samples| == FrameSamples(frame.mode)
  }

  /** The first `size` samples of a queue, completed with silence when there are fewer. */
  function Padded(queued: seq<int>, size: nat): (samples: seq<int>)
    ensures |samples| == size
  {
    if |queued| >= size then queued[..size] else queued + Silence(size - |queued|)
  }

  function Behind(queued: seq<int>, size: nat): seq<int> {
    if |queued| >= size then queued[size..] else []
  }

  /** A preallocated queue of samples that gives up whole frames. */
  class FrameAssembler {
    const mode: Mode
    const samples: array<int>
    var count: nat

    ghost predicate Valid()
      reads this
    {
      samples.Length == ASSEMBLY_CAPACITY && count <= ASSEMBLY_CAPACITY
    }

    ghost function Queued(): (queued: seq<int>)
      requires Valid()
      reads this, samples
      ensures |queued| == count
    {
      samples[..count]
    }

    constructor (mode: Mode)
      ensures Valid() && this.mode == mode && Queued() == [] && fresh(samples)
    {
      this.mode := mode;
      samples := new int[ASSEMBLY_CAPACITY](_ => 0);
      count := 0;
    }

    method Append(input: seq<int>) returns (result: Result<(), PcmError>)
      requires Valid()
      modifies this, samples
      ensures Valid()
      ensures old(count) + |input| <= ASSEMBLY_CAPACITY ==> result == Ok(()) && Queued() == old(Queued()) + input
      ensures old(count) + |input| > ASSEMBLY_CAPACITY ==> result == Err(AssemblyOverflow) && Queued() == old(Queued())
    {
      var end := count + |input|;
      if end > samples.Length {
        return Err(AssemblyOverflow);
      }
      forall i | 0 <= i < |input| {
        samples[count + i] := input[i];
      }
      count := end;
      return Ok(());
    }

    /** A whole frame or nothing. */
    method Take(output: array<int>) returns (result: Result<bool, PcmError>)
      requires Valid() && output != samples
      modifies this, samples, output
      ensures Valid()
      ensures output.Length != FrameSamples(mode) ==>
                result == Err(InvalidFrameSize) && Queued() == old(Queued()) && output[..] == old(output[..])
      ensures output.Length == FrameSamples(mode) && old(count) < FrameSamples(mode) ==>
                result == Ok(false) && Queued() == old(Queued()) && output[..] == old(output[..])
      ensures output.Length == FrameSamples(mode) && old(count) >= FrameSamples(mode) ==>
                result == Ok(true) && output[..] + Queued() == old(Queued())
    {
      var frame := FrameSamples(mode);
      if output.Length != frame {
        return Err(InvalidFrameSize);
      }
      if count < frame {
        return Ok(false);
      }
      forall i | 0 <= i < frame {
        output[i] := samples[i];
      }
      forall i | 0 <= i < count - frame {
        samples[i] := samples[frame + i];
      }
      count := count - frame;
      return Ok(true);
    }

    /** A whole frame in any case, completed with silence. */
    method TakePadded(output: array<int>) returns (result: Result<(), PcmError>)
      requires Valid() && output != samples
      modifies this, samples, output
      ensures Valid()
      ensures output.Length != FrameSamples(mode) ==>
                result == Err(InvalidFrameSize) && Queued() == old(Queued()) && output[..] == old(output[..])
      ensures output.Length == FrameSamples(mode) ==>
                && result == Ok(())
                && output[..] == Padded(old(Queued()), FrameSamples(mode))
                && Queued() == Behind(old(Queued()), FrameSamples(mode))
    {
      var frame := FrameSamples(mode);
      if output.Length != frame {
        return Err(InvalidFrameSize);
      }
      var copied := if count < frame then count else frame;
      forall i | 0 <= i < frame {
        output[i] := if i < copied then samples[i] else 0;
      }
      forall i | 0 <= i < count - copied {
        samples[i] := samples[copied + i];
      }
      count := count - copied;
      return Ok(());
    }

    method Clear()
      requires Valid()
      modifies this, samples
      ensures Valid() && Queued() == []
    {
      forall i | 0 <= i < count {
        samples[i] := 0;
      }
      count := 0;
    }
  }
}
