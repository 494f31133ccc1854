/** The two snapshots carried by the seqlock: their words and how a reader turns words back. */
module Snapshots {
  import opened Wrappers
  import opened Seqlock

  type U32 = n: nat | n < 0x1_0000_0000
  type U64 = n: nat | n < 0x1_0000_0000_0000_0000

  // ----- the site bank snapshot (hardware_site.rs:305-391) -----

  const SITE_WORDS: nat := 18

  datatype SiteReadQuality = Unavailable | Valid | Fault

  datatype SiteError = PinsUnavailable | StaleGeneration | InvalidMask | CacheBusy | DeviceFault

  datatype SiteSnapshot = SiteSnapshot(
    generation: U64,
    inputMask: U32,
    outputMask: U32,
    reservedMask: U32,
    claimedMask: U32,
    requestedHighMask: U32,
    submittedHighMask: U32,
    submittedGeneration: U64,
    servicedGeneration: U64,
    servicedHighMask: U32,
    readbackValidMask: U32,
    inputHighMask: U32,
    inputQuality: SiteReadQuality,
    observedAtMs: Option<U64>,
    snapshotAtMs: U64,
    rejectedCommands: U64,
    lastCommandError: Option<SiteError>
  )

  function QualityWord(quality: SiteReadQuality): U64 {
    match quality
    case Unavailable => 0
    case Valid => 1
    case Fault => 2
  }

  function ErrorWord(error: Option<SiteError>): U64 {
    match error
    case None => 0
    case Some(PinsUnavailable) => 1
    case Some(StaleGeneration) => 2
    case Some(InvalidMask) => 3
    case Some(CacheBusy) => 4
    case Some(DeviceFault) => 5
  }

  function EncodeSite(s: SiteSnapshot, nowMs: U64): (words: seq<U64>) {
    [s.generation, s.inputMask, s.outputMask, s.reservedMask, s.claimedMask,
     s.requestedHighMask, s.submittedHighMask, s.readbackValidMask, s.inputHighMask,
     QualityWord(s.inputQuality),
     if s.observedAtMs.Some? then s.observedAtMs.value else 0,
     if s.observedAtMs.Some? then 1 else 0,
     nowMs, s.rejectedCommands, ErrorWord(s.lastCommandError),
     s.submittedGeneration, s.servicedGeneration, s.servicedHighMask]
  }

  /** `word as u32`. */
  function Low32(word: U64): U32 {
    word % 0x1_0000_0000
  }

  function DecodeSite(words: seq<U64>): SiteSnapshot
    requires |words| == SITE_WORDS
  {
    SiteSnapshot(
      words[0], Low32(words[1]), Low32(words[2]), Low32(words[3]), Low32(words[4]),
      Low32(words[5]), Low32(words[6]), words[15], words[16], Low32(words[17]),
      Low32(words[7]), Low32(words[8]),
      if words[9] == 1 then Valid else if words[9] == 2 then Fault else Unavailable,
      if words[11] != 0 then Some(words[10]) else None,
      words[12], words[13],
      if words[14] == 1 then Some(PinsUnavailable)
      else if words[14] == 2 then Some(StaleGeneration)
      else if words[14] == 3 then Some(InvalidMask)
      else if words[14] == 4 then Some(CacheBusy)
      else if words[14] == 5 then Some(DeviceFault)
      else None)
  }

  /** Every field survives the words; the timestamp is the one given to `publish`. */
  lemma SiteRoundTrip(s: SiteSnapshot, nowMs: U64)
    ensures |EncodeSite(s, nowMs)| == SITE_WORDS
    ensures DecodeSite(EncodeSite(s, nowMs)) == s.(snapshotAtMs := nowMs)
  {
  }

  /** A run in which every published word vector encodes some site snapshot. */
  ghost predicate PublishesSites(published: seq<seq<U64>>, sites: seq<(SiteSnapshot, U64)>) {
    && |sites| == |published|
    && (forall i | 0 <= i < |sites| :: published[i] == EncodeSite(sites[i].0, sites[i].1))
  }

  /** A coherent site read decodes to one published snapshot, whole, stamped with its publication time. */
  lemma SiteReadReturnsOnePublish(words: seq<U64>, events: seq<Event<U64>>, reader: nat, sites: seq<(SiteSnapshot, U64)>)
    requires PublishesSites(Run(Initial(words), events).published, sites)
    requires ReaderOf(Run(Initial(words), events), reader).Coherent?
    ensures var read := ReaderOf(Run(Initial(words), events), reader);
            && read.since <= read.version < |sites|
            && |read.words| == SITE_WORDS
            && DecodeSite(read.words) == sites[read.version].0.(snapshotAtMs := sites[read.version].1)
  {
    ReadsAreCoherent(words, events, reader);
    var version := ReaderOf(Run(Initial(words), events), reader).version;
    SiteRoundTrip(sites[version].0, sites[version].1);
  }

  // ----- the loudness snapshot (loudness_meter.rs:54-107) -----

  /** Bits of an IEEE 754 double. */
  type F64 = U64

  const NAN_BITS: F64 := 0x7ff8_0000_0000_0000

  /** The eleven exponent bits are not all set. */
  predicate IsFinite(bits: F64) {
    bits / 0x10_0000_0000_0000 % 0x800 != 0x7ff
  }

  datatype LoudnessSnapshot = LoudnessSnapshot(
    epoch: U64,
    sampleCount: U64,
    integratedLufs: Option<F64>,
    truePeakDbtp: Option<F64>
  )

  function BitsOr(value: Option<F64>): F64 {
    match value
    case Some(bits) => bits
    case None => NAN_BITS
  }

  function Measured(bits: F64): Option<F64> {
    if IsFinite(bits) then Some(bits) else None
  }

  function EncodeLoudness(s: LoudnessSnapshot): seq<U64> {
    [s.epoch, s.sampleCount, BitsOr(s.integratedLufs), BitsOr(s.truePeakDbtp)]
  }

  function DecodeLoudness(words: seq<U64>): LoudnessSnapshot
    requires |words| == 4
  {
    LoudnessSnapshot(words[0], words[1], Measured(words[2]), Measured(words[3]))
  }

  /** What a reader gives up with after three failed attempts: one more load of the first word. */
  function Unmeasured<W>(w: World<W>): W
    requires |w.words| > 0
  {
    w.words[0]
  }

  ghost predicate FiniteOrAbsent(value: Option<F64>) {
    value.Some? ==> IsFinite(value.value)
  }

  /** A loudness snapshot survives its words exactly when its measurements are finite or absent; a
      non-finite measurement reads back as absent. */
  lemma LoudnessRoundTrip(s: LoudnessSnapshot)
    ensures DecodeLoudness(EncodeLoudness(s)) == s
            <==> FiniteOrAbsent(s.integratedLufs) && FiniteOrAbsent(s.truePeakDbtp)
    ensures DecodeLoudness(EncodeLoudness(s)).epoch == s.epoch
    ensures s.integratedLufs.Some? && !IsFinite(s.integratedLufs.value) ==>
              DecodeLoudness(EncodeLoudness(s)).integratedLufs == None
  {
  }

  /** The epoch reported by a reader that gave up is that of the current snapshot or of the one being
      stored, never a torn or older one. */
  lemma UnmeasuredEpochIsFresh(words: seq<U64>, events: seq<Event<U64>>)
    requires |words| > 0
    ensures var w := Run(Initial(words), events);
            && w.published != [] && |w.published[Version(w)]| == |w.words| == |words|
            && (Unmeasured(w) == w.published[Version(w)][0]
                || (w.writer.Storing? && |w.writer.values| == |words| && Unmeasured(w) == w.writer.values[0]))
  {
    InitialInv(words);
    RunKeepsInv(Initial(words), events);
  }
}
