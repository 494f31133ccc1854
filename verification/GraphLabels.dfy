/** The text of each label (rust/core/src/ffmpeg_graph.rs:85-106, 122-127, 291, 443-446, 541-612): no two labels of a
    compiled graph are written alike, so wiring by text is wiring by label. */
module GraphLabels {
  import opened Digits
  import opened FilterGraph

  function PartText(part: StagePart): string {
    match part
    case Main => "main"
    case Sc => "sc"
    case Det => "det"
    case Lo => "lo"
    case Mid => "mid"
    case Hi => "hi"
    case Loc => "loc"
    case Midc => "midc"
    case Hic => "hic"
  }

  function Text(name: Label): string {
    match name
    case In => "in"
    case Out => "out"
    case Serial(n) => "s" + Decimal(n)
    case Part(n, part) => "d" + Decimal(n) + PartText(part)
    case Band(prefix, side) =>
      (if prefix.Cln? then "cln" else "rxbp") + (match side case Low => "lo" case High => "hi" case Middle => "pass")
    case RxBandpass => "rxbandpass"
    case CtLow => "ctlow"
    case Notch(n) => "ctn" + Decimal(n)
    case DcsLow => "low"
    case DcsHigh => "high"
  }

  /** The labels whose text is fixed. */
  predicate Fixed(name: Label) {
    !name.Serial? && !name.Part? && !name.Notch?
  }

  /** Reads a part name back. */
  function PartNamed(text: string): StagePart {
    if text == "main" then Main
    else if text == "sc" then Sc
    else if text == "det" then Det
    else if text == "lo" then Lo
    else if text == "mid" then Mid
    else if text == "hi" then Hi
    else if text == "loc" then Loc
    else if text == "midc" then Midc
    else Hic
  }

  lemma PartReadsBack(part: StagePart)
    ensures PartNamed(PartText(part)) == part
    ensures !IsDigit(PartText(part)[0])
  {
  }

  datatype Kind = SerialKind | PartKind | NotchKind | FixedKind

  function KindOf(name: Label): Kind {
    match name
    case Serial(_) => SerialKind
    case Part(_, _) => PartKind
    case Notch(_) => NotchKind
    case _ => FixedKind
  }

  /** The first few characters tell which kind of label a text is. */
  function KindOfText(text: string): Kind {
    if text == [] then FixedKind
    else if text[0] == 's' then SerialKind
    else if text[0] == 'd' then PartKind
    else if |text| > 3 && text[0] == 'c' && text[2] == 'n' && IsDigit(text[3]) then NotchKind
    else FixedKind
  }

  lemma KindReadsBack(name: Label)
    ensures KindOfText(Text(name)) == KindOf(name)
  {
  }

  /** Reads a fixed label back. */
  function FixedNamed(text: string): Label {
    if text == "in" then In
    else if text == "out" then Out
    else if text == "clnlo" then Band(Cln, Low)
    else if text == "clnhi" then Band(Cln, High)
    else if text == "clnpass" then Band(Cln, Middle)
    else if text == "rxbplo" then Band(Rxbp, Low)
    else if text == "rxbphi" then Band(Rxbp, High)
    else if text == "rxbppass" then Band(Rxbp, Middle)
    else if text == "rxbandpass" then RxBandpass
    else if text == "ctlow" then CtLow
    else if text == "low" then DcsLow
    else DcsHigh
  }

  lemma BandReadsBack(prefix: BandPrefix, side: BandPart)
    ensures FixedNamed(Text(Band(prefix, side))) == Band(prefix, side)
  {
    var text := Text(Band(prefix, side));
    match prefix {
      case Cln => match side {
        case Low => assert text == "clnlo";
        case High => assert text == "clnhi";
        case Middle => assert text == "clnpass";
      }
      case Rxbp => match side {
        case Low => assert text == "rxbplo";
        case High => assert text == "rxbphi";
        case Middle => assert text == "rxbppass";
      }
    }
  }

  lemma FixedReadsBack(name: Label)
    requires Fixed(name)
    ensures FixedNamed(Text(name)) == name
  {
    match name {
      case Band(prefix, side) => BandReadsBack(prefix, side);
      case _ =>
    }
  }

  lemma PartLabelsDiffer(m: nat, part: StagePart, n: nat, other: StagePart)
    requires Text(Part(m, part)) == Text(Part(n, other))
    ensures m == n && part == other
  {
    assert Text(Part(m, part))[1..] == Decimal(m) + PartText(part);
    assert Text(Part(n, other))[1..] == Decimal(n) + PartText(other);
    PartReadsBack(part);
    PartReadsBack(other);
    NumberThenText(m, PartText(part), n, PartText(other));
  }

  lemma NumberedLabelsDiffer(head: string, m: nat, n: nat)
    requires head + Decimal(m) == head + Decimal(n)
    ensures m == n
  {
    assert (head + Decimal(m))[|head|..] == Decimal(m) + [] && (head + Decimal(n))[|head|..] == Decimal(n) + [];
    NumberThenText(m, [], n, []);
  }

  /** Different labels are written differently. */
  lemma TextsTellLabelsApart(a: Label, b: Label)
    ensures Text(a) == Text(b) <==> a == b
  {
    if Text(a) == Text(b) {
      KindReadsBack(a);
      KindReadsBack(b);
      match KindOf(a) {
        case SerialKind => NumberedLabelsDiffer("s", a.n, b.n);
        case PartKind => PartLabelsDiffer(a.n, a.part, b.n, b.part);
        case NotchKind => NumberedLabelsDiffer("ctn", a.n, b.n);
        case FixedKind =>
          FixedReadsBack(a);
          FixedReadsBack(b);
      }
    }
  }
}
