/** The configured order of the optional processing stages (rust/core/src/stage_order.rs) and the part of chain
    validation that depends on it (rust/core/src/processing_profile.rs:481-519). */
module StageOrder {
  import opened Wrappers
  import opened ConfigText

  datatype Stage = Expander | Agc | Compressor | Limiter | Equalizer | Deesser

  datatype OrderError = TooLong | UnknownStage(token: string) | DuplicateStage(stage: Stage) | MissingEnabledStage(stage: Stage)

  function Name(stage: Stage): string {
    match stage
    case Expander => "expander"
    case Agc => "agc"
    case Compressor => "compressor"
    case Limiter => "limiter"
    case Equalizer => "equalizer"
    case Deesser => "deesser"
  }

  function Lower(s: string): string {
    seq(|s|, i requires 0 <= i < |s| => LowerAscii(s[i]))
  }

  /** One case-insensitive token; blanks around it do not count. */
  function ParseStage(token: string): Option<Stage> {
    var word := Lower(Trim(token));
    if word == "expander" then Some(Expander)
    else if word == "agc" then Some(Agc)
    else if word == "compressor" then Some(Compressor)
    else if word == "limiter" then Some(Limiter)
    else if word == "equalizer" then Some(Equalizer)
    else if word == "deesser" then Some(Deesser)
    else None
  }

  /** `split(',')`. */
  function SplitCommas(text: string): (tokens: seq<string>)
    ensures tokens != []
    decreases |text|
  {
    var head := Until(text, {','});
    if |head| >= |text| then [text] else [head] + SplitCommas(text[|head| + 1..])
  }

  /** The number of bytes of a text, which Rust keeps as UTF-8. */
  function Utf8Length(text: string): nat {
    if text == [] then 0
    else
      var c := text[0] as int;
      (if c < 0x80 then 1 else if c < 0x800 then 2 else if c < 0x1_0000 then 3 else 4) + Utf8Length(text[1..])
  }

  ghost predicate Distinct<T>(items: seq<T>) {
    forall i, j | 0 <= i < j < |items| :: items[i] != items[j]
  }

  /** Reads the remaining tokens behind the stages already read. */
  function ReadTokens(tokens: seq<string>, stages: seq<Stage>): Result<seq<Stage>, OrderError> {
    if tokens == [] then Ok(stages)
    else match ParseStage(tokens[0])
      case None => Err(UnknownStage(Trim(tokens[0])))
      case Some(stage) =>
        if stage in stages then Err(DuplicateStage(stage)) else ReadTokens(tokens[1..], stages + [stage])
  }

  function RequireEnabled(stages: seq<Stage>, enabled: seq<Stage>): Result<(), OrderError> {
    if enabled == [] then Ok(())
    else if enabled[0] !in stages then Err(MissingEnabledStage(enabled[0]))
    else RequireEnabled(stages, enabled[1..])
  }

  function Parse(text: string, enabled: seq<Stage>): Result<seq<Stage>, OrderError> {
    if Utf8Length(text) >= 128 then Err(TooLong)
    else match ReadTokens(SplitCommas(text), [])
      case Err(error) => Err(error)
      case Ok(stages) =>
        match RequireEnabled(stages, enabled)
        case Err(error) => Err(error)
        case Ok(_) => Ok(stages)
  }

  method ParseOrder(text: string, enabled: seq<Stage>) returns (result: Result<seq<Stage>, OrderError>)
    ensures result == Parse(text, enabled)
  {
    if Utf8Length(text) >= 128 {
      return Err(TooLong);
    }
    var tokens := SplitCommas(text);
    var stages: seq<Stage> := [];
    for i := 0 to |tokens|
      invariant ReadTokens(tokens, []) == ReadTokens(tokens[i..], stages)
    {
      assert tokens[i..][1..] == tokens[i + 1..];
      match ParseStage(tokens[i]) {
        case None => return Err(UnknownStage(Trim(tokens[i])));
        case Some(stage) =>
          if stage in stages {
            return Err(DuplicateStage(stage));
          }
          stages := stages + [stage];
      }
    }
    for i := 0 to |enabled|
      invariant RequireEnabled(stages, enabled) == RequireEnabled(stages, enabled[i..])
    {
      assert enabled[i..][1..] == enabled[i + 1..];
      if enabled[i] !in stages {
        return Err(MissingEnabledStage(enabled[i]));
      }
    }
    return Ok(stages);
  }

  // ----- what is accepted -----

  lemma {:induction false} RequireEnabledExact(stages: seq<Stage>, enabled: seq<Stage>)
    ensures RequireEnabled(stages, enabled).Ok? <==> forall stage | stage in enabled :: stage in stages
    ensures RequireEnabled(stages, enabled).Err? ==>
              var error := RequireEnabled(stages, enabled).error;
              error.MissingEnabledStage? && error.stage in enabled && error.stage !in stages
  {
    if enabled != [] {
      RequireEnabledExact(stages, enabled[1..]);
      assert forall stage | stage in enabled :: stage == enabled[0] || stage in enabled[1..];
    }
  }

  lemma SameNameLowers(a: string, b: string)
    ensures SameName(a, b) <==> Lower(a) == Lower(b)
  {
    if Lower(a) == Lower(b) {
      assert forall i | 0 <= i < |a| :: Lower(a)[i] == LowerAscii(a[i]) && Lower(b)[i] == LowerAscii(b[i]);
    }
  }

  /** A token names a stage exactly when, without the blanks around it, it is the name in any mixture of cases. */
  lemma TokenNamesStage(token: string, stage: Stage)
    ensures ParseStage(token) == Some(stage) <==> SameName(Trim(token), Name(stage))
  {
    SameNameLowers(Trim(token), Name(stage));
    PlainNamesParse(stage);
    LowerName(stage);
  }

  lemma LowerName(stage: Stage)
    ensures Lower(Name(stage)) == Name(stage)
  {
    PlainNamesParse(stage);
  }

  /** One by one, the tokens without the blanks around them are the names of the listed stages, cases aside. */
  ghost predicate Names(tokens: seq<string>, stages: seq<Stage>) {
    |tokens| == |stages| && forall i | 0 <= i < |tokens| :: SameName(Trim(tokens[i]), Name(stages[i]))
  }

  lemma NamesOneByOne(tokens: seq<string>, stages: seq<Stage>)
    requires tokens != [] && stages != []
    ensures Names(tokens, stages) <==> ParseStage(tokens[0]) == Some(stages[0]) && Names(tokens[1..], stages[1..])
  {
    hide ParseStage, SameName, Trim, Name;
    TokenNamesStage(tokens[0], stages[0]);
    if Names(tokens[1..], stages[1..]) {
      assert forall i | 1 <= i < |tokens| :: tokens[i] == tokens[1..][i - 1] && stages[i] == stages[1..][i - 1];
    }
  }

  lemma DistinctGrows(stages: seq<Stage>, stage: Stage)
    requires Distinct(stages)
    ensures Distinct(stages + [stage]) <==> stage !in stages
  {
    var longer := stages + [stage];
    assert longer[|stages|] == stage && forall i | 0 <= i < |stages| :: longer[i] == stages[i];
  }

  lemma DistinctPrefix(stages: seq<Stage>, more: seq<Stage>)
    requires Distinct(stages + more) && more != []
    ensures Distinct(stages) && more[0] !in stages && stages + [more[0]] + more[1..] == stages + more
  {
    var all := stages + more;
    assert all[|stages|] == more[0] && forall i | 0 <= i < |stages| :: all[i] == stages[i];
  }

  lemma {:induction false} ReadTokensSound(tokens: seq<string>, stages: seq<Stage>)
    requires Distinct(stages) && ReadTokens(tokens, stages).Ok?
    ensures var all := ReadTokens(tokens, stages).value;
            stages <= all && Distinct(all) && Names(tokens, all[|stages|..])
  {
    if tokens != [] {
      hide ParseStage, Names, Distinct;
      var stage := ParseStage(tokens[0]).value;
      DistinctGrows(stages, stage);
      ReadTokensSound(tokens[1..], stages + [stage]);
      var more := ReadTokens(tokens, stages).value[|stages|..];
      assert more != [] && more[0] == stage && more[1..] == ReadTokens(tokens, stages).value[|stages| + 1..];
      NamesOneByOne(tokens, more);
    }
  }

  lemma {:induction false} ReadTokensComplete(tokens: seq<string>, stages: seq<Stage>, more: seq<Stage>)
    requires Distinct(stages + more) && Names(tokens, more)
    ensures ReadTokens(tokens, stages) == Ok(stages + more)
  {
    if tokens == [] {
      assert stages + more == stages;
    } else {
      NamesOneByOne(tokens, more);
      hide ParseStage, Names, Distinct;
      DistinctPrefix(stages, more);
      ReadTokensComplete(tokens[1..], stages + [more[0]], more[1..]);
    }
  }

  /** A text is accepted, as these stages, exactly when it is short enough, its tokens name these stages, no stage
      comes twice and every enabled stage is among them. */
  lemma ParseAcceptsExactly(text: string, enabled: seq<Stage>, stages: seq<Stage>)
    ensures Parse(text, enabled) == Ok(stages)
            <==> && Utf8Length(text) < 128
                 && Names(SplitCommas(text), stages)
                 && Distinct(stages)
                 && forall stage | stage in enabled :: stage in stages
  {
    hide SplitCommas, Utf8Length, ParseStage, ReadTokens, RequireEnabled, Names;
    var tokens := SplitCommas(text);
    RequireEnabledExact(stages, enabled);
    if ReadTokens(tokens, []) == Ok(stages) {
      ReadTokensSound(tokens, []);
      assert stages[0..] == stages;
    }
    if Names(tokens, stages) && Distinct(stages) {
      assert [] + stages == stages;
      ReadTokensComplete(tokens, [], stages);
    }
  }

  // ----- printing an order and reading it back -----

  function Print(stages: seq<Stage>): string {
    if stages == [] then ""
    else if |stages| == 1 then Name(stages[0])
    else Name(stages[0]) + "," + Print(stages[1..])
  }

  predicate Plain(word: string) {
    && 0 < |word| <= 10
    && forall i | 0 <= i < |word| :: 'a' <= word[i] <= 'z'
  }

  lemma PlainNamesParse(stage: Stage)
    ensures Plain(Name(stage)) && ParseStage(Name(stage)) == Some(stage)
  {
    var word := Name(stage);
    TrimVisible(word);
    assert Lower(word) == word;
  }

  lemma {:induction false} PlainLength(word: string)
    requires forall i | 0 <= i < |word| :: word[i] < '\U{80}'
    ensures Utf8Length(word) == |word|
  {
    if word != [] {
      PlainLength(word[1..]);
    }
  }

  lemma FirstToken(word: string, rest: string)
    requires Plain(word)
    ensures SplitCommas(word) == [word] && SplitCommas(word + "," + rest) == [word] + SplitCommas(rest)
  {
    var text := word + "," + rest;
    UntilAt(word, {','}, |word|);
    UntilAt(text, {','}, |word|);
    assert text[..|word|] == word && text[|word| + 1..] == rest;
  }

  lemma {:induction false} PrintedTokens(stages: seq<Stage>)
    requires stages != []
    ensures Names(SplitCommas(Print(stages)), stages)
    ensures |Print(stages)| <= 11 * |stages|
    ensures forall i | 0 <= i < |Print(stages)| :: Print(stages)[i] < '\U{80}'
  {
    hide SplitCommas, Name, ParseStage, SameName, Trim;
    var word := Name(stages[0]);
    PlainNamesParse(stages[0]);
    TokenNamesStage(word, stages[0]);
    FirstToken(word, Print(stages[1..]));
    if |stages| > 1 {
      PrintedTokens(stages[1..]);
    }
  }

  /** There are six stages. */
  lemma AtMostSix(stages: seq<Stage>)
    requires Distinct(stages)
    ensures |stages| <= 6
  {
    var all := {Expander, Agc, Compressor, Limiter, Equalizer, Deesser};
    var named := set i | 0 <= i < |stages| :: stages[i];
    DistinctCount(stages);
    assert forall stage: Stage :: stage in all by {
      forall stage: Stage ensures stage in all {
        match stage { case Expander => case Agc => case Compressor => case Limiter => case Equalizer => case Deesser => }
      }
    }
    SubsetSize(named, all);
  }

  lemma SubsetSize<T>(a: set<T>, b: set<T>)
    requires a <= b
    ensures |a| <= |b|
  {
    assert b == a + (b - a);
  }

  lemma {:induction false} DistinctCount(stages: seq<Stage>)
    requires Distinct(stages)
    ensures |set i | 0 <= i < |stages| :: stages[i]| == |stages|
  {
    var named := set i | 0 <= i < |stages| :: stages[i];
    if stages != [] {
      var init := stages[..|stages| - 1];
      DistinctCount(init);
      var before := set i | 0 <= i < |init| :: init[i];
      var last := stages[|stages| - 1];
      assert last !in before;
      assert named == before + {last} by {
        forall stage | stage in before + {last} ensures stage in named {
          if stage in before {
            var i :| 0 <= i < |init| && init[i] == stage;
            assert stages[i] == stage;
          }
        }
      }
    }
  }

  /** Every usable order is read back from its own names. */
  lemma PrintThenParse(stages: seq<Stage>, enabled: seq<Stage>)
    requires stages != [] && Distinct(stages) && forall stage | stage in enabled :: stage in stages
    ensures Parse(Print(stages), enabled) == Ok(stages)
  {
    PrintedTokens(stages);
    PlainLength(Print(stages));
    AtMostSix(stages);
    ParseAcceptsExactly(Print(stages), enabled, stages);
  }

  // ----- enabled stages in order -----

  type Switches = Stage -> bool

  /** The switched-on stages in the configured order. */
  function Applied(order: seq<Stage>, enabled: Switches): seq<Stage> {
    if order == [] then []
    else (if enabled(order[0]) then [order[0]] else []) + Applied(order[1..], enabled)
  }

  const STANDARD: seq<Stage> := [Equalizer, Expander, Agc, Deesser, Compressor, Limiter]

  /** The switched-on stages as validation lists them (processing_profile.rs:508-519). */
  function EnabledStages(enabled: Switches): seq<Stage> {
    Applied(STANDARD, enabled)
  }

  lemma {:induction false} AppliedCounts(order: seq<Stage>, enabled: Switches, stage: Stage)
    requires Distinct(order)
    ensures multiset(Applied(order, enabled))[stage] == if enabled(stage) && stage in order then 1 else 0
  {
    if order != [] {
      AppliedCounts(order[1..], enabled, stage);
    }
  }

  lemma StandardListsAll()
    ensures Distinct(STANDARD) && forall stage: Stage :: stage in STANDARD
  {
    var all := STANDARD;
    assert all[0] == Equalizer && all[1] == Expander && all[2] == Agc;
    assert all[3] == Deesser && all[4] == Compressor && all[5] == Limiter;
    forall stage: Stage ensures stage in all {
      match stage { case Expander => case Agc => case Compressor => case Limiter => case Equalizer => case Deesser => }
    }
  }

  lemma EnabledStagesExact(order: seq<Stage>, enabled: Switches, stage: Stage)
    requires order == STANDARD && Distinct(order) && stage in order
    ensures stage in EnabledStages(enabled) <==> enabled(stage)
  {
    AppliedCounts(order, enabled, stage);
  }

  /** In a validated chain every switched-on stage is applied exactly once and no other stage at all. */
  lemma ValidatedOrderAppliesEachOnce(order: seq<Stage>, enabled: Switches)
    requires Distinct(order)
    ensures RequireEnabled(order, EnabledStages(enabled)).Ok?
            <==> forall each :: multiset(Applied(order, enabled))[each] == if enabled(each) then 1 else 0
  {
    RequireEnabledExact(order, EnabledStages(enabled));
    StandardListsAll();
    forall each: Stage
      ensures multiset(Applied(order, enabled))[each] == if enabled(each) && each in order then 1 else 0
      ensures each in EnabledStages(enabled) <==> enabled(each)
    {
      AppliedCounts(order, enabled, each);
      EnabledStagesExact(STANDARD, enabled, each);
    }
  }
}
