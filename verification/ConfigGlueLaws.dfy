/** What an insertion behind an unfinished last line and the creation of a section do, and the exact conditions under which the editing laws hold:
    every law is stated for all texts, as an equivalence with a condition on the text before the edit. */
module ConfigGlueLaws {
  import opened Wrappers
  import opened ConfigText
  import opened ConfigEditor
  import opened ConfigLaws
  import opened ConfigRemoveLaws

  // ----- the glued line -----

  lemma {:induction false} TrimEndKeeps(s: string, k: nat)
    requires k < |s| && !IsWhitespace(s[k])
    ensures |TrimEnd(s)| > k
  {
    if IsWhitespace(s[|s| - 1]) {
      TrimEndKeeps(s[..|s| - 1], k);
    }
  }

  lemma TrimLonger(s: string, visible: string)
    requires visible != [] && !IsWhitespace(visible[|visible| - 1])
    ensures forall tail: string :: |Trim(s + (visible + tail))| > |Trim(s)|
  {
    forall tail: string
      ensures |Trim(s + (visible + tail))| > |Trim(s)|
    {
      var whole := visible + tail;
      TrimStartAppend(s, whole);
      TrimStartSplits(s);
      TrimEndShorter(TrimStart(s));
      if Blank(s) {
        TrimStartAppend(visible, tail);
        TrimStartSplits(visible);
        assert !Blank(visible);
        TrimEndKeeps(TrimStart(visible) + tail, |TrimStart(visible)| - 1);
      } else {
        assert (TrimStart(s) + whole)[|TrimStart(s)| + |visible| - 1] == visible[|visible| - 1];
        TrimEndKeeps(TrimStart(s) + whole, |TrimStart(s)| + |visible| - 1);
      }
    }
  }

  lemma GluedValueIsLonger(remainder: string, name: string, value: string)
    requires ValidOptionName(name) && ';' !in remainder && '#' !in remainder
    ensures |CleanValue(remainder + AssignmentLine(name, value, "\n"))| > |CleanValue(remainder)|
  {
    var stops := {';', '#'};
    var tail := " = " + value + "\n";
    assert AssignmentLine(name, value, "\n") == name + tail;
    NoStops(remainder, stops);
    UntilAppend(remainder, name + tail, stops);
    assert forall i | 0 <= i < |name| :: IsNameCharacter(name[i]);
    NoStops(name, stops);
    UntilAppend(name, tail, stops);
    TrimLonger(remainder, name);
  }

  /** How the unfinished last line reads: nothing visible; a header, a comment or a bracket; something with an equals
      sign; or text without one. */
  predicate Inert(last: string) {
    TrimStart(last) != [] && TrimStart(last)[0] in {';', '#', '['}
  }

  function Left(last: string): string {
    Until(TrimStart(last), {'='})
  }

  predicate HasEquals(last: string) {
    |Left(last)| < |TrimStart(last)|
  }

  function Remainder(last: string): string
    requires HasEquals(last)
  {
    TrimStart(last)[|Left(last)| + 1..]
  }

  predicate HasComment(text: string) {
    ';' in text || '#' in text
  }

  lemma GluedInert(last: string, name: string, value: string)
    requires Inert(last)
    ensures Assignment(last) == None && Assignment(last + AssignmentLine(name, value, "\n")) == None
  {
    TrimStartAppend(last, AssignmentLine(name, value, "\n"));
    TrimStartSplits(last);
  }

  /** Behind an equals sign the glued text only extends the value, and not even that behind a comment. */
  lemma GluedAssignment(last: string, name: string, value: string)
    requires !Blank(last) && !Inert(last) && HasEquals(last) && ValidOptionName(name)
    ensures var glued := last + AssignmentLine(name, value, "\n");
            && SectionHeader(last).None? && SectionHeader(glued).None?
            && (Assignment(last).None? ==> Assignment(glued).None?)
            && (Assignment(last).Some? ==>
                  && Assignment(glued).Some? && Assignment(glued).value.0 == Assignment(last).value.0
                  && (Assignment(glued).value.1 == Assignment(last).value.1 <==> HasComment(Remainder(last))))
  {
    var line := AssignmentLine(name, value, "\n");
    TrimStartAppend(last, line);
    TrimStartSplits(last);
    UntilPrefix(TrimStart(last), {'='});
    UntilAppend(TrimStart(last), line, {'='});
    assert (TrimStart(last) + line)[|Left(last)| + 1..] == Remainder(last) + line;
    GluedValue(Remainder(last), name, value);
  }

  lemma GluedValue(remainder: string, name: string, value: string)
    requires ValidOptionName(name)
    ensures CleanValue(remainder + AssignmentLine(name, value, "\n")) == CleanValue(remainder) <==> HasComment(remainder)
  {
    if HasComment(remainder) {
      UntilStops(remainder, {';', '#'});
      UntilAppend(remainder, AssignmentLine(name, value, "\n"), {';', '#'});
    } else {
      GluedValueIsLonger(remainder, name, value);
    }
  }

  lemma UntilStops(s: string, stops: set<char>)
    requires exists c :: c in stops && c in s
    ensures |Until(s, stops)| < |s|
  {
    UntilPrefix(s, stops);
  }

  /** Without an equals sign the glued text makes a new name out of what stood there. */
  lemma GluedText(last: string, name: string, value: string)
    requires !Blank(last) && !Inert(last) && !HasEquals(last) && ValidOptionName(name)
    ensures var glued := last + AssignmentLine(name, value, "\n");
            && SectionHeader(last).None? && SectionHeader(glued).None? && Assignment(last) == None
            && Assignment(glued) == if ValidOptionName(TrimStart(last) + name)
                                    then Some((TrimStart(last) + name, CleanValue(value))) else None
  {
    var line := AssignmentLine(name, value, "\n");
    var visible := TrimStart(last);
    TrimStartAppend(last, line);
    TrimStartSplits(last);
    UntilPrefix(visible, {'='});
    GluedParts(visible, name, value);
  }

  lemma GluedParts(visible: string, name: string, value: string)
    requires visible != [] && !IsWhitespace(visible[0]) && ValidOptionName(name) && Until(visible, {'='}) == visible
    ensures var whole := visible + AssignmentLine(name, value, "\n");
            var left := Until(whole, {'='});
            && |left| < |whole| && Trim(left) == visible + name && CleanValue(whole[|left| + 1..]) == CleanValue(value)
  {
    hide Until, Trim, CleanValue;
    GluedName(visible, name, value);
    GluedNameTrimmed(visible, name);
    BehindName(visible, name, value);
    CleanValueIgnoresBlanks(" ", value, "\n");
  }

  lemma BehindName(visible: string, name: string, value: string)
    ensures var whole := visible + AssignmentLine(name, value, "\n");
            var left := visible + (name + " ");
            |left| < |whole| && whole[|left| + 1..] == " " + value + "\n"
  {
  }

  lemma GluedNameTrimmed(visible: string, name: string)
    requires visible != [] && !IsWhitespace(visible[0]) && ValidOptionName(name)
    ensures Trim(visible + (name + " ")) == visible + name
  {
    var whole := visible + name;
    assert IsNameCharacter(name[|name| - 1]) && whole[|whole| - 1] == name[|name| - 1];
    assert visible + (name + " ") == [] + whole + " ";
    TrimIgnoresBlanks([], whole, " ");
    TrimVisible(whole);
  }

  // ----- values -----

  /** The name that a glued insertion changes, if it changes one. */
  function GluedKey(last: string, name: string): string {
    if HasEquals(last) then Trim(Left(last)) else TrimStart(last) + name
  }

  /** When gluing changes no other name: the last line is blank, a header, a comment or some other bracket; it has an
      equals sign and assigns nothing, or has a comment behind it; or it has none, and what arises is no valid name or a
      name that had this value anyway. */
  predicate GlueIsHarmless(lines: seq<string>, section: string, name: string, value: string)
    requires lines != []
  {
    var last := lines[|lines| - 1];
    || Blank(last) || Inert(last)
    || (HasEquals(last) && (Assignment(last).None? || HasComment(Remainder(last))))
    || (!HasEquals(last) && (!ValidOptionName(TrimStart(last) + name)
                             || ValueOf(lines, section, false, TrimStart(last) + name) == Some(CleanValue(value))))
  }

  ghost predicate Glues(lines: seq<string>, section: string, name: string) {
    Locate(lines, section, name) == Insert(|lines|) && lines != []
    && !LandsOnItsOwnLine(lines, Locate(lines, section, name))
  }

  function GluedLines(lines: seq<string>, name: string, value: string): seq<string>
    requires lines != []
  {
    lines[..|lines| - 1] + [lines[|lines| - 1] + AssignmentLine(name, value, "\n")]
  }

  /** Only what the last line assigns can make a difference. */
  lemma ValuesOfGlued(lines: seq<string>, section: string, name: string, value: string, other: string, key: string)
    requires lines != []
    ensures var before, last := lines[..|lines| - 1], lines[|lines| - 1];
            var active := ActiveAfter(before, other, false);
            && ValueOf(lines, other, false, key) == Later(ValueOf(before, other, false, key), AssignedTo(last, active, key))
            && ValueOf(GluedLines(lines, name, value), other, false, key)
                 == Later(ValueOf(before, other, false, key),
                          AssignedTo(last + AssignmentLine(name, value, "\n"), active, key))
  {
    var before, last := lines[..|lines| - 1], lines[|lines| - 1];
    var glued := last + AssignmentLine(name, value, "\n");
    assert lines == before + [last] + [] && GluedLines(lines, name, value) == before + [glued] + [];
    ValueOfAround(before, last, [], other, key);
    ValueOfAround(before, glued, [], other, key);
  }

  /** A last line that assigns or could come to assign something stands in the open section. */
  lemma LastLineIsOpen(lines: seq<string>, section: string, name: string)
    requires Glues(lines, section, name)
    ensures var before, last := lines[..|lines| - 1], lines[|lines| - 1];
            && (SectionHeader(last).None? ==> ActiveAfter(before, section, false))
            && !Assigns(last, name)
  {
    var before, last := lines[..|lines| - 1], lines[|lines| - 1];
    LocateActive(lines, section, name, name);
    BeforeEdit(lines, section, name);
    assert lines == before + [last] + [] && lines[..|lines|] == lines;
    ActiveAround(before, last, [], section);
  }

  lemma GluedOtherSection(lines: seq<string>, section: string, name: string, value: string, other: string, key: string)
    requires Glues(lines, section, name) && !SameName(other, section)
    ensures ValueOf(GluedLines(lines, name, value), other, false, key) == ValueOf(lines, other, false, key)
  {
    var before, last := lines[..|lines| - 1], lines[|lines| - 1];
    ValuesOfGlued(lines, section, name, value, other, key);
    LastLineIsOpen(lines, section, name);
    if Inert(last) {
      GluedInert(last, name, value);
    } else {
      OneSectionIsOpen(before, section, other, false, false);
    }
  }

  lemma HarmlessGlueKeeps(lines: seq<string>, section: string, name: string, value: string, key: string)
    requires Glues(lines, section, name) && ValidOptionName(name)
    requires GlueIsHarmless(lines, section, name, value) && key != name
    ensures ValueOf(GluedLines(lines, name, value), section, false, key) == ValueOf(lines, section, false, key)
  {
    var last := lines[|lines| - 1];
    ValuesOfGlued(lines, section, name, value, section, key);
    LastLineIsOpen(lines, section, name);
    if Blank(last) {
      TrimStartSplits(last);
      WrittenLineReadsBack(last, name, value, "\n");
    } else if Inert(last) {
      GluedInert(last, name, value);
    } else if HasEquals(last) {
      GluedAssignment(last, name, value);
    } else {
      GluedText(last, name, value);
    }
  }

  /** Gluing that is not harmless changes a name that nobody set. */
  lemma HarmfulGlueChanges(lines: seq<string>, section: string, name: string, value: string)
    requires Glues(lines, section, name) && ValidOptionName(name)
    requires !GlueIsHarmless(lines, section, name, value)
    ensures var key := GluedKey(lines[|lines| - 1], name);
            && !SameName(key, name)
            && ValueOf(GluedLines(lines, name, value), section, false, key) != ValueOf(lines, section, false, key)
  {
    var last := lines[|lines| - 1];
    var key := GluedKey(last, name);
    ValuesOfGlued(lines, section, name, value, section, key);
    LastLineIsOpen(lines, section, name);
    TrimStartSplits(last);
    if HasEquals(last) {
      GluedAssignment(last, name, value);
      assert Assignment(last).value.0 == key;
    } else {
      GluedText(last, name, value);
    }
  }

  lemma KeptByKey(text: string, after: string, section: string, name: string)
    requires forall key | !SameName(key, name) ::
               ValueOf(SplitInclusive(after), section, false, key) == ValueOf(SplitInclusive(text), section, false, key)
    requires forall other, key | !SameName(other, section) ::
               ValueOf(SplitInclusive(after), other, false, key) == ValueOf(SplitInclusive(text), other, false, key)
    ensures OtherValuesKept(text, after, section, name)
  {
    forall key: string | !SameName(key, name)
      ensures Lookup(ExplicitValues(after, section), key) == Lookup(ExplicitValues(text, section), key)
    {
      ValuesByKey(SplitInclusive(text), section, false, key);
      ValuesByKey(SplitInclusive(after), section, false, key);
    }
    forall other: string | !SameName(other, section)
      ensures ExplicitValues(after, other) == ExplicitValues(text, other)
    {
      SameValues(SplitInclusive(after), SplitInclusive(text), other, false);
    }
  }

  /** The section exists, and the edit lands on its own line or the line it is glued to takes it without harm; or it is
      created under a trimmed name, or the section that the trimmed name means had this value anyway. */
  predicate LeavesOthersAlone(lines: seq<string>, section: string, name: string, value: string) {
    var edit := Locate(lines, section, name);
    if edit.Absent? then
      Trim(section) == section || ValueOf(lines, Trim(section), false, name) == Some(CleanValue(value))
    else
      LandsOnItsOwnLine(lines, edit) || (lines != [] && GlueIsHarmless(lines, section, name, value))
  }

  lemma GlueIsInsertion(text: string, section: string, name: string, value: string)
    requires SetText(text, section, name, value).Ok?
    requires !LandsOnItsOwnLine(SplitInclusive(text), Locate(SplitInclusive(text), section, name))
    ensures Glues(SplitInclusive(text), section, name)
    ensures SplitInclusive(SetText(text, section, name, value).value) == GluedLines(SplitInclusive(text), name, value)
  {
    GluedLinesSplitBack(text, section, name, value);
  }

  /** A set keeps every other name of its section and every other section exactly when `LeavesOthersAlone` holds of the
      text before it: for every text, finished or not, and every name of a section, trimmed or not. */
  lemma SetKeepsOtherValues(text: string, section: string, name: string, value: string)
    requires SetText(text, section, name, value).Ok?
    ensures OtherValuesKept(text, SetText(text, section, name, value).value, section, name)
            <==> LeavesOthersAlone(SplitInclusive(text), section, name, value)
  {
    hide SplitInclusive, Locate, SetText, OtherValuesKept;
    var lines := SplitInclusive(text);
    if Locate(lines, section, name).Absent? {
      CreationKeepsOtherValues(text, section, name, value);
    } else if LandsOnItsOwnLine(lines, Locate(lines, section, name)) {
      OwnLineKeepsOtherValues(text, section, name, value);
    } else if GlueIsHarmless(lines, section, name, value) {
      HarmlessGlueKeepsOtherValues(text, section, name, value);
    } else {
      GluedInsertionChangesAnotherName(text, section, name, value);
      ChangedNameIsNotKept(text, SetText(text, section, name, value).value, section, name, GluedKey(lines[|lines| - 1], name));
    }
  }

  lemma OwnLineKeepsOtherValues(text: string, section: string, name: string, value: string)
    requires SetText(text, section, name, value).Ok?
    requires var edit := Locate(SplitInclusive(text), section, name);
             !edit.Absent? && LandsOnItsOwnLine(SplitInclusive(text), edit)
    ensures OtherValuesKept(text, SetText(text, section, name, value).value, section, name)
  {
    var lines, after := SplitInclusive(text), SetText(text, section, name, value).value;
    EditedLinesSplitBack(text, section, name, value);
    forall key: string | !SameName(key, name)
      ensures ValueOf(SplitInclusive(after), section, false, key) == ValueOf(lines, section, false, key)
    {
      ValueAfterEdit(lines, section, name, value, key);
    }
    forall other: string, key: string | !SameName(other, section)
      ensures ValueOf(SplitInclusive(after), other, false, key) == ValueOf(lines, other, false, key)
    {
      OtherSectionAfterEdit(lines, section, name, value, other, key);
    }
    KeptByKey(text, after, section, name);
  }

  lemma HarmlessGlueKeepsOtherValues(text: string, section: string, name: string, value: string)
    requires SetText(text, section, name, value).Ok?
    requires !LandsOnItsOwnLine(SplitInclusive(text), Locate(SplitInclusive(text), section, name))
    requires SplitInclusive(text) != [] && GlueIsHarmless(SplitInclusive(text), section, name, value)
    ensures OtherValuesKept(text, SetText(text, section, name, value).value, section, name)
  {
    var lines, after := SplitInclusive(text), SetText(text, section, name, value).value;
    GlueIsInsertion(text, section, name, value);
    forall key: string | !SameName(key, name)
      ensures ValueOf(SplitInclusive(after), section, false, key) == ValueOf(lines, section, false, key)
    {
      HarmlessGlueKeeps(lines, section, name, value, key);
    }
    forall other: string, key: string | !SameName(other, section)
      ensures ValueOf(SplitInclusive(after), other, false, key) == ValueOf(lines, other, false, key)
    {
      GluedOtherSection(lines, section, name, value, other, key);
    }
    KeptByKey(text, after, section, name);
  }

  lemma ChangedNameIsNotKept(text: string, after: string, section: string, name: string, key: string)
    requires !SameName(key, name)
    requires Lookup(ExplicitValues(after, section), key) != Lookup(ExplicitValues(text, section), key)
    ensures !OtherValuesKept(text, after, section, name)
  {
    hide ExplicitValues, Lookup, SameName;
  }

  // ----- a created section -----

  lemma SameNameLikewise(a: string, b: string)
    requires SameName(a, b)
    ensures forall c :: SameName(c, a) <==> SameName(c, b)
    ensures SameName(b, a)
  {
  }

  /** Sections of one name, in whatever spelling, read alike. */
  lemma {:induction false} SameSectionReadsAlike(lines: seq<string>, a: string, b: string, active: bool, key: string)
    requires SameName(a, b)
    ensures ValueOf(lines, a, active, key) == ValueOf(lines, b, active, key)
  {
    hide SameName;
    SameNameLikewise(a, b);
    if lines != [] {
      SameSectionReadsAlike(lines[1..], a, b, ActiveAfterLine(lines[0], a, active), key);
    }
  }

  /** A set that creates its section writes the key into the section that the trimmed name means, and changes no other
      key and no other section. */
  lemma CreationWritesTrimmedSection(text: string, section: string, name: string, value: string, other: string, key: string)
    requires SetText(text, section, name, value).Ok? && Locate(SplitInclusive(text), section, name).Absent?
    ensures Lookup(ExplicitValues(SetText(text, section, name, value).value, other), key)
              == if SameName(Trim(section), other) && key == name then Some(CleanValue(value))
                 else Lookup(ExplicitValues(text, other), key)
  {
    hide SplitInclusive, Locate, SetText, Trim, SameName;
    ValueAfterCreation(text, section, name, value, other, key);
    ValuesByKey(SplitInclusive(text), other, false, key);
    ValuesByKey(SplitInclusive(SetText(text, section, name, value).value), other, false, key);
  }

  lemma CreationKeepsOtherValues(text: string, section: string, name: string, value: string)
    requires SetText(text, section, name, value).Ok? && Locate(SplitInclusive(text), section, name).Absent?
    ensures OtherValuesKept(text, SetText(text, section, name, value).value, section, name)
            <==> LeavesOthersAlone(SplitInclusive(text), section, name, value)
  {
    hide SplitInclusive, Locate, SetText, Trim, SameName;
    var lines, after := SplitInclusive(text), SetText(text, section, name, value).value;
    TrimNeverMatches(section);
    if LeavesOthersAlone(lines, section, name, value) {
      forall key: string | !SameName(key, name)
        ensures ValueOf(SplitInclusive(after), section, false, key) == ValueOf(lines, section, false, key)
      {
        ItselfIsSame(name);
        ValueAfterCreation(text, section, name, value, section, key);
      }
      forall other: string, key: string | !SameName(other, section)
        ensures ValueOf(SplitInclusive(after), other, false, key) == ValueOf(lines, other, false, key)
      {
        ValueAfterCreation(text, section, name, value, other, key);
        if SameName(Trim(section), other) {
          SameNameLikewise(Trim(section), other);
          SameSectionReadsAlike(lines, Trim(section), other, false, name);
        }
      }
      KeptByKey(text, after, section, name);
    } else {
      UntrimmedSectionChangesAnother(text, section, name, value);
    }
  }

  lemma ItselfIsSame(name: string)
    ensures SameName(name, name)
  {
  }

  /** Creating a section under an untrimmed name gives the key to the section of the trimmed name: another section, which
      nobody set. */
  lemma UntrimmedSectionChangesAnother(text: string, section: string, name: string, value: string)
    requires SetText(text, section, name, value).Ok? && Locate(SplitInclusive(text), section, name).Absent?
    requires !LeavesOthersAlone(SplitInclusive(text), section, name, value)
    ensures !SameName(Trim(section), section)
    ensures ExplicitValues(SetText(text, section, name, value).value, Trim(section)) != ExplicitValues(text, Trim(section))
  {
    hide SplitInclusive, Locate, SetText, Trim, SameName;
    TrimNeverMatches(section);
    ItselfIsSame(Trim(section));
    CreationWritesTrimmedSection(text, section, name, value, Trim(section), name);
    ValuesByKey(SplitInclusive(text), Trim(section), false, name);
  }

  /** An insertion glued to an unfinished line without that condition changes a name nobody set: the one the line
      assigns, or the one that the glued text makes up. */
  lemma GluedInsertionChangesAnotherName(text: string, section: string, name: string, value: string)
    requires SetText(text, section, name, value).Ok? && !Locate(SplitInclusive(text), section, name).Absent?
    requires !LeavesOthersAlone(SplitInclusive(text), section, name, value)
    ensures var lines, after := SplitInclusive(text), SetText(text, section, name, value).value;
            && lines != []
            && !SameName(GluedKey(lines[|lines| - 1], name), name)
            && Lookup(ExplicitValues(after, section), GluedKey(lines[|lines| - 1], name))
                 != Lookup(ExplicitValues(text, section), GluedKey(lines[|lines| - 1], name))
  {
    var lines, after := SplitInclusive(text), SetText(text, section, name, value).value;
    GlueIsInsertion(text, section, name, value);
    HarmfulGlueChanges(lines, section, name, value);
    var key := GluedKey(lines[|lines| - 1], name);
    ValuesByKey(lines, section, false, key);
    ValuesByKey(SplitInclusive(after), section, false, key);
  }

  // ----- other spellings of the name -----

  /** A set puts no other spelling of its name in force, and a replaced line takes its own spelling along: what remains
      under one is what lines behind the edit assign in the section. */
  lemma OtherSpellingsFollowLaterLines(text: string, section: string, name: string, value: string, key: string)
    requires SetText(text, section, name, value).Ok? && !Locate(SplitInclusive(text), section, name).Absent?
    requires SameName(key, name) && key != name
    ensures var lines := SplitInclusive(text);
            Lookup(ExplicitValues(SetText(text, section, name, value).value, section), key)
              == ValueOf(Rest(lines, Locate(lines, section, name)), section, true, key)
  {
    hide SplitInclusive, Locate, Concat, SameName, AssignmentLine, ValueOf;
    var lines, after := SplitInclusive(text), SetText(text, section, name, value).value;
    var edit := Locate(lines, section, name);
    LocateActive(lines, section, name, key);
    ValuesByKey(SplitInclusive(after), section, false, key);
    if LandsOnItsOwnLine(lines, edit) {
      EditedLinesSplitBack(text, section, name, value);
      var ending := if edit.Replace? then LineEnding(lines[edit.index]) else "\n";
      ValueAfterWrittenLine(lines[..edit.index], Rest(lines, edit), section, name, value, ending, key);
    } else {
      GlueIsInsertion(text, section, name, value);
      assert Rest(lines, edit) == [];
      NothingInNoLines(section, key);
      GluedSpelling(lines, section, name, value, key);
    }
  }

  lemma NothingInNoLines(section: string, key: string)
    ensures ValueOf([], section, true, key) == None
  {
  }

  lemma GluedSpelling(lines: seq<string>, section: string, name: string, value: string, key: string)
    requires Glues(lines, section, name) && ValidOptionName(name) && ValidValue(value)
    requires SameName(key, name) && key != name
    ensures ValueOf(GluedLines(lines, name, value), section, false, key) == None
  {
    hide SectionHeader, Assignment;
    var last := lines[|lines| - 1];
    ValuesOfGlued(lines, section, name, value, section, key);
    LocateActive(lines, section, name, key);
    LastLineIsOpen(lines, section, name);
    GluedAssigns(last, name, value);
    assert lines[..|lines|] == lines;
    if Blank(last) {
      TrimStartSplits(last);
      GluedLine(last, name, value);
    }
  }

  // ----- lines and removal -----

  /** A set keeps every other line exactly when it lands on its own line. */
  lemma SetKeepsOtherLines(text: string, section: string, name: string, value: string)
    requires SetText(text, section, name, value).Ok?
    ensures OtherLinesKept(text, SetText(text, section, name, value).value, section, name, value)
            <==> LandsOnItsOwnLine(SplitInclusive(text), Locate(SplitInclusive(text), section, name))
  {
    if LandsOnItsOwnLine(SplitInclusive(text), Locate(SplitInclusive(text), section, name)) {
      OwnLineKeepsOtherLines(text, section, name, value);
    } else {
      GlueIsInsertion(text, section, name, value);
    }
  }

  /** A set that inserted a missing key is undone by removing that key, with the text restored character for character
      even with repeated sections, exactly when the key was inserted on its own line. */
  lemma SetThenRemoveRestores(text: string, section: string, name: string, value: string)
    requires SetText(text, section, name, value).Ok? && Locate(SplitInclusive(text), section, name).Insert?
    ensures RemoveText(SetText(text, section, name, value).value, section, name) == Ok((true, text))
            <==> LandsOnItsOwnLine(SplitInclusive(text), Locate(SplitInclusive(text), section, name))
  {
    if LandsOnItsOwnLine(SplitInclusive(text), Locate(SplitInclusive(text), section, name)) {
      OwnLineSetThenRemoveRestores(text, section, name, value);
    } else {
      GlueIsInsertion(text, section, name, value);
      var after := SetText(text, section, name, value).value;
      if RemoveText(after, section, name) == Ok((true, text)) {
        RemovedLinesSplitBack(after, section, name);
      }
    }
  }

  // ----- a text on which the laws fail -----

  lemma UnfinishedLines(header: string, last: string)
    requires header == "[local]\n" && last == "foo"
    ensures SplitInclusive(header + last) == [header, last]
  {
    hide SplitInclusive;
    ConcatThenSplit([header, last]);
    ConcatTwo(header, last);
  }

  lemma LocalHeader()
    ensures SectionHeader("[local]\n") == Some("local")
    ensures ValidSectionName("local")
  {
    hide SectionHeader, Trim;
    assert "[local]\n" == HeaderLine("local");
    TrimVisible("local");
    HeaderLineReads("local");
  }

  lemma UnfinishedWord(last: string)
    requires last == "foo"
    ensures SectionHeader(last) == None
    ensures TrimStart(last) == last && !HasEquals(last) && !Blank(last) && !Inert(last)
  {
    UntilAt(last, {'='}, 3);
    assert last[..3] == last;
    assert last[0] == 'f';
  }

  lemma UnfinishedLocate(header: string, last: string, section: string, name: string)
    requires SectionHeader(header) == Some(section) && SectionHeader(last) == None && Assignment(last) == None
    ensures Locate([header, last], section, name) == Insert(2)
    ensures forall key :: ValueOf([header, last], section, false, key) == None
  {
    var lines := [header, last];
    assert lines[1..] == [last] && [last][1..] == [];
    assert FirstHeader(lines, section) == Some(0);
    assert Scan(lines, name, 1) == Scan(lines, name, 2);
    forall key: string
      ensures ValueOf(lines, section, false, key) == None
    {
      assert ValueOf([last], section, true, key) == Later(None, ValueOf([], section, true, key));
      assert ValueOf(lines, section, false, key) == Later(None, ValueOf([last], section, true, key));
    }
  }

  /** Setting x in a section whose only other line is an unfinished `foo` writes `foox = 1`: x stays unset, and a name
      nobody set appears. */
  lemma UnfinishedTextInput()
    ensures var text, after := "[local]\nfoo", "[local]\nfoox = 1\n";
            && SetText(text, "local", "x", "1") == Ok(after)
            && Lookup(ExplicitValues(after, "local"), "foox") != Lookup(ExplicitValues(text, "local"), "foox")
            && !LandsOnItsOwnLine(SplitInclusive(text), Locate(SplitInclusive(text), "local", "x"))
            && !LeavesOthersAlone(SplitInclusive(text), "local", "x", "1")
  {
    hide SplitInclusive, SectionHeader, Assignment, Locate, ValueOf, Values, TrimStart, Until;
    var text, header, last := "[local]\nfoo", "[local]\n", "foo";
    var line := AssignmentLine("x", "1", "\n");
    UnfinishedLines(header, last);
    LocalHeader();
    UnfinishedWord(last);
    GluedText(last, "x", "1");
    UnfinishedLocate(header, last, "local", "x");
    assert text == header + last && line == "x = 1\n";
    assert header + last + line == "[local]\nfoox = 1\n";
    UnfinishedResult(header, last, line);
    assert last + "x" == "foox";
    GluedInsertionChangesAnotherName(text, "local", "x", "1");
  }

  lemma LocalTrimmed()
    ensures Trim(" local ") == "local" && ValidSectionName(" local ") && Creatable(" local ")
  {
    TrimIgnoresBlanks(" ", "local", " ");
    TrimVisible("local");
    assert " local " == " " + "local" + " " && IsWhitespace(" local "[0]);
  }

  /** Setting x in a section called ` local ` writes it into `local`: the name is accepted, because it contains blanks, and
      its header reads as the trimmed one. */
  lemma UntrimmedSectionInput()
    ensures SetText("", " local ", "x", "1") == Ok("[ local ]\nx = 1\n")
    ensures ExplicitValues("", "local") != ExplicitValues("[ local ]\nx = 1\n", "local")
    ensures !LeavesOthersAlone([], " local ", "x", "1")
  {
    hide Trim, Values, CleanValue;
    LocalTrimmed();
    assert HeaderLine(" local ") == "[ local ]\n" && AssignmentLine("x", "1", "\n") == "x = 1\n";
    assert "" + "" + "[ local ]\n" + "x = 1\n" == "[ local ]\nx = 1\n";
    UntrimmedSectionChangesAnother("", " local ", "x", "1");
  }

  lemma UnfinishedResult(header: string, last: string, line: string)
    ensures var lines := [header, last];
            Concat(lines[..2] + [line] + lines[2..]) == header + last + line
  {
    var lines := [header, last];
    assert lines[..2] + [line] + lines[2..] == [header] + [last, line];
    ConcatAppend([header], [last, line]);
    ConcatOne(header);
    ConcatTwo(last, line);
  }

  // ----- when a set succeeds -----

  /** A set succeeds exactly with a valid section, name and value, and a section that is there or may be created: one with
      a blank in its name or one of the profile sections, in any mixture of cases. The first objection is reported. */
  lemma SetSucceedsExactly(text: string, section: string, name: string, value: string)
    ensures var result := SetText(text, section, name, value);
            var sectionFits := Trim(section) != "" && forall c | c in section :: c != ']' && c != '\r' && c != '\n';
            var nameFits := name != "" && forall c | c in name :: c == '_' || 'a' <= c <= 'z' || 'A' <= c <= 'Z' || '0' <= c <= '9';
            var valueFits := forall c | c in value :: c != '\r' && c != '\n';
            var present := exists line | line in SplitInclusive(text) ::
                             SectionHeader(line).Some? && SameName(SectionHeader(line).value, section);
            var creatable := || (exists c | c in section :: IsWhitespace(c))
                             || (exists flat | flat in ["general", "asterisk", "hardware", "receive", "transmit", "ctcss",
                                   "dcs", "duplex", "diagnostics", "local", "link", "voice_telemetry", "remote_base",
                                   "remote_memory", "remote_scan"] :: SameName(section, flat));
            && (result.Ok? <==> sectionFits && nameFits && valueFits && (present || creatable))
            && (result == Err(InvalidSectionName) <==> !sectionFits)
            && (result == Err(InvalidOptionName) <==> sectionFits && !nameFits)
            && (result == Err(InvalidValue) <==> sectionFits && nameFits && !valueFits)
            && (result == Err(MissingChannel) <==> sectionFits && nameFits && valueFits && !present && !creatable)
  {
    hide SplitInclusive, Concat, Trim, SectionHeader, SameName, IsWhitespace, Assignment;
    PresentExactly(SplitInclusive(text), section);
    CreatableExactly(section);
    assert ValidOptionName(name) <==> name != "" && forall c | c in name :: IsNameCharacter(c);
  }

  lemma {:induction false} PresentExactly(lines: seq<string>, section: string)
    ensures FirstHeader(lines, section).Some? <==>
              exists line | line in lines :: SectionHeader(line).Some? && SameName(SectionHeader(line).value, section)
  {
    hide SectionHeader, SameName;
    if lines != [] {
      PresentExactly(lines[1..], section);
      assert forall line :: line in lines <==> line == lines[0] || line in lines[1..];
    }
  }

  lemma CreatableExactly(section: string)
    ensures Creatable(section) <==>
              || (exists c | c in section :: IsWhitespace(c))
              || (exists flat | flat in ["general", "asterisk", "hardware", "receive", "transmit", "ctcss", "dcs", "duplex",
                    "diagnostics", "local", "link", "voice_telemetry", "remote_base", "remote_memory", "remote_scan"] ::
                    SameName(section, flat))
  {
    hide SameName, IsWhitespace;
    assert (exists flat | flat in FLAT_SECTIONS :: SameName(section, flat))
      <==> (exists k | 0 <= k < |FLAT_SECTIONS| :: SameName(section, FLAT_SECTIONS[k]));
  }

  // ----- setting twice -----

  lemma {:induction false} FirstHeaderAppend(a: seq<string>, b: seq<string>, section: string)
    requires FirstHeader(a, section).None?
    ensures FirstHeader(a + b, section)
              == match FirstHeader(b, section) case None => None case Some(i) => Some(|a| + i)
  {
    if a == [] {
      assert a + b == b;
    } else {
      assert (a + b)[1..] == a[1..] + b;
      FirstHeaderAppend(a[1..], b, section);
    }
  }

  lemma {:induction false} NoHeaderBefore(a: seq<string>, b: seq<string>, section: string)
    requires FirstHeader(a + b, section).None?
    ensures FirstHeader(a, section).None?
  {
    if a != [] {
      assert (a + b)[1..] == a[1..] + b && (a + b)[0] == a[0];
      NoHeaderBefore(a[1..], b, section);
    }
  }

  lemma NewlineOpensNothing(text: string, section: string)
    requires text != "" && FirstHeader(SplitInclusive(text), section).None?
    ensures FirstHeader(SplitInclusive(text + "\n"), section).None?
  {
    hide SplitInclusive, SectionHeader;
    var lines := SplitInclusive(text);
    if EndsWith(text, "\n") {
      SplitAppend(text, "\n");
      ConcatOne("\n");
      ConcatThenSplit(["\n"]);
      BlankLineReads(section, false, "");
      assert ["\n"][1..] == [];
      FirstHeaderAppend(lines, ["\n"], section);
    } else {
      FinishedLinesSplitBack(text);
      FinishingOpensNothing(lines, section);
    }
  }

  lemma FinishingOpensNothing(lines: seq<string>, section: string)
    requires lines != [] && FirstHeader(lines, section).None?
    ensures FirstHeader(lines[..|lines| - 1] + [lines[|lines| - 1] + "\n"], section).None?
  {
    hide SectionHeader;
    var before, last := lines[..|lines| - 1], lines[|lines| - 1];
    assert lines == before + [last] && [last][1..] == [] && [last + "\n"][1..] == [];
    NoHeaderBefore(before, [last], section);
    FirstHeaderAppend(before, [last], section);
    HeaderIgnoresEnding(last, "\n");
    FirstHeaderAppend(before, [last + "\n"], section);
  }

  lemma SeparatorOpensNothing(text: string, section: string)
    requires FirstHeader(SplitInclusive(text), section).None?
    ensures FirstHeader(SplitInclusive(text + Separator(text)), section).None?
  {
    if Separator(text) == "" {
      assert text + "" == text;
    } else {
      NewlineOpensNothing(text, section);
      if Separator(text) == "\n\n" {
        NewlineOpensNothing(text + "\n", section);
        assert text + "\n" + "\n" == text + "\n\n";
      }
    }
  }

  lemma CreatedSectionOpens(section: string, name: string, value: string)
    requires ValidSectionName(section) && ValidOptionName(name)
    ensures var header, line := HeaderLine(section), AssignmentLine(name, value, "\n");
            && FirstHeader([header, line], section) == (if Trim(section) == section then Some(0) else None)
            && Assigns(line, name)
  {
    var header, line := HeaderLine(section), AssignmentLine(name, value, "\n");
    HeaderLineReads(section);
    TrimNeverMatches(section);
    WrittenLineAssigns(name, value, "\n");
    assert [header, line][1..] == [line] && [line][1..] == [];
    assert FirstHeader([line], section) == None;
  }

  /** Where the next set of the same key finds its line after a section has been created: on the line just written, or,
      when the name of the section is not trimmed, nowhere. */
  lemma LocateAfterCreation(text: string, section: string, name: string, value: string)
    requires SetText(text, section, name, value).Ok? && Locate(SplitInclusive(text), section, name).Absent?
    ensures var spaced := SplitInclusive(text + Separator(text));
            Locate(SplitInclusive(SetText(text, section, name, value).value), section, name)
              == if Trim(section) == section then Replace(|spaced| + 1) else Absent
  {
    hide SectionHeader, Assignment, SplitInclusive, AssignmentLine, HeaderLine, Separator, Trim;
    var spaced := SplitInclusive(text + Separator(text));
    var header, line := HeaderLine(section), AssignmentLine(name, value, "\n");
    CreatedLines(text, section, name, value);
    SeparatorOpensNothing(text, section);
    CreatedSectionOpens(section, name, value);
    FirstHeaderAppend(spaced, [header, line], section);
    if Trim(section) == section {
      WrittenLineIsNoHeader(name, value, "\n");
      assert (spaced + [header, line])[|spaced| + 1] == line;
    }
  }

  lemma CreateTwice(text: string, section: string, name: string, first: string, second: string)
    requires SetText(text, section, name, first).Ok? && ValidValue(second)
    requires Locate(SplitInclusive(text), section, name).Absent?
    ensures SetText(SetText(text, section, name, first).value, section, name, second) == SetText(text, section, name, second)
            <==> Trim(section) == section
  {
    LocateAfterCreation(text, section, name, first);
    if Trim(section) == section {
      CreatedThenReplaced(text, section, name, first, second);
    } else {
      CreatedOnceMore(text, section, name, first, second);
    }
  }

  lemma CreatedThenReplaced(text: string, section: string, name: string, first: string, second: string)
    requires SetText(text, section, name, first).Ok? && ValidValue(second)
    requires Locate(SplitInclusive(text), section, name).Absent?
    requires var once := SplitInclusive(SetText(text, section, name, first).value);
             Locate(once, section, name) == Replace(|SplitInclusive(text + Separator(text))| + 1)
    ensures SetText(SetText(text, section, name, first).value, section, name, second) == SetText(text, section, name, second)
  {
    hide SplitInclusive, Locate, Trim, Concat;
    var spaced := SplitInclusive(text + Separator(text));
    var header, line, again := HeaderLine(section), AssignmentLine(name, first, "\n"), AssignmentLine(name, second, "\n");
    CreatedLines(text, section, name, first);
    WrittenEnding(name, first, "\n");
    assert (spaced + [header, line])[|spaced| + 1 := again] == spaced + [header, again];
    ConcatAppend(spaced, [header, again]);
    ConcatTwo(header, again);
    SplitThenConcat(text + Separator(text));
    assert text + Separator(text) + (header + again) == text + Separator(text) + header + again;
  }

  lemma CreatedOnceMore(text: string, section: string, name: string, first: string, second: string)
    requires SetText(text, section, name, first).Ok? && ValidValue(second)
    requires Locate(SplitInclusive(text), section, name).Absent?
    requires Locate(SplitInclusive(SetText(text, section, name, first).value), section, name).Absent?
    ensures SetText(SetText(text, section, name, first).value, section, name, second) != SetText(text, section, name, second)
  {
    hide SplitInclusive, Locate, Trim, AssignmentLine;
    var once := SetText(text, section, name, first).value;
    assert |once| > |text| + |Separator(text)|;
    assert |SetText(once, section, name, second).value| > |SetText(text, section, name, second).value|;
  }

  lemma GluedAssigns(last: string, name: string, value: string)
    requires ValidOptionName(name) && ValidValue(value) && !Assigns(last, name)
    ensures Assigns(last + AssignmentLine(name, value, "\n"), name) <==> Blank(last)
  {
    hide SectionHeader, Assignment;
    if Blank(last) {
      GluedLine(last, name, value);
    } else if Inert(last) {
      GluedInert(last, name, value);
    } else if HasEquals(last) {
      GluedAssignment(last, name, value);
    } else {
      GluedText(last, name, value);
      TrimStartSplits(last);
    }
  }

  lemma GluedHeaderStays(last: string, tail: string, section: string)
    requires ActiveAfterLine(last, section, false)
    ensures SectionHeader(last + tail) == SectionHeader(last)
  {
    TrimStartAppend(last, tail);
    TrimStartSplits(last);
    var trimmed := TrimStart(last);
    UntilPrefix(trimmed[1..], {']'});
    UntilAppend(trimmed[1..], tail, {']'});
    assert (trimmed + tail)[1..] == trimmed[1..] + tail;
  }

  /** After a glued insertion the same key is found on a blank line that took it, or inserted once more. */
  lemma LocateAfterGlue(lines: seq<string>, section: string, name: string, value: string)
    requires Glues(lines, section, name) && ValidOptionName(name) && ValidValue(value)
    ensures var edit := Locate(GluedLines(lines, name, value), section, name);
            if Blank(lines[|lines| - 1]) then edit == Replace(|lines| - 1) else edit.Insert?
  {
    hide SectionHeader, Assignment, SameName, AssignmentLine;
    var before, last := lines[..|lines| - 1], lines[|lines| - 1];
    var line := AssignmentLine(name, value, "\n");
    var i := FirstHeader(lines, section).value;
    FirstHeaderActive(lines, section, name);
    ScanFinds(lines, name, i + 1);
    BeforeEdit(lines, section, name);
    GluedAssigns(last, name, value);
    assert before + [last] == lines && before + [last + line] == GluedLines(lines, name, value);
    if i < |before| {
      FirstHeaderWithin(lines, section, |before|);
      if Blank(last) {
        assert before + [last + line] + [] == before + [last + line];
        LocateAt(before, last + line, [], section, name);
      } else {
        FirstHeaderPrefix(before, [last + line], section);
        ScanInserts(GluedLines(lines, name, value), name, i + 1);
      }
    } else {
      NotBlankHeader(last, section);
      GluedHeaderStays(last, line, section);
      NoHeaderWithin(lines, section, i);
      assert [last + line][1..] == [];
      FirstHeaderAppend(before, [last + line], section);
    }
  }

  lemma NotBlankHeader(last: string, section: string)
    requires SectionHeader(last).Some?
    ensures !Blank(last)
  {
    TrimStartSplits(last);
  }

  lemma {:induction false} NoHeaderWithin(lines: seq<string>, section: string, k: nat)
    requires FirstHeader(lines, section) == Some(k)
    ensures FirstHeader(lines[..k], section) == None
  {
    if k > 0 {
      NoHeaderWithin(lines[1..], section, k - 1);
      assert lines[..k][1..] == lines[1..][..k - 1];
    }
  }

  lemma {:induction false} ScanInserts(lines: seq<string>, name: string, from: nat)
    requires from <= |lines| && forall k | from <= k < |lines| :: !Assigns(lines[k], name)
    ensures Scan(lines, name, from).Insert?
    decreases |lines| - from
  {
    if from < |lines| && SectionHeader(lines[from]).None? {
      ScanInserts(lines, name, from + 1);
    }
  }

  lemma GlueTwice(text: string, section: string, name: string, first: string, second: string)
    requires SetText(text, section, name, first).Ok? && ValidValue(second)
    requires !LandsOnItsOwnLine(SplitInclusive(text), Locate(SplitInclusive(text), section, name))
    ensures SetText(SetText(text, section, name, first).value, section, name, second) != SetText(text, section, name, second)
  {
    hide SplitInclusive, Locate, TrimStart, Until, AssignmentLine, EndsWith;
    var lines, once := SplitInclusive(text), SetText(text, section, name, first).value;
    GlueIsInsertion(text, section, name, first);
    GlueIsInsertion(text, section, name, second);
    LocateAfterGlue(lines, section, name, first);
    GluedEnds(lines, name, first);
    EditedLinesSplitBack(once, section, name, second);
    if Blank(lines[|lines| - 1]) {
      BlankIsDropped(text, name, first, second);
    }
  }

  /** The written line starts with its name, the glued one with a blank. */
  lemma BlankIsDropped(text: string, name: string, first: string, second: string)
    requires SplitInclusive(text) != [] && Blank(SplitInclusive(text)[|SplitInclusive(text)| - 1]) && ValidOptionName(name)
    ensures var lines := SplitInclusive(text);
            EditedLines(GluedLines(lines, name, first), Replace(|lines| - 1), name, second) != GluedLines(lines, name, second)
  {
    hide SplitInclusive;
    var lines := SplitInclusive(text);
    var k := |lines| - 1;
    SplitThenConcat(text);
    assert IsLine(lines[k]) && IsWhitespace(lines[k][0]) && IsNameCharacter(name[0]);
    var twice := EditedLines(GluedLines(lines, name, first), Replace(k), name, second);
    assert twice[k][0] == name[0] && GluedLines(lines, name, second)[k][0] == lines[k][0];
  }

  lemma GluedEnds(lines: seq<string>, name: string, value: string)
    requires lines != []
    ensures EndsWith(GluedLines(lines, name, value)[|lines| - 1], "\n")
  {
  }

  /** A second set of the same key replaces what the first one wrote, so that only the second can be seen, exactly when
      the first landed on its own line in a section whose name is trimmed or stands in the text already. */
  lemma SetTwiceIsSetOnce(text: string, section: string, name: string, first: string, second: string)
    requires SetText(text, section, name, first).Ok? && ValidValue(second)
    ensures SetText(SetText(text, section, name, first).value, section, name, second) == SetText(text, section, name, second)
            <==> var edit := Locate(SplitInclusive(text), section, name);
                 if edit.Absent? then Trim(section) == section else LandsOnItsOwnLine(SplitInclusive(text), edit)
  {
    hide SplitInclusive, Locate, Trim, SetText;
    var edit := Locate(SplitInclusive(text), section, name);
    if edit.Absent? {
      CreateTwice(text, section, name, first, second);
    } else if LandsOnItsOwnLine(SplitInclusive(text), edit) {
      OwnLineSetTwice(text, section, name, first, second);
    } else {
      GlueTwice(text, section, name, first, second);
    }
  }
}
