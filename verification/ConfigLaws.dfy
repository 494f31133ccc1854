/** Set, get and remove laws of the configuration editor, for every text. */
module ConfigLaws {
  import opened Wrappers
  import opened ConfigText
  import opened ConfigEditor

  // ----- the lines after an edit -----

  /** The edit does not extend an unfinished last line. */
  predicate LandsOnItsOwnLine(lines: seq<string>, edit: Edit) {
    edit.Insert? && edit.index == |lines| && lines != [] ==> EndsWith(lines[|lines| - 1], "\n")
  }

  function EditedLines(lines: seq<string>, edit: Edit, name: string, value: string): seq<string>
    requires !edit.Absent? && edit.index <= |lines| && (edit.Replace? ==> edit.index < |lines|)
  {
    if edit.Replace?
    then lines[..edit.index] + [AssignmentLine(name, value, LineEnding(lines[edit.index]))] + lines[edit.index + 1..]
    else lines[..edit.index] + [AssignmentLine(name, value, "\n")] + lines[edit.index..]
  }

  /** What follows the edited line. */
  function Rest(lines: seq<string>, edit: Edit): seq<string>
    requires !edit.Absent? && edit.index <= |lines| && (edit.Replace? ==> edit.index < |lines|)
  {
    if edit.Replace? then lines[edit.index + 1..] else lines[edit.index..]
  }

  lemma WrittenLineIsLine(name: string, value: string, ending: string)
    requires ValidOptionName(name) && ValidValue(value) && ending in {"", "\n", "\r\n"}
    ensures IsLine(AssignmentLine(name, value, ending))
    ensures Terminated(AssignmentLine(name, value, ending)) <==> ending != ""
  {
  }

  lemma ReplacedAreLines(lines: seq<string>, i: nat, line: string)
    requires AreLines(lines) && i < |lines| && IsLine(line) && (i < |lines| - 1 ==> Terminated(line))
    ensures AreLines(lines[..i] + [line] + lines[i + 1..])
    ensures lines[..i] + [line] + lines[i + 1..] == lines[i := line]
  {
  }

  lemma InsertedAreLines(lines: seq<string>, i: nat, line: string)
    requires AreLines(lines) && i <= |lines| && IsLine(line) && Terminated(line)
    requires i > 0 ==> Terminated(lines[i - 1])
    ensures AreLines(lines[..i] + [line] + lines[i..])
  {
  }

  lemma EditedLinesSplitBack(text: string, section: string, name: string, value: string)
    requires SetText(text, section, name, value).Ok?
    requires var lines := SplitInclusive(text); var edit := Locate(lines, section, name);
             !edit.Absent? && LandsOnItsOwnLine(lines, edit)
    ensures var lines := SplitInclusive(text);
            SplitInclusive(SetText(text, section, name, value).value)
              == EditedLines(lines, Locate(lines, section, name), name, value)
  {
    hide Locate, SplitInclusive, Concat;
    var lines := SplitInclusive(text);
    var edit := Locate(lines, section, name);
    SplitThenConcat(text);
    if edit.Replace? {
      var line := AssignmentLine(name, value, LineEnding(lines[edit.index]));
      WrittenLineIsLine(name, value, LineEnding(lines[edit.index]));
      ReplacedAreLines(lines, edit.index, line);
    } else {
      WrittenLineIsLine(name, value, "\n");
      InsertedAreLines(lines, edit.index, AssignmentLine(name, value, "\n"));
    }
    ConcatThenSplit(EditedLines(lines, edit, name, value));
  }

  /** At most one of two different section names is open at any line. */
  lemma {:induction false} OneSectionIsOpen(lines: seq<string>, section: string, other: string, a: bool, b: bool)
    requires !SameName(other, section) && !(a && b)
    ensures !(ActiveAfter(lines, section, a) && ActiveAfter(lines, other, b))
  {
    if lines != [] {
      OneSectionIsOpen(lines[1..], section, other, ActiveAfterLine(lines[0], section, a), ActiveAfterLine(lines[0], other, b));
    }
  }

  /** In an open section, a written line puts its value in force until a later line replaces it, and
      leaves the other names alone. */
  lemma ValueAfterWrittenLine(before: seq<string>, rest: seq<string>, section: string, name: string, value: string, ending: string, key: string)
    requires ValidOptionName(name) && Blank(ending) && ActiveAfter(before, section, false)
    ensures var line := AssignmentLine(name, value, ending);
            ValueOf(before + [line] + rest, section, false, key)
              == Later(Later(ValueOf(before, section, false, key), if key == name then Some(CleanValue(value)) else None),
                       ValueOf(rest, section, true, key))
  {
    var line := AssignmentLine(name, value, ending);
    WrittenLineReadsBack([], name, value, ending);
    assert [] + line == line;
    ValueOfAround(before, line, rest, section, key);
  }

  lemma ValueAfterReplace(before: seq<string>, former: string, rest: seq<string>, section: string, name: string, value: string, ending: string, key: string)
    requires ValidOptionName(name) && Blank(ending) && ActiveAfter(before, section, false) && Assigns(former, name)
    requires SameName(key, name) ==> ValueOf(before, section, false, key) == None
    ensures var edited := before + [AssignmentLine(name, value, ending)] + rest;
            && (key == name ==> ValueOf(edited, section, false, key)
                                  == Later(Some(CleanValue(value)), ValueOf(rest, section, true, key)))
            && (!SameName(key, name) ==> ValueOf(edited, section, false, key)
                                           == ValueOf(before + [former] + rest, section, false, key))
  {
    ValueAfterWrittenLine(before, rest, section, name, value, ending, key);
    ValueOfAround(before, former, rest, section, key);
  }

  lemma ValueAfterInsert(before: seq<string>, rest: seq<string>, section: string, name: string, value: string, key: string)
    requires ValidOptionName(name) && ActiveAfter(before, section, false)
    requires SameName(key, name) ==> ValueOf(before, section, false, key) == None
    ensures var edited := before + [AssignmentLine(name, value, "\n")] + rest;
            && (key == name ==> ValueOf(edited, section, false, key)
                                  == Later(Some(CleanValue(value)), ValueOf(rest, section, true, key)))
            && (!SameName(key, name) ==> ValueOf(edited, section, false, key)
                                           == ValueOf(before + rest, section, false, key))
  {
    ValueAfterWrittenLine(before, rest, section, name, value, "\n", key);
    ValueOfAppend(before, rest, section, false, key);
  }

  /** The edited section after an edit that lands on its own line. */
  lemma ValueAfterEdit(lines: seq<string>, section: string, name: string, value: string, key: string)
    requires ValidOptionName(name) && !Locate(lines, section, name).Absent?
    ensures var edit := Locate(lines, section, name);
            var edited := EditedLines(lines, edit, name, value);
            && (key == name ==> ValueOf(edited, section, false, key)
                                  == Later(Some(CleanValue(value)), ValueOf(Rest(lines, edit), section, true, key)))
            && (!SameName(key, name) ==>
                  ValueOf(edited, section, false, key) == ValueOf(lines, section, false, key))
  {
    var edit := Locate(lines, section, name);
    LocateActive(lines, section, name, key);
    var before, rest := lines[..edit.index], Rest(lines, edit);
    if edit.Replace? {
      assert lines == before + [lines[edit.index]] + rest;
      ValueAfterReplace(before, lines[edit.index], rest, section, name, value, LineEnding(lines[edit.index]), key);
    } else {
      assert lines == before + rest;
      ValueAfterInsert(before, rest, section, name, value, key);
    }
  }

  lemma ClosedSectionIgnoresLine(before: seq<string>, line: string, rest: seq<string>, other: string, key: string)
    requires !ActiveAfter(before, other, false) && SectionHeader(line) == None
    ensures ValueOf(before + [line] + rest, other, false, key)
              == Later(ValueOf(before, other, false, key), ValueOf(rest, other, false, key))
  {
    ValueOfAround(before, line, rest, other, key);
  }

  lemma OtherSectionKept(before: seq<string>, line: string, former: seq<string>, rest: seq<string>, other: string, key: string)
    requires !ActiveAfter(before, other, false) && SectionHeader(line) == None
    requires |former| <= 1 && forall k | 0 <= k < |former| :: SectionHeader(former[k]) == None
    ensures ValueOf(before + [line] + rest, other, false, key) == ValueOf(before + former + rest, other, false, key)
  {
    ClosedSectionIgnoresLine(before, line, rest, other, key);
    if former == [] {
      assert before + former + rest == before + rest;
      ValueOfAppend(before, rest, other, false, key);
    } else {
      assert former == [former[0]];
      ClosedSectionIgnoresLine(before, former[0], rest, other, key);
    }
  }

  lemma WrittenLineIsNoHeader(name: string, value: string, ending: string)
    requires ValidOptionName(name) && Blank(ending)
    ensures SectionHeader(AssignmentLine(name, value, ending)) == None
  {
  }

  /** Every other section after an edit that lands on its own line. */
  lemma OtherSectionAfterEdit(lines: seq<string>, section: string, name: string, value: string, other: string, key: string)
    requires ValidOptionName(name) && !Locate(lines, section, name).Absent? && !SameName(other, section)
    ensures ValueOf(EditedLines(lines, Locate(lines, section, name), name, value), other, false, key)
              == ValueOf(lines, other, false, key)
  {
    var edit := Locate(lines, section, name);
    LocateActive(lines, section, name, key);
    var before, rest := lines[..edit.index], Rest(lines, edit);
    OneSectionIsOpen(before, section, other, false, false);
    hide Locate, ValueOf, ActiveAfter;
    var ending := if edit.Replace? then LineEnding(lines[edit.index]) else "\n";
    var former := if edit.Replace? then [lines[edit.index]] else [];
    WrittenLineIsNoHeader(name, value, ending);
    assert lines == before + former + rest;
    OtherSectionKept(before, AssignmentLine(name, value, ending), former, rest, other, key);
  }

  // ----- an insertion that extends an unfinished last line -----

  /** The written text continues `last`: it assigns `name` exactly when `last` is blank. */
  lemma GluedLine(last: string, name: string, value: string)
    requires ValidOptionName(name) && ValidValue(value)
    ensures Blank(last) ==>
              && SectionHeader(last + AssignmentLine(name, value, "\n")) == None
              && Assignment(last + AssignmentLine(name, value, "\n")) == Some((name, CleanValue(value)))
    ensures !Blank(last) && !Assigns(last, name) ==>
              AssignedTo(last + AssignmentLine(name, value, "\n"), true, name) == None
  {
    var line := AssignmentLine(name, value, "\n");
    if Blank(last) {
      WrittenLineReadsBack(last, name, value, "\n");
    } else if !Assigns(last, name) {
      TrimStartAppend(last, line);
      TrimStartSplits(last);
      var visible := TrimStart(last);
      UntilPrefix(visible, {'='});
      UntilAppend(visible, line, {'='});
      if visible[0] !in {';', '#', '['} {
        if |Until(visible, {'='})| >= |visible| {
          GluedName(visible, name, value);
        } else {
          assert SectionHeader(last).None?;
        }
      }
    }
  }

  lemma GluedName(visible: string, name: string, value: string)
    requires visible != [] && !IsWhitespace(visible[0]) && ValidOptionName(name)
    requires Until(visible, {'='}) == visible
    ensures Until(visible + AssignmentLine(name, value, "\n"), {'='}) == visible + (name + " ")
    ensures |Trim(visible + (name + " "))| > |name|
  {
    var line := AssignmentLine(name, value, "\n");
    UntilAppend(visible, line, {'='});
    UntilAt(line, {'='}, |name| + 1);
    assert line[..|name| + 1] == name + " ";
    GluedNameIsLonger(visible, name);
  }

  lemma GluedNameIsLonger(visible: string, name: string)
    requires visible != [] && !IsWhitespace(visible[0]) && ValidOptionName(name)
    ensures |Trim(visible + (name + " "))| > |name|
  {
    var whole := visible + name;
    assert IsNameCharacter(name[|name| - 1]) && whole[|whole| - 1] == name[|name| - 1];
    assert visible + (name + " ") == [] + whole + " ";
    TrimIgnoresBlanks([], whole, " ");
    TrimVisible(whole);
  }

  lemma GluedLinesSplitBack(text: string, section: string, name: string, value: string)
    requires SetText(text, section, name, value).Ok?
    requires var lines := SplitInclusive(text); var edit := Locate(lines, section, name);
             edit.Insert? && !LandsOnItsOwnLine(lines, edit)
    ensures var lines := SplitInclusive(text);
            && lines != []
            && SplitInclusive(SetText(text, section, name, value).value)
                 == lines[..|lines| - 1] + [lines[|lines| - 1] + AssignmentLine(name, value, "\n")]
  {
    hide SplitInclusive, Locate, Concat, AssignmentLine;
    var lines := SplitInclusive(text);
    SplitThenConcat(text);
    var last, line := lines[|lines| - 1], AssignmentLine(name, value, "\n");
    GluedConcat(lines[..|lines| - 1], last, line);
    assert lines[..|lines|] + [line] + lines[|lines|..] == lines[..|lines| - 1] + [last, line];
    WrittenLineIsLine(name, value, "\n");
    GluedIsLine(last, line);
    LinesAppend(lines[..|lines| - 1], [last + line]);
    ConcatThenSplit(lines[..|lines| - 1] + [last + line]);
  }

  lemma GluedConcat(before: seq<string>, last: string, line: string)
    ensures Concat(before + [last, line]) == Concat(before + [last + line])
  {
    ConcatAppend(before, [last, line]);
    ConcatAppend(before, [last + line]);
    ConcatTwo(last, line);
    ConcatOne(last + line);
  }

  lemma GluedIsLine(last: string, line: string)
    requires IsLine(last) && !EndsWith(last, "\n") && IsLine(line)
    ensures IsLine(last + line)
  {
  }

  /** An insertion that extends an unfinished last line reaches its key exactly when that line is blank. */
  lemma ValueAfterGlue(lines: seq<string>, section: string, name: string, value: string)
    requires ValidOptionName(name) && ValidValue(value)
    requires Locate(lines, section, name) == Insert(|lines|) && lines != []
    ensures var last := lines[|lines| - 1];
            ValueOf(lines[..|lines| - 1] + [last + AssignmentLine(name, value, "\n")], section, false, name)
              == if Blank(last) then Some(CleanValue(value)) else None
  {
    var before, last := lines[..|lines| - 1], lines[|lines| - 1];
    var glued := last + AssignmentLine(name, value, "\n");
    LocateActive(lines, section, name, name);
    BeforeEdit(lines, section, name);
    assert lines == before + [last] + [] && lines[..|lines|] == lines;
    ValueOfAround(before, last, [], section, name);
    ActiveAround(before, last, [], section);
    assert before + [glued] + [] == before + [glued];
    ValueOfAround(before, glued, [], section, name);
    GluedLine(last, name, value);
    if Blank(last) {
      TrimStartSplits(last);
    } else {
      GluedHeader(last, name, value);
    }
  }

  lemma GluedHeader(last: string, name: string, value: string)
    requires !Blank(last) && ValidOptionName(name) && ValidValue(value)
    ensures Assigns(last, name) ==> SectionHeader(last).None?
    ensures SectionHeader(last).Some? ==> Assignment(last + AssignmentLine(name, value, "\n")) == None
  {
    TrimStartAppend(last, AssignmentLine(name, value, "\n"));
    TrimStartSplits(last);
  }

  // ----- a section created at the end -----

  /** Two texts that read the same: every section assigns every key the same value in both. */
  ghost predicate ReadsLike(a: string, b: string) {
    forall section: string, key: string ::
      && ValueOf(SplitInclusive(a), section, false, key) == ValueOf(SplitInclusive(b), section, false, key)
      && ActiveAfter(SplitInclusive(a), section, false) == ActiveAfter(SplitInclusive(b), section, false)
  }

  /** The last line ends as the text does. */
  lemma LastLineEnds(text: string)
    requires text != ""
    ensures var lines := SplitInclusive(text);
            lines != [] && lines[|lines| - 1] != "" && lines[|lines| - 1][|lines[|lines| - 1]| - 1] == text[|text| - 1]
  {
  }

  lemma LastLineTerminated(text: string)
    requires EndsWith(text, "\n")
    ensures var lines := SplitInclusive(text); lines != [] && Terminated(lines[|lines| - 1])
  {
  }

  lemma SplitAppend(a: string, b: string)
    requires a == "" || EndsWith(a, "\n")
    ensures SplitInclusive(a + b) == SplitInclusive(a) + SplitInclusive(b)
  {
    var first, second := SplitInclusive(a), SplitInclusive(b);
    SplitThenConcat(a);
    SplitThenConcat(b);
    if a != "" {
      LastLineTerminated(a);
    }
    JoinedSplitBack(first, second);
  }

  lemma JoinedSplitBack(first: seq<string>, second: seq<string>)
    requires AreLines(first) && AreLines(second) && (first != [] ==> Terminated(first[|first| - 1]))
    ensures SplitInclusive(Concat(first) + Concat(second)) == first + second
  {
    ConcatAppend(first, second);
    LinesAppend(first, second);
    ConcatThenSplit(first + second);
  }

  lemma BlankLineReads(section: string, active: bool, key: string)
    ensures ActiveAfterLine("\n", section, active) == active && AssignedTo("\n", active, key) == None
  {
  }

  /** A newline appended to a non-empty text finishes its last line or adds a blank one; neither is read. */
  lemma NewlineReads(text: string)
    requires text != ""
    ensures ReadsLike(text + "\n", text)
  {
    var lines := SplitInclusive(text);
    SplitThenConcat(text);
    LastLineEnds(text);
    var before, last := lines[..|lines| - 1], lines[|lines| - 1];
    assert lines == before + [last] + [];
    if EndsWith(text, "\n") {
      SplitAppend(text, "\n");
      ConcatOne("\n");
      ConcatThenSplit(["\n"]);
    } else {
      FinishedLinesSplitBack(text);
    }
    forall section: string, key: string
      ensures ValueOf(SplitInclusive(text + "\n"), section, false, key) == ValueOf(lines, section, false, key)
      ensures ActiveAfter(SplitInclusive(text + "\n"), section, false) == ActiveAfter(lines, section, false)
    {
      if EndsWith(text, "\n") {
        ValueOfAppend(lines, ["\n"], section, false, key);
        ActiveAfterAppend(lines, ["\n"], section, false);
        BlankLineReads(section, ActiveAfter(lines, section, false), key);
      } else {
        HeaderIgnoresEnding(last, "\n");
        AssignmentIgnoresEnding(last, "\n");
        ValueOfAround(before, last, [], section, key);
        ActiveAround(before, last, [], section);
        assert before + [last + "\n"] + [] == before + [last + "\n"];
        ValueOfAround(before, last + "\n", [], section, key);
        ActiveAround(before, last + "\n", [], section);
      }
    }
  }

  lemma FinishedLine(last: string)
    requires IsLine(last) && last[|last| - 1] != '\n'
    ensures AreLines([last + "\n"]) && Concat([last + "\n"]) == last + "\n"
  {
  }

  lemma LinesBefore(lines: seq<string>)
    requires AreLines(lines) && lines != []
    ensures var before := lines[..|lines| - 1];
            && AreLines(before) && (before != [] ==> Terminated(before[|before| - 1]))
            && Concat(lines) == Concat(before) + lines[|lines| - 1]
  {
    var before, last := lines[..|lines| - 1], lines[|lines| - 1];
    assert lines == before + [last];
    ConcatAppend(before, [last]);
    ConcatOne(last);
  }

  lemma FinishedLinesSplitBack(text: string)
    requires text != "" && !EndsWith(text, "\n")
    ensures var lines := SplitInclusive(text);
            lines != [] && SplitInclusive(text + "\n") == lines[..|lines| - 1] + [lines[|lines| - 1] + "\n"]
  {
    var lines := SplitInclusive(text);
    SplitThenConcat(text);
    LastLineEnds(text);
    assert text[|text| - 1..] == [text[|text| - 1]];
    var before, last := lines[..|lines| - 1], lines[|lines| - 1];
    LinesBefore(lines);
    FinishedLine(last);
    assert Concat(before) + last + "\n" == Concat(before) + (last + "\n");
    JoinedSplitBack(before, [last + "\n"]);
  }

  lemma SeparatorReads(text: string)
    ensures ReadsLike(text + Separator(text), text)
    ensures text + Separator(text) == "" || EndsWith(text + Separator(text), "\n")
  {
    var separator := Separator(text);
    if separator == "" {
      assert text + separator == text;
    } else {
      NewlineReads(text);
      if separator == "\n\n" {
        NewlineReads(text + "\n");
        assert text + separator == text + "\n" + "\n";
      }
    }
  }

  lemma HeaderLineReads(section: string)
    requires ValidSectionName(section)
    ensures SectionHeader(HeaderLine(section)) == Some(Trim(section))
    ensures IsLine(HeaderLine(section)) && Terminated(HeaderLine(section))
  {
    var line := HeaderLine(section);
    assert line[1..] == section + "]\n";
    UntilAt(section + "]\n", {']'}, |section|);
    assert (section + "]\n")[..|section|] == section;
    forall i | 0 <= i < |line| - 1
      ensures line[i] != '\n'
    {
      assert 1 <= i <= |section| ==> line[i] == section[i - 1];
    }
  }

  lemma CreatedLines(text: string, section: string, name: string, value: string)
    requires SetText(text, section, name, value).Ok?
    requires Locate(SplitInclusive(text), section, name).Absent?
    ensures SplitInclusive(SetText(text, section, name, value).value)
              == SplitInclusive(text + Separator(text)) + [HeaderLine(section), AssignmentLine(name, value, "\n")]
  {
    var header, line := HeaderLine(section), AssignmentLine(name, value, "\n");
    var spaced := text + Separator(text);
    SeparatorReads(text);
    HeaderLineReads(section);
    WrittenLineIsLine(name, value, "\n");
    ConcatTwo(header, line);
    ConcatThenSplit([header, line]);
    SplitAppend(spaced, header + line);
    assert spaced + (header + line) == text + Separator(text) + header + line;
  }

  lemma NewSectionReads(section: string, name: string, value: string, other: string, active: bool, key: string)
    requires ValidSectionName(section) && ValidOptionName(name)
    ensures ValueOf([HeaderLine(section), AssignmentLine(name, value, "\n")], other, active, key)
              == if SameName(Trim(section), other) && key == name then Some(CleanValue(value)) else None
  {
    var header, line := HeaderLine(section), AssignmentLine(name, value, "\n");
    HeaderLineReads(section);
    WrittenLineReadsBack([], name, value, "\n");
    assert [] + line == line;
    assert [header, line][1..] == [line] && [line][1..] == [];
    var open := SameName(Trim(section), other);
    assert ActiveAfterLine(header, other, active) == open;
    assert ValueOf([line], other, open, key)
        == Later(AssignedTo(line, open, key), ValueOf([], other, ActiveAfterLine(line, other, open), key));
    assert ValueOf([header, line], other, active, key)
        == Later(AssignedTo(header, active, key), ValueOf([line], other, open, key));
  }

  /** The value in force for any key of any section after a section has been created. */
  lemma ValueAfterCreation(text: string, section: string, name: string, value: string, other: string, key: string)
    requires SetText(text, section, name, value).Ok?
    requires Locate(SplitInclusive(text), section, name).Absent?
    ensures ValueOf(SplitInclusive(SetText(text, section, name, value).value), other, false, key)
              == Later(ValueOf(SplitInclusive(text), other, false, key),
                       if SameName(Trim(section), other) && key == name then Some(CleanValue(value)) else None)
  {
    var spaced := SplitInclusive(text + Separator(text));
    SeparatorReads(text);
    CreatedLines(text, section, name, value);
    ValueOfAppend(spaced, [HeaderLine(section), AssignmentLine(name, value, "\n")], other, false, key);
    NewSectionReads(section, name, value, other, ActiveAfter(spaced, other, false), key);
    assert ValueOf(spaced, other, false, key) == ValueOf(SplitInclusive(text), other, false, key);
  }

  // ----- set, then get -----

  /** The written value is the one in force: nothing later in a section of that name replaces it with
      something else, and it survives cleaning. */
  predicate Prevails(rest: seq<string>, section: string, name: string, value: string) {
    var later := ValueOf(rest, section, true, name);
    if later.Some? then later.value == value else CleanValue(value) == value
  }

  /** When a set can be read back, decided on the text before it. */
  predicate Settles(text: string, section: string, name: string, value: string) {
    var lines := SplitInclusive(text);
    var edit := Locate(lines, section, name);
    if edit.Absent? then Trim(section) == section && CleanValue(value) == value
    else
      && Prevails(Rest(lines, edit), section, name, value)
      && (LandsOnItsOwnLine(lines, edit) || Blank(lines[|lines| - 1]))
  }

  lemma AbsentMeansUnset(lines: seq<string>, section: string, name: string, key: string)
    requires Locate(lines, section, name).Absent?
    ensures ValueOf(lines, section, false, key) == None
  {
  }

  lemma TrimNeverMatches(section: string)
    ensures SameName(Trim(section), section) <==> Trim(section) == section
  {
    TrimLength(section);
  }

  /** The value in force after a set. */
  function Outcome(lines: seq<string>, section: string, name: string, value: string): Option<string> {
    var edit := Locate(lines, section, name);
    if edit.Absent? then
      if Trim(section) == section then Some(CleanValue(value)) else None
    else if LandsOnItsOwnLine(lines, edit) then
      Later(Some(CleanValue(value)), ValueOf(Rest(lines, edit), section, true, name))
    else if Blank(lines[|lines| - 1]) then Some(CleanValue(value)) else None
  }

  lemma ValueAfterSet(text: string, section: string, name: string, value: string)
    requires SetText(text, section, name, value).Ok?
    ensures ValueOf(SplitInclusive(SetText(text, section, name, value).value), section, false, name)
              == Outcome(SplitInclusive(text), section, name, value)
  {
    var lines := SplitInclusive(text);
    var edit := Locate(lines, section, name);
    if edit.Absent? {
      AbsentMeansUnset(lines, section, name, name);
      ValueAfterCreation(text, section, name, value, section, name);
      TrimNeverMatches(section);
    } else if LandsOnItsOwnLine(lines, edit) {
      EditedLinesSplitBack(text, section, name, value);
      ValueAfterEdit(lines, section, name, value, name);
    } else {
      GluedLinesSplitBack(text, section, name, value);
      ValueAfterGlue(lines, section, name, value);
    }
  }

  /** After a successful set, reading the section maps the name to the value exactly when `Settles` holds
      of the text before: for every text, with any duplicates, comments and line endings. */
  lemma SetThenGet(text: string, section: string, name: string, value: string)
    requires SetText(text, section, name, value).Ok?
    ensures var values := ExplicitValues(SetText(text, section, name, value).value, section);
            name in values && values[name] == value <==> Settles(text, section, name, value)
  {
    var lines := SplitInclusive(text);
    var edit := Locate(lines, section, name);
    ValueAfterSet(text, section, name, value);
    ValuesByKey(SplitInclusive(SetText(text, section, name, value).value), section, false, name);
    if edit.Insert? && !LandsOnItsOwnLine(lines, edit) {
      assert Rest(lines, edit) == [];
    }
  }

  /** Line `i` assigns the name while the section is open. */
  predicate AssignsIn(lines: seq<string>, i: nat, section: string, name: string)
    requires i < |lines|
  {
    Assigns(lines[i], name) && ActiveAfter(lines[..i], section, false)
  }

  /** At most one header opens the section, and at most one line of it assigns the name, in whatever spelling. Other
      sections may use the same name. */
  predicate Unambiguous(lines: seq<string>, section: string, name: string) {
    forall i, j | 0 <= i < j < |lines| ::
      && !(ActiveAfterLine(lines[i], section, false) && ActiveAfterLine(lines[j], section, false))
      && !(AssignsIn(lines, i, section, name) && AssignsIn(lines, j, section, name))
  }

  /** A section that is closed and not opened again assigns nothing. */
  lemma {:induction false} NothingWhileClosed(rest: seq<string>, section: string, name: string)
    requires forall i | 0 <= i < |rest| :: !ActiveAfterLine(rest[i], section, false)
    ensures ValueOf(rest, section, false, name) == None
  {
    if rest != [] {
      NothingWhileClosed(rest[1..], section, name);
    }
  }

  lemma {:induction false} NothingAssigned(before: seq<string>, rest: seq<string>, section: string, name: string)
    requires forall k | |before| <= k < |before + rest| :: !AssignsIn(before + rest, k, section, name)
    ensures ValueOf(rest, section, ActiveAfter(before, section, false), name) == None
    decreases |rest|
  {
    hide SectionHeader, Assignment, SameName;
    if rest != [] {
      assert (before + rest)[..|before|] == before && (before + rest)[|before|] == rest[0];
      assert !AssignsIn(before + rest, |before|, section, name);
      assert before + [rest[0]] + rest[1..] == before + rest;
      ActiveAfterAppend(before, [rest[0]], section, false);
      assert [rest[0]][1..] == [];
      NothingAssigned(before + [rest[0]], rest[1..], section, name);
      NothingOnLine(rest[0], name, ActiveAfter(before, section, false));
    }
  }

  lemma NothingOnLine(line: string, name: string, active: bool)
    requires !(active && Assigns(line, name))
    ensures AssignedTo(line, active, name) == None
  {
  }

  lemma RestAssignsNothing(lines: seq<string>, section: string, name: string)
    requires Unambiguous(lines, section, name) && !Locate(lines, section, name).Absent?
    ensures ValueOf(Rest(lines, Locate(lines, section, name)), section, true, name) == None
  {
    hide SectionHeader, Assignment, SameName;
    var edit := Locate(lines, section, name);
    var j := edit.index;
    LocateActive(lines, section, name, name);
    if edit.Replace? {
      assert AssignsIn(lines, j, section, name);
      AfterAssignment(lines, j, section, name);
      assert lines[..j + 1] + lines[j + 1..] == lines;
      NothingAssigned(lines[..j + 1], lines[j + 1..], section, name);
    } else if j < |lines| {
      FirstHeaderActive(lines, section, name);
      var i := FirstHeader(lines, section).value;
      assert ActiveAfterLine(lines[i], section, false);
      assert forall k | 0 <= k < |lines| - j :: lines[j..][k] == lines[j + k];
      NothingWhileClosed(lines[j + 1..], section, name);
    }
  }

  lemma AfterAssignment(lines: seq<string>, j: nat, section: string, name: string)
    requires j < |lines| && AssignsIn(lines, j, section, name)
    ensures ActiveAfter(lines[..j + 1], section, false)
  {
    hide Assignment, SameName;
    assert lines[..j + 1] == lines[..j] + [lines[j]] && [lines[j]][1..] == [];
    ActiveAfterAppend(lines[..j], [lines[j]], section, false);
  }

  /** A clean value in an unambiguous, newline-terminated text always reads back. */
  lemma CleanSetSettles(text: string, section: string, name: string, value: string)
    requires SetText(text, section, name, value).Ok?
    requires CleanValue(value) == value && Trim(section) == section
    requires Unambiguous(SplitInclusive(text), section, name)
    requires text == "" || EndsWith(text, "\n")
    ensures Settles(text, section, name, value)
  {
    hide SetText, Locate, Unambiguous, ValueOf, CleanValue, Trim;
    var lines := SplitInclusive(text);
    if !Locate(lines, section, name).Absent? {
      RestAssignsNothing(lines, section, name);
      LastLineEnds(text);
      assert text[|text| - 1..] == [text[|text| - 1]];
    }
  }

  // ----- set leaves everything else alone -----

  /** No other name of the section has changed, and no name of any other section; names are told apart without case. */
  ghost predicate OtherValuesKept(text: string, after: string, section: string, name: string) {
    && (forall key | !SameName(key, name) ::
          Lookup(ExplicitValues(after, section), key) == Lookup(ExplicitValues(text, section), key))
    && (forall other | !SameName(other, section) :: ExplicitValues(after, other) == ExplicitValues(text, other))
  }

  /** As many newlines as a text that is not empty needs to end with a blank line, and no more. */
  predicate FirstBlankLine(text: string, gap: string) {
    if text == "" then gap == ""
    else EndsWith(text + gap, "\n\n") && forall less | less in {"", "\n"} && |less| < |gap| :: !EndsWith(text + less, "\n\n")
  }

  lemma NewlinesAtEnd(text: string)
    ensures EndsWith(text, "\n") <==> |text| >= 1 && text[|text| - 1] == '\n'
    ensures EndsWith(text, "\n\n") <==> |text| >= 2 && text[|text| - 1] == '\n' && text[|text| - 2] == '\n'
  {
    if |text| >= 1 {
      assert text[|text| - 1..] == [text[|text| - 1]];
    }
    if |text| >= 2 {
      assert text[|text| - 2..] == [text[|text| - 2], text[|text| - 1]];
    }
    assert "\n\n" == ['\n', '\n'] && "\n" == ['\n'];
  }

  lemma SeparatorIsFirstBlankLine(text: string)
    ensures FirstBlankLine(text, Separator(text))
  {
    hide EndsWith;
    NewlinesAtEnd(text);
    NewlinesAtEnd(text + "\n");
    NewlinesAtEnd(text + "\n\n");
    assert text + "" == text;
  }

  /** Every line except the edited one is kept character for character: a replaced line keeps its ending, an inserted
      line is the only new one, and a created section follows the whole former text behind a blank line. */
  ghost predicate OtherLinesKept(text: string, after: string, section: string, name: string, value: string) {
    var lines, edit := SplitInclusive(text), Locate(SplitInclusive(text), section, name);
    match edit
    case Replace(i) => SplitInclusive(after) == lines[i := AssignmentLine(name, value, LineEnding(lines[i]))]
    case Insert(i) =>
      && |SplitInclusive(after)| == |lines| + 1 && i <= |lines|
      && SplitInclusive(after)[..i] == lines[..i]
      && SplitInclusive(after)[i] == AssignmentLine(name, value, "\n")
      && SplitInclusive(after)[i + 1..] == lines[i..]
    case Absent =>
      && text <= after
      && (exists gap | gap in {"", "\n", "\n\n"} ::
            && after == text + gap + "[" + section + "]\n" + name + " = " + value + "\n"
            && FirstBlankLine(text, gap))
  }

  lemma OwnLineKeepsOtherLines(text: string, section: string, name: string, value: string)
    requires SetText(text, section, name, value).Ok?
    requires LandsOnItsOwnLine(SplitInclusive(text), Locate(SplitInclusive(text), section, name))
    ensures OtherLinesKept(text, SetText(text, section, name, value).value, section, name, value)
  {
    var lines, edit := SplitInclusive(text), Locate(SplitInclusive(text), section, name);
    match edit {
      case Absent =>
        CreatedText(text, section, name, value);
      case Replace(i) =>
        EditedLinesSplitBack(text, section, name, value);
        SplitThenConcat(text);
        WrittenLineIsLine(name, value, LineEnding(lines[i]));
        ReplacedAreLines(lines, i, AssignmentLine(name, value, LineEnding(lines[i])));
      case Insert(i) =>
        EditedLinesSplitBack(text, section, name, value);
        InsertedLine(lines, i, AssignmentLine(name, value, "\n"));
    }
  }

  lemma CreatedText(text: string, section: string, name: string, value: string)
    requires SetText(text, section, name, value).Ok? && Locate(SplitInclusive(text), section, name).Absent?
    ensures OtherLinesKept(text, SetText(text, section, name, value).value, section, name, value)
  {
    hide Locate, SplitInclusive, FirstBlankLine, EndsWith, Trim, Concat;
    var after := SetText(text, section, name, value).value;
    var gap := Separator(text);
    SeparatorIsFirstBlankLine(text);
    assert after == text + gap + "[" + section + "]\n" + name + " = " + value + "\n";
    assert after[..|text|] == text;
  }

  lemma InsertedLine(lines: seq<string>, i: nat, line: string)
    requires i <= |lines|
    ensures var edited := lines[..i] + [line] + lines[i..];
            && |edited| == |lines| + 1 && edited[..i] == lines[..i] && edited[i] == line && edited[i + 1..] == lines[i..]
  {
  }
}
