/** Laws of removal and of repeated sets. */
module ConfigRemoveLaws {
  import opened Wrappers
  import opened ConfigText
  import opened ConfigEditor
  import opened ConfigLaws

  // ----- finding the line to remove -----

  lemma {:induction false} FirstAssignmentAppend(a: seq<string>, b: seq<string>, section: string, name: string, active: bool)
    ensures FirstAssignment(a + b, section, name, active)
              == match FirstAssignment(a, section, name, active)
                 case Some(i) => Some(i)
                 case None =>
                   match FirstAssignment(b, section, name, ActiveAfter(a, section, active))
                   case Some(j) => Some(|a| + j)
                   case None => None
  {
    hide SectionHeader, Assignment, SameName;
    if a == [] {
      assert a + b == b;
    } else {
      assert (a + b)[1..] == a[1..] + b;
      FirstAssignmentAppend(a[1..], b, section, name, ActiveAfterLine(a[0], section, active));
    }
  }

  /** Nothing to remove means nothing assigned under that name, and the other way round. */
  lemma {:induction false} NoFirstAssignment(lines: seq<string>, section: string, name: string, active: bool)
    ensures FirstAssignment(lines, section, name, active).None? <==>
              forall key | SameName(key, name) :: ValueOf(lines, section, active, key) == None
  {
    if lines != [] {
      var next := ActiveAfterLine(lines[0], section, active);
      NoFirstAssignment(lines[1..], section, name, next);
      if active && Assigns(lines[0], name) {
        var key := Assignment(lines[0]).value.0;
        assert ValueOf(lines, section, active, key)
            == Later(AssignedTo(lines[0], active, key), ValueOf(lines[1..], section, next, key));
        assert ValueOf(lines, section, active, key).Some?;
      } else {
        forall key | SameName(key, name)
          ensures ValueOf(lines, section, active, key) == ValueOf(lines[1..], section, next, key)
        {
        }
      }
    }
  }

  lemma {:induction false} BeforeFirstAssignment(lines: seq<string>, section: string, name: string, active: bool)
    requires FirstAssignment(lines, section, name, active).Some?
    ensures var i := FirstAssignment(lines, section, name, active).value;
            && FirstAssignment(lines[..i], section, name, active) == None
            && ActiveAfter(lines[..i], section, active)
  {
    if !(active && Assigns(lines[0], name)) {
      var next := ActiveAfterLine(lines[0], section, active);
      BeforeFirstAssignment(lines[1..], section, name, next);
      var i := FirstAssignment(lines, section, name, active).value;
      assert lines[..i][1..] == lines[1..][..i - 1];
    }
  }

  // ----- remove -----

  lemma LinesWithout(lines: seq<string>, i: nat)
    requires AreLines(lines) && i < |lines|
    ensures AreLines(lines[..i] + lines[i + 1..])
  {
  }

  lemma RemovedLinesSplitBack(text: string, section: string, name: string)
    requires RemoveText(text, section, name).Ok? && RemoveText(text, section, name).value.0
    ensures var lines := SplitInclusive(text);
            var i := FirstAssignment(lines, section, name, false).value;
            SplitInclusive(RemoveText(text, section, name).value.1) == lines[..i] + lines[i + 1..]
  {
    SplitThenConcat(text);
    var lines := SplitInclusive(text);
    var i := FirstAssignment(lines, section, name, false).value;
    LinesWithout(lines, i);
    ConcatThenSplit(lines[..i] + lines[i + 1..]);
  }

  lemma RemovedValue(before: seq<string>, line: string, rest: seq<string>, section: string, name: string, other: string, key: string)
    requires Assigns(line, name) && ActiveAfter(before, section, false)
    requires SameName(other, section) ==> other == section && !SameName(key, name)
    ensures ValueOf(before + rest, other, false, key) == ValueOf(before + [line] + rest, other, false, key)
  {
    ValueOfAround(before, line, rest, other, key);
    ValueOfAppend(before, rest, other, false, key);
    if !SameName(other, section) {
      OneSectionIsOpen(before, section, other, false, false);
    }
  }

  /** `remove_value` answers true exactly when the section assigns the name in some spelling. It then takes
      out that one line: every other name of the section and every other section keep their values, and
      what remains under the name is what later lines assign. */
  lemma RemoveThenGet(text: string, section: string, name: string)
    requires RemoveText(text, section, name).Ok?
    ensures var (found, after) := RemoveText(text, section, name).value;
            && (found <==> exists key :: SameName(key, name) && key in ExplicitValues(text, section))
            && (!found ==> after == text)
            && (found ==>
                  var lines, i := SplitInclusive(text), FirstAssignment(SplitInclusive(text), section, name, false).value;
                  && SplitInclusive(after) == lines[..i] + lines[i + 1..]
                  && (forall key | SameName(key, name) ::
                        ValueOf(SplitInclusive(after), section, false, key) == ValueOf(lines[i + 1..], section, true, key)))
            && (forall key | !SameName(key, name) ::
                  ValueOf(SplitInclusive(after), section, false, key) == ValueOf(SplitInclusive(text), section, false, key))
            && (forall other, key | !SameName(other, section) ::
                  ValueOf(SplitInclusive(after), other, false, key) == ValueOf(SplitInclusive(text), other, false, key))
  {
    var lines := SplitInclusive(text);
    var (found, after) := RemoveText(text, section, name).value;
    RemoveFinds(text, section, name);
    if found {
      RemovedLinesSplitBack(text, section, name);
      BeforeFirstAssignment(lines, section, name, false);
      var i := FirstAssignment(lines, section, name, false).value;
      assert lines == lines[..i] + [lines[i]] + lines[i + 1..];
      forall other: string, key: string | !SameName(other, section) || (other == section && !SameName(key, name))
        ensures ValueOf(SplitInclusive(after), other, false, key) == ValueOf(lines, other, false, key)
      {
        RemovedValue(lines[..i], lines[i], lines[i + 1..], section, name, other, key);
      }
      forall key: string | SameName(key, name)
        ensures ValueOf(SplitInclusive(after), section, false, key) == ValueOf(lines[i + 1..], section, true, key)
      {
        RemainingValue(lines[..i], lines[i + 1..], section, name, key);
      }
    }
  }

  /** Nothing is assigned under the name before the removed line. */
  lemma RemainingValue(before: seq<string>, rest: seq<string>, section: string, name: string, key: string)
    requires FirstAssignment(before, section, name, false) == None && ActiveAfter(before, section, false)
    requires SameName(key, name)
    ensures ValueOf(before + rest, section, false, key) == ValueOf(rest, section, true, key)
  {
    NoFirstAssignment(before, section, name, false);
    ValueOfAppend(before, rest, section, false, key);
  }

  lemma RemoveFinds(text: string, section: string, name: string)
    requires RemoveText(text, section, name).Ok?
    ensures RemoveText(text, section, name).value.0 <==>
              exists key :: SameName(key, name) && key in ExplicitValues(text, section)
  {
    var lines := SplitInclusive(text);
    NoFirstAssignment(lines, section, name, false);
    if RemoveText(text, section, name).value.0 {
      var key :| SameName(key, name) && ValueOf(lines, section, false, key) != None;
      ValuesByKey(lines, section, false, key);
      assert SameName(key, name) && key in ExplicitValues(text, section);
    } else {
      forall key: string | SameName(key, name)
        ensures key !in ExplicitValues(text, section)
      {
        ValuesByKey(lines, section, false, key);
      }
    }
  }

  // ----- set, then remove -----

  lemma NothingToRemoveBeforeEdit(lines: seq<string>, section: string, name: string)
    requires !Locate(lines, section, name).Absent?
    ensures var edit := Locate(lines, section, name);
            edit.index <= |lines| && FirstAssignment(lines[..edit.index], section, name, false) == None
  {
    var edit := Locate(lines, section, name);
    LocateActive(lines, section, name, name);
    forall key: string | SameName(key, name)
      ensures ValueOf(lines[..edit.index], section, false, key) == None
    {
      LocateActive(lines, section, name, key);
    }
    NoFirstAssignment(lines[..edit.index], section, name, false);
  }

  lemma WrittenLineAssigns(name: string, value: string, ending: string)
    requires ValidOptionName(name) && Blank(ending)
    ensures Assigns(AssignmentLine(name, value, ending), name)
  {
    WrittenLineReadsBack([], name, value, ending);
    assert [] + AssignmentLine(name, value, ending) == AssignmentLine(name, value, ending);
  }

  lemma FirstAssignmentAt(before: seq<string>, line: string, rest: seq<string>, section: string, name: string)
    requires FirstAssignment(before, section, name, false) == None && ActiveAfter(before, section, false)
    requires Assigns(line, name)
    ensures FirstAssignment(before + [line] + rest, section, name, false) == Some(|before|)
  {
    assert before + [line] + rest == before + ([line] + rest);
    FirstAssignmentAppend(before, [line] + rest, section, name, false);
    assert FirstAssignment([line] + rest, section, name, true) == Some(0);
  }

  lemma FirstAssignmentIsTheEdit(lines: seq<string>, section: string, name: string, value: string)
    requires ValidOptionName(name) && !Locate(lines, section, name).Absent?
    ensures var edit := Locate(lines, section, name);
            FirstAssignment(EditedLines(lines, edit, name, value), section, name, false) == Some(edit.index)
  {
    var edit := Locate(lines, section, name);
    LocateActive(lines, section, name, name);
    NothingToRemoveBeforeEdit(lines, section, name);
    var ending := if edit.Replace? then LineEnding(lines[edit.index]) else "\n";
    WrittenLineAssigns(name, value, ending);
    FirstAssignmentAt(lines[..edit.index], AssignmentLine(name, value, ending), Rest(lines, edit), section, name);
  }

  lemma OwnLineSetThenRemoveRestores(text: string, section: string, name: string, value: string)
    requires SetText(text, section, name, value).Ok?
    requires var lines := SplitInclusive(text); var edit := Locate(lines, section, name);
             edit.Insert? && LandsOnItsOwnLine(lines, edit)
    ensures RemoveText(SetText(text, section, name, value).value, section, name) == Ok((true, text))
  {
    var lines := SplitInclusive(text);
    var edit := Locate(lines, section, name);
    EditedLinesSplitBack(text, section, name, value);
    FirstAssignmentIsTheEdit(lines, section, name, value);
    var edited := EditedLines(lines, edit, name, value);
    InsertedThenDropped(lines, edit.index, AssignmentLine(name, value, "\n"));
    RemovesLine(SetText(text, section, name, value).value, section, name, edited, edit.index);
    SplitThenConcat(text);
  }

  lemma InsertedThenDropped(lines: seq<string>, i: nat, line: string)
    requires i <= |lines|
    ensures var edited := lines[..i] + [line] + lines[i..];
            edited[..i] + edited[i + 1..] == lines
  {
  }

  lemma RemovesLine(text: string, section: string, name: string, lines: seq<string>, i: nat)
    requires ValidSectionName(section) && ValidOptionName(name)
    requires SplitInclusive(text) == lines && FirstAssignment(lines, section, name, false) == Some(i)
    ensures i < |lines| && RemoveText(text, section, name) == Ok((true, Concat(lines[..i] + lines[i + 1..])))
  {
  }

  // ----- set twice -----

  lemma {:induction false} FirstHeaderPrefix(a: seq<string>, b: seq<string>, section: string)
    requires FirstHeader(a, section).Some?
    ensures FirstHeader(a + b, section) == FirstHeader(a, section)
  {
    if !ActiveAfterLine(a[0], section, false) {
      assert (a + b)[1..] == a[1..] + b;
      FirstHeaderPrefix(a[1..], b, section);
    } else {
      assert (a + b)[0] == a[0];
    }
  }

  lemma {:induction false} FirstHeaderWithin(lines: seq<string>, section: string, k: nat)
    requires FirstHeader(lines, section).Some? && FirstHeader(lines, section).value < k <= |lines|
    ensures FirstHeader(lines[..k], section) == FirstHeader(lines, section)
  {
    if !ActiveAfterLine(lines[0], section, false) {
      assert lines[..k][1..] == lines[1..][..k - 1];
      FirstHeaderWithin(lines[1..], section, k - 1);
    }
  }

  /** Scanning stops at the first line that is a header or assigns the name. */
  lemma {:induction false} ScanStops(lines: seq<string>, name: string, from: nat, at: nat)
    requires from <= at < |lines| && Assigns(lines[at], name)
    requires forall k | from <= k < at :: SectionHeader(lines[k]).None? && !Assigns(lines[k], name)
    ensures Scan(lines, name, from) == Replace(at)
    decreases at - from
  {
    if from < at {
      ScanStops(lines, name, from + 1, at);
    }
  }

  lemma LocateAt(before: seq<string>, line: string, rest: seq<string>, section: string, name: string)
    requires Assigns(line, name) && FirstHeader(before, section).Some?
    requires forall k | FirstHeader(before, section).value < k < |before| ::
               SectionHeader(before[k]).None? && !Assigns(before[k], name)
    ensures Locate(before + [line] + rest, section, name) == Replace(|before|)
  {
    var lines := before + [line] + rest;
    assert lines == before + ([line] + rest) && lines[|before|] == line;
    FirstHeaderPrefix(before, [line] + rest, section);
    ScanStops(lines, name, FirstHeader(before, section).value + 1, |before|);
  }

  /** After an edit, the same key is found again on the edited line. */
  lemma LocateAfterEdit(lines: seq<string>, section: string, name: string, value: string)
    requires ValidOptionName(name) && !Locate(lines, section, name).Absent?
    ensures var edit := Locate(lines, section, name);
            Locate(EditedLines(lines, edit, name, value), section, name) == Replace(edit.index)
  {
    var edit := Locate(lines, section, name);
    var ending := if edit.Replace? then LineEnding(lines[edit.index]) else "\n";
    ScanFinds(lines, name, FirstHeader(lines, section).value + 1);
    WrittenLineAssigns(name, value, ending);
    FirstHeaderWithin(lines, section, edit.index);
    LocateAt(lines[..edit.index], AssignmentLine(name, value, ending), Rest(lines, edit), section, name);
  }

  lemma SetIsEdit(text: string, section: string, name: string, value: string)
    requires ValidSectionName(section) && ValidOptionName(name) && ValidValue(value)
    requires !Locate(SplitInclusive(text), section, name).Absent?
    ensures var lines := SplitInclusive(text);
            SetText(text, section, name, value) == Ok(Concat(EditedLines(lines, Locate(lines, section, name), name, value)))
  {
    var lines := SplitInclusive(text);
    var edit := Locate(lines, section, name);
    if edit.Replace? {
      assert EditedLines(lines, edit, name, value)
          == lines[edit.index := AssignmentLine(name, value, LineEnding(lines[edit.index]))];
    }
  }

  lemma EditTwiceIsEditOnce(lines: seq<string>, section: string, name: string, first: string, second: string)
    requires ValidOptionName(name) && ValidValue(first) && !Locate(lines, section, name).Absent?
    ensures var edit := Locate(lines, section, name);
            EditedLines(EditedLines(lines, edit, name, first), Replace(edit.index), name, second)
              == EditedLines(lines, edit, name, second)
  {
    var edit := Locate(lines, section, name);
    var ending := if edit.Replace? then LineEnding(lines[edit.index]) else "\n";
    var once := EditedLines(lines, edit, name, first);
    assert once[..edit.index] == lines[..edit.index] && once[edit.index + 1..] == Rest(lines, edit);
    assert once[edit.index] == AssignmentLine(name, first, ending);
    WrittenEnding(name, first, ending);
  }

  lemma OwnLineSetTwice(text: string, section: string, name: string, first: string, second: string)
    requires SetText(text, section, name, first).Ok? && ValidValue(second)
    requires var lines := SplitInclusive(text); var edit := Locate(lines, section, name);
             !edit.Absent? && LandsOnItsOwnLine(lines, edit)
    ensures SetText(SetText(text, section, name, first).value, section, name, second)
              == SetText(text, section, name, second)
  {
    var lines := SplitInclusive(text);
    EditedLinesSplitBack(text, section, name, first);
    LocateAfterEdit(lines, section, name, first);
    EditTwiceIsEditOnce(lines, section, name, first, second);
    SetIsEdit(SetText(text, section, name, first).value, section, name, second);
    SetIsEdit(text, section, name, second);
  }

  lemma WrittenEnding(name: string, value: string, ending: string)
    requires ValidOptionName(name) && ValidValue(value) && ending in {"", "\n", "\r\n"}
    ensures LineEnding(AssignmentLine(name, value, ending)) == ending
  {
    var line := AssignmentLine(name, value, ending);
    var body := name + " = " + value;
    assert body != [] && body[|body| - 1] != '\r' && body[|body| - 1] != '\n' by {
      assert if value == "" then body[|body| - 1] == ' ' else body[|body| - 1] == value[|value| - 1];
    }
    assert line == body + ending;
    if ending == "" {
      assert line == body;
      if |line| >= 2 {
        assert line[|line| - 2..][1] == line[|line| - 1];
      }
    } else if ending == "\n" {
      assert line[|line| - 2..][0] == body[|body| - 1];
    } else {
      assert line[|line| - 2..] == ending;
    }
  }
}
