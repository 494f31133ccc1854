/** The configuration document as an object whose text is edited in place
    (rust/core/src/config_document.rs:58-307). */
module ConfigDocument {
  import opened Wrappers
  import opened ConfigText
  import opened ConfigEditor

  lemma LineReadsWithoutEnding(line: string)
    ensures SectionHeader(WithoutEnding(line)) == SectionHeader(line)
    ensures Assignment(WithoutEnding(line)) == Assignment(line)
  {
    var ending := LineEnding(line);
    assert line == WithoutEnding(line) + ending;
    HeaderIgnoresEnding(WithoutEnding(line), ending);
    AssignmentIgnoresEnding(WithoutEnding(line), ending);
  }

  class Document {
    var text: string

    constructor (initial: string)
      ensures text == initial
    {
      text := initial;
    }

    /** The assignments of one section, later ones replacing earlier ones. */
    method ReadValues(section: string) returns (values: map<string, string>)
      ensures values == ExplicitValues(text, section)
    {
      var lines := SplitInclusive(text);
      values := map[];
      var active := false;
      assert lines[0..] == lines;
      for i := 0 to |lines|
        invariant values + Values(lines[i..], section, active) == ExplicitValues(text, section)
      {
        var line := WithoutEnding(lines[i]);
        ReadOneLine(values, lines, i, section, active);
        match SectionHeader(line) {
          case Some(found) =>
            active := SameName(found, section);
          case None =>
            if active {
              match Assignment(line) {
                case Some(entry) => values := values[entry.0 := entry.1];
                case None =>
              }
            }
        }
      }
    }

    /** Replaces the first assignment in place, or adds one at the end of the first section of that name, or
        appends a new section. */
    method SetValue(section: string, name: string, value: string) returns (result: Result<(), ConfigError>)
      modifies this
      ensures match SetText(old(text), section, name, value)
              case Ok(after) => result == Ok(()) && text == after
              case Err(error) => result == Err(error) && text == old(text)
    {
      if !ValidSectionName(section) {
        return Err(InvalidSectionName);
      }
      if !ValidOptionName(name) {
        return Err(InvalidOptionName);
      }
      if !ValidValue(value) {
        return Err(InvalidValue);
      }
      hide SectionHeader, Assignment, LineEnding, SplitInclusive, Concat, SameName, FirstHeader, Creatable;
      var lines := SplitInclusive(text);
      var active, sectionIndex, sectionEnd := false, None, |lines|;
      var index := 0;
      LocateStep(lines, section, name, 0);
      assert lines[0..] == lines;
      while index < |lines|
        invariant 0 <= index <= |lines| && sectionEnd == |lines| && text == old(text)
        invariant active <==> sectionIndex.Some?
        invariant active ==> sectionIndex.value < index && Locate(lines, section, name) == Scan(lines, name, index)
        invariant !active ==> Locate(lines, section, name) == LocateFrom(lines, section, name, index)
      {
        match SectionHeader(lines[index]) {
          case Some(found) =>
            if active {
              sectionEnd := index;
              break;
            }
            active := SameName(found, section);
            if active {
              sectionIndex := Some(index);
            }
          case None =>
            if active && Assigns(lines[index], name) {
              text := Concat(lines[index := AssignmentLine(name, value, LineEnding(lines[index]))]);
              return Ok(());
            }
        }
        index := index + 1;
      }
      match sectionIndex {
        case Some(first) =>
          var at := if sectionEnd > first + 1 then sectionEnd else first + 1;
          text := Concat(lines[..at] + [AssignmentLine(name, value, "\n")] + lines[at..]);
          return Ok(());
        case None =>
      }
      if !Creatable(section) {
        return Err(MissingChannel);
      }
      AppendSection(section, name, value);
      return Ok(());
    }

    /** A new section at the end, behind one blank line. */
    method AppendSection(section: string, name: string, value: string)
      modifies this
      ensures text == old(text) + Separator(old(text)) + HeaderLine(section) + AssignmentLine(name, value, "\n")
    {
      if text != "" && !EndsWith(text, "\n") {
        text := text + "\n";
      }
      if text != "" && !EndsWith(text, "\n\n") {
        text := text + "\n";
      }
      SeparatorWritten(old(text));
      text := text + HeaderLine(section) + AssignmentLine(name, value, "\n");
    }

    /** Removes the first assignment of the name in any section of that name. */
    method RemoveValue(section: string, name: string) returns (result: Result<bool, ConfigError>)
      modifies this
      ensures match RemoveText(old(text), section, name)
              case Ok(outcome) => result == Ok(outcome.0) && text == outcome.1
              case Err(error) => result == Err(error) && text == old(text)
    {
      if !ValidSectionName(section) {
        return Err(InvalidSectionName);
      }
      if !ValidOptionName(name) {
        return Err(InvalidOptionName);
      }
      var lines := SplitInclusive(text);
      var active := false;
      FirstAssignmentStep(lines, section, name, 0, false);
      assert lines[0..] == lines;
      for index := 0 to |lines|
        invariant text == old(text)
        invariant FirstAssignment(lines, section, name, false)
                    == FirstAssignmentFrom(lines, section, name, index, active)
      {
        match SectionHeader(lines[index]) {
          case Some(found) =>
            active := SameName(found, section);
          case None =>
            if active && Assigns(lines[index], name) {
              text := Concat(lines[..index] + lines[index + 1..]);
              return Ok(true);
            }
        }
      }
      return Ok(false);
    }
  }

  /** What the reading loop makes of one line. */
  function Updated(values: map<string, string>, line: string, active: bool): map<string, string> {
    if active && SectionHeader(line).None? && Assignment(line).Some?
    then values[Assignment(line).value.0 := Assignment(line).value.1]
    else values
  }

  lemma UpdatedMerges(values: map<string, string>, line: string, active: bool)
    ensures Updated(values, line, active) == values + Assigned(line, active)
  {
  }

  /** One turn of the reading loop, which sees the line without its ending. */
  lemma ReadOneLine(values: map<string, string>, lines: seq<string>, i: nat, section: string, active: bool)
    requires i < |lines|
    ensures var line := WithoutEnding(lines[i]);
            values + Values(lines[i..], section, active)
              == Updated(values, line, active) + Values(lines[i + 1..], section, ActiveAfterLine(line, section, active))
  {
    LineReadsWithoutEnding(lines[i]);
    UpdatedMerges(values, lines[i], active);
    assert lines[i..][0] == lines[i] && lines[i..][1..] == lines[i + 1..];
    MergeInTurn(values, Assigned(lines[i], active),
                Values(lines[i + 1..], section, ActiveAfterLine(lines[i], section, active)));
  }

  lemma MergeInTurn(a: map<string, string>, b: map<string, string>, c: map<string, string>)
    ensures a + (b + c) == (a + b) + c
  {
  }

  /** The search of `set_value` before it has met the section, by line number. */
  ghost function LocateFrom(lines: seq<string>, section: string, name: string, from: nat): Edit
    requires from <= |lines|
    decreases |lines| - from
  {
    if from == |lines| then Absent
    else if ActiveAfterLine(lines[from], section, false) then Scan(lines, name, from + 1)
    else LocateFrom(lines, section, name, from + 1)
  }

  ghost function Shifted(index: Option<nat>, offset: nat): Option<nat> {
    match index
    case None => None
    case Some(i) => Some(i + offset)
  }

  lemma {:induction false} LocateStep(lines: seq<string>, section: string, name: string, from: nat)
    requires from <= |lines|
    ensures LocateFrom(lines, section, name, from)
              == match FirstHeader(lines[from..], section)
                 case None => Absent
                 case Some(i) => Scan(lines, name, from + i + 1)
    decreases |lines| - from
  {
    if from < |lines| {
      assert lines[from..][0] == lines[from] && lines[from..][1..] == lines[from + 1..];
      LocateStep(lines, section, name, from + 1);
    }
  }

  /** The search of `remove_value`, by line number. */
  ghost function FirstAssignmentFrom(lines: seq<string>, section: string, name: string, from: nat, active: bool)
    : Option<nat>
    requires from <= |lines|
    decreases |lines| - from
  {
    if from == |lines| then None
    else if active && Assigns(lines[from], name) then Some(from)
    else FirstAssignmentFrom(lines, section, name, from + 1, ActiveAfterLine(lines[from], section, active))
  }

  lemma {:induction false} FirstAssignmentStep(lines: seq<string>, section: string, name: string, from: nat, active: bool)
    requires from <= |lines|
    ensures FirstAssignmentFrom(lines, section, name, from, active)
              == Shifted(FirstAssignment(lines[from..], section, name, active), from)
    decreases |lines| - from
  {
    hide SectionHeader, Assignment, SameName;
    if from < |lines| {
      var rest := lines[from..];
      assert rest[0] == lines[from] && rest[1..] == lines[from + 1..];
      FirstAssignmentStep(lines, section, name, from + 1, ActiveAfterLine(lines[from], section, active));
    }
  }

  /** The newlines pushed one by one are the separator. */
  lemma SeparatorWritten(text: string)
    ensures var once := if text != "" && !EndsWith(text, "\n") then text + "\n" else text;
            var twice := if once != "" && !EndsWith(once, "\n\n") then once + "\n" else once;
            twice == text + Separator(text)
  {
  }
}
