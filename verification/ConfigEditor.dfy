/** The comment-preserving editor as functions on the text, and where each edit lands
    (rust/core/src/config_document.rs:118-135, 231-307). */
module ConfigEditor {
  import opened Wrappers
  import opened ConfigText

  datatype ConfigError = InvalidSectionName | InvalidOptionName | InvalidValue | MissingChannel

  const FLAT_SECTIONS: seq<string> :=
    ["general", "asterisk", "hardware", "receive", "transmit", "ctcss", "dcs", "duplex", "diagnostics",
     "local", "link", "voice_telemetry", "remote_base", "remote_memory", "remote_scan"]

  // ----- reading -----

  function ActiveAfterLine(line: string, section: string, active: bool): bool {
    match SectionHeader(line)
    case Some(found) => SameName(found, section)
    case None => active
  }

  function ActiveAfter(lines: seq<string>, section: string, active: bool): bool {
    if lines == [] then active else ActiveAfter(lines[1..], section, ActiveAfterLine(lines[0], section, active))
  }

  /** What one line assigns when it stands in the requested section. */
  function Assigned(line: string, active: bool): map<string, string> {
    if active && SectionHeader(line).None? && Assignment(line).Some?
    then map[Assignment(line).value.0 := Assignment(line).value.1]
    else map[]
  }

  /** The assignments of `section`; a later one replaces an earlier one of the same name. */
  function Values(lines: seq<string>, section: string, active: bool): map<string, string> {
    if lines == [] then map[]
    else Assigned(lines[0], active) + Values(lines[1..], section, ActiveAfterLine(lines[0], section, active))
  }

  function ExplicitValues(text: string, section: string): map<string, string> {
    Values(SplitInclusive(text), section, false)
  }

  // ----- editing -----

  datatype Edit = Replace(index: nat) | Insert(index: nat) | Absent

  function FirstHeader(lines: seq<string>, section: string): (index: Option<nat>)
    ensures index.Some? ==> index.value < |lines|
  {
    if lines == [] then None
    else if ActiveAfterLine(lines[0], section, false) then Some(0)
    else match FirstHeader(lines[1..], section) case Some(i) => Some(i + 1) case None => None
  }

  predicate Assigns(line: string, name: string) {
    SectionHeader(line).None? && Assignment(line).Some? && SameName(Assignment(line).value.0, name)
  }

  /** The first line from `from` on that assigns `name`, or the end of the section. */
  function Scan(lines: seq<string>, name: string, from: nat): (edit: Edit)
    requires from <= |lines|
    ensures edit.Replace? ==> from <= edit.index < |lines|
    ensures edit.Insert? ==> from <= edit.index <= |lines|
    ensures !edit.Absent?
    decreases |lines| - from
  {
    if from == |lines| || SectionHeader(lines[from]).Some? then Insert(from)
    else if Assigns(lines[from], name) then Replace(from)
    else Scan(lines, name, from + 1)
  }

  /** Where `set_value` edits: in the first section of that name only. */
  function Locate(lines: seq<string>, section: string, name: string): (edit: Edit)
    ensures edit.Replace? ==> edit.index < |lines|
    ensures edit.Insert? ==> 0 < edit.index <= |lines|
  {
    match FirstHeader(lines, section)
    case None => Absent
    case Some(i) => Scan(lines, name, i + 1)
  }

  predicate Creatable(section: string) {
    || (exists i | 0 <= i < |section| :: IsWhitespace(section[i]))
    || (exists k | 0 <= k < |FLAT_SECTIONS| :: SameName(section, FLAT_SECTIONS[k]))
  }

  predicate EndsWith(text: string, suffix: string) {
    |text| >= |suffix| && text[|text| - |suffix|..] == suffix
  }

  /** The newlines written before a new section. */
  function Separator(text: string): string {
    if text == [] then ""
    else if !EndsWith(text, "\n") then "\n\n"
    else if !EndsWith(text, "\n\n") then "\n"
    else ""
  }

  function HeaderLine(section: string): string {
    "[" + section + "]\n"
  }

  function SetText(text: string, section: string, name: string, value: string): Result<string, ConfigError> {
    if !ValidSectionName(section) then Err(InvalidSectionName)
    else if !ValidOptionName(name) then Err(InvalidOptionName)
    else if !ValidValue(value) then Err(InvalidValue)
    else
      var lines := SplitInclusive(text);
      match Locate(lines, section, name)
      case Replace(i) => Ok(Concat(lines[i := AssignmentLine(name, value, LineEnding(lines[i]))]))
      case Insert(i) => Ok(Concat(lines[..i] + [AssignmentLine(name, value, "\n")] + lines[i..]))
      case Absent =>
        if !Creatable(section) then Err(MissingChannel)
        else Ok(text + Separator(text) + HeaderLine(section) + AssignmentLine(name, value, "\n"))
  }

  /** The first line that assigns `name` while a section of that name is open, in any such section. */
  function FirstAssignment(lines: seq<string>, section: string, name: string, active: bool): (index: Option<nat>)
    ensures index.Some? ==> index.value < |lines| && Assigns(lines[index.value], name)
  {
    if lines == [] then None
    else if active && Assigns(lines[0], name) then Some(0)
    else match FirstAssignment(lines[1..], section, name, ActiveAfterLine(lines[0], section, active))
      case Some(i) => Some(i + 1)
      case None => None
  }

  function RemoveText(text: string, section: string, name: string): Result<(bool, string), ConfigError> {
    if !ValidSectionName(section) then Err(InvalidSectionName)
    else if !ValidOptionName(name) then Err(InvalidOptionName)
    else
      var lines := SplitInclusive(text);
      match FirstAssignment(lines, section, name, false)
      case Some(i) => Ok((true, Concat(lines[..i] + lines[i + 1..])))
      case None => Ok((false, text))
  }

  // ----- one key at a time -----

  /** What one line assigns to `key` when it stands in an open section. */
  function AssignedTo(line: string, active: bool, key: string): Option<string> {
    if active && SectionHeader(line).None? && Assignment(line).Some? && Assignment(line).value.0 == key
    then Some(Assignment(line).value.1)
    else None
  }

  /** The later of two assignments. */
  function Later(first: Option<string>, second: Option<string>): Option<string> {
    if second.Some? then second else first
  }

  /** The value in force for `key`: its last assignment in any section of that name. */
  function ValueOf(lines: seq<string>, section: string, active: bool, key: string): Option<string> {
    if lines == [] then None
    else Later(AssignedTo(lines[0], active, key),
               ValueOf(lines[1..], section, ActiveAfterLine(lines[0], section, active), key))
  }

  function Lookup(values: map<string, string>, key: string): Option<string> {
    if key in values then Some(values[key]) else None
  }

  lemma {:induction false} ValuesByKey(lines: seq<string>, section: string, active: bool, key: string)
    ensures ValueOf(lines, section, active, key) == Lookup(Values(lines, section, active), key)
  {
    if lines != [] {
      ValuesByKey(lines[1..], section, ActiveAfterLine(lines[0], section, active), key);
    }
  }

  /** Two readings that agree on every key are the same map. */
  lemma SameValues(a: seq<string>, b: seq<string>, section: string, active: bool)
    requires forall key :: ValueOf(a, section, active, key) == ValueOf(b, section, active, key)
    ensures Values(a, section, active) == Values(b, section, active)
  {
    forall key
      ensures key in Values(a, section, active) <==> key in Values(b, section, active)
      ensures key in Values(a, section, active) ==> Values(a, section, active)[key] == Values(b, section, active)[key]
    {
      ValuesByKey(a, section, active, key);
      ValuesByKey(b, section, active, key);
      assert ValueOf(a, section, active, key) == ValueOf(b, section, active, key);
    }
  }

  lemma {:induction false} ActiveAfterAppend(a: seq<string>, b: seq<string>, section: string, active: bool)
    ensures ActiveAfter(a + b, section, active) == ActiveAfter(b, section, ActiveAfter(a, section, active))
  {
    if a == [] {
      assert a + b == b;
    } else {
      assert (a + b)[1..] == a[1..] + b;
      ActiveAfterAppend(a[1..], b, section, ActiveAfterLine(a[0], section, active));
    }
  }

  lemma {:induction false} ValueOfAppend(a: seq<string>, b: seq<string>, section: string, active: bool, key: string)
    ensures ValueOf(a + b, section, active, key)
              == Later(ValueOf(a, section, active, key), ValueOf(b, section, ActiveAfter(a, section, active), key))
  {
    if a == [] {
      assert a + b == b;
    } else {
      assert (a + b)[1..] == a[1..] + b;
      ValueOfAppend(a[1..], b, section, ActiveAfterLine(a[0], section, active), key);
    }
  }

  /** A text read line by line in the middle: what stands before, the line, and what stands after. */
  lemma ValueOfAround(before: seq<string>, line: string, after: seq<string>, section: string, key: string)
    ensures var active := ActiveAfter(before, section, false);
            ValueOf(before + [line] + after, section, false, key)
              == Later(Later(ValueOf(before, section, false, key), AssignedTo(line, active, key)),
                       ValueOf(after, section, ActiveAfterLine(line, section, active), key))
  {
    assert before + [line] + after == before + ([line] + after);
    ValueOfAppend(before, [line] + after, section, false, key);
    assert ([line] + after)[1..] == after;
  }

  // ----- where the first section ends -----

  lemma {:induction false} FirstHeaderActive(lines: seq<string>, section: string, key: string)
    ensures match FirstHeader(lines, section)
            case None => !ActiveAfter(lines, section, false) && ValueOf(lines, section, false, key) == None
            case Some(i) =>
              && SectionHeader(lines[i]).Some? && SameName(SectionHeader(lines[i]).value, section)
              && !ActiveAfter(lines[..i], section, false)
              && ValueOf(lines[..i], section, false, key) == None
  {
    if lines != [] && !ActiveAfterLine(lines[0], section, false) {
      FirstHeaderActive(lines[1..], section, key);
      match FirstHeader(lines[1..], section) {
        case None =>
        case Some(i) =>
          assert lines[..i + 1][1..] == lines[1..][..i];
      }
    }
  }

  lemma {:induction false} ScanFinds(lines: seq<string>, name: string, from: nat)
    requires from <= |lines|
    ensures var edit := Scan(lines, name, from);
            && (forall k | from <= k < edit.index :: SectionHeader(lines[k]).None? && !Assigns(lines[k], name))
            && (edit.Replace? ==> Assigns(lines[edit.index], name))
            && (edit.Insert? && edit.index < |lines| ==> SectionHeader(lines[edit.index]).Some?)
    decreases |lines| - from
  {
    if from < |lines| && SectionHeader(lines[from]).None? && !Assigns(lines[from], name) {
      ScanFinds(lines, name, from + 1);
    }
  }

  lemma {:induction false} QuietLines(lines: seq<string>, section: string, name: string, key: string)
    requires forall k | 0 <= k < |lines| :: SectionHeader(lines[k]).None? && !Assigns(lines[k], name)
    ensures ActiveAfter(lines, section, true)
    ensures SameName(key, name) ==> ValueOf(lines, section, true, key) == None
  {
    if lines != [] {
      QuietLines(lines[1..], section, name, key);
    }
  }

  lemma ActiveAround(before: seq<string>, line: string, after: seq<string>, section: string)
    ensures ActiveAfter(before + [line] + after, section, false)
              == ActiveAfter(after, section, ActiveAfterLine(line, section, ActiveAfter(before, section, false)))
  {
    assert before + [line] + after == before + ([line] + after);
    ActiveAfterAppend(before, [line] + after, section, false);
    assert ([line] + after)[1..] == after;
  }

  lemma OpenSection(before: seq<string>, header: string, after: seq<string>, section: string, name: string, key: string)
    requires SectionHeader(header).Some? && SameName(SectionHeader(header).value, section)
    requires ValueOf(before, section, false, key) == None
    requires forall k | 0 <= k < |after| :: SectionHeader(after[k]).None? && !Assigns(after[k], name)
    ensures ActiveAfter(before + [header] + after, section, false)
    ensures SameName(key, name) ==> ValueOf(before + [header] + after, section, false, key) == None
  {
    QuietLines(after, section, name, key);
    ActiveAround(before, header, after, section);
    ValueOfAround(before, header, after, section, key);
  }

  /** Before the edit point the section is open and assigns nothing under that name. */
  lemma LocateActive(lines: seq<string>, section: string, name: string, key: string)
    requires !Locate(lines, section, name).Absent?
    ensures var edit := Locate(lines, section, name);
            && edit.index <= |lines|
            && ActiveAfter(lines[..edit.index], section, false)
            && (SameName(key, name) ==> ValueOf(lines[..edit.index], section, false, key) == None)
            && (edit.Replace? ==> Assigns(lines[edit.index], name))
            && (edit.Insert? && edit.index < |lines| ==> SectionHeader(lines[edit.index]).Some?)
  {
    hide SectionHeader, Assignment, SameName, FirstHeader, Scan;
    var i := FirstHeader(lines, section).value;
    var j := Scan(lines, name, i + 1).index;
    FirstHeaderActive(lines, section, key);
    ScanFinds(lines, name, i + 1);
    assert lines[..j] == lines[..i] + [lines[i]] + lines[i + 1..j];
    OpenSection(lines[..i], lines[i], lines[i + 1..j], section, name, key);
  }

  lemma BeforeEdit(lines: seq<string>, section: string, name: string)
    requires !Locate(lines, section, name).Absent?
    ensures var edit := Locate(lines, section, name);
            0 < edit.index <= |lines| && !Assigns(lines[edit.index - 1], name)
  {
    var i := FirstHeader(lines, section).value;
    FirstHeaderActive(lines, section, name);
    ScanFinds(lines, name, i + 1);
  }
}
