/** Lines, section headers and assignments of a configuration text
    (rust/core/src/config_document.rs:318-389). Text is a sequence of Unicode characters. */
module ConfigText {
  import opened Wrappers

  /** The Unicode White_Space property. */
  predicate IsWhitespace(c: char) {
    || '\U{9}' <= c <= '\U{D}' || c == ' ' || c == '\U{85}' || c == '\U{A0}' || c == '\U{1680}'
    || '\U{2000}' <= c <= '\U{200A}' || c == '\U{2028}' || c == '\U{2029}' || c == '\U{202F}'
    || c == '\U{205F}' || c == '\U{3000}'
  }

  predicate Blank(s: string) {
    forall i | 0 <= i < |s| :: IsWhitespace(s[i])
  }

  function TrimStart(s: string): string {
    if s != [] && IsWhitespace(s[0]) then TrimStart(s[1..]) else s
  }

  function TrimEnd(s: string): string {
    if s != [] && IsWhitespace(s[|s| - 1]) then TrimEnd(s[..|s| - 1]) else s
  }

  function Trim(s: string): string {
    TrimEnd(TrimStart(s))
  }

  function LowerAscii(c: char): char {
    if 'A' <= c <= 'Z' then ((c as int) + 32) as char else c
  }

  /** `eq_ignore_ascii_case`. */
  predicate SameName(a: string, b: string) {
    |a| == |b| && forall i | 0 <= i < |a| :: LowerAscii(a[i]) == LowerAscii(b[i])
  }

  /** Two characters count as one in a name if they are equal or the same letter from A to Z in two cases. */
  lemma SameLetterExactly(c: char, d: char)
    ensures LowerAscii(c) == LowerAscii(d) <==>
              || c == d
              || ('A' <= c <= 'Z' && d as int - c as int == 'a' as int - 'A' as int)
              || ('A' <= d <= 'Z' && c as int - d as int == 'a' as int - 'A' as int)
  {
  }

  /** The longest prefix without any of `stops`. */
  function Until(s: string, stops: set<char>): (prefix: string) {
    if s == [] || s[0] in stops then [] else [s[0]] + Until(s[1..], stops)
  }

  predicate IsNameCharacter(c: char) {
    'a' <= c <= 'z' || 'A' <= c <= 'Z' || '0' <= c <= '9' || c == '_'
  }

  predicate ValidOptionName(name: string) {
    name != [] && forall i | 0 <= i < |name| :: IsNameCharacter(name[i])
  }

  predicate ValidSectionName(section: string) {
    Trim(section) != [] && ']' !in section && '\r' !in section && '\n' !in section
  }

  predicate ValidValue(value: string) {
    '\r' !in value && '\n' !in value
  }

  function SectionHeader(line: string): Option<string> {
    var trimmed := TrimStart(line);
    if trimmed == [] || trimmed[0] != '[' then None
    else
      var inside := Until(trimmed[1..], {']'});
      if |inside| == |trimmed| - 1 || Trim(inside) == [] then None else Some(Trim(inside))
  }

  /** A value ends at the first comment character and loses its surrounding blanks. */
  function CleanValue(text: string): string {
    Trim(Until(text, {';', '#'}))
  }

  function Assignment(line: string): Option<(string, string)> {
    var trimmed := TrimStart(line);
    if trimmed == [] || trimmed[0] in {';', '#', '['} then None
    else
      var left := Until(trimmed, {'='});
      if |left| >= |trimmed| || !ValidOptionName(Trim(left)) then None
      else Some((Trim(left), CleanValue(trimmed[|left| + 1..])))
  }

  function LineEnding(line: string): string {
    if |line| >= 2 && line[|line| - 2..] == "\r\n" then "\r\n"
    else if |line| >= 1 && line[|line| - 1] == '\n' then "\n"
    else ""
  }

  function AssignmentLine(name: string, value: string, ending: string): string {
    name + " = " + value + ending
  }

  /** `split_inclusive('\n')`. */
  function SplitInclusive(text: string): seq<string> {
    var body := Until(text, {'\n'});
    if text == [] then []
    else if |body| >= |text| then [text]
    else [text[..|body| + 1]] + SplitInclusive(text[|body| + 1..])
  }

  function Concat(lines: seq<string>): string {
    if lines == [] then [] else lines[0] + Concat(lines[1..])
  }

  /** `str::lines` yields each inclusive line without its `\n` or `\r\n`. */
  function WithoutEnding(line: string): string {
    line[..|line| - |LineEnding(line)|]
  }

  // ----- splitting and joining are inverse -----

  ghost predicate IsLine(line: string) {
    line != [] && forall i | 0 <= i < |line| - 1 :: line[i] != '\n'
  }

  ghost predicate Terminated(line: string) {
    line != [] && line[|line| - 1] == '\n'
  }

  /** What splitting can yield: lines with a newline at their end only, missing at most on the last. */
  ghost predicate AreLines(lines: seq<string>) {
    && (forall i | 0 <= i < |lines| :: IsLine(lines[i]))
    && (forall i | 0 <= i < |lines| - 1 :: Terminated(lines[i]))
  }

  lemma {:induction false} UntilPrefix(s: string, stops: set<char>)
    ensures Until(s, stops) <= s
    ensures forall i | 0 <= i < |Until(s, stops)| :: s[i] !in stops
    ensures |Until(s, stops)| < |s| ==> s[|Until(s, stops)|] in stops
  {
    if s != [] && s[0] !in stops {
      UntilPrefix(s[1..], stops);
    }
  }

  /** The prefix is determined by where the first stop stands. */
  lemma {:induction false} UntilAt(s: string, stops: set<char>, k: nat)
    requires k <= |s| && (forall i | 0 <= i < k :: s[i] !in stops) && (k < |s| ==> s[k] in stops)
    ensures Until(s, stops) == s[..k]
  {
    if k > 0 {
      UntilAt(s[1..], stops, k - 1);
      assert s[..k] == [s[0]] + s[1..][..k - 1];
    }
  }

  lemma FirstLine(text: string)
    requires text != []
    ensures var k := |Until(text, {'\n'})|;
            && SplitInclusive(text)[0] == (if k < |text| then text[..k + 1] else text)
            && SplitInclusive(text)[1..] == (if k < |text| then SplitInclusive(text[k + 1..]) else [])
            && IsLine(SplitInclusive(text)[0])
            && (k < |text| ==> Terminated(text[..k + 1]) && text == text[..k + 1] + text[k + 1..])
  {
    UntilPrefix(text, {'\n'});
  }

  lemma {:induction false} SplitThenConcat(text: string)
    ensures Concat(SplitInclusive(text)) == text
    ensures AreLines(SplitInclusive(text))
    ensures text != [] ==> SplitInclusive(text) != []
    decreases |text|
  {
    if text != [] {
      FirstLine(text);
      var k := |Until(text, {'\n'})|;
      if k < |text| {
        SplitThenConcat(text[k + 1..]);
      }
      hide SplitInclusive, IsLine, Until;
      assert SplitInclusive(text) == [SplitInclusive(text)[0]] + SplitInclusive(text)[1..];
    }
  }

  lemma {:induction false} ConcatThenSplit(lines: seq<string>)
    requires AreLines(lines)
    ensures SplitInclusive(Concat(lines)) == lines
  {
    if lines != [] {
      var line, text := lines[0], Concat(lines);
      ConcatThenSplit(lines[1..]);
      if |lines| == 1 {
        assert text == line;
        if Terminated(line) {
          UntilAt(text, {'\n'}, |line| - 1);
        } else {
          UntilAt(text, {'\n'}, |line|);
        }
      } else {
        assert text[|line| - 1] == '\n';
        UntilAt(text, {'\n'}, |line| - 1);
        assert text[..|line|] == line && text[|line|..] == Concat(lines[1..]);
      }
    }
  }

  lemma {:induction false} ConcatAppend(a: seq<string>, b: seq<string>)
    ensures Concat(a + b) == Concat(a) + Concat(b)
  {
    if a == [] {
      assert a + b == b;
    } else {
      ConcatAppend(a[1..], b);
      assert (a + b)[1..] == a[1..] + b;
    }
  }

  lemma ConcatOne(line: string)
    ensures Concat([line]) == line
  {
  }

  lemma ConcatTwo(first: string, second: string)
    ensures Concat([first, second]) == first + second
  {
    assert [first, second][1..] == [second];
    ConcatOne(second);
  }

  lemma LinesAppend(a: seq<string>, b: seq<string>)
    requires AreLines(a) && AreLines(b) && (a != [] ==> Terminated(a[|a| - 1]))
    ensures AreLines(a + b)
  {
  }

  // ----- blanks -----

  lemma {:induction false} TrimStartBlank(blank: string, s: string)
    requires Blank(blank)
    ensures TrimStart(blank + s) == TrimStart(s)
  {
    if blank == [] {
      assert blank + s == s;
    } else {
      TrimStartBlank(blank[1..], s);
      assert (blank + s)[1..] == blank[1..] + s;
    }
  }

  lemma {:induction false} TrimEndBlank(s: string, blank: string)
    requires Blank(blank)
    ensures TrimEnd(s + blank) == TrimEnd(s)
  {
    if blank == [] {
      assert s + blank == s;
    } else {
      TrimEndBlank(s, blank[..|blank| - 1]);
      assert (s + blank)[..|s + blank| - 1] == s + blank[..|blank| - 1];
    }
  }

  lemma {:induction false} TrimStartSplits(s: string)
    ensures |TrimStart(s)| <= |s|
    ensures Blank(s[..|s| - |TrimStart(s)|]) && s[|s| - |TrimStart(s)|..] == TrimStart(s)
    ensures TrimStart(s) != [] ==> !IsWhitespace(TrimStart(s)[0])
    ensures TrimStart(s) == [] <==> Blank(s)
  {
    if s != [] && IsWhitespace(s[0]) {
      TrimStartSplits(s[1..]);
      var k := |s| - |TrimStart(s)|;
      assert s[..k] == [s[0]] + s[1..][..k - 1];
    }
  }

  lemma TrimStartAppend(s: string, tail: string)
    ensures !Blank(s) ==> TrimStart(s + tail) == TrimStart(s) + tail
    ensures Blank(s) ==> TrimStart(s + tail) == TrimStart(tail)
  {
    if Blank(s) {
      TrimStartBlank(s, tail);
    } else {
      TrimStartSplits(s);
      var k := |s| - |TrimStart(s)|;
      assert s + tail == s[..k] + (TrimStart(s) + tail);
      TrimStartBlank(s[..k], TrimStart(s) + tail);
    }
  }

  lemma {:induction false} TrimEndShorter(s: string)
    ensures TrimEnd(s) <= s && Blank(s[|TrimEnd(s)|..])
    ensures TrimEnd(s) != [] ==> !IsWhitespace(TrimEnd(s)[|TrimEnd(s)| - 1])
  {
    if s != [] && IsWhitespace(s[|s| - 1]) {
      TrimEndShorter(s[..|s| - 1]);
      var k := |TrimEnd(s)|;
      assert s[k..] == s[..|s| - 1][k..] + [s[|s| - 1]];
    }
  }

  lemma TrimLength(s: string)
    ensures |Trim(s)| <= |s|
    ensures |Trim(s)| == |s| ==> Trim(s) == s
  {
    TrimStartSplits(s);
    TrimEndShorter(TrimStart(s));
  }

  lemma TrimIgnoresBlanks(before: string, s: string, after: string)
    requires Blank(before) && Blank(after)
    ensures Trim(before + s + after) == Trim(s)
  {
    assert before + s + after == before + (s + after);
    TrimStartBlank(before, s + after);
    TrimStartAppend(s, after);
    if Blank(s) {
      TrimStartSplits(after);
      TrimStartSplits(s);
    } else {
      TrimEndBlank(TrimStart(s), after);
    }
  }

  /** A string that starts and ends with something visible trims to itself. */
  lemma TrimVisible(s: string)
    requires s != [] && !IsWhitespace(s[0]) && !IsWhitespace(s[|s| - 1])
    ensures Trim(s) == s
  {
  }

  // ----- headers and assignments ignore line endings -----

  lemma UntilAppend(s: string, tail: string, stops: set<char>)
    ensures |Until(s, stops)| < |s| ==> Until(s + tail, stops) == Until(s, stops)
    ensures |Until(s, stops)| >= |s| ==> Until(s + tail, stops) == s + Until(tail, stops)
  {
    UntilPrefix(s, stops);
    UntilPrefix(tail, stops);
    var k := |Until(s, stops)|;
    if k < |s| {
      UntilAt(s + tail, stops, k);
      assert (s + tail)[..k] == s[..k];
    } else {
      var j := |Until(tail, stops)|;
      UntilAt(s + tail, stops, |s| + j);
      assert (s + tail)[..|s| + j] == s + tail[..j];
    }
  }

  lemma NoStops(s: string, stops: set<char>)
    requires forall i | 0 <= i < |s| :: s[i] !in stops
    ensures Until(s, stops) == s
  {
  }

  lemma CleanValueIgnoresBlanks(before: string, s: string, after: string)
    requires Blank(before) && Blank(after)
    ensures CleanValue(before + s + after) == CleanValue(s)
  {
    var stops := {';', '#'};
    UntilPrefix(s, stops);
    NoStops(before, stops);
    NoStops(after, stops);
    assert before + s + after == before + (s + after);
    UntilAppend(before, s + after, stops);
    UntilAppend(s, after, stops);
    if |Until(s, stops)| < |s| {
      assert before + Until(s, stops) == before + Until(s, stops) + [];
      TrimIgnoresBlanks(before, Until(s, stops), []);
    } else {
      assert Until(s, stops) == s;
      TrimIgnoresBlanks(before, s, after);
    }
  }

  lemma HeaderIgnoresEnding(body: string, ending: string)
    requires Blank(ending)
    ensures SectionHeader(body + ending) == SectionHeader(body)
  {
    TrimStartAppend(body, ending);
    TrimStartSplits(body);
    TrimStartSplits(ending);
    if !Blank(body) {
      var trimmed := TrimStart(body);
      assert (trimmed + ending)[1..] == trimmed[1..] + ending;
      UntilPrefix(trimmed[1..], {']'});
      NoStops(ending, {']'});
      UntilAppend(trimmed[1..], ending, {']'});
    }
  }

  lemma AssignmentIgnoresEnding(body: string, ending: string)
    requires Blank(ending)
    ensures Assignment(body + ending) == Assignment(body)
  {
    hide Until, TrimStart, Trim, CleanValue, ValidOptionName;
    TrimStartAppend(body, ending);
    TrimStartSplits(body);
    TrimStartSplits(ending);
    if !Blank(body) {
      var trimmed := TrimStart(body);
      UntilPrefix(trimmed, {'='});
      NoStops(ending, {'='});
      UntilAppend(trimmed, ending, {'='});
      var k := |Until(trimmed, {'='})|;
      if k < |trimmed| {
        assert (trimmed + ending)[k + 1..] == trimmed[k + 1..] + ending;
        assert trimmed[k + 1..] + ending == [] + trimmed[k + 1..] + ending;
        CleanValueIgnoresBlanks([], trimmed[k + 1..], ending);
      }
    }
  }

  /** The line written for an assignment, after any blank prefix, reads back as that assignment. */
  lemma WrittenLineReadsBack(blank: string, name: string, value: string, ending: string)
    requires Blank(blank) && ValidOptionName(name) && Blank(ending)
    ensures SectionHeader(blank + AssignmentLine(name, value, ending)) == None
    ensures Assignment(blank + AssignmentLine(name, value, ending)) == Some((name, CleanValue(value)))
  {
    hide Assignment, SectionHeader, CleanValue, Trim, TrimStart;
    var left, right := blank + name + " ", " " + value + ending;
    assert IsNameCharacter(name[0]) && IsNameCharacter(name[|name| - 1]);
    TrimIgnoresBlanks(blank, name, " ");
    TrimVisible(name);
    CleanValueIgnoresBlanks(" ", value, ending);
    assert blank + AssignmentLine(name, value, ending) == left + "=" + right;
    assert forall i | 0 <= i < |blank| :: IsWhitespace(blank[i]);
    PartsAssign(left, right);
    StartsVisible(blank, AssignmentLine(name, value, ending));
  }

  lemma StartsVisible(blank: string, line: string)
    requires Blank(blank) && line != "" && !IsWhitespace(line[0]) && line[0] != '['
    ensures SectionHeader(blank + line) == None
  {
    TrimStartBlank(blank, line);
  }

  // ----- what a line means -----

  /** Trimming takes away all the blanks in front and behind, and nothing else. */
  lemma TrimmedExactly(s: string, trimmed: string)
    ensures Trim(s) == trimmed <==>
              && (trimmed != "" ==> !IsWhitespace(trimmed[0]) && !IsWhitespace(trimmed[|trimmed| - 1]))
              && exists before: string, after: string :: s == before + trimmed + after && Blank(before) && Blank(after)
  {
    TrimStartSplits(s);
    TrimEndShorter(TrimStart(s));
    var k := |s| - |TrimStart(s)|;
    assert s == s[..k] + Trim(s) + TrimStart(s)[|Trim(s)|..];
    forall before: string, after: string | s == before + trimmed + after && Blank(before) && Blank(after)
      ensures Trim(s) == Trim(trimmed)
    {
      TrimIgnoresBlanks(before, trimmed, after);
    }
    if trimmed != "" && !IsWhitespace(trimmed[0]) && !IsWhitespace(trimmed[|trimmed| - 1]) {
      TrimVisible(trimmed);
    }
  }

  /** The prefix in front of the first stop. */
  lemma UntilExactly(s: string, stops: set<char>, prefix: string)
    ensures Until(s, stops) == prefix <==>
              && prefix <= s && (forall i | 0 <= i < |prefix| :: s[i] !in stops)
              && (|prefix| < |s| ==> s[|prefix|] in stops)
  {
    UntilPrefix(s, stops);
    if prefix <= s && (forall i | 0 <= i < |prefix| :: s[i] !in stops) && (|prefix| < |s| ==> s[|prefix|] in stops) {
      UntilAt(s, stops, |prefix|);
    }
  }

  /** A line assigns exactly when what stands before its first equals sign is, blanks aside, a valid name; the value is
      what stands behind it up to a comment, blanks aside. */
  lemma AssignsExactly(line: string, name: string, value: string)
    ensures Assignment(line) == Some((name, value)) <==>
              && ValidOptionName(name)
              && exists left: string, right: string ::
                   line == left + "=" + right && '=' !in left && Trim(left) == name && CleanValue(right) == value
  {
    hide CleanValue;
    if Assignment(line) == Some((name, value)) {
      var left, right := AssignmentParts(line);
      assert line == left + "=" + right;
    }
    forall left: string, right: string | ValidOptionName(name)
      && line == left + "=" + right && '=' !in left && Trim(left) == name && CleanValue(right) == value
      ensures Assignment(line) == Some((name, value))
    {
      PartsAssign(left, right);
    }
  }

  lemma AssignmentParts(line: string) returns (left: string, right: string)
    requires Assignment(line).Some?
    ensures line == left + "=" + right && '=' !in left
    ensures Assignment(line) == Some((Trim(left), CleanValue(right))) && ValidOptionName(Trim(left))
  {
    hide CleanValue, ValidOptionName, Until, TrimStart, IsWhitespace;
    TrimStartSplits(line);
    var trimmed := TrimStart(line);
    var blank, name := line[..|line| - |trimmed|], Until(trimmed, {'='});
    UntilPrefix(trimmed, {'='});
    TrimStartBlank(blank, name);
    NoEqualsIn(blank, name);
    left, right := blank + name, trimmed[|name| + 1..];
    assert line == blank + trimmed && trimmed == name + "=" + right;
  }

  lemma NoEqualsIn(blank: string, name: string)
    requires Blank(blank) && forall i | 0 <= i < |name| :: name[i] !in {'='}
    ensures '=' !in blank + name
  {
    assert forall i | 0 <= i < |blank| :: IsWhitespace(blank[i]);
  }

  lemma PartsAssign(left: string, right: string)
    requires '=' !in left && ValidOptionName(Trim(left))
    ensures Assignment(left + "=" + right) == Some((Trim(left), CleanValue(right)))
  {
    hide CleanValue;
    var line := left + "=" + right;
    assert line == left + ("=" + right);
    TrimStartSplits(left);
    TrimStartAppend(left, "=" + right);
    var trimmed := TrimStart(left);
    TrimEndShorter(trimmed);
    assert IsNameCharacter(Trim(left)[0]) && Trim(left)[0] == trimmed[0];
    UntilAt(trimmed + ("=" + right), {'='}, |trimmed|);
    assert (trimmed + ("=" + right))[..|trimmed|] == trimmed && (trimmed + ("=" + right))[|trimmed| + 1..] == right;
  }

  /** A value is what stands before the first comment character, blanks aside. */
  lemma CleanedExactly(text: string, value: string)
    ensures CleanValue(text) == value <==>
              exists kept: string ::
                && kept <= text && (forall i | 0 <= i < |kept| :: text[i] != ';' && text[i] != '#')
                && (|kept| < |text| ==> text[|kept|] == ';' || text[|kept|] == '#')
                && Trim(kept) == value
  {
    UntilExactly(text, {';', '#'}, Until(text, {';', '#'}));
    forall kept: string | kept <= text && (forall i | 0 <= i < |kept| :: text[i] != ';' && text[i] != '#')
      && (|kept| < |text| ==> text[|kept|] == ';' || text[|kept|] == '#')
      ensures kept == Until(text, {';', '#'})
    {
      UntilExactly(text, {';', '#'}, kept);
    }
  }

  /** A line is a header exactly when its first visible character opens a bracket that is closed again around something
      visible; that is the name, blanks aside, and nothing behind the bracket matters. */
  lemma HeaderExactly(line: string, name: string)
    ensures SectionHeader(line) == Some(name) <==>
              && name != ""
              && exists before: string, inside: string, after: string ::
                   line == before + "[" + inside + "]" + after && Blank(before) && ']' !in inside && Trim(inside) == name
  {
    hide Trim;
    if SectionHeader(line) == Some(name) {
      TrimStartSplits(line);
      var trimmed := TrimStart(line);
      var inside := Until(trimmed[1..], {']'});
      UntilPrefix(trimmed[1..], {']'});
      var before, after := line[..|line| - |trimmed|], trimmed[|inside| + 2..];
      assert line == before + "[" + inside + "]" + after;
    }
    forall before: string, inside: string, after: string | name != ""
      && line == before + "[" + inside + "]" + after && Blank(before) && ']' !in inside && Trim(inside) == name
      ensures SectionHeader(line) == Some(name)
    {
      HeaderParts(before, inside, after);
    }
  }

  lemma HeaderParts(before: string, inside: string, after: string)
    requires Blank(before) && ']' !in inside && Trim(inside) != ""
    ensures SectionHeader(before + "[" + inside + "]" + after) == Some(Trim(inside))
  {
    hide Trim;
    var trimmed := "[" + inside + "]" + after;
    assert before + "[" + inside + "]" + after == before + trimmed;
    TrimStartBlank(before, trimmed);
    assert trimmed[1..] == inside + ("]" + after);
    UntilAt(trimmed[1..], {']'}, |inside|);
    assert trimmed[1..][..|inside|] == inside;
  }

  /** The ending of a line is the longest of the three it may have. */
  lemma EndingExactly(line: string)
    ensures LineEnding(line) == "\r\n" <==> exists body: string :: line == body + "\r\n"
    ensures LineEnding(line) == "" <==> !exists body: string :: line == body + "\n"
    ensures LineEnding(line) in {"", "\n", "\r\n"} && line == WithoutEnding(line) + LineEnding(line)
  {
    if |line| >= 1 && line[|line| - 1] == '\n' {
      assert line == line[..|line| - 1] + "\n";
    }
    if |line| >= 2 && line[|line| - 2..] == "\r\n" {
      assert line == line[..|line| - 2] + "\r\n";
      assert line == (line[..|line| - 2] + "\r") + "\n";
    }
    forall body: string | line == body + "\r\n"
      ensures LineEnding(line) == "\r\n"
    {
      assert line[|line| - 2..] == "\r\n";
    }
  }
}
