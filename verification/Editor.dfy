// The text operations of the file editor (internal/mcp/edit.go). A string is a
// sequence of the source's bytes.
module Editor {
  import opened Wrappers

  // ---- Lines ------------------------------------------------------------------

  // strings.Split at newlines.
  function Split(s: string): (parts: seq<string>)
    ensures |parts| > 0
  {
    if s == "" then [""]
    else
      var rest := Split(s[1..]);
      if s[0] == '\n' then [""] + rest else [[s[0]] + rest[0]] + rest[1..]
  }

  function Unsplit(parts: seq<string>): string
    requires |parts| > 0
  {
    if |parts| == 1 then parts[0] else parts[0] + "\n" + Unsplit(parts[1..])
  }

  predicate EndsLine(s: string) { s != "" && s[|s| - 1] == '\n' }

  function DisplayLines(content: string): seq<string> {
    if content == "" then []
    else if EndsLine(content) then Split(content)[..|Split(content)| - 1]
    else Split(content)
  }

  lemma {:induction false} UnsplitSplit(s: string)
    ensures Unsplit(Split(s)) == s
  {
    if s != "" {
      UnsplitSplit(s[1..]);
      var rest := Split(s[1..]);
      if s[0] == '\n' {
        assert ([""] + rest)[1..] == rest;
      } else {
        assert ([[s[0]] + rest[0]] + rest[1..])[1..] == rest[1..];
      }
    }
  }

  lemma {:induction false} SplitUnsplit(parts: seq<string>)
    requires |parts| > 0 && forall part | part in parts :: '\n' !in part
    ensures Split(Unsplit(parts)) == parts
    decreases |parts|
  {
    hide Split, Glue;
    SplitLine(parts[0]);
    if |parts| > 1 {
      var rest := Unsplit(parts[1..]);
      SplitUnsplit(parts[1..]);
      SplitConcat(parts[0], "\n" + rest);
      NewlineSplits(rest);
      GlueLine(parts[0], parts[1..]);
      assert parts[0] + "\n" + rest == parts[0] + ("\n" + rest);
    }
  }

  lemma NewlineSplits(s: string)
    ensures Split("\n" + s) == [""] + Split(s)
  {
    assert ("\n" + s)[1..] == s;
  }

  lemma GlueLine(line: string, rest: seq<string>)
    ensures Glue([line], [""] + rest) == [line] + rest
  {
    assert line + "" == line && ([""] + rest)[1..] == rest;
  }

  lemma {:induction false} SplitLine(s: string)
    requires '\n' !in s
    ensures Split(s) == [s]
  {
    if s != "" {
      SplitLine(s[1..]);
      assert [s[0]] + s[1..] == s;
    }
  }

  // The last line of one text runs into the first of the next.
  function Glue(a: seq<string>, b: seq<string>): seq<string>
    requires |a| > 0 && |b| > 0
  {
    a[..|a| - 1] + [a[|a| - 1] + b[0]] + b[1..]
  }

  lemma GlueFirst(c: char, a: seq<string>, b: seq<string>)
    requires |a| > 0 && |b| > 0
    ensures Glue([""] + a, b) == [""] + Glue(a, b)
    ensures var joined := Glue(a, b); Glue([[c] + a[0]] + a[1..], b) == [[c] + joined[0]] + joined[1..]
  {
    if |a| == 1 {
      assert [c] + (a[0] + b[0]) == [c] + a[0] + b[0];
    }
  }

  lemma {:induction false} SplitConcat(p: string, q: string)
    ensures Split(p + q) == Glue(Split(p), Split(q))
    decreases |p|
  {
    if p == "" {
      assert p + q == q && "" + Split(q)[0] == Split(q)[0] && [Split(q)[0]] + Split(q)[1..] == Split(q);
    } else {
      assert (p + q)[1..] == p[1..] + q;
      SplitConcat(p[1..], q);
      GlueFirst(p[0], Split(p[1..]), Split(q));
      hide Glue;
    }
  }

  lemma {:induction false} SplitEnd(s: string)
    requires EndsLine(s)
    ensures |Split(s)| > 1 && Split(s)[|Split(s)| - 1] == ""
  {
    if |s| > 1 {
      SplitEnd(s[1..]);
    }
  }

  lemma GlueFresh(a: seq<string>, b: seq<string>)
    requires |a| > 0 && |b| > 0 && a[|a| - 1] == ""
    ensures Glue(a, b) == a[..|a| - 1] + b
  {
    assert "" + b[0] == b[0] && [b[0]] + b[1..] == b;
  }

  lemma FreshLinesConcat(p: string, q: string)
    requires EndsLine(p) && q != ""
    ensures DisplayLines(p + q) == DisplayLines(p) + DisplayLines(q)
  {
    SplitConcat(p, q);
    SplitEnd(p);
    GlueFresh(Split(p), Split(q));
    hide Glue, Split;
    assert EndsLine(p + q) <==> EndsLine(q);
    var a := Split(p)[..|Split(p)| - 1];
    assert (a + Split(q))[..|a| + |Split(q)| - 1] == a + Split(q)[..|Split(q)| - 1];
  }

  // Where two texts meet at a line end their displayed lines add up; where they meet
  // inside a line, one line fewer is displayed.
  lemma LinesConcat(p: string, q: string)
    ensures p == "" || q == "" || EndsLine(p) ==> DisplayLines(p + q) == DisplayLines(p) + DisplayLines(q)
    ensures !(p == "" || q == "" || EndsLine(p)) ==> |DisplayLines(p + q)| == |DisplayLines(p)| + |DisplayLines(q)| - 1
  {
    if p == "" {
      assert p + q == q;
    } else if q == "" {
      assert p + q == p && DisplayLines(p) + [] == DisplayLines(p);
    } else if EndsLine(p) {
      FreshLinesConcat(p, q);
    } else {
      SplitConcat(p, q);
      assert |Glue(Split(p), Split(q))| == |Split(p)| + |Split(q)| - 1;
      hide Glue, Split;
      assert EndsLine(p + q) <==> EndsLine(q);
    }
  }

  // ---- Insertion -----------------------------------------------------------------

  function Newlines(s: string): nat {
    if s == "" then 0 else Newlines(s[..|s| - 1]) + (if s[|s| - 1] == '\n' then 1 else 0)
  }

  // The offset just after line `line`, counting from one; the end of the text when
  // the last line has no newline.
  function LineEnd(s: string, line: nat): (k: nat)
    ensures k <= |s|
  {
    if line == 0 || s == "" then 0
    else if Newlines(s[..|s| - 1]) >= line then LineEnd(s[..|s| - 1], line)
    else |s|
  }

  predicate Insertable(content: string, line: int) {
    0 <= line <= Newlines(content) || (content != "" && line == Newlines(content) + 1)
  }

  method InsertAfterLine(content: string, line: int, text: string) returns (r: Option<string>)
    ensures r.Some? <==> Insertable(content, line)
    ensures r.Some? ==> var k := LineEnd(content, line); r.value == content[..k] + text + content[k..]
  {
    if line < 0 { return None; }
    if line == 0 {
      assert content[..0] + text + content[0..] == text + content;
      return Some(text + content);
    }
    var seen := 0;
    for i := 0 to |content|
      invariant seen == Newlines(content[..i]) && seen < line
    {
      assert content[..i + 1][..i] == content[..i];
      if content[i] == '\n' {
        seen := seen + 1;
        if seen == line {
          LineEndStays(content, i + 1, line);
          return Some(content[..i + 1] + text + content[i + 1..]);
        }
      }
    }
    assert content[..|content|] == content;
    if content != "" && line == seen + 1 {
      LineEndLast(content, line);
      assert content[..|content|] + text + content[|content|..] == content + text;
      return Some(content + text);
    }
    return None;
  }

  lemma {:induction false} NewlinesGrow(s: string, k: nat)
    requires k <= |s|
    ensures Newlines(s[..k]) <= Newlines(s)
    decreases |s|
  {
    if k < |s| {
      NewlinesGrow(s[..|s| - 1], k);
      assert s[..|s| - 1][..k] == s[..k];
    } else {
      assert s[..k] == s;
    }
  }

  lemma {:induction false} LineEndStays(s: string, k: nat, line: nat)
    requires 0 < k <= |s| && Newlines(s[..k]) == line > Newlines(s[..k - 1])
    ensures LineEnd(s, line) == k && Newlines(s) >= line
    decreases |s|
  {
    NewlinesGrow(s, k);
    if k == |s| {
      assert s[..k] == s;
    } else {
      assert s[..|s| - 1][..k] == s[..k] && s[..|s| - 1][..k - 1] == s[..k - 1];
      LineEndStays(s[..|s| - 1], k, line);
    }
  }

  lemma LineEndLast(s: string, line: nat)
    requires s != "" && line == Newlines(s) + 1
    ensures LineEnd(s, line) == |s|
  {
    NewlinesGrow(s, |s| - 1);
  }

  // A point of insertion is at the start, after a newline, or at the end; and as many
  // lines are displayed before it as asked for.
  lemma {:induction false} LineEndIsALineBreak(s: string, line: nat)
    requires Insertable(s, line)
    ensures var p := s[..LineEnd(s, line)];
      && (p == "" || EndsLine(p) || p == s)
      && (line <= Newlines(s) ==> Newlines(p) == line && (p == "" || EndsLine(p)))
    decreases |s|
  {
    if line == 0 || s == "" {
      assert s[..0] == "";
    } else if Newlines(s[..|s| - 1]) >= line {
      var k := LineEnd(s[..|s| - 1], line);
      LineEndIsALineBreak(s[..|s| - 1], line);
      assert s[..|s| - 1][..k] == s[..k];
    } else {
      assert s[..|s|] == s;
    }
  }

  lemma {:induction false} SplitCount(s: string)
    ensures |Split(s)| == Newlines(s) + 1
    decreases |s|
  {
    if s != "" {
      var init := s[..|s| - 1];
      SplitCount(init);
      assert s == init + [s[|s| - 1]];
      SplitConcat(init, [s[|s| - 1]]);
      assert [s[|s| - 1]][1..] == "";
    }
  }

  // The displayed lines after an insertion are the lines before the point, the lines
  // of the text, and the lines after it, exactly when the text starts on a fresh line
  // and leaves one behind it.
  lemma InsertionShows(content: string, line: int, text: string)
    requires Insertable(content, line)
    ensures var k := LineEnd(content, line);
      var p, s := content[..k], content[k..];
      DisplayLines(p + text + s) == DisplayLines(p) + DisplayLines(text) + DisplayLines(s)
      <==> text == "" || ((p == "" || EndsLine(p)) && (s == "" || EndsLine(text)))
  {
    var k := LineEnd(content, line);
    var p, s := content[..k], content[k..];
    LineEndIsALineBreak(content, line);
    LinesConcat(p, text);
    LinesConcat(p + text, s);
    if text == "" {
      assert p + text == p && DisplayLines(p) + DisplayLines(text) == DisplayLines(p);
      assert p == content ==> s == "";
    } else {
      assert EndsLine(p + text) <==> EndsLine(text);
      hide DisplayLines, EndsLine;
    }
  }

  // The point of insertion splits the displayed lines after the one asked for.
  lemma InsertionPoint(content: string, line: int)
    requires Insertable(content, line)
    ensures var k := LineEnd(content, line);
      var shown := DisplayLines(content);
      var n := if line <= |shown| then line else |shown|;
      DisplayLines(content[..k]) == shown[..n] && DisplayLines(content[k..]) == shown[n..]
  {
    hide DisplayLines, Newlines, LineEnd;
    var k := LineEnd(content, line);
    var p, s := content[..k], content[k..];
    LineEndIsALineBreak(content, line);
    assert p + s == content && (p == content ==> s == "");
    LinesConcat(p, s);
    LinesCount(p);
    LinesCount(content);
    if line > Newlines(content) { LineEndLast(content, line); }
  }

  lemma LinesCount(s: string)
    ensures |DisplayLines(s)| == if s == "" || EndsLine(s) then Newlines(s) else Newlines(s) + 1
  {
    SplitCount(s);
    if EndsLine(s) { SplitEnd(s); }
  }

  // ---- Rendering -------------------------------------------------------------------

  function Decimal(n: nat): string
    decreases n
  {
    var digit := ["0123456789"[n % 10]];
    if n < 10 then digit else Decimal(n / 10) + digit
  }

  predicate IsDigit(c: char) { '0' <= c <= '9' }

  predicate AllDigits(s: string) { forall c | c in s :: IsDigit(c) }

  // The number a decimal text stands for.
  function Value(s: string): nat
    requires AllDigits(s)
    decreases |s|
  {
    if s == "" then 0
    else
      assert s[|s| - 1] in s && forall c | c in s[..|s| - 1] :: c in s;
      10 * Value(s[..|s| - 1]) + (s[|s| - 1] - '0') as nat
  }

  lemma {:induction false} DecimalHasItsValue(n: nat)
    ensures Decimal(n) != "" && AllDigits(Decimal(n)) && Value(Decimal(n)) == n
    decreases n
  {
    var digit := "0123456789"[n % 10];
    assert IsDigit(digit) && (digit - '0') as nat == n % 10;
    if n < 10 {
      assert Decimal(n) == [digit] && [digit][..0] == "";
    } else {
      DecimalHasItsValue(n / 10);
      assert Decimal(n)[..|Decimal(n)| - 1] == Decimal(n / 10);
    }
  }

  // How a reader takes a displayed line apart: the digits at its front, and what
  // follows the colon and the blank.
  function Leading(s: string): (d: string)
    ensures AllDigits(d) && |d| <= |s|
  {
    if s != "" && IsDigit(s[0]) then [s[0]] + Leading(s[1..]) else ""
  }

  function LineNumber(s: string): nat { Value(Leading(s)) }

  function LineText(s: string): string { if |s| < |Leading(s)| + 2 then "" else s[|Leading(s)| + 2..] }

  lemma {:induction false} LeadingStops(d: string, rest: string)
    requires AllDigits(d) && (rest == "" || !IsDigit(rest[0]))
    ensures Leading(d + rest) == d
    decreases |d|
  {
    if d == "" {
      assert d + rest == rest;
    } else {
      assert d[0] in d && forall c | c in d[1..] :: c in d;
      assert (d + rest)[1..] == d[1..] + rest;
      LeadingStops(d[1..], rest);
    }
  }

  lemma NumberedLineReads(n: nat, text: string)
    ensures var s := NumberedLine(n, text); LineNumber(s) == n && LineText(s) == text
  {
    DecimalHasItsValue(n);
    assert Decimal(n) + ": " + text == Decimal(n) + (": " + text);
    LeadingStops(Decimal(n), ": " + text);
  }

  function NumberedLine(n: nat, text: string): string { Decimal(n) + ": " + text }

  function Numbered(lines: seq<string>, first: int, last: int): seq<string>
    requires 1 <= first && last <= |lines|
  {
    if first > last then []
    else seq(last - first + 1, i requires 0 <= i < last - first + 1 => NumberedLine(first + i, lines[first + i - 1]))
  }

  lemma NumberedShape(lines: seq<string>, first: int, last: int)
    requires 1 <= first && last <= |lines|
    ensures var shown := Numbered(lines, first, last);
      && |shown| == (if first > last then 0 else last - first + 1)
      && forall k | 0 <= k < |shown| :: shown[k] == NumberedLine(first + k, lines[first + k - 1])
  {
  }

  // Each shown line reads as its own number, counted from `first`, and its own text.
  ghost predicate Labels(shown: seq<string>, lines: seq<string>, first: int) {
    forall j | 0 <= j < |shown| ::
      0 <= first + j - 1 < |lines| && LineNumber(shown[j]) == first + j && LineText(shown[j]) == lines[first + j - 1]
  }

  lemma NumberedIsLabelled(lines: seq<string>, first: int, last: int)
    requires 1 <= first && last <= |lines|
    ensures Labels(Numbered(lines, first, last), lines, first)
  {
    hide Decimal, LineNumber, LineText;
    var shown := Numbered(lines, first, last);
    forall j | 0 <= j < |shown|
      ensures LineNumber(shown[j]) == first + j && LineText(shown[j]) == lines[first + j - 1]
    {
      NumberedLineReads(first + j, lines[first + j - 1]);
    }
  }

  lemma NothingIsDisplayed()
    ensures DisplayLines("") == []
  {
  }

  lemma NothingIsLabelled(lines: seq<string>, first: int)
    ensures Labels([], lines, first)
  {
  }

  function First(startLine: int): int { if startLine < 1 then 1 else startLine }

  function Last(content: string, endLine: int): int {
    var n := |DisplayLines(content)|;
    if endLine <= 0 || endLine > n then n else endLine
  }

  // The lines shown are those of the text whose numbers lie in the range asked for, an end
  // of zero or less, or beyond the text, being the end of the text.
  lemma RangeIsClamped(content: string, startLine: int, endLine: int, i: int)
    ensures First(startLine) <= i <= Last(content, endLine)
      <==> 1 <= i <= |DisplayLines(content)| && startLine <= i && (endLine > 0 ==> i <= endLine)
  {
  }

  // What is rendered reads back, line by line, as the numbered lines of the range.
  method RenderNumberedLines(content: string, startLine: int, endLine: int) returns (out: string)
    ensures var shown := Numbered(DisplayLines(content), First(startLine), Last(content, endLine));
      (out == "" <==> shown == []) && DisplayLines(out) == shown && (shown != [] ==> Split(out) == shown)
    ensures Labels(DisplayLines(out), DisplayLines(content), First(startLine))
  {
    hide Labels, Numbered, NumberedLine, Split, DisplayLines;
    var lines := DisplayLines(content);
    var first, last := First(startLine), Last(content, endLine);
    NumberedShape(lines, first, last);
    if first > last || first > |lines| {
      NothingIsLabelled(lines, first);
      NothingIsDisplayed();
      return "";
    }
    ghost var shown := Numbered(lines, first, last);
    out := "";
    for i := first to last + 1
      invariant out == if i == first then "" else Unsplit(shown[..i - first])
    {
      ghost var before := shown[..i - first];
      if i > first { out := out + "\n"; }
      out := out + NumberedLine(i, lines[i - 1]);
      assert shown[..i + 1 - first] == before + [shown[i - first]];
      if i > first { UnsplitSnoc(before, shown[i - first]); }
    }
    assert shown[..last + 1 - first] == shown;
    NumberedReadsBack(content, first, last);
    NumberedIsLabelled(lines, first, last);
  }

  lemma NumberedLineIsOne(n: nat, text: string)
    requires '\n' !in text
    ensures '\n' !in NumberedLine(n, text) && NumberedLine(n, text) != ""
  {
    DecimalHasNoNewline(n);
  }

  lemma NumberedReadsBack(content: string, first: int, last: int)
    requires 1 <= first <= last <= |DisplayLines(content)|
    ensures var shown := Numbered(DisplayLines(content), first, last);
      Split(Unsplit(shown)) == shown && Unsplit(shown) != "" && DisplayLines(Unsplit(shown)) == shown
  {
    var shown := Numbered(DisplayLines(content), first, last);
    DisplayLinesHaveNoNewline(content);
    forall i | 0 <= i < |shown| ensures '\n' !in shown[i] && shown[i] != "" {
      NumberedLineIsOne(first + i, DisplayLines(content)[first + i - 1]);
    }
    SplitUnsplit(shown);
    SplitLastPart(Unsplit(shown));
  }

  lemma {:induction false} UnsplitSnoc(parts: seq<string>, part: string)
    requires |parts| > 0
    ensures Unsplit(parts + [part]) == Unsplit(parts) + "\n" + part
    decreases |parts|
  {
    if |parts| > 1 {
      assert (parts + [part])[1..] == parts[1..] + [part];
      UnsplitSnoc(parts[1..], part);
    }
  }

  lemma {:induction false} DecimalHasNoNewline(n: nat)
    ensures '\n' !in Decimal(n)
    decreases n
  {
    if n >= 10 { DecimalHasNoNewline(n / 10); }
  }

  lemma {:induction false} SplitHasNoNewline(s: string)
    ensures forall part | part in Split(s) :: '\n' !in part
  {
    if s != "" {
      SplitHasNoNewline(s[1..]);
      var rest := Split(s[1..]);
      assert rest[0] in rest;
    }
  }

  lemma DisplayLinesHaveNoNewline(content: string)
    ensures forall part | part in DisplayLines(content) :: '\n' !in part
  {
    SplitHasNoNewline(content);
  }

  // A text whose last part is not empty does not end its line.
  lemma SplitLastPart(s: string)
    requires Split(s)[|Split(s)| - 1] != ""
    ensures s != "" && !EndsLine(s)
  {
    if EndsLine(s) { SplitEnd(s); }
  }

  // ---- Unique replacement --------------------------------------------------------------

  datatype Replaced = Ok(text: string) | Empty | NotFound | NotUnique(matches: nat)

  predicate Occurs(s: string, was: string, i: nat) { i + |was| <= |s| && s[i..i + |was|] == was }

  // strings.Index
  function Find(s: string, was: string): (i: Option<nat>)
    ensures i.Some? ==> Occurs(s, was, i.value) && forall j | 0 <= j < i.value :: !Occurs(s, was, j)
    ensures i.None? ==> forall j | 0 <= j :: !Occurs(s, was, j)
  {
    if Occurs(s, was, 0) then Some(0)
    else if s == "" then None
    else
      var later := Find(s[1..], was);
      assert forall j | 1 <= j :: Occurs(s, was, j) <==> Occurs(s[1..], was, j - 1);
      if later.None? then None else Some(later.value + 1)
  }

  // strings.Count: matches do not overlap, leftmost first.
  function Count(s: string, was: string): nat
    requires was != ""
    decreases |s|
  {
    var i := Find(s, was);
    if i.None? then 0 else 1 + Count(s[i.value + |was|..], was)
  }

  function ReplaceUnique(content: string, was: string, now: string): Replaced {
    if was == "" then Empty
    else
      var matches := Count(content, was);
      if matches == 0 then NotFound
      else if matches == 1 then
        var i := Find(content, was).value;
        Ok(content[..i] + now + content[i + |was|..])
      else NotUnique(matches)
  }

  // Two matches that do not overlap.
  ghost predicate Twice(s: string, was: string) {
    exists i: nat, j: nat :: Occurs(s, was, i) && Occurs(s, was, j) && i + |was| <= j
  }

  lemma OccursAfter(s: string, was: string, n: nat, j: nat)
    requires n <= j && n <= |s|
    ensures Occurs(s[n..], was, j - n) <==> Occurs(s, was, j)
  {
    if j + |was| <= |s| {
      assert s[n..][j - n..j - n + |was|] == s[j..j + |was|];
    }
  }

  // Matches in order, none overlapping the next.
  ghost predicate Disjoint(s: string, was: string, at: seq<nat>) {
    && (forall k | 0 <= k < |at| :: Occurs(s, was, at[k]))
    && (forall k | 0 < k < |at| :: at[k - 1] + |was| <= at[k])
  }

  function Shifted(at: seq<nat>, n: int): seq<nat>
    requires forall k | 0 <= k < |at| :: at[k] + n >= 0
  {
    seq(|at|, k requires 0 <= k < |at| => at[k] + n)
  }

  lemma {:induction false} DisjointAreOrdered(s: string, was: string, at: seq<nat>, k: nat)
    requires Disjoint(s, was, at) && 0 < k < |at|
    ensures at[0] + |was| <= at[k]
  {
    if k > 1 { DisjointAreOrdered(s, was, at, k - 1); }
  }

  lemma ShiftedDown(s: string, was: string, at: seq<nat>, n: int)
    requires Disjoint(s, was, at) && 0 <= n <= |s| && (at != [] ==> n <= at[0])
    ensures forall k | 0 <= k < |at| :: at[k] - n >= 0
    ensures Disjoint(s[n..], was, Shifted(at, -n))
  {
    hide Occurs;
    forall k | 0 <= k < |at| ensures at[k] >= n && Occurs(s[n..], was, at[k] - n) {
      if k > 0 { DisjointAreOrdered(s, was, at, k); }
      OccursAfter(s, was, n, at[k]);
    }
  }

  lemma ShiftedUp(s: string, was: string, first: nat, rest: seq<nat>)
    requires Occurs(s, was, first) && first + |was| <= |s| && Disjoint(s[first + |was|..], was, rest)
    ensures Disjoint(s, was, [first] + Shifted(rest, first + |was|))
  {
    hide Occurs;
    var n := first + |was|;
    forall k | 0 <= k < |rest| ensures Occurs(s, was, rest[k] + n) { OccursAfter(s, was, n, rest[k] + n); }
  }

  lemma RestIsDisjoint(s: string, was: string, at: seq<nat>)
    requires Disjoint(s, was, at) && at != []
    ensures Disjoint(s, was, at[1..]) && (|at| > 1 ==> at[0] + |was| <= at[1])
  {
    hide Occurs;
  }

  lemma {:induction false} CountIsUpperBound(s: string, was: string, at: seq<nat>)
    requires was != "" && Disjoint(s, was, at)
    ensures |at| <= Count(s, was)
    decreases |s|
  {
    hide Occurs, Shifted;
    if at != [] {
      var first := Find(s, was);
      assert Occurs(s, was, at[0]);
      var n := first.value + |was|;
      MatchFits(s, was, first.value);
      RestIsDisjoint(s, was, at);
      ShiftedDown(s, was, at[1..], n);
      ShiftedLength(at[1..], -n);
      CountIsUpperBound(s[n..], was, Shifted(at[1..], -n));
    }
  }

  lemma ShiftedLength(at: seq<nat>, n: int)
    requires forall k | 0 <= k < |at| :: at[k] + n >= 0
    ensures |Shifted(at, n)| == |at|
  {
  }

  lemma {:induction false} CountIsReached(s: string, was: string) returns (at: seq<nat>)
    requires was != ""
    ensures Disjoint(s, was, at) && |at| == Count(s, was)
    decreases |s|
  {
    hide Occurs, Disjoint, Shifted;
    var first := Find(s, was);
    if first.None? {
      NoMatches(s, was);
      return [];
    }
    MatchFits(s, was, first.value);
    var n := first.value + |was|;
    var rest := CountIsReached(s[n..], was);
    ShiftedUp(s, was, first.value, rest);
    ShiftedLength(rest, n);
    at := [first.value] + Shifted(rest, n);
  }

  lemma NoMatches(s: string, was: string)
    ensures Disjoint(s, was, [])
  {
  }

  // The number reported for a string that is not unique is the greatest number of matches
  // that do not overlap.
  lemma MatchesReported(content: string, was: string, now: string, at: seq<nat>) returns (best: seq<nat>)
    requires ReplaceUnique(content, was, now).NotUnique? && Disjoint(content, was, at)
    ensures var n := ReplaceUnique(content, was, now).matches;
      |at| <= n && Disjoint(content, was, best) && |best| == n
  {
    CountIsUpperBound(content, was, at);
    best := CountIsReached(content, was);
  }

  // The text with the match at `i` replaced, every other match overlapping that one.
  ghost predicate ReplacedAt(content: string, was: string, now: string, i: nat, text: string) {
    && Occurs(content, was, i) && text == content[..i] + now + content[i + |was|..]
    && forall j | 0 <= j < i || j >= i + |was| :: !Occurs(content, was, j)
  }

  // A replacement succeeds exactly when there is a match and no second one that does
  // not overlap it; it is the leftmost match that is replaced.
  lemma ReplacementSucceeds(content: string, was: string, now: string)
    ensures var r := ReplaceUnique(content, was, now);
      && (r == Empty <==> was == "")
      && (r == NotFound <==> was != "" && forall i: nat :: !Occurs(content, was, i))
      && (r.NotUnique? <==> was != "" && Twice(content, was))
      && (r.Ok? ==> ReplacedAt(content, was, now, Find(content, was).value, r.text))
  {
    hide Occurs;
    if was != "" {
      var first := Find(content, was);
      if first.Some? {
        var n := first.value + |was|;
        MatchFits(content, was, first.value);
        LaterMatch(content, was, n);
        if Find(content[n..], was).Some? {
          assert Occurs(content, was, Find(content[n..], was).value + n);
          assert Twice(content, was);
        }
      }
    }
  }

  lemma MatchFits(s: string, was: string, i: nat)
    requires Occurs(s, was, i)
    ensures i + |was| <= |s|
  {
  }

  // Looking on after `n` finds the first match from there, or there is none.
  lemma LaterMatch(s: string, was: string, n: nat)
    requires n <= |s|
    ensures var later := Find(s[n..], was);
      if later.Some? then Occurs(s, was, later.value + n) else forall j: nat | n <= j :: !Occurs(s, was, j)
  {
    hide Occurs;
    forall j: nat | n <= j ensures Occurs(s[n..], was, j - n) <==> Occurs(s, was, j) { OccursAfter(s, was, n, j); }
    if Find(s[n..], was).None? {
      forall j: nat | n <= j ensures !Occurs(s, was, j) { assert !Occurs(s[n..], was, j - n); }
    }
  }

  ghost predicate OccursOnce(s: string, was: string) {
    exists i: nat :: Occurs(s, was, i) && forall j: nat | Occurs(s, was, j) :: i == j
  }

  // A proper border: a shorter piece that both starts and ends the text.
  predicate BorderAt(s: string, k: nat) { 0 < k < |s| && s[..k] == s[|s| - k..] }

  ghost predicate Borderless(s: string) { forall k: nat :: !BorderAt(s, k) }

  lemma OverlapIsABorder(s: string, was: string, i: nat, j: nat)
    requires Occurs(s, was, i) && Occurs(s, was, j) && i < j < i + |was|
    ensures BorderAt(was, i + |was| - j)
  {
    var k := i + |was| - j;
    assert was[..k] == s[j..j + |was|][..k] == s[j..j + k];
    assert was[|was| - k..] == s[i..i + |was|][|was| - k..] == s[i + |was| - k..i + |was|];
  }

  lemma BorderlessOccursOnce(content: string, was: string, now: string)
    requires Borderless(was) && ReplaceUnique(content, was, now).Ok?
    ensures OccursOnce(content, was)
  {
    ReplacementSucceeds(content, was, now);
    var i := Find(content, was).value;
    forall j: nat | Occurs(content, was, j) ensures i == j {
      if i < j { OverlapIsABorder(content, was, i, j); }
    }
  }

  // Text that overlaps itself: two matches, one replacement.
  lemma BorderedOccursTwice(was: string, k: nat, now: string)
    requires BorderAt(was, k)
    ensures var content := was + was[k..];
      ReplaceUnique(content, was, now) == Ok(now + was[k..]) && !OccursOnce(content, was)
  {
    var content := was + was[k..];
    var d := |was| - k;
    assert content[0..|was|] == was;
    assert content[d..] == was[d..] + was[k..] == was[..k] + was[k..] == was;
    assert content[d..d + |was|] == content[d..];
    assert Occurs(content, was, 0) && Occurs(content, was, d);
    ReplacementSucceeds(content, was, now);
    hide Occurs, ReplaceUnique;
    assert content[..0] + now + content[|was|..] == now + was[k..];
  }

  // A successful replacement guarantees that the text was there once and only once,
  // in whatever file, if and only if the text has no proper border.
  lemma UniqueExactlyWhenBorderless(was: string, now: string)
    ensures Borderless(was)
        <==> forall content: string | ReplaceUnique(content, was, now).Ok? :: OccursOnce(content, was)
  {
    if Borderless(was) {
      forall content: string | ReplaceUnique(content, was, now).Ok? ensures OccursOnce(content, was) {
        BorderlessOccursOnce(content, was, now);
      }
    } else {
      var k: nat :| BorderAt(was, k);
      BorderedOccursTwice(was, k, now);
    }
  }

  lemma ReplacesThere(p: string, was: string, s: string, now: string)
    requires Borderless(was) && ReplaceUnique(p + was + s, was, now).Ok?
    ensures ReplaceUnique(p + was + s, was, now) == Ok(p + now + s)
  {
    var content := p + was + s;
    assert content[|p|..|p| + |was|] == was;
    assert Occurs(content, was, |p|);
    BorderlessOccursOnce(content, was, now);
    ReplacementSucceeds(content, was, now);
    assert content[..|p|] == p && content[|p| + |was|..] == s;
  }

  lemma BorderlessRestores(content: string, was: string, now: string)
    requires ReplaceUnique(content, was, now).Ok? && Borderless(now)
    ensures var back := ReplaceUnique(ReplaceUnique(content, was, now).text, now, was);
      back.Ok? ==> back.text == content
  {
    var i := Find(content, was).value;
    var p, s := content[..i], content[i + |was|..];
    ReplacementSucceeds(content, was, now);
    assert content == p + was + s;
    hide ReplaceUnique, Occurs;
    if ReplaceUnique(p + now + s, now, was).Ok? {
      ReplacesThere(p, now, s, was);
    }
  }

  // A run of one character, other than the one before it, is first met where it starts.
  lemma RunIsFound(p: string, c: char, n: nat, now: string)
    requires p != "" && n >= |p| && p[|p| - 1] != c
    ensures ReplaceUnique(p + Run(c, n), Run(c, n), now) == Ok(p + now)
  {
    var run := Run(c, n);
    var content := p + run;
    assert content[|p|..|p| + n] == run;
    assert Occurs(content, run, |p|);
    forall j: nat | j < |p| ensures !Occurs(content, run, j) {
      assert content[j..j + n][|p| - 1 - j] == content[|p| - 1] == p[|p| - 1];
    }
    ReplacementSucceeds(content, run, now);
    assert content[..|p|] + now + content[|p| + n..] == p + now;
  }

  function Run(c: char, n: nat): string { seq(n, _ => c) }

  lemma BorderShifts(s: string, k: nat)
    requires BorderAt(s, k)
    ensures s + s[k..] == s[..|s| - k] + s
  {
    var d := |s| - k;
    assert s == s[..d] + s[d..] && s == s[..k] + s[k..];
    assert s[..d] + s[d..] + s[k..] == s[..d] + (s[d..] + s[k..]);
  }

  // For a new text with a border, a file and an old text that the two replacements
  // do not bring back.
  lemma BorderedDoesNotRestore(now: string, k: nat) returns (content: string, was: string)
    requires BorderAt(now, k)
    ensures ReplaceUnique(content, was, now).Ok?
    ensures var back := ReplaceUnique(ReplaceUnique(content, was, now).text, now, was); back.Ok? && back.text != content
  {
    var p := now[..|now| - k];
    var c := if p[|p| - 1] == 'a' then 'b' else 'a';
    assert |p| > 0 && c != p[|p| - 1] && |p| < |now|;
    hide *;
    was := Run(c, |now|);
    content := p + was;
    RunIsFound(p, c, |now|, now);
    BorderedOccursTwice(now, k, was);
    BorderShifts(now, k);
    assert now + now[k..] == p + now;
    RunDiffers(p, c, |now|, now[k..]);
  }

  lemma RunDiffers(p: string, c: char, n: nat, s: string)
    requires 0 < |p| <= n && p[|p| - 1] != c
    ensures Run(c, n) + s != p + Run(c, n)
  {
    assert (Run(c, n) + s)[|p| - 1] == c;
  }

  // When a replacement and its reverse both succeed, the file is as it was.
  ghost predicate Restores(content: string, was: string, now: string) {
    var there := ReplaceUnique(content, was, now);
    there.Ok? ==> var back := ReplaceUnique(there.text, now, was); back.Ok? ==> back.text == content
  }

  // Replacing and replacing back gives the file again, whenever both succeed, if and
  // only if the new text has no proper border.
  lemma RestoresExactlyWhenBorderless(now: string)
    ensures Borderless(now) <==> forall content: string, was: string :: Restores(content, was, now)
  {
    if Borderless(now) {
      forall content: string, was: string ensures Restores(content, was, now) {
        if ReplaceUnique(content, was, now).Ok? { BorderlessRestores(content, was, now); }
      }
    } else {
      var k: nat :| BorderAt(now, k);
      var content, was := BorderedDoesNotRestore(now, k);
      assert !Restores(content, was, now);
    }
  }
}
