// The script of a background job (internal/exec/kubeexec.go, StartJob): what the pod's
// shell makes of the launcher, and the launched shell of the script inside it.
module JobScript {
  import opened Wrappers
  import opened Shell

  // ---- The background launcher -------------------------------------------------------------

  // A character that ends a word and is read again, as itself, from the gap after it.
  predicate EndsWord(c: char) { c == ' ' || c == '|' || c == '&' || c == ';' || c == ')' || c == '\n' }

  lemma EndOfWord(word: seq<Mark>, c: char)
    requires EndsWord(c)
    ensures Advance(Gap, c).tokens == []
    ensures Advance(InWord(word), c) == Scanned([Word(word)], Advance(Gap, c).end)
  {
    hide IsNumber;
  }

  lemma WordEndsBefore(word: seq<Mark>, rest: string)
    requires rest != "" && EndsWord(rest[0])
    ensures Scan(InWord(word), rest) == Then([Word(word)], Scan(Gap, rest))
  {
    hide Advance, EndsWord;
    EndOfWord(word, rest[0]);
  }

  lemma WordBefore(s: string, rest: string)
    requires s != "" && (forall c | c in s :: IsPlain(c)) && rest != "" && EndsWord(rest[0])
    ensures Reads(s + rest, [Bareword(s)], rest)
  {
    hide Scan;
    WordStarts(s, rest);
    WordEndsBefore(Plain(s), rest);
  }

  lemma WordAtEnd(s: string)
    requires s != "" && forall c | c in s :: IsPlain(c)
    ensures Parse(s) == Some([Bareword(s)])
  {
    WordStarts(s, "");
    assert s + "" == s && [] + [Bareword(s)] == [Bareword(s)];
  }

  // Standard error joins standard output: `2>&1`.
  function ErrToOut(): seq<Token> { [Io(Plain("2")), Op(">&"), Bareword("1")] }

  lemma ErrReads(rest: string)
    ensures Reads("2" + (">" + rest), [Io(Plain("2"))], ">" + rest)
  {
    WordStarts("2", ">" + rest);
    assert (">" + rest)[1..] == rest;
    assert Plain("2") == [Bare('2')] && IsNumber(Plain("2"));
    assert Scan(InWord(Plain("2")), ">" + rest) == Then([Io(Plain("2"))], Scan(InOp(">"), rest));
    OpStarts('>', rest);
  }

  lemma DupReads(rest: string)
    requires rest != "" && rest[0] !in "\0\\"
    ensures Reads(">" + ("&" + rest), [Op(">&")], rest)
  {
    OpStarts('>', "&" + rest);
    OpGrows(">", '&', rest);
    assert ">" + ['&'] == ">&" && !Extends(">&", rest[0]);
    OpEnds(">&", rest);
  }

  lemma ErrToOutReads(rest: string)
    requires rest != "" && EndsWord(rest[0])
    ensures Reads("2>&1" + rest, ErrToOut(), rest)
  {
    hide Reads, EndsWord;
    var one := "1" + rest;
    var s := "2>&1" + rest;
    assert s == "2" + (">" + ("&" + one));
    ErrReads("&" + one);
    DupReads(one);
    WordBefore("1", rest);
    ReadsOn(s, [Io(Plain("2"))], ">" + ("&" + one), [Op(">&")], one);
    ReadsOn(s, [Io(Plain("2"))] + [Op(">&")], one, [Bareword("1")], rest);
    assert [Io(Plain("2"))] + [Op(">&")] + [Bareword("1")] == ErrToOut();
  }

  function LauncherTokens(inner: string): seq<Token> {
    [Bareword("nohup"), Bareword("/bin/sh"), Bareword("-lc"), Word(Literal(inner)), Op(">"), Bareword("/dev/null")]
    + ErrToOut() + [Op("&"), Bareword("echo"), Bareword("$!")]
  }

  lemma PidReads()
    ensures Parse("& echo $!") == Some([Op("&"), Bareword("echo"), Bareword("$!")])
  {
    hide Parse, Reads, Plain;
    WordAtEnd("$!");
    assert "echo $!" == "echo" + " " + "$!";
    WordThenBlank("echo", "$!");
    ReadsParses("echo $!", [Bareword("echo")], "$!");
    OpThenBlank('&', "echo $!");
    assert ['&'] + " " + "echo $!" == "& echo $!";
    ReadsParses("& echo $!", [Op("&")], "echo $!");
    assert [Op("&")] + ([Bareword("echo")] + [Bareword("$!")]) == [Op("&"), Bareword("echo"), Bareword("$!")];
  }

  lemma LauncherTail()
    ensures Parse(LAUNCHER_TAIL)
        == Some([Op(">"), Bareword("/dev/null")] + (ErrToOut() + [Op("&"), Bareword("echo"), Bareword("$!")]))
  {
    hide Parse, Reads, ErrToOut, Plain;
    PidReads();
    var t := "2>&1 & echo $!";
    ErrToOutReads(" & echo $!");
    BlankScans("& echo $!");
    assert t == "2>&1" + " & echo $!" && " & echo $!" == " " + "& echo $!";
    ReadsParses(t, ErrToOut(), " & echo $!");
    ReadsParses(" & echo $!", [], "& echo $!");
    assert [] + [Op("&"), Bareword("echo"), Bareword("$!")] == [Op("&"), Bareword("echo"), Bareword("$!")];
    RedirectReads("/dev/null", t);
    assert LAUNCHER_TAIL == ">" + ("/dev/null" + " " + t);
    ReadsParses(LAUNCHER_TAIL, [Op(">"), Bareword("/dev/null")], t);
  }

  lemma RedirectReads(file: string, rest: string)
    requires file != "" && forall c | c in file :: IsPlain(c)
    ensures Reads(">" + (file + " " + rest), [Op(">"), Bareword(file)], rest)
  {
    hide Reads, Scan, Extends, Plain;
    PlainEndsOp(file);
    RedirectStarts(file + " " + rest);
    WordThenBlank(file, rest);
    ReadsOn(">" + (file + " " + rest), [Op(">")], file + " " + rest, [Bareword(file)], rest);
    assert [Op(">")] + [Bareword(file)] == [Op(">"), Bareword(file)];
  }

  lemma RedirectStarts(rest: string)
    requires rest != "" && rest[0] !in "\0\\" && !Extends(">", rest[0])
    ensures Reads(">" + rest, [Op(">")], rest)
  {
    OpStarts('>', rest);
    OpEnds(">", rest);
  }

  lemma PlainEndsOp(s: string)
    requires s != "" && forall c | c in s :: IsPlain(c)
    ensures s[0] !in "\0\\" && !Extends(">", s[0])
  {
    assert s[0] in s;
  }

  lemma LauncherHead(rest: string)
    ensures Reads("nohup /bin/sh -lc " + rest, [Bareword("nohup"), Bareword("/bin/sh"), Bareword("-lc")], rest)
  {
    hide Reads;
    var t2 := "-lc" + " " + rest;
    var t1 := "/bin/sh" + " " + t2;
    var t0 := "nohup" + " " + t1;
    assert "nohup /bin/sh -lc " + rest == t0;
    WordThenBlank("nohup", t1);
    WordThenBlank("/bin/sh", t2);
    WordThenBlank("-lc", rest);
    ReadsOn(t0, [Bareword("nohup")], t1, [Bareword("/bin/sh")], t2);
    ReadsOn(t0, [Bareword("nohup")] + [Bareword("/bin/sh")], t2, [Bareword("-lc")], rest);
    assert [Bareword("nohup")] + [Bareword("/bin/sh")] + [Bareword("-lc")]
        == [Bareword("nohup"), Bareword("/bin/sh"), Bareword("-lc")];
  }

  lemma NulParses(s: string)
    requires !NulFree(s)
    ensures Parse(s) == None
  {
    NulIsBeyond(Gap, s);
  }

  const LAUNCHER_TAIL := ">/dev/null 2>&1 & echo $!"

  lemma LauncherText(inner: string)
    ensures Launcher(inner) == "nohup /bin/sh -lc " + (ShellQuote(inner) + " " + LAUNCHER_TAIL)
  {
    hide ShellQuote;
    assert " >/dev/null 2>&1 & echo $!" == " " + LAUNCHER_TAIL;
  }

  // The background launcher hands `sh -lc` exactly the inner script, quoted throughout,
  // whatever the script contains.
  lemma LauncherParses(inner: string)
    ensures Parse(Launcher(inner)) == if NulFree(inner) then Some(LauncherTokens(inner)) else None
  {
    hide Launcher, ShellQuote, Parse, Reads, ErrToOut, NulFree;
    var t := ShellQuote(inner) + " " + LAUNCHER_TAIL;
    LauncherText(inner);
    LauncherHead(t);
    ReadsParses(Launcher(inner), [Bareword("nohup"), Bareword("/bin/sh"), Bareword("-lc")], t);
    if NulFree(inner) {
      QuotedThenBlank(inner, LAUNCHER_TAIL);
      ReadsParses(t, [Word(Literal(inner))], LAUNCHER_TAIL);
      LauncherTail();
      var end := [Op(">"), Bareword("/dev/null")] + (ErrToOut() + [Op("&"), Bareword("echo"), Bareword("$!")]);
      assert [Bareword("nohup"), Bareword("/bin/sh"), Bareword("-lc")] + ([Word(Literal(inner))] + end)
          == LauncherTokens(inner);
    } else {
      QuoteKeepsNul(inner);
      NulConcat(ShellQuote(inner), " " + LAUNCHER_TAIL);
      assert t == ShellQuote(inner) + (" " + LAUNCHER_TAIL);
      NulParses(t);
    }
  }

  // ---- The inner script ----------------------------------------------------------------------

  const OUTCOME := "2>&1; echo $? > "

  // What follows the command in the inner script.
  function InnerTail(logFile: string, rcFile: string): string {
    " ) > " + ShellQuote(logFile) + " " + OUTCOME + ShellQuote(rcFile)
  }

  // How the outcome of a subshell is kept.
  function Recording(logFile: string, rcFile: string): seq<Token> {
    [Op(">"), Word(Literal(logFile))] + ErrToOut()
    + [Op(";"), Bareword("echo"), Bareword("$?"), Op(">"), Word(Literal(rcFile))]
  }

  function InnerTailTokens(logFile: string, rcFile: string): seq<Token> { [Op(")")] + Recording(logFile, rcFile) }

  lemma InnerText(line: string, logFile: string, rcFile: string)
    ensures Inner(line, logFile, rcFile) == "( " + (line + InnerTail(logFile, rcFile))
  {
    hide ShellQuote;
    assert " 2>&1; echo $? > " == " " + OUTCOME;
  }

  lemma OutcomeReads(rest: string)
    ensures Reads(OUTCOME + rest, ErrToOut() + [Op(";"), Bareword("echo"), Bareword("$?"), Op(">")], rest)
  {
    hide Reads, ErrToOut;
    var t2 := "$?" + " " + (">" + " " + rest);
    var t1 := "echo" + " " + t2;
    var t0 := ";" + " " + t1;
    var s := OUTCOME + rest;
    assert s == "2>&1" + t0;
    ErrToOutReads(t0);
    OpThenBlank(';', t1);
    WordThenBlank("echo", t2);
    WordThenBlank("$?", ">" + " " + rest);
    OpThenBlank('>', rest);
    ReadsOn(s, ErrToOut(), t0, [Op(";")], t1);
    ReadsOn(s, ErrToOut() + [Op(";")], t1, [Bareword("echo")], t2);
    ReadsOn(s, ErrToOut() + [Op(";")] + [Bareword("echo")], t2, [Bareword("$?")], ">" + " " + rest);
    ReadsOn(s, ErrToOut() + [Op(";")] + [Bareword("echo")] + [Bareword("$?")], ">" + " " + rest, [Op(">")], rest);
    assert ErrToOut() + [Op(";")] + [Bareword("echo")] + [Bareword("$?")] + [Op(">")]
        == ErrToOut() + [Op(";"), Bareword("echo"), Bareword("$?"), Op(">")];
  }

  lemma QuotedAtEnd(s: string)
    requires NulFree(s)
    ensures Parse(ShellQuote(s)) == Some([Word(Literal(s))])
  {
    QuotedScans(s, "");
    assert ShellQuote(s) + "" == ShellQuote(s) && [] + [Word(Literal(s))] == [Word(Literal(s))];
  }

  lemma InnerTailParses(logFile: string, rcFile: string)
    requires NulFree(logFile) && NulFree(rcFile)
    ensures Parse(InnerTail(logFile, rcFile)) == Some(InnerTailTokens(logFile, rcFile))
  {
    hide Reads, Parse, ShellQuote, ErrToOut, NulFree;
    var t3 := OUTCOME + ShellQuote(rcFile);
    var t2 := ShellQuote(logFile) + " " + t3;
    var t1 := [')'] + " " + (['>'] + " " + t2);
    assert InnerTail(logFile, rcFile) == " " + t1;
    BlankScans(t1);
    OpThenBlank(')', ['>'] + " " + t2);
    OpThenBlank('>', t2);
    QuotedThenBlank(logFile, t3);
    OutcomeReads(ShellQuote(rcFile));
    QuotedAtEnd(rcFile);
    var outcome := ErrToOut() + [Op(";"), Bareword("echo"), Bareword("$?"), Op(">")];
    ReadsParses(t3, outcome, ShellQuote(rcFile));
    ReadsParses(t2, [Word(Literal(logFile))], t3);
    ReadsParses(['>'] + " " + t2, [Op(">")], t2);
    ReadsParses(t1, [Op(")")], ['>'] + " " + t2);
    ReadsParses(" " + t1, [], t1);
    assert [] + ([Op(")")] + ([Op(">")] + ([Word(Literal(logFile))] + (outcome + [Word(Literal(rcFile))]))))
        == InnerTailTokens(logFile, rcFile);
  }

  lemma {:induction false} CommentScans(s: string)
    requires NulFree(s) && '\n' !in s
    ensures Scan(Comment, s) == Scanned([], Comment)
    decreases |s|
  {
    if s != "" {
      CommentScans(s[1..]);
    }
  }

  // The end of a text that reads to the end by itself, and the token it then adds.
  predicate Finishes(end: State) { end.Gap? || end.InWord? || end.InOp? }

  function Last(end: State): seq<Token> {
    match end
    case InWord(w) => [Word(w)]
    case InOp(op) => [Op(op)]
    case _ => []
  }

  lemma LastBeforeBlank(end: State, text: string)
    requires Finishes(end)
    ensures Scan(end, " " + text) == Then(Last(end), Scan(Gap, text))
  {
    assert (" " + text)[1..] == text;
    if end.InOp? { assert !Extends(end.op, ' '); }
  }

  // A finished line is read as it stands when blank-led text follows it.
  lemma LineThenBlank(line: string, text: string)
    requires Finishes(Scan(Gap, line).end)
    ensures Reads(line + (" " + text), Parse(line).value, text)
  {
    hide Scan, Parse, Last, Finishes;
    FinishedParses(line);
    var r := Scan(Gap, line);
    ScanConcat(Gap, line, " " + text);
    LastBeforeBlank(r.end, text);
    var q := Scan(Gap, text);
    assert r.tokens + (Last(r.end) + q.tokens) == r.tokens + Last(r.end) + q.tokens;
  }

  lemma FinishedParses(line: string)
    requires Finishes(Scan(Gap, line).end)
    ensures Parse(line) == Some(Scan(Gap, line).tokens + Last(Scan(Gap, line).end))
  {
    var r := Scan(Gap, line);
    assert r.tokens + [] == r.tokens;
  }

  // ---- A job's files and script ---------------------------------------------------------

  function LogFile(id: string): string { "/tmp/job-" + id + ".log" }

  function RcFile(id: string): string { "/tmp/job-" + id + ".rc" }

  // Log and outcome of all jobs are kept apart.
  lemma FilesAreApart(a: string, b: string)
    ensures LogFile(a) == LogFile(b) ==> a == b
    ensures RcFile(a) == RcFile(b) ==> a == b
    ensures LogFile(a) != RcFile(b)
  {
    var l, r := LogFile(a), RcFile(b);
    assert l[|l| - 1] == 'g' && r[|r| - 1] == 'c';
    if LogFile(a) == LogFile(b) { assert LogFile(a)[9..|l| - 4] == a && LogFile(b)[9..|l| - 4] == b; }
    if RcFile(a) == RcFile(b) { assert RcFile(a)[9..|RcFile(a)| - 3] == a && RcFile(b)[9..|RcFile(a)| - 3] == b; }
  }

  // A job id is a UUID: ordinary characters throughout.
  predicate IsJobId(id: string) { forall c | c in id :: IsPlain(c) }

  function Script(line: string, id: string): string { Inner(line, LogFile(id), RcFile(id)) }

  function OutcomeTokens(id: string): seq<Token> { InnerTailTokens(LogFile(id), RcFile(id)) }

  lemma FileNames(id: string)
    requires IsJobId(id)
    ensures forall c | c in LogFile(id) :: IsPlain(c)
    ensures forall c | c in RcFile(id) :: IsPlain(c)
    ensures NulFree(LogFile(id)) && NulFree(RcFile(id))
  {
  }

  lemma {:induction false} PlainNeedsNoEscape(s: string)
    requires forall c | c in s :: IsPlain(c)
    ensures EscapeQuotes(s) == s
  {
    if s != "" {
      assert s[0] in s && forall c | c in s[1..] :: c in s;
      PlainNeedsNoEscape(s[1..]);
    }
  }

  const MIDDLE := " " + OUTCOME

  // The recording, spelled out around the two file names.
  lemma TailText(id: string)
    requires IsJobId(id)
    ensures InnerTail(LogFile(id), RcFile(id))
         == " ) > " + ("'" + (LogFile(id) + ("'" + (MIDDLE + ("'" + (RcFile(id) + "'"))))))
  {
    FileNames(id);
    PlainNeedsNoEscape(LogFile(id));
    PlainNeedsNoEscape(RcFile(id));
    FileNamesNotEmpty(id);
    TailShape(" ) > ", LogFile(id), " ", OUTCOME, RcFile(id));
    hide LogFile, RcFile, IsPlain, OUTCOME;
  }

  lemma TailShape(a: string, log: string, b: string, c: string, rc: string)
    ensures a + ("'" + log + "'") + b + c + ("'" + rc + "'")
        == a + ("'" + (log + ("'" + ((b + c) + ("'" + (rc + "'"))))))
  {
  }

  lemma FileNamesNotEmpty(id: string)
    ensures LogFile(id) != "" && RcFile(id) != ""
  {
  }

  // ---- How the end of the line decides ----------------------------------------------------

  lemma LineTailParses(line: string, logFile: string, rcFile: string)
    requires NulFree(logFile) && NulFree(rcFile) && Finishes(Scan(Gap, line).end)
    ensures Parse(line).Some?
    ensures Parse(line + InnerTail(logFile, rcFile)) == Some(Parse(line).value + InnerTailTokens(logFile, rcFile))
  {
    hide Parse, Scan, Reads, ShellQuote, NulFree, Finishes, Last;
    FinishedParses(line);
    var tail := InnerTail(logFile, rcFile);
    var rest := tail[1..];
    assert tail == " " + rest;
    InnerTailParses(logFile, rcFile);
    BlankScans(rest);
    ReadsParses(tail, [], rest);
    assert [] + Parse(rest).value == Parse(rest).value;
    LineThenBlank(line, rest);
    ReadsParses(line + tail, Parse(line).value, rest);
  }

  lemma FinishedLine(line: string, id: string)
    requires IsJobId(id) && Finishes(Scan(Gap, line).end)
    ensures Parse(line).Some?
    ensures Parse(line + InnerTail(LogFile(id), RcFile(id))) == Some(Parse(line).value + OutcomeTokens(id))
  {
    hide Parse, Scan, LogFile, RcFile, InnerTail, InnerTailTokens, NulFree, Finishes;
    FileNames(id);
    LineTailParses(line, LogFile(id), RcFile(id));
  }

  lemma InnerReads(line: string, logFile: string, rcFile: string)
    ensures Parse(Inner(line, logFile, rcFile)) == After([Op("(")], Parse(line + InnerTail(logFile, rcFile)))
  {
    hide Parse, Reads, Inner, InnerTail;
    var tail := InnerTail(logFile, rcFile);
    InnerText(line, logFile, rcFile);
    OpThenBlank('(', line + tail);
    assert ['('] + " " + (line + tail) == "( " + (line + tail);
    ReadsParses(Inner(line, logFile, rcFile), [Op("(")], line + tail);
  }

  lemma CommentedLine(line: string, id: string)
    requires IsJobId(id) && Scan(Gap, line).end.Comment?
    ensures Parse(line + InnerTail(LogFile(id), RcFile(id))) == Some(Scan(Gap, line).tokens)
  {
    var tail := InnerTail(LogFile(id), RcFile(id));
    TailChars(id);
    ScanConcat(Gap, line, tail);
    CommentScans(tail);
    assert Scan(Gap, line).tokens + [] == Scan(Gap, line).tokens;
  }

  // What a line that ends in a backslash adds when a blank follows: the blank is quoted.
  function QuotedBlank(end: State): seq<Token> {
    match end
    case Escape(before) => [Word((if before.Some? then before.value else []) + [Lit(' ')])]
    case OpEscape(op) => [Op(op), Word([Lit(' ')])]
    case _ => []
  }

  lemma EscapedLine(line: string, id: string)
    requires IsJobId(id) && (Scan(Gap, line).end.Escape? || Scan(Gap, line).end.OpEscape?)
    ensures var r := Scan(Gap, line);
      Parse(line + InnerTail(LogFile(id), RcFile(id))) == Some(r.tokens + QuotedBlank(r.end) + OutcomeTokens(id))
  {
    hide Parse, Scan, ShellQuote, NulFree, LogFile, RcFile, InnerTailTokens, OUTCOME, QuotedBlank;
    FileNames(id);
    var r := Scan(Gap, line);
    var tail := InnerTail(LogFile(id), RcFile(id));
    var rest := tail[1..];
    assert tail == " " + rest && rest[0] == ')';
    InnerTailParses(LogFile(id), RcFile(id));
    BlankScans(rest);
    ReadsParses(tail, [], rest);
    assert [] + Parse(rest).value == Parse(rest).value;
    EscapeThenBlank(r.end, rest);
    ScanConcat(Gap, line, tail);
    var blank := QuotedBlank(r.end);
    assert r.tokens + (blank + Scan(Gap, rest).tokens) == r.tokens + blank + Scan(Gap, rest).tokens;
    assert Reads(line + tail, r.tokens + blank, rest);
    ReadsParses(line + tail, r.tokens + blank, rest);
  }

  // A backslash before the blank makes it part of a word, which the parenthesis ends.
  lemma EscapeThenBlank(st: State, rest: string)
    requires (st.Escape? || st.OpEscape?) && rest != "" && rest[0] == ')'
    ensures Scan(st, " " + rest) == Then(QuotedBlank(st), Scan(Gap, rest))
  {
    hide Advance, EndsWord;
    BlankIsQuoted(st);
    assert (" " + rest)[1..] == rest;
    WordEndsBefore(Advance(st, ' ').end.word, rest) by { assert EndsWord(')') by { ParenthesisEnds(); } }
    assert Advance(st, ' ').tokens + ([Word(Advance(st, ' ').end.word)] + Scan(Gap, rest).tokens)
        == Advance(st, ' ').tokens + [Word(Advance(st, ' ').end.word)] + Scan(Gap, rest).tokens;
  }

  lemma ParenthesisEnds()
    ensures EndsWord(')')
  {
  }

  lemma BlankIsQuoted(st: State)
    requires st.Escape? || st.OpEscape?
    ensures var next := Advance(st, ' ');
      next.end.InWord? && next.tokens + [Word(next.end.word)] == QuotedBlank(st)
  {
    assert [] + [Lit(' ')] == [Lit(' ')];
  }

  lemma QuoteTakes(w: seq<Mark>, c: char, rest: string)
    requires c != '\0' && c != '\''
    ensures Scan(Quote(w), [c] + rest) == Scan(Quote(w + [Lit(c)]), rest)
  {
    assert ([c] + rest)[1..] == rest;
  }

  lemma {:induction false} QuoteRuns(w: seq<Mark>, s: string, rest: string)
    requires NulFree(s) && '\'' !in s
    ensures Scan(Quote(w), s + ("'" + rest)) == Scan(InWord(w + Literal(s)), rest)
    decreases |s|
  {
    hide Scan;
    if s == "" {
      QuoteCloses(w, rest);
      assert s + ("'" + rest) == "'" + rest && w + Literal(s) == w;
    } else {
      assert s[0] in s && forall c | c in s[1..] :: c in s;
      QuoteTakes(w, s[0], s[1..] + ("'" + rest));
      QuoteRuns(w + [Lit(s[0])], s[1..], rest);
      assert s + ("'" + rest) == [s[0]] + (s[1..] + ("'" + rest));
      assert w + [Lit(s[0])] + Literal(s[1..]) == w + Literal(s);
    }
  }

  lemma QuoteCloses(w: seq<Mark>, rest: string)
    ensures Scan(Quote(w), "'" + rest) == Scan(InWord(w), rest)
  {
    assert ("'" + rest)[1..] == rest;
  }

  lemma QuoteOpens(w: seq<Mark>, rest: string)
    ensures Scan(InWord(w), "'" + rest) == Scan(Quote(w), rest)
  {
    assert ("'" + rest)[1..] == rest;
  }

  // Each quote of the recording closes what the line left open and opens it again.
  lemma QuotedLine(w: seq<Mark>, id: string)
    requires IsJobId(id)
    ensures Scan(Quote(w), InnerTail(LogFile(id), RcFile(id))).end.Quote?
  {
    TailText(id);
    FileNames(id);
    MiddleChars();
    assert NulFree(" ) > ") && '\'' !in " ) > ";
    hide Scan, LogFile, RcFile, InnerTail, IsPlain, MIDDLE, NulFree, Literal, Plain;
    QuotedFiles(w, " ) > ", LogFile(id), MIDDLE, RcFile(id));
  }

  lemma QuotedFiles(w: seq<Mark>, a: string, log: string, b: string, rc: string)
    requires NulFree(a) && '\'' !in a && NulFree(b) && '\'' !in b
    requires (forall c | c in log :: IsPlain(c)) && forall c | c in rc :: IsPlain(c)
    ensures Scan(Quote(w), a + ("'" + (log + ("'" + (b + ("'" + (rc + "'"))))))).end.Quote?
  {
    hide Scan, IsPlain, NulFree, Literal, Plain;
    var t3 := rc + "'";
    var t2 := b + ("'" + t3);
    var t1 := log + ("'" + t2);
    QuoteRuns(w, a, t1);
    var w1 := w + Literal(a);
    PlainScans(InWord(w1), log, "'" + t2);
    var w2 := w1 + Plain(log);
    QuoteOpens(w2, t2);
    QuoteRuns(w2, b, t3);
    var w3 := w2 + Literal(b);
    PlainScans(InWord(w3), rc, "'");
    assert "'" == "'" + "";
    QuoteOpens(w3 + Plain(rc), "");
    NothingScans(Quote(w3 + Plain(rc)));
  }

  lemma NothingScans(st: State)
    ensures Scan(st, "") == Scanned([], st)
  {
  }

  // Characters that leave a double quotation open.
  predicate StaysDouble(c: char) { c !in "\0\"\\`({" }

  lemma {:induction false} DoubleRuns(st: State, s: string)
    requires st.Double? && forall c | c in s :: StaysDouble(c)
    ensures Scan(st, s).end.Double?
    decreases |s|
  {
    if s != "" {
      assert s[0] in s && forall c | c in s[1..] :: c in s;
      DoubleRuns(Advance(st, s[0]).end, s[1..]);
    }
  }

  predicate InOneLine(s: string) { forall c | c in s :: StaysDouble(c) && c != '\n' }

  lemma OneLineConcat(a: string, b: string)
    requires InOneLine(a) && InOneLine(b)
    ensures InOneLine(a + b)
  {
  }

  lemma MiddleChars()
    ensures InOneLine(MIDDLE) && NulFree(MIDDLE) && '\'' !in MIDDLE
  {
  }

  lemma PlainIsOneLine(s: string)
    requires forall c | c in s :: IsPlain(c)
    ensures InOneLine(s)
  {
  }

  lemma TailChars(id: string)
    requires IsJobId(id)
    ensures var tail := InnerTail(LogFile(id), RcFile(id));
      NulFree(tail) && '\n' !in tail && (forall c | c in tail :: StaysDouble(c)) && tail != "" && tail[0] == ' '
  {
    TailText(id);
    FileNames(id);
    MiddleChars();
    assert InOneLine(" ) > ") && InOneLine("'");
    PlainIsOneLine(LogFile(id));
    PlainIsOneLine(RcFile(id));
    hide LogFile, RcFile, IsJobId, MIDDLE, InOneLine, InnerTail;
    var t3 := RcFile(id) + "'";
    var t2 := MIDDLE + ("'" + t3);
    var t1 := LogFile(id) + ("'" + t2);
    OneLineConcat(RcFile(id), "'");
    OneLineConcat("'", t3);
    OneLineConcat(MIDDLE, "'" + t3);
    OneLineConcat("'", t2);
    OneLineConcat(LogFile(id), "'" + t2);
    OneLineConcat("'", t1);
    OneLineConcat(" ) > ", "'" + t1);
    OneLineChars(InnerTail(LogFile(id), RcFile(id)));
  }

  lemma OneLineChars(s: string)
    requires InOneLine(s)
    ensures NulFree(s) && '\n' !in s && forall c | c in s :: StaysDouble(c)
  {
  }

  lemma OpenLine(line: string, id: string)
    requires IsJobId(id)
    requires var end := Scan(Gap, line).end; end.Quote? || end.Double? || end.DoubleEscape? || end.Beyond?
    ensures Parse(line + InnerTail(LogFile(id), RcFile(id))) == None
  {
    hide LogFile, RcFile, InnerTail, IsJobId;
    var tail := InnerTail(LogFile(id), RcFile(id));
    ScanConcat(Gap, line, tail);
    match Scan(Gap, line).end
    case Quote(w) => QuotedLine(w, id);
    case Double(w) =>
      TailChars(id);
      DoubleRuns(Double(w), tail);
    case DoubleEscape(w) =>
      TailChars(id);
      assert tail[0] in tail && forall c | c in tail[1..] :: c in tail;
      DoubleRuns(AfterBackslash(w, ' '), tail[1..]);
    case _ => NulIsBeyond(Beyond, tail);
  }

  // What a script reads as, by the state its line ends in: a finished line is followed
  // by the recording of its outcome; a comment swallows the recording, closing
  // parenthesis included; a trailing backslash quotes the blank that follows; and an
  // open quote makes the script unreadable.
  lemma InnerParses(line: string, id: string)
    requires IsJobId(id)
    ensures var r := Scan(Gap, line); var tail := OutcomeTokens(id);
      Parse(Script(line, id)) ==
        match r.end
        case Gap => Some([Op("(")] + r.tokens + tail)
        case InWord(w) => Some([Op("(")] + (r.tokens + [Word(w)]) + tail)
        case InOp(op) => Some([Op("(")] + (r.tokens + [Op(op)]) + tail)
        case Comment => Some([Op("(")] + r.tokens)
        case Escape(_) => Some([Op("(")] + (r.tokens + QuotedBlank(r.end)) + tail)
        case OpEscape(_) => Some([Op("(")] + (r.tokens + QuotedBlank(r.end)) + tail)
        case _ => None
  {
    hide Parse, Scan, Inner, InnerTail, InnerTailTokens, LogFile, RcFile, IsJobId, QuotedBlank;
    InnerReads(line, LogFile(id), RcFile(id));
    var r := Scan(Gap, line);
    var tail := OutcomeTokens(id);
    if Finishes(r.end) {
      FinishedParses(line);
      FinishedLine(line, id);
      assert r.tokens + [] == r.tokens;
      assert [Op("(")] + (r.tokens + Last(r.end) + tail) == [Op("(")] + (r.tokens + Last(r.end)) + tail;
    } else if r.end.Comment? {
      CommentedLine(line, id);
    } else if r.end.Escape? || r.end.OpEscape? {
      EscapedLine(line, id);
      assert [Op("(")] + (r.tokens + QuotedBlank(r.end) + tail) == [Op("(")] + (r.tokens + QuotedBlank(r.end)) + tail;
    } else {
      OpenLine(line, id);
    }
  }

  // ---- A whole job --------------------------------------------------------------------------

  // Starting a job from an argument list, end to end: the pod's shell is given the
  // launcher; the launcher's `-lc` argument is the inner script; and the inner script
  // runs exactly the arguments, in the directory asked for, then records the outcome.
  lemma JobRuns(cmd: Command, id: string)
    requires cmd.line == "" && cmd.argv != [] && AllNulFree(cmd.argv) && NulFree(cmd.cwd)
    requires NulFree(id) && '\n' !in id
    ensures var inner := Inner(CommandLine(cmd).value, LogFile(id), RcFile(id));
      && CommandArgv(Command(Launcher(inner), [], "")) == Some(["/bin/sh", "-lc", Launcher(inner)])
      && Parse(Launcher(inner)) == Some(LauncherTokens(inner))
      && Parse(inner) == Some([Op("(")] + (if cmd.cwd == "" then [] else ChangeDir(cmd.cwd)) + Words(cmd.argv)
          + InnerTailTokens(LogFile(id), RcFile(id)))
  {
    hide Parse, Scan, Inner, Joined, InDir, ChangeDir, Words, LauncherTokens, InnerTailTokens, Launcher, LogFile;
    hide RcFile, NulFree;
    ArgvLine(cmd);
    FilesAreNulFree(id);
    var line := CommandLine(cmd).value;
    var inner := Inner(line, LogFile(id), RcFile(id));
    FinishedScript(line, LogFile(id), RcFile(id));
    ParsedIsNulFree(inner);
    LauncherParses(inner);
    LauncherRuns(inner);
    var begin, args := if cmd.cwd == "" then [] else ChangeDir(cmd.cwd), Words(cmd.argv);
    assert [Op("(")] + (begin + args) == [Op("(")] + begin + args;
  }

  lemma FinishedScript(line: string, logFile: string, rcFile: string)
    requires NulFree(logFile) && NulFree(rcFile) && Finishes(Scan(Gap, line).end)
    ensures Parse(line).Some?
    ensures Parse(Inner(line, logFile, rcFile))
        == Some([Op("(")] + Parse(line).value + InnerTailTokens(logFile, rcFile))
  {
    hide Parse, Scan, Inner, InnerTail, InnerTailTokens, NulFree;
    LineTailParses(line, logFile, rcFile);
    InnerReads(line, logFile, rcFile);
    var tail := InnerTailTokens(logFile, rcFile);
    assert [Op("(")] + (Parse(line).value + tail) == [Op("(")] + Parse(line).value + tail;
  }

  lemma LauncherRuns(inner: string)
    ensures CommandArgv(Command(Launcher(inner), [], "")) == Some(["/bin/sh", "-lc", Launcher(inner)])
  {
    LauncherText(inner);
  }

  lemma FilesAreNulFree(id: string)
    requires NulFree(id)
    ensures NulFree(LogFile(id)) && NulFree(RcFile(id))
  {
  }

  lemma ArgvLine(cmd: Command)
    requires cmd.line == "" && cmd.argv != [] && AllNulFree(cmd.argv) && NulFree(cmd.cwd)
    ensures var line := CommandLine(cmd).value;
      Parse(line) == Some((if cmd.cwd == "" then [] else ChangeDir(cmd.cwd)) + Words(cmd.argv))
          && Scan(Gap, line).end.InWord?
  {
    hide Joined, InDir, ChangeDir;
    var list := Joined(cmd.argv);
    JoinParsesBack(cmd.argv);
    JoinedScans(cmd.argv);
    if cmd.cwd == "" {
      assert [] + Words(cmd.argv) == Words(cmd.argv);
    } else {
      InDirReads(cmd.cwd, list);
      ReadsParses(InDir(cmd.cwd, list), ChangeDir(cmd.cwd), list);
    }
  }

  lemma ParsedIsNulFree(s: string)
    requires Parse(s).Some?
    ensures NulFree(s)
  {
    if !NulFree(s) {
      NulIsBeyond(Gap, s);
    }
  }
}
