// Shell text built by the executor (internal/exec/kubeexec.go), read back by the
// quoting and token rules of the POSIX Shell Command Language: XCU 2.2.1 (escape),
// 2.2.2 (single quotes), 2.2.3 (double quotes), 2.3 (token recognition) and 2.10.1
// (a number before a redirection).
module Shell {
  import opened Wrappers

  // ---- How a shell splits a script into tokens ------------------------------------

  // A character of a word: as written, or quoted and so exempt from every expansion.
  datatype Mark = Bare(c: char) | Lit(c: char)

  // `Io` is a number that belongs to the redirection right after it.
  datatype Token = Word(marks: seq<Mark>) | Io(marks: seq<Mark>) | Op(op: string)

  // `Escape`, `OpEscape`, `Quote` and `Double` follow a backslash and an opening quote; in
  // double quotes a dollar stays as written. `Beyond` is text these rules do not cover:
  // substitutions, and a NUL, which no argument of a process can hold.
  datatype State =
    | Gap
    | InWord(word: seq<Mark>)
    | InOp(op: string)
    | OpEscape(op: string)
    | Quote(word: seq<Mark>)
    | Double(word: seq<Mark>)
    | DoubleEscape(word: seq<Mark>)
    | Escape(before: Option<seq<Mark>>)
    | Comment
    | Beyond

  datatype Scanned = Scanned(tokens: seq<Token>, end: State)

  function Then(tokens: seq<Token>, r: Scanned): Scanned { Scanned(tokens + r.tokens, r.end) }

  predicate IsOp(c: char) {
    c == '|' || c == '&' || c == ';' || c == '<' || c == '>' || c == '(' || c == ')' || c == '\n'
  }

  // The operator `op` and this character make a longer operator.
  predicate Extends(op: string, c: char) {
    || (c == '&' && op in {"&", "<", ">"}) || (c == '|' && op in {"|", ">"}) || (c == ';' && op == ";")
    || (c == '<' && op == "<") || (c == '>' && op in {"<", ">"}) || (c == '-' && op == "<<")
  }

  function Done(word: Option<seq<Mark>>): seq<Token> { if word.Some? then [Word(word.value)] else [] }

  predicate IsNumber(marks: seq<Mark>) { marks != [] && forall m | m in marks :: m.Bare? && '0' <= m.c <= '9' }

  // The same, ended by an operator.
  function Ended(word: Option<seq<Mark>>, c: char): seq<Token> {
    if word.Some? && (c == '<' || c == '>') && IsNumber(word.value) then [Io(word.value)] else Done(word)
  }

  // A backquote, or the bracket of a `$(` or `${`.
  predicate Substitutes(word: seq<Mark>, c: char) {
    c == '`' || ((c == '(' || c == '{') && word != [] && word[|word| - 1] == Bare('$'))
  }

  function InDouble(word: seq<Mark>, c: char): State {
    if c == '"' then InWord(word)
    else if c == '\\' then DoubleEscape(word)
    else if Substitutes(word, c) then Beyond
    else Double(word + [if c == '$' then Bare(c) else Lit(c)])
  }

  // In double quotes a backslash escapes only what would be special there.
  function AfterBackslash(word: seq<Mark>, c: char): State {
    if c == '\n' then Double(word)
    else if c == '$' || c == '`' || c == '"' || c == '\\' then Double(word + [Lit(c)])
    else Double(word + [Lit('\\'), Lit(c)])
  }

  function Unquoted(word: Option<seq<Mark>>, c: char): Scanned {
    var marks := if word.Some? then word.value else [];
    if c == '\'' then Scanned([], Quote(marks))
    else if c == '\\' then Scanned([], Escape(word))
    else if c == '"' then Scanned([], Double(marks))
    else if Substitutes(marks, c) then Scanned([], Beyond)
    else if c == ' ' || c == '\t' then Scanned(Done(word), Gap)
    else if IsOp(c) then Scanned(Ended(word, c), InOp([c]))
    else Scanned([], InWord(marks + [Bare(c)]))
  }

  function FromGap(c: char): Scanned { if c == '#' then Scanned([], Comment) else Unquoted(None, c) }

  function FromOp(op: string, c: char): Scanned {
    if Extends(op, c) then Scanned([], InOp(op + [c]))
    else if c == '\\' then Scanned([], OpEscape(op))
    else Then([Op(op)], FromGap(c))
  }

  function Advance(st: State, c: char): Scanned {
    if c == '\0' then Scanned([], Beyond)
    else match st
      case Beyond => Scanned([], Beyond)
      case Quote(w) => Scanned([], if c == '\'' then InWord(w) else Quote(w + [Lit(c)]))
      case Double(w) => Scanned([], InDouble(w, c))
      case DoubleEscape(w) => Scanned([], AfterBackslash(w, c))
      case Escape(before) =>
        if c == '\n' then Scanned([], if before.Some? then InWord(before.value) else Gap)
        else Scanned([], InWord((if before.Some? then before.value else []) + [Lit(c)]))
      case OpEscape(op) => if c == '\n' then Scanned([], InOp(op)) else Scanned([Op(op)], InWord([Lit(c)]))
      case Comment => Scanned([], if c == '\n' then InOp([c]) else Comment)
      case Gap => FromGap(c)
      case InWord(w) => Unquoted(Some(w), c)
      case InOp(op) => FromOp(op, c)
  }

  function Scan(st: State, s: string): Scanned
    decreases |s|
  {
    if s == "" then Scanned([], st)
    else
      var first := Advance(st, s[0]);
      var rest := Scan(first.end, s[1..]);
      Scanned(first.tokens + rest.tokens, rest.end)
  }

  function Finished(r: Scanned): Option<seq<Token>> {
    match r.end
    case Gap => Some(r.tokens)
    case Comment => Some(r.tokens)
    case InWord(w) => Some(r.tokens + [Word(w)])
    case InOp(op) => Some(r.tokens + [Op(op)])
    case _ => None
  }

  function Parse(s: string): Option<seq<Token>> { Finished(Scan(Gap, s)) }

  // ---- The source's text building ---------------------------------------------------

  function EscapeQuotes(s: string): string {
    if s == "" then "" else (if s[0] == '\'' then "'\\''" else [s[0]]) + EscapeQuotes(s[1..])
  }

  function ShellQuote(s: string): string {
    if s == "" then "''" else "'" + EscapeQuotes(s) + "'"
  }

  function Join(parts: seq<string>): string {
    if |parts| == 0 then "" else if |parts| == 1 then parts[0] else parts[0] + " " + Join(parts[1..])
  }

  function Quotes(argv: seq<string>): seq<string> { seq(|argv|, i requires 0 <= i < |argv| => ShellQuote(argv[i])) }

  function Joined(argv: seq<string>): string { Join(Quotes(argv)) }

  datatype Command = Command(line: string, argv: seq<string>, cwd: string)

  function InDir(cwd: string, line: string): string { "cd " + ShellQuote(cwd) + " && " + line }

  function CommandArgv(cmd: Command): Option<seq<string>> {
    if cmd.line != "" then Some(["/bin/sh", "-lc", if cmd.cwd != "" then InDir(cmd.cwd, cmd.line) else cmd.line])
    else if cmd.argv == [] then None
    else if cmd.cwd == "" then Some(cmd.argv)
    else Some(["/bin/sh", "-lc", InDir(cmd.cwd, "exec " + Joined(cmd.argv))])
  }

  function CommandLine(cmd: Command): Option<string> {
    if cmd.line == "" && cmd.argv == [] then None
    else
      var line := if cmd.line != "" then cmd.line else Joined(cmd.argv);
      Some(if cmd.cwd != "" then InDir(cmd.cwd, line) else line)
  }

  function Inner(line: string, logFile: string, rcFile: string): string {
    "( " + line + " ) > " + ShellQuote(logFile) + " 2>&1; echo $? > " + ShellQuote(rcFile)
  }

  function Launcher(inner: string): string {
    "nohup /bin/sh -lc " + ShellQuote(inner) + " >/dev/null 2>&1 & echo $!"
  }

  // ---- Scanning pieces ----------------------------------------------------------------

  lemma {:induction false} ScanConcat(st: State, a: string, b: string)
    ensures Scan(st, a + b) == Then(Scan(st, a).tokens, Scan(Scan(st, a).end, b))
    decreases |a|
  {
    hide Advance;
    if a == "" {
      assert a + b == b;
    } else {
      assert (a + b)[1..] == a[1..] + b;
      ScanConcat(Advance(st, a[0]).end, a[1..], b);
    }
  }

  function Literal(s: string): seq<Mark> { seq(|s|, i requires 0 <= i < |s| => Lit(s[i])) }

  function Plain(s: string): seq<Mark> { seq(|s|, i requires 0 <= i < |s| => Bare(s[i])) }

  predicate NulFree(s: string) { '\0' !in s }

  lemma {:induction false} NulIsBeyond(st: State, s: string)
    requires st == Beyond || !NulFree(s)
    ensures Scan(st, s).end == Beyond
    decreases |s|
  {
    if s != "" {
      NulIsBeyond(Advance(st, s[0]).end, s[1..]);
    }
  }

  lemma {:induction false} EscapedScans(w: seq<Mark>, s: string, rest: string)
    requires NulFree(s)
    ensures Scan(Quote(w), EscapeQuotes(s) + "'" + rest) == Scan(InWord(w + Literal(s)), rest)
    decreases |s|
  {
    if s == "" {
      assert EscapeQuotes(s) + "'" + rest == ['\''] + rest && w + Literal(s) == w;
      assert (['\''] + rest)[1..] == rest;
    } else {
      var tail := EscapeQuotes(s[1..]) + "'" + rest;
      var w' := w + [Lit(s[0])];
      assert w' + Literal(s[1..]) == w + Literal(s);
      if s[0] == '\'' {
        assert EscapeQuotes(s) + "'" + rest == "'\\''" + tail;
        var t := "'\\''" + tail;
        assert t[1..] == "\\''" + tail && t[1..][1..] == "''" + tail && t[1..][1..][1..] == "'" + tail
            && t[1..][1..][1..][1..] == tail;
        assert Scan(Quote(w), t) == Scan(InWord(w), t[1..]);
        assert Scan(InWord(w), t[1..]) == Scan(Escape(Some(w)), t[1..][1..]);
        assert Scan(Escape(Some(w)), t[1..][1..]) == Scan(InWord(w'), t[1..][1..][1..]);
        assert Scan(InWord(w'), t[1..][1..][1..]) == Scan(Quote(w'), tail);
      } else {
        assert EscapeQuotes(s) + "'" + rest == [s[0]] + tail && ([s[0]] + tail)[1..] == tail;
      }
      EscapedScans(w', s[1..], rest);
    }
  }

  // A quoted string is one piece of a word, every character of it quoted.
  lemma QuotedScans(s: string, rest: string)
    requires NulFree(s)
    ensures Scan(Gap, ShellQuote(s) + rest) == Scan(InWord(Literal(s)), rest)
  {
    if s == "" {
      var t := "''" + rest;
      assert t[1..] == "'" + rest && t[1..][1..] == rest && Literal(s) == [];
      assert Scan(Gap, t) == Scan(Quote([]), t[1..]) && Scan(Quote([]), t[1..]) == Scan(InWord([]), rest);
    } else {
      var t := EscapeQuotes(s) + "'" + rest;
      assert ShellQuote(s) + rest == "'" + t && ("'" + t)[1..] == t;
      assert Scan(Gap, "'" + t) == Scan(Quote([]), t);
      EscapedScans([], s, rest);
      assert [] + Literal(s) == Literal(s);
    }
  }

  predicate IsPlain(c: char) { c !in "\0'\\\"`({ \t#" && !IsOp(c) }

  // An unquoted run of ordinary characters, inside a word or starting one.
  lemma {:induction false} PlainScans(st: State, s: string, rest: string)
    requires st.InWord? && forall c | c in s :: IsPlain(c)
    ensures Scan(st, s + rest) == Scan(InWord(st.word + Plain(s)), rest)
    decreases |s|
  {
    if s == "" {
      assert s + rest == rest && st.word + Plain(s) == st.word;
    } else {
      assert s[0] in s && forall c | c in s[1..] :: c in s;
      assert (s + rest)[1..] == s[1..] + rest;
      var w' := st.word + [Bare(s[0])];
      PlainScans(InWord(w'), s[1..], rest);
      assert w' + Plain(s[1..]) == st.word + Plain(s);
    }
  }

  // Reading `tokens` takes the scan from the start of `s` to the start of `rest`.
  ghost predicate Reads(s: string, tokens: seq<Token>, rest: string) {
    Scan(Gap, s) == Then(tokens, Scan(Gap, rest))
  }

  lemma ReadsOn(s: string, a: seq<Token>, mid: string, b: seq<Token>, rest: string)
    requires Reads(s, a, mid) && Reads(mid, b, rest)
    ensures Reads(s, a + b, rest)
  {
  }

  lemma PlainStarts(c: char, rest: string)
    requires IsPlain(c)
    ensures Scan(Gap, [c] + rest) == Scan(InWord([Bare(c)]), rest)
  {
    assert ([c] + rest)[1..] == rest && [] + [Bare(c)] == [Bare(c)];
  }

  lemma WordStarts(s: string, rest: string)
    requires s != "" && forall c | c in s :: IsPlain(c)
    ensures Scan(Gap, s + rest) == Scan(InWord(Plain(s)), rest)
  {
    hide Scan, IsPlain;
    assert s[0] in s && forall c | c in s[1..] :: c in s;
    assert s + rest == [s[0]] + (s[1..] + rest);
    PlainStarts(s[0], s[1..] + rest);
    PlainScans(InWord([Bare(s[0])]), s[1..], rest);
    assert [Bare(s[0])] + Plain(s[1..]) == Plain(s);
  }

  lemma WordThenBlank(s: string, rest: string)
    requires s != "" && forall c | c in s :: IsPlain(c)
    ensures Reads(s + " " + rest, [Word(Plain(s))], rest)
  {
    WordStarts(s, " " + rest);
    assert s + " " + rest == s + (" " + rest) && (" " + rest)[1..] == rest;
  }

  lemma QuotedThenBlank(s: string, rest: string)
    requires NulFree(s)
    ensures Reads(ShellQuote(s) + " " + rest, [Word(Literal(s))], rest)
  {
    assert ShellQuote(s) + " " + rest == ShellQuote(s) + (" " + rest);
    QuotedScans(s, " " + rest);
    assert (" " + rest)[1..] == rest;
  }

  lemma BlankScans(rest: string)
    ensures Reads(" " + rest, [], rest)
  {
    assert (" " + rest)[1..] == rest;
  }

  lemma OpStarts(c: char, rest: string)
    requires IsOp(c)
    ensures Scan(Gap, [c] + rest) == Scan(InOp([c]), rest)
  {
    hide Advance, IsOp;
    OpFromGap(c);
    assert ([c] + rest)[1..] == rest;
    assert Scan(Gap, [c] + rest) == Then([], Scan(InOp([c]), rest));
  }

  lemma OpFromGap(c: char)
    requires IsOp(c)
    ensures Advance(Gap, c) == Scanned([], InOp([c]))
  {
  }

  lemma OpGrows(op: string, c: char, rest: string)
    requires Extends(op, c)
    ensures Scan(InOp(op), [c] + rest) == Scan(InOp(op + [c]), rest)
  {
    assert ([c] + rest)[1..] == rest;
  }

  // An operator ends before a character that neither extends nor escapes.
  lemma OpEnds(op: string, rest: string)
    requires rest != "" && rest[0] !in "\0\\" && !Extends(op, rest[0])
    ensures Scan(InOp(op), rest) == Then([Op(op)], Scan(Gap, rest))
  {
    var next := FromGap(rest[0]);
    assert [Op(op)] + next.tokens + Scan(next.end, rest[1..]).tokens
        == [Op(op)] + (next.tokens + Scan(next.end, rest[1..]).tokens);
  }

  lemma OpThenBlank(c: char, rest: string)
    requires IsOp(c)
    ensures Reads([c] + " " + rest, [Op([c])], rest)
  {
    hide Scan, Extends;
    assert [c] + " " + rest == [c] + (" " + rest);
    OpStarts(c, " " + rest);
    assert !Extends([c], ' ') by { NothingExtends([c], ' '); }
    OpEnds([c], " " + rest);
    BlankScans(rest);
  }

  lemma NothingExtends(op: string, c: char)
    requires c !in "&|;<>-"
    ensures !Extends(op, c)
  {
  }

  // ---- Joined argument lists ------------------------------------------------------------

  function Words(argv: seq<string>): seq<Token> { seq(|argv|, i requires 0 <= i < |argv| => Word(Literal(argv[i]))) }

  predicate AllNulFree(argv: seq<string>) { forall arg | arg in argv :: NulFree(arg) }

  lemma JoinedStep(argv: seq<string>)
    requires |argv| > 1
    ensures Joined(argv) == ShellQuote(argv[0]) + " " + Joined(argv[1..])
  {
    hide ShellQuote;
    assert Quotes(argv)[1..] == Quotes(argv[1..]);
  }

  lemma WordsStep(argv: seq<string>)
    requires |argv| > 1
    ensures Words(argv[..|argv| - 1]) == [Word(Literal(argv[0]))] + Words(argv[1..][..|argv| - 2])
  {
    hide Literal;
  }

  lemma {:induction false} JoinedScans(argv: seq<string>)
    requires AllNulFree(argv) && argv != []
    ensures Scan(Gap, Joined(argv)) == Scanned(Words(argv[..|argv| - 1]), InWord(Literal(argv[|argv| - 1])))
    decreases |argv|
  {
    ConsNulFree(argv);
    if |argv| == 1 {
      hide ShellQuote, Literal;
      QuotedScans(argv[0], "");
      assert Joined(argv) == ShellQuote(argv[0]) + "";
      assert Scan(InWord(Literal(argv[0])), "") == Scanned([], InWord(Literal(argv[0])));
    } else {
      hide Scan, ShellQuote, Literal, Joined, Words, NulFree, AllNulFree;
      JoinedStep(argv);
      QuotedThenBlank(argv[0], Joined(argv[1..]));
      JoinedScans(argv[1..]);
      WordsStep(argv);
      assert argv[1..][|argv| - 2] == argv[|argv| - 1];
    }
  }

  lemma {:induction false} QuoteKeepsNul(s: string)
    ensures NulFree(ShellQuote(s)) <==> NulFree(s)
  {
    EscapeKeepsNul(s);
    assert s != "" ==> ShellQuote(s) == "'" + EscapeQuotes(s) + "'";
  }

  lemma {:induction false} EscapeKeepsNul(s: string)
    ensures NulFree(EscapeQuotes(s)) <==> NulFree(s)
  {
    if s != "" {
      EscapeKeepsNul(s[1..]);
      assert s == [s[0]] + s[1..];
    }
  }

  lemma NulConcat(a: string, b: string)
    ensures NulFree(a + b) <==> NulFree(a) && NulFree(b)
  {
    assert forall c :: c in a + b <==> c in a || c in b;
  }

  lemma {:induction false} JoinKeepsNul(argv: seq<string>)
    ensures NulFree(Joined(argv)) <==> AllNulFree(argv)
    decreases |argv|
  {
    if |argv| == 0 {
    } else if |argv| == 1 {
      QuoteKeepsNul(argv[0]);
    } else {
      JoinedStep(argv);
      QuoteKeepsNul(argv[0]);
      JoinKeepsNul(argv[1..]);
      ConsNulFree(argv);
      assert NulFree(" ");
      hide NulFree, AllNulFree, Joined, ShellQuote;
      NulConcat(ShellQuote(argv[0]) + " ", Joined(argv[1..]));
      NulConcat(ShellQuote(argv[0]), " ");
    }
  }

  lemma ConsNulFree(argv: seq<string>)
    requires argv != []
    ensures AllNulFree(argv) <==> NulFree(argv[0]) && AllNulFree(argv[1..])
  {
    hide NulFree;
    assert argv == [argv[0]] + argv[1..];
  }

  // Splitting a joined argument list gives back exactly the arguments, the empty ones
  // included, every character quoted; and the text is readable at all if and only if
  // no argument holds a NUL.
  lemma JoinParsesBack(argv: seq<string>)
    ensures Parse(Joined(argv)) == if AllNulFree(argv) then Some(Words(argv)) else None
  {
    if !AllNulFree(argv) {
      JoinKeepsNul(argv);
      NulIsBeyond(Gap, Joined(argv));
    } else if argv == [] {
      assert Words(argv) == [];
    } else {
      JoinedScans(argv);
      assert Words(argv) == Words(argv[..|argv| - 1]) + [Word(Literal(argv[|argv| - 1]))];
    }
  }

  method ShellJoin(argv: seq<string>) returns (s: string)
    ensures s == Joined(argv)
    ensures Parse(s) == if AllNulFree(argv) then Some(Words(argv)) else None
  {
    var quoted := [];
    for i := 0 to |argv|
      invariant quoted == Quotes(argv)[..i]
    {
      quoted := quoted + [ShellQuote(argv[i])];
    }
    assert Quotes(argv)[..|argv|] == Quotes(argv);
    s := Join(quoted);
    JoinParsesBack(argv);
  }

  // ---- Commands -----------------------------------------------------------------------

  function After(tokens: seq<Token>, parsed: Option<seq<Token>>): Option<seq<Token>> {
    if parsed.None? then None else Some(tokens + parsed.value)
  }

  function Bareword(s: string): Token { Word(Plain(s)) }

  function ChangeDir(cwd: string): seq<Token> { [Bareword("cd"), Word(Literal(cwd)), Op("&&")] }

  // Changing directory first adds three tokens and leaves the rest of the line alone.
  lemma InDirReads(cwd: string, line: string)
    requires NulFree(cwd)
    ensures Reads(InDir(cwd, line), ChangeDir(cwd), line)
  {
    hide Reads, ShellQuote;
    var t2 := "& " + line;
    var t1 := "&" + t2;
    var t0 := ShellQuote(cwd) + " " + t1;
    assert InDir(cwd, line) == "cd" + " " + t0;
    WordThenBlank("cd", t0);
    QuotedThenBlank(cwd, t1);
    ReadsOn(InDir(cwd, line), [Bareword("cd")], t0, [Word(Literal(cwd))], t1);
    AndReads(line);
    ReadsOn(InDir(cwd, line), [Bareword("cd")] + [Word(Literal(cwd))], t1, [Op("&&")], line);
    assert [Bareword("cd")] + [Word(Literal(cwd))] + [Op("&&")] == ChangeDir(cwd);
  }

  lemma AndReads(line: string)
    ensures Reads("&" + ("& " + line), [Op("&&")], line)
  {
    hide Scan;
    OpStarts('&', "& " + line);
    assert "& " + line == "&" + (" " + line) && ['&'] + ['&'] == "&&";
    OpGrows("&", '&', " " + line);
    OpEnds("&&", " " + line);
    BlankScans(line);
  }

  lemma ReadsParses(s: string, tokens: seq<Token>, rest: string)
    requires Reads(s, tokens, rest)
    ensures Parse(s) == After(tokens, Parse(rest))
  {
    var r := Scan(Gap, rest);
    if r.end.InWord? {
      assert tokens + r.tokens + [Word(r.end.word)] == tokens + (r.tokens + [Word(r.end.word)]);
    } else if r.end.InOp? {
      assert tokens + r.tokens + [Op(r.end.op)] == tokens + (r.tokens + [Op(r.end.op)]);
    }
  }

  lemma InDirParses(cwd: string, line: string)
    ensures Parse(InDir(cwd, line)) == if NulFree(cwd) then After(ChangeDir(cwd), Parse(line)) else None
  {
    if NulFree(cwd) {
      InDirReads(cwd, line);
      ReadsParses(InDir(cwd, line), ChangeDir(cwd), line);
    } else {
      QuoteKeepsNul(cwd);
      NulConcat("cd ", ShellQuote(cwd));
      NulConcat("cd " + ShellQuote(cwd), " && ");
      NulConcat("cd " + ShellQuote(cwd) + " && ", line);
      NulIsBeyond(Gap, InDir(cwd, line));
    }
  }

  // A shell line reads as written, behind a change of directory and an `&&` when a
  // directory is given; so a line such as `a & b` changes directory for `a` alone.
  lemma LineCommandRuns(cmd: Command)
    requires cmd.line != ""
    ensures CommandArgv(cmd).Some? && |CommandArgv(cmd).value| == 3 && CommandArgv(cmd).value[..2] == ["/bin/sh", "-lc"]
    ensures CommandLine(cmd) == Some(CommandArgv(cmd).value[2])
    ensures var script := CommandArgv(cmd).value[2];
      Parse(script) ==
        if cmd.cwd == "" then Parse(cmd.line)
        else if NulFree(cmd.cwd) then After(ChangeDir(cmd.cwd), Parse(cmd.line)) else None
  {
    InDirParses(cmd.cwd, cmd.line);
  }

  // A shell told to change to the directory and to exec exactly these arguments, if they
  // can be told at all.
  ghost predicate ExecsIn(r: seq<string>, cwd: string, argv: seq<string>) {
    && |r| == 3 && r[..2] == ["/bin/sh", "-lc"]
    && var readable := NulFree(cwd) && AllNulFree(argv);
      Parse(r[2]) == if readable then Some(ChangeDir(cwd) + [Bareword("exec")] + Words(argv)) else None
  }

  // An argument list runs as it is; with a directory, the shell is told to change there
  // and to exec exactly these arguments.
  lemma ArgvCommandRuns(cmd: Command)
    requires cmd.line == ""
    ensures CommandArgv(cmd).None? <==> cmd.argv == []
    ensures CommandLine(cmd).None? <==> cmd.argv == []
    ensures cmd.argv != [] && cmd.cwd == "" ==> CommandArgv(cmd) == Some(cmd.argv)
    ensures cmd.argv != [] && cmd.cwd != "" ==> ExecsIn(CommandArgv(cmd).value, cmd.cwd, cmd.argv)
  {
    if cmd.argv != [] && cmd.cwd != "" { ExecParses(cmd.cwd, cmd.argv); }
  }

  lemma ExecParses(cwd: string, argv: seq<string>)
    ensures Parse(InDir(cwd, "exec " + Joined(argv))) ==
      if NulFree(cwd) && AllNulFree(argv) then Some(ChangeDir(cwd) + [Bareword("exec")] + Words(argv)) else None
  {
    hide Parse, Reads, Joined, InDir, ChangeDir, Words, NulFree, AllNulFree;
    var list := Joined(argv);
    InDirParses(cwd, "exec " + list);
    JoinParsesBack(argv);
    assert "exec " + list == "exec" + " " + list;
    WordThenBlank("exec", list);
    ReadsParses("exec " + list, [Bareword("exec")], list);
    assert ChangeDir(cwd) + ([Bareword("exec")] + Words(argv)) == ChangeDir(cwd) + [Bareword("exec")] + Words(argv);
  }
}
