// What a canonical id keeps of the reference it is made from (internal/session/id.go).
module Slugs {
  import opened Identifiers

  // ---- The words of a reference ----------------------------------------------------

  predicate IsLetterOrDigit(c: char) { 'a' <= c <= 'z' || 'A' <= c <= 'Z' || '0' <= c <= '9' }

  function Lower(c: char): char {
    if 'A' <= c <= 'Z' then 'a' + (c - 'A') else c
  }

  function LowerCase(s: string): string { seq(|s|, i requires 0 <= i < |s| => Lower(s[i])) }

  // How many letters and digits the text begins with.
  function WordLength(s: string): (n: nat)
    ensures n <= |s| && (forall i | 0 <= i < n :: IsLetterOrDigit(s[i])) && (n < |s| ==> !IsLetterOrDigit(s[n]))
  {
    if s != "" && IsLetterOrDigit(s[0]) then 1 + WordLength(s[1..]) else 0
  }

  // The longest runs of letters and digits, in order and in lower case.
  function Words(s: string): seq<string>
    decreases |s|
  {
    if s == "" then []
    else if WordLength(s) == 0 then Words(s[1..])
    else [LowerCase(s[..WordLength(s)])] + Words(s[WordLength(s)..])
  }

  function Hyphenated(words: seq<string>): string {
    if |words| == 0 then "" else if |words| == 1 then words[0] else words[0] + "-" + Hyphenated(words[1..])
  }

  lemma {:induction false} WordsAreWords(s: string)
    ensures forall w | w in Words(s) :: w != ""
    ensures Words(s) == [] <==> forall c | c in s :: !IsLetterOrDigit(c)
    decreases |s|
  {
    if s != "" {
      var rest := s[if WordLength(s) == 0 then 1 else WordLength(s)..];
      WordsAreWords(rest);
      assert s[0] in s && forall c | c in s :: c == s[0] || c in s[1..];
      assert forall c | c in rest :: c in s;
    }
  }

  lemma HyphenatedIsEmpty(s: string)
    ensures Hyphenated(Words(s)) == "" <==> Words(s) == []
  {
    WordsAreWords(s);
  }

  lemma HyphenatedCons(word: string, words: seq<string>)
    ensures Hyphenated([word] + words) == if words == [] then word else word + "-" + Hyphenated(words)
  {
    assert ([word] + words)[1..] == words;
  }

  // ---- The words survive the rune mapping ----------------------------------------------

  lemma {:induction false} WordLengthOfSlug(raw: string)
    ensures WordLength(Slugify(raw)) == WordLength(raw)
  {
    if raw != "" {
      WordLengthOfSlug(raw[1..]);
      assert Slugify(raw)[1..] == Slugify(raw[1..]);
    }
  }

  lemma SlugFrom(raw: string, n: nat)
    requires n <= |raw|
    ensures Slugify(raw)[n..] == Slugify(raw[n..]) && Slugify(raw)[..n] == Slugify(raw[..n])
  {
    hide SlugChar;
  }

  lemma LowerCaseOfWord(word: string)
    requires forall c | c in word :: IsLetterOrDigit(c)
    ensures LowerCase(Slugify(word)) == LowerCase(word)
  {
    forall i | 0 <= i < |word| ensures Lower(SlugChar(word[i])) == Lower(word[i]) { assert word[i] in word; }
  }

  lemma {:induction false} WordsOfSlug(raw: string)
    ensures Words(Slugify(raw)) == Words(raw)
    decreases |raw|
  {
    hide Slugify, LowerCase, IsLetterOrDigit, Lower, WordLength;
    WordLengthOfSlug(raw);
    SlugIsAsLong(raw);
    if raw != "" {
      var n := if WordLength(raw) == 0 then 1 else WordLength(raw);
      SlugFrom(raw, n);
      WordsOfSlug(raw[n..]);
      LowerCaseOfWord(raw[..WordLength(raw)]);
    }
  }

  lemma SlugIsAsLong(raw: string)
    ensures |Slugify(raw)| == |raw|
  {
  }

  // ---- Trimming and collapsing put single dashes between them --------------------------

  lemma {:induction false} TrimRightConcat(w: string, x: string)
    requires w != "" && w[|w| - 1] != '-'
    ensures TrimRight(w + x) == w + TrimRight(x)
    decreases |x|
  {
    if x != "" && x[|x| - 1] == '-' {
      TrimRightConcat(w, x[..|x| - 1]);
      assert (w + x)[..|w + x| - 1] == w + x[..|x| - 1];
    }
  }

  lemma {:induction false} TrimRightDash(x: string)
    ensures TrimRight("-" + x) == if TrimRight(x) == "" then "" else "-" + TrimRight(x)
    decreases |x|
  {
    if x == "" {
      assert "-" + x == "-" && "-"[..0] == "";
    } else if x[|x| - 1] == '-' {
      TrimRightDash(x[..|x| - 1]);
      assert ("-" + x)[..|x|] == "-" + x[..|x| - 1];
    }
  }

  lemma {:induction false} CollapseConcat(w: string, x: string)
    requires forall c | c in w :: c != '-'
    ensures Collapse(w + x) == w + Collapse(x)
    decreases |w|
  {
    hide Collapse;
    if w == "" {
      assert w + x == x && w + Collapse(x) == Collapse(x);
    } else {
      assert w[0] in w && forall c | c in w[1..] :: c in w;
      CollapseConcat(w[1..], x);
      CollapseCons(w[0], w[1..] + x);
      assert w + x == [w[0]] + (w[1..] + x) && w + Collapse(x) == [w[0]] + (w[1..] + Collapse(x));
    }
  }

  // Dashes before a word become one, and dashes before nothing none.
  lemma {:induction false} DashesBefore(s: string)
    requires s != "" && s[0] == '-'
    ensures if Trim(s) == "" then TrimRight(s) == "" else Collapse(TrimRight(s)) == "-" + Collapse(Trim(s))
    decreases |s|
  {
    var x := s[1..];
    assert s == "-" + x && TrimLeft(s) == TrimLeft(x);
    TrimRightDash(x);
    if x != "" && x[0] == '-' {
      DashesBefore(x);
      if TrimRight(x) != "" {
        TrimRightStart(x);
        CollapseCons('-', TrimRight(x));
      }
    } else if TrimRight(x) != "" {
      TrimRightStart(x);
      CollapseCons('-', TrimRight(x));
    }
  }

  lemma {:induction false} TrimRightStart(s: string)
    requires TrimRight(s) != ""
    ensures TrimRight(s)[0] == s[0]
    decreases |s|
  {
    if s[|s| - 1] == '-' { TrimRightStart(s[..|s| - 1]); }
  }

  lemma LowerCaseOfSlug(s: string)
    requires SlugText(s)
    ensures LowerCase(s) == s
  {
  }

  lemma NothingCollapses()
    ensures Trim("") == "" && TrimRight("") == "" && Collapse("") == "" && Hyphenated([]) == ""
  {
  }

  lemma DashFirst(s: string)
    requires SlugText(s) && s != "" && WordLength(s) == 0
    ensures s[0] == '-' && Trim(s) == Trim(s[1..]) && SlugText(s[1..])
  {
    hide TrimRight;
  }

  // A text that begins with a word: the word, and what follows it, which begins with a dash.
  lemma WordFirst(s: string)
    requires SlugText(s) && WordLength(s) > 0
    ensures var w, rest := s[..WordLength(s)], s[WordLength(s)..];
      && s == w + rest && LowerCase(w) == w && w[|w| - 1] != '-' && (forall c | c in w :: c != '-')
      && SlugText(rest) && (rest != "" ==> rest[0] == '-') && Trim(s) == TrimRight(s)
  {
    hide TrimRight;
    var w := s[..WordLength(s)];
    LowerCaseOfSlug(w);
    assert w[|w| - 1] == s[WordLength(s) - 1];
  }

  lemma {:induction false} CollapseSpellsWords(s: string)
    requires SlugText(s)
    ensures Collapse(Trim(s)) == Hyphenated(Words(s))
    decreases |s|
  {
    hide IsLetterOrDigit, IsAlnum, Lower, LowerCase, Collapse, TrimRight, Hyphenated;
    if s == "" {
      NothingCollapses();
    } else if WordLength(s) == 0 {
      DashFirst(s);
      CollapseSpellsWords(s[1..]);
    } else {
      var w, rest := s[..WordLength(s)], s[WordLength(s)..];
      WordFirst(s);
      TrimRightConcat(w, rest);
      CollapseConcat(w, TrimRight(rest));
      CollapseSpellsWords(rest);
      HyphenatedCons(w, Words(rest));
      HyphenatedIsEmpty(rest);
      CollapseStart(Trim(rest));
      NothingCollapses();
      if rest != "" { DashesBefore(rest); }
    }
  }

  // ---- The stem --------------------------------------------------------------------------

  lemma CutText(text: string)
    requires |text| > 40 && text[0] != '-' && !HasDoubleDash(text)
    ensures Trim(text[..40]) == if text[39] == '-' then text[..39] else text[..40]
  {
    var cut := text[..40];
    assert TrimLeft(cut) == cut;
    if text[39] == '-' {
      assert text[38] != '-';
      assert cut[..39] == text[..39] && TrimRight(cut[..39]) == cut[..39];
    }
  }

  // The words of a reference in lower case, one dash between any two: all of it if it
  // fits in forty characters, and otherwise its first forty, less a dash at the end.
  function Spelled(raw: string): string {
    var text := Hyphenated(Words(raw));
    if text == "" then "sbx"
    else if |text| <= 40 then text
    else if text[39] == '-' then text[..39] else text[..40]
  }

  // That is the stem of its id; and there are no words exactly when the reference has no
  // letter and no digit.
  lemma StemSpellsWords(raw: string)
    ensures Stem(raw) == Spelled(raw)
    ensures Hyphenated(Words(raw)) == "" <==> forall c | c in raw :: !IsLetterOrDigit(c)
  {
    hide Words, Hyphenated, Collapse, TrimLeft, TrimRight, Slugify, IsLetterOrDigit, HasDoubleDash;
    var slug := Slugify(raw);
    var text := Hyphenated(Words(raw));
    SlugIsText(raw);
    CollapseSpellsWords(slug);
    WordsOfSlug(raw);
    WordsAreWords(raw);
    HyphenatedIsEmpty(raw);
    if |text| > 40 {
      TrimmedText(slug);
      CutText(text);
    }
  }

  lemma SlugIsText(raw: string)
    ensures SlugText(Slugify(raw))
  {
  }

  lemma TrimmedText(s: string)
    requires SlugText(s) && Collapse(Trim(s)) != ""
    ensures Collapse(Trim(s))[0] != '-' && !HasDoubleDash(Collapse(Trim(s)))
  {
    TrimSpec(s);
    var j, k :| 0 <= j <= k <= |s| && Trim(s) == s[j..k];
    hide Trim;
    CollapseShape(s[j..k]);
  }

  // ---- Its letters and digits -----------------------------------------------------------

  // The letters and digits of a text, in order and in lower case.
  function Letters(s: string): string {
    if s == "" then "" else (if IsLetterOrDigit(s[0]) then [Lower(s[0])] else "") + Letters(s[1..])
  }

  lemma LettersCons(c: char, s: string)
    ensures Letters([c] + s) == (if IsLetterOrDigit(c) then [Lower(c)] else "") + Letters(s)
  {
    hide IsLetterOrDigit, Lower;
    assert ([c] + s)[1..] == s;
  }

  lemma {:induction false} LettersConcat(a: string, b: string)
    ensures Letters(a + b) == Letters(a) + Letters(b)
    decreases |a|
  {
    if a == "" {
      assert a + b == b && Letters("") + Letters(b) == Letters(b);
    } else {
      hide Letters, IsLetterOrDigit, Lower;
      LettersConcat(a[1..], b);
      LettersCons(a[0], a[1..]);
      LettersCons(a[0], a[1..] + b);
      assert a == [a[0]] + a[1..] && a + b == [a[0]] + (a[1..] + b);
    }
  }

  lemma LowerIsLetter(c: char)
    requires IsLetterOrDigit(c)
    ensures IsLetterOrDigit(Lower(c)) && Lower(Lower(c)) == Lower(c)
  {
  }

  lemma {:induction false} LettersOfWord(s: string)
    requires forall c | c in s :: IsLetterOrDigit(c)
    ensures Letters(s) == LowerCase(s) && Letters(LowerCase(s)) == LowerCase(s)
  {
    hide IsLetterOrDigit, Lower;
    if s != "" {
      assert s[0] in s && forall c | c in s[1..] :: c in s;
      LettersOfWord(s[1..]);
      LowerIsLetter(s[0]);
      assert LowerCase(s)[0] == Lower(s[0]) && LowerCase(s)[1..] == LowerCase(s[1..]);
      assert LowerCase(s) == [Lower(s[0])] + LowerCase(s[1..]);
    }
  }

  // One word, and what its hyphen adds.
  lemma LettersOfFirst(word: string, rest: string)
    ensures Letters(word + "-" + rest) == Letters(word) + Letters(rest)
  {
    LettersConcat(word + "-", rest);
    LettersConcat(word, "-");
    LettersCons('-', "");
    assert ['-'] + "" == "-" && Letters("") == "" && "" + "" == "";
    assert Letters(word) + "" == Letters(word);
  }

  lemma {:induction false} LettersOfWords(s: string)
    ensures Letters(Hyphenated(Words(s))) == Letters(s)
    decreases |s|
  {
    hide Letters, IsLetterOrDigit, Lower, LowerCase, Hyphenated, WordLength;
    if s == "" {
      NothingCollapses();
    } else if WordLength(s) == 0 {
      LettersOfWords(s[1..]);
      LettersCons(s[0], s[1..]);
      assert s == [s[0]] + s[1..] && "" + Letters(s[1..]) == Letters(s[1..]);
    } else {
      var w, rest := s[..WordLength(s)], s[WordLength(s)..];
      assert s == w + rest;
      LettersOfWords(rest);
      LettersOfWord(w);
      LettersConcat(w, rest);
      HyphenatedCons(LowerCase(w), Words(rest));
      LettersOfFirst(LowerCase(w), Hyphenated(Words(rest)));
      if Words(rest) == [] {
        NothingCollapses();
        LettersOfNothing();
        assert Letters(w) + "" == Letters(w);
      }
    }
  }

  lemma LettersOfNothing()
    ensures Letters("") == ""
  {
  }

  // No letter or digit of the reference is lost, changed but for its case, or moved, up to
  // where the stem is cut.
  lemma StemKeepsLetters(raw: string)
    requires exists c :: c in raw && IsLetterOrDigit(c)
    ensures Letters(Stem(raw)) <= Letters(raw)
    ensures |Hyphenated(Words(raw))| <= 40 ==> Letters(Stem(raw)) == Letters(raw)
  {
    var text := Hyphenated(Words(raw));
    StemSpellsWords(raw);
    LettersOfWords(raw);
    if |text| > 40 {
      var k := if text[39] == '-' then 39 else 40;
      assert text == text[..k] + text[k..];
      LettersConcat(text[..k], text[k..]);
    }
  }

  // ---- The loop -----------------------------------------------------------------------------

  method CanonicalID(sum: Digest, raw: string) returns (id: string)
    ensures id == Canonical(sum, raw)
    ensures id == Spelled(raw) + "-" + sum(raw)
  {
    hide Spelled, Trim, Collapse, HasDoubleDash, HalveRuns, Slugify;
    StemSpellsWords(raw);
    var suffix := sum(raw);
    var slug := Slugify(raw);
    slug := Trim(slug);
    while HasDoubleDash(slug)
      invariant Collapse(slug) == Collapse(Trim(Slugify(raw)))
      decreases |slug|
    {
      HalvingShrinks(slug);
      HalvingKeepsCollapse(slug);
      slug := HalveRuns(slug);
    }
    CollapseOfSingle(slug);
    if |slug| > MAX_SLUG {
      slug := Trim(slug[..MAX_SLUG]);
    }
    if slug == "" {
      return "sbx-" + suffix;
    }
    return slug + "-" + suffix;
  }
}
