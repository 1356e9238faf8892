// Session identifiers (internal/session/id.go) and the ids of warm-pool
// sandboxes (internal/pool/pool.go).
module Identifiers {

  // ---- Alphabets -----------------------------------------------------------

  predicate IsAlnum(c: char) { 'a' <= c <= 'z' || '0' <= c <= '9' }

  predicate IsHexDigit(c: char) { 'a' <= c <= 'f' || '0' <= c <= '9' }

  predicate IsHex(s: string) { forall i | 0 <= i < |s| :: IsHexDigit(s[i]) }

  // The first ten hex characters of the digest of a caller's reference. SHA-256
  // itself is not modelled: every result holds for any function of this type.
  type Suffix = s: string | |s| == 10 && IsHex(s) witness "0123456789"
  type Digest = string -> Suffix

  // ---- The slug pipeline ---------------------------------------------------

  function SlugChar(c: char): char {
    if IsAlnum(c) then c
    else if 'A' <= c <= 'Z' then (c as int + 32) as char
    else '-'
  }

  function Slugify(raw: string): string { seq(|raw|, i requires 0 <= i < |raw| => SlugChar(raw[i])) }

  function TrimLeft(s: string): string {
    if s != "" && s[0] == '-' then TrimLeft(s[1..]) else s
  }

  function TrimRight(s: string): string {
    if s != "" && s[|s| - 1] == '-' then TrimRight(s[..|s| - 1]) else s
  }

  function Trim(s: string): string { TrimRight(TrimLeft(s)) }

  predicate HasDoubleDash(s: string) { exists i | 0 < i < |s| :: s[i - 1] == '-' && s[i] == '-' }

  // strings.ReplaceAll(s, "--", "-"): non-overlapping, left to right.
  function HalveRuns(s: string): string {
    if |s| < 2 then s
    else if s[0] == '-' && s[1] == '-' then "-" + HalveRuns(s[2..])
    else [s[0]] + HalveRuns(s[1..])
  }

  // Reference definition: every run of dashes becomes one dash, in one pass.
  function Collapse(s: string): string {
    if |s| < 2 then s
    else if s[0] == '-' && s[1] == '-' then Collapse(s[1..])
    else [s[0]] + Collapse(s[1..])
  }

  const MAX_SLUG := 40

  function Slug(raw: string): string {
    var slug := Collapse(Trim(Slugify(raw)));
    if |slug| > MAX_SLUG then Trim(slug[..MAX_SLUG]) else slug
  }

  // An empty slug borrows the prefix of the random ids.
  function Stem(raw: string): string { if Slug(raw) == "" then "sbx" else Slug(raw) }

  function Canonical(sum: Digest, raw: string): string { Stem(raw) + "-" + sum(raw) }

  // ---- The dash loop reaches the one-pass collapse -------------------------

  lemma {:induction false} HalvingShrinks(s: string)
    ensures |HalveRuns(s)| <= |s|
    ensures HasDoubleDash(s) ==> |HalveRuns(s)| < |s|
  {
    if |s| >= 2 {
      if s[0] == '-' && s[1] == '-' {
        HalvingShrinks(s[2..]);
      } else {
        HalvingShrinks(s[1..]);
        if HasDoubleDash(s) {
          var i :| 0 < i < |s| && s[i - 1] == '-' && s[i] == '-';
          assert s[1..][i - 2] == '-' && s[1..][i - 1] == '-';
        }
      }
    }
  }

  lemma {:induction false} CollapseCons(c: char, s: string)
    ensures Collapse([c] + s) == if c == '-' && s != "" && s[0] == '-' then Collapse(s) else [c] + Collapse(s)
  {
    assert ([c] + s)[1..] == s;
  }

  lemma {:induction false} CollapseStart(s: string)
    ensures |Collapse(s)| <= |s|
    ensures s != "" ==> Collapse(s) != "" && Collapse(s)[0] == s[0]
  {
    if |s| >= 2 {
      CollapseStart(s[1..]);
    }
  }

  lemma {:induction false} HalveStart(s: string)
    ensures s != "" ==> HalveRuns(s) != "" && HalveRuns(s)[0] == s[0]
  {
  }

  lemma {:induction false} HalvingKeepsCollapse(s: string)
    ensures Collapse(HalveRuns(s)) == Collapse(s)
  {
    if |s| >= 2 {
      if s[0] == '-' && s[1] == '-' {
        var t := s[2..];
        HalvingKeepsCollapse(t);
        HalveStart(t);
        CollapseCons('-', HalveRuns(t));
        CollapseCons('-', t);
        assert s[1..] == "-" + t;
      } else {
        var t := s[1..];
        HalvingKeepsCollapse(t);
        HalveStart(t);
        CollapseCons(s[0], HalveRuns(t));
      }
    }
  }

  lemma {:induction false} CollapseOfSingle(s: string)
    requires !HasDoubleDash(s)
    ensures Collapse(s) == s
  {
    if |s| >= 2 {
      assert !(s[1 - 1] == '-' && s[1] == '-');
      assert !HasDoubleDash(s[1..]) by {
        forall i | 0 < i < |s[1..]| ensures !(s[1..][i - 1] == '-' && s[1..][i] == '-') {
          assert !(s[i + 1 - 1] == '-' && s[i + 1] == '-');
        }
      }
      CollapseOfSingle(s[1..]);
    }
  }

  // ---- Shape of a canonical id ---------------------------------------------

  // Label syntax of section 2.1 of RFC 1123 in the lower case the platform asks
  // for: letters, digits and inner hyphens. The limit of 63 octets
  // (section 2.3.4 of RFC 1035) is stated separately.
  predicate IsLabel(s: string) {
    && s != ""
    && (forall i | 0 <= i < |s| :: IsAlnum(s[i]) || s[i] == '-')
    && IsAlnum(s[0]) && IsAlnum(s[|s| - 1])
  }

  predicate SlugText(s: string) { forall i | 0 <= i < |s| :: IsAlnum(s[i]) || s[i] == '-' }

  predicate NoEdgeDash(s: string) { s != "" ==> s[0] != '-' && s[|s| - 1] != '-' }

  lemma {:induction false} TrimLeftSpec(s: string)
    ensures exists k | 0 <= k <= |s| :: TrimLeft(s) == s[k..]
    ensures TrimLeft(s) != "" ==> TrimLeft(s)[0] != '-'
  {
    if s != "" && s[0] == '-' {
      TrimLeftSpec(s[1..]);
      var k :| 0 <= k <= |s[1..]| && TrimLeft(s[1..]) == s[1..][k..];
      assert TrimLeft(s) == s[k + 1..];
    } else {
      assert s == s[0..];
    }
  }

  lemma {:induction false} TrimRightSpec(s: string)
    ensures exists k | 0 <= k <= |s| :: TrimRight(s) == s[..k]
    ensures TrimRight(s) != "" ==> TrimRight(s)[|TrimRight(s)| - 1] != '-'
  {
    if s != "" && s[|s| - 1] == '-' {
      TrimRightSpec(s[..|s| - 1]);
      var k :| 0 <= k <= |s| - 1 && TrimRight(s[..|s| - 1]) == s[..|s| - 1][..k];
      assert TrimRight(s) == s[..k];
    } else {
      assert s == s[..|s|];
    }
  }

  // Trimming returns a contiguous piece without a dash at either end.
  lemma TrimSpec(s: string)
    ensures exists j, k | 0 <= j <= k <= |s| :: Trim(s) == s[j..k]
    ensures NoEdgeDash(Trim(s))
  {
    TrimLeftSpec(s);
    var j :| 0 <= j <= |s| && TrimLeft(s) == s[j..];
    TrimRightSpec(TrimLeft(s));
    var k :| 0 <= k <= |s[j..]| && TrimRight(s[j..]) == s[j..][..k];
    assert Trim(s) == s[j..j + k];
  }

  lemma {:induction false} CollapseShape(s: string)
    requires SlugText(s)
    ensures SlugText(Collapse(s)) && !HasDoubleDash(Collapse(s)) && |Collapse(s)| <= |s|
    ensures s != "" ==> Collapse(s) != "" && Collapse(s)[0] == s[0] && Collapse(s)[|Collapse(s)| - 1] == s[|s| - 1]
  {
    if |s| >= 2 {
      CollapseShape(s[1..]);
    }
  }

  lemma SlugShape(raw: string)
    ensures SlugText(Slug(raw)) && NoEdgeDash(Slug(raw)) && !HasDoubleDash(Slug(raw)) && |Slug(raw)| <= MAX_SLUG
  {
    var text := Slugify(raw);
    assert SlugText(text);
    TrimSpec(text);
    CollapseShape(Trim(text));
    var slug := Collapse(Trim(text));
    if |slug| > MAX_SLUG {
      TrimSpec(slug[..MAX_SLUG]);
      var j, k :| 0 <= j <= k <= MAX_SLUG && Slug(raw) == slug[..MAX_SLUG][j..k];
      assert forall i | 0 <= i < |Slug(raw)| :: Slug(raw)[i] == slug[j + i];
    }
  }

  // Every canonical id is a label without double dashes, at most 51 characters
  // long, so "sbx-", "pvc-" and "ca-" keep it below the 63-octet limit.
  lemma CanonicalIsLabel(sum: Digest, raw: string)
    ensures IsLabel(Canonical(sum, raw)) && !HasDoubleDash(Canonical(sum, raw))
    ensures 12 <= |Canonical(sum, raw)| <= 51
  {
    SlugShape(raw);
    var stem, id := Stem(raw), Canonical(sum, raw);
    forall i | 0 < i < |id| ensures !(id[i - 1] == '-' && id[i] == '-') {
      if i < |stem| {
        assert id[i - 1] == stem[i - 1] && id[i] == stem[i];
      } else if i == |stem| {
        assert id[i - 1] == stem[i - 1];
      } else {
        assert id[i] == sum(raw)[i - |stem| - 1];
      }
    }
    forall i | 0 <= i < |id| ensures IsAlnum(id[i]) || id[i] == '-' {
      if i > |stem| {
        assert id[i] == sum(raw)[i - |stem| - 1];
      }
    }
    assert id[|id| - 1] == sum(raw)[9];
  }

  // Two references share an id exactly when they share the stem and the hash
  // suffix: distinctness rests on the forty bits that are kept of the digest.
  lemma CanonicalCollision(sum: Digest, a: string, b: string)
    ensures Canonical(sum, a) == Canonical(sum, b) <==> Stem(a) == Stem(b) && sum(a) == sum(b)
  {
    var x, y := Canonical(sum, a), Canonical(sum, b);
    assert x[|x| - 10..] == sum(a) && y[|y| - 10..] == sum(b);
    assert x[..|x| - 11] == Stem(a) && y[..|y| - 11] == Stem(b);
  }

  // ---- Collisions exist ------------------------------------------------------

  function HexValue(c: char): (v: nat)
    requires IsHexDigit(c)
    ensures v < 16
  {
    if '0' <= c <= '9' then (c - '0') as nat else (c - 'a') as nat + 10
  }

  function Code(s: string): nat
    requires IsHex(s)
    decreases |s|
  {
    if s == "" then 0 else 16 * Code(s[..|s| - 1]) + HexValue(s[|s| - 1])
  }

  function Codes(length: nat): (n: nat)
    ensures n > 0
  { if length == 0 then 1 else 16 * Codes(length - 1) }

  lemma {:induction false} CodeIsBounded(s: string)
    requires IsHex(s)
    ensures Code(s) < Codes(|s|)
    decreases |s|
  {
    if s != "" { CodeIsBounded(s[..|s| - 1]); }
  }

  lemma {:induction false} CodeIsInjective(a: string, b: string)
    requires IsHex(a) && IsHex(b) && |a| == |b| && Code(a) == Code(b)
    ensures a == b
    decreases |a|
  {
    if a != "" {
      var x, y := a[..|a| - 1], b[..|b| - 1];
      assert HexValue(a[|a| - 1]) == HexValue(b[|b| - 1]) && Code(x) == Code(y);
      CodeIsInjective(x, y);
      assert a == x + [a[|a| - 1]] && b == y + [b[|b| - 1]];
    }
  }

  function Image(f: nat -> nat, n: nat): set<nat> { if n == 0 then {} else Image(f, n - 1) + {f(n - 1)} }

  lemma {:induction false} ImageOf(f: nat -> nat, n: nat)
    ensures forall v: nat | v in Image(f, n) :: exists i: nat :: i < n && f(i) == v
  {
    if n > 0 { ImageOf(f, n - 1); }
  }

  // Without a repetition the image grows with every argument.
  lemma {:induction false} ImageGrows(f: nat -> nat, n: nat)
    requires forall i: nat, j: nat | i < j < n :: f(i) != f(j)
    ensures |Image(f, n)| == n
  {
    if n > 0 {
      ImageGrows(f, n - 1);
      ImageOf(f, n - 1);
    }
  }

  function Below(n: nat): (s: set<nat>)
    ensures |s| == n && forall v: nat :: v in s <==> v < n
  {
    if n == 0 then {} else Below(n - 1) + {n - 1}
  }

  lemma SubsetIsSmaller<T>(a: set<T>, b: set<T>)
    requires a <= b
    ensures |a| <= |b|
  {
    assert b == a + (b - a);
  }

  lemma Pigeonhole(f: nat -> nat, n: nat) returns (i: nat, j: nat)
    requires forall k: nat :: f(k) < n
    ensures i < j <= n && f(i) == f(j)
  {
    if forall x: nat, y: nat | x < y < n + 1 :: f(x) != f(y) {
      ImageGrows(f, n + 1);
      ImageOf(f, n + 1);
      SubsetIsSmaller(Image(f, n + 1), Below(n));
      assert false;
    }
    i, j :| i < j < n + 1 && f(i) == f(j);
  }

  function Dashes(n: nat): (s: string)
    ensures |s| == n
  { seq(n, _ => '-') }

  lemma {:induction false} DashesTrimToNothing(n: nat)
    ensures TrimLeft(Dashes(n)) == ""
  {
    if n > 0 {
      assert Dashes(n)[1..] == Dashes(n - 1);
      DashesTrimToNothing(n - 1);
    }
  }

  lemma DashesHaveNoSlug(n: nat)
    ensures Stem(Dashes(n)) == "sbx"
  {
    assert Slugify(Dashes(n)) == Dashes(n);
    DashesTrimToNothing(n);
  }

  // The binary digits of a number, written in dashes and underscores.
  function Marks(n: nat, length: nat): (s: string)
    ensures |s| == length && forall c | c in s :: c in "-_"
  {
    if length == 0 then "" else Marks(n / 2, length - 1) + [if n % 2 == 0 then '-' else '_']
  }

  function Power(n: nat): (p: nat)
    ensures p > 0
  { if n == 0 then 1 else 2 * Power(n - 1) }

  lemma {:induction false} MarksAreInjective(a: nat, b: nat, length: nat)
    requires a < Power(length) && b < Power(length) && Marks(a, length) == Marks(b, length)
    ensures a == b
  {
    if length > 0 {
      var x, y := Marks(a, length), Marks(b, length);
      assert x[..length - 1] == Marks(a / 2, length - 1) && y[..length - 1] == Marks(b / 2, length - 1);
      assert x[length - 1] == y[length - 1];
      MarksAreInjective(a / 2, b / 2, length - 1);
    }
  }

  lemma {:induction false} HexDigitIsFourBits(n: nat)
    ensures Power(4 * n) == Codes(n)
  {
    if n > 0 {
      HexDigitIsFourBits(n - 1);
      assert Power(4 * n) == 2 * Power(4 * n - 1) && Power(4 * n - 1) == 2 * Power(4 * n - 2);
      assert Power(4 * n - 2) == 2 * Power(4 * n - 3) && Power(4 * n - 3) == 2 * Power(4 * (n - 1));
    }
  }

  lemma MarksHaveNoSlug(s: string)
    requires forall c | c in s :: c in "-_"
    ensures Stem(s) == "sbx"
  {
    forall i | 0 <= i < |s| ensures SlugChar(s[i]) == '-' { assert s[i] in s; }
    assert Slugify(s) == Dashes(|s|);
    DashesHaveNoSlug(|s|);
    assert Slugify(Dashes(|s|)) == Dashes(|s|);
  }

  // Whatever the hash, some two references of 41 dashes and underscores share an id: they
  // have no slug, there are 2^41 of them, and ten hex characters tell 2^40 apart.
  lemma CanonicalIdsCollide(sum: Digest) returns (a: string, b: string)
    ensures a != b && Canonical(sum, a) == Canonical(sum, b)
    ensures |a| == |b| == 41 && (forall c | c in a :: c in "-_") && forall c | c in b :: c in "-_"
  {
    var f := (n: nat) => Code(sum(Marks(n, 41)));
    forall n: nat ensures f(n) < Codes(10) { CodeIsBounded(sum(Marks(n, 41))); }
    var i, j := Pigeonhole(f, Codes(10));
    a, b := Marks(i, 41), Marks(j, 41);
    CodeIsInjective(sum(a), sum(b));
    HexDigitIsFourBits(10);
    assert Power(41) == 2 * Power(40);
    if a == b { MarksAreInjective(i, j, 41); }
    MarksHaveNoSlug(a);
    MarksHaveNoSlug(b);
  }

  // ---- Three id namespaces --------------------------------------------------

  // The part of an id after its last dash.
  function LastPart(s: string): string {
    if s == "" || s[|s| - 1] == '-' then "" else LastPart(s[..|s| - 1]) + [s[|s| - 1]]
  }

  lemma {:induction false} LastPartOf(head: string, tail: string)
    requires '-' !in tail
    ensures LastPart(head + "-" + tail) == tail
  {
    var s := head + "-" + tail;
    if tail != "" {
      var init := tail[..|tail| - 1];
      assert s[..|s| - 1] == head + "-" + init;
      assert forall c | c in init :: c in tail;
      assert tail[|tail| - 1] in tail;
      LastPartOf(head, init);
    }
  }

  // "sbx-" and the first eight characters of a UUID.
  predicate IsRandomId(s: string) { |s| == 12 && s[..4] == "sbx-" && IsHex(s[4..]) }

  // "pool-" and a UUID in the 8-4-4-4-12 form of section 4 of RFC 9562.
  predicate IsWarmId(s: string) {
    && |s| == 41 && s[..5] == "pool-"
    && s[13] == '-' && s[18] == '-' && s[23] == '-' && s[28] == '-'
    && IsHex(s[5..13]) && IsHex(s[14..18]) && IsHex(s[19..23]) && IsHex(s[24..28]) && IsHex(s[29..])
  }

  // What separates the namespaces, and all the lifecycle proofs need of an id.
  predicate IsSessionLabel(s: string) { |LastPart(s)| == 10 || |LastPart(s)| == 8 }

  predicate IsPoolLabel(s: string) { |LastPart(s)| == 12 }

  lemma SessionIsNotPool(id: string)
    requires IsSessionLabel(id)
    ensures !IsPoolLabel(id)
  {
  }

  lemma PoolIsNotSession(id: string)
    requires IsPoolLabel(id)
    ensures !IsSessionLabel(id)
  {
  }

  lemma HexHasNoDash(s: string)
    requires IsHex(s)
    ensures '-' !in s
  {
  }

  lemma CanonicalNamespace(sum: Digest, raw: string)
    ensures LastPart(Canonical(sum, raw)) == sum(raw)
    ensures IsSessionLabel(Canonical(sum, raw)) && Canonical(sum, raw) != ""
  {
    HexHasNoDash(sum(raw));
    LastPartOf(Stem(raw), sum(raw));
  }

  lemma RandomNamespace(s: string)
    requires IsRandomId(s)
    ensures |LastPart(s)| == 8 && IsSessionLabel(s) && s != ""
  {
    assert s == "sbx" + "-" + s[4..];
    HexHasNoDash(s[4..]);
    LastPartOf("sbx", s[4..]);
  }

  lemma WarmNamespace(s: string)
    requires IsWarmId(s)
    ensures IsPoolLabel(s) && s != ""
  {
    assert s == s[..28] + "-" + s[29..];
    HexHasNoDash(s[29..]);
    LastPartOf(s[..28], s[29..]);
  }

  // A canonical id is never a random id nor a warm-pool id, and the latter two
  // never meet: the sweep may therefore tell them apart by name alone.
  lemma NamespacesDisjoint(sum: Digest, raw: string, random: string, warm: string)
    requires IsRandomId(random) && IsWarmId(warm)
    ensures Canonical(sum, raw) != random && Canonical(sum, raw) != warm && random != warm
  {
    CanonicalNamespace(sum, raw);
    RandomNamespace(random);
    WarmNamespace(warm);
  }
}
