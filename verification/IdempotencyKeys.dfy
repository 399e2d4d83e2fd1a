/** The names under which the service keeps its Redis entries.
    Strings are sequences of UTF-16 code units, as the service's runtime has them. */
module IdempotencyKeys {
  import opened Basics

  type CodeUnit = n: int | 0 <= n < 0x1_0000
  type Text = seq<CodeUnit>

  /** A claim identifier and a Redis key, kept apart from arbitrary text. */
  datatype ClaimId = ClaimId(text: Text)
  datatype Key = Key(text: Text)

  const MAX_PART: nat := 128
  const COLON: CodeUnit := 0x3A
  const UNDERSCORE: CodeUnit := 0x5F

  function CodeOf(c: char): CodeUnit
    requires c as int < 0x80
  {
    c as int
  }

  /** ASCII literals of the source as code units. */
  function Ascii(s: string): (t: Text)
    requires forall c | c in s :: c as int < 0x80
    ensures |t| == |s|
    ensures forall n | 0 <= n < |s| :: t[n] == s[n] as int
  {
    seq(|s|, n requires 0 <= n < |s| => assert s[n] in s; CodeOf(s[n]))
  }

  /** The characters `String.prototype.trim` removes. */
  predicate IsBlank(c: CodeUnit) {
    || 0x09 <= c <= 0x0D
    || c in {0x20, 0xA0, 0x1680, 0x2028, 0x2029, 0x202F, 0x205F, 0x3000, 0xFEFF}
    || 0x2000 <= c <= 0x200A
  }

  function TrimStart(t: Text): Text {
    if t != [] && IsBlank(t[0]) then TrimStart(t[1..]) else t
  }

  function TrimEnd(t: Text): Text {
    if t != [] && IsBlank(t[|t| - 1]) then TrimEnd(t[..|t| - 1]) else t
  }

  function Trim(t: Text): Text {
    TrimEnd(TrimStart(t))
  }

  /** The class `[a-zA-Z0-9._:-]`. */
  predicate IsSafe(c: CodeUnit) {
    || 0x61 <= c <= 0x7A
    || 0x41 <= c <= 0x5A
    || 0x30 <= c <= 0x39
    || c in {0x2E, UNDERSCORE, COLON, 0x2D}
  }

  predicate AllSafe(t: Text) {
    forall n | 0 <= n < |t| :: IsSafe(t[n])
  }

  function Cut(t: Text): Text {
    if |t| <= MAX_PART then t else t[..MAX_PART]
  }

  /** Replace what is not safe, then keep the first 128 units. */
  function Sanitize(raw: Text): Text {
    Cut(seq(|raw|, n requires 0 <= n < |raw| => if IsSafe(raw[n]) then raw[n] else UNDERSCORE))
  }

  predicate IsHexDigit(c: CodeUnit) {
    0x30 <= c <= 0x39 || 0x61 <= c <= 0x66
  }

  /** What a SHA-256 digest in hexadecimal looks like; the digest itself is a parameter. */
  predicate IsFingerprint(t: Text) {
    |t| == 64 && forall n | 0 <= n < |t| :: IsHexDigit(t[n])
  }

  /** The caller's trimmed header, or the request's fingerprint when that is missing or blank. */
  function RawPart(header: Option<Text>, fingerprint: Text): Text {
    if header.Some? && Trim(header.value) != [] then Trim(header.value) else fingerprint
  }

  function Part(header: Option<Text>, fingerprint: Text): Text {
    Sanitize(RawPart(header, fingerprint))
  }

  const IDEMPOTENCY := "claims:idempotency:"

  function KeyFor(identity: Text, part: Text): Key {
    Key(Ascii(IDEMPOTENCY) + identity + [COLON] + part)
  }

  function BuildKey(identity: Text, header: Option<Text>, fingerprint: Text): Key {
    KeyFor(identity, Part(header, fingerprint))
  }

  /** The parts of a key, read off at their places. */
  lemma KeyIsReadable(identity: Text, part: Text)
    ensures var text, n := KeyFor(identity, part).text, |identity|;
            && |text| == 20 + n + |part| && text[..19] == Ascii("claims:idempotency:")
            && text[19..19 + n] == identity && text[19 + n] == ':' as int && text[20 + n..] == part
  {
  }

  predicate ColonFree(t: Text) {
    COLON !in t
  }

  /** Sanitizing bounds the length, leaves only safe characters and does nothing twice. */
  lemma SanitizeIsIdempotent(raw: Text)
    ensures |Sanitize(raw)| <= MAX_PART && |Sanitize(raw)| <= |raw|
    ensures AllSafe(Sanitize(raw))
    ensures Sanitize(Sanitize(raw)) == Sanitize(raw)
    ensures |raw| <= MAX_PART && AllSafe(raw) <==> Sanitize(raw) == raw
  {
    var once := Sanitize(raw);
    assert forall n | 0 <= n < |once| :: once[n] == if IsSafe(raw[n]) then raw[n] else UNDERSCORE;
    assert AllSafe(once);
    if |raw| <= MAX_PART && AllSafe(raw) {
      assert Sanitize(raw) == raw;
    }
    assert Sanitize(once) == once;
  }

  /** Letters, digits and four punctuation marks, as characters. */
  predicate Plain(c: CodeUnit) {
    || 'a' as int <= c <= 'z' as int
    || 'A' as int <= c <= 'Z' as int
    || '0' as int <= c <= '9' as int
    || c in {'.' as int, '_' as int, ':' as int, '-' as int}
  }

  /** What a code unit of a header is turned into. */
  function Shown(c: CodeUnit): CodeUnit {
    if Plain(c) then c else '_' as int
  }

  /** Sanitizing keeps every place: the first 128 code units stay where they are, the plain ones as
      they are, each of the others as an underscore. */
  lemma SanitizeKeepsPlaces(raw: Text)
    ensures |Sanitize(raw)| == if |raw| <= 128 then |raw| else 128
    ensures forall n | 0 <= n < |Sanitize(raw)| :: Sanitize(raw)[n] == Shown(raw[n])
  {
    var all := seq(|raw|, n requires 0 <= n < |raw| => if IsSafe(raw[n]) then raw[n] else UNDERSCORE);
    assert forall n | 0 <= n < |all| :: all[n] == Shown(raw[n]);
  }

  /** The white space and line ends of ECMAScript, one by one. */
  const BLANKS: set<int> :=
    {0x09, 0x0A, 0x0B, 0x0C, 0x0D, 0x20, 0xA0, 0x1680,
     0x2000, 0x2001, 0x2002, 0x2003, 0x2004, 0x2005, 0x2006, 0x2007, 0x2008, 0x2009, 0x200A,
     0x2028, 0x2029, 0x202F, 0x205F, 0x3000, 0xFEFF}

  predicate AllBlank(t: Text) {
    forall n | 0 <= n < |t| :: t[n] in BLANKS
  }

  /** The header is this text with blanks around it, and the text neither begins nor ends with one. */
  predicate Wraps(header: Text, lead: Text, core: Text, trail: Text) {
    && header == lead + core + trail && AllBlank(lead) && AllBlank(trail)
    && (core != [] ==> core[0] !in BLANKS && core[|core| - 1] !in BLANKS)
  }

  lemma BlankExactly(c: CodeUnit)
    ensures IsBlank(c) <==> c in BLANKS
  {
  }

  lemma {:induction false} TrimStartDrops(lead: Text, rest: Text)
    requires AllBlank(lead) && (rest != [] ==> rest[0] !in BLANKS)
    ensures TrimStart(lead + rest) == rest
  {
    if lead == [] {
      assert lead + rest == rest;
      if rest != [] {
        BlankExactly(rest[0]);
      }
    } else {
      BlankExactly(lead[0]);
      assert (lead + rest)[1..] == lead[1..] + rest;
      TrimStartDrops(lead[1..], rest);
    }
  }

  lemma {:induction false} TrimEndDrops(core: Text, trail: Text)
    requires AllBlank(trail) && (core != [] ==> core[|core| - 1] !in BLANKS)
    ensures TrimEnd(core + trail) == core
  {
    if trail == [] {
      assert core + trail == core;
      if core != [] {
        BlankExactly(core[|core| - 1]);
      }
    } else {
      BlankExactly(trail[|trail| - 1]);
      assert (core + trail)[..|core + trail| - 1] == core + trail[..|trail| - 1];
      TrimEndDrops(core, trail[..|trail| - 1]);
    }
  }

  /** Trimming takes the blanks away, and nothing else. */
  lemma TrimUnwraps(header: Text, lead: Text, core: Text, trail: Text)
    requires Wraps(header, lead, core, trail)
    ensures Trim(header) == core
  {
    if core == [] {
      TrimStartDrops(lead + trail, []);
      assert header == (lead + trail) + [];
    } else {
      assert header == lead + (core + trail);
      TrimStartDrops(lead, core + trail);
      TrimEndDrops(core, trail);
    }
  }

  /** Every header is a text with blanks around it. */
  lemma {:induction false} EveryHeaderWraps(header: Text) returns (lead: Text, core: Text, trail: Text)
    ensures Wraps(header, lead, core, trail)
  {
    lead, core, trail := [], header, [];
    if header != [] && header[0] in BLANKS {
      lead, core, trail := EveryHeaderWraps(header[1..]);
      lead := [header[0]] + lead;
    } else if header != [] && header[|header| - 1] in BLANKS {
      lead, core, trail := EveryHeaderWraps(header[..|header| - 1]);
      trail := trail + [header[|header| - 1]];
    }
  }

  /** The two texts show the same in a key: in their first 128 places. */
  predicate ShowAlike(a: Text, b: Text) {
    && (|a| == |b| || (|a| >= 128 && |b| >= 128))
    && forall n | 0 <= n < |a| && n < |b| && n < 128 :: Shown(a[n]) == Shown(b[n])
  }

  lemma SanitizedAlike(a: Text, b: Text)
    ensures Sanitize(a) == Sanitize(b) <==> ShowAlike(a, b)
  {
    SanitizeKeepsPlaces(a);
    SanitizeKeepsPlaces(b);
    var x, y := Sanitize(a), Sanitize(b);
    if x == y {
      forall n | 0 <= n < |a| && n < |b| && n < 128 ensures Shown(a[n]) == Shown(b[n]) {
        assert x[n] == y[n];
      }
    }
  }

  /** Two requests of one identity with headers that are not blank get the same key if and only if the
      headers, without the blanks around them, show alike. */
  lemma HeadersAgreeExactly(identity: Text, h: Text, core: Text, f: Text, k: Text, kore: Text, g: Text)
    requires exists lead, trail :: Wraps(h, lead, core, trail)
    requires exists lead, trail :: Wraps(k, lead, kore, trail)
    requires core != [] && kore != []
    ensures BuildKey(identity, Some(h), f) == BuildKey(identity, Some(k), g) <==> ShowAlike(core, kore)
  {
    var lead, trail :| Wraps(h, lead, core, trail);
    TrimUnwraps(h, lead, core, trail);
    var start, end :| Wraps(k, start, kore, end);
    TrimUnwraps(k, start, kore, end);
    SanitizedAlike(core, kore);
    var p, q := Part(Some(h), f), Part(Some(k), g);
    KeyText(identity, p, identity, q);
    var a := identity + [COLON];
    assert (a + p)[|a|..] == p && (a + q)[|a|..] == q;
  }

  /** A fingerprint passes through unchanged, and is what a missing or blank header falls back to. */
  lemma FingerprintIsKept(header: Option<Text>, fingerprint: Text)
    requires IsFingerprint(fingerprint)
    ensures Sanitize(fingerprint) == fingerprint
    ensures (header.None? || forall n | 0 <= n < |header.value| :: IsBlank(header.value[n]))
            ==> Part(header, fingerprint) == fingerprint
    ensures Part(header, fingerprint) != []
  {
    assert AllSafe(fingerprint);
    SanitizeIsIdempotent(fingerprint);
    if header.Some? && forall n | 0 <= n < |header.value| :: IsBlank(header.value[n]) {
      BlankTrimsAway(header.value);
    }
    assert RawPart(header, fingerprint) != [];
  }

  lemma {:induction false} BlankTrimsAway(t: Text)
    requires forall n | 0 <= n < |t| :: IsBlank(t[n])
    ensures TrimStart(t) == []
  {
    if t != [] {
      BlankTrimsAway(t[1..]);
    }
  }

  /** Everything after the fixed prefix can be read off a key. */
  lemma KeyText(i: Text, p: Text, j: Text, q: Text)
    ensures KeyFor(i, p) == KeyFor(j, q) <==> i + [COLON] + p == j + [COLON] + q
  {
    var prefix := Ascii(IDEMPOTENCY);
    var a, b := i + [COLON] + p, j + [COLON] + q;
    assert KeyFor(i, p).text == prefix + a;
    assert KeyFor(j, q).text == prefix + b;
    assert (prefix + a)[|prefix|..] == a;
    assert (prefix + b)[|prefix|..] == b;
  }

  lemma ShorterIdentityDiffers(i: Text, p: Text, j: Text, q: Text)
    requires |i| < |j| && ColonFree(j)
    ensures i + [COLON] + p != j + [COLON] + q
  {
    assert (i + [COLON] + p)[|i|] == COLON;
    assert (j + [COLON] + q)[|i|] == j[|i|];
  }

  /** Colon-free identities: two requests share a key exactly when both identity and part agree. */
  lemma KeyIsolation(i: Text, p: Text, j: Text, q: Text)
    requires ColonFree(i) && ColonFree(j)
    ensures KeyFor(i, p) == KeyFor(j, q) <==> i == j && p == q
  {
    KeyText(i, p, j, q);
    var a, b := i + [COLON] + p, j + [COLON] + q;
    if |i| < |j| {
      ShorterIdentityDiffers(i, p, j, q);
    } else if |j| < |i| {
      ShorterIdentityDiffers(j, q, i, p);
    } else if a == b {
      assert i == a[..|i|] == b[..|j|] == j;
      assert p == a[|i| + 1..] == b[|j| + 1..] == q;
    }
  }

  /** A part some request can produce. */
  predicate IsPart(p: Text) {
    p != [] && |p| <= MAX_PART && AllSafe(p)
  }

  lemma PartsAreParts(header: Option<Text>, fingerprint: Text)
    requires IsFingerprint(fingerprint)
    ensures IsPart(Part(header, fingerprint))
  {
    FingerprintIsKept(header, fingerprint);
    SanitizeIsIdempotent(RawPart(header, fingerprint));
  }

  /** One identity continues the other after a colon, in characters a part may hold. */
  predicate Extends(long: Text, short: Text) {
    && |short| < |long| <= |short| + MAX_PART - 1
    && long[..|short|] == short
    && long[|short|] == COLON
    && AllSafe(long[|short|..])
  }

  /** Every part can be asked for: as a header it passes through unchanged. */
  lemma PartPassesThrough(p: Text, fingerprint: Text)
    requires IsPart(p)
    ensures Part(Some(p), fingerprint) == p
  {
    assert IsSafe(p[0]) && IsSafe(p[|p| - 1]);
    SanitizeIsIdempotent(p);
  }

  /** Exactly when two different identities can collide, whatever they submit: when there are
      headers for which they get the same key. */
  lemma CollisionExactlyWhenExtended(i: Text, f: Text, j: Text, g: Text)
    requires i != j && IsFingerprint(f) && IsFingerprint(g)
    ensures (exists m, n :: BuildKey(i, m, f) == BuildKey(j, n, g)) <==> Extends(i, j) || Extends(j, i)
  {
    if m, n :| BuildKey(i, m, f) == BuildKey(j, n, g) {
      PartsAreParts(m, f);
      PartsAreParts(n, g);
      if |i| <= |j| {
        CollisionExtends(i, Part(m, f), j, Part(n, g));
      } else {
        CollisionExtends(j, Part(n, g), i, Part(m, f));
      }
    }
    if Extends(j, i) {
      var p, q := ExtensionCollides(i, j);
      HeadersCollide(i, p, f, j, q, g);
    }
    if Extends(i, j) {
      var q, p := ExtensionCollides(j, i);
      HeadersCollide(i, p, f, j, q, g);
    }
  }

  lemma HeadersCollide(i: Text, p: Text, f: Text, j: Text, q: Text, g: Text)
    requires IsPart(p) && IsPart(q) && KeyFor(i, p) == KeyFor(j, q)
    ensures exists m, n :: BuildKey(i, m, f) == BuildKey(j, n, g)
  {
    PartPassesThrough(p, f);
    PartPassesThrough(q, g);
    assert BuildKey(i, Some(p), f) == BuildKey(j, Some(q), g);
  }

  lemma CollisionExtends(i: Text, p: Text, j: Text, q: Text)
    requires i != j && |i| <= |j| && IsPart(p) && IsPart(q) && KeyFor(i, p) == KeyFor(j, q)
    ensures Extends(j, i)
  {
    KeyText(i, p, j, q);
    var a, b := i + [COLON] + p, j + [COLON] + q;
    assert a == b;
    assert i == a[..|i|] == b[..|i|] == j[..|i|];
    assert j[..|j|] == j;
    assert |i| < |j|;
    assert a[|i|] == COLON && b[|i|] == j[|i|];
    assert |p| == |j| - |i| + |q|;
    forall n | |i| < n < |j| ensures IsSafe(j[n]) {
      assert j[n] == b[n] == a[n] == p[n - |i| - 1];
    }
  }

  lemma ExtensionCollides(i: Text, j: Text) returns (p: Text, q: Text)
    requires Extends(j, i)
    ensures IsPart(p) && IsPart(q) && KeyFor(i, p) == KeyFor(j, q)
  {
    q := [UNDERSCORE];
    p := j[|i| + 1..] + [COLON] + q;
    forall n | 0 <= n < |j| - |i| - 1 ensures IsSafe(p[n]) {
      assert p[n] == j[|i|..][n + 1];
    }
    assert i + [COLON] + p == j + [COLON] + q;
    KeyText(i, p, j, q);
  }

  /** The service's prefixes, and the fixed names of its queue, dead-letter queue and retry hash. */
  const NAME_SPACES: seq<string> :=
    [IDEMPOTENCY, "claims:pending:", "claims:payload:", "claims:rate:create:",
     "claims:queue", "claims:dlq", "claims:retry"]

  predicate IsAscii(s: string) {
    forall n | 0 <= n < |s| :: s[n] as int < 0x80
  }

  /** The first two letters after `claims:` tell all of them apart. */
  lemma LettersDiffer(p: string, q: string, a: Text, b: Text)
    requires IsAscii(p) && IsAscii(q) && |p| > 8 && |q| > 8 && (p[7] != q[7] || p[8] != q[8])
    ensures Ascii(p) + a != Ascii(q) + b
  {
    var s, t := Ascii(p) + a, Ascii(q) + b;
    assert s[7] == p[7] as int && s[8] == p[8] as int && t[7] == q[7] as int && t[8] == q[8] as int;
  }

  /** Keys of different name spaces never coincide, whatever follows the prefix or the name. */
  lemma NameSpacesAreDisjoint(m: nat, n: nat, a: Text, b: Text)
    requires m < n < |NAME_SPACES|
    ensures IsAscii(NAME_SPACES[m]) && IsAscii(NAME_SPACES[n])
    ensures Ascii(NAME_SPACES[m]) + a != Ascii(NAME_SPACES[n]) + b
  {
    LettersDiffer(NAME_SPACES[m], NAME_SPACES[n], a, b);
  }
}
