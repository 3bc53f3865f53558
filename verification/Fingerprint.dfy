/**
What a request's fingerprint identifies: the canonical JSON text that is hashed, for exactly what
the client sent. The hash itself is not part of this model.
*/
module Fingerprint {
  import opened Wrappers
  import opened Json

  // ---------------------------------------------------------------- UUIDs

  function Pow16(k: nat): nat {
    if k == 0 then 1 else 16 * Pow16(k - 1)
  }

  /** k lower-case hexadecimal digits. */
  function Hex(n: nat, k: nat): (s: string)
    ensures |s| == k
  {
    if k == 0 then "" else Hex(n / 16, k - 1) + [HexDigit(n % 16)]
  }

  function FromHex(s: string): Option<nat> {
    if s == "" then Some(0) else
      var high, low := FromHex(s[..|s| - 1]), HexValue(s[|s| - 1]);
      if high.None? || low.None? then None else Some(16 * high.value + low.value)
  }

  lemma {:induction false} HexReads(n: nat, k: nat)
    requires n < Pow16(k)
    ensures FromHex(Hex(n, k)) == Some(n)
  {
    if k > 0 {
      HexReads(n / 16, k - 1);
      HexDigitValue(n % 16);
      assert Hex(n, k)[..k - 1] == Hex(n / 16, k - 1);
    }
  }

  /** s.replace(pattern, ""). */
  function Without(s: string, pattern: string): (r: string)
    requires pattern != ""
    ensures |r| <= |s|
  {
    if |s| < |pattern| then s
    else if s[..|pattern|] == pattern then Without(s[|pattern|..], pattern)
    else [s[0]] + Without(s[1..], pattern)
  }

  function NoHyphens(s: string): string {
    if s == "" then "" else if s[0] == '-' then NoHyphens(s[1..]) else [s[0]] + NoHyphens(s[1..])
  }

  /** s.strip("{}"). */
  function Stripped(s: string): string {
    if s == "" then ""
    else if s[0] == '{' || s[0] == '}' then Stripped(s[1..])
    else if s[|s| - 1] == '{' || s[|s| - 1] == '}' then Stripped(s[..|s| - 1])
    else s
  }

  /** uuid.UUID(text), as the 128-bit number it denotes. */
  function ParseUuid(s: string): Option<nat> {
    var digits := NoHyphens(Stripped(Without(Without(s, "urn:"), "uuid:")));
    if |digits| != 32 then None else FromHex(digits)
  }

  function Grouped(a: string, b: string, c: string, d: string, e: string): string {
    a + "-" + b + "-" + c + "-" + d + "-" + e
  }

  /** str(uuid). */
  function UuidText(n: nat): string {
    var h := Hex(n, 32);
    Grouped(h[..8], h[8..12], h[12..16], h[16..20], h[20..])
  }

  predicate IsHexString(s: string) {
    forall i | 0 <= i < |s| :: HexValue(s[i]).Some?
  }

  predicate IsPlain(s: string) {
    forall i | 0 <= i < |s| :: s[i] == '-' || HexValue(s[i]).Some?
  }

  predicate IsBraces(s: string) {
    forall i | 0 <= i < |s| :: s[i] == '{' || s[i] == '}'
  }

  /** No colon, nothing to remove. */
  lemma {:induction false} NothingToRemove(s: string, pattern: string)
    requires pattern != "" && exists i :: 0 <= i < |pattern| && pattern[i] == ':'
    requires ':' !in s
    ensures Without(s, pattern) == s
  {
    if |s| >= |pattern| {
      var i :| 0 <= i < |pattern| && pattern[i] == ':';
      assert s[i] in s;
      assert s[..|pattern|][i] == s[i];
      NothingToRemove(s[1..], pattern);
      assert s == [s[0]] + s[1..];
    }
  }

  lemma NoPrefixes(s: string)
    requires ':' !in s
    ensures Without(s, "urn:") == s && Without(s, "uuid:") == s
  {
    assert "urn:"[3] == ':' && "uuid:"[4] == ':';
    NothingToRemove(s, "urn:");
    NothingToRemove(s, "uuid:");
  }

  /** A character no occurrence can start with stays. */
  lemma KeepsFirst(c: char, t: string, pattern: string)
    requires pattern != "" && (c != pattern[0] || (|pattern| >= 2 && t != "" && t[0] != pattern[1]))
    ensures Without([c] + t, pattern) == [c] + Without(t, pattern)
  {
    Cons(c, t);
    if |t| + 1 >= |pattern| {
      assert ([c] + t)[..|pattern|][0] == c;
      assert |pattern| >= 2 ==> ([c] + t)[..|pattern|][1] == t[0];
    }
  }

  lemma FirstApart(a: string, t: string)
    requires a != ""
    ensures a + t == [a[0]] + (a[1..] + t)
  {
  }

  lemma {:induction false} KeepsBraces(a: string, t: string, pattern: string)
    requires IsBraces(a) && pattern != "" && pattern[0] == 'u'
    ensures Without(a + t, pattern) == a + Without(t, pattern)
  {
    if a == "" {
      assert a + t == t;
    } else {
      KeepsBraces(a[1..], t, pattern);
      KeepsFirst(a[0], a[1..] + t, pattern);
      FirstApart(a, t);
      FirstApart(a, Without(t, pattern));
    }
  }

  lemma UuidSpelled(s: string)
    ensures "uuid:" + s == ['u'] + (['u'] + (['i'] + (['d'] + ([':'] + s))))
  {
  }

  /** "uuid:" holds no pattern that starts with u and goes on with neither u nor i, such as "urn:". */
  lemma UuidPrefixStays(s: string, pattern: string)
    requires |pattern| >= 2 && pattern[0] == 'u' && pattern[1] != 'u' && pattern[1] != 'i'
    requires Without(s, pattern) == s
    ensures Without("uuid:" + s, pattern) == "uuid:" + s
  {
    var d := ['d'] + ([':'] + s);
    KeepsFirst(':', s, pattern);
    KeepsFirst('d', [':'] + s, pattern);
    KeepsFirst('i', d, pattern);
    KeepsFirst('u', ['i'] + d, pattern);
    KeepsFirst('u', ['u'] + (['i'] + d), pattern);
    UuidSpelled(s);
  }

  /** The prefixes uuid.UUID accepts. */
  predicate IsPrefix(p: string) {
    p == "" || p == "urn:" || p == "uuid:" || p == "urn:uuid:"
  }

  lemma RemovedAtFront(pattern: string, t: string)
    requires pattern != ""
    ensures Without(pattern + t, pattern) == Without(t, pattern)
  {
    assert (pattern + t)[..|pattern|] == pattern && (pattern + t)[|pattern|..] == t;
  }

  lemma PrefixRemoved(p: string, s: string)
    requires IsPrefix(p) && ':' !in s
    ensures Without(Without(p + s, "urn:"), "uuid:") == s
  {
    NoPrefixes(s);
    UuidPrefixStays(s, "urn:");
    RemovedAtFront("urn:", s);
    RemovedAtFront("uuid:", s);
    RemovedAtFront("urn:", "uuid:" + s);
    if p == "" {
      assert p + s == s;
    } else if p == "urn:uuid:" {
      assert p + s == "urn:" + ("uuid:" + s);
    }
  }

  /** ... also behind braces. */
  lemma BracedPrefixRemoved(a: string, p: string, s: string)
    requires IsBraces(a) && IsPrefix(p) && ':' !in s
    ensures Without(Without(a + (p + s), "urn:"), "uuid:") == a + s
  {
    PrefixRemoved(p, s);
    KeepsBraces(a, p + s, "urn:");
    KeepsBraces(a, Without(p + s, "urn:"), "uuid:");
  }

  lemma {:induction false} BracesStrip(a: string, s: string, c: string)
    requires IsBraces(a) && IsBraces(c) && IsPlain(s)
    ensures Stripped(a + s + c) == s
    decreases |a| + |c|
  {
    var t := a + s + c;
    if a != "" {
      BracesStrip(a[1..], s, c);
      assert t[1..] == a[1..] + s + c;
    } else if c != "" {
      BracesStrip(a, s, c[..|c| - 1]);
      assert t[..|t| - 1] == a + s + c[..|c| - 1];
      if s == "" {
        BracesStrip(a, s, c[1..]);
        assert t[1..] == a + s + c[1..];
      }
    } else {
      assert t == s;
    }
  }

  lemma PlainHasNoColon(s: string)
    requires IsPlain(s) || IsBraces(s)
    ensures ':' !in s
  {
  }

  /** The 32 digits that decide: nothing else of a spelling matters. */
  lemma SpellingParses(a: string, p: string, b: string, s: string, c: string)
    requires IsBraces(a) && IsPrefix(p) && IsBraces(b) && IsPlain(s) && IsBraces(c)
    ensures ParseUuid(a + (p + (b + s + c))) == if |NoHyphens(s)| != 32 then None else FromHex(NoHyphens(s))
  {
    PlainHasNoColon(s);
    PlainHasNoColon(b);
    PlainHasNoColon(c);
    BracedPrefixRemoved(a, p, b + s + c);
    BracesStrip(a + b, s, c);
    Regrouped4(a, b, s, c);
  }

  lemma Regrouped4(a: string, b: string, c: string, d: string)
    ensures a + (b + c + d) == a + b + c + d
  {
  }

  lemma PlainParses(s: string)
    requires IsPlain(s)
    ensures ParseUuid(s) == if |NoHyphens(s)| != 32 then None else FromHex(NoHyphens(s))
  {
    SpellingParses("", "", "", s, "");
    assert "" + ("" + ("" + s + "")) == s;
  }

  /** Two spellings have the same hexadecimal digits, hyphens and case aside. */
  predicate SameDigits(s: string, s': string) {
    Upper(NoHyphens(s)) == Upper(NoHyphens(s'))
  }

  /**
  Every spelling of a UUID is the same UUID: any braces before and after any accepted prefix, hyphens
  anywhere, upper, lower or mixed case, in any combination, change nothing.
  */
  lemma SpellingsCoincide(a: string, p: string, b: string, s: string, c: string, s': string)
    requires IsBraces(a) && IsPrefix(p) && IsBraces(b) && IsPlain(s) && IsBraces(c)
    requires IsPlain(s') && SameDigits(s, s')
    ensures ParseUuid(a + (p + (b + s + c))) == ParseUuid(s')
  {
    SpellingParses(a, p, b, s, c);
    PlainParses(s');
    assert |NoHyphens(s)| == |Upper(NoHyphens(s))| == |NoHyphens(s')|;
    UpperHex(NoHyphens(s));
    UpperHex(NoHyphens(s'));
  }

  function UpperChar(c: char): char {
    if 'a' <= c <= 'f' then (c as int - 32) as char else c
  }

  /** The hexadecimal letters of s in upper case. */
  function Upper(s: string): (r: string)
    ensures |r| == |s| && forall i | 0 <= i < |s| :: r[i] == UpperChar(s[i])
  {
    seq(|s|, i requires 0 <= i < |s| => UpperChar(s[i]))
  }

  lemma UpperLast(s: string)
    requires s != ""
    ensures Upper(s)[..|s| - 1] == Upper(s[..|s| - 1]) && Upper(s)[|s| - 1] == UpperChar(s[|s| - 1])
  {
  }

  lemma {:induction false} UpperHex(s: string)
    ensures FromHex(Upper(s)) == FromHex(s)
  {
    if s != "" {
      UpperHex(s[..|s| - 1]);
      UpperLast(s);
      UpperDigit(s[|s| - 1]);
    }
  }

  lemma UpperDigit(c: char)
    ensures HexValue(UpperChar(c)) == HexValue(c)
  {
  }

  lemma GroupedIs(a: string, b: string, c: string, d: string, e: string)
    ensures Grouped(a, b, c, d, e) == a + "-" + (b + "-" + (c + "-" + (d + "-" + e)))
  {
  }

  lemma HyphenatedIsPlain(s: string, rest: string)
    requires IsHexString(s) && IsPlain(rest)
    ensures IsPlain(s + "-" + rest)
  {
  }

  lemma GroupsJoin(a: string, b: string, c: string, d: string, e: string)
    requires IsHexString(a) && IsHexString(b) && IsHexString(c) && IsHexString(d) && IsHexString(e)
    ensures NoHyphens(Grouped(a, b, c, d, e)) == a + (b + (c + (d + e)))
    ensures IsPlain(Grouped(a, b, c, d, e))
  {
    var de := d + "-" + e;
    var cde := c + "-" + de;
    var bcde := b + "-" + cde;
    HexHasNoHyphens(e);
    HyphensDrop(d, e);
    HyphensDrop(c, de);
    HyphensDrop(b, cde);
    HyphensDrop(a, bcde);
    HyphenatedIsPlain(d, e);
    HyphenatedIsPlain(c, de);
    HyphenatedIsPlain(b, cde);
    HyphenatedIsPlain(a, bcde);
    GroupedIs(a, b, c, d, e);
  }

  /** Round trip: the canonical text of a UUID denotes that UUID. */
  lemma UuidReads(n: nat)
    requires n < Pow16(32)
    ensures ParseUuid(UuidText(n)) == Some(n)
  {
    var h := Hex(n, 32);
    HexReads(n, 32);
    HexIsHex(n, 32);
    GroupsJoin(h[..8], h[8..12], h[12..16], h[16..20], h[20..]);
    PiecesJoin(h);
    PlainParses(UuidText(n));
  }

  lemma PiecesJoin(h: string)
    requires |h| == 32
    ensures h[..8] + (h[8..12] + (h[12..16] + (h[16..20] + h[20..]))) == h
  {
  }

  lemma {:induction false} HexIsHex(n: nat, k: nat)
    ensures IsHexString(Hex(n, k))
  {
    if k > 0 {
      HexIsHex(n / 16, k - 1);
      HexDigitValue(n % 16);
    }
  }

  lemma {:induction false} HexHasNoHyphens(s: string)
    requires IsHexString(s)
    ensures NoHyphens(s) == s
  {
    if s != "" {
      HexHasNoHyphens(s[1..]);
      assert s == [s[0]] + s[1..];
    }
  }

  lemma {:induction false} HyphensDrop(s: string, rest: string)
    requires IsHexString(s)
    ensures NoHyphens(s + "-" + rest) == s + NoHyphens(rest)
  {
    var t := s + "-" + rest;
    if s == "" {
      assert t == ['-'] + rest;
      Cons('-', rest);
    } else {
      HyphensDrop(s[1..], rest);
      assert t == [s[0]] + (s[1..] + "-" + rest);
      Cons(s[0], s[1..] + "-" + rest);
      assert s == [s[0]] + s[1..];
    }
  }

  // ---------------------------------------------------------------- the payload

  /** What the client sent; version is the UUID its text denotes. */
  datatype Payload = Payload(model: Option<string>, prompt: string, maxTokens: int, version: Option<nat>)

  predicate ValidPayload(p: Payload) {
    p.version.Some? ==> p.version.value < Pow16(32)
  }

  /** The dictionary in the order the handler builds it; the version only when one was selected. */
  function MembersOf(p: Payload): Members {
    [("model", if p.model.Some? then Text(p.model.value) else Null), ("prompt", Text(p.prompt)), ("max_tokens", Number(p.maxTokens))]
    + if p.version.Some? then [("prompt_version_id", Text(UuidText(p.version.value)))] else []
  }

  function FingerprintText(p: Payload): string {
    CanonicalText(MembersOf(p))
  }

  lemma KeysAreDistinct(p: Payload)
    ensures DistinctKeys(MembersOf(p))
  {
    KeysDiffer();
  }

  lemma KeysDiffer()
    ensures |"model"| == 5 && |"prompt"| == 6 && |"max_tokens"| == 10 && |"prompt_version_id"| == 17
  {
  }

  lemma SamePayloadMembers(p: Payload, q: Payload)
    requires SameMembers(MembersOf(p), MembersOf(q))
    ensures p.model == q.model && p.prompt == q.prompt && p.maxTokens == q.maxTokens
    ensures p.version.Some? <==> q.version.Some?
    ensures p.version.Some? ==> UuidText(p.version.value) == UuidText(q.version.value)
  {
    var a, b := MembersOf(p), MembersOf(q);
    KeysDiffer();
    assert a[0] in b && a[1] in b && a[2] in b;
    assert |a| == 4 ==> a[3] in b;
    assert |b| == 4 ==> b[3] in a;
  }

  /**
  The text identifies the request: two requests have the same text exactly when they have the same
  model, prompt, max_tokens and prompt version, however the version's UUID was spelled.
  */
  lemma TextIdentifiesRequest(p: Payload, q: Payload)
    requires ValidPayload(p) && ValidPayload(q)
    ensures FingerprintText(p) == FingerprintText(q) <==> p == q
  {
    KeysAreDistinct(p);
    KeysAreDistinct(q);
    CanonicalTextIdentifies(MembersOf(p), MembersOf(q));
    if FingerprintText(p) == FingerprintText(q) {
      SamePayloadMembers(p, q);
      if p.version.Some? {
        UuidReads(p.version.value);
        UuidReads(q.version.value);
      }
    }
  }

  lemma KeysInOrder()
    ensures Less("max_tokens", "model") && Less("max_tokens", "prompt") && Less("model", "prompt")
  {
    assert "max_tokens"[1..] == "ax_tokens" && "model"[1..] == "odel";
  }

  /** A request without a version has exactly the three-key text it always had. */
  lemma WithoutVersionThreeKeys(p: Payload)
    requires p.version.None?
    ensures FingerprintText(p) == Object([
                ("max_tokens", Number(p.maxTokens)),
                ("model", if p.model.Some? then Text(p.model.value) else Null),
                ("prompt", Text(p.prompt))])
  {
    var ms := MembersOf(p);
    var sorted := [ms[2], ms[0], ms[1]];
    KeysAreDistinct(p);
    KeysInOrder();
    SortByKeyIs(ms);
    SortedIsUnique(SortByKey(ms), sorted);
  }

  lemma VersionKeyIsLast()
    ensures Less("max_tokens", "prompt_version_id") && Less("model", "prompt_version_id") && Less("prompt", "prompt_version_id")
  {
    PrefixIsLess("prompt", "_version_id");
    assert "prompt" + "_version_id" == "prompt_version_id";
    KeysInOrder();
    LessIsTransitive("max_tokens", "prompt", "prompt_version_id");
    LessIsTransitive("model", "prompt", "prompt_version_id");
  }

  lemma {:induction false} PrefixIsLess(s: string, t: string)
    requires t != ""
    ensures Less(s, s + t)
  {
    if s == "" {
      assert s + t == t;
    } else {
      PrefixIsLess(s[1..], t);
      assert (s + t)[1..] == s[1..] + t;
    }
  }

  /** A version comes as a fourth key, after the others, in the canonical text of its UUID. */
  lemma WithVersionFourKeys(p: Payload)
    requires p.version.Some?
    ensures FingerprintText(p) == Object([
                ("max_tokens", Number(p.maxTokens)),
                ("model", if p.model.Some? then Text(p.model.value) else Null),
                ("prompt", Text(p.prompt)),
                ("prompt_version_id", Text(UuidText(p.version.value)))])
  {
    var ms := MembersOf(p);
    KeysAreDistinct(p);
    KeysInOrder();
    VersionKeyIsLast();
    SortByKeyIs(ms);
    FourSorted(ms[0], ms[1], ms[2], ms[3]);
    assert ms == [ms[0], ms[1], ms[2], ms[3]];
    SortedIsUnique(SortByKey(ms), [ms[2], ms[0], ms[1], ms[3]]);
  }

  lemma FourSorted(a: (string, Scalar), b: (string, Scalar), c: (string, Scalar), d: (string, Scalar))
    requires Less(c.0, a.0) && Less(c.0, b.0) && Less(a.0, b.0) && Less(a.0, d.0) && Less(b.0, d.0) && Less(c.0, d.0)
    ensures Sorted([c, a, b, d]) && SameMembers([c, a, b, d], [a, b, c, d])
  {
  }

  predicate IsLowerHex(c: char) {
    '0' <= c <= '9' || 'a' <= c <= 'f'
  }

  lemma {:induction false} HexIsLower(n: nat, k: nat)
    ensures forall i | 0 <= i < k :: IsLowerHex(Hex(n, k)[i])
  {
    if k > 0 {
      HexIsLower(n / 16, k - 1);
    }
  }

  /** Canonical means 36 characters: lower-case digits, with hyphens after 8, 12, 16 and 20 of them. */
  lemma UuidTextIsCanonical(n: nat)
    ensures |UuidText(n)| == 36
    ensures forall i | 0 <= i < 36 ::
              if i == 8 || i == 13 || i == 18 || i == 23 then UuidText(n)[i] == '-'
              else '0' <= UuidText(n)[i] <= '9' || 'a' <= UuidText(n)[i] <= 'f'
  {
    HexIsLower(n, 32);
    var h := Hex(n, 32);
    forall i | 0 <= i < 36
      ensures if i == 8 || i == 13 || i == 18 || i == 23 then UuidText(n)[i] == '-' else IsLowerHex(UuidText(n)[i])
    {
      GroupedAt(h, i);
    }
  }

  lemma GroupedAt(h: string, i: nat)
    requires |h| == 32 && i < 36
    ensures var t := Grouped(h[..8], h[8..12], h[12..16], h[16..20], h[20..]);
            |t| == 36 && t[i] == if i < 8 then h[i] else if i == 8 then '-'
                                 else if i < 13 then h[i - 1] else if i == 13 then '-'
                                 else if i < 18 then h[i - 2] else if i == 18 then '-'
                                 else if i < 23 then h[i - 3] else if i == 23 then '-' else h[i - 4]
  {
  }

  /** The text of a plain request, as it stands: keys in order, nothing between the tokens. */
  lemma PlainRequestText(p: Payload, model: string)
    requires p.version.None? && p.model == Some(model) && IsPlainText(model) && IsPlainText(p.prompt)
    ensures var number, quote := Value(Number(p.maxTokens)), "\"";
            FingerprintText(p) ==
              "{" + (quote + "max_tokens" + quote + ":" + number + ","
                     + (quote + "model" + quote + ":" + (quote + model + quote) + ","
                        + (quote + "prompt" + quote + ":" + (quote + p.prompt + quote)))) + "}"
  {
    WithoutVersionThreeKeys(p);
    KeysArePlain();
    PlainMember("max_tokens", Number(p.maxTokens));
    PlainMember("model", Text(model));
    PlainMember("prompt", Text(p.prompt));
    PlainTextStays(model);
    PlainTextStays(p.prompt);
    ThreeMembers(("max_tokens", Number(p.maxTokens)), ("model", Text(model)), ("prompt", Text(p.prompt)));
  }

  lemma KeysArePlain()
    ensures IsPlainText("max_tokens") && IsPlainText("model") && IsPlainText("prompt")
  {
  }

  lemma PlainMember(k: string, v: Scalar)
    requires IsPlainText(k)
    ensures Member((k, v)) == "\"" + k + "\"" + ":" + Value(v)
  {
    PlainTextStays(k);
  }

  lemma ThreeMembers(a: (string, Scalar), b: (string, Scalar), c: (string, Scalar))
    ensures Object([a, b, c]) == "{" + (Member(a) + "," + (Member(b) + "," + Member(c))) + "}"
  {
    assert [a, b, c][1..] == [b, c] && [b, c][1..] == [c];
    assert Joined([c]) == Member(c);
    assert Joined([b, c]) == Member(b) + "," + Joined([c]);
  }

  lemma NumberTexts()
    ensures Value(Number(0)) == "0" && Value(Number(20)) == "20" && Value(Number(4096)) == "4096" && Value(Number(-5)) == "-5"
  {
  }
}
