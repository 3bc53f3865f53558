/**
Canonical JSON text of a flat object: sorted keys, no spaces, ASCII only. Strings are sequences of
Unicode scalar values, as in section 7 of RFC 8259. The parser is the independent partner: it
reads the text back without knowing how it was produced.
*/
module Json {
  import opened Wrappers

  datatype Scalar = Null | Number(n: int) | Text(s: string)

  /** A dictionary in insertion order. */
  type Members = seq<(string, Scalar)>

  // ---------------------------------------------------------------- characters

  function HexDigit(d: nat): char
    requires d < 16
  {
    "0123456789abcdef"[d]
  }

  /** Either case, as every reader accepts. */
  function HexValue(c: char): (v: Option<nat>)
    ensures v.Some? ==> v.value < 16
  {
    if '0' <= c <= '9' then Some(c as int - '0' as int)
    else if 'a' <= c <= 'f' then Some(c as int - 'a' as int + 10)
    else if 'A' <= c <= 'F' then Some(c as int - 'A' as int + 10)
    else None
  }

  lemma HexDigitValue(d: nat)
    requires d < 16
    ensures HexValue(HexDigit(d)) == Some(d)
  {
  }

  /** \u and four lower-case hexadecimal digits. */
  function CodeUnit(n: nat): (s: string)
    requires n < 0x10000
    ensures |s| == 6
  {
    var low := n % 0x1000;
    ['\\', 'u', HexDigit(n / 0x1000), HexDigit(low / 0x100), HexDigit(low % 0x100 / 0x10), HexDigit(low % 0x10)]
  }

  /** The surrogate pair of a character beyond the basic plane. */
  function High(c: char): nat
    requires c as int >= 0x10000
  {
    0xD800 + (c as int - 0x10000) / 0x400
  }

  function Low(c: char): nat
    requires c as int >= 0x10000
  {
    0xDC00 + (c as int - 0x10000) % 0x400
  }

  function Escape(c: char): (s: string)
    ensures 1 <= |s| <= 12
  {
    if c == '"' then "\\\""
    else if c == '\\' then "\\\\"
    else if c == '\n' then "\\n"
    else if c == '\r' then "\\r"
    else if c == '\t' then "\\t"
    else if c as int == 0xC then "\\f"
    else if c as int == 0x8 then "\\b"
    else if ' ' <= c <= '~' then [c]
    else if c as int < 0x10000 then CodeUnit(c as int)
    else CodeUnit(High(c)) + CodeUnit(Low(c))
  }

  function EscapeAll(s: string): string {
    if s == [] then [] else Escape(s[0]) + EscapeAll(s[1..])
  }

  function Quoted(s: string): string {
    "\"" + EscapeAll(s) + "\""
  }

  // ---------------------------------------------------------------- reading characters back

  /** The code unit written at index i. */
  function UnitAt(t: string, i: nat): Option<nat> {
    if |t| < i + 6 || t[i] != '\\' || t[i + 1] != 'u' then None else
      var a, b, c, d := HexValue(t[i + 2]), HexValue(t[i + 3]), HexValue(t[i + 4]), HexValue(t[i + 5]);
      if a.None? || b.None? || c.None? || d.None? then None
      else Some(a.value * 0x1000 + b.value * 0x100 + c.value * 0x10 + d.value)
  }

  /** The character at the front of a string body and how much text it takes. */
  function ReadChar(t: string): (r: Option<(char, nat)>)
    ensures r.Some? ==> 1 <= r.value.1 <= |t|
  {
    if t == [] || t[0] == '"' then None
    else if t[0] != '\\' then Some((t[0], 1))
    else if |t| < 2 then None
    else if t[1] == 'u' then
      var high := UnitAt(t, 0);
      if high.None? then None
      else if high.value < 0xD800 || 0xE000 <= high.value < 0x10000 then Some((high.value as char, 6))
      else
        var low := UnitAt(t, 6);
        if high.value < 0xDC00 && low.Some? && 0xDC00 <= low.value < 0xE000
        then Some(((0x10000 + (high.value - 0xD800) * 0x400 + (low.value - 0xDC00)) as char, 12))
        else None
    else match t[1]
      case '"' => Some(('"', 2))
      case '\\' => Some(('\\', 2))
      case 'n' => Some(('\n', 2))
      case 'r' => Some(('\r', 2))
      case 't' => Some(('\t', 2))
      case 'f' => Some((0xC as char, 2))
      case 'b' => Some((0x8 as char, 2))
      case _ => None
  }

  lemma HexPlaces(n: nat)
    requires n < 0x10000
    ensures var low := n % 0x1000;
            n == n / 0x1000 * 0x1000 + low / 0x100 * 0x100 + low % 0x100 / 0x10 * 0x10 + low % 0x10
  {
  }

  lemma UnitAtIs(t: string, i: nat, n: nat)
    requires n < 0x10000 && |t| >= i + 6
    requires forall j | 0 <= j < 6 :: t[i + j] == CodeUnit(n)[j]
    ensures UnitAt(t, i) == Some(n)
  {
    var low := n % 0x1000;
    HexDigitValue(n / 0x1000);
    HexDigitValue(low / 0x100);
    HexDigitValue(low % 0x100 / 0x10);
    HexDigitValue(low % 0x10);
    HexPlaces(n);
    var zero := 0;
    assert t[i + zero] == CodeUnit(n)[zero];
    assert t[i + 1] == CodeUnit(n)[1] && t[i + 2] == CodeUnit(n)[2] && t[i + 3] == CodeUnit(n)[3];
    assert t[i + 4] == CodeUnit(n)[4] && t[i + 5] == CodeUnit(n)[5];
  }

  lemma UnitReads(n: nat, before: string, rest: string)
    requires n < 0x10000
    ensures UnitAt(before + CodeUnit(n) + rest, |before|) == Some(n)
  {
    var t, i := before + CodeUnit(n) + rest, |before|;
    assert forall j | 0 <= j < 6 :: t[i + j] == CodeUnit(n)[j];
    UnitAtIs(t, i, n);
  }

  lemma CharReads(c: char, rest: string)
    ensures ReadChar(Escape(c) + rest) == Some((c, |Escape(c)|))
  {
    var n := c as int;
    if n < 0x10000 && Escape(c) == CodeUnit(n) {
      UnitReads(n, "", rest);
      assert "" + CodeUnit(n) + rest == CodeUnit(n) + rest;
    } else if n >= 0x10000 {
      AstralReads(c, rest);
    }
  }

  lemma SurrogatesCombine(c: char)
    requires c as int >= 0x10000
    ensures 0xD800 <= High(c) < 0xDC00 <= Low(c) < 0xE000
    ensures 0x10000 + (High(c) - 0xD800) * 0x400 + (Low(c) - 0xDC00) == c as int
  {
  }

  lemma AstralReads(c: char, rest: string)
    requires c as int >= 0x10000
    ensures ReadChar(Escape(c) + rest) == Some((c, 12))
  {
    SurrogatesCombine(c);
    PairReads(High(c), Low(c), rest);
  }

  lemma PairReads(high: nat, low: nat, rest: string)
    requires 0xD800 <= high < 0xDC00 <= low < 0xE000
    ensures ReadChar(CodeUnit(high) + CodeUnit(low) + rest)
            == Some(((0x10000 + (high - 0xD800) * 0x400 + (low - 0xDC00)) as char, 12))
  {
    var t := CodeUnit(high) + CodeUnit(low) + rest;
    UnitReads(low, CodeUnit(high), rest);
    assert UnitAt(t, 0) == Some(high) by {
      UnitReads(high, "", CodeUnit(low) + rest);
      assert t == "" + CodeUnit(high) + (CodeUnit(low) + rest);
    }
    assert t[0] == CodeUnit(high)[0] && t[1] == CodeUnit(high)[1];
  }

  /** A string body up to its closing quote, and what follows. */
  function ReadBody(t: string): (r: Option<(string, string)>)
    ensures r.Some? ==> |r.value.1| < |t|
    decreases |t|
  {
    if t == [] then None
    else if t[0] == '"' then Some(("", t[1..]))
    else
      var c := ReadChar(t);
      if c.None? then None else
        var more := ReadBody(t[c.value.1..]);
        if more.None? then None else Some(([c.value.0] + more.value.0, more.value.1))
  }

  lemma {:induction false} BodyReads(s: string, rest: string)
    ensures ReadBody(EscapeAll(s) + "\"" + rest) == Some((s, rest))
  {
    var t := EscapeAll(s) + "\"" + rest;
    if s == [] {
      assert t[1..] == rest;
    } else {
      var e, more := Escape(s[0]), EscapeAll(s[1..]) + "\"" + rest;
      assert t == e + more;
      CharReads(s[0], more);
      BodyReads(s[1..], rest);
      assert t[|e|..] == more;
      assert [s[0]] + s[1..] == s;
    }
  }

  // ---------------------------------------------------------------- numbers

  function IsDigit(c: char): bool {
    '0' <= c <= '9'
  }

  function Digits(n: nat): (s: string)
    ensures s != [] && IsDigit(s[0])
  {
    if n < 10 then [HexDigit(n)] else Digits(n / 10) + [HexDigit(n % 10)]
  }

  /** Digits at the front of t appended to those read so far, and what follows. */
  function ReadDigits(t: string, n: nat): (r: (nat, string))
    ensures |r.1| <= |t|
    ensures t != [] && IsDigit(t[0]) ==> |r.1| < |t|
  {
    if t == [] || !IsDigit(t[0]) then (n, t) else ReadDigits(t[1..], 10 * n + HexValue(t[0]).value)
  }

  lemma Cons(c: char, t: string)
    ensures ([c] + t)[0] == c && ([c] + t)[1..] == t
  {
  }

  lemma OneDigitReads(c: char, rest: string, n: nat)
    requires IsDigit(c)
    ensures ReadDigits([c] + rest, n) == ReadDigits(rest, 10 * n + HexValue(c).value)
  {
    Cons(c, rest);
  }

  lemma {:induction false} DigitsRead(n: nat, rest: string)
    ensures ReadDigits(Digits(n) + rest, 0) == ReadDigits(rest, n)
  {
    var last := HexDigit(n % 10);
    HexDigitValue(n % 10);
    if n < 10 {
      OneDigitReads(last, rest, 0);
    } else {
      DigitsRead(n / 10, [last] + rest);
      OneDigitReads(last, rest, n / 10);
      assert Digits(n) + rest == Digits(n / 10) + ([last] + rest);
    }
  }

  // ---------------------------------------------------------------- values and members

  function Value(v: Scalar): string {
    match v
    case Null => "null"
    case Number(n) => if n < 0 then "-" + Digits(-n) else Digits(n)
    case Text(s) => Quoted(s)
  }

  function ReadValue(t: string): (r: Option<(Scalar, string)>)
    ensures r.Some? ==> |r.value.1| < |t|
  {
    if t == [] then None
    else if t[0] == 'n' then if |t| >= 4 && t[..4] == "null" then Some((Null, t[4..])) else None
    else if t[0] == '"' then
      var s := ReadBody(t[1..]);
      if s.None? then None else Some((Text(s.value.0), s.value.1))
    else if t[0] == '-' then
      if |t| < 2 || !IsDigit(t[1]) then None else
        var d := ReadDigits(t[1..], 0);
        Some((Number(0 - d.0), d.1))
    else if IsDigit(t[0]) then
      var d := ReadDigits(t, 0);
      Some((Number(d.0), d.1))
    else None
  }

  lemma QuoteReads(body: string)
    requires ReadBody(body).Some?
    ensures ReadValue(['"'] + body) == Some((Text(ReadBody(body).value.0), ReadBody(body).value.1))
  {
    Cons('"', body);
  }

  lemma QuotedText(k: string, rest: string)
    ensures "\"" + k + "\"" + rest == ['"'] + (k + "\"" + rest)
  {
  }

  lemma TextReads(s: string, rest: string)
    ensures ReadValue(Quoted(s) + rest) == Some((Text(s), rest))
  {
    BodyReads(s, rest);
    QuoteReads(EscapeAll(s) + "\"" + rest);
    QuotedText(EscapeAll(s), rest);
  }

  lemma NumberReads(n: int, rest: string)
    requires rest != [] && !IsDigit(rest[0])
    ensures ReadValue(Value(Number(n)) + rest) == Some((Number(n), rest))
  {
    if n < 0 {
      DigitsRead(-n, rest);
      Cons('-', Digits(-n) + rest);
      assert "-" + Digits(-n) + rest == ['-'] + (Digits(-n) + rest);
      assert IsDigit((Digits(-n) + rest)[0]);
    } else {
      DigitsRead(n, rest);
      assert IsDigit((Digits(n) + rest)[0]);
    }
  }

  lemma ValueReads(v: Scalar, rest: string)
    requires rest != [] && !IsDigit(rest[0])
    ensures ReadValue(Value(v) + rest) == Some((v, rest))
  {
    match v {
      case Null =>
        var t := "null" + rest;
        assert t[..4] == "null" && t[4..] == rest;
      case Number(n) =>
        NumberReads(n, rest);
      case Text(s) =>
        TextReads(s, rest);
    }
  }

  function Member(m: (string, Scalar)): string {
    Quoted(m.0) + ":" + Value(m.1)
  }

  function Joined(ms: Members): string {
    if ms == [] then "" else if |ms| == 1 then Member(ms[0]) else Member(ms[0]) + "," + Joined(ms[1..])
  }

  function Object(ms: Members): string {
    "{" + Joined(ms) + "}"
  }

  function ReadMember(t: string): (r: Option<((string, Scalar), string)>)
    ensures r.Some? ==> |r.value.1| < |t|
  {
    if t == [] || t[0] != '"' then None else
      var key := ReadBody(t[1..]);
      if key.None? || key.value.1 == [] || key.value.1[0] != ':' then None else
        var value := ReadValue(key.value.1[1..]);
        if value.None? then None else Some(((key.value.0, value.value.0), value.value.1))
  }

  /** At least one member, up to the closing brace. */
  function ReadMembers(t: string): Option<(Members, string)>
    decreases |t|
  {
    var first := ReadMember(t);
    if first.None? || first.value.1 == [] then None
    else if first.value.1[0] == '}' then Some(([first.value.0], first.value.1[1..]))
    else if first.value.1[0] != ',' then None
    else
      var more := ReadMembers(first.value.1[1..]);
      if more.None? then None else Some(([first.value.0] + more.value.0, more.value.1))
  }

  function ReadObject(t: string): Option<(Members, string)> {
    if t == [] || t[0] != '{' then None
    else if |t| >= 2 && t[1] == '}' then Some(([], t[2..]))
    else ReadMembers(t[1..])
  }

  lemma ReadMemberSteps(body: string, key: string, value: string, v: Scalar, rest: string)
    requires ReadBody(body) == Some((key, [':'] + value)) && ReadValue(value) == Some((v, rest))
    ensures ReadMember(['"'] + body) == Some(((key, v), rest))
  {
    Cons(':', value);
    Cons('"', body);
  }

  lemma MemberText(m: (string, Scalar), rest: string)
    ensures Member(m) + rest == ['"'] + (EscapeAll(m.0) + "\"" + ([':'] + (Value(m.1) + rest)))
  {
    Regrouped(EscapeAll(m.0), Value(m.1), rest);
  }

  lemma Regrouped(k: string, v: string, rest: string)
    ensures "\"" + k + "\"" + ":" + v + rest == ['"'] + (k + "\"" + ([':'] + (v + rest)))
  {
    var tail := [':'] + (v + rest);
    assert "\"" + k + "\"" + ":" + v + rest == "\"" + k + "\"" + tail;
  }

  lemma MembersText(m: string, more: string, rest: string)
    ensures m + "}" + rest == m + (['}'] + rest)
    ensures m + "," + more + "}" + rest == m + ([','] + (more + "}" + rest))
  {
  }

  lemma MemberReads(m: (string, Scalar), rest: string)
    requires rest != [] && !IsDigit(rest[0])
    ensures ReadMember(Member(m) + rest) == Some((m, rest))
  {
    var value := Value(m.1) + rest;
    BodyReads(m.0, [':'] + value);
    ValueReads(m.1, rest);
    ReadMemberSteps(EscapeAll(m.0) + "\"" + ([':'] + value), m.0, value, m.1, rest);
    MemberText(m, rest);
  }

  lemma LastMemberReads(m: (string, Scalar), rest: string)
    ensures ReadMembers(Member(m) + "}" + rest) == Some(([m], rest))
  {
    MembersText(Member(m), "", rest);
    MemberReads(m, ['}'] + rest);
    Cons('}', rest);
  }

  lemma NextMemberReads(m: (string, Scalar), joined: string, ms: Members, rest: string)
    requires ReadMembers(joined + "}" + rest) == Some((ms, rest))
    ensures ReadMembers(Member(m) + "," + joined + "}" + rest) == Some(([m] + ms, rest))
  {
    var more := joined + "}" + rest;
    MembersText(Member(m), joined, rest);
    MemberReads(m, [','] + more);
    Cons(',', more);
  }

  lemma {:induction false} MembersRead(ms: Members, rest: string)
    requires ms != []
    ensures ReadMembers(Joined(ms) + "}" + rest) == Some((ms, rest))
  {
    if |ms| == 1 {
      LastMemberReads(ms[0], rest);
      assert [ms[0]] == ms;
    } else {
      MembersRead(ms[1..], rest);
      NextMemberReads(ms[0], Joined(ms[1..]), ms[1..], rest);
      assert [ms[0]] + ms[1..] == ms;
    }
  }

  /** Round trip: the text of an object reads back as exactly its members, in order. */
  lemma ObjectReads(ms: Members)
    ensures ReadObject(Object(ms)) == Some((ms, ""))
  {
    var t := Object(ms);
    if ms != [] {
      MembersRead(ms, "");
      assert t[1..] == Joined(ms) + "}" + "";
      assert Joined(ms)[0] == '"';
    } else {
      assert t == "{}" && t[2..] == "";
    }
  }

  // ---------------------------------------------------------------- key order

  /** Strings compare by code point. */
  predicate Less(a: string, b: string) {
    if b == [] then false
    else if a == [] then true
    else if a[0] != b[0] then a[0] < b[0]
    else Less(a[1..], b[1..])
  }

  lemma {:induction false} LessIsStrict(a: string, b: string)
    ensures !(Less(a, b) && Less(b, a))
    ensures a == b ==> !Less(a, b)
    ensures a != b ==> Less(a, b) || Less(b, a)
  {
    if a != [] && b != [] && a[0] == b[0] {
      LessIsStrict(a[1..], b[1..]);
      assert a == [a[0]] + a[1..] && b == [b[0]] + b[1..];
    }
  }

  lemma {:induction false} LessIsTransitive(a: string, b: string, c: string)
    requires Less(a, b) && Less(b, c)
    ensures Less(a, c)
  {
    if a != [] && a[0] == b[0] && b[0] == c[0] {
      LessIsTransitive(a[1..], b[1..], c[1..]);
    }
  }

  ghost predicate Sorted(ms: Members) {
    forall i, j | 0 <= i < j < |ms| :: Less(ms[i].0, ms[j].0)
  }

  ghost predicate DistinctKeys(ms: Members) {
    forall i, j | 0 <= i < j < |ms| :: ms[i].0 != ms[j].0
  }

  ghost predicate SameMembers(a: Members, b: Members) {
    forall m :: m in a <==> m in b
  }

  function Inserted(m: (string, Scalar), ms: Members): Members {
    if ms == [] || Less(m.0, ms[0].0) then [m] + ms else [ms[0]] + Inserted(m, ms[1..])
  }

  function SortByKey(ms: Members): Members {
    if ms == [] then [] else Inserted(ms[0], SortByKey(ms[1..]))
  }

  lemma {:induction false} InsertedIs(m: (string, Scalar), ms: Members)
    ensures forall x :: x in Inserted(m, ms) <==> x == m || x in ms
    ensures Sorted(ms) && (forall x | x in ms :: x.0 != m.0) ==> Sorted(Inserted(m, ms))
  {
    var r := Inserted(m, ms);
    if ms == [] || Less(m.0, ms[0].0) {
      if Sorted(ms) {
        forall j | 0 <= j < |ms|
          ensures Less(m.0, ms[j].0)
        {
          if j > 0 {
            LessIsTransitive(m.0, ms[0].0, ms[j].0);
          }
        }
      }
    } else {
      var rest := Inserted(m, ms[1..]);
      InsertedIs(m, ms[1..]);
      assert ms == [ms[0]] + ms[1..];
      LessIsStrict(m.0, ms[0].0);
      if Sorted(ms) && forall x | x in ms :: x.0 != m.0 {
        FirstIsLeast(ms);
        forall j | 0 <= j < |rest|
          ensures Less(ms[0].0, rest[j].0)
        {
          assert rest[j] in rest;
        }
      }
    }
  }

  lemma FirstIsLeast(ms: Members)
    requires ms != [] && Sorted(ms)
    ensures forall x | x in ms[1..] :: Less(ms[0].0, x.0)
    ensures Sorted(ms[1..])
    ensures forall x :: x in ms[1..] <==> x in ms && x != ms[0]
  {
    forall j | 0 < j < |ms|
      ensures Less(ms[0].0, ms[j].0) && ms[j] != ms[0]
    {
      LessIsStrict(ms[0].0, ms[j].0);
    }
    assert ms == [ms[0]] + ms[1..];
  }

  lemma {:induction false} SortByKeyIs(ms: Members)
    requires DistinctKeys(ms)
    ensures SameMembers(SortByKey(ms), ms) && Sorted(SortByKey(ms))
  {
    if ms != [] {
      SortByKeyIs(ms[1..]);
      InsertedIs(ms[0], SortByKey(ms[1..]));
      assert ms == [ms[0]] + ms[1..];
    }
  }

  lemma SomeMember(ms: Members)
    ensures ms != [] ==> exists m :: m in ms
  {
    if ms != [] {
      assert ms[0] in ms;
    }
  }

  /** There is only one way to sort the same members. */
  lemma {:induction false} SortedIsUnique(a: Members, b: Members)
    requires Sorted(a) && Sorted(b) && SameMembers(a, b)
    ensures a == b
  {
    if a == [] {
      SomeMember(b);
    } else {
      assert a[0] in a && a[0] in b;
      assert b[0] in a;
      FirstIsLeast(a);
      FirstIsLeast(b);
      LessIsStrict(a[0].0, b[0].0);
      SortedIsUnique(a[1..], b[1..]);
      assert a == [a[0]] + a[1..] && b == [b[0]] + b[1..];
    }
  }

  // ---------------------------------------------------------------- the canonical text

  function CanonicalText(ms: Members): string {
    Object(SortByKey(ms))
  }

  /** Canonical: two dictionaries have the same text exactly when they have the same entries, in whatever order. */
  lemma CanonicalTextIdentifies(a: Members, b: Members)
    requires DistinctKeys(a) && DistinctKeys(b)
    ensures CanonicalText(a) == CanonicalText(b) <==> SameMembers(a, b)
  {
    SortByKeyIs(a);
    SortByKeyIs(b);
    ObjectReads(SortByKey(a));
    ObjectReads(SortByKey(b));
    if SameMembers(a, b) {
      SortedIsUnique(SortByKey(a), SortByKey(b));
    }
  }

  // ---------------------------------------------------------------- what the text looks like

  predicate IsPrintable(s: string) {
    forall i | 0 <= i < |s| :: ' ' <= s[i] <= '~'
  }

  lemma HexDigitIsPrintable(d: nat)
    requires d < 16
    ensures ' ' <= HexDigit(d) <= '~'
  {
  }

  lemma CodeUnitIsPrintable(n: nat)
    requires n < 0x10000
    ensures IsPrintable(CodeUnit(n))
  {
    var low := n % 0x1000;
    HexDigitIsPrintable(n / 0x1000);
    HexDigitIsPrintable(low / 0x100);
    HexDigitIsPrintable(low % 0x100 / 0x10);
    HexDigitIsPrintable(low % 0x10);
  }

  lemma BothArePrintable(a: string, b: string)
    requires IsPrintable(a) && IsPrintable(b)
    ensures IsPrintable(a + b)
  {
  }

  lemma EscapeIsPrintable(c: char)
    ensures IsPrintable(Escape(c))
  {
    if c as int >= 0x10000 {
      CodeUnitIsPrintable(High(c));
      CodeUnitIsPrintable(Low(c));
      BothArePrintable(CodeUnit(High(c)), CodeUnit(Low(c)));
    } else if c as int < 0x20 || c as int > 0x7E {
      CodeUnitIsPrintable(c as int);
    }
  }

  lemma {:induction false} EscapeAllIsPrintable(s: string)
    ensures IsPrintable(EscapeAll(s))
  {
    if s != [] {
      EscapeIsPrintable(s[0]);
      EscapeAllIsPrintable(s[1..]);
    }
  }

  lemma {:induction false} DigitsArePrintable(n: nat)
    ensures IsPrintable(Digits(n))
  {
    if n >= 10 {
      DigitsArePrintable(n / 10);
    }
  }

  lemma MemberIsPrintable(m: (string, Scalar))
    ensures IsPrintable(Member(m))
  {
    EscapeAllIsPrintable(m.0);
    match m.1 {
      case Null =>
      case Number(n) => DigitsArePrintable(if n < 0 then -n else n);
      case Text(s) => EscapeAllIsPrintable(s);
    }
    assert IsPrintable(Quoted(m.0)) && IsPrintable(Value(m.1));
  }

  lemma {:induction false} JoinedIsPrintable(ms: Members)
    ensures IsPrintable(Joined(ms))
  {
    if ms != [] {
      MemberIsPrintable(ms[0]);
      JoinedIsPrintable(ms[1..]);
    }
  }

  /** Whatever Unicode the values hold, the text that is hashed is printable ASCII. */
  lemma TextIsAscii(ms: Members)
    ensures forall i | 0 <= i < |CanonicalText(ms)| :: 0x20 <= CanonicalText(ms)[i] as int < 0x7F
  {
    JoinedIsPrintable(SortByKey(ms));
  }

  /** Printable, and neither a quote nor a backslash. */
  predicate IsPlainText(s: string) {
    forall i | 0 <= i < |s| :: ' ' <= s[i] <= '~' && s[i] != '"' && s[i] != '\\'
  }

  lemma {:induction false} PlainTextStays(s: string)
    requires IsPlainText(s)
    ensures EscapeAll(s) == s
  {
    if s != [] {
      PlainTextStays(s[1..]);
      assert Escape(s[0]) == [s[0]];
    }
  }
}
