/** The few `java.lang.String`/`Long` operations the services rely on, stated
    over `seq<char>`: blank tests, `trim`, single-character `split`, `join`,
    prefix/infix tests, `lastIndexOf`, ASCII case mapping and the decimal
    conversions of `Long.parseLong` and `String.valueOf(long)`. */
module Strs {
  import opened Wrappers

  // ---------------------------------------------------------------------------
  // Whitespace, blank, trim
  // ---------------------------------------------------------------------------

  /** `Character.isWhitespace`: the ASCII controls it lists plus the Unicode
      space, line and paragraph separators other than the non-breaking ones. */
  predicate IsWhitespace(c: char) {
    c == ' ' || c == '\t' || c == '\n' || c == '\U{B}' || c == '\U{C}' || c == '\r'
    || ('\U{1C}' <= c <= '\U{1F}')
    || c == '\U{1680}' || ('\U{2000}' <= c <= '\U{2006}') || ('\U{2008}' <= c <= '\U{200A}')
    || c == '\U{2028}' || c == '\U{2029}' || c == '\U{205F}' || c == '\U{3000}'
  }

  /** `String.isBlank`: empty or whitespace only. */
  predicate IsBlank(s: string) {
    forall i :: 0 <= i < |s| ==> IsWhitespace(s[i])
  }

  /** A text that is not blank has a visible character. */
  lemma VisibleChar(t: string) returns (c: char)
    requires !IsBlank(t)
    ensures c in t && !IsWhitespace(c)
  {
    var k :| 0 <= k < |t| && !IsWhitespace(t[k]);
    c := t[k];
  }

  /** A text with a visible character is not blank. */
  lemma NotBlank(t: string, k: int)
    requires 0 <= k < |t| && !IsWhitespace(t[k])
    ensures !IsBlank(t)
  {
  }

  /** `String.trim` strips every leading and trailing character up to U+0020. */
  predicate Trimmed(c: char) { c <= ' ' }

  function TrimLeft(s: string): string {
    if |s| > 0 && Trimmed(s[0]) then TrimLeft(s[1..]) else s
  }

  function TrimRight(s: string): string {
    if |s| > 0 && Trimmed(s[|s| - 1]) then TrimRight(s[..|s| - 1]) else s
  }

  /** `trim`: both ends stripped. */
  function Trim(s: string): string {
    TrimRight(TrimLeft(s))
  }

  lemma {:induction false} TrimLeftSpec(s: string)
    ensures var r := TrimLeft(s);
      |r| <= |s| && r == s[|s| - |r|..]
      && (r == [] || !Trimmed(r[0]))
      && (forall i :: 0 <= i < |s| - |r| ==> Trimmed(s[i]))
  {
    if |s| > 0 && Trimmed(s[0]) {
      TrimLeftSpec(s[1..]);
    }
  }

  lemma {:induction false} TrimRightSpec(s: string)
    ensures var r := TrimRight(s);
      |r| <= |s| && r == s[..|r|]
      && (r == [] || !Trimmed(r[|r| - 1]))
      && (forall i :: |r| <= i < |s| ==> Trimmed(s[i]))
  {
    if |s| > 0 && Trimmed(s[|s| - 1]) {
      TrimRightSpec(s[..|s| - 1]);
    }
  }

  /** The trimmed string is the middle of the input: what was cut off on either
      side is at most U+0020, and neither end of the result is. */
  lemma TrimIsInfix(s: string)
    ensures exists i, j :: (0 <= i <= j <= |s| && Trim(s) == s[i..j]
      && (forall k :: 0 <= k < i ==> Trimmed(s[k]))
      && (forall k :: j <= k < |s| ==> Trimmed(s[k])))
    ensures Trim(s) == [] || (!Trimmed(Trim(s)[0]) && !Trimmed(Trim(s)[|Trim(s)| - 1]))
  {
    var l := TrimLeft(s);
    TrimLeftSpec(s);
    var r := TrimRight(l);
    TrimRightSpec(l);
    var i := |s| - |l|;
    assert r == s[i..i + |r|];
    assert r != [] ==> r[0] == l[0];
  }

  lemma TrimChars(p: string)
    ensures forall c :: c in Trim(p) ==> c in p
  {
    TrimIsInfix(p);
  }

  /** `trim` is idempotent. */
  lemma TrimIdempotent(s: string)
    ensures Trim(Trim(s)) == Trim(s)
  {
    TrimIsInfix(s);
    var t := Trim(s);
    assert TrimLeft(t) == t;
  }

  // ---------------------------------------------------------------------------
  // Split and join on one separator character
  // ---------------------------------------------------------------------------

  /** All pieces between occurrences of `sep`, empty ones included; there is
      always at least one piece. */
  function Split(s: string, sep: char): (r: seq<string>)
    ensures |r| >= 1
    decreases |s|
  {
    if |s| == 0 then [""]
    else
      var rest := Split(s[1..], sep);
      if s[0] == sep then [""] + rest else [[s[0]] + rest[0]] + rest[1..]
  }

  /** `String.join(sep, parts)`: the empty list joins to "". */
  function Join(parts: seq<string>, sep: string): string
    decreases |parts|
  {
    if |parts| == 0 then ""
    else if |parts| == 1 then parts[0]
    else parts[0] + sep + Join(parts[1..], sep)
  }

  lemma {:induction false} SplitPiecesFree(s: string, sep: char)
    ensures forall p :: p in Split(s, sep) ==> sep !in p
    decreases |s|
  {
    if |s| > 0 {
      SplitPiecesFree(s[1..], sep);
      var rest := Split(s[1..], sep);
      if s[0] != sep {
        assert sep !in rest[0];
        assert forall p :: p in rest[1..] ==> p in rest;
      }
    }
  }

  /** Every character of a piece comes from the input. */
  lemma {:induction false} SplitPiecesFromInput(s: string, sep: char)
    ensures forall p, c :: p in Split(s, sep) && c in p ==> c in s
    decreases |s|
  {
    if |s| > 0 {
      SplitPiecesFromInput(s[1..], sep);
      var rest := Split(s[1..], sep);
      assert forall c :: c in s[1..] ==> c in s;
      if s[0] != sep {
        assert forall p :: p in rest[1..] ==> p in rest;
      }
    }
  }

  /** Joining the pieces back with the separator gives the original string. */
  lemma {:induction false} JoinSplit(s: string, sep: char)
    ensures Join(Split(s, sep), [sep]) == s
    decreases |s|
  {
    if |s| > 0 {
      JoinSplit(s[1..], sep);
      var rest := Split(s[1..], sep);
      if s[0] != sep {
        var r := Split(s, sep);
        assert r[0] == [s[0]] + rest[0] && r[1..] == rest[1..];
        if |rest| > 1 {
          assert Join(rest, [sep]) == rest[0] + [sep] + Join(rest[1..], [sep]);
          assert Join(r, [sep]) == r[0] + [sep] + Join(r[1..], [sep]);
        }
      }
    }
  }

  /** Splitting a join of separator-free pieces gives the pieces back. */
  lemma {:induction false} SplitJoin(parts: seq<string>, sep: char)
    requires |parts| >= 1
    requires forall p :: p in parts ==> sep !in p
    ensures Split(Join(parts, [sep]), sep) == parts
    decreases |parts|, |parts[0]|
  {
    var p := parts[0];
    assert p in parts;
    var s := Join(parts, [sep]);
    if |p| > 0 {
      var shorter := [p[1..]] + parts[1..];
      assert shorter[1..] == parts[1..];
      forall q | q in shorter ensures sep !in q {
        if q == p[1..] {
          assert forall x :: x in p[1..] ==> x in p;
        } else {
          assert q in parts;
        }
      }
      SplitJoin(shorter, sep);
      assert s[1..] == Join(shorter, [sep]);
      assert s[0] == p[0] && p[0] != sep;
      assert p == [p[0]] + p[1..] && shorter[0] == p[1..];
      assert parts == [[p[0]] + shorter[0]] + shorter[1..];
    } else if |parts| > 1 {
      forall q | q in parts[1..] ensures sep !in q { assert q in parts; }
      SplitJoin(parts[1..], sep);
      assert s == [sep] + Join(parts[1..], [sep]);
      assert s[1..] == Join(parts[1..], [sep]);
    }
  }

  /** Each piece trimmed. */
  function TrimAll(parts: seq<string>): (r: seq<string>)
    ensures |r| == |parts|
    ensures forall i :: 0 <= i < |r| ==> r[i] == Trim(parts[i])
  {
    if |parts| == 0 then [] else [Trim(parts[0])] + TrimAll(parts[1..])
  }

  /** The pieces that are not empty, in order. */
  function NonEmpty(parts: seq<string>): (r: seq<string>)
    ensures |r| <= |parts|
    ensures forall p :: p in r <==> p in parts && p != ""
  {
    if |parts| == 0 then []
    else if parts[0] == "" then NonEmpty(parts[1..])
    else [parts[0]] + NonEmpty(parts[1..])
  }

  /** The idiom `split(",")` / `trim` / drop empty used for every
      comma-separated list in the system. */
  function Tokens(s: string): seq<string> {
    NonEmpty(TrimAll(Split(s, ',')))
  }

  lemma TokensAreClean(s: string)
    ensures forall t :: t in Tokens(s) ==> t != "" && ',' !in t && Trim(t) == t
  {
    SplitPiecesFree(s, ',');
    var pieces := Split(s, ',');
    forall t | t in Tokens(s) ensures t != "" && ',' !in t && Trim(t) == t {
      var i :| 0 <= i < |pieces| && TrimAll(pieces)[i] == t;
      TrimIsInfix(pieces[i]);
      assert pieces[i] in pieces;
      TrimIdempotent(pieces[i]);
    }
  }

  lemma {:induction false} NonEmptyOfNonEmpty(parts: seq<string>)
    requires forall p :: p in parts ==> p != ""
    ensures NonEmpty(parts) == parts
  {
    if |parts| > 0 {
      assert parts[0] in parts;
      assert forall p :: p in parts[1..] ==> p in parts;
      NonEmptyOfNonEmpty(parts[1..]);
    }
  }

  /** Clean tokens joined by commas read back as the same tokens. */
  lemma TokensOfJoin(names: seq<string>)
    requires |names| >= 1
    requires forall n :: n in names ==> n != "" && ',' !in n && Trim(n) == n
    ensures Tokens(Join(names, ",")) == names
  {
    assert "," == [','];
    SplitJoin(names, ',');
    TrimAllOfTrimmed(names);
    NonEmptyOfNonEmpty(names);
  }

  /** Pieces that are already trimmed are unchanged by trimming. */
  lemma TrimAllOfTrimmed(parts: seq<string>)
    requires forall p :: p in parts ==> Trim(p) == p
    ensures TrimAll(parts) == parts
  {
    forall i | 0 <= i < |parts|
      ensures TrimAll(parts)[i] == parts[i]
    {
      assert parts[i] in parts;
    }
  }

  /** A clean name is the one token of its own text. */
  lemma TokensOfClean(n: string)
    requires n != "" && ',' !in n && Trim(n) == n
    ensures Tokens(n) == [n]
  {
    assert Join([n], ",") == n;
    TokensOfJoin([n]);
  }

  /** Text that starts and ends with a visible character is already
      trimmed. */
  lemma TrimOfVisibleEnds(s: string)
    requires |s| > 0 && !Trimmed(s[0]) && !Trimmed(s[|s| - 1])
    ensures Trim(s) == s
  {
  }

  /** Regrouping a concatenation of three strings. */
  lemma AppendAssoc(a: string, b: string, c: string)
    ensures (a + b) + c == a + (b + c)
  {
  }

  /** No name occurs twice. */
  predicate Distinct(s: seq<string>) {
    forall i, j :: 0 <= i < j < |s| ==> s[i] != s[j]
  }

  /** A join begins with its first part. */
  lemma JoinStartsWithFirst(parts: seq<string>, sep: string)
    requires |parts| >= 1
    ensures |parts[0]| <= |Join(parts, sep)| && Join(parts, sep)[..|parts[0]|] == parts[0]
  {
    if |parts| > 1 {
      assert Join(parts, sep) == parts[0] + (sep + Join(parts[1..], sep));
    }
  }

  // ---------------------------------------------------------------------------
  // Prefixes, infixes, characters
  // ---------------------------------------------------------------------------

  predicate StartsWith(s: string, prefix: string) {
    |prefix| <= |s| && s[..|prefix|] == prefix
  }

  predicate EndsWith(s: string, suffix: string) {
    |suffix| <= |s| && s[|s| - |suffix|..] == suffix
  }

  predicate OccursAt(s: string, sub: string, i: int) {
    0 <= i <= |s| - |sub| && s[i..i + |sub|] == sub
  }

  /** `String.contains`. */
  predicate Contains(s: string, sub: string) {
    exists i :: 0 <= i <= |s| - |sub| && OccursAt(s, sub, i)
  }

  lemma ContainsItself(s: string, pre: string, sub: string, post: string)
    requires s == pre + sub + post
    ensures Contains(s, sub)
  {
    assert OccursAt(s, sub, |pre|);
  }

  /** A text found inside the middle part is found in the whole. */
  lemma ContainsInMiddle(head: string, body: string, tail: string, pre: string, sub: string, post: string)
    requires body == pre + sub + post
    ensures Contains(head + body + tail, sub)
  {
    assert head + body + tail == (head + pre) + sub + (post + tail);
    ContainsItself(head + body + tail, head + pre, sub, post + tail);
  }

  /** `String.lastIndexOf(char)`: the last position holding `c`, or -1. */
  function LastIndexOf(s: string, c: char): (r: int)
    ensures -1 <= r < |s|
    ensures r >= 0 ==> s[r] == c
    ensures forall k :: r < k < |s| ==> s[k] != c
  {
    if |s| == 0 then -1
    else if s[|s| - 1] == c then |s| - 1
    else LastIndexOf(s[..|s| - 1], c)
  }

  /** ASCII case folding, as `toLowerCase` does for the letters A-Z. */
  function LowerChar(c: char): char {
    if 'A' <= c <= 'Z' then (c as int + 32) as char else c
  }

  function ToLower(s: string): (r: string)
    ensures |r| == |s|
    ensures forall i :: 0 <= i < |s| ==> r[i] == LowerChar(s[i])
  {
    if |s| == 0 then [] else [LowerChar(s[0])] + ToLower(s[1..])
  }

  /** Text without upper-case ASCII letters is its own lower case. */
  lemma {:induction false} ToLowerOfLower(s: string)
    requires forall i :: 0 <= i < |s| ==> !('A' <= s[i] <= 'Z')
    ensures ToLower(s) == s
  {
    if |s| > 0 {
      ToLowerOfLower(s[1..]);
    }
  }

  function UpperChar(c: char): char {
    if 'a' <= c <= 'z' then (c as int - 32) as char else c
  }

  /** `toUpperCase` on the ASCII letters a-z. */
  function ToUpper(s: string): (r: string)
    ensures |r| == |s|
    ensures forall i :: 0 <= i < |s| ==> r[i] == UpperChar(s[i])
  {
    if |s| == 0 then [] else [UpperChar(s[0])] + ToUpper(s[1..])
  }

  /** `String.equalsIgnoreCase` on ASCII letters. */
  predicate EqualsIgnoreCase(a: string, b: string) {
    ToLower(a) == ToLower(b)
  }

  /** Lower-case letters upper-cased one by one give the upper-cased text,
      which upper-casing leaves as it is. */
  lemma ToUpperOfLowerLetters(v: string, n: string)
    requires |v| == |n|
    requires forall i :: 0 <= i < |v| ==> 'a' <= v[i] <= 'z' && n[i] == UpperChar(v[i])
    ensures ToUpper(v) == n && ToUpper(n) == n
  {
    assert forall i :: 0 <= i < |v| ==> ToUpper(v)[i] == n[i] && ToUpper(n)[i] == n[i];
  }

  /** `String.replace("-", "")`. */
  function RemoveDashes(s: string): (r: string)
    ensures '-' !in r && |r| <= |s|
  {
    if |s| == 0 then []
    else if s[0] == '-' then RemoveDashes(s[1..])
    else [s[0]] + RemoveDashes(s[1..])
  }

  predicate IsHexDigit(c: char) {
    ('0' <= c <= '9') || ('a' <= c <= 'f')
  }

  predicate AllHex(s: string) {
    forall i :: 0 <= i < |s| ==> IsHexDigit(s[i])
  }

  /** A random UUID as its five groups of lower-case hex digits (8-4-4-4-12);
      `UUID.toString()` joins them with dashes. */
  datatype Uuid = Uuid(g1: string, g2: string, g3: string, g4: string, g5: string) {
    predicate Valid() {
      |g1| == 8 && |g2| == 4 && |g3| == 4 && |g4| == 4 && |g5| == 12
      && AllHex(g1) && AllHex(g2) && AllHex(g3) && AllHex(g4) && AllHex(g5)
    }
    function Text(): string {
      g1 + "-" + g2 + "-" + g3 + "-" + g4 + "-" + g5
    }
  }

  lemma {:induction false} RemoveDashesOfHex(s: string)
    requires AllHex(s)
    ensures RemoveDashes(s) == s
  {
    if |s| > 0 {
      RemoveDashesOfHex(s[1..]);
    }
  }

  lemma {:induction false} RemoveDashesAppend(a: string, b: string)
    ensures RemoveDashes(a + b) == RemoveDashes(a) + RemoveDashes(b)
  {
    if |a| > 0 {
      assert (a + b)[0] == a[0] && (a + b)[1..] == a[1..] + b;
      RemoveDashesAppend(a[1..], b);
    } else {
      assert a + b == b;
    }
  }

  lemma DashThenHex(pre: string, g: string)
    requires AllHex(g)
    ensures RemoveDashes(pre + "-" + g) == RemoveDashes(pre) + g
  {
    RemoveDashesAppend(pre + "-", g);
    RemoveDashesAppend(pre, "-");
    RemoveDashesOfHex(g);
  }

  /** `UUID.toString().replace("-", "")` is the 32 hex digits of the UUID. */
  lemma UuidWithoutDashes(u: Uuid)
    requires u.Valid()
    ensures RemoveDashes(u.Text()) == u.g1 + u.g2 + u.g3 + u.g4 + u.g5
    ensures |RemoveDashes(u.Text())| == 32 && AllHex(RemoveDashes(u.Text()))
  {
    RemoveDashesOfHex(u.g1);
    DashThenHex(u.g1, u.g2);
    DashThenHex(u.g1 + "-" + u.g2, u.g3);
    DashThenHex(u.g1 + "-" + u.g2 + "-" + u.g3, u.g4);
    DashThenHex(u.g1 + "-" + u.g2 + "-" + u.g3 + "-" + u.g4, u.g5);
    var r := u.g1 + u.g2 + u.g3 + u.g4 + u.g5;
    forall i | 0 <= i < |r| ensures IsHexDigit(r[i]) {
      if i < 8 { assert r[i] == u.g1[i]; }
      else if i < 12 { assert r[i] == u.g2[i - 8]; }
      else if i < 16 { assert r[i] == u.g3[i - 12]; }
      else if i < 20 { assert r[i] == u.g4[i - 16]; }
      else { assert r[i] == u.g5[i - 20]; }
    }
  }

  /** `UUID.toString().substring(0, 8)` is the first group. */
  lemma UuidPrefix(u: Uuid)
    requires u.Valid()
    ensures |u.Text()| == 36 && u.Text()[..8] == u.g1
  {
  }

  // ---------------------------------------------------------------------------
  // Decimal numbers
  // ---------------------------------------------------------------------------

  const LONG_MIN: int := -0x8000_0000_0000_0000
  const LONG_MAX: int := 0x7FFF_FFFF_FFFF_FFFF

  predicate IsDigit(c: char) { '0' <= c <= '9' }

  predicate AllDigits(s: string) {
    forall i :: 0 <= i < |s| ==> IsDigit(s[i])
  }

  function DigitChar(d: nat): (c: char)
    requires d < 10
    ensures IsDigit(c)
  {
    ('0' as int + d) as char
  }

  /** The value of a string of decimal digits, most significant first. */
  function DigitsValue(s: string): nat
    requires AllDigits(s)
  {
    if |s| == 0 then 0
    else DigitsValue(s[..|s| - 1]) * 10 + (s[|s| - 1] as int - '0' as int)
  }

  /** `String.valueOf` of a non-negative number: no leading zeros. */
  function NatToString(n: nat): (s: string)
    ensures |s| >= 1 && AllDigits(s)
  {
    if n < 10 then [DigitChar(n)] else NatToString(n / 10) + [DigitChar(n % 10)]
  }

  /** `String.valueOf(long)` / `%d`. */
  function IntToString(n: int): string {
    if n < 0 then "-" + NatToString(-n) else NatToString(n)
  }

  lemma {:induction false} NatToStringValue(n: nat)
    ensures DigitsValue(NatToString(n)) == n
  {
    if n >= 10 {
      NatToStringValue(n / 10);
      var s := NatToString(n);
      assert s[..|s| - 1] == NatToString(n / 10);
    }
  }

  /** `Long.parseLong`: an optional sign, at least one decimal digit, nothing
      else, and a value inside the 64-bit range; anything else is a
      `NumberFormatException` (None). */
  function ParseLong(s: string): (r: Option<int>)
    ensures r.Some? ==> LONG_MIN <= r.value <= LONG_MAX
  {
    if |s| == 0 then None
    else
      var signed := s[0] == '-' || s[0] == '+';
      var body := if signed then s[1..] else s;
      if |body| == 0 || !AllDigits(body) then None
      else
        var d: int := DigitsValue(body);
        var v := if s[0] == '-' then -d else d;
        if LONG_MIN <= v <= LONG_MAX then Some(v) else None
  }

  /** Every long prints to text that parses back to the same long. */
  lemma ParseLongRoundTrip(n: int)
    requires LONG_MIN <= n <= LONG_MAX
    ensures ParseLong(IntToString(n)) == Some(n)
  {
    var s := IntToString(n);
    if n < 0 {
      var digits := NatToString(-n);
      NatToStringValue(-n);
      assert s == "-" + digits && s[0] == '-' && s[1..] == digits;
    } else {
      NatToStringValue(n);
      assert IsDigit(s[0]);
    }
  }

  /** Text holding a character that is not a digit or a leading sign does not
      parse. */
  lemma ParseLongRejects(s: string, i: int)
    requires 0 <= i < |s| && !IsDigit(s[i])
    requires i > 0 || (s[0] != '-' && s[0] != '+')
    ensures ParseLong(s) == None
  {
    if |s| > 0 && (s[0] == '-' || s[0] == '+') {
      assert s[1..][i - 1] == s[i];
    }
  }
}
