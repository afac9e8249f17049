/**
 Profile and publication ids as text: a hexadecimal number with an even number of digits.

 `PaddedHex` is both the Rust printer and the `toHexString` that Node compares with; `ParseId` is the Rust
 parser, which drops any number of leading `0x`.
 */
module HexIds {
  import opened Prelude
  import opened Text

  const DIGITS := "0123456789abcdef"

  function DigitValue(c: char): Option<nat> {
    if '0' <= c <= '9' then Some(c as int - '0' as int)
    else if 'a' <= c <= 'f' then Some(c as int - 'a' as int + 10)
    else if 'A' <= c <= 'F' then Some(c as int - 'A' as int + 10)
    else None
  }

  function HexDigits(n: nat): (s: string)
    ensures s != ""
  {
    if n < 16 then [DIGITS[n]] else HexDigits(n / 16) + [DIGITS[n % 16]]
  }

  function HexValue(s: string): Option<nat> {
    if s == "" then Some(0)
    else
      var high, low := HexValue(s[..|s| - 1]), DigitValue(s[|s| - 1]);
      if high.None? || low.None? then None else Some(high.value * 16 + low.value)
  }

  function PaddedHex(n: nat): string {
    var digits := HexDigits(n);
    "0x" + (if |digits| % 2 != 0 then "0" + digits else digits)
  }

  function TrimPrefixes(s: string): string {
    if "0x" <= s then TrimPrefixes(s[2..]) else s
  }

  /** A 256-bit number has at most 64 digits. */
  function ParseId(s: string): Option<nat> {
    var digits := TrimPrefixes(s);
    if |digits| > 64 then None else HexValue(digits)
  }

  /** The Rust printer inserts the pad into a local string. */
  method AsStr(n: nat) returns (s: string)
    ensures s == PaddedHex(n)
  {
    s := HexDigits(n);
    if |s| % 2 != 0 {
      s := "0" + s;
    }
    s := "0x" + s;
  }

  function Pow16(k: nat): nat {
    if k == 0 then 1 else 16 * Pow16(k - 1)
  }

  lemma DigitRoundTrip(d: nat)
    requires d < 16
    ensures DigitValue(DIGITS[d]) == Some(d) && DIGITS[d] != 'x'
  {
  }

  lemma MoreDigits(n: nat)
    requires n >= 16
    ensures HexDigits(n) == HexDigits(n / 16) + [DIGITS[n % 16]]
  {
  }

  lemma OneMoreDigit(s: string, c: char)
    requires HexValue(s).Some? && DigitValue(c).Some?
    ensures HexValue(s + [c]) == Some(HexValue(s).value * 16 + DigitValue(c).value)
    ensures Lacks(s, 'x') && c != 'x' ==> Lacks(s + [c], 'x')
  {
    var t := s + [c];
    assert t[..|t| - 1] == s && t[|t| - 1] == c;
  }

  lemma {:induction false} HexRoundTrip(n: nat)
    ensures HexValue(HexDigits(n)) == Some(n)
    ensures Lacks(HexDigits(n), 'x')
  {
    DigitRoundTrip(n % 16);
    if n >= 16 {
      hide HexDigits, HexValue, DigitValue, Lacks;
      HexRoundTrip(n / 16);
      MoreDigits(n);
      OneMoreDigit(HexDigits(n / 16), DIGITS[n % 16]);
    } else {
      assert HexDigits(n)[..0] == "" && HexValue("") == Some(0);
    }
  }

  lemma {:induction false} LeadingZero(s: string)
    ensures HexValue("0" + s) == HexValue(s)
  {
    var t := "0" + s;
    if s == "" {
      assert t[..|t| - 1] == "" && HexValue("") == Some(0);
    } else {
      LeadingZero(s[..|s| - 1]);
      assert t[..|t| - 1] == "0" + s[..|s| - 1];
    }
  }

  /** The number of digits bounds the value and the value the number of digits. */
  lemma {:induction false} DigitCount(n: nat, k: nat)
    requires k > 0
    ensures n < Pow16(k) <==> |HexDigits(n)| <= k
  {
    if n < 16 {
      PowPositive(k - 1);
    } else if k > 1 {
      DigitCount(n / 16, k - 1);
      assert n / 16 < Pow16(k - 1) <==> n < 16 * Pow16(k - 1);
    }
  }

  lemma {:induction false} PowPositive(k: nat)
    ensures Pow16(k) >= 1
  {
    if k > 0 {
      PowPositive(k - 1);
    }
  }

  lemma TrimPrinted(n: nat)
    ensures var s := PaddedHex(n); TrimPrefixes(s) == s[2..] && HexValue(s[2..]) == Some(n)
  {
    var s, digits := PaddedHex(n), HexDigits(n);
    HexRoundTrip(n);
    LeadingZero(digits);
    assert s[2..] == if |digits| % 2 != 0 then "0" + digits else digits;
    assert "0x" <= s;
    if "0x" <= s[2..] {
      PrefixHasX(s[2..]);
    }
  }

  /** All leading prefixes go, and nothing else. */
  lemma {:induction false} PrefixesAreDropped(s: string)
    ensures TrimPrefixes("0x" + s) == TrimPrefixes(s) && ParseId("0x" + s) == ParseId(s)
    ensures if "0x" <= s then !("0x" <= TrimPrefixes(s)) else TrimPrefixes(s) == s
    decreases |s|
  {
    assert ("0x" + s)[2..] == s;
    if "0x" <= s {
      PrefixesAreDropped(s[2..]);
    }
  }

  lemma PrefixHasX(s: string)
    requires "0x" <= s
    ensures !Lacks(s, 'x')
  {
    assert s[1] == "0x"[1];
  }

  /**
   Ids of at most 256 bits are printed as `0x` and an even number of digits, 66 characters at most, and are read
   back as they were; larger ids are not read back.
   */
  lemma PrintParse(n: nat)
    ensures |PaddedHex(n)| % 2 == 0 && "0x" <= PaddedHex(n)
    ensures n < Pow16(64) <==> |PaddedHex(n)| <= 66
    ensures ParseId(PaddedHex(n)) == if n < Pow16(64) then Some(n) else None
  {
    hide Pow16, HexValue, HexDigits, TrimPrefixes;
    TrimPrinted(n);
    DigitCount(n, 64);
  }

  /** No more bytes are printed than the number needs, and no capital letters. */
  lemma {:induction false} PrintedIsMinimal(n: nat, bytes: nat)
    requires bytes > 0
    ensures |PaddedHex(n)| <= 2 + 2 * bytes <==> n < Pow16(2 * bytes)
    ensures Lower(PaddedHex(n)) == PaddedHex(n)
  {
    hide Pow16, HexDigits, Lower;
    DigitCount(n, 2 * bytes);
    DigitsAreLower(n);
    PadIsLower(HexDigits(n));
  }

  lemma {:induction false} PadIsLower(digits: string)
    requires Lower(digits) == digits
    ensures Lower("0x" + digits) == "0x" + digits && Lower("0x" + ("0" + digits)) == "0x" + ("0" + digits)
  {
    LowerAppend("0x", digits);
    LowerAppend("0", digits);
    LowerAppend("0x", "0" + digits);
    assert Lower("0") == "0" && Lower("0x") == "0x";
  }

  lemma {:induction false} DigitsAreLower(n: nat)
    ensures Lower(HexDigits(n)) == HexDigits(n)
  {
    if n >= 16 {
      DigitsAreLower(n / 16);
      LowerAppend(HexDigits(n / 16), [DIGITS[n % 16]]);
    }
    assert Lower([DIGITS[n % 16]]) == [DIGITS[n % 16]];
  }

  lemma LowerAppend(s: string, t: string)
    ensures Lower(s + t) == Lower(s) + Lower(t)
  {
  }

  lemma PrintingIsInjective(m: nat, n: nat)
    ensures PaddedHex(m) == PaddedHex(n) <==> m == n
  {
    TrimPrinted(m);
    TrimPrinted(n);
  }

  lemma {:induction false} ParsedHasNoDash(s: string)
    requires HexValue(TrimPrefixes(s)).Some?
    ensures Lacks(s, '-')
  {
    if "0x" <= s {
      ParsedHasNoDash(s[2..]);
      assert s[0] == "0x"[0] && s[1] == "0x"[1];
      assert forall i :: 2 <= i < |s| ==> s[i] == s[2..][i - 2];
    } else {
      DigitsHaveNoDash(s);
    }
  }

  lemma {:induction false} DigitsHaveNoDash(s: string)
    requires HexValue(s).Some?
    ensures Lacks(s, '-')
  {
    if s != "" {
      DigitsHaveNoDash(s[..|s| - 1]);
    }
  }

  lemma PrintedHasNoDash(n: nat)
    ensures Lacks(PaddedHex(n), '-')
  {
    TrimPrinted(n);
    ParsedHasNoDash(PaddedHex(n));
  }

  // ----- UUIDs: read in any of four forms, printed in one -----

  function Lower(s: string): (t: string)
    ensures |t| == |s|
  {
    seq(|s|, i requires 0 <= i < |s| => if 'A' <= s[i] <= 'F' then (s[i] as int + 32) as char else s[i])
  }

  /** Braces or `urn:uuid:` may stand around the hyphenated form. */
  function Unwrapped(s: string): string {
    if |s| == 38 && s[0] == '{' && s[37] == '}' then s[1..37]
    else if |s| == 45 && "urn:uuid:" <= s then s[9..]
    else s
  }

  predicate Hyphenated(s: string) {
    |s| == 36 && s[8] == s[13] == s[18] == s[23] == '-'
  }

  function Groups(s: string): string
    requires |s| == 36
  {
    s[..8] + s[9..13] + s[14..18] + s[19..23] + s[24..]
  }

  /** The 32 digits of a UUID, in lower case; without hyphens it must stand alone. */
  function ParseUuid(s: string): (r: Option<string>)
    ensures r.Some? ==> |r.value| == 32
  {
    var body := Unwrapped(s);
    var digits := if |s| == 32 then s else if Hyphenated(body) then Groups(body) else "";
    if |digits| == 32 && HexValue(digits).Some? then Some(Lower(digits)) else None
  }

  function PrintUuid(digits: string): string
    requires |digits| == 32
  {
    digits[..8] + "-" + digits[8..12] + "-" + digits[12..16] + "-" + digits[16..20] + "-" + digits[20..]
  }

  lemma LowerDigit(c: char)
    ensures DigitValue(Lower([c])[0]) == DigitValue(c)
    ensures DigitValue(c).Some? ==> Lower([c])[0] != '-' && Lower([c])[0] != '{' && Lower([c])[0] != 'u'
  {
  }

  lemma {:induction false} LowerKeepsValue(s: string)
    ensures HexValue(Lower(s)) == HexValue(s)
    ensures HexValue(s).Some? ==> forall i :: 0 <= i < |s| ==> DigitValue(s[i]).Some?
  {
    if s != "" {
      var n := |s| - 1;
      LowerKeepsValue(s[..n]);
      LowerDigit(s[n]);
      assert Lower(s)[..n] == Lower(s[..n]);
      assert Lower(s)[n] == Lower([s[n]])[0];
    }
  }

  lemma {:induction false} DigitsInjective(c: char, d: char)
    requires DigitValue(c).Some? && DigitValue(c) == DigitValue(d)
    ensures Lower([c]) == Lower([d])
  {
  }

  lemma SplitLastDigit(s: string)
    requires s != "" && HexValue(s).Some?
    ensures var high, low := HexValue(s[..|s| - 1]), DigitValue(s[|s| - 1]);
      high.Some? && low.Some? && low.value < 16 && HexValue(s).value == high.value * 16 + low.value
  {
    DigitIsSmall(s[|s| - 1]);
    hide DigitValue;
  }

  lemma DigitIsSmall(c: char)
    ensures DigitValue(c).Some? ==> DigitValue(c).value < 16
  {
  }

  lemma LowerSnoc(s: string)
    requires s != ""
    ensures Lower(s) == Lower(s[..|s| - 1]) + Lower([s[|s| - 1]])
  {
    LowerAppend(s[..|s| - 1], [s[|s| - 1]]);
    assert s == s[..|s| - 1] + [s[|s| - 1]];
  }

  lemma SameQuotient(a: nat, b: nat, c: nat, d: nat)
    requires c < 16 && d < 16 && a * 16 + c == b * 16 + d
    ensures a == b && c == d
  {
  }

  /** Digits of one length denote the same number if they differ in case at most, and only then. */
  lemma {:induction false} SameValueIff(s: string, t: string)
    requires |s| == |t| && HexValue(s).Some? && HexValue(t).Some?
    ensures HexValue(s) == HexValue(t) <==> Lower(s) == Lower(t)
  {
    LowerKeepsValue(s);
    LowerKeepsValue(t);
    hide HexValue, DigitValue, Lower;
    if s != "" && HexValue(s) == HexValue(t) {
      var n := |s| - 1;
      SplitLastDigit(s);
      SplitLastDigit(t);
      SameQuotient(HexValue(s[..n]).value, HexValue(t[..n]).value, DigitValue(s[n]).value, DigitValue(t[n]).value);
      SameValueIff(s[..n], t[..n]);
      DigitsInjective(s[n], t[n]);
      LowerSnoc(s);
      LowerSnoc(t);
    } else if s == "" {
      assert s == t;
    }
  }

  lemma GroupsOfPrinted(digits: string)
    requires |digits| == 32
    ensures Hyphenated(PrintUuid(digits)) && Groups(PrintUuid(digits)) == digits
  {
    var s := PrintUuid(digits);
    assert s[..8] == digits[..8] && s[9..13] == digits[8..12] && s[14..18] == digits[12..16];
    assert s[19..23] == digits[16..20] && s[24..] == digits[20..];
    assert digits == digits[..8] + digits[8..12] + digits[12..16] + digits[16..20] + digits[20..];
  }

  /** What was read is printed so that it is read back as the same UUID. */
  lemma UuidRoundTrip(s: string)
    requires ParseUuid(s).Some?
    ensures ParseUuid(PrintUuid(ParseUuid(s).value)) == ParseUuid(s)
  {
    var digits := ParseUuid(s).value;
    var body := if |s| == 32 then s else Groups(Unwrapped(s));
    GroupsOfPrinted(digits);
    LowerKeepsValue(body);
    assert Lower(Lower(body)) == Lower(body);
  }

  /** A hyphenated UUID is printed as it was written, in lower case, whether braces or `urn:uuid:` stood around it. */
  lemma {:induction false} UuidIsPrintedInLowerCase(s: string)
    requires Hyphenated(s) && HexValue(Groups(s)).Some?
    ensures ParseUuid(s).Some? && PrintUuid(ParseUuid(s).value) == Lower(s)
    ensures ParseUuid("{" + s + "}") == ParseUuid(s) == ParseUuid("urn:uuid:" + s)
  {
    assert |Groups(s)| == 32;
    hide HexValue, Lower, PrintUuid, Groups;
    assert Unwrapped(s) == s && Unwrapped("{" + s + "}") == s && Unwrapped("urn:uuid:" + s) == s by {
      WrappingIsRemoved(s);
    }
    PrintedGroups(s);
  }

  ghost predicate UuidDigits(t: string) {
    Hyphenated(t) && HexValue(Groups(t)).Some?
  }

  /** The four forms in which a UUID is read. */
  lemma {:induction false} UuidFormsIff(s: string)
    ensures ParseUuid(s).Some? <==>
      || (|s| == 32 && HexValue(s).Some?)
      || UuidDigits(s)
      || (exists t :: UuidDigits(t) && s == "{" + t + "}")
      || (exists t :: UuidDigits(t) && s == "urn:uuid:" + t)
  {
    hide HexValue;
    if ParseUuid(s).Some? && |s| != 32 {
      var t := Unwrapped(s);
      assert UuidDigits(t);
      assert |s| == 38 ==> s == "{" + t + "}";
      assert |s| == 45 ==> s == "urn:uuid:" + t;
    }
    if t :| UuidDigits(t) && (s == t || s == "{" + t + "}" || s == "urn:uuid:" + t) {
      WrappingIsRemoved(t);
    }
  }

  lemma {:induction false} WrappingIsRemoved(s: string)
    requires |s| == 36
    ensures Unwrapped(s) == s && Unwrapped("{" + s + "}") == s && Unwrapped("urn:uuid:" + s) == s
  {
    var braced, urn := "{" + s + "}", "urn:uuid:" + s;
    assert braced[1..37] == s && urn[9..] == s && braced[0] == '{' && braced[37] == '}';
  }

  lemma {:induction false} PrintedGroups(s: string)
    requires Hyphenated(s)
    ensures PrintUuid(Lower(Groups(s))) == Lower(s)
  {
    var t := Lower(s);
    assert Lower(Groups(s)) == Groups(t) by {
      var a, b, c, d, e := s[..8], s[9..13], s[14..18], s[19..23], s[24..];
      assert Lower(a) == t[..8] && Lower(b) == t[9..13] && Lower(c) == t[14..18];
      assert Lower(d) == t[19..23] && Lower(e) == t[24..];
      LowerAppend(a, b);
      LowerAppend(a + b, c);
      LowerAppend(a + b + c, d);
      LowerAppend(a + b + c + d, e);
    }
    assert Hyphenated(t);
    hide Lower;
    Rejoined(t);
  }

  /** Taking the groups out and putting the hyphens in. */
  lemma {:induction false} Rejoined(t: string)
    requires Hyphenated(t)
    ensures |Groups(t)| == 32 && PrintUuid(Groups(t)) == t
  {
    var digits := Groups(t);
    assert digits[..8] == t[..8] && digits[8..12] == t[9..13] && digits[12..16] == t[14..18];
    assert digits[16..20] == t[19..23] && digits[20..] == t[24..];
    assert t == t[..8] + "-" + t[9..13] + "-" + t[14..18] + "-" + t[19..23] + "-" + t[24..];
  }

  lemma {:induction false} HeadOfLacking(s: string, rest: string)
    requires Lacks(s, '-')
    ensures Head(s + "-" + rest, '-') == s && Head(s, '-') == s
  {
    if s == "" {
      assert (s + "-" + rest)[0] == '-';
    } else {
      assert (s + "-" + rest)[0] == s[0] && (s + "-" + rest)[1..] == s[1..] + "-" + rest;
      HeadOfLacking(s[1..], rest);
    }
  }

  lemma SimpleFirstGroup(s: string)
    requires |s| == 32 && HexValue(s).Some?
    ensures |Head(s, '-')| == 32
  {
    DigitsHaveNoDash(s);
    HeadOfLacking(s, "");
  }

  lemma HyphenatedFirstGroup(s: string)
    requires Hyphenated(s) && HexValue(Groups(s)).Some?
    ensures Head(s, '-') == s[..8] && Lower(Groups(s))[..8] == Lower(s[..8])
  {
    hide HexValue;
    DigitsHaveNoDash(Groups(s));
    assert s[..8] == Groups(s)[..8] && Lacks(s[..8], '-');
    assert s == s[..8] + "-" + s[9..];
    HeadOfLacking(s[..8], s[9..]);
  }

  lemma WrappedFirstGroup(s: string, body: string)
    requires (|s| == 38 && s[0] == '{') || (|s| == 45 && "urn:uuid:" <= s)
    requires |body| == 32 && HexValue(body).Some?
    ensures Head(s, '-') != Lower(body)[..8]
  {
    hide HexValue;
    WrappedHead(s);
    LowerKeepsValue(body);
    LowerDigit(body[0]);
    assert Lower(body)[..8][0] == Lower(body)[0] == Lower([body[0]])[0];
  }

  /** The first group, as printed, is that of the text exactly in hyphenated form with a lower case first group. */
  lemma SameFirstGroupIff(s: string)
    requires ParseUuid(s).Some?
    ensures Head(s, '-') == Head(PrintUuid(ParseUuid(s).value), '-') <==> |s| == 36 && s[..8] == Lower(s[..8])
  {
    hide HexValue, Head, PrintUuid, Lower;
    var body := if |s| == 32 then s else Groups(Unwrapped(s));
    var digits := ParseUuid(s).value;
    LowerKeepsValue(body);
    DigitsHaveNoDash(digits);
    PrintedHead(digits);
    if |s| == 32 {
      SimpleFirstGroup(s);
    } else if |s| == 36 {
      HyphenatedFirstGroup(s);
    } else {
      WrappedFirstGroup(s, body);
    }
  }

  lemma PrintedHead(digits: string)
    requires |digits| == 32 && Lacks(digits, '-')
    ensures Head(PrintUuid(digits), '-') == digits[..8]
  {
    var rest := digits[8..12] + "-" + digits[12..16] + "-" + digits[16..20] + "-" + digits[20..];
    assert PrintUuid(digits) == digits[..8] + "-" + rest;
    HeadOfLacking(digits[..8], rest);
  }

  /** In braces or as a URN the text before the first hyphen does not start with a digit. */
  lemma WrappedHead(s: string)
    requires (|s| == 38 && s[0] == '{') || (|s| == 45 && "urn:uuid:" <= s)
    ensures Head(s, '-') != "" && (Head(s, '-')[0] == '{' || Head(s, '-')[0] == 'u')
  {
    assert |s| == 45 ==> s[0] == "urn:uuid:"[0];
  }

  // ----- Publication ids -----

  /** Node works on the texts it finds in the event. */
  function GeneratePublicationId(profileId: string, pubId: string, dataAvailabilityId: string): string {
    profileId + "-" + pubId + "-DA-" + Head(dataAvailabilityId, '-')
  }

  /** Rust prints the numbers and the UUID it has read. */
  function FormatPublicationId(profileId: nat, pubId: nat, uuidDigits: string): string
    requires |uuidDigits| == 32
  {
    PaddedHex(profileId) + "-" + PaddedHex(pubId) + "-DA-" + Head(PrintUuid(uuidDigits), '-')
  }

  /** A publication id determines the profile id, the publication number and the first group of the UUID. */
  lemma PublicationIdIsDecodable(p: string, q: string, da: string, p': string, q': string, da': string)
    requires Lacks(p, '-') && Lacks(q, '-') && Lacks(p', '-') && Lacks(q', '-')
    ensures GeneratePublicationId(p, q, da) == GeneratePublicationId(p', q', da')
      <==> p == p' && q == q' && Head(da, '-') == Head(da', '-')
  {
    if GeneratePublicationId(p, q, da) == GeneratePublicationId(p', q', da') {
      var u, v := "DA-" + Head(da, '-'), "DA-" + Head(da', '-');
      var rest, rest' := q + ['-'] + u, q' + ['-'] + v;
      assert GeneratePublicationId(p, q, da) == p + ['-'] + rest;
      assert GeneratePublicationId(p', q', da') == p' + ['-'] + rest';
      SplitUnique(p, p', '-', rest, rest');
      SplitUnique(q, q', '-', u, v);
      assert u[3..] == Head(da, '-') && v[3..] == Head(da', '-');
    }
  }

  /**
   Node and Rust generate the same id exactly if both ids in the event are written as Rust prints them and the
   UUID is hyphenated with its first group in lower case.
   */
  lemma NodeAndRustIdsAgreeIff(p: string, q: string, da: string)
    requires ParseId(p).Some? && ParseId(q).Some? && ParseUuid(da).Some?
    ensures GeneratePublicationId(p, q, da)
         == FormatPublicationId(ParseId(p).value, ParseId(q).value, ParseUuid(da).value)
      <==> && p == PaddedHex(ParseId(p).value) && q == PaddedHex(ParseId(q).value)
           && |da| == 36 && da[..8] == Lower(da[..8])
  {
    var m, n, uuid := ParseId(p).value, ParseId(q).value, PrintUuid(ParseUuid(da).value);
    ParsedHasNoDash(p);
    ParsedHasNoDash(q);
    PrintedHasNoDash(m);
    PrintedHasNoDash(n);
    PublicationIdIsDecodable(p, q, da, PaddedHex(m), PaddedHex(n), uuid);
    SameFirstGroupIff(da);
  }
}
