/** Shared text helpers: the Option type used for Java's null and
    exception results, decimal rendering (Integer.toString) and decimal
    parsing (Integer.parseInt / Short.parseShort) on text whose digits are
    ASCII '0'-'9'; Java also reads other Unicode decimal digits, which this
    model leaves out. */
module Text {

  datatype Option<+T> = None | Some(value: T)

  /** Java's int and short ranges. */
  const INT_MIN: int := -0x8000_0000
  const INT_MAX: int := 0x7fff_ffff
  const SHORT_MIN: int := -0x8000
  const SHORT_MAX: int := 0x7fff

  predicate IsDigit(c: char) {
    '0' <= c <= '9'
  }

  predicate AllDigits(s: string) {
    forall i :: 0 <= i < |s| ==> IsDigit(s[i])
  }

  function DigitValue(c: char): (d: nat)
    requires IsDigit(c)
    ensures d < 10
  {
    c as int - '0' as int
  }

  function DigitChar(d: nat): (c: char)
    requires d < 10
    ensures IsDigit(c) && DigitValue(c) == d
  {
    ('0' as int + d) as char
  }

  /** The value of a string of decimal digits, most significant first. */
  function DigitsValue(s: string): nat
    requires AllDigits(s)
    decreases |s|
  {
    if s == [] then 0 else DigitsValue(s[..|s| - 1]) * 10 + DigitValue(s[|s| - 1])
  }

  /** Integer.toString of a non-negative value: the shortest decimal digit
      string denoting n. */
  function NatToString(n: nat): (s: string)
    ensures |s| >= 1 && AllDigits(s)
    ensures DigitsValue(s) == n
    ensures |s| > 1 ==> s[0] != '0'
    decreases n
  {
    if n < 10 then [DigitChar(n)]
    else
      var prefix := NatToString(n / 10);
      var s := prefix + [DigitChar(n % 10)];
      assert s[..|s| - 1] == prefix;
      s
  }

  /** Integer.toString: a leading '-' for negative values. */
  function IntToString(n: int): (s: string)
    ensures |s| >= 1
    ensures n >= 0 ==> s == NatToString(n)
    ensures n < 0 ==> s == "-" + NatToString(-n)
  {
    if n < 0 then "-" + NatToString(-n) else NatToString(n)
  }

  /** Integer.parseInt (lo, hi = the int range) and Short.parseShort
      (lo, hi = the short range): an optional '+' or '-', then one or more
      digits, and a value inside [lo, hi]; anything else is a
      NumberFormatException, here None. */
  function ParseInteger(s: string, lo: int, hi: int): (r: Option<int>)
    ensures r.Some? ==> lo <= r.value <= hi
    ensures r.Some? ==> exists k :: 0 <= k <= 1 && k < |s| && AllDigits(s[k..])
  {
    if |s| == 0 then None
    else
      var negative := s[0] == '-';
      var k := if s[0] == '-' || s[0] == '+' then 1 else 0;
      if k == |s| || !AllDigits(s[k..]) then None
      else
        var magnitude: int := DigitsValue(s[k..]);
        var v := if negative then 0 - magnitude else magnitude;
        if lo <= v <= hi then Some(v) else None
  }

  function ParseInt(s: string): (r: Option<int>)
    ensures r.Some? ==> INT_MIN <= r.value <= INT_MAX
  {
    ParseInteger(s, INT_MIN, INT_MAX)
  }

  function ParseShort(s: string): (r: Option<int>)
    ensures r.Some? ==> SHORT_MIN <= r.value <= SHORT_MAX
  {
    ParseInteger(s, SHORT_MIN, SHORT_MAX)
  }

  /** Integer.parseInt(Integer.toString(n)) == n: the rendering used when a
      fingerprint id is sent to a device is read back unchanged. */
  lemma {:induction false} ParseIntToString(n: int, lo: int, hi: int)
    requires lo <= n <= hi
    ensures ParseInteger(IntToString(n), lo, hi) == Some(n)
  {
    var s := IntToString(n);
    if n < 0 {
      assert s[0] == '-' && s[1..] == NatToString(-n);
    } else {
      assert s == NatToString(n);
      assert s[0] != '-' && s[0] != '+';
      assert s[0..] == s;
    }
  }

  /** Two digit strings without leading zeros denote the same value only if
      they are equal; so Integer.toString is injective. */
  lemma {:induction false} NatToStringInjective(m: nat, n: nat)
    requires NatToString(m) == NatToString(n)
    ensures m == n
  {
  }
  /** The index of the first c in s at or after `from`, or |s|. */
  function FindChar(s: string, c: char, from: nat): (i: nat)
    requires from <= |s|
    ensures from <= i <= |s|
    ensures i < |s| ==> s[i] == c
    ensures forall k :: from <= k < i ==> s[k] != c
    decreases |s| - from
  {
    if from == |s| || s[from] == c then from else FindChar(s, c, from + 1)
  }

  lemma {:induction false} FindFirst(s: string, c: char, from: nat, i: nat)
    requires from <= i < |s| && s[i] == c
    requires forall k :: from <= k < i ==> s[k] != c
    ensures FindChar(s, c, from) == i
  {
  }

  /** 10 to the power n. */
  function Pow10(n: nat): (p: nat)
    ensures p >= 1
  {
    if n == 0 then 1 else 10 * Pow10(n - 1)
  }

  /** n digits denote less than 10 to the power n. */
  lemma {:induction false} DigitsValueBelow(s: string)
    requires AllDigits(s)
    ensures DigitsValue(s) < Pow10(|s|)
    decreases |s|
  {
    if s != [] {
      DigitsValueBelow(s[..|s| - 1]);
    }
  }

  /** Integer.parseInt reads one to four plain digits as their value. */
  lemma ParseShortDigits(s: string)
    requires 1 <= |s| <= 4 && AllDigits(s)
    ensures ParseInt(s) == Some(DigitsValue(s) as int)
  {
    DigitsValueBelow(s);
    assert Pow10(|s|) <= 10000 by {
      assert Pow10(4) == 10000;
      if |s| < 4 { assert Pow10(3) == 1000; }
      if |s| < 3 { assert Pow10(2) == 100; }
      if |s| < 2 { assert Pow10(1) == 10; }
    }
    assert s[0] != '-' && s[0] != '+' by { assert IsDigit(s[0]); }
    assert s[0..] == s;
  }

  /** The pieces of s between occurrences of c, empty pieces included. */
  function Fields(s: string, c: char): (r: seq<string>)
    ensures |r| >= 1
    ensures forall k :: 0 <= k < |r| ==> c !in r[k]
    decreases |s|
  {
    var i := FindChar(s, c, 0);
    if i == |s| then [s] else [s[..i]] + Fields(s[i + 1..], c)
  }

  /** Java drops the trailing empty pieces when splitting with limit 0. */
  function DropTrailingEmpty(p: seq<string>): (r: seq<string>)
    ensures |r| <= |p| && r == p[..|r|]
    ensures r == [] || r[|r| - 1] != ""
    ensures forall k :: |r| <= k < |p| ==> p[k] == ""
  {
    if p != [] && p[|p| - 1] == "" then DropTrailingEmpty(p[..|p| - 1]) else p
  }

  /** String.split on a single ordinary character: the input itself when
      the character does not occur, otherwise the pieces between
      occurrences without the trailing empty ones (so " " splits to []). */
  function Split(s: string, c: char): seq<string> {
    if c !in s then [s] else DropTrailingEmpty(Fields(s, c))
  }

  /** The pieces joined with c between them. */
  function Join(parts: seq<string>, c: char): string
    requires |parts| >= 1
  {
    if |parts| == 1 then parts[0] else parts[0] + [c] + Join(parts[1..], c)
  }

  /** Splitting at every c undoes joining with c. */
  lemma {:induction false} FieldsJoin(parts: seq<string>, c: char)
    requires |parts| >= 1
    requires forall k :: 0 <= k < |parts| ==> c !in parts[k]
    ensures Fields(Join(parts, c), c) == parts
    decreases |parts|
  {
    var s := Join(parts, c);
    if |parts| > 1 {
      var rest := Join(parts[1..], c);
      var n := |parts[0]|;
      assert s == parts[0] + [c] + rest;
      assert forall k :: 0 <= k < n ==> s[k] == parts[0][k];
      FindFirst(s, c, 0, n);
      assert s[..n] == parts[0];
      assert s[n + 1..] == rest;
      FieldsJoin(parts[1..], c);
      assert Fields(s, c) == [parts[0]] + Fields(rest, c);
      assert parts == [parts[0]] + parts[1..];
    } else {
      assert s == parts[0] && c !in s;
    }
  }

  /** The round trip of String.split: pieces that do not contain the
      separator, the last one non-empty, come back from splitting their
      join. */
  lemma SplitJoin(parts: seq<string>, c: char)
    requires |parts| >= 1 && parts[|parts| - 1] != ""
    requires forall k :: 0 <= k < |parts| ==> c !in parts[k]
    ensures Split(Join(parts, c), c) == parts
  {
    FieldsJoin(parts, c);
    var s := Join(parts, c);
    if c in s {
      assert DropTrailingEmpty(parts) == parts;
    } else {
      assert Fields(s, c) == [s];
    }
  }

  /** Reading one more digit: the value of a prefix grows by a decimal
      place. */
  lemma DigitsValueStep(s: string, k: nat)
    requires k < |s| && AllDigits(s)
    ensures AllDigits(s[..k]) && AllDigits(s[..k + 1])
    ensures DigitsValue(s[..k + 1]) == 10 * DigitsValue(s[..k]) + DigitValue(s[k])
  {
    assert s[..k + 1][..k] == s[..k];
  }

  /** A digit string without a leading zero is the decimal form of its
      value. */
  lemma {:induction false} CanonicalDigits(s: string)
    requires |s| >= 1 && AllDigits(s) && (|s| > 1 ==> s[0] != '0')
    ensures NatToString(DigitsValue(s)) == s
    decreases |s|
  {
    var n := DigitsValue(s);
    var last := s[|s| - 1];
    assert DigitChar(DigitValue(last)) == last;
    if |s| == 1 {
      assert s[..0] == [];
    } else {
      var p := s[..|s| - 1];
      assert AllDigits(p) && p[0] == s[0];
      CanonicalDigits(p);
      assert p != NatToString(0);
      assert n == DigitsValue(p) * 10 + DigitValue(last);
      assert n / 10 == DigitsValue(p) && n % 10 == DigitValue(last);
      assert s == p + [last];
    }
  }

  /** The decimal digits of a number of two to five digits: the digits
      returned weigh n, and NatToString writes them most significant
      first. */
  lemma TwoDigits(n: nat) returns (a: nat, b: nat)
    requires 10 <= n < 100
    ensures 1 <= a < 10 && b < 10 && n == 10 * a + b
    ensures NatToString(n) == [DigitChar(a), DigitChar(b)]
  {
    a, b := n / 10, n % 10;
    assert NatToString(n) == NatToString(a) + [DigitChar(b)];
  }

  lemma ThreeDigits(n: nat) returns (a: nat, b: nat, c: nat)
    requires 100 <= n < 1000
    ensures 1 <= a < 10 && b < 10 && c < 10 && n == 100 * a + 10 * b + c
    ensures NatToString(n) == [DigitChar(a), DigitChar(b), DigitChar(c)]
  {
    a, b := TwoDigits(n / 10);
    c := n % 10;
    assert NatToString(n) == NatToString(n / 10) + [DigitChar(c)];
  }

  lemma FourDigits(n: nat) returns (a: nat, b: nat, c: nat, d: nat)
    requires 1000 <= n < 10000
    ensures 1 <= a < 10 && b < 10 && c < 10 && d < 10
    ensures n == 1000 * a + 100 * b + 10 * c + d
    ensures NatToString(n) == [DigitChar(a), DigitChar(b), DigitChar(c), DigitChar(d)]
  {
    a, b, c := ThreeDigits(n / 10);
    d := n % 10;
    assert NatToString(n) == NatToString(n / 10) + [DigitChar(d)];
  }

  lemma FiveDigits(n: nat) returns (a: nat, b: nat, c: nat, d: nat, e: nat)
    requires 10000 <= n < 100000
    ensures 1 <= a < 10 && b < 10 && c < 10 && d < 10 && e < 10
    ensures n == 10000 * a + 1000 * b + 100 * c + 10 * d + e
    ensures NatToString(n) == [DigitChar(a), DigitChar(b), DigitChar(c), DigitChar(d), DigitChar(e)]
  {
    a, b, c, d := FourDigits(n / 10);
    e := n % 10;
    assert NatToString(n) == NatToString(n / 10) + [DigitChar(e)];
  }

  // Java regular-expression primitives.

  /** Java's \w class: ASCII letters, digits and underscore. */
  predicate IsWordChar(c: char) {
    'a' <= c <= 'z' || 'A' <= c <= 'Z' || '0' <= c <= '9' || c == '_'
  }

  predicate WordAt(s: string, i: int) {
    0 <= i < |s| && IsWordChar(s[i])
  }

  /** \b at position i: a word character on exactly one side. */
  predicate BoundaryAt(s: string, i: int) {
    WordAt(s, i - 1) != WordAt(s, i)
  }

  predicate IsAsciiLetterOrDigit(c: char) {
    'a' <= c <= 'z' || 'A' <= c <= 'Z' || '0' <= c <= '9'
  }

  /** The two Unicode classes Java's \b consults besides its ASCII word
      test: Character.getType(c) == NON_SPACING_MARK and
      Character.isLetterOrDigit(c). The model carries no Unicode tables, so
      they are parameters. */
  datatype UnicodeClasses = UnicodeClasses(isNonSpacingMark: char -> bool, isLetterOrDigit: char -> bool)

  /** What Unicode guarantees of the two classes: ASCII letters and digits
      are letters or digits, and no ASCII word character is a mark. */
  predicate Consistent(u: UnicodeClasses) {
    && (forall c :: IsAsciiLetterOrDigit(c) ==> u.isLetterOrDigit(c))
    && (forall c :: IsWordChar(c) ==> !u.isNonSpacingMark(c))
  }

  /** Pattern.hasBaseCharacter: walking back from x over non-spacing
      marks reaches a letter or digit before anything else. */
  predicate HasBaseCharacter(u: UnicodeClasses, s: string, x: int)
    requires x < |s|
    decreases x
  {
    0 <= x && (u.isLetterOrDigit(s[x]) || (u.isNonSpacingMark(s[x]) && HasBaseCharacter(u, s, x - 1)))
  }

  /** The word test inside Java's \b (JDK 19 and later): an ASCII word
      character, or a non-spacing mark that has a base character. */
  predicate JavaWordAt(u: UnicodeClasses, s: string, i: int) {
    0 <= i < |s| && (IsWordChar(s[i]) || (u.isNonSpacingMark(s[i]) && HasBaseCharacter(u, s, i)))
  }

  /** Java's \b at position i (Pattern.Bound.check). */
  predicate JavaBoundaryAt(u: UnicodeClasses, s: string, i: int) {
    JavaWordAt(u, s, i - 1) != JavaWordAt(u, s, i)
  }

  /** With no non-spacing mark on either side of position i, Java's \b
      and the model's ASCII \b agree. */
  lemma BoundaryAgrees(u: UnicodeClasses, s: string, i: int)
    requires !(0 <= i < |s| && u.isNonSpacingMark(s[i]))
    requires !(0 <= i - 1 < |s| && u.isNonSpacingMark(s[i - 1]))
    ensures JavaBoundaryAt(u, s, i) == BoundaryAt(s, i)
  {
  }

  /** A non-spacing mark right after an ASCII letter or digit continues
      the word for Java's \b, where the ASCII \b sees a boundary. */
  lemma MarkContinuesWord(u: UnicodeClasses, s: string, i: int)
    requires Consistent(u)
    requires 0 < i < |s| && IsAsciiLetterOrDigit(s[i - 1]) && u.isNonSpacingMark(s[i])
    ensures !JavaBoundaryAt(u, s, i) && BoundaryAt(s, i)
  {
    assert HasBaseCharacter(u, s, i - 1);
  }

  /** The characters Java's '.' refuses to match. */
  predicate IsLineTerminator(c: char) {
    c == '\n' || c == '\r' || c == '\U{85}' || c == '\U{2028}' || c == '\U{2029}'
  }
}
