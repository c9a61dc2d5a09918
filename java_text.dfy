/**
 * The few java.lang.String and Integer operations the application relies on,
 * with their Java semantics written out: decimal formatting of an int (as in
 * `"Error:" + status`), `startsWith`, `split(" ", 2)`, `split("@")[0]`,
 * `substring(begin)` and the ASCII case of `getBytes()`.
 *
 * Strings are sequences of Unicode scalar values; Java counts UTF-16 code
 * units. The two agree on every string these operations are applied to in
 * the model's lemmas (commands, MAC addresses, fixed messages).
 */
module JavaText {
  import opened Wrappers

  /* ---------- Integer.toString ---------- */

  predicate IsDigit(c: char) { '0' <= c <= '9' }

  predicate AllDigits(s: string) { forall i :: 0 <= i < |s| ==> IsDigit(s[i]) }

  function DigitChar(d: nat): (c: char)
    requires d < 10
    ensures IsDigit(c) && c as int - '0' as int == d
  {
    ('0' as int + d) as char
  }

  /** Decimal digits of n, most significant first, without leading zeros. */
  function NatToDecimal(n: nat): (r: string)
    ensures |r| >= 1 && AllDigits(r)
    ensures |r| > 1 ==> r[0] != '0'
  {
    if n < 10 then [DigitChar(n)] else NatToDecimal(n / 10) + [DigitChar(n % 10)]
  }

  /** Java's decimal rendering of an integer, `"" + n`. */
  function IntToDecimal(n: int): (r: string)
    ensures |r| >= 1
    ensures n < 0 <==> r[0] == '-'
  {
    if n < 0 then "-" + NatToDecimal(-n) else NatToDecimal(n)
  }

  /** The value of a string of decimal digits (the inverse of NatToDecimal). */
  function DigitsValue(s: string): nat
    requires AllDigits(s)
  {
    if s == [] then 0
    else DigitsValue(s[..|s| - 1]) * 10 + (s[|s| - 1] as int - '0' as int)
  }

  /** Integer.parseInt restricted to an optional '-' followed by digits. */
  function ParseDecimal(s: string): Option<int>
  {
    if |s| > 1 && s[0] == '-' && AllDigits(s[1..]) then Some(0 - DigitsValue(s[1..]) as int)
    else if |s| > 0 && AllDigits(s) then Some(DigitsValue(s))
    else None
  }

  lemma {:induction false} NatToDecimalValue(n: nat)
    ensures DigitsValue(NatToDecimal(n)) == n
  {
    if n >= 10 {
      var prefix := NatToDecimal(n / 10);
      var s := prefix + [DigitChar(n % 10)];
      assert s[..|s| - 1] == prefix;
      NatToDecimalValue(n / 10);
    }
  }

  /** Formatting an integer and parsing it back gives the integer. */
  lemma IntToDecimalRoundTrip(n: int)
    ensures ParseDecimal(IntToDecimal(n)) == Some(n)
  {
    var s := IntToDecimal(n);
    if n < 0 {
      var digits := NatToDecimal(-n);
      assert s == "-" + digits;
      assert s[1..] == digits;
      NatToDecimalValue(-n);
      assert ParseDecimal(s) == Some(0 - DigitsValue(digits) as int);
    } else {
      assert s == NatToDecimal(n);
      assert IsDigit(s[0]);
      NatToDecimalValue(n);
      assert ParseDecimal(s) == Some(DigitsValue(s));
    }
  }

  /**
   * d is the text Java writes for n: it parses back to n, has no leading
   * zero (except "0" itself) and no "-0".
   */
  predicate JavaDecimal(d: string, n: int)
  {
    && ParseDecimal(d) == Some(n)
    && |d| >= 1
    && (if d[0] == '-' then |d| >= 2 && d[1] != '0' else |d| == 1 || d[0] != '0')
  }

  lemma NatToDecimalLead(n: nat)
    requires n >= 1
    ensures NatToDecimal(n)[0] != '0'
  {
  }

  /** Java's rendering of every int has the canonical form. */
  lemma IntToDecimalIsJavaDecimal(n: int)
    ensures JavaDecimal(IntToDecimal(n), n)
  {
    IntToDecimalRoundTrip(n);
    if n < 0 {
      NatToDecimalLead(-n);
      assert IntToDecimal(n)[1..] == NatToDecimal(-n);
    }
  }

  /** A digit string with a non-zero leading digit has a positive value. */
  lemma {:induction false} LeadingDigitPositive(s: string)
    requires |s| >= 1 && AllDigits(s) && s[0] != '0'
    ensures DigitsValue(s) >= 1
  {
    if |s| > 1 {
      LeadingDigitPositive(s[..|s| - 1]);
    }
  }

  /** A digit string without leading zeros is the rendering of its value. */
  lemma {:induction false} CanonicalDigits(s: string)
    requires |s| >= 1 && AllDigits(s) && (|s| == 1 || s[0] != '0')
    ensures NatToDecimal(DigitsValue(s)) == s
  {
    var m := DigitsValue(s);
    if |s| > 1 {
      var p := s[..|s| - 1];
      var c := s[|s| - 1] as int - '0' as int;
      LeadingDigitPositive(p);
      CanonicalDigits(p);
      assert m / 10 == DigitsValue(p) && m % 10 == c;
      assert DigitChar(c) == s[|s| - 1];
      assert s == p + [s[|s| - 1]];
    } else {
      assert s[..0] == [] && IsDigit(s[0]);
      assert DigitsValue(s[..0]) == 0;
      assert m == s[0] as int - '0' as int;
      assert s == [DigitChar(m)];
    }
  }

  /** The canonical text of an int is unique: it is Java's rendering. */
  lemma JavaDecimalUnique(d: string, n: int)
    requires JavaDecimal(d, n)
    ensures d == IntToDecimal(n)
  {
    if d[0] == '-' {
      assert !IsDigit(d[0]);
      var digits := d[1..];
      LeadingDigitPositive(digits);
      CanonicalDigits(digits);
      assert d == "-" + digits;
    } else {
      CanonicalDigits(d);
    }
  }

  /** Distinct integers have distinct decimal renderings. */
  lemma IntToDecimalInjective(a: int, b: int)
    ensures IntToDecimal(a) == IntToDecimal(b) ==> a == b
  {
    IntToDecimalRoundTrip(a);
    IntToDecimalRoundTrip(b);
  }

  /* ---------- startsWith, indexOf ---------- */

  predicate StartsWith<T(==)>(s: seq<T>, prefix: seq<T>)
  {
    |prefix| <= |s| && s[..|prefix|] == prefix
  }

  /**
   * String.indexOf(c) and List.indexOf(x): the first position holding the
   * element, with |s| standing for Java's -1 (not found).
   */
  function IndexOf<T(==)>(s: seq<T>, c: T): (i: nat)
    ensures i <= |s|
    ensures i < |s| ==> s[i] == c
    ensures forall k :: 0 <= k < i ==> s[k] != c
  {
    if s == [] then 0
    else if s[0] == c then 0
    else 1 + IndexOf(s[1..], c)
  }

  lemma {:induction false} IndexOfJoin(a: string, c: char, b: string)
    requires c !in a
    ensures IndexOf(a + [c] + b, c) == |a|
  {
    if a != [] {
      assert (a + [c] + b)[1..] == a[1..] + [c] + b;
      IndexOfJoin(a[1..], c, b);
    }
  }

  /* ---------- split(" ", 2) ---------- */

  /**
   * `s.split(sep, 2)` for a one-character separator: the text before the
   * first separator and everything after it, or the whole string when the
   * separator does not occur. A positive limit keeps trailing empty strings.
   */
  function SplitLimit2(s: string, sep: char): (tokens: seq<string>)
    ensures 1 <= |tokens| <= 2
    ensures |tokens| == 1 <==> sep !in s
    ensures |tokens| == 1 ==> tokens[0] == s
    ensures |tokens| == 2 ==> sep !in tokens[0] && tokens[0] + [sep] + tokens[1] == s
  {
    var i := IndexOf(s, sep);
    if i == |s| then [s]
    else
      assert s[..i] + [sep] + s[i + 1..] == s by {
        assert s == s[..i] + [s[i]] + s[i + 1..];
      }
      [s[..i], s[i + 1..]]
  }

  /** Splitting `a + sep + b` at its first separator recovers a and b. */
  lemma SplitLimit2OfJoin(a: string, sep: char, b: string)
    requires sep !in a
    ensures SplitLimit2(a + [sep] + b, sep) == [a, b]
  {
    var s := a + [sep] + b;
    IndexOfJoin(a, sep, b);
    assert s[..|a|] == a;
    assert s[|a| + 1..] == b;
  }

  /* ---------- split("@")[0] ---------- */

  /**
   * Element 0 of `s.split(sep)` (limit 0): the text before the first
   * separator, or s itself when the separator does not occur. Limit 0
   * removes trailing empty strings, so a non-empty string made only of
   * separators splits into no elements and indexing it throws (None).
   */
  function FirstSplitPiece(s: string, sep: char): (r: Option<string>)
    ensures r.None? <==> |s| > 0 && forall k :: 0 <= k < |s| ==> s[k] == sep
    ensures r.Some? ==> StartsWith(s, r.value) && sep !in r.value
    ensures r.Some? && |r.value| < |s| ==> s[|r.value|] == sep
  {
    if sep !in s then
      assert |s| > 0 ==> s[0] != sep;
      Some(s)
    else if forall k :: 0 <= k < |s| ==> s[k] == sep then None
    else Some(s[..IndexOf(s, sep)])
  }

  /**
   * Element 0 of splitting `a + sep + b` is a, unless the whole string
   * consists of separators.
   */
  lemma FirstSplitPieceOfJoin(a: string, sep: char, b: string, k: nat)
    requires sep !in a && k < |b| && b[k] != sep
    ensures FirstSplitPiece(a + [sep] + b, sep) == Some(a)
  {
    var s := a + [sep] + b;
    IndexOfJoin(a, sep, b);
    assert s[|a| + 1 + k] == b[k];
    assert s[..|a|] == a;
  }

  /* ---------- substring(begin) ---------- */

  /** `s.substring(begin)`: throws (None) unless 0 <= begin <= length. */
  function Substring(s: string, begin: int): (r: Option<string>)
    ensures r.Some? <==> 0 <= begin <= |s|
    ensures r.Some? ==> s == s[..begin] + r.value
  {
    if 0 <= begin <= |s| then Some(s[begin..]) else None
  }

  /* ---------- getBytes() on ASCII text ---------- */

  predicate IsAscii(s: string) { forall i :: 0 <= i < |s| ==> s[i] as int < 128 }

  /** Character.toUpperCase on an ASCII character: a..z become A..Z. */
  function AsciiUpper(c: char): char
  {
    if 'a' <= c <= 'z' then (c as int - 32) as char else c
  }

  /** `new String(bytes)` for bytes below 128. */
  function AsciiText(b: seq<byte>): (r: string)
    requires forall i :: 0 <= i < |b| ==> b[i] < 128
    ensures |r| == |b|
    ensures forall i :: 0 <= i < |b| ==> r[i] as int == b[i] as int
  {
    if b == [] then [] else [b[0] as int as char] + AsciiText(b[1..])
  }

  /** Decoding the bytes of an ASCII string gives the string back. */
  lemma AsciiRoundTrip(s: string)
    requires IsAscii(s)
    ensures AsciiText(GetBytes(s)) == s
  {
    var r := AsciiText(GetBytes(s));
    assert forall i :: 0 <= i < |s| ==> r[i] == s[i];
  }

  /** b holds the characters of s as bytes, one byte per character. */
  predicate Encodes(b: seq<byte>, s: string)
  {
    |b| == |s| && forall i :: 0 <= i < |b| ==> b[i] as int == s[i] as int
  }

  /** `s.getBytes()` for ASCII text: one byte per character. */
  function GetBytes(s: string): (b: seq<byte>)
    requires IsAscii(s)
    ensures Encodes(b, s)
  {
    if s == [] then [] else [s[0] as int as byte] + GetBytes(s[1..])
  }
}
