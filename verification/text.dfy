/**
 * The string operations the core relies on: ASCII lower-casing (`str.lower`),
 * substring containment (`needle in haystack`) and decimal rendering of
 * integers (`str(n)` inside an f-string).
 */
module Text {
  import opened Wrappers

  /** Lower-cases one character. Only the ASCII letters A-Z are mapped. */
  function LowerChar(c: char): (r: char)
    ensures 'A' <= c <= 'Z' ==> 'a' <= r <= 'z' && r as int - c as int == 32
    ensures !('A' <= c <= 'Z') ==> r == c
    ensures !('A' <= r <= 'Z')
  {
    if 'A' <= c <= 'Z' then (c as int + 32) as char else c
  }

  /** Upper-cases one character; the ASCII inverse of `LowerChar`. */
  function UpperChar(c: char): (r: char) {
    if 'a' <= c <= 'z' then (c as int - 32) as char else c
  }

  /** `s.lower()`, character by character. */
  function Lower(s: string): (r: string)
    ensures |r| == |s|
    ensures forall i :: 0 <= i < |s| ==> r[i] == LowerChar(s[i])
  {
    seq(|s|, i requires 0 <= i < |s| => LowerChar(s[i]))
  }

  /** `s.upper()`, character by character. */
  function Upper(s: string): (r: string)
    ensures |r| == |s|
    ensures forall i :: 0 <= i < |s| ==> r[i] == UpperChar(s[i])
  {
    seq(|s|, i requires 0 <= i < |s| => UpperChar(s[i]))
  }

  /** Lower-casing commutes with slicing. */
  lemma LowerSlice(s: string, lo: int, hi: int)
    requires 0 <= lo <= hi <= |s|
    ensures Lower(s)[lo..hi] == Lower(s[lo..hi])
  {
  }

  /** Lower-casing forgets any upper-casing done before it. */
  lemma LowerUpper(s: string)
    ensures Lower(Upper(s)) == Lower(s)
  {
    forall i | 0 <= i < |s|
      ensures Lower(Upper(s))[i] == Lower(s)[i]
    {
      var c := s[i];
      if 'a' <= c <= 'z' {
        assert UpperChar(c) as int == c as int - 32;
      }
    }
  }

  /** `needle` occurs in `haystack` starting at index `i`. */
  predicate OccursAt(haystack: string, needle: string, i: int) {
    0 <= i && i + |needle| <= |haystack| && haystack[i..i + |needle|] == needle
  }

  /** Python's `needle in haystack` for strings, scanning the start positions from the left. */
  predicate Contains(haystack: string, needle: string)
    decreases |haystack|
  {
    || (|needle| <= |haystack| && haystack[..|needle|] == needle)
    || (|haystack| > 0 && Contains(haystack[1..], needle))
  }

  /**
   * `needle in haystack` holds exactly when some window of `haystack` equals
   * `needle`. The empty needle occurs in every string.
   */
  lemma {:induction false} ContainsIffOccurs(haystack: string, needle: string)
    decreases |haystack|
    ensures Contains(haystack, needle) <==> exists i :: OccursAt(haystack, needle, i)
  {
    if |needle| <= |haystack| && haystack[..|needle|] == needle {
      assert OccursAt(haystack, needle, 0);
    } else if |haystack| > 0 {
      ContainsIffOccurs(haystack[1..], needle);
      if Contains(haystack[1..], needle) {
        var i :| OccursAt(haystack[1..], needle, i);
        assert haystack[i + 1..i + 1 + |needle|] == haystack[1..][i..i + |needle|];
        assert OccursAt(haystack, needle, i + 1);
      } else {
        forall i | OccursAt(haystack, needle, i)
          ensures false
        {
          assert i != 0;
          assert haystack[1..][i - 1..i - 1 + |needle|] == haystack[i..i + |needle|];
          assert OccursAt(haystack[1..], needle, i - 1);
        }
      }
    } else {
      assert forall i :: !OccursAt(haystack, needle, i);
    }
  }

  /** The characters that can appear in the decimal rendering of an integer. */
  predicate IsDecimalChar(c: char) {
    c == '-' || '0' <= c <= '9'
  }

  predicate AllDigits(s: string) {
    forall i :: 0 <= i < |s| ==> '0' <= s[i] <= '9'
  }

  /** A non-empty digit string, optionally preceded by a minus sign. */
  predicate IsDecimal(s: string) {
    if |s| > 0 && s[0] == '-' then |s| > 1 && AllDigits(s[1..]) else |s| > 0 && AllDigits(s)
  }

  function DigitChar(d: int): (c: char)
    requires 0 <= d < 10
    ensures '0' <= c <= '9'
    ensures c as int - '0' as int == d
  {
    ('0' as int + d) as char
  }

  /** The digits of a natural number, most significant first, without leading zeros. */
  function NatDigits(n: nat): (r: string)
    decreases n
    ensures |r| > 0 && AllDigits(r)
    ensures r[0] == '0' <==> n == 0
  {
    if n < 10 then [DigitChar(n)] else NatDigits(n / 10) + [DigitChar(n % 10)]
  }

  /** `str(n)`: an optional minus sign followed by the digits of `|n|`. */
  function Decimal(n: int): (r: string)
    ensures IsDecimal(r)
    ensures forall i :: 0 <= i < |r| ==> IsDecimalChar(r[i])
    ensures n < 0 <==> r[0] == '-'
    ensures |r| > 1 ==> r[0] != '0'
    ensures r[0] == '-' ==> r[1] != '0'
  {
    if n < 0 then
      var d := NatDigits(-n);
      assert ("-" + d)[1..] == d;
      "-" + d
    else
      NatDigits(n)
  }

  /** The number a string of decimal digits denotes (reference reading of a digit string). */
  function DigitsValue(s: string): (r: nat)
    requires AllDigits(s)
  {
    if |s| == 0 then 0 else 10 * DigitsValue(s[..|s| - 1]) + (s[|s| - 1] as int - '0' as int)
  }

  /** The number a decimal string denotes: Python's `int(s)` on such a string. */
  function DecimalValue(s: string): (r: int)
    requires IsDecimal(s)
  {
    if s[0] == '-' then -(DigitsValue(s[1..]) as int) else DigitsValue(s)
  }

  lemma {:induction false} NatDigitsValue(n: nat)
    decreases n
    ensures DigitsValue(NatDigits(n)) == n
  {
    if n >= 10 {
      NatDigitsValue(n / 10);
      var r := NatDigits(n);
      assert r[..|r| - 1] == NatDigits(n / 10);
    }
  }

  /** Reading back the decimal rendering of `n` gives `n`. */
  lemma DecimalRoundTrip(n: int)
    ensures DecimalValue(Decimal(n)) == n
  {
    if n < 0 {
      NatDigitsValue(-n);
      assert Decimal(n)[1..] == NatDigits(-n);
    } else {
      NatDigitsValue(n);
    }
  }

  /** Different integers have different decimal renderings. */
  lemma DecimalInjective(m: int, n: int)
    requires Decimal(m) == Decimal(n)
    ensures m == n
  {
    DecimalRoundTrip(m);
    DecimalRoundTrip(n);
  }

  /** The three parts of a concatenation, recovered by slicing. */
  lemma PartsOfConcat(a: string, b: string, c: string)
    ensures |a + b + c| == |a| + |b| + |c|
    ensures (a + b + c)[..|a|] == a
    ensures (a + b + c)[|a|..|a| + |b|] == b
    ensures (a + b + c)[|a| + |b|..] == c
  {
    var s := a + b + c;
    assert s[..|a|] == a;
    assert s[|a|..|a| + |b|] == b;
    assert s[|a| + |b|..] == c;
  }

  /** The five parts of a concatenation, recovered by slicing. */
  lemma PartsOfConcat5(a: string, b: string, c: string, d: string, e: string)
    ensures var s := a + b + c + d + e;
            && |s| == |a| + |b| + |c| + |d| + |e|
            && s[..|a|] == a
            && s[|a|..|a| + |b|] == b
            && s[|a| + |b|..|a| + |b| + |c|] == c
            && s[|a| + |b| + |c|..|a| + |b| + |c| + |d|] == d
            && s[|s| - |e|..] == e
  {
    var s := a + b + c + d + e;
    assert s[..|a|] == a;
    assert s[|a|..|a| + |b|] == b;
    assert s[|a| + |b|..|a| + |b| + |c|] == c;
    assert s[|a| + |b| + |c|..|a| + |b| + |c| + |d|] == d;
    assert s[|s| - |e|..] == e;
  }

  /** Regrouping a text wrapped in two layers of framing. */
  lemma Regroup(outerHead: string, innerHead: string, line: string, body: string, innerTail: string, outerTail: string)
    ensures outerHead + (innerHead + line + body + innerTail) + outerTail
         == (outerHead + innerHead + line) + body + (innerTail + outerTail)
    ensures outerHead + (innerHead + line + body + innerTail) + outerTail
         == (outerHead + innerHead) + line + (body + (innerTail + outerTail))
  {
  }

  /** Grouping the three middle parts of a five-part concatenation. */
  lemma GroupMiddle(a: string, b: string, c: string, d: string, e: string)
    ensures a + b + c + d + e == a + (b + c + d) + e
  {
  }

  /** The middle of `s` when it starts with `head` and ends with `tail` (without overlap). */
  function Unframe(head: string, tail: string, s: string): (r: Option<string>)
    ensures r.Some? ==> head + r.value + tail == s
  {
    if |head| + |tail| <= |s| && s[..|head|] == head && s[|s| - |tail|..] == tail then
      var body := s[|head|..|s| - |tail|];
      assert s == s[..|head|] + body + s[|s| - |tail|..];
      Some(body)
    else
      None
  }

  /** Unframing a string that consists of `head`, `body` and `tail` gives `body`. */
  lemma UnframeBySlices(head: string, body: string, tail: string, s: string)
    requires |s| == |head| + |body| + |tail|
    requires s[..|head|] == head && s[|head|..|head| + |body|] == body && s[|s| - |tail|..] == tail
    ensures Unframe(head, tail, s) == Some(body)
  {
  }

  /**
   * A string of the shape `prefix + lead + number`, where `lead` ends in a character
   * that cannot occur in a decimal rendering, splits in only one way.
   */
  lemma SplitBeforeDecimal(a: string, da: string, b: string, db: string, lead: string)
    requires a + lead + da == b + lead + db
    requires |lead| > 0 && !IsDecimalChar(lead[|lead| - 1])
    requires forall i :: 0 <= i < |da| ==> IsDecimalChar(da[i])
    requires forall i :: 0 <= i < |db| ==> IsDecimalChar(db[i])
    ensures a == b && da == db
  {
    var t := a + lead + da;
    var u := b + lead + db;
    assert forall i :: |u| - |db| <= i < |u| ==> u[i] == db[i - (|u| - |db|)];
    assert forall i :: |t| - |da| <= i < |t| ==> t[i] == da[i - (|t| - |da|)];
    assert t[|t| - |da| - 1] == lead[|lead| - 1];
    assert u[|u| - |db| - 1] == lead[|lead| - 1];
    assert |da| == |db|;
    assert a == t[..|a|] && b == u[..|b|];
    assert da == t[|t| - |da|..] && db == u[|u| - |db|..];
  }
}
