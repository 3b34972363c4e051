/** String helpers the pipeline relies on: Python's `sep.join(parts)`,
    decimal rendering of an index, and substring containment. */
module Strings {

  /** `t` occurs in `s` starting at offset `k`. */
  predicate OccursAt(t: string, s: string, k: int) {
    0 <= k && k + |t| <= |s| && s[k..k + |t|] == t
  }

  /** `t` is a contiguous part of `s` (Python's `t in s`). */
  ghost predicate IsSubstring(t: string, s: string) {
    exists k :: OccursAt(t, s, k)
  }

  lemma OccursInMiddle(a: string, t: string, b: string)
    ensures OccursAt(t, a + t + b, |a|)
  {
  }

  /** Containment is transitive, with the offsets added up. */
  lemma OccursTransitive(t: string, u: string, s: string, i: int, j: int)
    requires OccursAt(t, u, i) && OccursAt(u, s, j)
    ensures OccursAt(t, s, j + i)
  {
    forall m | 0 <= m < |t|
      ensures s[j + i..j + i + |t|][m] == t[m]
    {
      assert t[m] == u[i + m] == s[j + i + m];
    }
  }

  lemma SubstringTransitive(t: string, u: string, s: string)
    requires IsSubstring(t, u) && IsSubstring(u, s)
    ensures IsSubstring(t, s)
  {
    var i :| OccursAt(t, u, i);
    var j :| OccursAt(u, s, j);
    OccursTransitive(t, u, s, i, j);
  }

  lemma SubstringOfMiddle(t: string, a: string, u: string, b: string)
    requires IsSubstring(t, u)
    ensures IsSubstring(t, a + u + b)
  {
    OccursInMiddle(a, u, b);
    SubstringTransitive(t, u, a + u + b);
  }

  /** `sep.join(parts)`: the parts in order with `sep` between neighbours. */
  function Join(parts: seq<string>, sep: string): string
  {
    if |parts| == 0 then ""
    else if |parts| == 1 then parts[0]
    else Join(parts[..|parts| - 1], sep) + sep + parts[|parts| - 1]
  }

  /** Joining one more part appends the separator and that part. */
  lemma JoinSnoc(parts: seq<string>, sep: string, p: string)
    requires parts != []
    ensures Join(parts + [p], sep) == Join(parts, sep) + sep + p
  {
  }

  /** The joined string has the total length of the parts plus one separator
      between each pair of neighbours. */
  lemma {:induction false} JoinLength(parts: seq<string>, sep: string)
    requires parts != []
    ensures |Join(parts, sep)| == SumLengths(parts) + (|parts| - 1) * |sep|
  {
    if |parts| > 1 {
      JoinLength(parts[..|parts| - 1], sep);
      SumLengthsSnoc(parts[..|parts| - 1], parts[|parts| - 1]);
      assert parts[..|parts| - 1] + [parts[|parts| - 1]] == parts;
    }
  }

  function SumLengths(parts: seq<string>): nat
  {
    if parts == [] then 0 else |parts[0]| + SumLengths(parts[1..])
  }

  lemma {:induction false} SumLengthsSnoc(parts: seq<string>, p: string)
    ensures SumLengths(parts + [p]) == SumLengths(parts) + |p|
  {
    if parts != [] {
      assert (parts + [p])[1..] == parts[1..] + [p];
      SumLengthsSnoc(parts[1..], p);
    }
  }

  /** Every part occurs in the joined string. */
  lemma {:induction false} JoinContains(parts: seq<string>, sep: string, i: int)
    requires 0 <= i < |parts|
    ensures IsSubstring(parts[i], Join(parts, sep))
  {
    var n := |parts|;
    if n == 1 {
      OccursInMiddle("", parts[0], "");
      assert "" + parts[0] + "" == Join(parts, sep);
    } else if i == n - 1 {
      OccursInMiddle(Join(parts[..n - 1], sep) + sep, parts[i], "");
      assert Join(parts[..n - 1], sep) + sep + parts[i] + "" == Join(parts, sep);
    } else {
      JoinContains(parts[..n - 1], sep, i);
      SubstringOfMiddle(parts[i], "", Join(parts[..n - 1], sep), sep + parts[n - 1]);
      assert "" + Join(parts[..n - 1], sep) + (sep + parts[n - 1]) == Join(parts, sep);
    }
  }

  /** The decimal digit for `d < 10`. */
  function DigitChar(d: nat): char
    requires d < 10
  {
    "0123456789"[d]
  }

  predicate IsDigit(c: char) {
    '0' <= c <= '9'
  }

  function DigitValue(c: char): nat
    requires IsDigit(c)
  {
    (c as int - '0' as int) as nat
  }

  /** `str(n)` for a non-negative integer: decimal, no leading zeros. */
  function NatToDecimal(n: nat): (s: string)
    ensures |s| >= 1
    ensures forall i :: 0 <= i < |s| ==> IsDigit(s[i])
    ensures |s| > 1 ==> s[0] != '0'
  {
    if n < 10 then [DigitChar(n)]
    else NatToDecimal(n / 10) + [DigitChar(n % 10)]
  }

  /** Reads a string of decimal digits back as a number. */
  function ParseDecimal(s: string): nat
    requires forall i :: 0 <= i < |s| ==> IsDigit(s[i])
  {
    if s == [] then 0
    else ParseDecimal(s[..|s| - 1]) * 10 + DigitValue(s[|s| - 1])
  }

  /** Decimal rendering loses nothing: parsing it gives the number back. */
  lemma {:induction false} DecimalRoundTrip(n: nat)
    ensures ParseDecimal(NatToDecimal(n)) == n
  {
    var s := NatToDecimal(n);
    if n < 10 {
      assert s[..0] == [];
    } else {
      assert s[..|s| - 1] == NatToDecimal(n / 10);
      DecimalRoundTrip(n / 10);
    }
  }

  /** Hence different numbers render differently. */
  lemma DecimalInjective(m: nat, n: nat)
    requires NatToDecimal(m) == NatToDecimal(n)
    ensures m == n
  {
    DecimalRoundTrip(m);
    DecimalRoundTrip(n);
  }
}
