/**
  The few operations on Python `str` values the core relies on: `in` and `index` (leftmost
  occurrence), `split(sep)[0]`, `strip()`, `lower()`, `\d` digits, `int()` of a digit run and
  `str()` of an integer. Strings are sequences of Unicode code points.
*/
module Text {
  import opened Wrappers

  /** Python's `str.isspace()` characters (also what `\s` matches in a `str` pattern). */
  predicate IsSpace(c: char) {
    ('\t' <= c <= '\r') || ('\U{1C}' <= c <= ' ') || c == '\U{85}' || c == '\U{A0}'
    || c == '\U{1680}' || ('\U{2000}' <= c <= '\U{200A}') || c == '\U{2028}' || c == '\U{2029}'
    || c == '\U{202F}' || c == '\U{205F}' || c == '\U{3000}'
  }

  /** The leftmost position at or after `i` where the matcher `m` succeeds. */
  function SearchFrom<T>(s: string, m: (string, nat) -> Option<T>, i: nat): (r: Option<(nat, T)>)
    requires i <= |s|
    ensures r.Some? ==> i <= r.value.0 <= |s| && m(s, r.value.0) == Some(r.value.1)
    ensures r.Some? ==> forall j :: i <= j < r.value.0 ==> m(s, j).None?
    ensures r.None? ==> forall j :: i <= j <= |s| ==> m(s, j).None?
    decreases |s| - i
  {
    match m(s, i)
    case Some(v) => Some((i, v))
    case None => if i == |s| then None else SearchFrom(s, m, i + 1)
  }

  /** Python's `re.search`: the leftmost position where the matcher `m` succeeds. */
  function Search<T>(s: string, m: (string, nat) -> Option<T>): Option<(nat, T)> {
    SearchFrom(s, m, 0)
  }

  /** A search succeeds at the first position where the matcher does. */
  lemma SearchFinds<T>(s: string, m: (string, nat) -> Option<T>, p: nat)
    requires p <= |s| && m(s, p).Some? && forall j :: 0 <= j < p ==> m(s, j).None?
    ensures Search(s, m) == Some((p, m(s, p).value))
  {
  }

  predicate OccursAt(s: string, p: string, i: nat) {
    i + |p| <= |s| && s[i..i + |p|] == p
  }

  /** `s.index(p)` when `p in s`: the leftmost occurrence of `p` in `s`. */
  function Find(s: string, p: string): (r: Option<nat>)
    ensures r.Some? ==> OccursAt(s, p, r.value) && forall j :: 0 <= j < r.value ==> !OccursAt(s, p, j)
    ensures r.None? <==> forall j :: 0 <= j <= |s| ==> !OccursAt(s, p, j)
  {
    var m := (t: string, j: nat) => if OccursAt(t, p, j) then Some(()) else None;
    var found := Search(s, m);
    assert forall j :: 0 <= j <= |s| ==> (m(s, j).None? <==> !OccursAt(s, p, j));
    if found.Some? then Some(found.value.0) else None
  }

  /** The first occurrence is the one `index` reports. */
  lemma FindAt(s: string, p: string, i: nat)
    requires OccursAt(s, p, i) && forall j :: 0 <= j < i ==> !OccursAt(s, p, j)
    ensures Find(s, p) == Some(i)
  {
  }

  /** Python's `p in s`. */
  predicate Contains(s: string, p: string) {
    Find(s, p).Some?
  }

  lemma ContainsAt(s: string, p: string, i: nat)
    requires OccursAt(s, p, i)
    ensures Contains(s, p)
  {
  }

  /** An occurrence inside a slice is an occurrence in the whole string. */
  lemma ContainsInSlice(s: string, lo: nat, hi: nat, p: string)
    requires lo <= hi <= |s| && Contains(s[lo..hi], p)
    ensures Contains(s, p)
  {
    var j := Find(s[lo..hi], p).value;
    forall k | 0 <= k < |p| ensures s[lo + j..lo + j + |p|][k] == p[k] {
      assert s[lo..hi][j..j + |p|][k] == p[k];
    }
    assert s[lo + j..lo + j + |p|] == p;
    ContainsAt(s, p, lo + j);
  }

  /** `p` cannot occur in `s` when one of its characters does not. */
  lemma NotContainsChar(s: string, p: string, i: nat)
    requires i < |p| && p[i] !in s
    ensures !Contains(s, p)
  {
    forall j | 0 <= j <= |s| ensures !OccursAt(s, p, j) {
    }
  }

  /** `s.split(sep)[0]`: everything before the first `sep`, or all of `s` when there is none. */
  function BeforeFirst(s: string, sep: string): (r: string)
    ensures Contains(s, sep) ==> r == s[..Find(s, sep).value]
    ensures !Contains(s, sep) ==> r == s
    ensures |sep| > 0 ==> !Contains(r, sep)
  {
    match Find(s, sep)
    case Some(i) =>
      assert forall j :: 0 <= j <= i && OccursAt(s[..i], sep, j) ==> OccursAt(s, sep, j) by {
        forall j | 0 <= j <= i && OccursAt(s[..i], sep, j) ensures OccursAt(s, sep, j) {
          assert s[..i][j..j + |sep|] == s[j..j + |sep|];
        }
      }
      s[..i]
    case None => s
  }

  /** Every character of `s` from `lo` up to `hi` is whitespace. */
  predicate AllSpace(s: string, lo: int, hi: int) {
    forall k :: 0 <= lo <= k < hi <= |s| ==> IsSpace(s[k])
  }

  /** The length of the run of whitespace `s` starts with. */
  function LeadingSpaces(s: string): (n: nat)
    ensures n <= |s| && forall k :: 0 <= k < n ==> IsSpace(s[k])
    ensures n < |s| ==> !IsSpace(s[n])
  {
    if |s| > 0 && IsSpace(s[0]) then 1 + LeadingSpaces(s[1..]) else 0
  }

  /** The length of the run of whitespace `s` ends with. */
  function TrailingSpaces(s: string): (n: nat)
    ensures n <= |s| && forall k :: |s| - n <= k < |s| ==> IsSpace(s[k])
    ensures n < |s| ==> !IsSpace(s[|s| - 1 - n])
  {
    if |s| > 0 && IsSpace(s[|s| - 1]) then 1 + TrailingSpaces(s[..|s| - 1]) else 0
  }

  /** `s.strip()`: `s` without its leading and trailing whitespace. */
  function Strip(s: string): (r: string)
    ensures |r| <= |s|
    ensures r == [] || (!IsSpace(r[0]) && !IsSpace(r[|r| - 1]))
    ensures r == [] <==> forall k :: 0 <= k < |s| ==> IsSpace(s[k])
    ensures LeadingSpaces(s) + |r| <= |s| && r == s[LeadingSpaces(s)..LeadingSpaces(s) + |r|]
    ensures AllSpace(s, LeadingSpaces(s) + |r|, |s|)
  {
    var a := LeadingSpaces(s);
    if a == |s| then []
    else
      var t := TrailingSpaces(s);
      s[a..|s| - t]
  }

  /** Stripping cannot create an occurrence. */
  lemma StripKeepsAbsence(s: string, p: string)
    requires !Contains(s, p)
    ensures !Contains(Strip(s), p)
  {
    var r := Strip(s);
    var a := LeadingSpaces(s);
    if Contains(r, p) {
      ContainsInSlice(s, a, a + |r|, p);
    }
  }

  /** Stripping a string that has no whitespace at either end leaves it unchanged. */
  lemma StripTight(s: string)
    requires s == [] || (!IsSpace(s[0]) && !IsSpace(s[|s| - 1]))
    ensures Strip(s) == s
  {
    if s != [] {
      assert LeadingSpaces(s) == 0 && TrailingSpaces(s) == 0;
      assert s[0..|s|] == s;
    }
  }

  /** `strip()` is idempotent. */
  lemma StripIdempotent(s: string)
    ensures Strip(Strip(s)) == Strip(s)
  {
    StripTight(Strip(s));
  }

  /** `s.lower()` on the Latin letters; no other character lowers to one of them except the Kelvin sign. */
  function LowerChar(c: char): (r: char)
    ensures 'A' <= c <= 'Z' ==> 'a' <= r <= 'z'
    ensures !('A' <= c <= 'Z') ==> r == c
  {
    if 'A' <= c <= 'Z' then (c as int - 'A' as int + 'a' as int) as char else c
  }

  function Lower(s: string): (r: string)
    ensures |r| == |s| && forall k :: 0 <= k < |s| ==> r[k] == LowerChar(s[k])
  {
    if s == [] then [] else [LowerChar(s[0])] + Lower(s[1..])
  }

  /** What `\d` matches (the ASCII digits of the model). */
  predicate IsDigit(c: char) {
    '0' <= c <= '9'
  }

  function DigitValue(c: char): (d: nat)
    requires IsDigit(c)
    ensures d < 10
  {
    c as int - '0' as int
  }

  function DigitChar(d: nat): (c: char)
    requires d < 10
    ensures IsDigit(c) && DigitValue(c) == d
  {
    ('0' as int + d) as char
  }

  predicate AllDigits(s: string) {
    forall k :: 0 <= k < |s| ==> IsDigit(s[k])
  }

  /** `int(s)` of a run of digits. */
  function DecimalValue(s: string): (n: nat)
    requires AllDigits(s)
    ensures |s| == 1 ==> n == DigitValue(s[0])
    ensures |s| == 2 ==> n == 10 * DigitValue(s[0]) + DigitValue(s[1])
  {
    if s == [] then 0 else DecimalValue(s[..|s| - 1]) * 10 + DigitValue(s[|s| - 1])
  }

  /** `str(n)` of a natural number: its decimal digits, with no leading zero. */
  function NatToDecimal(n: nat): (r: string)
    ensures |r| > 0 && AllDigits(r)
    ensures (r[0] == '0') <==> n == 0
    ensures n < 10 <==> |r| == 1
  {
    if n < 10 then [DigitChar(n)] else NatToDecimal(n / 10) + [DigitChar(n % 10)]
  }

  /** `int(str(n)) == n`. */
  lemma {:induction false} DecimalRoundTrip(n: nat)
    ensures DecimalValue(NatToDecimal(n)) == n
  {
    var r := NatToDecimal(n);
    if n >= 10 {
      assert r[..|r| - 1] == NatToDecimal(n / 10);
      DecimalRoundTrip(n / 10);
    } else {
      assert r[..|r| - 1] == [];
    }
  }

  /** `str(i)` of an integer. */
  function IntToText(i: int): (r: string)
    ensures |r| > 0
    ensures (r[0] == '-') <==> i < 0
  {
    if i < 0 then "-" + NatToDecimal(-i) else NatToDecimal(i)
  }

  /** `sep.join(parts)`. */
  function Join(sep: string, parts: seq<string>): (r: string)
    ensures |parts| == 1 ==> r == parts[0]
    ensures parts == [] ==> r == []
  {
    if parts == [] then []
    else if |parts| == 1 then parts[0]
    else parts[0] + sep + Join(sep, parts[1..])
  }
}
