/** The string operations of the listing and booking views:
    `toLowerCase`, `toUpperCase`, `includes`, `replace` with a string
    pattern, the "capitalise the first letter" idiom, `Array.prototype.slice`
    and the decimal form of an integer. Case mapping covers ASCII letters. */
module Text {

  import opened Wrappers

  function LowerChar(c: char): (r: char)
    ensures 'A' <= c <= 'Z' ==> r as int == c as int + 32
    ensures !('A' <= c <= 'Z') ==> r == c
  {
    if 'A' <= c <= 'Z' then (c as int + 32) as char else c
  }

  function UpperChar(c: char): (r: char)
    ensures 'a' <= c <= 'z' ==> r as int == c as int - 32
    ensures !('a' <= c <= 'z') ==> r == c
  {
    if 'a' <= c <= 'z' then (c as int - 32) as char else c
  }

  /** `s.toLowerCase()`. */
  function Lower(s: string): (r: string)
    ensures |r| == |s|
    ensures forall i :: 0 <= i < |s| ==> r[i] == LowerChar(s[i])
  {
    seq(|s|, i requires 0 <= i < |s| => LowerChar(s[i]))
  }

  /** Lower-casing twice is lower-casing once. */
  lemma LowerIdempotent(s: string)
    ensures Lower(Lower(s)) == Lower(s)
  {
  }

  /** Two strings that differ only in letter case lower-case alike. */
  lemma LowerUpperChar(c: char)
    ensures LowerChar(UpperChar(c)) == LowerChar(c)
  {
  }

  /** `t` occurs in `s` at position `i`. */
  predicate OccursAt(s: string, t: string, i: int) {
    0 <= i && i + |t| <= |s| && s[i..i + |t|] == t
  }

  /** `s.includes(t)`. */
  predicate Contains(s: string, t: string) {
    exists i | 0 <= i <= |s| :: OccursAt(s, t, i)
  }

  /** Every string includes itself and the empty string; a string includes
      only strings no longer than itself. */
  lemma ContainsBasics(s: string, t: string)
    ensures Contains(s, s) && Contains(s, "")
    ensures Contains(s, t) ==> |t| <= |s|
    ensures Contains(s, t) && |t| == |s| ==> s == t
  {
    assert OccursAt(s, s, 0);
    assert OccursAt(s, "", 0);
  }

  /** The position of the first occurrence of `t` in `s` at or after `from`. */
  function IndexFrom(s: string, t: string, from: nat): (r: Option<nat>)
    requires from <= |s|
    ensures r.Some? ==> from <= r.value && OccursAt(s, t, r.value)
    ensures r.Some? ==> forall j :: from <= j < r.value ==> !OccursAt(s, t, j)
    ensures r.None? ==> forall j :: from <= j ==> !OccursAt(s, t, j)
    decreases |s| - from
  {
    if OccursAt(s, t, from) then Some(from)
    else if from == |s| then None
    else IndexFrom(s, t, from + 1)
  }

  /** `s.indexOf(t)`, with `None` for -1. */
  function IndexOf(s: string, t: string): (r: Option<nat>)
    ensures r.Some? <==> Contains(s, t)
    ensures r.Some? ==> OccursAt(s, t, r.value) && forall j :: 0 <= j < r.value ==> !OccursAt(s, t, j)
  {
    IndexFrom(s, t, 0)
  }

  /** `s.replace(pattern, replacement)` with a string pattern: only the
      first occurrence is replaced; without one, `s` is returned. */
  function ReplaceFirst(s: string, pattern: string, replacement: string): (r: string)
    ensures !Contains(s, pattern) ==> r == s
    ensures Contains(s, pattern) ==>
      exists i :: OccursAt(s, pattern, i)
        && (forall j :: 0 <= j < i ==> !OccursAt(s, pattern, j))
        && r == s[..i] + replacement + s[i + |pattern|..]
  {
    match IndexOf(s, pattern)
    case None => s
    case Some(i) => s[..i] + replacement + s[i + |pattern|..]
  }

  /** `s.charAt(0).toUpperCase() + s.slice(1)`: the first character
      upper-cased, the rest unchanged; `""` stays `""`. */
  function Capitalize(s: string): (r: string)
    ensures |r| == |s|
    ensures s != "" ==> r[0] == UpperChar(s[0]) && r[1..] == s[1..]
  {
    if s == "" then "" else [UpperChar(s[0])] + s[1..]
  }

  /** Capitalising changes letter case only: the label lower-cases to what
      the original lower-cases to, and capitalising again changes nothing. */
  lemma CapitalizeKeepsLetters(s: string)
    ensures Lower(Capitalize(s)) == Lower(s)
    ensures Capitalize(Capitalize(s)) == Capitalize(s)
  {
    if s != "" {
      LowerUpperChar(s[0]);
      assert Capitalize(s)[0] == UpperChar(s[0]);
      assert forall i :: 1 <= i < |s| ==> Capitalize(s)[i] == s[i];
    }
  }

  /** `s.slice(start, end)`: negative positions count from the end, and
      both are clamped to the sequence. */
  function Slice<T>(s: seq<T>, start: int, end: int): (r: seq<T>)
    ensures var from := Clamp(start, |s|); var to := Clamp(end, |s|);
      && |r| == (if from < to then to - from else 0)
      && forall i :: 0 <= i < |r| ==> r[i] == s[from + i]
  {
    var from := Clamp(start, |s|);
    var to := Clamp(end, |s|);
    if from < to then s[from..to] else []
  }

  /** A `slice` position resolved against a length `n`. */
  function Clamp(k: int, n: nat): (r: nat)
    ensures r <= n
    ensures 0 <= k <= n ==> r == k
    ensures k > n ==> r == n
  {
    if k < 0 then (if n + k < 0 then 0 else n + k)
    else if k > n then n
    else k
  }

  function DigitChar(d: nat): (c: char)
    requires d < 10
    ensures '0' <= c <= '9' && c as int - '0' as int == d
  {
    (d + '0' as int) as char
  }

  /** The decimal digits of a natural number, without leading zeros. */
  function Digits(n: nat): (r: string)
    ensures |r| >= 1
    ensures forall i :: 0 <= i < |r| ==> '0' <= r[i] <= '9'
    ensures n > 0 ==> r[0] != '0'
    ensures n == 0 <==> r == "0"
  {
    if n < 10 then [DigitChar(n)] else Digits(n / 10) + [DigitChar(n % 10)]
  }

  /** `String(n)` for an integer `n`. */
  function Decimal(n: int): (r: string)
    ensures |r| >= 1
    ensures r[0] == '-' <==> n < 0
  {
    if n < 0 then "-" + Digits(-n) else Digits(n)
  }

  /** The number spelled by a string of decimal digits. */
  function DigitsValue(s: string): (n: nat)
    requires forall i :: 0 <= i < |s| ==> '0' <= s[i] <= '9'
  {
    if s == [] then 0
    else 10 * DigitsValue(s[..|s| - 1]) + (s[|s| - 1] as int - '0' as int)
  }

  /** Reading the digits back gives the number. */
  lemma {:induction false} DigitsRoundTrip(n: nat)
    ensures DigitsValue(Digits(n)) == n
  {
    if n >= 10 {
      DigitsRoundTrip(n / 10);
      var d := Digits(n / 10) + [DigitChar(n % 10)];
      assert d[..|d| - 1] == Digits(n / 10);
    }
  }
}
