/**
 * The handful of JavaScript string primitives the caption engine relies on:
 * `String.prototype.trim`, `String.prototype.toLowerCase` (restricted to ASCII)
 * and the decimal rendering of a non-negative integer inside a template literal.
 */
module Text {

  /** ECMAScript WhiteSpace and LineTerminator code points: what `trim` removes. */
  predicate IsSpace(c: char) {
    || c == '\t' || c == '\n' || c == '\U{B}' || c == '\U{C}' || c == '\r' || c == ' '
    || c == '\U{A0}' || c == '\U{1680}' || ('\U{2000}' <= c <= '\U{200A}')
    || c == '\U{2028}' || c == '\U{2029}' || c == '\U{202F}' || c == '\U{205F}'
    || c == '\U{3000}' || c == '\U{FEFF}'
  }

  predicate AllSpace(s: string) {
    forall i :: 0 <= i < |s| ==> IsSpace(s[i])
  }

  predicate StartsWith(s: string, prefix: string) {
    |prefix| <= |s| && s[..|prefix|] == prefix
  }

  predicate EndsWith(s: string, suffix: string) {
    |suffix| <= |s| && s[|s| - |suffix|..] == suffix
  }

  lemma ConcatAssoc(a: string, b: string, c: string)
    ensures a + (b + c) == a + b + c
  {
  }

  lemma StartsWithAppend(s: string, t: string, prefix: string)
    requires StartsWith(s, prefix)
    ensures StartsWith(s + t, prefix)
  {
    assert (s + t)[..|prefix|] == s[..|prefix|];
  }

  lemma StartsWithExtend(s: string, t: string, prefix: string)
    requires StartsWith(t, prefix)
    ensures StartsWith(s + t, s + prefix)
  {
    assert (s + t)[..|s + prefix|] == s + t[..|prefix|];
  }

  lemma EndsWithPrepend(s: string, t: string, suffix: string)
    requires EndsWith(t, suffix)
    ensures EndsWith(s + t, suffix)
  {
    assert (s + t)[|s + t| - |suffix|..] == t[|t| - |suffix|..];
  }

  /** Neither starts nor ends with whitespace (the empty string qualifies). */
  predicate IsTrimmed(s: string) {
    s == [] || (!IsSpace(s[0]) && !IsSpace(s[|s| - 1]))
  }

  /** The number of whitespace characters `s` starts with. */
  function LeadingSpaces(s: string): (n: nat)
    ensures n <= |s|
    ensures forall k :: 0 <= k < n ==> IsSpace(s[k])
    ensures n < |s| ==> !IsSpace(s[n])
  {
    if |s| > 0 && IsSpace(s[0]) then 1 + LeadingSpaces(s[1..]) else 0
  }

  /** Where the whitespace `s` ends with begins. */
  function TrailingSpacesStart(s: string): (n: nat)
    ensures n <= |s|
    ensures forall k :: n <= k < |s| ==> IsSpace(s[k])
    ensures n > 0 ==> !IsSpace(s[n - 1])
  {
    if |s| > 0 && IsSpace(s[|s| - 1]) then TrailingSpacesStart(s[..|s| - 1]) else |s|
  }

  /** Only one position fits the description of `TrailingSpacesStart`. */
  lemma TrailingSpacesStartUnique(s: string, n: nat)
    requires n <= |s|
    requires forall k :: n <= k < |s| ==> IsSpace(s[k])
    requires n > 0 ==> !IsSpace(s[n - 1])
    ensures TrailingSpacesStart(s) == n
  {
  }

  /** JavaScript `trimStart`. */
  function TrimStart(s: string): string {
    s[LeadingSpaces(s)..]
  }

  /** JavaScript `trimEnd`. */
  function TrimEnd(s: string): string {
    s[..TrailingSpacesStart(s)]
  }

  /** `r` is the part of `s` that starts at `i`, and everything in `s` before
      and after that part is whitespace. */
  predicate StripsTo(s: string, i: int, r: string) {
    && 0 <= i <= |s| - |r|
    && r == s[i..i + |r|]
    && (forall k :: 0 <= k < i ==> IsSpace(s[k]))
    && (forall k :: i + |r| <= k < |s| ==> IsSpace(s[k]))
  }

  /** JavaScript `s.trim()`: the result is the part of `s` left once the
      whitespace on both ends is removed. */
  function Trim(s: string): (r: string)
    ensures IsTrimmed(r)
    ensures r == [] <==> AllSpace(s)
    ensures StripsTo(s, LeadingSpaces(s), r)
  {
    var i := LeadingSpaces(s);
    var t := s[i..];
    var r := TrimEnd(t);
    assert StripsTo(s, i, r) by {
      forall k | i + |r| <= k < |s| ensures IsSpace(s[k]) {
        assert s[k] == t[k - i];
      }
    }
    assert r != [] ==> r[0] == s[i];
    r
  }

  lemma TrimEndOfTrimmed(s: string)
    requires s == [] || !IsSpace(s[|s| - 1])
    ensures TrimEnd(s) == s
  {
  }

  /** Trimming a string that has no whitespace at either end changes nothing. */
  lemma TrimOfTrimmed(s: string)
    requires IsTrimmed(s)
    ensures Trim(s) == s
  {
    assert TrimStart(s) == s;
  }

  lemma TrimIdempotent(s: string)
    ensures Trim(Trim(s)) == Trim(s)
  {
    TrimOfTrimmed(Trim(s));
  }

  /** Whitespace appended at the end is exactly what `TrimEnd` takes away again. */
  lemma TrimEndDropsSpaces(s: string, w: string)
    requires AllSpace(w)
    ensures TrimEnd(s + w) == TrimEnd(s)
  {
    var n := TrailingSpacesStart(s);
    forall k | n <= k < |s + w| ensures IsSpace((s + w)[k]) {
      if k >= |s| { assert (s + w)[k] == w[k - |s|]; }
    }
    TrailingSpacesStartUnique(s + w, n);
    assert (s + w)[..n] == s[..n];
  }

  /** When the tail holds something other than whitespace, `TrimEnd` of a
      concatenation only ever touches the tail. */
  lemma TrimEndConcat(head: string, tail: string)
    requires !AllSpace(tail)
    ensures TrimEnd(head + tail) == head + TrimEnd(tail)
  {
    var m := TrailingSpacesStart(tail);
    var st := head + tail;
    forall k | |head| + m <= k < |st| ensures IsSpace(st[k]) {
      assert st[k] == tail[k - |head|];
    }
    assert m > 0;
    assert st[|head| + m - 1] == tail[m - 1];
    TrailingSpacesStartUnique(st, |head| + m);
    assert st[..|head| + m] == head + tail[..m];
  }

  /** A string that begins with a non-whitespace character and holds some
      non-whitespace character after `head` trims to `head` plus the trimmed tail. */
  lemma TrimOfHeadAndTail(head: string, tail: string)
    requires head != [] && !IsSpace(head[0])
    requires !AllSpace(tail)
    ensures Trim(head + tail) == head + TrimEnd(tail)
  {
    assert (head + tail)[0] == head[0];
    assert LeadingSpaces(head + tail) == 0;
    assert (head + tail)[0..] == head + tail;
    TrimEndConcat(head, tail);
  }

  /** JavaScript `toLowerCase`, on the ASCII letters. */
  function LowerChar(c: char): char {
    if 'A' <= c <= 'Z' then (c as int - 'A' as int + 'a' as int) as char else c
  }

  function Lower(s: string): (r: string)
    ensures |r| == |s|
    ensures forall i :: 0 <= i < |s| ==> !('A' <= r[i] <= 'Z')
    ensures forall i :: 0 <= i < |s| ==> !('A' <= s[i] <= 'Z') ==> r[i] == s[i]
    ensures forall i :: 0 <= i < |s| && 'A' <= s[i] <= 'Z' ==> r[i] as int == s[i] as int - 'A' as int + 'a' as int
  {
    seq(|s|, i requires 0 <= i < |s| => LowerChar(s[i]))
  }

  function DigitChar(d: nat): (c: char)
    requires d < 10
    ensures '0' <= c <= '9'
  {
    ('0' as int + d) as char
  }

  /** The decimal text of `n` that a JavaScript template literal produces for a
      non-negative safe integer. */
  function Decimal(n: nat): (s: string)
    ensures s != []
    ensures forall i :: 0 <= i < |s| ==> '0' <= s[i] <= '9'
    ensures s[0] == '0' ==> n == 0
    ensures n < 10 <==> |s| == 1
  {
    if n < 10 then [DigitChar(n)] else Decimal(n / 10) + [DigitChar(n % 10)]
  }

  predicate IsDigits(s: string) {
    forall i :: 0 <= i < |s| ==> '0' <= s[i] <= '9'
  }

  /** Reads a string of decimal digits back as a number. */
  function DecimalValue(s: string): nat
    requires IsDigits(s)
  {
    if s == [] then 0 else DecimalValue(s[..|s| - 1]) * 10 + (s[|s| - 1] as int - '0' as int)
  }

  lemma {:induction false} DecimalRoundTrip(n: nat)
    ensures DecimalValue(Decimal(n)) == n
  {
    if n >= 10 {
      var s := Decimal(n);
      assert s[..|s| - 1] == Decimal(n / 10);
      DecimalRoundTrip(n / 10);
    }
  }

  /** Distinct numbers have distinct decimal texts. */
  lemma DecimalInjective(m: nat, n: nat)
    requires Decimal(m) == Decimal(n)
    ensures m == n
  {
    DecimalRoundTrip(m);
    DecimalRoundTrip(n);
  }
}
