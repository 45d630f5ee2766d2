/** The few Python string operations the adapters rely on: `str.strip()`,
    decimal formatting of an `int` in an f-string, and `str.join`. */
module PyText {

  /** Python's `str.isspace()` for one character: the characters that
      `str.strip()` with no argument removes. */
  predicate IsSpace(c: char) {
    || c == ' '
    || ('\t' <= c <= '\r')
    || ('\U{1c}' <= c <= '\U{1f}')
    || c == '\U{85}'
    || c == '\U{a0}'
    || c == '\U{1680}'
    || ('\U{2000}' <= c <= '\U{200a}')
    || c == '\U{2028}'
    || c == '\U{2029}'
    || c == '\U{202f}'
    || c == '\U{205f}'
    || c == '\U{3000}'
  }

  predicate AllSpace(s: string) {
    forall k :: 0 <= k < |s| ==> IsSpace(s[k])
  }

  /** How many whitespace characters `s` starts with. */
  function LeadingSpace(s: string): (n: nat)
    ensures n <= |s|
  {
    if s != [] && IsSpace(s[0]) then 1 + LeadingSpace(s[1..]) else 0
  }

  /** Where the trailing whitespace of `s` begins: just past its last other
      character, or 0 when there is none. */
  function TrimmedEnd(s: string): (n: nat)
    ensures n <= |s|
  {
    if s != [] && IsSpace(s[|s| - 1]) then TrimmedEnd(s[..|s| - 1]) else |s|
  }

  /** `s.lstrip()`. */
  function TrimLeft(s: string): string {
    s[LeadingSpace(s)..]
  }

  /** `s.rstrip()`. */
  function TrimRight(s: string): string {
    s[..TrimmedEnd(s)]
  }

  /** `s.strip()`. */
  function Strip(s: string): string {
    TrimRight(TrimLeft(s))
  }

  /** The leading run is whitespace and is followed by another character or
      the end of the string. */
  lemma {:induction false} LeadingSpaceSpec(s: string)
    ensures AllSpace(s[..LeadingSpace(s)])
    ensures LeadingSpace(s) == |s| || !IsSpace(s[LeadingSpace(s)])
  {
    if s != [] && IsSpace(s[0]) {
      var t := s[1..];
      LeadingSpaceSpec(t);
      var n := LeadingSpace(t);
      var run, rest := s[..n + 1], t[..n];
      forall k | 0 <= k < |run| ensures IsSpace(run[k]) {
        if k > 0 { assert run[k] == rest[k - 1]; }
      }
    }
  }

  /** Only one length of leading run has that shape. */
  lemma {:induction false} LeadingSpaceAt(s: string, i: nat)
    requires i <= |s| && AllSpace(s[..i])
    requires i == |s| || !IsSpace(s[i])
    ensures LeadingSpace(s) == i
  {
    if i > 0 {
      assert s[..i][0] == s[0];
      var t := s[1..];
      var run, rest := s[..i], t[..i - 1];
      forall k | 0 <= k < |rest| ensures IsSpace(rest[k]) {
        assert rest[k] == run[k + 1];
      }
      LeadingSpaceAt(t, i - 1);
    }
  }

  /** The trailing run is whitespace and is preceded by another character or
      the start of the string. */
  lemma {:induction false} TrimmedEndSpec(s: string)
    ensures AllSpace(s[TrimmedEnd(s)..])
    ensures TrimmedEnd(s) == 0 || !IsSpace(s[TrimmedEnd(s) - 1])
  {
    if s != [] && IsSpace(s[|s| - 1]) {
      var t := s[..|s| - 1];
      TrimmedEndSpec(t);
      var n := TrimmedEnd(t);
      assert forall k :: 0 <= k < |t| - n ==> s[n..][k] == t[n..][k];
      assert s[n..][|s| - 1 - n] == s[|s| - 1];
    }
  }

  /** Only one start of a trailing run has that shape. */
  lemma {:induction false} TrimmedEndAt(s: string, j: nat)
    requires j <= |s| && AllSpace(s[j..])
    requires j == 0 || !IsSpace(s[j - 1])
    ensures TrimmedEnd(s) == j
  {
    if j < |s| {
      assert s[j..][|s| - 1 - j] == s[|s| - 1];
      var t := s[..|s| - 1];
      assert forall k :: 0 <= k < |t| - j ==> t[j..][k] == s[j..][k];
      TrimmedEndAt(t, j);
    }
  }

  lemma {:induction false} AllSpaceConcat(s: string, i: nat)
    requires i <= |s| && AllSpace(s[..i]) && AllSpace(s[i..])
    ensures AllSpace(s)
  {
    forall k | 0 <= k < |s| ensures IsSpace(s[k]) {
      if k < i { assert s[..i][k] == s[k]; } else { assert s[i..][k - i] == s[k]; }
    }
  }

  /** `s.strip()` is the one slice `s[i..j]` that removes only whitespace and
      neither starts nor ends with whitespace. */
  lemma {:induction false} StripIsTheTrimmedSlice(s: string, i: nat, j: nat)
    requires i <= j <= |s|
    requires AllSpace(s[..i]) && AllSpace(s[j..])
    requires i == j || (!IsSpace(s[i]) && !IsSpace(s[j - 1]))
    ensures Strip(s) == s[i..j]
  {
    if i < j {
      LeadingSpaceAt(s, i);
      var l := s[i..];
      assert l[j - i..] == s[j..] && l[j - i - 1] == s[j - 1];
      TrimmedEndAt(l, j - i);
      assert l[..j - i] == s[i..j];
    } else {
      AllSpaceConcat(s, i);
      assert s[..|s|] == s;
      LeadingSpaceAt(s, |s|);
    }
  }

  /** `s.strip()` removes whitespace from both ends and nothing else: it is a
      slice of `s` with only whitespace before and after it, and it neither
      starts nor ends with whitespace. */
  lemma {:induction false} StripRemovesOnlyEdgeSpace(s: string)
    ensures var i := LeadingSpace(s); var j := i + TrimmedEnd(s[i..]);
      && i <= j <= |s| && Strip(s) == s[i..j]
      && AllSpace(s[..i]) && AllSpace(s[j..])
      && (i == j || (!IsSpace(s[i]) && !IsSpace(s[j - 1])))
  {
    var i := LeadingSpace(s);
    var l := s[i..];
    var m := TrimmedEnd(l);
    LeadingSpaceSpec(s);
    TrimmedEndSpec(l);
    assert l[m..] == s[i + m..];
    assert l[..m] == s[i..i + m];
    if m > 0 {
      assert l[0] == s[i] && l[m - 1] == s[i + m - 1];
    }
  }

  /** Stripping twice is stripping once. */
  lemma {:induction false} StripIdempotent(s: string)
    ensures Strip(Strip(s)) == Strip(s)
  {
    var t := Strip(s);
    StripRemovesOnlyEdgeSpace(s);
    assert AllSpace(t[..0]) && AllSpace(t[|t|..]);
    StripIsTheTrimmedSlice(t, 0, |t|);
    assert t[0..|t|] == t;
  }

  /** The character of one decimal digit. */
  function DigitChar(d: nat): (c: char)
    requires d < 10
    ensures '0' <= c <= '9' && c as int - '0' as int == d
  {
    (d + '0' as int) as char
  }

  predicate AllDigits(s: string) {
    forall k :: 0 <= k < |s| ==> '0' <= s[k] <= '9'
  }

  /** `f"{n}"` for a non-negative `int`: its decimal digits, without leading zeros. */
  function DecimalString(n: nat): (r: string)
    ensures |r| >= 1 && AllDigits(r)
    ensures r[0] == '0' ==> n == 0 && r == "0"
  {
    if n < 10 then [DigitChar(n)] else DecimalString(n / 10) + [DigitChar(n % 10)]
  }

  /** The number a string of decimal digits denotes. */
  function DecimalValue(s: string): nat
    requires AllDigits(s)
  {
    if s == [] then 0 else DecimalValue(s[..|s| - 1]) * 10 + (s[|s| - 1] as int - '0' as int)
  }

  /** Formatting a number and reading it back gives the number. */
  lemma {:induction false} DecimalRoundTrip(n: nat)
    ensures DecimalValue(DecimalString(n)) == n
  {
    var r := DecimalString(n);
    if n >= 10 {
      DecimalRoundTrip(n / 10);
      assert r[..|r| - 1] == DecimalString(n / 10);
    } else {
      assert r[..|r| - 1] == [];
    }
  }

  /** `sep.join(xs)`. */
  function Join(sep: string, xs: seq<string>): string {
    if xs == [] then "" else if |xs| == 1 then xs[0] else xs[0] + sep + Join(sep, xs[1..])
  }

  /** `w` stands in `s` from position `i` on. */
  predicate OccursAt(s: string, w: string, i: int) {
    0 <= i && i + |w| <= |s| && s[i..i + |w|] == w
  }

  /** Python's `w in s` for strings. */
  predicate Contains(s: string, w: string) {
    exists i :: 0 <= i <= |s| && OccursAt(s, w, i)
  }

  /** A string that occurs in `s` occurs in every string that has `s` at position `p`. */
  lemma {:induction false} OccursInside(big: string, s: string, p: nat, w: string, i: int)
    requires OccursAt(s, w, i)
    requires p + |s| <= |big| && big[p..p + |s|] == s
    ensures OccursAt(big, w, p + i)
  {
    forall k | 0 <= k < |w| ensures big[p + i + k] == w[k] {
      assert big[p..p + |s|][i + k] == big[p + i + k];
      assert s[i..i + |w|][k] == s[i + k];
    }
    assert big[p + i..p + i + |w|] == w;
  }

  /** Every joined item can be found in the joined string. */
  lemma {:induction false} JoinContainsEach(sep: string, xs: seq<string>, k: nat)
    requires k < |xs|
    ensures Contains(Join(sep, xs), xs[k])
  {
    var j := Join(sep, xs);
    if |xs| == 1 {
      assert OccursAt(j, xs[0], 0);
    } else if k == 0 {
      assert j == xs[0] + (sep + Join(sep, xs[1..]));
      assert j[0..|xs[0]|] == xs[0];
      assert OccursAt(j, xs[0], 0);
    } else {
      var rest := Join(sep, xs[1..]);
      JoinContainsEach(sep, xs[1..], k - 1);
      var i :| 0 <= i <= |rest| && OccursAt(rest, xs[1..][k - 1], i);
      var p := |xs[0]| + |sep|;
      assert j == (xs[0] + sep) + rest;
      assert j[p..p + |rest|] == rest;
      OccursInside(j, rest, p, xs[k], i);
    }
  }
}
