/**
 * String helpers shared by the store, the Discogs helpers and the HTML collector.
 * Python's Unicode character classes (`isspace`, `isalnum`, `isdigit`, `upper`,
 * `lower`, the regular expression `\s`) are modelled on ASCII.
 */
module Text {

  /** Python's whitespace restricted to ASCII: space, \t \n \v \f \r and the separators 0x1C-0x1F. */
  predicate IsSpace(c: char)
  {
    c == ' ' || ('\t' <= c <= '\r') || ('\U{1C}' <= c <= '\U{1F}')
  }

  predicate IsDigit(c: char) { '0' <= c <= '9' }

  predicate IsUpperLetter(c: char) { 'A' <= c <= 'Z' }

  predicate IsLowerLetter(c: char) { 'a' <= c <= 'z' }

  predicate IsAlnum(c: char) { IsDigit(c) || IsUpperLetter(c) || IsLowerLetter(c) }

  function UpperChar(c: char): (u: char)
    ensures !IsLowerLetter(u)
    ensures IsAlnum(u) <==> IsAlnum(c)
    ensures IsSpace(u) <==> IsSpace(c)
  {
    if IsLowerLetter(c) then (c as int - 32) as char else c
  }

  function LowerChar(c: char): (l: char)
    ensures !IsUpperLetter(l)
    ensures IsSpace(l) <==> IsSpace(c)
    ensures !IsUpperLetter(c) ==> l == c
  {
    if IsUpperLetter(c) then (c as int + 32) as char else c
  }

  /** `str.upper()` */
  function Upper(s: string): (r: string)
    ensures |r| == |s|
    ensures forall i :: 0 <= i < |s| ==> r[i] == UpperChar(s[i])
  {
    seq(|s|, i requires 0 <= i < |s| => UpperChar(s[i]))
  }

  /** `str.lower()` */
  function Lower(s: string): (r: string)
    ensures |r| == |s|
    ensures forall i :: 0 <= i < |s| ==> r[i] == LowerChar(s[i])
  {
    seq(|s|, i requires 0 <= i < |s| => LowerChar(s[i]))
  }

  /** The first index from `i` on that holds no whitespace, or `|s|`. */
  function SkipSpaces(s: string, i: nat): (k: nat)
    requires i <= |s|
    ensures i <= k <= |s|
    ensures k < |s| ==> !IsSpace(s[k])
    decreases |s| - i
  {
    if i < |s| && IsSpace(s[i]) then SkipSpaces(s, i + 1) else i
  }

  /** The end of `s[lo..j]` once its trailing whitespace is cut off. */
  function TrimEnd(s: string, lo: nat, j: nat): (k: nat)
    requires lo <= j <= |s|
    ensures lo <= k <= j
    ensures lo < k ==> !IsSpace(s[k - 1])
    decreases j
  {
    if lo < j && IsSpace(s[j - 1]) then TrimEnd(s, lo, j - 1) else j
  }

  /** Everything `SkipSpaces` skips is whitespace. */
  lemma {:induction false} SkippedSpaces(s: string, i: nat)
    requires i <= |s|
    ensures forall m :: i <= m < SkipSpaces(s, i) ==> IsSpace(s[m])
    decreases |s| - i
  {
    if i < |s| && IsSpace(s[i]) {
      SkippedSpaces(s, i + 1);
    }
  }

  /** Everything `TrimEnd` cuts off is whitespace. */
  lemma {:induction false} TrimmedSpaces(s: string, lo: nat, j: nat)
    requires lo <= j <= |s|
    ensures forall m :: TrimEnd(s, lo, j) <= m < j ==> IsSpace(s[m])
    decreases j
  {
    if lo < j && IsSpace(s[j - 1]) {
      TrimmedSpaces(s, lo, j - 1);
    }
  }

  /** Whitespace from `i` up to a non-space at `k` (or the end) is skipped up to `k`. */
  lemma {:induction false} SkipSpacesTo(s: string, i: nat, k: nat)
    requires i <= k <= |s|
    requires forall m :: i <= m < k ==> IsSpace(s[m])
    requires k == |s| || !IsSpace(s[k])
    ensures SkipSpaces(s, i) == k
    decreases k - i
  {
    if i < k {
      SkipSpacesTo(s, i + 1, k);
    }
  }

  /** Whitespace from a non-space before `k` (or `lo`) up to `j` is cut back to `k`. */
  lemma {:induction false} TrimEndTo(s: string, lo: nat, k: nat, j: nat)
    requires lo <= k <= j <= |s|
    requires forall m :: k <= m < j ==> IsSpace(s[m])
    requires k == lo || !IsSpace(s[k - 1])
    ensures TrimEnd(s, lo, j) == k
    decreases j - k
  {
    if k < j {
      TrimEndTo(s, lo, k, j - 1);
    }
  }

  /** `str.lstrip()` */
  function TrimLeft(s: string): string
  {
    s[SkipSpaces(s, 0)..]
  }

  /** No whitespace at either end. */
  predicate Stripped(s: string)
  {
    s == [] || (!IsSpace(s[0]) && !IsSpace(s[|s| - 1]))
  }

  /** `str.strip()`: the longest middle part of `s` that neither starts nor ends
      with whitespace; everything cut off is whitespace. */
  function Strip(s: string): (r: string)
    ensures Stripped(r)
    ensures r == [] <==> AllSpace(s)
  {
    var i := SkipSpaces(s, 0);
    var j := TrimEnd(s, i, |s|);
    StripEmpty(s, i, j);
    s[i..j]
  }

  lemma StripEmpty(s: string, i: nat, j: nat)
    requires i == SkipSpaces(s, 0) && j == TrimEnd(s, i, |s|)
    ensures i == j <==> AllSpace(s)
  {
    SkippedSpaces(s, 0);
    TrimmedSpaces(s, i, |s|);
  }

  /** What `Strip` cuts off at either end is whitespace. */
  lemma StripSlice(s: string) returns (i: nat, j: nat)
    ensures i <= j <= |s| && Strip(s) == s[i..j] && AllSpace(s[..i]) && AllSpace(s[j..])
  {
    i := SkipSpaces(s, 0);
    j := TrimEnd(s, i, |s|);
    SkippedSpaces(s, 0);
    TrimmedSpaces(s, i, |s|);
    var u, v := s[..i], s[j..];
    forall m | 0 <= m < |u| ensures IsSpace(u[m]) {
      assert u[m] == s[m];
    }
    forall m | 0 <= m < |v| ensures IsSpace(v[m]) {
      assert v[m] == s[j + m];
    }
  }

  predicate AllSpace(s: string)
  {
    forall i :: 0 <= i < |s| ==> IsSpace(s[i])
  }

  /** A string already stripped is left alone. */
  lemma StripStripped(s: string)
    requires Stripped(s)
    ensures Strip(s) == s
  {
    if s != [] {
      assert SkipSpaces(s, 0) == 0;
      assert TrimEnd(s, 0, |s|) == |s|;
    }
  }

  /** `str.strip()` is idempotent. */
  lemma StripIdempotent(s: string)
    ensures Strip(Strip(s)) == Strip(s)
  {
    StripStripped(Strip(s));
  }

  /** Python's `sub in s` on strings. */
  predicate Contains(s: string, sub: string)
  {
    sub <= s || (s != [] && Contains(s[1..], sub))
  }

  /** A pattern occurring in `s` starts at some character of `s` that is its first character. */
  lemma {:induction false} ContainsFirstChar(s: string, sub: string)
    requires sub != [] && Contains(s, sub)
    ensures sub[0] in s
  {
    if !(sub <= s) {
      ContainsFirstChar(s[1..], sub);
    }
  }

  /** `sep.join(parts)` */
  function Join(sep: string, parts: seq<string>): string
  {
    if |parts| == 0 then []
    else if |parts| == 1 then parts[0]
    else parts[0] + sep + Join(sep, parts[1..])
  }

  /** The joined string starts with the first part and ends with the last one. */
  lemma {:induction false} JoinEnds(sep: string, parts: seq<string>)
    requires |parts| > 0
    ensures parts[0] <= Join(sep, parts)
    ensures |Join(sep, parts)| >= |parts[|parts| - 1]|
    ensures var j := Join(sep, parts); var last := parts[|parts| - 1];
      j[|j| - |last|..] == last
  {
    if |parts| > 1 {
      JoinEnds(sep, parts[1..]);
    }
  }

  /** Joining one more part appends the separator and that part. */
  lemma {:induction false} JoinSnoc(sep: string, parts: seq<string>, p: string)
    requires parts != []
    ensures Join(sep, parts + [p]) == Join(sep, parts) + sep + p
  {
    var ps := parts + [p];
    assert ps[0] == parts[0];
    if |parts| > 1 {
      assert ps[1..] == parts[1..] + [p];
      JoinSnoc(sep, parts[1..], p);
    } else {
      assert ps[1..] == [p];
    }
  }

  /** Joining chunks that are non-empty and have no whitespace at either end gives a
      string that is non-empty and has none either, so stripping it changes nothing. */
  lemma JoinOfStrippedChunks(sep: string, parts: seq<string>)
    requires |parts| > 0
    requires forall i :: 0 <= i < |parts| ==> parts[i] != [] && Stripped(parts[i])
    ensures Join(sep, parts) != []
    ensures Stripped(Join(sep, parts))
    ensures Strip(Join(sep, parts)) == Join(sep, parts)
  {
    JoinEnds(sep, parts);
    var j := Join(sep, parts);
    var last := parts[|parts| - 1];
    assert j[0] == parts[0][0];
    assert j[|j| - 1] == last[|last| - 1] by {
      assert j[|j| - |last|..][|last| - 1] == last[|last| - 1];
    }
    StripStripped(j);
  }

  /** Python's `s.replace(pat, rep)`: every non-overlapping occurrence of `pat`,
      scanning from the left, is replaced. */
  function ReplaceAll(s: string, pat: string, rep: string): string
    requires pat != []
    decreases |s|
  {
    if pat <= s then rep + ReplaceAll(s[|pat|..], pat, rep)
    else if s == [] then []
    else [s[0]] + ReplaceAll(s[1..], pat, rep)
  }

  /** Replacing a pattern that does not occur changes nothing. */
  lemma {:induction false} ReplaceAllAbsent(s: string, pat: string, rep: string)
    requires pat != []
    requires !Contains(s, pat)
    ensures ReplaceAll(s, pat, rep) == s
    decreases |s|
  {
    if s != [] {
      ReplaceAllAbsent(s[1..], pat, rep);
    }
  }

  /** The only whitespace character in `s` is the plain space. */
  predicate OnlyPlainSpaces(s: string)
  {
    forall i :: 0 <= i < |s| && IsSpace(s[i]) ==> s[i] == ' '
  }

  /** Every whitespace character is a plain space and no two whitespace characters are adjacent. */
  predicate Collapsed(s: string)
  {
    OnlyPlainSpaces(s) && forall i :: 0 <= i < |s| - 1 && IsSpace(s[i]) ==> !IsSpace(s[i + 1])
  }

  /** `re.sub(r"\s+", " ", s)`: each maximal run of whitespace becomes one space. */
  function CollapseWhitespace(s: string): string
    decreases |s|
  {
    if s == [] then []
    else if IsSpace(s[0]) then [' '] + CollapseWhitespace(TrimLeft(s))
    else [s[0]] + CollapseWhitespace(s[1..])
  }

  /** The result of `CollapseWhitespace` is collapsed, is empty only for the empty text, and
      starts like the text, with a space in place of a leading whitespace run. */
  lemma {:induction false} CollapseWhitespaceCollapsed(s: string)
    ensures Collapsed(CollapseWhitespace(s))
    ensures CollapseWhitespace(s) == [] <==> s == []
    ensures s != [] && !IsSpace(s[0]) ==> CollapseWhitespace(s)[0] == s[0]
    ensures s != [] && IsSpace(s[0]) ==> CollapseWhitespace(s)[0] == ' '
    decreases |s|
  {
    if s != [] {
      if IsSpace(s[0]) {
        var t := TrimLeft(s);
        CollapseWhitespaceCollapsed(t);
        ConsCollapsed(' ', CollapseWhitespace(t));
      } else {
        CollapseWhitespaceCollapsed(s[1..]);
        ConsCollapsed(s[0], CollapseWhitespace(s[1..]));
      }
    }
  }

  /** A character in front of a collapsed text keeps it collapsed unless it adds a second
      whitespace character to a run. */
  lemma ConsCollapsed(c: char, rest: string)
    requires Collapsed(rest)
    requires IsSpace(c) ==> c == ' ' && (rest == [] || !IsSpace(rest[0]))
    ensures Collapsed([c] + rest)
  {
    var r := [c] + rest;
    forall i | 0 <= i < |r| && IsSpace(r[i]) ensures r[i] == ' ' {
      if i > 0 {
        assert r[i] == rest[i - 1];
      }
    }
    forall i | 0 <= i < |r| - 1 && IsSpace(r[i]) ensures !IsSpace(r[i + 1]) {
      if i > 0 {
        assert r[i] == rest[i - 1] && r[i + 1] == rest[i];
      }
    }
  }

  /** Replacing with a text whose only whitespace is the plain space keeps that property. */
  lemma {:induction false} ReplaceAllPlainSpaces(s: string, pat: string, rep: string)
    requires pat != []
    requires OnlyPlainSpaces(s) && OnlyPlainSpaces(rep)
    ensures OnlyPlainSpaces(ReplaceAll(s, pat, rep))
    decreases |s|
  {
    if pat <= s {
      ReplaceAllPlainSpaces(s[|pat|..], pat, rep);
    } else if s != [] {
      ReplaceAllPlainSpaces(s[1..], pat, rep);
    }
  }

  /** Stripping cuts out a middle part, which keeps both whitespace properties. */
  lemma StripKeepsCollapsed(s: string)
    ensures OnlyPlainSpaces(s) ==> OnlyPlainSpaces(Strip(s))
    ensures Collapsed(s) ==> Collapsed(Strip(s))
  {
    var i, j := StripSlice(s);
    assert forall k :: 0 <= k < j - i ==> Strip(s)[k] == s[i + k];
  }

  /** A prefix without the pattern's first character passes through a replacement. */
  lemma {:induction false} ReplaceAllNoStart(x: string, b: string, pat: string, rep: string)
    requires pat != [] && pat[0] !in x
    ensures ReplaceAll(x + b, pat, rep) == x + ReplaceAll(b, pat, rep)
    decreases |x|
  {
    if x == [] {
      assert x + b == b;
    } else {
      assert (x + b)[0] == x[0];
      assert (x + b)[1..] == x[1..] + b;
      ReplaceAllNoStart(x[1..], b, pat, rep);
    }
  }

  /** An occurrence at the front is replaced and scanning resumes after it. */
  lemma ReplaceAllAt(b: string, pat: string, rep: string)
    requires pat != []
    ensures ReplaceAll(pat + b, pat, rep) == rep + ReplaceAll(b, pat, rep)
  {
    assert (pat + b)[|pat|..] == b;
  }

  /** A prefix that differs from the pattern in its second character, and holds the
      pattern's first character only at its front, passes through a replacement. */
  lemma ReplaceAllMiss(x: string, b: string, pat: string, rep: string)
    requires |pat| >= 2 && |x| >= 2 && pat[1] != x[1] && pat[0] !in x[1..]
    ensures ReplaceAll(x + b, pat, rep) == x + ReplaceAll(b, pat, rep)
  {
    assert (x + b)[1] == x[1];
    assert (x + b)[1..] == x[1..] + b;
    ReplaceAllNoStart(x[1..], b, pat, rep);
    assert x + b == [x[0]] + (x[1..] + b);
    assert x == [x[0]] + x[1..];
  }

  /** Leading whitespace followed by a non-space ends where the non-space starts. */
  lemma LeadingSpaceOfGap(g: string, t: string)
    requires AllSpace(g) && (t == [] || !IsSpace(t[0]))
    ensures SkipSpaces(g + t, 0) == |g|
  {
    var s := g + t;
    forall m | 0 <= m < |g| ensures IsSpace(s[m]) {
      assert s[m] == g[m];
    }
    if |g| < |s| {
      assert s[|g|] == t[0];
    }
    SkipSpacesTo(s, 0, |g|);
  }

  /** Stripping removes exactly the whitespace padding around a stripped text. */
  lemma StripPadded(p: string, m: string, q: string)
    requires AllSpace(p) && AllSpace(q) && m != [] && Stripped(m)
    ensures Strip(p + m + q) == m
  {
    var s := p + m + q;
    assert s == p + (m + q);
    LeadingSpaceOfGap(p, m + q);
    var k := |p| + |m|;
    forall i | k <= i < |s| ensures IsSpace(s[i]) {
      assert s[i] == q[i - k];
    }
    assert s[k - 1] == m[|m| - 1];
    TrimEndTo(s, |p|, k, |s|);
    assert s[|p|..k] == m;
  }

  /** A word without whitespace is copied by `CollapseWhitespace`. */
  lemma {:induction false} CollapseWord(w: string, t: string)
    requires forall i :: 0 <= i < |w| ==> !IsSpace(w[i])
    ensures CollapseWhitespace(w + t) == w + CollapseWhitespace(t)
    decreases |w|
  {
    if w == [] {
      assert w + t == t;
    } else {
      assert (w + t)[0] == w[0];
      assert (w + t)[1..] == w[1..] + t;
      CollapseWord(w[1..], t);
      assert w == [w[0]] + w[1..];
    }
  }

  /** A whitespace run before a non-space becomes a single space. */
  lemma CollapseGap(g: string, t: string)
    requires g != [] && AllSpace(g) && (t == [] || !IsSpace(t[0]))
    ensures CollapseWhitespace(g + t) == " " + CollapseWhitespace(t)
  {
    LeadingSpaceOfGap(g, t);
    assert (g + t)[0] == g[0];
    assert TrimLeft(g + t) == t;
  }

  /** When whitespace runs are already single spaces, `CollapseWhitespace` changes nothing. */
  lemma {:induction false} CollapsedUnchanged(s: string)
    requires Collapsed(s)
    ensures CollapseWhitespace(s) == s
    decreases |s|
  {
    if s != [] {
      var t := s[1..];
      assert Collapsed(t) by {
        forall i | 0 <= i < |t| - 1 && IsSpace(t[i]) ensures !IsSpace(t[i + 1]) {
          assert t[i] == s[i + 1] && t[i + 1] == s[i + 2];
        }
      }
      if IsSpace(s[0]) {
        LeadingSpaceOfGap([s[0]], t);
        assert s == [s[0]] + t;
        assert TrimLeft(s) == t;
      }
      CollapsedUnchanged(t);
    }
  }

  /** Two collapsed texts meeting at a non-space make a collapsed text. */
  lemma CollapsedConcat(x: string, y: string)
    requires Collapsed(x) && Collapsed(y)
    requires x == [] || y == [] || !IsSpace(x[|x| - 1]) || !IsSpace(y[0])
    ensures Collapsed(x + y)
  {
    var s := x + y;
    forall i | 0 <= i < |s| - 1 && IsSpace(s[i]) ensures !IsSpace(s[i + 1]) {
      if i + 1 < |x| {
        assert s[i] == x[i] && s[i + 1] == x[i + 1];
      } else if i >= |x| {
        assert s[i] == y[i - |x|] && s[i + 1] == y[i + 1 - |x|];
      }
    }
  }

  function DigitChar(d: nat): (c: char)
    requires d < 10
    ensures IsDigit(c)
  {
    ('0' as int + d) as char
  }

  function DigitValue(c: char): (d: nat)
    requires IsDigit(c)
    ensures d < 10 && DigitChar(d) == c
  {
    c as int - '0' as int
  }

  /** Python's `str(n)` for a natural number. */
  function NatToDecimal(n: nat): (r: string)
    ensures r != []
    ensures forall i :: 0 <= i < |r| ==> IsDigit(r[i])
    ensures r[0] == '0' ==> n == 0
  {
    if n < 10 then [DigitChar(n)] else NatToDecimal(n / 10) + [DigitChar(n % 10)]
  }

  /** Python's `str(i)` for an integer. */
  function IntToDecimal(i: int): (r: string)
    ensures r != []
    ensures r[0] == '-' <==> i < 0
  {
    if i < 0 then "-" + NatToDecimal(-i) else NatToDecimal(i)
  }

  predicate AllDigits(s: string)
  {
    forall i :: 0 <= i < |s| ==> IsDigit(s[i])
  }

  /** The number a string of decimal digits stands for (Python's `int(s)`). */
  function DecimalValue(s: string): nat
    requires AllDigits(s)
  {
    if s == [] then 0 else DecimalValue(s[..|s| - 1]) * 10 + DigitValue(s[|s| - 1])
  }

  /** `int(str(n)) == n`. */
  lemma {:induction false} DecimalRoundTrip(n: nat)
    ensures DecimalValue(NatToDecimal(n)) == n
  {
    if n >= 10 {
      var r := NatToDecimal(n);
      assert r[..|r| - 1] == NatToDecimal(n / 10);
      DecimalRoundTrip(n / 10);
    }
  }

  /** `int(str(i)) == i`: a sign for a negative number, then its digits. */
  lemma IntDecimalRoundTrip(i: int)
    ensures i >= 0 ==> AllDigits(IntToDecimal(i)) && DecimalValue(IntToDecimal(i)) == i
    ensures i < 0 ==> AllDigits(IntToDecimal(i)[1..]) && DecimalValue(IntToDecimal(i)[1..]) == -i
  {
    if i < 0 {
      assert IntToDecimal(i)[1..] == NatToDecimal(-i);
      DecimalRoundTrip(-i);
    } else {
      DecimalRoundTrip(i);
    }
  }

  /** Replacing a pattern by itself changes nothing. */
  lemma {:induction false} ReplaceAllSame(s: string, pat: string)
    requires pat != []
    ensures ReplaceAll(s, pat, pat) == s
    decreases |s|
  {
    if pat <= s {
      ReplaceAllSame(s[|pat|..], pat);
      assert s == s[..|pat|] + s[|pat|..];
    } else if s != [] {
      ReplaceAllSame(s[1..], pat);
      assert s == [s[0]] + s[1..];
    }
  }
}
