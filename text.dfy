/**
 * The handful of Python string operations the system relies on: `lower()`,
 * `strip()`, `in` (substring test), `split(sep)[0]`, `split()[-1]`, `int()`
 * on a token, `str()` of a non-negative integer and `re.findall(r'\d+')[0]`.
 * Characters are modelled as ASCII where case or whitespace matters.
 */
module Text {
  import opened Wrappers

  /** Whitespace as `str.split()` and `str.strip()` see it (ASCII part). */
  predicate IsSpace(c: char) {
    c == ' ' || 9 <= c as int <= 13 || 28 <= c as int <= 31
  }

  predicate IsDigit(c: char) {
    '0' <= c <= '9'
  }

  predicate IsUpper(c: char) {
    'A' <= c <= 'Z'
  }

  function LowerChar(c: char): (r: char)
    ensures !IsUpper(r)
    ensures !IsUpper(c) ==> r == c
    ensures IsSpace(r) <==> IsSpace(c)
    ensures IsDigit(r) <==> IsDigit(c)
  {
    if IsUpper(c) then (c as int + 32) as char else c
  }

  /** `s.lower()`, restricted to ASCII letters. */
  function Lower(s: string): (r: string)
    ensures |r| == |s|
    ensures forall i :: 0 <= i < |s| ==> r[i] == LowerChar(s[i])
  {
    seq(|s|, i requires 0 <= i < |s| => LowerChar(s[i]))
  }

  predicate NoUpper(s: string) {
    forall i :: 0 <= i < |s| ==> !IsUpper(s[i])
  }

  /** Lower-casing leaves text without upper-case letters unchanged, so it is idempotent. */
  lemma LowerOfNoUpper(s: string)
    requires NoUpper(s)
    ensures Lower(s) == s
  {
  }

  /** Drops trailing whitespace. */
  function TrimEnd(s: string): (r: string)
    ensures |r| <= |s| && r == s[..|r|]
    ensures r == [] || !IsSpace(r[|r| - 1])
    ensures forall i :: |r| <= i < |s| ==> IsSpace(s[i])
    decreases |s|
  {
    if s != [] && IsSpace(s[|s| - 1]) then TrimEnd(s[..|s| - 1]) else s
  }

  /** Drops leading whitespace. */
  function TrimStart(s: string): (r: string)
    ensures |r| <= |s| && r == s[|s| - |r|..]
    ensures r == [] || !IsSpace(r[0])
    ensures forall i :: 0 <= i < |s| - |r| ==> IsSpace(s[i])
    decreases |s|
  {
    if s != [] && IsSpace(s[0]) then TrimStart(s[1..]) else s
  }

  /** `s.strip()`. */
  function Strip(s: string): string {
    TrimStart(TrimEnd(s))
  }

  /** `s.lower().strip()`, the normalisation applied to city names throughout the system. */
  function Normalize(s: string): string {
    Strip(Lower(s))
  }

  /** Lower-casing commutes with dropping trailing whitespace, because it maps whitespace to whitespace. */
  lemma {:induction false} LowerTrimEnd(s: string)
    ensures Lower(TrimEnd(s)) == TrimEnd(Lower(s))
    decreases |s|
  {
    if s != [] && IsSpace(s[|s| - 1]) {
      assert Lower(s)[..|s| - 1] == Lower(s[..|s| - 1]);
      LowerTrimEnd(s[..|s| - 1]);
    }
  }

  /** Lower-casing commutes with dropping leading whitespace. */
  lemma {:induction false} LowerTrimStart(s: string)
    ensures Lower(TrimStart(s)) == TrimStart(Lower(s))
    decreases |s|
  {
    if s != [] && IsSpace(s[0]) {
      assert Lower(s)[1..] == Lower(s[1..]);
      LowerTrimStart(s[1..]);
    }
  }

  /** Stripping twice is stripping once. */
  lemma StripIdempotent(s: string)
    ensures Strip(Strip(s)) == Strip(s)
  {
    var t := TrimEnd(s);
    var u := TrimStart(t);
    assert u == [] || u[|u| - 1] == t[|t| - 1];
    assert TrimEnd(u) == u;
    assert TrimStart(u) == u;
  }

  /** Normalising a normalised name changes nothing: lookups keyed by `Normalize` ignore case and surrounding whitespace. */
  lemma NormalizeIdempotent(s: string)
    ensures Normalize(Normalize(s)) == Normalize(s)
  {
    var l := Lower(s);
    LowerTrimEnd(l);
    LowerTrimStart(TrimEnd(l));
    LowerOfNoUpper(l);
    assert Lower(Strip(l)) == Strip(Lower(l));
    StripIdempotent(l);
  }

  /** Upper- or lower-case spelling of a name normalises to the same key. */
  lemma NormalizeOfLower(s: string)
    ensures Normalize(Lower(s)) == Normalize(s)
  {
    LowerOfNoUpper(Lower(s));
  }

  predicate OccursAt(s: string, pat: string, i: nat) {
    i + |pat| <= |s| && s[i..i + |pat|] == pat
  }

  /** Index of the first occurrence of `pat` in `s` (`s.find(pat)` when it is not -1). */
  function IndexOf(s: string, pat: string): (r: Option<nat>)
    ensures r.Some? ==> OccursAt(s, pat, r.value)
    ensures r.Some? ==> forall j: nat :: j < r.value ==> !OccursAt(s, pat, j)
    ensures r.None? ==> forall j: nat :: !OccursAt(s, pat, j)
    decreases |s|
  {
    if |pat| > |s| then None
    else if s[..|pat|] == pat then Some(0)
    else
      match IndexOf(s[1..], pat)
      case None =>
        assert forall j: nat :: !OccursAt(s, pat, j) by {
          forall j: nat ensures !OccursAt(s, pat, j) {
            if j > 0 { OccursShift(s, pat, j - 1); }
          }
        }
        None
      case Some(i) =>
        OccursShift(s, pat, i);
        assert forall j: nat :: j < i + 1 ==> !OccursAt(s, pat, j) by {
          forall j: nat | j < i + 1 ensures !OccursAt(s, pat, j) {
            if j > 0 { OccursShift(s, pat, j - 1); }
          }
        }
        Some(i + 1)
  }

  lemma OccursShift(s: string, pat: string, j: nat)
    requires s != []
    ensures OccursAt(s, pat, j + 1) <==> OccursAt(s[1..], pat, j)
  {
    if j + 1 + |pat| <= |s| {
      assert s[1..][j..j + |pat|] == s[j + 1..j + 1 + |pat|];
    }
  }

  /** Python's `pat in s`. */
  predicate Contains(s: string, pat: string) {
    IndexOf(s, pat).Some?
  }

  lemma ContainsIff(s: string, pat: string)
    ensures Contains(s, pat) <==> exists j: nat :: OccursAt(s, pat, j)
  {
  }

  /** Any of `words` occurs in `s`: `any(w in s for w in words)`. */
  predicate ContainsAny(s: string, words: seq<string>) {
    exists k :: 0 <= k < |words| && Contains(s, words[k])
  }

  /** `s.split(pat)[0]`: the text before the first occurrence of `pat`, or all of `s`. */
  function BeforeFirst(s: string, pat: string): (r: string)
    ensures |pat| > 0 && Contains(s, pat) ==> !Contains(r, pat)
    ensures |r| <= |s| && r == s[..|r|]
  {
    match IndexOf(s, pat)
    case None => s
    case Some(i) =>
      var r := s[..i];
      assert forall j: nat :: OccursAt(r, pat, j) ==> OccursAt(s, pat, j) by {
        forall j: nat | OccursAt(r, pat, j) ensures OccursAt(s, pat, j) {
          assert r[j..j + |pat|] == s[j..j + |pat|];
        }
      }
      r
  }

  /** `s.split(pat)[1]`, defined when `pat` occurs in `s`: the text between the first and the second occurrence. */
  function SecondField(s: string, pat: string): string
    requires Contains(s, pat)
  {
    var i := IndexOf(s, pat).value;
    BeforeFirst(s[i + |pat|..], pat)
  }

  /** The last element of `s.split()`, if the text holds any non-whitespace character. */
  function LastWord(s: string): (r: Option<string>)
    ensures r.Some? ==> |r.value| > 0 && forall i :: 0 <= i < |r.value| ==> !IsSpace(r.value[i])
  {
    var t := TrimEnd(s);
    if t == [] then None else Some(TrailingWord(t))
  }

  /** The longest suffix of `t` free of whitespace. */
  function TrailingWord(t: string): (r: string)
    ensures forall i :: 0 <= i < |r| ==> !IsSpace(r[i])
    ensures t != [] && !IsSpace(t[|t| - 1]) ==> |r| > 0
    decreases |t|
  {
    if t != [] && !IsSpace(t[|t| - 1]) then TrailingWord(t[..|t| - 1]) + [t[|t| - 1]] else []
  }

  /** `c` does not occur in `s`. */
  predicate Avoids(s: string, c: char) {
    forall i :: 0 <= i < |s| ==> s[i] != c
  }

  /** A pattern whose first letter `a` avoids occurs in `a + pat + b` first right after `a`. */
  lemma {:induction false} FirstOccurrence(a: string, pat: string, b: string)
    requires pat != [] && Avoids(a, pat[0])
    ensures IndexOf(a + pat + b, pat) == Some(|a|)
    ensures BeforeFirst(a + pat + b, pat) == a
  {
    var s := a + pat + b;
    assert s[|a|..|a| + |pat|] == pat;
    assert OccursAt(s, pat, |a|);
    forall j: nat | j < |a|
      ensures !OccursAt(s, pat, j)
    {
      if j + |pat| <= |s| {
        assert s[j..j + |pat|][0] == a[j];
      }
    }
    assert s[..|a|] == a;
  }

  /** A text avoiding the first letter of `pat` does not contain `pat`. */
  lemma {:induction false} AvoidsFirstLetter(s: string, pat: string)
    requires pat != [] && Avoids(s, pat[0])
    ensures !Contains(s, pat)
  {
    forall j: nat
      ensures !OccursAt(s, pat, j)
    {
      if j + |pat| <= |s| {
        assert s[j..j + |pat|][0] == s[j];
      }
    }
  }

  /** The last word of `p + w + " "`, where `p` is empty or ends in whitespace, is `w`. */
  lemma {:induction false} LastWordOf(p: string, w: string)
    requires w != [] && forall i :: 0 <= i < |w| ==> !IsSpace(w[i])
    requires p == [] || IsSpace(p[|p| - 1])
    ensures LastWord(p + w + " ") == Some(w)
  {
    var t := p + w;
    assert (t + " ")[..|t|] == t;
    assert TrimEnd(t + " ") == TrimEnd(t);
    assert TrimEnd(t) == t;
    TrailingWordOf(p, w);
  }

  lemma {:induction false} TrailingWordOf(p: string, w: string)
    requires forall i :: 0 <= i < |w| ==> !IsSpace(w[i])
    requires p == [] || IsSpace(p[|p| - 1])
    ensures TrailingWord(p + w) == w
    decreases |w|
  {
    if w == [] {
      assert p + w == p;
    } else {
      var v := w[..|w| - 1];
      var t := p + w;
      assert t[|t| - 1] == w[|w| - 1];
      assert t[..|t| - 1] == p + v;
      assert TrailingWord(t) == TrailingWord(p + v) + [w[|w| - 1]];
      TrailingWordOf(p, v);
      assert w == v + [w[|w| - 1]];
    }
  }

  predicate AllDigits(w: string) {
    forall i :: 0 <= i < |w| ==> IsDigit(w[i])
  }

  function DigitValue(c: char): nat
    requires IsDigit(c)
  {
    c as int - '0' as int
  }

  function DigitChar(d: nat): (c: char)
    requires d < 10
    ensures IsDigit(c) && DigitValue(c) == d
  {
    ('0' as int + d) as char
  }

  /** The value of a string of decimal digits. */
  function DigitsValue(w: string): nat
    requires AllDigits(w)
  {
    if w == [] then 0 else DigitsValue(w[..|w| - 1]) * 10 + DigitValue(w[|w| - 1])
  }

  /** `str(n)` for a non-negative integer. */
  function NatToString(n: nat): (r: string)
    ensures |r| > 0 && AllDigits(r)
    decreases n
  {
    if n < 10 then [DigitChar(n)] else NatToString(n / 10) + [DigitChar(n % 10)]
  }

  /** Reading back the decimal text of `n` gives `n`. */
  lemma {:induction false} NatToStringRoundTrip(n: nat)
    ensures DigitsValue(NatToString(n)) == n
    decreases n
  {
    if n >= 10 {
      var w := NatToString(n);
      assert w[..|w| - 1] == NatToString(n / 10);
      NatToStringRoundTrip(n / 10);
    }
  }

  /** `int(w)` for a token without whitespace: an optional sign and at least one digit, else ValueError (`None`). */
  function ParseInt(w: string): (r: Option<int>)
    ensures AllDigits(w) && w != [] ==> r == Some(DigitsValue(w) as int)
  {
    if w != [] && (w[0] == '-' || w[0] == '+') then
      var body := w[1..];
      if body != [] && AllDigits(body) then
        Some(if w[0] == '-' then -(DigitsValue(body) as int) else DigitsValue(body) as int)
      else None
    else if w != [] && AllDigits(w) then Some(DigitsValue(w) as int)
    else None
  }

  /** The longest prefix of `s` made of digits. */
  function LeadingDigits(s: string): (r: string)
    ensures |r| <= |s| && r == s[..|r|] && AllDigits(r)
    ensures |r| < |s| ==> !IsDigit(s[|r|])
    decreases |s|
  {
    if s != [] && IsDigit(s[0]) then [s[0]] + LeadingDigits(s[1..]) else []
  }

  /** `int(re.findall(r'\d+', s)[0])`: the value of the first run of digits, if there is one. */
  function FirstNumber(s: string): (r: Option<nat>)
    ensures r.None? <==> forall i :: 0 <= i < |s| ==> !IsDigit(s[i])
    decreases |s|
  {
    if s == [] then None
    else if IsDigit(s[0]) then Some(DigitsValue(LeadingDigits(s)))
    else FirstNumber(s[1..])
  }
}
