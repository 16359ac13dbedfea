/** String helpers shared by the screens: the JavaScript string operations
    the app relies on (lower-casing, `includes`, `trim`, first-occurrence
    `replace`, the digit strip `replace(/[^0-9]/g, '')` followed by
    `parseInt`, and number-to-decimal-string conversion). */
module Text {

  /** The rupee sign that prefixes every price string. */
  const Rupee: char := '\U{20B9}'

  /** The address of a catalogue photo on the image service the seeded
      products use: `https://images.unsplash.com/<photo>?w=<width>&q=80`. */
  function Unsplash(photo: string, width: string): string {
    "https://images.unsplash.com/" + photo + "?w=" + width + "&q=80"
  }

  // ---------------------------------------------------------------------
  // Case folding (ASCII only)
  // ---------------------------------------------------------------------

  function LowerChar(c: char): (r: char)
    ensures 'A' <= c <= 'Z' ==> r as int == c as int + 32
    ensures !('A' <= c <= 'Z') ==> r == c
  {
    if 'A' <= c <= 'Z' then (c as int + 32) as char else c
  }

  /** `toLowerCase`, restricted to the ASCII letters. */
  function Lower(s: string): (r: string)
    ensures |r| == |s|
    ensures forall i :: 0 <= i < |s| ==> r[i] == LowerChar(s[i])
  {
    seq(|s|, i requires 0 <= i < |s| => LowerChar(s[i]))
  }

  lemma LowerConcat(a: string, b: string)
    ensures Lower(a + b) == Lower(a) + Lower(b)
  {
  }

  // ---------------------------------------------------------------------
  // Substring search: `String.prototype.includes`
  // ---------------------------------------------------------------------

  predicate IsPrefix(p: string, s: string) {
    |p| <= |s| && s[..|p|] == p
  }

  /** `s.includes(sub)`: some window of `s` equals `sub`. */
  predicate Contains(s: string, sub: string)
    decreases |s|
  {
    IsPrefix(sub, s) || (|s| > 0 && Contains(s[1..], sub))
  }

  /** `sub` sits in `s` at position `i`. */
  ghost predicate OccursAt(s: string, sub: string, i: int) {
    0 <= i && i + |sub| <= |s| && s[i..i + |sub|] == sub
  }

  /** An occurrence at any position is found by `Contains`. */
  lemma {:induction false} OccurrenceIsContained(s: string, sub: string, i: int)
    requires OccursAt(s, sub, i)
    ensures Contains(s, sub)
    decreases i
  {
    if i == 0 {
      assert s[..|sub|] == s[0..0 + |sub|];
    } else {
      assert s[1..][i - 1..i - 1 + |sub|] == s[i..i + |sub|];
      OccurrenceIsContained(s[1..], sub, i - 1);
    }
  }

  /** `Contains` only succeeds where there is an occurrence. */
  lemma {:induction false} ContainedHasOccurrence(s: string, sub: string)
    requires Contains(s, sub)
    ensures exists i :: OccursAt(s, sub, i)
    decreases |s|
  {
    if IsPrefix(sub, s) {
      assert OccursAt(s, sub, 0);
    } else {
      ContainedHasOccurrence(s[1..], sub);
      var i :| OccursAt(s[1..], sub, i);
      assert s[i + 1..i + 1 + |sub|] == s[1..][i..i + |sub|];
      assert OccursAt(s, sub, i + 1);
    }
  }

  /** `Contains` agrees with the explicit definition by a window position. */
  lemma ContainsAt(s: string, sub: string)
    ensures Contains(s, sub) <==> exists i :: OccursAt(s, sub, i)
  {
    if Contains(s, sub) {
      ContainedHasOccurrence(s, sub);
    }
    if exists i :: OccursAt(s, sub, i) {
      var i :| OccursAt(s, sub, i);
      OccurrenceIsContained(s, sub, i);
    }
  }

  /** Anything containing `q + t` also contains `q`. */
  lemma {:induction false} ContainsPrefixOfPattern(s: string, q: string, t: string)
    requires Contains(s, q + t)
    ensures Contains(s, q)
    decreases |s|
  {
    if IsPrefix(q + t, s) {
      assert s[..|q|] == (q + t)[..|q|] == q;
    } else {
      ContainsPrefixOfPattern(s[1..], q, t);
    }
  }

  /** A string shorter than the pattern does not contain it. */
  lemma {:induction false} ShortNotContains(s: string, sub: string)
    requires |s| < |sub|
    ensures !Contains(s, sub)
    decreases |s|
  {
    if |s| > 0 {
      ShortNotContains(s[1..], sub);
    }
  }

  /** A pattern whose first character is absent is not contained. */
  lemma {:induction false} MissingFirstNotContains(s: string, sub: string)
    requires |sub| > 0 && sub[0] !in s
    ensures !Contains(s, sub)
    decreases |s|
  {
    if |s| > 0 {
      assert s[0] != sub[0];
      MissingFirstNotContains(s[1..], sub);
    }
  }

  /** Every string contains the empty string (`"abc".includes("")`). */
  lemma ContainsEmpty(s: string)
    ensures Contains(s, "")
  {
    assert IsPrefix("", s);
  }

  // ---------------------------------------------------------------------
  // `String.prototype.replace(pattern, replacement)` with a string
  // pattern: only the first occurrence is replaced.
  // ---------------------------------------------------------------------

  function ReplaceFirst(s: string, pat: string, rep: string): (r: string)
    ensures !Contains(s, pat) ==> r == s
    decreases |s|
  {
    if IsPrefix(pat, s) then rep + s[|pat|..]
    else if |s| == 0 then s
    else [s[0]] + ReplaceFirst(s[1..], pat, rep)
  }

  /** A string holding the pattern: the replacement goes in at the first
      position where the pattern occurs, in place of that one occurrence,
      and the rest of the string is kept on both sides. */
  lemma {:induction false} ReplaceFirstAtFirstOccurrence(s: string, pat: string, rep: string) returns (k: nat)
    requires Contains(s, pat)
    ensures OccursAt(s, pat, k)
    ensures forall j :: 0 <= j < k ==> !OccursAt(s, pat, j)
    ensures ReplaceFirst(s, pat, rep) == s[..k] + rep + s[k + |pat|..]
    decreases |s|
  {
    if IsPrefix(pat, s) {
      k := 0;
      assert s[..0] + rep + s[|pat|..] == rep + s[|pat|..];
    } else {
      var k' := ReplaceFirstAtFirstOccurrence(s[1..], pat, rep);
      FirstOccurrenceStep(s, pat, rep, k');
      k := k' + 1;
    }
  }

  /** The inductive step: the first occurrence in the tail, one further
      on, is the first occurrence in a string the pattern does not start. */
  lemma FirstOccurrenceStep(s: string, pat: string, rep: string, k: nat)
    requires |s| > 0 && !IsPrefix(pat, s)
    requires OccursAt(s[1..], pat, k)
    requires forall j :: 0 <= j < k ==> !OccursAt(s[1..], pat, j)
    requires ReplaceFirst(s[1..], pat, rep) == s[1..][..k] + rep + s[1..][k + |pat|..]
    ensures OccursAt(s, pat, k + 1)
    ensures forall j :: 0 <= j < k + 1 ==> !OccursAt(s, pat, j)
    ensures ReplaceFirst(s, pat, rep) == s[..k + 1] + rep + s[k + 1 + |pat|..]
  {
    OccursAtTail(s, pat, k + 1);
    forall j | 0 <= j < k + 1 ensures !OccursAt(s, pat, j) {
      if j > 0 {
        OccursAtTail(s, pat, j);
      }
    }
    var rest := s[k + 1 + |pat|..];
    assert s[1..][k + |pat|..] == rest;
    assert ReplaceFirst(s[1..], pat, rep) == s[1..][..k] + (rep + rest);
    ReplaceFirstSkipsHead(s, pat, rep);
    ReplaceFirstPastHead(s, k, rep + rest);
    assert s[..k + 1] + (rep + rest) == s[..k + 1] + rep + rest;
  }

  lemma ReplaceFirstSkipsHead(s: string, pat: string, rep: string)
    requires |s| > 0 && !IsPrefix(pat, s)
    ensures ReplaceFirst(s, pat, rep) == [s[0]] + ReplaceFirst(s[1..], pat, rep)
  {
  }

  /** Past the first character, occurrences are those of the tail. */
  lemma OccursAtTail(s: string, pat: string, j: int)
    requires |s| > 0 && j > 0
    ensures OccursAt(s, pat, j) <==> OccursAt(s[1..], pat, j - 1)
  {
    if j + |pat| <= |s| {
      assert s[j..j + |pat|] == s[1..][j - 1..j - 1 + |pat|];
    }
  }

  lemma ReplaceFirstPastHead(s: string, k: nat, t: string)
    requires 0 < |s| && k < |s|
    ensures [s[0]] + (s[1..][..k] + t) == s[..k + 1] + t
  {
    assert [s[0]] + s[1..][..k] == s[..k + 1];
  }

  lemma ReplaceFirstAtFront(pat: string, s: string, rep: string)
    ensures ReplaceFirst(pat + s, pat, rep) == rep + s
  {
    assert IsPrefix(pat, pat + s);
    assert (pat + s)[|pat|..] == s;
  }

  /** A pattern whose first character does not recur in it cannot be
      found in `p + pat` before the appended copy when `p` does not hold
      it, so replacing its first occurrence removes exactly that copy. */
  lemma {:induction false} ReplaceFirstAtEnd(p: string, pat: string)
    requires |pat| > 0 && pat[0] !in pat[1..] && !Contains(p, pat)
    ensures ReplaceFirst(p + pat, pat, "") == p
    decreases |p|
  {
    var s := p + pat;
    if |p| == 0 {
      assert s == pat && IsPrefix(pat, s);
      assert s[|pat|..] == "";
    } else {
      if |p| >= |pat| {
        assert s[..|pat|] == p[..|pat|];
      } else {
        assert s[|p|] == pat[0];
        assert pat[1..][|p| - 1] == pat[|p|];
      }
      assert !IsPrefix(pat, s);
      assert s[1..] == p[1..] + pat;
      ReplaceFirstAtEnd(p[1..], pat);
    }
  }

  // ---------------------------------------------------------------------
  // Digits: `replace(/[^0-9]/g, '')` and `parseInt`
  // ---------------------------------------------------------------------

  predicate IsDigit(c: char) {
    '0' <= c <= '9'
  }

  predicate AllDigits(s: string) {
    forall i :: 0 <= i < |s| ==> IsDigit(s[i])
  }

  /** `s.replace(/[^0-9]/g, '')`: the decimal digits of `s`, in order. */
  function Digits(s: string): (r: string)
    ensures AllDigits(r)
    ensures |r| <= |s|
    ensures AllDigits(s) ==> r == s
  {
    if |s| == 0 then ""
    else if IsDigit(s[0]) then [s[0]] + Digits(s[1..])
    else Digits(s[1..])
  }

  lemma {:induction false} DigitsConcat(a: string, b: string)
    ensures Digits(a + b) == Digits(a) + Digits(b)
    decreases |a|
  {
    if |a| == 0 {
      assert a + b == b;
    } else {
      assert (a + b)[0] == a[0];
      assert (a + b)[1..] == a[1..] + b;
      DigitsConcat(a[1..], b);
    }
  }

  function DigitValue(c: char): (r: nat)
    requires IsDigit(c)
    ensures r < 10
  {
    c as int - '0' as int
  }

  function DigitChar(d: nat): (c: char)
    requires d < 10
    ensures IsDigit(c) && DigitValue(c) == d
  {
    ('0' as int + d) as char
  }

  /** `parseInt` of a string made of decimal digits only; the empty string
      reads as 0, which is what `parseInt(digits || '0')` gives. */
  function DecimalValue(ds: string): nat
    requires AllDigits(ds)
  {
    if |ds| == 0 then 0
    else DecimalValue(ds[..|ds| - 1]) * 10 + DigitValue(ds[|ds| - 1])
  }

  /** `parseInt(s.replace(/[^0-9]/g, '') || '0')`. */
  function DigitsValue(s: string): (r: nat)
    ensures Digits(s) == "" ==> r == 0
  {
    DecimalValue(Digits(s))
  }

  /** The longest run of digits `s` starts with: the integer part that
      `parseFloat` reads. */
  function LeadingDigits(s: string): (r: string)
    ensures AllDigits(r) && |r| <= |s| && r == s[..|r|]
    ensures |r| < |s| ==> !IsDigit(s[|r|])
  {
    if |s| > 0 && IsDigit(s[0]) then [s[0]] + LeadingDigits(s[1..]) else ""
  }

  /** A digit run followed by a non-digit is read up to the non-digit. */
  lemma {:induction false} LeadingDigitsOf(ds: string, rest: string)
    requires AllDigits(ds) && (|rest| == 0 || !IsDigit(rest[0]))
    ensures LeadingDigits(ds + rest) == ds
    decreases |ds|
  {
    if |ds| > 0 {
      assert (ds + rest)[1..] == ds[1..] + rest;
      LeadingDigitsOf(ds[1..], rest);
    } else {
      assert ds + rest == rest;
    }
  }

  /** The decimal rendering of a non-negative integer (`String(n)`,
      `${n}` in a template literal): no sign, no leading zeros. */
  function Decimal(n: nat): (s: string)
    ensures |s| > 0 && AllDigits(s)
    ensures |s| > 1 ==> s[0] != '0'
  {
    if n < 10 then [DigitChar(n)] else Decimal(n / 10) + [DigitChar(n % 10)]
  }

  /** Reading a rendered number back gives the number. */
  lemma {:induction false} DecimalRoundTrip(n: nat)
    ensures DecimalValue(Decimal(n)) == n
  {
    if n >= 10 {
      var s := Decimal(n);
      assert s[..|s| - 1] == Decimal(n / 10);
      DecimalRoundTrip(n / 10);
    }
  }

  /** The digit strip of `"₹" + String(n)` followed by `parseInt` recovers `n`. */
  lemma RupeeAmountRoundTrip(n: nat)
    ensures DigitsValue([Rupee] + Decimal(n)) == n
  {
    DigitsConcat([Rupee], Decimal(n));
    assert Digits([Rupee]) == "";
    assert [] + Decimal(n) == Decimal(n);
    DecimalRoundTrip(n);
  }

  // ---------------------------------------------------------------------
  // `String.prototype.trim`
  // ---------------------------------------------------------------------

  /** The characters `trim` removes: ECMAScript WhiteSpace and LineTerminator. */
  predicate IsJsSpace(c: char) {
    || c == '\t' || c == '\n' || c == '\U{000B}' || c == '\U{000C}' || c == '\r'
    || c == ' ' || c == '\U{00A0}' || c == '\U{1680}'
    || ('\U{2000}' <= c <= '\U{200A}')
    || c == '\U{2028}' || c == '\U{2029}' || c == '\U{202F}' || c == '\U{205F}'
    || c == '\U{3000}' || c == '\U{FEFF}'
  }

  function TrimStart(s: string): (r: string)
    ensures |r| <= |s| && r == s[|s| - |r|..]
    ensures |r| > 0 ==> !IsJsSpace(r[0])
    ensures forall i :: 0 <= i < |s| - |r| ==> IsJsSpace(s[i])
  {
    if |s| > 0 && IsJsSpace(s[0]) then TrimStart(s[1..]) else s
  }

  function TrimEnd(s: string): (r: string)
    ensures |r| <= |s| && r == s[..|r|]
    ensures |r| > 0 ==> !IsJsSpace(r[|r| - 1])
    ensures forall i :: |r| <= i < |s| ==> IsJsSpace(s[i])
  {
    if |s| > 0 && IsJsSpace(s[|s| - 1]) then TrimEnd(s[..|s| - 1]) else s
  }

  function Trim(s: string): string {
    TrimEnd(TrimStart(s))
  }

  /** `!s.trim()`: the string is empty or made of white space only. */
  predicate IsBlank(s: string) {
    Trim(s) == ""
  }

  lemma BlankIffAllSpace(s: string)
    ensures IsBlank(s) <==> forall i :: 0 <= i < |s| ==> IsJsSpace(s[i])
  {
  }
}
