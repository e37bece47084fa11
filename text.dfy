/**
 * The parts of Go's `strings`, `strconv` and `unicode` packages the compliance suite relies on,
 * over `string` = `seq<char>` (one char per Unicode scalar value, i.e. per Go rune).
 */
module Text {
  import opened Wrappers

  // ---------------------------------------------------------------------------
  // Character classes

  /** Go's `unicode.IsSpace`: the Latin-1 spaces plus the Unicode White_Space runes. */
  predicate IsSpace(c: char)
  {
    c == ' ' || c == '\t' || c == '\n' || c == '\U{000B}' || c == '\U{000C}' || c == '\r'
    || c == '\U{0085}' || c == '\U{00A0}' || c == '\U{1680}'
    || ('\U{2000}' <= c <= '\U{200A}') || c == '\U{2028}' || c == '\U{2029}' || c == '\U{202F}'
    || c == '\U{205F}' || c == '\U{3000}'
  }

  predicate IsAsciiLower(c: char) { 'a' <= c <= 'z' }
  predicate IsAsciiUpper(c: char) { 'A' <= c <= 'Z' }
  predicate IsAsciiDigit(c: char) { '0' <= c <= '9' }
  predicate IsAsciiAlnum(c: char) { IsAsciiLower(c) || IsAsciiUpper(c) || IsAsciiDigit(c) }

  /**
   * Go's `unicode.ToLower` on the runes whose lower case is ASCII: A-Z, the Kelvin sign and
   * the capital I with dot above. Other runes are kept; matching lower-cased text against
   * an ASCII needle is exact under this mapping.
   */
  function LowerRune(c: char): (r: char)
    ensures IsAsciiUpper(c) ==> IsAsciiLower(r)
    ensures !IsAsciiUpper(c) && c != '\U{212A}' && c != '\U{0130}' ==> r == c
  {
    if IsAsciiUpper(c) then (c as int + 32) as char
    else if c == '\U{212A}' then 'k'
    else if c == '\U{0130}' then 'i'
    else c
  }

  function ToLower(s: string): (r: string)
    ensures |r| == |s|
    ensures forall i :: 0 <= i < |s| ==> r[i] == LowerRune(s[i])
  {
    seq(|s|, i requires 0 <= i < |s| => LowerRune(s[i]))
  }

  /**
   * Simple case folding for the runes whose fold orbit contains an ASCII letter: A-Z,
   * the Kelvin sign (with k) and the long s (with s).
   */
  function FoldRune(c: char): char
  {
    if IsAsciiUpper(c) then (c as int + 32) as char
    else if c == '\U{212A}' then 'k'
    else if c == '\U{017F}' then 's'
    else c
  }

  /** Go's `strings.EqualFold`, exact whenever one operand is ASCII. */
  predicate EqualFold(a: string, b: string)
  {
    |a| == |b| && forall i :: 0 <= i < |a| ==> FoldRune(a[i]) == FoldRune(b[i])
  }

  // ---------------------------------------------------------------------------
  // Trimming

  function TrimLeftSpace(s: string): (r: string)
    ensures r == [] || !IsSpace(r[0])
    decreases |s|
  {
    if |s| > 0 && IsSpace(s[0]) then TrimLeftSpace(s[1..]) else s
  }

  function TrimRightSpace(s: string): (r: string)
    ensures r == [] || !IsSpace(r[|r| - 1])
    decreases |s|
  {
    if |s| > 0 && IsSpace(s[|s| - 1]) then TrimRightSpace(s[..|s| - 1]) else s
  }

  /** Go's `strings.TrimSpace`: a slice of `s` that neither starts nor ends with a space. */
  function TrimSpace(s: string): (r: string)
    ensures r == [] || (!IsSpace(r[0]) && !IsSpace(r[|r| - 1]))
  {
    var l := TrimLeftSpace(s);
    TrimRightSpaceIsPrefix(l);
    TrimRightSpace(l)
  }

  lemma {:induction false} TrimLeftSpaceIsSuffix(s: string)
    ensures |TrimLeftSpace(s)| <= |s| && TrimLeftSpace(s) == s[|s| - |TrimLeftSpace(s)|..]
    decreases |s|
  {
    if |s| > 0 && IsSpace(s[0]) {
      TrimLeftSpaceIsSuffix(s[1..]);
    }
  }

  lemma {:induction false} TrimRightSpaceIsPrefix(s: string)
    ensures |TrimRightSpace(s)| <= |s| && TrimRightSpace(s) == s[..|TrimRightSpace(s)|]
    decreases |s|
  {
    if |s| > 0 && IsSpace(s[|s| - 1]) {
      TrimRightSpaceIsPrefix(s[..|s| - 1]);
    }
  }

  /** The trimmed text is a slice of the original. */
  lemma TrimSpaceIsSlice(s: string)
    ensures Contains(s, TrimSpace(s))
  {
    TrimLeftSpaceIsSuffix(s);
    TrimRightSpaceIsPrefix(TrimLeftSpace(s));
    var l := TrimLeftSpace(s);
    var r := TrimRightSpace(l);
    assert r == s[|s| - |l|..][..|r|] == s[|s| - |l|..|s| - |l| + |r|];
    assert OccursAt(s, r, |s| - |l|);
  }

  lemma TrimSpaceIdempotent(s: string)
    ensures TrimSpace(TrimSpace(s)) == TrimSpace(s)
  {
    var t := TrimSpace(s);
    assert TrimLeftSpace(t) == t;
    assert TrimRightSpace(t) == t;
  }

  /** Every rune of a slice of `s` is a rune of `s`. */
  lemma ContainedRunes(s: string, t: string)
    requires Contains(s, t)
    ensures forall c :: c in t ==> c in s
  {
    var i :| 0 <= i <= |s| && OccursAt(s, t, i);
    assert s[i..i + |t|] == t;
    forall k | 0 <= k < |t|
      ensures t[k] in s
    {
      assert t[k] == s[i + k];
    }
  }

  function TrimLeftRune(s: string, c: char): (r: string)
    ensures |r| <= |s| && r == s[|s| - |r|..]
    ensures r == [] || r[0] != c
    ensures forall k :: 0 <= k < |s| - |r| ==> s[k] == c
    decreases |s|
  {
    if |s| > 0 && s[0] == c then TrimLeftRune(s[1..], c) else s
  }

  /** Go's `strings.TrimRight(s, cutset)` for a one-rune cut set. */
  function TrimRightRune(s: string, c: char): (r: string)
    ensures |r| <= |s| && r == s[..|r|]
    ensures r == [] || r[|r| - 1] != c
    ensures forall k :: |r| <= k < |s| ==> s[k] == c
    decreases |s|
  {
    if |s| > 0 && s[|s| - 1] == c then TrimRightRune(s[..|s| - 1], c) else s
  }

  /** Go's `strings.Trim(s, cutset)` for a one-rune cut set. */
  function TrimRune(s: string, c: char): (r: string)
    ensures r == [] || (r[0] != c && r[|r| - 1] != c)
  {
    var l := TrimLeftRune(s, c);
    var r := TrimRightRune(l, c);
    assert r == [] || r[0] == l[0];
    r
  }

  // ---------------------------------------------------------------------------
  // Substrings

  predicate HasPrefix(s: string, p: string) { |p| <= |s| && s[..|p|] == p }
  predicate HasSuffix(s: string, p: string) { |p| <= |s| && s[|s| - |p|..] == p }

  /** `sub` occurs in `s` starting at position `i`. */
  predicate OccursAt(s: string, sub: string, i: int)
  {
    0 <= i && i + |sub| <= |s| && s[i..i + |sub|] == sub
  }

  /** Go's `strings.Contains`. */
  predicate Contains(s: string, sub: string)
  {
    exists i | 0 <= i <= |s| :: OccursAt(s, sub, i)
  }

  /** An occurrence past the first rune is an occurrence in the tail. */
  lemma OccursInTail(s: string, sub: string, j: int)
    requires j >= 1 && |s| >= 1
    ensures OccursAt(s, sub, j) <==> OccursAt(s[1..], sub, j - 1)
  {
    if j + |sub| <= |s| {
      var t := s[1..];
      assert t[j - 1..j - 1 + |sub|] == s[j..j + |sub|] by {
        forall m | j <= m < j + |sub|
          ensures t[m - 1] == s[m]
        {
        }
      }
    }
  }

  /** Go's `strings.Index`: the first position of `sub` in `s`. */
  function IndexOf(s: string, sub: string): (r: Option<nat>)
    ensures r.Some? ==> OccursAt(s, sub, r.value)
    ensures r.Some? ==> forall j :: 0 <= j < r.value ==> !OccursAt(s, sub, j)
    ensures r.None? ==> forall j :: !OccursAt(s, sub, j)
    decreases |s|
  {
    if |s| < |sub| then None
    else if s[..|sub|] == sub then Some(0)
    else
      var t := IndexOf(s[1..], sub);
      assert s[0..|sub|] == s[..|sub|];
      forall j | j >= 1
        ensures OccursAt(s, sub, j) <==> OccursAt(s[1..], sub, j - 1)
      {
        OccursInTail(s, sub, j);
      }
      if t.None? then None else Some(t.value + 1)
  }

  /** `strings.Split(s, sep)[0]` for a non-empty `sep`: the text before the first `sep`, or all of `s`. */
  function Before(s: string, sep: string): (r: string)
    requires |sep| > 0
    ensures HasPrefix(s, r)
    ensures !Contains(r, sep)
    ensures Contains(s, sep) ==> HasPrefix(s, r + sep)
    ensures !Contains(s, sep) ==> r == s
  {
    match IndexOf(s, sep)
    case None => s
    case Some(k) =>
      var r := s[..k];
      assert s[..k + |sep|] == r + sep;
      forall j | 0 <= j <= |r|
        ensures !OccursAt(r, sep, j)
      {
        if OccursAt(r, sep, j) {
          assert s[j..j + |sep|] == r[j..j + |sep|];
          assert OccursAt(s, sep, j);
        }
      }
      r
  }

  /** Go's `strings.ReplaceAll` for a non-empty `pat`: leftmost, non-overlapping replacement. */
  function ReplaceAll(s: string, pat: string, rep: string): string
    requires |pat| > 0
    decreases |s|
  {
    if |s| < |pat| then s
    else if s[..|pat|] == pat then rep + ReplaceAll(s[|pat|..], pat, rep)
    else [s[0]] + ReplaceAll(s[1..], pat, rep)
  }

  /** Replacing text that does not occur is the identity. */
  lemma {:induction false} ReplaceAllAbsent(s: string, pat: string, rep: string)
    requires |pat| > 0 && !Contains(s, pat)
    ensures ReplaceAll(s, pat, rep) == s
    decreases |s|
  {
    if |s| >= |pat| {
      assert !OccursAt(s, pat, 0);
      forall i | OccursAt(s[1..], pat, i)
        ensures false
      {
        assert s[i + 1..i + 1 + |pat|] == s[1..][i..i + |pat|];
        assert OccursAt(s, pat, i + 1);
      }
      ReplaceAllAbsent(s[1..], pat, rep);
    }
  }

  // ---------------------------------------------------------------------------
  // Split and Join

  /** Go's `strings.Split` with a one-rune separator: always at least one field. */
  function SplitOn(s: string, c: char): (r: seq<string>)
    ensures |r| >= 1
    decreases |s|
  {
    if |s| == 0 then [""]
    else
      var p := SplitOn(s[..|s| - 1], c);
      if s[|s| - 1] == c then p + [""]
      else p[..|p| - 1] + [p[|p| - 1] + [s[|s| - 1]]]
  }

  /** Go's `strings.Join`. */
  function JoinWith(parts: seq<string>, sep: string): string
  {
    if |parts| == 0 then ""
    else if |parts| == 1 then parts[0]
    else JoinWith(parts[..|parts| - 1], sep) + sep + parts[|parts| - 1]
  }

  lemma JoinAppendEmpty(p: seq<string>, sep: string)
    requires |p| >= 1
    ensures JoinWith(p + [""], sep) == JoinWith(p, sep) + sep
  {
    assert (p + [""])[..|p|] == p;
  }

  lemma JoinExtendLast(p: seq<string>, sep: string, x: char)
    requires |p| >= 1
    ensures JoinWith(p[..|p| - 1] + [p[|p| - 1] + [x]], sep) == JoinWith(p, sep) + [x]
  {
    var q := p[..|p| - 1] + [p[|p| - 1] + [x]];
    if |p| > 1 {
      assert q[..|q| - 1] == p[..|p| - 1];
      assert JoinWith(q, sep) == JoinWith(p[..|p| - 1], sep) + sep + (p[|p| - 1] + [x]);
    }
  }

  /** Joining the fields of a split with the separator gives back the original text. */
  lemma {:induction false} SplitJoin(s: string, c: char)
    ensures JoinWith(SplitOn(s, c), [c]) == s
    decreases |s|
  {
    if |s| > 0 {
      var s', x := s[..|s| - 1], s[|s| - 1];
      var p := SplitOn(s', c);
      SplitJoin(s', c);
      assert s == s' + [x];
      if x == c {
        assert SplitOn(s, c) == p + [""];
        JoinAppendEmpty(p, [c]);
      } else {
        assert SplitOn(s, c) == p[..|p| - 1] + [p[|p| - 1] + [x]];
        JoinExtendLast(p, [c], x);
      }
    }
  }

  /** No field of a split contains the separator. */
  lemma {:induction false} SplitFieldsLackSeparator(s: string, c: char)
    ensures forall f :: f in SplitOn(s, c) ==> c !in f
    decreases |s|
  {
    if |s| > 0 {
      SplitFieldsLackSeparator(s[..|s| - 1], c);
    }
  }

  /** `SplitOn` of a text extended by one rune, stated on the shorter text. */
  lemma SplitSnoc(s: string, x: char, c: char)
    ensures x == c ==> SplitOn(s + [x], c) == SplitOn(s, c) + [""]
    ensures x != c ==>
      (SplitOn(s + [x], c) == SplitOn(s, c)[..|SplitOn(s, c)| - 1] + [SplitOn(s, c)[|SplitOn(s, c)| - 1] + [x]])
  {
    assert (s + [x])[..|s|] == s;
  }

  /** Splitting at a separator occurrence splits the two sides independently. */
  lemma {:induction false} SplitAround(a: string, b: string, c: char)
    ensures SplitOn(a + [c] + b, c) == SplitOn(a, c) + SplitOn(b, c)
    decreases |b|
  {
    if |b| == 0 {
      assert a + [c] + b == a + [c];
      SplitSnoc(a, c, c);
    } else {
      var b', x := b[..|b| - 1], b[|b| - 1];
      SplitAround(a, b', c);
      assert a + [c] + b == (a + [c] + b') + [x];
      assert b == b' + [x];
      SplitSnoc(a + [c] + b', x, c);
      SplitSnoc(b', x, c);
      var p, q := SplitOn(a, c), SplitOn(b', c);
      if x != c {
        var pq := p + q;
        assert pq[..|pq| - 1] == p + q[..|q| - 1];
      }
    }
  }

  /** Splitting a join of separator-free fields gives the fields back. */
  lemma {:induction false} SplitOfJoin(parts: seq<string>, c: char)
    requires |parts| >= 1
    requires forall i :: 0 <= i < |parts| ==> c !in parts[i]
    ensures SplitOn(JoinWith(parts, [c]), c) == parts
    decreases |parts|
  {
    var last := parts[|parts| - 1];
    SplitWithoutSeparator(last, c);
    if |parts| > 1 {
      var init := parts[..|parts| - 1];
      SplitOfJoin(init, c);
      assert JoinWith(parts, [c]) == JoinWith(init, [c]) + [c] + last;
      SplitAround(JoinWith(init, [c]), last, c);
      assert init + [last] == parts;
    }
  }

  /** A join starts with its first part. */
  lemma {:induction false} JoinStartsWithFirst(parts: seq<string>, sep: string)
    requires |parts| >= 1
    ensures HasPrefix(JoinWith(parts, sep), parts[0])
    decreases |parts|
  {
    if |parts| > 1 {
      var init := parts[..|parts| - 1];
      JoinStartsWithFirst(init, sep);
      var j := JoinWith(init, sep);
      assert JoinWith(parts, sep) == j + (sep + parts[|parts| - 1]);
      assert (j + (sep + parts[|parts| - 1]))[..|parts[0]|] == j[..|parts[0]|];
    }
  }

  /** Text without the separator splits into itself alone. */
  lemma {:induction false} SplitWithoutSeparator(s: string, c: char)
    requires c !in s
    ensures SplitOn(s, c) == [s]
    decreases |s|
  {
    if |s| > 0 {
      SplitWithoutSeparator(s[..|s| - 1], c);
      assert s[..|s| - 1] + [s[|s| - 1]] == s;
    }
  }

  // ---------------------------------------------------------------------------
  // Ordering and numbers

  /** Go's `<=` on strings: byte-wise order of UTF-8, which is rune-wise order. */
  predicate LexLessEq(a: string, b: string)
    decreases |a|
  {
    if |a| == 0 then true
    else if |b| == 0 then false
    else if a[0] != b[0] then a[0] < b[0]
    else LexLessEq(a[1..], b[1..])
  }

  lemma {:induction false} LexReflexive(a: string)
    ensures LexLessEq(a, a)
    decreases |a|
  {
    if |a| > 0 {
      LexReflexive(a[1..]);
    }
  }

  lemma {:induction false} LexTotal(a: string, b: string)
    ensures LexLessEq(a, b) || LexLessEq(b, a)
    decreases |a|
  {
    if |a| > 0 && |b| > 0 && a[0] == b[0] {
      LexTotal(a[1..], b[1..]);
    }
  }

  lemma {:induction false} LexTransitive(a: string, b: string, c: string)
    requires LexLessEq(a, b) && LexLessEq(b, c)
    ensures LexLessEq(a, c)
    decreases |a|
  {
    if |a| > 0 && |b| > 0 && |c| > 0 && a[0] == b[0] && b[0] == c[0] {
      LexTransitive(a[1..], b[1..], c[1..]);
    }
  }

  lemma {:induction false} LexAntisymmetric(a: string, b: string)
    requires LexLessEq(a, b) && LexLessEq(b, a)
    ensures a == b
    decreases |a|
  {
    if |a| > 0 {
      LexAntisymmetric(a[1..], b[1..]);
      assert a == [a[0]] + a[1..] && b == [b[0]] + b[1..];
    }
  }

  function DigitChar(d: nat): char
    requires d < 10
  {
    ('0' as int + d) as char
  }

  /** Go's `strconv.Itoa` / `fmt.Sprintf("%d")` on a natural number. */
  function NatToString(n: nat): (r: string)
    ensures |r| >= 1 && forall k :: 0 <= k < |r| ==> IsAsciiDigit(r[k])
  {
    if n < 10 then [DigitChar(n)] else NatToString(n / 10) + [DigitChar(n % 10)]
  }

  // ---------------------------------------------------------------------------
  // strconv.Atoi on a 64-bit platform

  const MaxInt64: int := 0x7fff_ffff_ffff_ffff
  const MinInt64: int := -0x8000_0000_0000_0000

  predicate AllDigits(s: string)
  {
    forall k :: 0 <= k < |s| ==> IsAsciiDigit(s[k])
  }

  /** The value of a run of decimal digits. */
  function DigitsValue(s: string): nat
    requires AllDigits(s)
  {
    if |s| == 0 then 0 else DigitsValue(s[..|s| - 1]) * 10 + (s[|s| - 1] as int - '0' as int)
  }

  /**
   * Go's `strconv.Atoi`: an optional sign followed by at least one decimal digit, whose
   * value fits in 64 bits; anything else is an error (`None`).
   */
  function Atoi(s: string): (r: Option<int>)
    ensures r.Some? ==> MinInt64 <= r.value <= MaxInt64
    ensures r.Some? ==> s != [] && (AllDigits(s) || AllDigits(s[1..]))
  {
    var signed := |s| > 0 && (s[0] == '+' || s[0] == '-');
    var digits := if signed then s[1..] else s;
    if |digits| == 0 || !AllDigits(digits) then None
    else
      var v: int := if signed && s[0] == '-' then 0 - DigitsValue(digits) as int else DigitsValue(digits) as int;
      if MinInt64 <= v <= MaxInt64 then Some(v) else None
  }

  lemma {:induction false} DigitsValueOfNatToString(n: nat)
    ensures AllDigits(NatToString(n)) && DigitsValue(NatToString(n)) == n
  {
    var s := NatToString(n);
    if n >= 10 {
      DigitsValueOfNatToString(n / 10);
      assert s[..|s| - 1] == NatToString(n / 10);
    }
  }

  /** A number's text has no surrounding space. */
  lemma NatToStringTrimmed(n: nat)
    ensures TrimSpace(NatToString(n)) == NatToString(n)
  {
    var s := NatToString(n);
    assert !IsSpace(s[0]) && !IsSpace(s[|s| - 1]);
    assert TrimLeftSpace(s) == s;
  }

  /** `strconv.Atoi(strconv.Itoa(n)) == n` for every non-negative 64-bit value. */
  lemma AtoiOfNatToString(n: nat)
    requires n <= MaxInt64
    ensures Atoi(NatToString(n)) == Some(n)
  {
    DigitsValueOfNatToString(n);
  }
}
