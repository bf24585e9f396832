/** The Python string operations the scripts rely on: `str.strip()`,
    `str.lower()`, `str.upper()`, `str.startswith()`, `str.replace(p, "")`
    and the ordering `<` on strings. */
module Text {

  /** Python's `str.isspace()` for a single code point. */
  predicate IsSpace(c: char) {
    || c == ' '
    || ('\t' <= c <= '\r')
    || ('\U{1C}' <= c <= '\U{1F}')
    || c == '\U{85}' || c == '\U{A0}' || c == '\U{1680}'
    || ('\U{2000}' <= c <= '\U{200A}')
    || c == '\U{2028}' || c == '\U{2029}' || c == '\U{202F}'
    || c == '\U{205F}' || c == '\U{3000}'
  }

  predicate AllSpace(s: string) {
    forall i :: 0 <= i < |s| ==> IsSpace(s[i])
  }

  /** Python's `str.lstrip()`. */
  function TrimStart(s: string): (r: string)
    ensures |r| <= |s|
    ensures r == [] || !IsSpace(r[0])
  {
    if |s| > 0 && IsSpace(s[0]) then TrimStart(s[1..]) else s
  }

  /** Python's `str.rstrip()`. */
  function TrimEnd(s: string): (r: string)
    ensures |r| <= |s|
    ensures r == [] || !IsSpace(r[|r| - 1])
  {
    if |s| > 0 && IsSpace(s[|s| - 1]) then TrimEnd(s[..|s| - 1]) else s
  }

  /** Python's `str.strip()`: the text between the leading and the
      trailing whitespace. */
  function Strip(s: string): (r: string)
    ensures |r| <= |s|
  {
    TrimEnd(TrimStart(s))
  }

  lemma {:induction false} TrimEndIsPrefix(s: string)
    ensures TrimEnd(s) == s[..|TrimEnd(s)|]
  {
    if |s| > 0 && IsSpace(s[|s| - 1]) {
      TrimEndIsPrefix(s[..|s| - 1]);
    }
  }

  /** A stripped text neither starts nor ends with whitespace. */
  lemma StripEdges(s: string)
    ensures var r := Strip(s); r == [] || (!IsSpace(r[0]) && !IsSpace(r[|r| - 1]))
  {
    TrimEndIsPrefix(TrimStart(s));
  }

  lemma {:induction false} TrimStartPadding(w: string, x: string)
    requires AllSpace(w)
    ensures TrimStart(w + x) == TrimStart(x)
  {
    if w != [] {
      assert (w + x)[1..] == w[1..] + x;
      TrimStartPadding(w[1..], x);
    } else {
      assert w + x == x;
    }
  }

  lemma {:induction false} TrimEndPadding(x: string, w: string)
    requires AllSpace(w)
    ensures TrimEnd(x + w) == TrimEnd(x)
  {
    if w != [] {
      assert (x + w)[..|x + w| - 1] == x + w[..|w| - 1];
      TrimEndPadding(x, w[..|w| - 1]);
    } else {
      assert x + w == x;
    }
  }

  lemma {:induction false} TrimStartOfContent(x: string, w: string)
    requires TrimStart(x) != []
    ensures TrimStart(x + w) == TrimStart(x) + w
  {
    if |x| > 0 && IsSpace(x[0]) {
      assert (x + w)[1..] == x[1..] + w;
      TrimStartOfContent(x[1..], w);
    }
  }

  lemma {:induction false} AllSpaceTrimStart(x: string)
    ensures AllSpace(x) <==> TrimStart(x) == []
  {
    if x != [] && IsSpace(x[0]) {
      AllSpaceTrimStart(x[1..]);
      assert AllSpace(x) <==> AllSpace(x[1..]) by {
        assert forall i :: 1 <= i < |x| ==> x[i] == x[1..][i - 1];
      }
    }
  }

  /** Whitespace around a text never reaches the result of `Strip`:
      padding on either side is ignored. */
  lemma StripPadding(w1: string, c: string, w2: string)
    requires AllSpace(w1) && AllSpace(w2)
    ensures Strip(w1 + c + w2) == Strip(c)
  {
    assert w1 + c + w2 == w1 + (c + w2);
    TrimStartPadding(w1, c + w2);
    AllSpaceTrimStart(c);
    if TrimStart(c) == [] {
      assert AllSpace(c + w2);
      AllSpaceTrimStart(c + w2);
    } else {
      TrimStartOfContent(c, w2);
      TrimEndPadding(TrimStart(c), w2);
    }
  }

  /** A stripped text is left alone by a second `Strip`. */
  lemma StripIdempotent(s: string)
    ensures Strip(Strip(s)) == Strip(s)
  {
    var r := Strip(s);
    StripEdges(s);
    assert TrimStart(r) == r by {
      if r != [] { assert !IsSpace(r[0]); }
    }
    assert TrimEnd(r) == r by {
      if r != [] { assert !IsSpace(r[|r| - 1]); }
    }
  }

  /** Python's `str.lower()` on one character (ASCII letters only). */
  function LowerChar(c: char): char {
    if 'A' <= c <= 'Z' then (c as int + 32) as char else c
  }

  /** Python's `str.upper()` on one character (ASCII letters only). */
  function UpperChar(c: char): char {
    if 'a' <= c <= 'z' then (c as int - 32) as char else c
  }

  function Lower(s: string): (r: string)
    ensures |r| == |s|
  {
    if s == [] then [] else [LowerChar(s[0])] + Lower(s[1..])
  }

  function Upper(s: string): (r: string)
    ensures |r| == |s|
  {
    if s == [] then [] else [UpperChar(s[0])] + Upper(s[1..])
  }

  lemma {:induction false} LowerAt(s: string)
    ensures forall i :: 0 <= i < |s| ==> Lower(s)[i] == LowerChar(s[i])
  {
    if s != [] {
      LowerAt(s[1..]);
      assert forall i :: 1 <= i < |s| ==> Lower(s)[i] == Lower(s[1..])[i - 1];
    }
  }

  lemma {:induction false} UpperAt(s: string)
    ensures forall i :: 0 <= i < |s| ==> Upper(s)[i] == UpperChar(s[i])
  {
    if s != [] {
      UpperAt(s[1..]);
      assert forall i :: 1 <= i < |s| ==> Upper(s)[i] == Upper(s[1..])[i - 1];
    }
  }

  /** Lower-casing a slice is slicing the lower-cased text. */
  lemma LowerSlice(s: string, a: nat, b: nat)
    requires a <= b <= |s|
    ensures Lower(s[a..b]) == Lower(s)[a..b]
  {
    LowerAt(s);
    LowerAt(s[a..b]);
  }

  /** Lower-casing turns no character into whitespace and no whitespace
      into anything else. */
  lemma LowerKeepsSpace(c: char)
    ensures IsSpace(LowerChar(c)) <==> IsSpace(c)
  {
  }

  lemma {:induction false} TrimStartLower(s: string)
    ensures TrimStart(Lower(s)) == Lower(TrimStart(s))
  {
    if |s| > 0 {
      LowerKeepsSpace(s[0]);
      if IsSpace(s[0]) {
        TrimStartLower(s[1..]);
      }
    }
  }

  lemma {:induction false} TrimEndLower(s: string)
    ensures TrimEnd(Lower(s)) == Lower(TrimEnd(s))
  {
    if |s| > 0 {
      var n := |s| - 1;
      LowerAt(s);
      LowerKeepsSpace(s[n]);
      if IsSpace(s[n]) {
        LowerSlice(s, 0, n);
        assert s[0..n] == s[..n] && Lower(s)[0..n] == Lower(s)[..n];
        TrimEndLower(s[..n]);
      }
    }
  }

  /** Stripping and lower-casing commute, so `s.strip().lower()` equals
      `s.lower().strip()`. */
  lemma StripLowerCommute(s: string)
    ensures Strip(Lower(s)) == Lower(Strip(s))
  {
    TrimStartLower(s);
    TrimEndLower(TrimStart(s));
  }

  /** Upper-casing then lower-casing gives the same text as lower-casing:
      an upper-cased currency code still names the same currency. */
  lemma {:induction false} LowerOfUpper(s: string)
    ensures Lower(Upper(s)) == Lower(s)
  {
    if s != [] {
      LowerOfUpper(s[1..]);
    }
  }

  /** Python's `s.startswith(p)`. */
  predicate StartsWith(s: string, p: string) {
    |p| <= |s| && s[..|p|] == p
  }

  /** Python's `s.replace(p, "")`: every occurrence of `p` found by a
      left-to-right scan without overlaps is removed. */
  function RemoveAll(s: string, p: string): (r: string)
    requires p != []
    ensures |r| <= |s|
    decreases |s|
  {
    if |s| < |p| then s
    else if s[..|p|] == p then RemoveAll(s[|p|..], p)
    else [s[0]] + RemoveAll(s[1..], p)
  }

  /** `p` occurs in `s` (Python's `p in s`). */
  predicate Contains(s: string, p: string) {
    exists i :: 0 <= i <= |s| && StartsWith(s[i..], p)
  }

  /** A text without the pattern comes back unchanged. */
  lemma {:induction false} RemoveAllAbsent(s: string, p: string)
    requires p != [] && !Contains(s, p)
    ensures RemoveAll(s, p) == s
  {
    if |s| >= |p| {
      assert s[0..] == s;
      assert !Contains(s[1..], p) by {
        forall i | 0 <= i <= |s[1..]|
          ensures !StartsWith(s[1..][i..], p)
        {
          assert s[1..][i..] == s[i + 1..];
        }
      }
      RemoveAllAbsent(s[1..], p);
    }
  }

  /** Python's `a <= b` on strings: code-point lexicographic order. */
  predicate StrLe(a: string, b: string) {
    if a == [] then true
    else if b == [] then false
    else if a[0] != b[0] then a[0] < b[0]
    else StrLe(a[1..], b[1..])
  }

  lemma {:induction false} StrLeTotal(a: string, b: string)
    ensures StrLe(a, b) || StrLe(b, a)
  {
    if a != [] && b != [] && a[0] == b[0] {
      StrLeTotal(a[1..], b[1..]);
    }
  }

  lemma {:induction false} StrLeTransitive(a: string, b: string, c: string)
    requires StrLe(a, b) && StrLe(b, c)
    ensures StrLe(a, c)
  {
    if a != [] && b != [] && c != [] && a[0] == b[0] && b[0] == c[0] {
      StrLeTransitive(a[1..], b[1..], c[1..]);
    }
  }
}
