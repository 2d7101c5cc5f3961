/** String operations shared by the server and the client: prefix tests, truncation,
    whitespace stripping over an abstract whitespace predicate, ASCII case mapping and
    the lexicographic order used to sort link ids. */
module Text {

  /** `s.startswith(p)` / `s.startsWith(p)`. */
  predicate StartsWith(s: string, p: string) {
    |p| <= |s| && s[..|p|] == p
  }

  /** Python's `s[:n]`. */
  function Take(s: string, n: nat): (r: string)
    ensures |r| == if |s| < n then |s| else n
    ensures r == s[..|r|]
  {
    if |s| <= n then s else s[..n]
  }

  /** Drops leading characters that satisfy `space`. */
  function TrimStart(s: string, space: char -> bool): (r: string)
    ensures |r| <= |s| && r == s[|s| - |r|..]
    ensures forall i :: 0 <= i < |s| - |r| ==> space(s[i])
    ensures r != [] ==> !space(r[0])
    decreases |s|
  {
    if s != [] && space(s[0]) then TrimStart(s[1..], space) else s
  }

  /** Drops trailing characters that satisfy `space`. */
  function TrimEnd(s: string, space: char -> bool): (r: string)
    ensures |r| <= |s| && r == s[..|r|]
    ensures forall i :: |r| <= i < |s| ==> space(s[i])
    ensures r != [] ==> !space(r[|r| - 1])
    decreases |s|
  {
    if s != [] && space(s[|s| - 1]) then TrimEnd(s[..|s| - 1], space) else s
  }

  /** `r` is what remains of `s` after removing whitespace from both ends. */
  ghost predicate IsStripOf(s: string, r: string, space: char -> bool) {
    exists lo: nat, hi: nat ::
      && lo <= hi <= |s|
      && r == s[lo..hi]
      && (forall i :: 0 <= i < lo ==> space(s[i]))
      && (forall i :: hi <= i < |s| ==> space(s[i]))
      && (r != [] ==> !space(r[0]) && !space(r[|r| - 1]))
  }

  /** Python's `str.strip()` and JavaScript's `String.prototype.trim()`; the two differ
      only in which characters count as whitespace. */
  function Strip(s: string, space: char -> bool): (r: string)
    ensures IsStripOf(s, r, space)
  {
    TrimBothIsStrip(s, space);
    TrimEnd(TrimStart(s, space), space)
  }

  /** Trimming the start and then the end removes exactly the whitespace at both ends. */
  lemma TrimBothIsStrip(s: string, space: char -> bool)
    ensures IsStripOf(s, TrimEnd(TrimStart(s, space), space), space)
  {
    var a := TrimStart(s, space);
    TrimmedPartsStrip(s, a, TrimEnd(a, space), space);
  }

  /** A suffix of `s` cut after leading whitespace, then cut before trailing
      whitespace, is a strip of `s`. */
  lemma TrimmedPartsStrip(s: string, a: string, r: string, space: char -> bool)
    requires |a| <= |s| && a == s[|s| - |a|..]
    requires forall i :: 0 <= i < |s| - |a| ==> space(s[i])
    requires a != [] ==> !space(a[0])
    requires |r| <= |a| && r == a[..|r|]
    requires forall i :: |r| <= i < |a| ==> space(a[i])
    requires r != [] ==> !space(r[|r| - 1])
    ensures IsStripOf(s, r, space)
  {
    var lo := |s| - |a|;
    var hi := lo + |r|;
    assert r == s[lo..hi];
    forall i | hi <= i < |s|
      ensures space(s[i])
    {
      assert s[i] == a[i - lo];
    }
    assert r != [] ==> r[0] == a[0];
    StripWitness(s, r, space, lo, hi);
  }

  /** `lo` and `hi` witness that `r` is a strip of `s`. */
  lemma StripWitness(s: string, r: string, space: char -> bool, lo: nat, hi: nat)
    requires lo <= hi <= |s| && r == s[lo..hi]
    requires forall i :: 0 <= i < lo ==> space(s[i])
    requires forall i :: hi <= i < |s| ==> space(s[i])
    requires r != [] ==> !space(r[0]) && !space(r[|r| - 1])
    ensures IsStripOf(s, r, space)
  {
  }

  lemma {:induction false} TrimStartOfClean(s: string, space: char -> bool)
    requires s != [] ==> !space(s[0])
    ensures TrimStart(s, space) == s
  {
  }

  lemma {:induction false} TrimEndOfClean(s: string, space: char -> bool)
    requires s != [] ==> !space(s[|s| - 1])
    ensures TrimEnd(s, space) == s
  {
  }

  /** Stripping twice is stripping once. */
  lemma StripIdempotent(s: string, space: char -> bool)
    ensures Strip(Strip(s, space), space) == Strip(s, space)
  {
    var r := Strip(s, space);
    var a := TrimStart(s, space);
    assert r == TrimEnd(a, space);
    assert r != [] ==> !space(r[0]) by {
      if r != [] {
        assert r[0] == a[0];
      }
    }
    TrimStartOfClean(r, space);
    TrimEndOfClean(r, space);
  }

  /* ---------- ASCII case mapping and Python's capitalize() ---------- */

  function UpperAscii(c: char): char {
    if 'a' <= c <= 'z' then (c as int - 32) as char else c
  }

  function LowerAscii(c: char): char {
    if 'A' <= c <= 'Z' then (c as int + 32) as char else c
  }

  function LowerAll(s: string): (r: string)
    ensures |r| == |s|
    ensures forall i :: 0 <= i < |s| ==> r[i] == LowerAscii(s[i])
  {
    seq(|s|, i requires 0 <= i < |s| => LowerAscii(s[i]))
  }

  /** `str.capitalize()`: first character upper-cased, the rest lower-cased. */
  function Capitalize(s: string): (r: string)
    ensures |r| == |s|
    ensures s != [] ==> r[0] == UpperAscii(s[0]) && r[1..] == LowerAll(s[1..])
  {
    if s == [] then [] else [UpperAscii(s[0])] + LowerAll(s[1..])
  }

  /* ---------- lexicographic order on strings ---------- */

  /** `a` sorts at or before `b`, comparing character codes left to right. */
  predicate LexLe(a: string, b: string)
    decreases |a|
  {
    if a == [] then true
    else if b == [] then false
    else if a[0] != b[0] then a[0] < b[0]
    else LexLe(a[1..], b[1..])
  }

  lemma {:induction false} LexLeTotal(a: string, b: string)
    ensures LexLe(a, b) || LexLe(b, a)
    decreases |a|
  {
    if a != [] && b != [] && a[0] == b[0] {
      LexLeTotal(a[1..], b[1..]);
    }
  }

  lemma {:induction false} LexLeAntisymmetric(a: string, b: string)
    requires LexLe(a, b) && LexLe(b, a)
    ensures a == b
    decreases |a|
  {
    if a != [] && b != [] {
      LexLeAntisymmetric(a[1..], b[1..]);
      assert a == [a[0]] + a[1..];
      assert b == [b[0]] + b[1..];
    }
  }

  lemma {:induction false} LexLeTransitive(a: string, b: string, c: string)
    requires LexLe(a, b) && LexLe(b, c)
    ensures LexLe(a, c)
    decreases |a|
  {
    if a != [] && b != [] && c != [] && a[0] == b[0] && b[0] == c[0] {
      LexLeTransitive(a[1..], b[1..], c[1..]);
    }
  }
}
