/**
 * String operations the remediation path relies on: lower-casing, substring
 * search (Python's `in` on strings), and the column-name normalisation of the
 * metrics table (strip, each run of whitespace to `_`, lower-case).
 * Only ASCII letters are case-folded and only the ASCII whitespace characters
 * are treated as whitespace.
 */
module Text {
  import opened Wrappers

  predicate IsUpper(c: char) {
    'A' <= c <= 'Z'
  }

  function LowerChar(c: char): char {
    if IsUpper(c) then (c as int + 32) as char else c
  }

  predicate NoUpper(s: string) {
    forall i :: 0 <= i < |s| ==> !IsUpper(s[i])
  }

  /** `str.lower()`: every upper-case letter is replaced by its lower-case form. */
  function Lower(s: string): (r: string)
    ensures |r| == |s| && NoUpper(r)
    ensures forall i :: 0 <= i < |s| ==> r[i] == LowerChar(s[i])
    ensures forall i :: 0 <= i < |s| && !IsUpper(s[i]) ==> r[i] == s[i]
  {
    seq(|s|, i requires 0 <= i < |s| => LowerChar(s[i]))
  }

  lemma LowerOfLowerCase(s: string)
    requires NoUpper(s)
    ensures Lower(s) == s
  {
  }

  /** `p` occurs in `s` starting at index `k`. */
  predicate OccursAt(s: string, p: string, k: int) {
    0 <= k && k + |p| <= |s| && s[k..k + |p|] == p
  }

  /** Python's `p in s` for strings. */
  predicate Contains(s: string, p: string) {
    exists k | 0 <= k <= |s| - |p| :: OccursAt(s, p, k)
  }

  /** A pattern holding a character that the text lacks does not occur in it. */
  lemma MissingCharNotContained(s: string, p: string, c: char)
    requires c in p && c !in s
    ensures !Contains(s, p)
  {
    var j :| 0 <= j < |p| && p[j] == c;
    forall k | 0 <= k <= |s| - |p|
      ensures !OccursAt(s, p, k)
    {
      assert s[k..k + |p|][j] == s[k + j];
      assert s[k + j] in s;
    }
  }

  lemma ContainsAt(s: string, p: string, k: int)
    requires OccursAt(s, p, k)
    ensures Contains(s, p)
  {
  }

  // ---------------------------------------------------------------------
  // Whitespace

  /** The characters Python's `\s` and `str.strip()` treat as whitespace (ASCII range). */
  predicate IsSpace(c: char) {
    c == ' ' || c == '\t' || c == '\n' || c == '\r' || c == '\U{000B}' || c == '\U{000C}'
    || ('\U{001C}' <= c <= '\U{001F}')
  }

  predicate NoSpace(s: string) {
    forall i :: 0 <= i < |s| ==> !IsSpace(s[i])
  }

  predicate AllSpace(s: string) {
    forall i :: 0 <= i < |s| ==> IsSpace(s[i])
  }

  /** `str.lstrip()`: drops the leading whitespace and nothing else. */
  function LStrip(s: string): (r: string)
    ensures |r| <= |s| && r == s[|s| - |r|..]
    ensures AllSpace(s[..|s| - |r|])
    ensures r == [] || !IsSpace(r[0])
  {
    if s != [] && IsSpace(s[0]) then LStrip(s[1..]) else s
  }

  /** `str.rstrip()`: drops the trailing whitespace and nothing else. */
  function RStrip(s: string): (r: string)
    ensures |r| <= |s| && r == s[..|r|]
    ensures AllSpace(s[|r|..])
    ensures r == [] || !IsSpace(r[|r| - 1])
  {
    if s != [] && IsSpace(s[|s| - 1]) then RStrip(s[..|s| - 1]) else s
  }

  /** `str.strip()`. */
  function Strip(s: string): string {
    RStrip(LStrip(s))
  }

  /** `re.sub(r'\s+', '_', s)`: every maximal run of whitespace becomes one `_`. */
  function CollapseSpaces(s: string): (r: string)
    ensures NoSpace(r) && |r| <= |s|
    decreases |s|
  {
    if s == [] then []
    else if IsSpace(s[0]) then "_" + CollapseSpaces(LStrip(s))
    else [s[0]] + CollapseSpaces(s[1..])
  }

  /** Column-name normalisation: strip, collapse whitespace runs to `_`, lower-case. */
  function NormalizeName(s: string): (r: string)
    ensures NoSpace(r) && NoUpper(r)
  {
    var c := CollapseSpaces(Strip(s));
    LowerPreservesNoSpace(c);
    Lower(c)
  }

  lemma LowerPreservesNoSpace(s: string)
    requires NoSpace(s)
    ensures NoSpace(Lower(s))
  {
  }

  lemma {:induction false} CollapseWithoutSpaces(s: string)
    requires NoSpace(s)
    ensures CollapseSpaces(s) == s
    decreases |s|
  {
    if s != [] {
      CollapseWithoutSpaces(s[1..]);
    }
  }

  lemma StripWithoutSpaces(s: string)
    requires NoSpace(s)
    ensures Strip(s) == s
  {
  }

  /** Normalising an already normalised name changes nothing. */
  lemma NormalizeIdempotent(s: string)
    ensures NormalizeName(NormalizeName(s)) == NormalizeName(s)
  {
    var n := NormalizeName(s);
    StripWithoutSpaces(n);
    CollapseWithoutSpaces(n);
    LowerOfLowerCase(n);
  }

  lemma LStripSpaceRun(w: string, b: string)
    requires AllSpace(w)
    requires b == [] || !IsSpace(b[0])
    ensures LStrip(w + b) == b
    decreases |w|
  {
    if w != [] {
      assert (w + b)[1..] == w[1..] + b;
      LStripSpaceRun(w[1..], b);
    }
  }

  /**
   * A run of whitespace between a whitespace-free prefix and the rest becomes
   * exactly one `_`.
   */
  lemma {:induction false} CollapseRun(a: string, w: string, b: string)
    requires NoSpace(a) && w != [] && AllSpace(w)
    requires b == [] || !IsSpace(b[0])
    ensures CollapseSpaces(a + w + b) == a + "_" + CollapseSpaces(b)
    decreases |a|
  {
    if a == [] {
      assert a + w + b == w + b;
      LStripSpaceRun(w, b);
    } else {
      var c := CollapseSpaces(b);
      assert (a + w + b)[1..] == a[1..] + w + b;
      CollapseRun(a[1..], w, b);
      AppendAssoc([a[0]], a[1..] + "_", c);
      AppendAssoc([a[0]], a[1..], "_");
      assert [a[0]] + a[1..] == a;
    }
  }

  // ---------------------------------------------------------------------
  // Numbers in messages

  function DigitChar(d: nat): char
    requires d < 10
  {
    ('0' as int + d) as char
  }

  /** The decimal digits of `n`, as `str(n)` writes them. */
  function NatString(n: nat): (r: string)
    ensures |r| >= 1 && forall i :: 0 <= i < |r| ==> '0' <= r[i] <= '9'
    decreases n
  {
    if n < 10 then [DigitChar(n)] else NatString(n / 10) + [DigitChar(n % 10)]
  }

  /** `str(i)` for an integer. */
  function IntString(i: int): string {
    if i < 0 then "-" + NatString(-i) else NatString(i)
  }
}
