/**
 * The handful of Python `str` operations the core relies on: `strip()`,
 * `rstrip("/")`, `lower()`, slicing `s[:n]` and the substring test `a in b`.
 * Strings are sequences of Unicode scalar values: unlike a Python `str`, a
 * string here cannot hold a lone surrogate.
 */
module Text {

  /** Python's `str.isspace()`: the characters `strip()` removes by default. */
  predicate IsSpace(c: char) {
    var n := c as int;
    || 0x09 <= n <= 0x0D || 0x1C <= n <= 0x20 || n == 0x85 || n == 0xA0 || n == 0x1680
    || 0x2000 <= n <= 0x200A || n == 0x2028 || n == 0x2029 || n == 0x202F || n == 0x205F
    || n == 0x3000
  }

  /** Python's `s.lstrip()`. */
  function LStrip(s: string): (r: string)
    ensures |r| <= |s| && r == s[|s| - |r|..]
    ensures r == [] || !IsSpace(r[0])
    ensures forall i :: 0 <= i < |s| - |r| ==> IsSpace(s[i])
  {
    if s != [] && IsSpace(s[0]) then LStrip(s[1..]) else s
  }

  /** Python's `s.rstrip()`. */
  function RStrip(s: string): (r: string)
    ensures |r| <= |s| && r == s[..|r|]
    ensures r == [] || !IsSpace(r[|r| - 1])
    ensures forall i :: |r| <= i < |s| ==> IsSpace(s[i])
  {
    if s != [] && IsSpace(s[|s| - 1]) then RStrip(s[..|s| - 1]) else s
  }

  /** Python's `s.strip()`: leading and trailing whitespace removed. */
  function Strip(s: string): string {
    RStrip(LStrip(s))
  }

  /**
   * `strip()` keeps a contiguous slice `s[lo..hi]` of its input, removes only
   * whitespace, and leaves neither end of the result on a whitespace character.
   */
  lemma StripIsTrimmedSlice(s: string) returns (lo: nat, hi: nat)
    ensures lo <= hi <= |s| && Strip(s) == s[lo..hi]
    ensures forall i :: 0 <= i < lo ==> IsSpace(s[i])
    ensures forall i :: hi <= i < |s| ==> IsSpace(s[i])
    ensures Strip(s) != [] ==> !IsSpace(Strip(s)[0]) && !IsSpace(Strip(s)[|Strip(s)| - 1])
  {
    var l := LStrip(s);
    var r := RStrip(l);
    lo := |s| - |l|;
    hi := lo + |r|;
    assert l == s[lo..];
    PrefixOfSuffix(s, lo, |r|);
    forall i | hi <= i < |s| ensures IsSpace(s[i]) {
      assert s[i] == l[i - lo];
    }
    StripEnds(s);
  }

  /** Neither end of `strip()`'s result is whitespace. */
  lemma StripEnds(s: string)
    ensures Strip(s) != [] ==> !IsSpace(Strip(s)[0]) && !IsSpace(Strip(s)[|Strip(s)| - 1])
  {
    var l := LStrip(s);
    var r := RStrip(l);
    if r != [] {
      assert r[0] == l[0];
    }
  }

  /** A prefix of the suffix `s[lo..]` is the slice `s[lo..lo + k]`, and position `i` of `s[lo..]` is `s[lo + i]`. */
  lemma PrefixOfSuffix(s: string, lo: nat, k: nat)
    requires lo + k <= |s|
    ensures s[lo..][..k] == s[lo..lo + k]
    ensures forall i :: lo <= i < |s| ==> s[lo..][i - lo] == s[i]
  {
  }

  /** Python's `not s.strip()`: blank means every character is whitespace. */
  predicate IsBlank(s: string) {
    Strip(s) == []
  }

  lemma BlankIffAllSpace(s: string)
    ensures IsBlank(s) <==> forall i :: 0 <= i < |s| ==> IsSpace(s[i])
  {
    var lo, hi := StripIsTrimmedSlice(s);
    if !IsBlank(s) {
      assert s[lo] == Strip(s)[0];
    }
  }

  /** Python's `s.rstrip(c)` for a single character `c`. */
  function RStripChar(s: string, c: char): (r: string)
    ensures |r| <= |s| && r == s[..|r|]
    ensures r == [] || r[|r| - 1] != c
    ensures forall i :: |r| <= i < |s| ==> s[i] == c
  {
    if s != [] && s[|s| - 1] == c then RStripChar(s[..|s| - 1], c) else s
  }

  /** Python's `c.lower()` restricted to ASCII letters (other characters are returned unchanged). */
  function LowerChar(c: char): char {
    if 'A' <= c <= 'Z' then (c as int + 32) as char else c
  }

  /** Python's `s.lower()`, letter by letter. */
  function Lower(s: string): (r: string)
    ensures |r| == |s|
    ensures forall i :: 0 <= i < |s| ==> r[i] == LowerChar(s[i])
  {
    seq(|s|, i requires 0 <= i < |s| => LowerChar(s[i]))
  }

  /** Python's `s[:n]`. */
  function Take(s: string, n: nat): (r: string)
    ensures |r| == if |s| <= n then |s| else n
    ensures r <= s
  {
    if |s| <= n then s else s[..n]
  }

  /** Python's substring test `needle in hay` (the empty needle occurs everywhere). */
  predicate Contains(hay: string, needle: string)
    decreases |hay|
  {
    needle <= hay || (hay != [] && Contains(hay[1..], needle))
  }

  /** `needle in hay` holds exactly when `needle` occupies some window of `hay`. */
  lemma {:induction false} ContainsAt(hay: string, needle: string, k: nat)
    requires k + |needle| <= |hay| && hay[k..k + |needle|] == needle
    ensures Contains(hay, needle)
    decreases k
  {
    if k == 0 {
      assert needle <= hay;
    } else {
      assert hay[1..][k - 1..k - 1 + |needle|] == needle;
      ContainsAt(hay[1..], needle, k - 1);
    }
  }

  lemma {:induction false} ContainsWitness(hay: string, needle: string) returns (k: nat)
    requires Contains(hay, needle)
    ensures k + |needle| <= |hay| && hay[k..k + |needle|] == needle
    decreases |hay|
  {
    if needle <= hay {
      k := 0;
    } else {
      var j := ContainsWitness(hay[1..], needle);
      k := j + 1;
      assert hay[k..k + |needle|] == hay[1..][j..j + |needle|];
    }
  }
}
