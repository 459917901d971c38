/**
 * The few Python `str` operations the equity-metrics pages rely on:
 * `str.strip()`, `str.split(sep)[0]` and `str.upper()`. Strings are sequences of
 * Unicode scalar values, so `str.startswith(p)` is the sequence-prefix test `p <= s`.
 */
module PyText {

  /** The characters for which Python's `str.isspace()` holds (basic multilingual plane). */
  predicate IsSpace(c: char) {
    c == ' ' || ('\t' <= c <= '\r') || ('\U{1C}' <= c <= '\U{1F}') ||
    c == '\U{85}' || c == '\U{A0}' || c == '\U{1680}' ||
    ('\U{2000}' <= c <= '\U{200A}') || c == '\U{2028}' || c == '\U{2029}' ||
    c == '\U{202F}' || c == '\U{205F}' || c == '\U{3000}'
  }

  /** Neither the first nor the last character is whitespace. */
  predicate NoOuterSpace(s: string) {
    s == [] || (!IsSpace(s[0]) && !IsSpace(s[|s| - 1]))
  }

  /** Python's `s.lstrip()`: drops leading whitespace. */
  function StripLeft(s: string): (r: string)
    ensures |r| <= |s| && r == s[|s| - |r|..]
    ensures forall k :: 0 <= k < |s| - |r| ==> IsSpace(s[k])
    ensures r == [] || !IsSpace(r[0])
    ensures s == [] || !IsSpace(s[0]) ==> r == s
    decreases |s|
  {
    if s != [] && IsSpace(s[0]) then StripLeft(s[1..]) else s
  }

  /** Python's `s.rstrip()`: drops trailing whitespace. */
  function StripRight(s: string): (r: string)
    ensures r <= s
    ensures forall k :: |r| <= k < |s| ==> IsSpace(s[k])
    ensures r == [] || !IsSpace(r[|r| - 1])
    ensures s == [] || !IsSpace(s[|s| - 1]) ==> r == s
    decreases |s|
  {
    if s != [] && IsSpace(s[|s| - 1]) then StripRight(s[..|s| - 1]) else s
  }

  /** `r` is `s[i..j]` and everything of `s` outside `[i, j)` is whitespace. */
  predicate TrimmedAt(s: string, r: string, i: int, j: int) {
    0 <= i <= j <= |s| && r == s[i..j] &&
    (forall k :: 0 <= k < i ==> IsSpace(s[k])) &&
    (forall k :: j <= k < |s| ==> IsSpace(s[k]))
  }

  /**
   * Python's `s.strip()`: only outer whitespace is removed, none is left, and a
   * string without any is kept.
   */
  function Strip(s: string): (r: string)
    ensures exists i, j :: TrimmedAt(s, r, i, j)
    ensures NoOuterSpace(r)
    ensures NoOuterSpace(s) ==> r == s
  {
    var l := StripLeft(s);
    var r := StripRight(l);
    assert r == [] || r[0] == l[0];
    TrimmedTwice(s, l, r);
    r
  }

  /** Trimming a suffix of `s` that only whitespace precedes trims `s` itself. */
  lemma TrimmedTwice(s: string, l: string, r: string)
    requires |l| <= |s| && l == s[|s| - |l|..]
    requires forall k :: 0 <= k < |s| - |l| ==> IsSpace(s[k])
    requires r <= l
    requires forall k :: |r| <= k < |l| ==> IsSpace(l[k])
    ensures TrimmedAt(s, r, |s| - |l|, |s| - |l| + |r|)
  {
    var i := |s| - |l|;
    assert forall k :: i <= k < |s| ==> s[k] == l[k - i];
  }

  /**
   * Python's `s.split(sep)[0]` for a non-empty separator: the longest prefix of `s`
   * in which no occurrence of `sep` starts; it ends where the first `sep` begins,
   * or at the end of `s` when `sep` does not occur.
   */
  function SplitHead(s: string, sep: string): (r: string)
    requires sep != []
    ensures r <= s
    ensures forall i :: 0 <= i < |r| ==> !(sep <= s[i..])
    ensures |r| == |s| || sep <= s[|r|..]
    decreases |s|
  {
    if sep <= s then ""
    else if s == [] then ""
    else
      var t := SplitHead(s[1..], sep);
      assert forall i :: 1 <= i <= |t| ==> s[i..] == s[1..][i - 1..];
      [s[0]] + t
  }

  /** Python's `c.upper()` on the ASCII letters; every other character is kept. */
  function UpperChar(c: char): char {
    if 'a' <= c <= 'z' then (c as int - 32) as char else c
  }

  /** Python's `s.upper()`, character by character (see UpperChar). */
  function Upper(s: string): string {
    seq(|s|, i requires 0 <= i < |s| => UpperChar(s[i]))
  }
}
