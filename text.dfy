/** The JavaScript string operations the application relies on: whitespace
    classes, `trim()`, `toLowerCase()` on ASCII text, `replace(" ", "_")`
    with a string pattern, and `includes()`. */
module Text {

  /** The characters of the regular-expression class `\s`; `trim()` removes
      exactly the same set from both ends of a string. */
  predicate IsSpace(c: char) {
    || c == ' ' || c == '\t' || c == '\n' || c == '\r' || c == '\U{0B}' || c == '\U{0C}'
    || c == '\U{A0}' || c == '\U{1680}' || ('\U{2000}' <= c <= '\U{200A}')
    || c == '\U{2028}' || c == '\U{2029}' || c == '\U{202F}' || c == '\U{205F}'
    || c == '\U{3000}' || c == '\U{FEFF}'
  }

  /** The class `[a-zA-Z0-9]`. */
  predicate IsAsciiAlnum(c: char) {
    ('a' <= c <= 'z') || ('A' <= c <= 'Z') || ('0' <= c <= '9')
  }

  predicate AllSpaces(s: string) {
    forall i :: 0 <= i < |s| ==> IsSpace(s[i])
  }

  /** Drops the leading whitespace of `s`. */
  function TrimStart(s: string): (r: string)
    ensures |r| <= |s| && r == s[|s| - |r|..]
    ensures r == [] || !IsSpace(r[0])
    ensures AllSpaces(s[..|s| - |r|])
  {
    if s != [] && IsSpace(s[0]) then TrimStart(s[1..]) else s
  }

  /** Drops the trailing whitespace of `s`. */
  function TrimEnd(s: string): (r: string)
    ensures |r| <= |s| && r == s[..|r|]
    ensures r == [] || !IsSpace(r[|r| - 1])
    ensures AllSpaces(s[|r|..])
  {
    if s != [] && IsSpace(s[|s| - 1]) then TrimEnd(s[..|s| - 1]) else s
  }

  /** `s.trim()`: the segment of `s` left once whitespace is dropped from both ends. */
  function Trim(s: string): (r: string)
    ensures |r| <= |s|
    ensures r == [] || (!IsSpace(r[0]) && !IsSpace(r[|r| - 1]))
  {
    TrimEnd(TrimStart(s))
  }

  /** `Trim(s)` is the segment of `s` that starts at `a`, and what lies around it is whitespace. */
  lemma TrimIsSegment(s: string) returns (a: nat)
    ensures a + |Trim(s)| <= |s| && Trim(s) == s[a..a + |Trim(s)|]
    ensures AllSpaces(s[..a]) && AllSpaces(s[a + |Trim(s)|..])
  {
    var t := TrimStart(s);
    var r := TrimEnd(t);
    a := |s| - |t|;
    assert s[a..][..|r|] == s[a..a + |r|];
    assert t[|r|..] == s[a + |r|..];
  }

  lemma SplitThree<T>(s: seq<T>, a: nat, b: nat)
    requires a <= b <= |s|
    ensures s == s[..a] + s[a..b] + s[b..]
  {
    assert s[..a] + s[a..b] == s[..b];
  }

  /** The untrimmed text is the trimmed text with whitespace on both sides. */
  lemma TrimSplit(s: string) returns (a: nat)
    ensures a + |Trim(s)| <= |s|
    ensures s == s[..a] + Trim(s) + s[a + |Trim(s)|..]
    ensures AllSpaces(s[..a]) && AllSpaces(s[a + |Trim(s)|..])
  {
    a := TrimIsSegment(s);
    SplitThree(s, a, a + |Trim(s)|);
  }

  /** The trimmed prompt is empty exactly when the prompt is whitespace only. */
  lemma {:induction false} TrimEmptyIffBlank(s: string)
    ensures Trim(s) == [] <==> AllSpaces(s)
  {
    var a := TrimIsSegment(s);
    var r := Trim(s);
    if r == [] {
      assert s == s[..a] + s[a..];
      forall i | 0 <= i < |s| ensures IsSpace(s[i]) {
        if i < a { assert s[i] == s[..a][i]; } else { assert s[i] == s[a..][i - a]; }
      }
    } else {
      assert r[0] == s[a];
    }
  }

  /** `toLowerCase()` on one character, for the ASCII letters the option names use. */
  function LowerAscii(c: char): char {
    if 'A' <= c <= 'Z' then c - 'A' + 'a' else c
  }

  /** Lower-cases the ASCII letters of `s` and leaves every other character alone. */
  function ToLowerAscii(s: string): (r: string)
    ensures |r| == |s|
    ensures forall i :: 0 <= i < |s| ==> r[i] == LowerAscii(s[i])
  {
    seq(|s|, i requires 0 <= i < |s| => LowerAscii(s[i]))
  }

  /** The index of the first `c` in `s`, or `|s|` when there is none. */
  function FirstIndexOf(s: string, c: char): (k: nat)
    ensures k <= |s| && (k < |s| ==> s[k] == c)
    ensures forall j :: 0 <= j < k ==> s[j] != c
  {
    if s == [] then 0 else if s[0] == c then 0 else 1 + FirstIndexOf(s[1..], c)
  }

  /** `s.replace(from, to)` for a one-character string pattern: only the first
      occurrence is replaced. */
  function ReplaceFirst(s: string, from: char, to: char): (r: string)
    ensures |r| == |s|
    ensures forall i :: 0 <= i < |s| ==> r[i] == if i == FirstIndexOf(s, from) then to else s[i]
  {
    var k := FirstIndexOf(s, from);
    if k == |s| then s else s[..k] + [to] + s[k + 1..]
  }

  /** Without an occurrence of `from`, `replace` changes nothing. */
  lemma ReplaceFirstAbsent(s: string, from: char, to: char)
    requires from !in s
    ensures ReplaceFirst(s, from, to) == s
  {
    assert FirstIndexOf(s, from) == |s|;
  }

  /** With its first occurrence at `k`, `replace` changes exactly that character. */
  lemma ReplaceFirstAt(s: string, from: char, to: char, k: nat)
    requires k < |s| && s[k] == from && from !in s[..k]
    ensures ReplaceFirst(s, from, to) == s[..k] + [to] + s[k + 1..]
  {
    assert FirstIndexOf(s, from) == k;
  }

  /** `s` begins with `t`. */
  predicate StartsWith(s: string, t: string) {
    |t| <= |s| && s[..|t|] == t
  }

  /** `s.includes(t)`: `t` occurs in `s` as a contiguous segment. */
  predicate Includes(s: string, t: string) {
    StartsWith(s, t) || (s != [] && Includes(s[1..], t))
  }

  /** A text lacking one of the characters of `t` does not include `t`. */
  lemma {:induction false} ExcludedCharBlocksIncludes(s: string, t: string, c: char)
    requires c in t && c !in s
    ensures !Includes(s, t)
  {
    if s != [] {
      assert forall x :: x in s[1..] ==> x in s;
      ExcludedCharBlocksIncludes(s[1..], t, c);
    }
  }
}
