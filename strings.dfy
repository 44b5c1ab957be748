/** The few Python `str` operations the pipeline and the upload check rely on. */
module Strings {
  import opened Wrappers

  predicate StartsWith(s: string, prefix: string) {
    |prefix| <= |s| && s[..|prefix|] == prefix
  }

  predicate EndsWith(s: string, suffix: string) {
    |suffix| <= |s| && s[|s| - |suffix|..] == suffix
  }

  /** The characters for which Python's `str.isspace()` holds; `str.strip()` removes these. */
  predicate IsSpace(c: char) {
    var n := c as int;
    (0x09 <= n <= 0x0D) || (0x1C <= n <= 0x20) || n == 0x85 || n == 0xA0 || n == 0x1680 ||
    (0x2000 <= n <= 0x200A) || n == 0x2028 || n == 0x2029 || n == 0x202F || n == 0x205F || n == 0x3000
  }

  /** `s.lstrip()`: the suffix of `s` that starts at its first non-space character. */
  function StripLeading(s: string): string {
    if s != [] && IsSpace(s[0]) then StripLeading(s[1..]) else s
  }

  /** `lstrip` removes a run of spaces from the front and nothing else. */
  lemma {:induction false} StripLeadingIsSuffix(s: string)
    ensures var r := StripLeading(s);
      |r| <= |s| && r == s[|s| - |r|..] &&
      (forall k :: 0 <= k < |s| - |r| ==> IsSpace(s[k])) &&
      (r != [] ==> !IsSpace(r[0]))
  {
    if s != [] && IsSpace(s[0]) {
      var t := s[1..];
      StripLeadingIsSuffix(t);
      var r := StripLeading(t);
      assert StripLeading(s) == r;
      assert s[|s| - |r|..] == t[|t| - |r|..];
      forall k | 0 <= k < |s| - |r| ensures IsSpace(s[k]) {
        if k > 0 { assert s[k] == t[k - 1]; }
      }
    }
  }

  /** `s.rstrip()`: the prefix of `s` that ends at its last non-space character. */
  function StripTrailing(s: string): string {
    if s != [] && IsSpace(s[|s| - 1]) then StripTrailing(s[..|s| - 1]) else s
  }

  /** `rstrip` removes a run of spaces from the end and nothing else. */
  lemma {:induction false} StripTrailingIsPrefix(s: string)
    ensures var r := StripTrailing(s);
      |r| <= |s| && r == s[..|r|] &&
      (forall k :: |r| <= k < |s| ==> IsSpace(s[k])) &&
      (r != [] ==> !IsSpace(r[|r| - 1]))
  {
    if s != [] && IsSpace(s[|s| - 1]) {
      var t := s[..|s| - 1];
      StripTrailingIsPrefix(t);
      var r := StripTrailing(t);
      assert StripTrailing(s) == r;
      assert s[..|r|] == t[..|r|];
      forall k | |r| <= k < |s| ensures IsSpace(s[k]) {
        if k < |t| { assert s[k] == t[k]; }
      }
    }
  }

  /** Python's `s.strip()`. */
  function Strip(s: string): string {
    StripTrailing(StripLeading(s))
  }

  /** `Strip(s)` is the slice of `s` starting at `start` with every character
      outside it a space, and it neither starts nor ends with a space. */
  lemma StripIsTrimmedSlice(s: string) returns (start: nat)
    ensures start + |Strip(s)| <= |s| && Strip(s) == s[start..start + |Strip(s)|]
    ensures forall k :: 0 <= k < start ==> IsSpace(s[k])
    ensures forall k :: start + |Strip(s)| <= k < |s| ==> IsSpace(s[k])
    ensures Strip(s) != [] ==> !IsSpace(Strip(s)[0]) && !IsSpace(Strip(s)[|Strip(s)| - 1])
  {
    var l := StripLeading(s);
    var r := StripTrailing(l);
    StripLeadingIsSuffix(s);
    StripTrailingIsPrefix(l);
    start := |s| - |l|;
    assert r == l[..|r|];
    assert s[start..start + |r|] == l[..|r|];
    forall k | start + |r| <= k < |s| ensures IsSpace(s[k]) {
      assert s[k] == l[k - start];
    }
  }

  /** Stripping twice is stripping once. */
  lemma StripIdempotent(s: string)
    ensures Strip(Strip(s)) == Strip(s)
  {
    var r := Strip(s);
    StripLeadingIsSuffix(s);
    StripTrailingIsPrefix(StripLeading(s));
    if r != [] {
      assert StripLeading(r) == r;
      assert StripTrailing(r) == r;
    }
  }

  /** A string made only of spaces strips to the empty string. */
  lemma {:induction false} BlankStripsToEmpty(s: string)
    requires forall k :: 0 <= k < |s| ==> IsSpace(s[k])
    ensures Strip(s) == ""
  {
    if s != [] {
      BlankStripsToEmpty(s[1..]);
    }
  }

  /** `c.lower()` on ASCII letters; every other character is left as it is. */
  function LowerChar(c: char): char {
    if 'A' <= c <= 'Z' then (c as int + 32) as char else c
  }

  function Lower(s: string): (r: string)
    ensures |r| == |s|
    ensures forall k :: 0 <= k < |s| ==> r[k] == LowerChar(s[k])
  {
    seq(|s|, k requires 0 <= k < |s| => LowerChar(s[k]))
  }

  /** The index of the last occurrence of `c` in `s`, if any. */
  function LastIndexOf(s: string, c: char): (r: Option<nat>)
    ensures r.None? <==> c !in s
    ensures r.Some? ==> r.value < |s| && s[r.value] == c
    ensures r.Some? ==> forall k :: r.value < k < |s| ==> s[k] != c
  {
    if s == [] then None
    else if s[|s| - 1] == c then Some(|s| - 1)
    else LastIndexOf(s[..|s| - 1], c)
  }

  /** In `a + [c] + b` with no `c` in `b`, the last `c` is the one after `a`. */
  lemma {:induction false} LastIndexOfJoin(a: string, c: char, b: string)
    requires c !in b
    ensures LastIndexOf(a + [c] + b, c) == Some(|a|)
    decreases |b|
  {
    var s := a + [c] + b;
    if b == [] {
      assert s == a + [c];
    } else {
      assert s[..|s| - 1] == a + [c] + b[..|b| - 1];
      assert s[|s| - 1] == b[|b| - 1];
      LastIndexOfJoin(a, c, b[..|b| - 1]);
    }
  }

  /** Python's `s.rsplit(sep, 1)` for a one-character separator: the text
      before and after the last `sep`, or `[s]` when `sep` does not occur. */
  function RSplitOnce(s: string, sep: char): (parts: seq<string>)
    ensures sep !in s ==> parts == [s]
    ensures sep in s ==> |parts| == 2 && parts[0] + [sep] + parts[1] == s && sep !in parts[1]
  {
    match LastIndexOf(s, sep)
    case None => [s]
    case Some(i) =>
      assert s[..i] + [sep] + s[i + 1..] == s;
      [s[..i], s[i + 1..]]
  }

  /** Every character of `s` is one that the Latin-1 codec can encode. */
  predicate Latin1(s: string) {
    forall k :: 0 <= k < |s| ==> s[k] as int < 256
  }

  /** A joined text encodes exactly when both parts do. */
  lemma Latin1Append(a: string, b: string)
    ensures Latin1(a + b) <==> Latin1(a) && Latin1(b)
  {
    var s := a + b;
    assert forall k :: 0 <= k < |a| ==> s[k] == a[k];
    assert forall k :: 0 <= k < |b| ==> s[|a| + k] == b[k];
  }

  /** Three encodable texts joined are encodable. */
  lemma Latin1Join(a: string, b: string, c: string)
    requires Latin1(a) && Latin1(b) && Latin1(c)
    ensures Latin1(a + b + c)
  {
    Latin1Append(a, b);
    Latin1Append(a + b, c);
  }

  /** Stripping keeps a text encodable: it only removes characters. */
  lemma StripLatin1(s: string)
    requires Latin1(s)
    ensures Latin1(Strip(s))
  {
    var start := StripIsTrimmedSlice(s);
  }
}
