/** The Python string operations the core uses: `str.strip()`, `sep.join(...)`, `in`. */
module Text {

  /** Python's `str.isspace()` for one character (Unicode whitespace). */
  predicate IsSpace(c: char)
  {
    c == ' ' || '\t' <= c <= '\r' || '\U{1c}' <= c <= '\U{1f}' ||
    c == '\U{85}' || c == '\U{a0}' || c == '\U{1680}' ||
    '\U{2000}' <= c <= '\U{200a}' || c == '\U{2028}' || c == '\U{2029}' ||
    c == '\U{202f}' || c == '\U{205f}' || c == '\U{3000}'
  }

  /** Number of leading whitespace characters. */
  function LeadingSpaces(s: string): (i: nat)
    ensures i <= |s|
    ensures forall k :: 0 <= k < i ==> IsSpace(s[k])
    ensures i < |s| ==> !IsSpace(s[i])
  {
    if s == [] || !IsSpace(s[0]) then 0 else 1 + LeadingSpaces(s[1..])
  }

  /** Length of `s` once its trailing whitespace is cut off. */
  function TrailingCut(s: string): (j: nat)
    ensures j <= |s|
    ensures forall k :: j <= k < |s| ==> IsSpace(s[k])
    ensures j > 0 ==> !IsSpace(s[j - 1])
  {
    if s == [] || !IsSpace(s[|s| - 1]) then |s| else TrailingCut(s[..|s| - 1])
  }

  /**
   * Python's `s.strip()`: `s` without its leading and trailing whitespace.
   * The result is the piece of `s` that remains once exactly the surrounding
   * whitespace is removed, and it neither starts nor ends with whitespace.
   */
  function Strip(s: string): (r: string)
    ensures |r| <= |s|
    ensures r == [] || (!IsSpace(r[0]) && !IsSpace(r[|r| - 1]))
    ensures exists i :: StrippedAt(s, r, i)
  {
    var t := s[LeadingSpaces(s)..];
    var r := t[..TrailingCut(t)];
    assert StrippedAt(s, r, LeadingSpaces(s));
    r
  }

  /** `r` sits at index `i` of `s` with only whitespace around it. */
  predicate StrippedAt(s: string, r: string, i: int)
  {
    0 <= i <= |s| - |r| && s[i..i + |r|] == r &&
    (forall k :: 0 <= k < i ==> IsSpace(s[k])) &&
    (forall k :: i + |r| <= k < |s| ==> IsSpace(s[k]))
  }

  /** A string that has no surrounding whitespace is its own strip. */
  lemma StripNoop(s: string)
    requires s == [] || (!IsSpace(s[0]) && !IsSpace(s[|s| - 1]))
    ensures Strip(s) == s
  {
    assert LeadingSpaces(s) == 0;
    assert s[0..] == s;
    assert TrailingCut(s) == |s|;
  }

  /** A string made only of whitespace strips to the empty string. */
  lemma StripBlank(s: string)
    requires forall k :: 0 <= k < |s| ==> IsSpace(s[k])
    ensures Strip(s) == []
  {
  }

  /** Python's `sep.join(parts)`. */
  function Join(sep: string, parts: seq<string>): string
  {
    if parts == [] then ""
    else if |parts| == 1 then parts[0]
    else parts[0] + sep + Join(sep, parts[1..])
  }

  /** Joining one more part appends the separator and that part. */
  lemma {:induction false} JoinSnoc(sep: string, parts: seq<string>, x: string)
    requires parts != []
    ensures Join(sep, parts + [x]) == Join(sep, parts) + sep + x
    decreases |parts|
  {
    if |parts| == 1 {
      assert (parts + [x])[1..] == [x];
    } else {
      assert (parts + [x])[1..] == parts[1..] + [x];
      JoinSnoc(sep, parts[1..], x);
    }
  }

  /** Index of the first `c` in `s`, or `|s|` when there is none. */
  function IndexOf(s: string, c: char): (i: nat)
    ensures i <= |s|
    ensures forall k :: 0 <= k < i ==> s[k] != c
    ensures i < |s| ==> s[i] == c
  {
    if s == [] || s[0] == c then 0 else 1 + IndexOf(s[1..], c)
  }

  /** Index of the last `c` in `s`, or -1 when there is none (Python's `s.rfind(c)`). */
  function LastIndexOf(s: string, c: char): (i: int)
    ensures -1 <= i < |s|
    ensures forall k :: i < k < |s| ==> s[k] != c
    ensures i >= 0 ==> s[i] == c
  {
    if s == [] then -1
    else if s[|s| - 1] == c then |s| - 1
    else LastIndexOf(s[..|s| - 1], c)
  }

  /** Python's `s.split(c)` for a one-character separator. */
  function Split(s: string, c: char): (parts: seq<string>)
    ensures |parts| > 0
    decreases |s|
  {
    var i := IndexOf(s, c);
    if i == |s| then [s] else [s[..i]] + Split(s[i + 1..], c)
  }

  /**
   * Joining with a one-character separator that occurs in none of the parts
   * loses nothing: splitting on it gives the parts back.
   */
  lemma {:induction false} SplitJoin(parts: seq<string>, c: char)
    requires parts != []
    requires forall p, k :: p in parts && 0 <= k < |p| ==> p[k] != c
    ensures Split(Join([c], parts), c) == parts
    decreases |parts|
  {
    var s := Join([c], parts);
    if |parts| == 1 {
      assert IndexOf(s, c) == |s|;
    } else {
      var rest := Join([c], parts[1..]);
      assert s == parts[0] + [c] + rest;
      assert s[|parts[0]|] == c;
      assert forall k :: 0 <= k < |parts[0]| ==> s[k] == parts[0][k];
      assert IndexOf(s, c) == |parts[0]|;
      assert s[..|parts[0]|] == parts[0];
      assert s[|parts[0]| + 1..] == rest;
      SplitJoin(parts[1..], c);
      assert [parts[0]] + parts[1..] == parts;
    }
  }

  /** Python's `t in s` for strings. */
  ghost predicate Contains(s: string, t: string)
  {
    exists i :: SliceAt(s, t, i)
  }

  /** `t` occurs in `s` starting at index `i`. */
  predicate SliceAt(s: string, t: string, i: int)
  {
    0 <= i <= |s| - |t| && s[i..i + |t|] == t
  }

  /** Any piece of a concatenation is contained in it. */
  lemma ContainsMiddle(a: string, t: string, b: string)
    ensures Contains(a + t + b, t)
  {
    var s := a + t + b;
    assert SliceAt(s, t, |a|);
  }
}
