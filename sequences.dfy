/**
 * Facts about concatenation and slicing, stated once for any element type so
 * that the proofs that need them do not re-derive them in a larger context.
 */
module Sequences {

  /** Requests, records or characters gathered in three stretches, however grouped. */
  lemma Associative<T>(a: seq<T>, b: seq<T>, c: seq<T>)
    ensures a + (b + c) == (a + b) + c
  {
  }

  lemma Regroup<T>(a: seq<T>, x: seq<T>, y: seq<T>, z: seq<T>)
    ensures a + x + y + z == a + (x + y + z)
  {
  }

  /** A non-empty sequence is its prefix and its last element. */
  lemma SplitLast<T>(xs: seq<T>)
    requires xs != []
    ensures xs == xs[..|xs| - 1] + [xs[|xs| - 1]]
  {
  }

  /** The middle of three pieces is where it was put. */
  lemma SliceMiddle<T>(a: seq<T>, b: seq<T>, c: seq<T>)
    ensures (a + b + c)[|a|..|a| + |b|] == b
  {
  }

  /** The first element and the rest of a sequence built by prepending. */
  lemma HeadTail<T>(x: T, rest: seq<T>)
    ensures ([x] + rest)[0] == x && ([x] + rest)[1..] == rest
  {
  }

  lemma PairParts<T>(x: T, y: T)
    ensures [x, y][0] == x && [x, y][1..] == [y] && [x] + [y] == [x, y]
  {
  }

  lemma AppendEmpty<T>(xs: seq<T>)
    ensures xs + [] == xs && [] + xs == xs
  {
  }

  /** What was appended last is the suffix of its length. */
  lemma Suffix<T>(x: seq<T>, y: seq<T>)
    ensures (x + y)[|x + y| - |y|..] == y
  {
  }

  lemma SuffixOfSuffix<T>(s: seq<T>, t: seq<T>, u: seq<T>)
    requires |t| <= |s| && s[|s| - |t|..] == t
    requires |u| <= |t| && t[|t| - |u|..] == u
    ensures s[|s| - |u|..] == u
  {
  }
}
