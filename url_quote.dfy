/**
 * Percent-encoding of a path segment, as Python's `urllib.parse.quote(text)`
 * does it with its defaults: `safe="/"`, UTF-8, strict errors. Letters,
 * digits, `_.-~` and `/` stay; every other character becomes `%XX` for each
 * byte of its UTF-8 encoding, in upper-case hexadecimal.
 */
module UrlQuote {

  /** Characters `quote` never escapes: its always-safe set plus `/`. */
  predicate IsSafe(c: char)
  {
    'A' <= c <= 'Z' || 'a' <= c <= 'z' || '0' <= c <= '9' ||
    c == '_' || c == '.' || c == '-' || c == '~' || c == '/'
  }

  predicate IsUpperHex(c: char)
  {
    '0' <= c <= '9' || 'A' <= c <= 'F'
  }

  /** The UTF-8 encoding of one Unicode scalar value. */
  function Utf8(c: char): (bytes: seq<int>)
    ensures 1 <= |bytes| <= 4
    ensures forall i :: 0 <= i < |bytes| ==> 0 <= bytes[i] < 256
    ensures |bytes| == 1 <==> (c as int) < 0x80
    ensures |bytes| == 1 ==> bytes[0] == c as int
  {
    var cp := c as int;
    if cp < 0x80 then [cp]
    else if cp < 0x800 then [0xC0 + cp / 0x40, 0x80 + cp % 0x40]
    else if cp < 0x1_0000 then [0xE0 + cp / 0x1000, 0x80 + (cp / 0x40) % 0x40, 0x80 + cp % 0x40]
    else [0xF0 + cp / 0x4_0000, 0x80 + (cp / 0x1000) % 0x40, 0x80 + (cp / 0x40) % 0x40, 0x80 + cp % 0x40]
  }

  /** `%XX` for one byte. */
  function PercentByte(b: int): (r: string)
    requires 0 <= b < 256
    ensures |r| == 3 && r[0] == '%' && IsUpperHex(r[1]) && IsUpperHex(r[2])
  {
    ['%', "0123456789ABCDEF"[b / 16], "0123456789ABCDEF"[b % 16]]
  }

  function PercentBytes(bytes: seq<int>): (r: string)
    requires forall i :: 0 <= i < |bytes| ==> 0 <= bytes[i] < 256
    ensures |r| == 3 * |bytes|
    ensures forall i :: 0 <= i < |r| ==> r[i] == '%' || IsUpperHex(r[i])
    ensures |bytes| > 0 ==> r[0] == '%'
  {
    if bytes == [] then "" else PercentByte(bytes[0]) + PercentBytes(bytes[1..])
  }

  /** How `quote` writes one character. */
  function QuoteChar(c: char): (r: string)
    ensures forall i :: 0 <= i < |r| ==> IsSafe(r[i]) || r[i] == '%'
    ensures r == [c] <==> IsSafe(c)
    ensures !IsSafe(c) ==> |r| == 3 * |Utf8(c)| && r[0] == '%'
  {
    if IsSafe(c) then [c] else PercentBytes(Utf8(c))
  }

  /** `urllib.parse.quote(s)`. */
  function Quote(s: string): (r: string)
    ensures |r| >= |s|
    ensures forall i :: 0 <= i < |r| ==> IsSafe(r[i]) || r[i] == '%'
  {
    if s == [] then "" else QuoteChar(s[0]) + Quote(s[1..])
  }

  /** Quoting works character by character, so it distributes over concatenation. */
  lemma {:induction false} QuoteAppend(a: string, b: string)
    ensures Quote(a + b) == Quote(a) + Quote(b)
    decreases |a|
  {
    if a != [] {
      assert (a + b)[1..] == a[1..] + b;
      QuoteAppend(a[1..], b);
    } else {
      assert a + b == b;
    }
  }

  /** A string made only of safe characters is left as it is ... */
  lemma {:induction false} QuoteSafeIdentity(s: string)
    requires forall i :: 0 <= i < |s| ==> IsSafe(s[i])
    ensures Quote(s) == s
    decreases |s|
  {
    if s != [] {
      QuoteSafeIdentity(s[1..]);
    }
  }

  /** ... and any other string is changed: the output always differs from it. */
  lemma {:induction false} QuoteChangesUnsafe(s: string, k: nat)
    requires k < |s| && !IsSafe(s[k])
    ensures Quote(s) != s
    decreases |s|
  {
    if k == 0 {
      assert Quote(s)[0] == '%';
    } else {
      QuoteChangesUnsafe(s[1..], k - 1);
    }
  }

  /** The only `/` in quoted text are the ones the text had: `/` is kept as it is. */
  lemma {:induction false} QuoteSlashFree(s: string)
    requires forall i :: 0 <= i < |s| ==> s[i] != '/'
    ensures forall i :: 0 <= i < |Quote(s)| ==> Quote(s)[i] != '/'
    decreases |s|
  {
    if s != [] {
      QuoteSlashFree(s[1..]);
      var q := QuoteChar(s[0]);
      assert forall i :: 0 <= i < |q| ==> q[i] != '/';
      assert Quote(s) == q + Quote(s[1..]);
    }
  }

  /** Quoted text holds no space, so a party name fits in one path segment. */
  lemma QuoteHasNoSpace(s: string)
    ensures forall i :: 0 <= i < |Quote(s)| ==> Quote(s)[i] != ' '
  {
  }
}
