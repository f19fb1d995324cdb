/**
 * The query classifier: which of the seven search kinds a raw query is, the
 * API route of each kind, and the request path built from a query
 * (entities/request_type.py).
 *
 * Each regular expression of the source is written out as a predicate over
 * split points and character classes, quirks included: `s{1,2}` in the name
 * patterns is the letter `s`, and the unescaped `.` in the CNJ, CPF, CNPJ and
 * INQ patterns matches any character but a newline. All patterns but the
 * digit ones are case-insensitive, with Python's Unicode case rules.
 */
module RequestType {
  import opened Wrappers
  import opened JsonValue
  import opened Text
  import opened Sequences
  import UrlQuote

  /** The request kinds, in the order the enum declares them. */
  datatype Kind = CNJ | NomeParte | NomeParteExato | OAB | CPF | CNPJ | INQ

  /** Declaration order: the order `get_type` tries the patterns in. */
  const Declared: seq<Kind> := [CNJ, NomeParte, NomeParteExato, OAB, CPF, CNPJ, INQ]

  /** Position of a kind in declaration order. */
  function Rank(k: Kind): (i: nat)
    ensures i < |Declared| && Declared[i] == k
  {
    match k
    case CNJ => 0
    case NomeParte => 1
    case NomeParteExato => 2
    case OAB => 3
    case CPF => 4
    case CNPJ => 5
    case INQ => 6
  }

  /** Why a query was refused (InvalidRequestError and its three messages). */
  datatype InvalidReason = EmptyQuery | SurnameMissing | Unrecognized(query: string)

  /** The message each refusal carries; the words that name the cause are split out. */
  function InvalidMessage(r: InvalidReason): string
  {
    match r
    case EmptyQuery => "A busca não pode estar " + "vazia" + "."
    case SurnameMissing => "Nome da Parte deve conter ao menos um " + "sobrenome" + "."
    case Unrecognized(q) =>
      "Tipo de requisição " + "não identificado" + UnrecognizedTail(q)
  }

  function UnrecognizedTail(q: string): string
  {
    ": '" + q + "'. Formatos aceitos: CNJ, CPF, CNPJ, OAB, Nome da Parte, Inquérito."
  }

  /** Each refusal names its cause: "vazia", "sobrenome", "não identificado". */
  lemma InvalidMessageNamesCause(r: InvalidReason)
    ensures r == EmptyQuery ==> Contains(InvalidMessage(r), "vazia")
    ensures r == SurnameMissing ==> Contains(InvalidMessage(r), "sobrenome")
    ensures r.Unrecognized? ==> Contains(InvalidMessage(r), "não identificado")
  {
    match r
    case EmptyQuery =>
      ContainsMiddle("A busca não pode estar ", "vazia", ".");
    case SurnameMissing =>
      ContainsMiddle("Nome da Parte deve conter ao menos um ", "sobrenome", ".");
    case Unrecognized(q) =>
      ContainsMiddle("Tipo de requisição ", "não identificado", UnrecognizedTail(q));
  }

  // ---------------------------------------------------------------------------
  // Character classes

  /**
   * `[a-zA-Z]` under IGNORECASE: Python also matches U+0130 (İ), U+0131 (ı),
   * U+017F (ſ) and U+212A (the Kelvin sign), whose simple lower case is an
   * ASCII letter or which are case-equivalent to one.
   */
  predicate IsLetterCi(c: char)
  {
    'a' <= c <= 'z' || 'A' <= c <= 'Z' ||
    c == '\U{130}' || c == '\U{131}' || c == '\U{17f}' || c == '\U{212a}'
  }

  /** The accented letters of the name patterns, in either case (IGNORECASE). */
  predicate IsAccentedCi(c: char)
  {
    c in "õãáíóúéôêâç" || c in "ÕÃÁÍÓÚÉÔÊÂÇ"
  }

  /** The literal pattern letter `p` (lower-case ASCII) under IGNORECASE. */
  predicate MatchesCi(c: char, p: char)
    requires 'a' <= p <= 'z'
  {
    c == p || c as int == p as int - 32 ||
    (p == 'i' && (c == '\U{130}' || c == '\U{131}')) ||
    (p == 's' && c == '\U{17f}') ||
    (p == 'k' && c == '\U{212a}')
  }

  /** The character classes the patterns are built from. */
  datatype CharClass =
    | Digit        // [0-9]
    | Letter       // [a-zA-Z] (IGNORECASE)
    | Name         // [a-zA-Z\xf5\xe3\xe1\xed\xf3\xfa\xe9\xf4\xea\xe2\xe7-] (IGNORECASE)
    | NameOrSpace  // the same class with a space added
    | LetterS      // the literal `s` (IGNORECASE)
    | NotNewline   // `.`

  predicate InClass(c: char, k: CharClass)
  {
    match k
    case Digit => IsDigit(c)
    case Letter => IsLetterCi(c)
    case Name => IsLetterCi(c) || IsAccentedCi(c) || c == '-'
    case NameOrSpace => IsLetterCi(c) || IsAccentedCi(c) || c == '-' || c == ' '
    case LetterS => MatchesCi(c, 's')
    case NotNewline => c != '\n'
  }

  /** A letter `s` is a name character, and a name character may stand where a name or a space may. */
  lemma ClassInclusions(c: char)
    ensures InClass(c, LetterS) ==> InClass(c, Name)
    ensures InClass(c, Name) ==> InClass(c, NameOrSpace) && InClass(c, NotNewline)
    ensures InClass(c, NameOrSpace) ==> InClass(c, NotNewline)
  {
  }

  /** `s[lo..hi]` is a run of characters of class `k`. */
  predicate Span(s: string, lo: int, hi: int, k: CharClass)
  {
    0 <= lo <= hi <= |s| && forall i :: lo <= i < hi ==> InClass(s[i], k)
  }

  lemma SpanPart(s: string, lo: int, hi: int, lo': int, hi': int, k: CharClass)
    requires Span(s, lo, hi, k) && lo <= lo' <= hi' <= hi
    ensures Span(s, lo', hi', k)
  {
  }

  /** `s` starts with the lower-case ASCII word `w`, compared under IGNORECASE. */
  predicate CaselessPrefix(s: string, w: string)
    requires forall i :: 0 <= i < |w| ==> 'a' <= w[i] <= 'z'
  {
    |w| <= |s| && forall i :: 0 <= i < |w| ==> MatchesCi(s[i], w[i])
  }

  // ---------------------------------------------------------------------------
  // The patterns (entities/request_type.py, lines 24-44). Each is applied to
  // the stripped query, which cannot end in a newline, so `$` is the end.

  /**
   * A fixed-width pattern written as a mask: `#` is `[0-9]`, `.` is the
   * regex's unescaped `.`, any other character stands for itself.
   */
  predicate MatchesMask(s: string, mask: string)
  {
    |s| == |mask| &&
    forall i :: 0 <= i < |s| ==>
      if mask[i] == '#' then IsDigit(s[i]) else if mask[i] == '.' then s[i] != '\n' else s[i] == mask[i]
  }

  predicate AllDigitsOfLength(s: string, n: nat)
  {
    |s| == n && Span(s, 0, n, Digit)
  }

  /** `^[0-9]{7}-[0-9]{2}.[0-9]{4}.[0-9]{1}.[0-9]{2}.[0-9]{4}$|^[0-9]{20}$` */
  predicate CnjPattern(s: string)
  {
    MatchesMask(s, "#######-##.####.#.##.####") || AllDigitsOfLength(s, 20)
  }

  /** `^[0-9]{11}$|^[0-9]{3}.[0-9]{3}.[0-9]{3}-[0-9]{2}$` */
  predicate CpfPattern(s: string)
  {
    AllDigitsOfLength(s, 11) || MatchesMask(s, "###.###.###-##")
  }

  /** `^[0-9]{14}$|^[0-9]{2}.[0-9]{3}.[0-9]{3}/[0-9]{4}-[0-9]{2}$` */
  predicate CnpjPattern(s: string)
  {
    AllDigitsOfLength(s, 14) || MatchesMask(s, "##.###.###/####-##")
  }

  /** `:*[0-9]{1,}` fills `s[3..|s| - 2]`, with the digits starting at `k`. */
  predicate OabBodyAt(s: string, k: int)
  {
    3 <= k < |s| - 2 &&
    (forall i :: 3 <= i < k ==> s[i] == ':') &&
    Span(s, k, |s| - 2, Digit)
  }

  /** `^(OAB):*[0-9]{1,}[a-zA-Z]{2}$`, IGNORECASE */
  predicate OabPattern(s: string)
  {
    |s| >= 6 && CaselessPrefix(s, "oab") &&
    (exists k | 3 <= k < |s| - 2 :: OabBodyAt(s, k)) &&
    Span(s, |s| - 2, |s|, Letter)
  }

  /** `^(inq):[0-9]{4}.[0-9]{1,}$`, IGNORECASE */
  predicate InqPattern(s: string)
  {
    |s| >= 10 && CaselessPrefix(s, "inq") && s[3] == ':' &&
    Span(s, 4, 8, Digit) && s[8] != '\n' && Span(s, 9, |s|, Digit)
  }

  /** `[N]{a}s{b}[N]{c}` starting at `lo`, with `a, c >= 1` and `b` one or two. */
  predicate NameWithSurnameAt(s: string, lo: int, a: int, b: int, c: int)
  {
    1 <= a && 1 <= b <= 2 && 1 <= c &&
    Span(s, lo, lo + a, Name) && Span(s, lo + a, lo + a + b, LetterS) &&
    Span(s, lo + a + b, lo + a + b + c, Name)
  }

  /** `^[N]{1,}s{1,2}[N]{1,}[N ]{0,}.{0,}$`, IGNORECASE, split at `a, b, c, d`. */
  predicate NomeParteAt(s: string, a: int, b: int, c: int, d: int)
  {
    NameWithSurnameAt(s, 0, a, b, c) && 0 <= d &&
    Span(s, a + b + c, a + b + c + d, NameOrSpace) &&
    Span(s, a + b + c + d, |s|, NotNewline)
  }

  predicate NomePartePattern(s: string)
  {
    exists a, b, c, d | 0 <= a <= |s| && 0 <= b <= |s| && 0 <= c <= |s| && 0 <= d <= |s| ::
      NomeParteAt(s, a, b, c, d)
  }

  /** `^"[N]{1,}s{1,2}[N]{1,}[N ]{0,}"$`, IGNORECASE, split at `a, b, c`. */
  predicate NomeParteExatoAt(s: string, a: int, b: int, c: int)
  {
    |s| >= 2 && s[0] == '"' && s[|s| - 1] == '"' &&
    NameWithSurnameAt(s, 1, a, b, c) && 1 + a + b + c <= |s| - 1 &&
    Span(s, 1 + a + b + c, |s| - 1, NameOrSpace)
  }

  predicate NomeParteExatoPattern(s: string)
  {
    exists a, b, c | 0 <= a <= |s| && 0 <= b <= |s| && 0 <= c <= |s| ::
      NomeParteExatoAt(s, a, b, c)
  }

  /** `s{0,}[N]{1,}s{0,1}` filling `s[lo..hi]`, the name run being `s[a..b]`. */
  predicate BareSingleNameAt(s: string, lo: int, hi: int, a: int, b: int)
  {
    lo <= a < b <= hi && hi <= b + 1 &&
    Span(s, lo, a, LetterS) && Span(s, a, b, Name) && Span(s, b, hi, LetterS)
  }

  /** The same inside the quotes that open and close `s`. */
  predicate QuotedSingleNameAt(s: string, a: int, b: int)
  {
    |s| >= 2 && BareSingleNameAt(s, 1, |s| - 1, a, b)
  }

  /** `^"s{0,}[N]{1,}s{0,1}"$|^s{0,}[N]{1,}s{0,1}$`, IGNORECASE */
  predicate SingleNamePattern(s: string)
  {
    (|s| >= 2 && s[0] == '"' && s[|s| - 1] == '"' &&
     exists a, b | 1 <= a <= |s| - 1 && 1 <= b <= |s| - 1 :: QuotedSingleNameAt(s, a, b)) ||
    (exists a, b | 0 <= a <= |s| && 0 <= b <= |s| :: BareSingleNameAt(s, 0, |s|, a, b))
  }

  /** Whether the pattern of kind `k` matches the (stripped) query `s`. */
  predicate Matches(k: Kind, s: string)
  {
    match k
    case CNJ => CnjPattern(s)
    case NomeParte => NomePartePattern(s)
    case NomeParteExato => NomeParteExatoPattern(s)
    case OAB => OabPattern(s)
    case CPF => CpfPattern(s)
    case CNPJ => CnpjPattern(s)
    case INQ => InqPattern(s)
  }

  // ---------------------------------------------------------------------------
  // What the name patterns amount to

  /** The `i`-th character is a letter `s` inside the leading run of name characters, not first and not last. */
  predicate SurnameMarkAt(s: string, i: int)
  {
    1 <= i && i + 2 <= |s| && InClass(s[i], LetterS) && Span(s, 0, i + 2, Name)
  }

  /**
   * NOME_PARTE does not look for a space between names: it accepts exactly
   * the newline-free queries whose leading run of name characters holds a
   * letter `s` with a name character on each side ("Jose Antonio" through
   * "Jos|e", while "Ana Maria" is refused).
   */
  lemma NomeParteIff(s: string)
    ensures NomePartePattern(s) <==>
      (forall k :: 0 <= k < |s| ==> s[k] != '\n') && exists i :: SurnameMarkAt(s, i)
  {
    if NomePartePattern(s) {
      var a, b, c, d :| NomeParteAt(s, a, b, c, d);
      assert NomeParteAt(s, a, b, c, d);
      forall k | 0 <= k < a + 2 ensures InClass(s[k], Name) {
        ClassInclusions(s[k]);
      }
      assert SurnameMarkAt(s, a);
      forall k | 0 <= k < |s| ensures s[k] != '\n' {
        ClassInclusions(s[k]);
      }
    }
    if (forall k :: 0 <= k < |s| ==> s[k] != '\n') && exists i :: SurnameMarkAt(s, i) {
      var i :| SurnameMarkAt(s, i);
      assert NomeParteAt(s, i, 1, 1, 0);
    }
  }

  /**
   * NOME_PARTE_EXATO: a quoted text whose inner part starts with a run of
   * name characters holding a non-initial, non-final letter `s`, followed by
   * name characters and spaces only.
   */
  lemma NomeParteExatoIff(s: string)
    ensures NomeParteExatoPattern(s) <==>
      |s| >= 2 && s[0] == '"' && s[|s| - 1] == '"' &&
      exists i :: 2 <= i && i + 2 <= |s| - 1 && InClass(s[i], LetterS) &&
        Span(s, 1, i + 2, Name) && Span(s, i + 2, |s| - 1, NameOrSpace)
  {
    if NomeParteExatoPattern(s) {
      var a, b, c :| NomeParteExatoAt(s, a, b, c);
      NomeParteExatoShape(s, a, b, c);
    }
    if |s| >= 2 && s[0] == '"' && s[|s| - 1] == '"' &&
      exists i :: 2 <= i && i + 2 <= |s| - 1 && InClass(s[i], LetterS) &&
        Span(s, 1, i + 2, Name) && Span(s, i + 2, |s| - 1, NameOrSpace)
    {
      var i :| 2 <= i && i + 2 <= |s| - 1 && InClass(s[i], LetterS) &&
        Span(s, 1, i + 2, Name) && Span(s, i + 2, |s| - 1, NameOrSpace);
      NomeParteExatoOfShape(s, i);
    }
  }

  /** Such a string matches with the letter `s` at `i`, one name character before and after it. */
  lemma NomeParteExatoOfShape(s: string, i: int)
    requires |s| >= 2 && s[0] == '"' && s[|s| - 1] == '"'
    requires 2 <= i && i + 2 <= |s| - 1 && InClass(s[i], LetterS)
    requires Span(s, 1, i + 2, Name) && Span(s, i + 2, |s| - 1, NameOrSpace)
    ensures NomeParteExatoPattern(s)
  {
    SpanPart(s, 1, i + 2, 1, i, Name);
    SpanPart(s, 1, i + 2, i + 1, i + 2, Name);
    assert Span(s, i, i + 1, LetterS);
    assert NameWithSurnameAt(s, 1, i - 1, 1, 1);
    assert NomeParteExatoAt(s, i - 1, 1, 1);
  }

  /** A match of NOME_PARTE_EXATO puts its letter `s` at `1 + a`. */
  lemma NomeParteExatoShape(s: string, a: int, b: int, c: int)
    requires NomeParteExatoAt(s, a, b, c)
    ensures |s| >= 2 && s[0] == '"' && s[|s| - 1] == '"'
    ensures 2 <= 1 + a && 1 + a + 2 <= |s| - 1 && InClass(s[1 + a], LetterS)
    ensures Span(s, 1, 1 + a + 2, Name) && Span(s, 1 + a + 2, |s| - 1, NameOrSpace)
  {
    var i := 1 + a;
    forall k | 1 <= k < |s| - 1 ensures InClass(s[k], NameOrSpace) && (k < i + 2 ==> InClass(s[k], Name)) {
      ClassInclusions(s[k]);
    }
  }

  /**
   * The optional letters `s` around SINGLE_NAME's run are name characters
   * themselves, so the pattern accepts exactly one non-empty run of name
   * characters, bare or in quotes.
   */
  lemma SingleNameIff(s: string)
    ensures SingleNamePattern(s) <==>
      (|s| >= 1 && Span(s, 0, |s|, Name)) ||
      (|s| >= 3 && s[0] == '"' && s[|s| - 1] == '"' && Span(s, 1, |s| - 1, Name))
  {
    if |s| >= 3 && s[0] == '"' && s[|s| - 1] == '"' && Span(s, 1, |s| - 1, Name) {
      assert QuotedSingleNameAt(s, 1, |s| - 1);
    }
    if |s| >= 1 && Span(s, 0, |s|, Name) {
      assert BareSingleNameAt(s, 0, |s|, 0, |s|);
    }
  }

  /** Without a letter `s` there is no party name. */
  lemma NoLetterSNoName(s: string)
    requires forall i :: 0 <= i < |s| ==> !InClass(s[i], LetterS)
    ensures !NomePartePattern(s)
  {
    NomeParteIff(s);
  }

  /** What each pattern demands of the first character. */
  lemma FirstCharacter(s: string)
    ensures NomePartePattern(s) ==> InClass(s[0], Name)
    ensures NomeParteExatoPattern(s) ==> s[0] == '"'
    ensures OabPattern(s) ==> MatchesCi(s[0], 'o')
    ensures InqPattern(s) ==> MatchesCi(s[0], 'i')
    ensures CnjPattern(s) || CpfPattern(s) || CnpjPattern(s) ==> IsDigit(s[0])
  {
    if NomePartePattern(s) {
      var a, b, c, d :| NomeParteAt(s, a, b, c, d);
      assert NomeParteAt(s, a, b, c, d);
    }
  }

  // ---------------------------------------------------------------------------
  // get_type (entities/request_type.py, lines 48-80)

  /** `kinds[i]` is the first of `kinds` whose pattern matches `s`. */
  predicate FirstMatchAt(s: string, kinds: seq<Kind>, i: int)
  {
    0 <= i < |kinds| && Matches(kinds[i], s) &&
    forall j :: 0 <= j < i ==> !Matches(kinds[j], s)
  }

  /** The kinds are declared once each: a kind's rank is its place in the declaration. */
  lemma RankOfDeclared(i: int)
    requires 0 <= i < |Declared|
    ensures Rank(Declared[i]) == i
  {
  }

  /** The loop over the kinds: the first one whose pattern matches. */
  function FirstMatch(s: string, kinds: seq<Kind>): (r: Option<Kind>)
    ensures r.None? <==> forall i :: 0 <= i < |kinds| ==> !Matches(kinds[i], s)
    ensures r.Some? ==> exists i :: FirstMatchAt(s, kinds, i) && kinds[i] == r.value
    decreases |kinds|
  {
    if kinds == [] then None
    else if Matches(kinds[0], s) then
      assert FirstMatchAt(s, kinds, 0);
      Some(kinds[0])
    else
      var r := FirstMatch(s, kinds[1..]);
      assert r.Some? ==> forall i :: FirstMatchAt(s, kinds[1..], i) ==> FirstMatchAt(s, kinds, i + 1);
      r
  }

  /** No kind's pattern matches `s`. */
  predicate NoKindMatches(s: string)
  {
    forall k :: !Matches(k, s)
  }

  /**
   * The pattern loop and the refusal of `get_type` for a non-empty stripped
   * query `t`: the first kind, in declaration order, whose pattern matches;
   * when none does, a missing surname if `t` is a single name, and otherwise
   * an unrecognised format quoting `t`.
   */
  function Classify(t: string): (r: Result<Kind, InvalidReason>)
    ensures r.Success? ==> FirstMatchAt(t, Declared, Rank(r.value))
    ensures r.Failure? ==> NoKindMatches(t) && r.error != EmptyQuery
    ensures r == Failure(SurnameMissing) <==> NoKindMatches(t) && SingleNamePattern(t)
    ensures r.Failure? && r.error.Unrecognized? ==> r.error.query == t && !SingleNamePattern(t)
  {
    match FirstMatch(t, Declared)
    case Some(k) =>
      assert FirstMatchAt(t, Declared, Rank(k)) by {
        var i :| FirstMatchAt(t, Declared, i) && Declared[i] == k;
        RankOfDeclared(i);
      }
      Success(k)
    case None =>
      assert NoKindMatches(t) by {
        forall k ensures !Matches(k, t) {
          assert Declared[Rank(k)] == k;
        }
      }
      if SingleNamePattern(t) then Failure(SurnameMissing) else Failure(Unrecognized(t))
  }

  /**
   * `RequestType.get_type`: the query is stripped, and an empty query is
   * refused before any pattern is tried.
   */
  function GetType(request: string): (r: Result<Kind, InvalidReason>)
    ensures Strip(request) == [] <==> r == Failure(EmptyQuery)
    ensures Strip(request) != [] ==> r == Classify(Strip(request))
  {
    var t := Strip(request);
    if t == [] then Failure(EmptyQuery) else Classify(t)
  }


  /** An OAB or INQ query's leading run of name characters is three letters with no `s` inside. */
  lemma OabInqAreNotNames(s: string)
    requires OabPattern(s) || InqPattern(s)
    ensures !NomePartePattern(s)
  {
    NomeParteIff(s);
    assert !InClass(s[3], Name);
  }

  /** The three numeric patterns have different lengths, or differ where CPF puts its `-`. */
  lemma NumericPatternsDisjoint(s: string)
    ensures !(CnjPattern(s) && CpfPattern(s))
    ensures !(CnjPattern(s) && CnpjPattern(s))
    ensures !(CpfPattern(s) && CnpjPattern(s))
  {
    assert MatchesMask(s, "###.###.###-##") ==> s[11] == '-';
  }

  /**
   * No query matches two patterns: the numbers start with a digit and differ
   * as above, the exact name with a quote, OAB and INQ with different
   * letters, and neither of those is a name.
   */
  lemma PatternsDisjoint(s: string, k1: Kind, k2: Kind)
    requires Matches(k1, s) && Matches(k2, s)
    ensures k1 == k2
  {
    FirstCharacter(s);
    NumericPatternsDisjoint(s);
    if OabPattern(s) || InqPattern(s) {
      OabInqAreNotNames(s);
    }
  }

  /**
   * Since the patterns are disjoint, the order they are tried in does not
   * change the outcome: a query is classified as `k` exactly when `k`'s
   * pattern matches it.
   */
  lemma ClassifyIff(s: string, k: Kind)
    ensures Classify(s) == Success(k) <==> Matches(k, s)
  {
    if Matches(k, s) {
      forall k' | Matches(k', s) ensures k' == k {
        PatternsDisjoint(s, k, k');
      }
      assert Matches(Declared[Rank(k)], s);
    }
  }

  /** A query with no surrounding whitespace that matches `k`'s pattern is of kind `k`. */
  lemma GetTypeMatching(s: string, k: Kind)
    requires s != [] && !IsSpace(s[0]) && !IsSpace(s[|s| - 1])
    requires Matches(k, s)
    ensures GetType(s) == Success(k)
  {
    StripNoop(s);
    ClassifyIff(s, k);
  }

  /** A query with no surrounding whitespace that no pattern matches is refused. */
  lemma GetTypeRefusing(s: string)
    requires s != [] && !IsSpace(s[0]) && !IsSpace(s[|s| - 1])
    requires NoKindMatches(s)
    ensures GetType(s) == if SingleNamePattern(s) then Failure(SurnameMissing) else Failure(Unrecognized(s))
  {
    StripNoop(s);
  }

  // ---------------------------------------------------------------------------
  // get_route_by_type and get_request_url (entities/request_type.py, lines 82-128)

  /** The route of each kind without its enclosing slashes: one path segment. */
  function RouteName(k: Kind): (name: string)
    ensures |name| > 0 && forall i :: 0 <= i < |name| ==> name[i] != '/'
  {
    match k
    case CNJ => "processobycnj"
    case NomeParte => "processobynomeparte"
    case NomeParteExato => "processobynomeparteexato"
    case OAB => "processobyoab"
    case CPF => "processobycpf"
    case CNPJ => "processobycnpj"
    case INQ => "processobyinquerito"
  }

  /** `get_route_by_type`: the API route of each kind, e.g. `/processobycnj/`. */
  function Route(k: Kind): (r: string)
    ensures |r| >= 3 && r[0] == '/' && r[|r| - 1] == '/'
    ensures forall i :: 0 < i < |r| - 1 ==> r[i] != '/'
  {
    "/" + RouteName(k) + "/"
  }

  /** Distinct kinds have distinct routes. */
  lemma RouteInjective(a: Kind, b: Kind)
    requires Route(a) == Route(b)
    ensures a == b
  {
    assert RouteName(a) == Route(a)[1..|Route(a)| - 1];
    assert RouteName(b) == Route(b)[1..|Route(b)| - 1];
    assert RouteName(a)[9] == RouteName(b)[9] && RouteName(a)[11] == RouteName(b)[11];
  }

  /** The kinds whose data is percent-encoded (line 111). */
  predicate IsPartyName(k: Kind)
  {
    k == NomeParte || k == NomeParteExato
  }

  /** The kinds whose page and page size are forced to 1 and 1000 (line 113). */
  predicate ForcesPagination(k: Kind)
  {
    k != NomeParte && k != CNJ
  }

  /** The query as it appears in the path. */
  function PathData(k: Kind, data: string): string
  {
    if IsPartyName(k) then UrlQuote.Quote(data) else data
  }

  /** Where `$` matches in `s` and can follow a letter: the end, or before a final newline. */
  function DollarAt(s: string): (e: nat)
    ensures e <= |s|
  {
    if |s| > 0 && s[|s| - 1] == '\n' then |s| - 1 else |s|
  }

  /** Start of the run of digits that ends at `j`. */
  function DigitRunStart(s: string, j: nat): (i: nat)
    requires j <= |s|
    ensures i <= j && Span(s, i, j, Digit)
    ensures i == 0 || !IsDigit(s[i - 1])
    decreases j
  {
    if j > 0 && IsDigit(s[j - 1]) then DigitRunStart(s, j - 1) else j
  }

  /** The two groups of the OAB search: the registration number and the state. */
  datatype OabNumber = OabNumber(number: string, state: string)

  /**
   * `(\d+)([a-z]{2})$` matches `s` from `p` to `e`: digits up to `e - 2`, two
   * letters (IGNORECASE), and `e` is where `$` matches.
   */
  predicate OabMatchAt(s: string, p: int, e: int)
  {
    0 <= p < e - 2 && (e == |s| || (e == |s| - 1 && s[e] == '\n')) &&
    Span(s, p, e - 2, Digit) && Span(s, e - 2, e, Letter)
  }

  /** `re.search` reports the match that starts leftmost. */
  ghost predicate LeftmostOabMatch(s: string, p: int, e: int)
  {
    OabMatchAt(s, p, e) && forall p', e' :: 0 <= p' < p ==> !OabMatchAt(s, p', e')
  }

  /**
   * `re.search(r"(\d+)([a-z]{2})$", data, re.IGNORECASE)` with its two groups:
   * there is a result exactly when the pattern matches somewhere, and the
   * result is the leftmost match.
   */
  function OabSearch(s: string): (m: Option<OabNumber>)
    ensures m.Some? <==> exists p, e :: OabMatchAt(s, p, e)
    ensures m.Some? ==>
      exists p, e :: LeftmostOabMatch(s, p, e) && m.value == OabNumber(s[p..e - 2], s[e - 2..e])
  {
    var e := DollarAt(s);
    assert forall p, e' :: OabMatchAt(s, p, e') ==> e' == e by {
      forall p, e' | OabMatchAt(s, p, e') ensures e' == e {
        assert InClass(s[e' - 1], Letter);
      }
    }
    if e >= 3 && IsDigit(s[e - 3]) && Span(s, e - 2, e, Letter) then
      var i := DigitRunStart(s, e - 2);
      assert OabMatchAt(s, i, e);
      assert forall p', e' :: 0 <= p' < i ==> !OabMatchAt(s, p', e');
      assert LeftmostOabMatch(s, i, e);
      Some(OabNumber(s[i..e - 2], s[e - 2..e]))
    else
      assert forall p, e' :: !OabMatchAt(s, p, e');
      None
  }

  /**
   * Python's `str.upper()` on a letter that `[a-z]` matches under IGNORECASE:
   * the same pattern letter, in upper case; any other character is kept.
   */
  function UpperLetter(c: char): (u: char)
    ensures InClass(c, Letter) ==> InClass(u, Letter) && !('a' <= u <= 'z') && u != '\U{131}' && u != '\U{17f}'
    ensures forall p :: 'a' <= p <= 'z' && MatchesCi(c, p) ==> MatchesCi(u, p)
    ensures !InClass(c, Letter) ==> u == c
  {
    if 'a' <= c <= 'z' then (c as int - 32) as char
    else if c == '\U{131}' then 'I'
    else if c == '\U{17f}' then 'S'
    else c
  }

  /**
   * Python's `str.upper()` on the state an OAB query ends with: the length is
   * kept, no lower-case letter is left, every letter stays the letter the
   * pattern matched, and any other character is kept.
   */
  function Upper(s: string): (r: string)
    ensures |r| == |s|
    ensures forall i :: 0 <= i < |s| && InClass(s[i], Letter) ==>
      InClass(r[i], Letter) && !('a' <= r[i] <= 'z') && r[i] != '\U{131}' && r[i] != '\U{17f}'
    ensures forall i, p :: 0 <= i < |s| && 'a' <= p <= 'z' && MatchesCi(s[i], p) ==> MatchesCi(r[i], p)
    ensures forall i :: 0 <= i < |s| && !InClass(s[i], Letter) ==> r[i] == s[i]
  {
    seq(|s|, i requires 0 <= i < |s| => UpperLetter(s[i]))
  }

  /**
   * The path before the optional segments (lines 108-122): the route and
   * the data, except that for OAB a number and state found at the end of the
   * data become `<number>/OAB-<STATE>`.
   */
  function UrlBase(k: Kind, data: string): string
  {
    var d := PathData(k, data);
    if k == OAB && OabSearch(d).Some? then
      var m := OabSearch(d).value;
      Route(k) + m.number + "/OAB-" + Upper(m.state)
    else
      Route(k) + d
  }

  /** `/value` when the value is truthy, nothing otherwise (lines 123-128). */
  function OptionalSegment(v: Json): (r: string)
    ensures r == [] <==> !Truthy(v)
  {
    if Truthy(v) then "/" + Display(v) else ""
  }

  /** The page number actually used: forced to 1 for most kinds (lines 113-115). */
  function EffectivePage(k: Kind, page: Json): Json
  {
    if ForcesPagination(k) then JInt(1) else page
  }

  /** The page size actually used: forced to 1000 for most kinds (lines 113-115). */
  function EffectiveSize(k: Kind, size: Json): Json
  {
    if ForcesPagination(k) then JInt(1000) else size
  }

  /** `get_request_url(data, system_name, page_number, page_size)`; absent arguments are `JNull`. */
  function RequestUrl(k: Kind, data: string, system: Json, page: Json, size: Json): string
  {
    UrlBase(k, data) + OptionalSegment(system) +
    OptionalSegment(EffectivePage(k, page)) + OptionalSegment(EffectiveSize(k, size))
  }

  // ---------------------------------------------------------------------------
  // What the path is made of

  /** For the kinds other than NOME_PARTE and CNJ, the page arguments are ignored and the path ends in `/1/1000`. */
  lemma ForcedPagination(k: Kind, data: string, system: Json, page: Json, size: Json)
    requires ForcesPagination(k)
    ensures RequestUrl(k, data, system, page, size) == UrlBase(k, data) + OptionalSegment(system) + "/1/1000"
  {
    ForcedSegments();
    Associative(UrlBase(k, data) + OptionalSegment(system), "/1", "/1000");
  }

  lemma ForcedSegments()
    ensures OptionalSegment(JInt(1)) == "/1" && OptionalSegment(JInt(1000)) == "/1000"
    ensures "/1" + "/1000" == "/1/1000"
  {
    assert Display(JInt(1)) == "1";
    assert Display(JInt(1000)) == "1000";
  }

  predicate SlashFree(s: string)
  {
    forall i :: 0 <= i < |s| ==> s[i] != '/'
  }

  /** The path segments the data gives: the (encoded) data, or the OAB number and `OAB-<STATE>`. */
  function BaseParts(k: Kind, data: string): seq<string>
  {
    var d := PathData(k, data);
    if k == OAB && OabSearch(d).Some? then
      [OabSearch(d).value.number, "OAB-" + Upper(OabSearch(d).value.state)]
    else
      [d]
  }

  /** One segment per truthy optional argument, in the order system, page, size. */
  function SegmentParts(system: Json, page: Json, size: Json): seq<string>
  {
    (if Truthy(system) then [Display(system)] else []) +
    (if Truthy(page) then [Display(page)] else []) +
    (if Truthy(size) then [Display(size)] else [])
  }

  /** The segments of the path for the given arguments, after the leading empty one. */
  function UrlParts(k: Kind, data: string, system: Json, page: Json, size: Json): seq<string>
  {
    ["", RouteName(k)] + BaseParts(k, data) + SegmentParts(system, EffectivePage(k, page), EffectiveSize(k, size))
  }

  lemma JoinOptional(parts: seq<string>, v: Json)
    requires parts != []
    ensures Join("/", parts + (if Truthy(v) then [Display(v)] else [])) == Join("/", parts) + OptionalSegment(v)
  {
    if Truthy(v) {
      JoinSnoc("/", parts, Display(v));
    } else {
      assert parts + [] == parts;
    }
  }

  /** The optional segments are appended one `/` at a time. */
  lemma JoinSegments(base: seq<string>, system: Json, page: Json, size: Json)
    requires base != []
    ensures Join("/", base + SegmentParts(system, page, size)) ==
      Join("/", base) + OptionalSegment(system) + OptionalSegment(page) + OptionalSegment(size)
  {
    var x := if Truthy(system) then [Display(system)] else [];
    var y := if Truthy(page) then [Display(page)] else [];
    var z := if Truthy(size) then [Display(size)] else [];
    JoinOptional(base, system);
    JoinOptional(base + x, page);
    JoinOptional(base + x + y, size);
    Regroup(base, x, y, z);
  }

  lemma JoinThree(name: string, d: string)
    ensures Join("/", ["", name, d]) == "/" + name + "/" + d
  {
    JoinSnoc("/", [""], name);
    assert [""] + [name] == ["", name];
    JoinSnoc("/", ["", name], d);
    assert ["", name] + [d] == ["", name, d];
  }

  lemma JoinFour(name: string, a: string, b: string)
    ensures Join("/", ["", name, a, b]) == "/" + name + "/" + a + "/" + b
  {
    JoinThree(name, a);
    JoinSnoc("/", ["", name, a], b);
    assert ["", name, a] + [b] == ["", name, a, b];
  }

  /** The base of the path is the route name and the data segments joined by `/`. */
  lemma UrlBaseIsJoin(k: Kind, data: string)
    ensures Join("/", ["", RouteName(k)] + BaseParts(k, data)) == UrlBase(k, data)
  {
    var name := RouteName(k);
    var d := PathData(k, data);
    if k == OAB && OabSearch(d).Some? {
      var m := OabSearch(d).value;
      JoinFour(name, m.number, "OAB-" + Upper(m.state));
      PairDisplay(["", name], m.number, "OAB-" + Upper(m.state));
      GlueOab("/" + name + "/" + m.number, Upper(m.state));
    } else {
      JoinThree(name, d);
      SingleDisplay(["", name], d);
    }
  }

  lemma SingleDisplay(ab: seq<string>, c: string)
    requires |ab| == 2
    ensures ab + [c] == [ab[0], ab[1], c]
  {
  }

  lemma PairDisplay(ab: seq<string>, c: string, d: string)
    requires |ab| == 2
    ensures ab + [c, d] == [ab[0], ab[1], c, d]
  {
  }

  /** `/OAB-` is the separator followed by the start of the state segment. */
  lemma GlueOab(x: string, u: string)
    ensures x + "/" + ("OAB-" + u) == x + "/OAB-" + u
  {
    assert "/" + "OAB-" == "/OAB-";
    Associative(x, "/", "OAB-" + u);
    Associative("/", "OAB-", u);
    Associative(x, "/OAB-", u);
  }

  /**
   * The path is its segments joined by `/`: the route name, the data (or the
   * OAB number and state), then the system, page and size that are truthy,
   * in that order.
   */
  lemma UrlIsJoin(k: Kind, data: string, system: Json, page: Json, size: Json)
    ensures RequestUrl(k, data, system, page, size) == Join("/", UrlParts(k, data, system, page, size))
  {
    var base := ["", RouteName(k)] + BaseParts(k, data);
    UrlBaseIsJoin(k, data);
    JoinSegments(base, system, EffectivePage(k, page), EffectiveSize(k, size));
  }

  /**
   * When neither the data nor the optional arguments hold a `/`, the path
   * can be read back: splitting it on `/` gives exactly its segments.
   */
  lemma UrlSplit(k: Kind, data: string, system: Json, page: Json, size: Json)
    requires SlashFree(data) && SlashFree(Display(system)) && SlashFree(Display(page)) && SlashFree(Display(size))
    ensures Split(RequestUrl(k, data, system, page, size), '/') == UrlParts(k, data, system, page, size)
  {
    UrlIsJoin(k, data, system, page, size);
    EffectiveSlashFree(k, page, size);
    SegmentPartsSlashFree(system, EffectivePage(k, page), EffectiveSize(k, size));
    BasePartsSlashFree(k, data);
    RouteNameSlashFree(k);
    SplitOfThree(["", RouteName(k)], BaseParts(k, data), SegmentParts(system, EffectivePage(k, page), EffectiveSize(k, size)));
  }

  lemma RouteNameSlashFree(k: Kind)
    ensures AllSlashFree(["", RouteName(k)])
  {
    assert SlashFree(RouteName(k));
  }

  /** Segments free of `/`, joined by `/`, split back into themselves. */
  lemma SplitOfThree(head: seq<string>, base: seq<string>, segments: seq<string>)
    requires head != [] && AllSlashFree(head) && AllSlashFree(base) && AllSlashFree(segments)
    ensures Split(Join("/", head + base + segments), '/') == head + base + segments
  {
    AllSlashFreeConcat(head, base);
    AllSlashFreeConcat(head + base, segments);
    SlashFreeParts(head + base + segments);
    SplitJoin(head + base + segments, '/');
  }

  /** Every segment is free of `/`. */
  predicate AllSlashFree(parts: seq<string>)
  {
    forall i :: 0 <= i < |parts| ==> SlashFree(parts[i])
  }

  lemma AllSlashFreeConcat(a: seq<string>, b: seq<string>)
    requires AllSlashFree(a) && AllSlashFree(b)
    ensures AllSlashFree(a + b)
  {
  }

  /** Parts free of `/` each, as `SplitJoin` wants them. */
  lemma SlashFreeParts(parts: seq<string>)
    requires AllSlashFree(parts)
    ensures forall s, k :: s in parts && 0 <= k < |s| ==> s[k] != '/'
  {
    forall s, k | s in parts && 0 <= k < |s|
      ensures s[k] != '/'
    {
      var i :| 0 <= i < |parts| && parts[i] == s;
      assert SlashFree(parts[i]);
    }
  }

  lemma OptionalPartSlashFree(v: Json)
    requires SlashFree(Display(v))
    ensures AllSlashFree(if Truthy(v) then [Display(v)] else [])
  {
  }

  lemma SegmentPartsSlashFree(system: Json, page: Json, size: Json)
    requires SlashFree(Display(system)) && SlashFree(Display(page)) && SlashFree(Display(size))
    ensures AllSlashFree(SegmentParts(system, page, size))
  {
    var x := if Truthy(system) then [Display(system)] else [];
    var y := if Truthy(page) then [Display(page)] else [];
    var z := if Truthy(size) then [Display(size)] else [];
    OptionalPartSlashFree(system);
    OptionalPartSlashFree(page);
    OptionalPartSlashFree(size);
    AllSlashFreeConcat(x, y);
    AllSlashFreeConcat(x + y, z);
  }

  lemma EffectiveSlashFree(k: Kind, page: Json, size: Json)
    requires SlashFree(Display(page)) && SlashFree(Display(size))
    ensures SlashFree(Display(EffectivePage(k, page))) && SlashFree(Display(EffectiveSize(k, size)))
  {
    IntToStringSlashFree(1);
    IntToStringSlashFree(1000);
  }

  /** A decimal rendering holds no `/`. */
  lemma IntToStringSlashFree(n: int)
    ensures SlashFree(IntToString(n))
  {
    if n < 0 {
      assert IntToString(n) == "-" + NatToString(-n);
      assert forall i :: 1 <= i < |IntToString(n)| ==> IntToString(n)[i] == NatToString(-n)[i - 1];
    }
  }

  /** The data segments hold no `/` when the data holds none. */
  lemma BasePartsSlashFree(k: Kind, data: string)
    requires SlashFree(data)
    ensures AllSlashFree(BaseParts(k, data))
  {
    var d := PathData(k, data);
    if IsPartyName(k) {
      UrlQuote.QuoteSlashFree(data);
    }
    assert SlashFree(d);
    if k == OAB && OabSearch(d).Some? {
      OabPartsSlashFree(d);
    }
  }

  /** The OAB number is digits and the state segment letters after `OAB-`. */
  lemma OabPartsSlashFree(d: string)
    requires OabSearch(d).Some?
    ensures SlashFree(OabSearch(d).value.number)
    ensures SlashFree("OAB-" + Upper(OabSearch(d).value.state))
  {
    var m := OabSearch(d).value;
    var p, e :| LeftmostOabMatch(d, p, e) && m == OabNumber(d[p..e - 2], d[e - 2..e]);
    assert OabMatchAt(d, p, e);
    SpanSlashFree(d, p, e - 2, Digit);
    SpanSlashFree(d, e - 2, e, Letter);
    UpperSlashFree(m.state);
    assert SlashFree("OAB-");
    SlashFreeConcat("OAB-", Upper(m.state));
  }

  /** A stretch of digits or letters holds no `/`. */
  lemma SpanSlashFree(s: string, lo: int, hi: int, k: CharClass)
    requires Span(s, lo, hi, k) && (k == Digit || k == Letter)
    ensures SlashFree(s[lo..hi])
  {
  }

  lemma UpperSlashFree(s: string)
    requires SlashFree(s)
    ensures SlashFree(Upper(s))
  {
  }

  lemma SlashFreeConcat(a: string, b: string)
    requires SlashFree(a) && SlashFree(b)
    ensures SlashFree(a + b)
  {
  }

  /**
   * For a query that OAB's pattern accepts, the search at the end finds the
   * whole registration number and the state.
   */
  lemma OabSearchOfPattern(data: string, k: int)
    requires OabPattern(data) && OabBodyAt(data, k)
    ensures OabSearch(data) == Some(OabNumber(data[k..|data| - 2], data[|data| - 2..]))
  {
    assert OabMatchAt(data, k, |data|);
    var m := OabSearch(data).value;
    var p, e :| LeftmostOabMatch(data, p, e) && m == OabNumber(data[p..e - 2], data[e - 2..e]);
    LeftmostOabIsBody(data, k, p, e);
    assert data[e - 2..e] == data[|data| - 2..];
  }

  /** The leftmost match of the search is the pattern's own number and state. */
  lemma LeftmostOabIsBody(data: string, k: int, p: int, e: int)
    requires OabPattern(data) && OabBodyAt(data, k) && LeftmostOabMatch(data, p, e)
    ensures p == k && e == |data|
  {
    assert OabMatchAt(data, k, |data|);
    assert OabMatchAt(data, p, e);
    assert InClass(data[|data| - 1], Letter);
    assert e == |data|;
    assert !IsDigit(data[k - 1]);
  }

  /**
   * So the path base of an OAB query is `route + number + "/OAB-" + STATE`:
   * the `OAB` prefix and the colons are dropped and the state is upper-cased.
   */
  lemma OabRewrite(data: string, k: int)
    requires OabPattern(data) && OabBodyAt(data, k)
    ensures UrlBase(OAB, data) == Route(OAB) + data[k..|data| - 2] + "/OAB-" + Upper(data[|data| - 2..])
  {
    OabSearchOfPattern(data, k);
  }

  /**
   * The other kinds apart from OAB put the query into the path exactly as it
   * is: it is not percent-encoded.
   */
  lemma VerbatimData(k: Kind, data: string)
    requires !IsPartyName(k) && k != OAB
    ensures UrlBase(k, data) == Route(k) + data
  {
  }

  /** For the two party-name kinds the path carries the percent-encoded name. */
  lemma PartyNameUrlQuoted(k: Kind, data: string, system: Json, page: Json, size: Json)
    requires IsPartyName(k)
    ensures SliceAt(RequestUrl(k, data, system, page, size), UrlQuote.Quote(data), |Route(k)|)
  {
    var q := UrlQuote.Quote(data);
    var a := OptionalSegment(system);
    var b := OptionalSegment(EffectivePage(k, page));
    var c := OptionalSegment(EffectiveSize(k, size));
    assert UrlBase(k, data) == Route(k) + q;
    Regroup(Route(k) + q, a, b, c);
    SliceMiddle(Route(k), q, a + b + c);
  }
}
