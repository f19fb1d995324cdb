/**
 * The classifications the repository's tests expect
 * (tests/test_request_type.py), proved from the pattern predicates.
 */
module RequestExamples {
  import opened Wrappers
  import opened Text
  import opened RequestType
  import opened JsonValue
  import opened Sequences

  lemma CnjFormatted()
    ensures GetType("0801234-56.2026.8.14.0301") == Success(CNJ)
  {
    var s := "0801234-56.2026.8.14.0301";
    assert MatchesMask(s, "#######-##.####.#.##.####");
    GetTypeMatching(s, CNJ);
  }

  lemma CnjDigits()
    ensures GetType("08012345620268140301") == Success(CNJ)
  {
    var s := "08012345620268140301";
    assert AllDigitsOfLength(s, 20);
    GetTypeMatching(s, CNJ);
  }

  lemma CpfDigits()
    ensures GetType("12345678901") == Success(CPF)
  {
    var s := "12345678901";
    assert AllDigitsOfLength(s, 11);
    GetTypeMatching(s, CPF);
  }

  lemma CpfFormatted()
    ensures GetType("123.456.789-01") == Success(CPF)
  {
    var s := "123.456.789-01";
    assert MatchesMask(s, "###.###.###-##");
    GetTypeMatching(s, CPF);
  }

  lemma CnpjDigits()
    ensures GetType("12345678901234") == Success(CNPJ)
  {
    var s := "12345678901234";
    assert AllDigitsOfLength(s, 14);
    GetTypeMatching(s, CNPJ);
  }

  lemma CnpjFormatted()
    ensures GetType("12.345.678/9012-34") == Success(CNPJ)
  {
    var s := "12.345.678/9012-34";
    assert MatchesMask(s, "##.###.###/####-##");
    GetTypeMatching(s, CNPJ);
  }

  lemma OabUpper()
    ensures GetType("OAB:12345PA") == Success(OAB)
  {
    var s := "OAB:12345PA";
    assert OabBodyAt(s, 4);
    assert OabPattern(s);
    GetTypeMatching(s, OAB);
  }

  lemma OabLower()
    ensures GetType("oab:12345pa") == Success(OAB)
  {
    var s := "oab:12345pa";
    assert OabBodyAt(s, 4);
    assert OabPattern(s);
    GetTypeMatching(s, OAB);
  }

  lemma PartyName()
    ensures GetType("Jose Antonio") == Success(NomeParte)
  {
    var s := "Jose Antonio";
    assert NomeParteAt(s, 2, 1, 1, 0);
    GetTypeMatching(s, NomeParte);
  }

  lemma PartyNameWithAccents()
    ensures GetType("José Antônio Ferreira") == Success(NomeParte)
  {
    var s := "José Antônio Ferreira";
    AccentedNameSplit();
    assert NomeParteAt(s, 2, 1, 1, 0);
    GetTypeMatching(s, NomeParte);
  }

  /** `Jo`, the letter `s`, `é`, then the rest of the line. */
  lemma AccentedNameSplit()
    ensures NameWithSurnameAt("José Antônio Ferreira", 0, 2, 1, 1)
    ensures Span("José Antônio Ferreira", 4, 21, NotNewline)
  {
    var s := "José Antônio Ferreira";
    assert |s| == 21;
    assert forall i :: 4 <= i < 21 ==> s[i] != '\n';
  }

  lemma ExactPartyName()
    ensures GetType("\"Jose Antonio\"") == Success(NomeParteExato)
  {
    var s := "\"Jose Antonio\"";
    assert NomeParteExatoAt(s, 2, 1, 1);
    GetTypeMatching(s, NomeParteExato);
  }

  lemma InquiryUpper()
    ensures GetType("INQ:2026.12345") == Success(INQ)
  {
    var s := "INQ:2026.12345";
    assert InqPattern(s);
    GetTypeMatching(s, INQ);
  }

  lemma InquiryLower()
    ensures GetType("inq:2026.12345") == Success(INQ)
  {
    var s := "inq:2026.12345";
    assert InqPattern(s);
    GetTypeMatching(s, INQ);
  }

  /** Empty and blank queries are refused as empty. */
  lemma EmptyQueries()
    ensures GetType("") == Failure(EmptyQuery)
    ensures GetType("   ") == Failure(EmptyQuery)
  {
    StripBlank("   ");
  }

  /** A first name alone asks for a surname. */
  lemma FirstNameOnly()
    ensures GetType("João") == Failure(SurnameMissing)
  {
    var s := "João";
    NoLetterSNoName(s);
    FirstCharacter(s);
    assert NoKindMatches(s);
    SingleNameIff(s);
    assert SingleNamePattern(s);
    GetTypeRefusing(s);
  }

  /** Symbols match nothing and are not a name. */
  lemma Symbols()
    ensures GetType("!@#$%") == Failure(Unrecognized("!@#$%"))
  {
    var s := "!@#$%";
    FirstCharacter(s);
    assert NoKindMatches(s);
    SingleNameIff(s);
    assert !SingleNamePattern(s);
    GetTypeRefusing(s);
  }

  /**
   * Because NOME_PARTE looks for a letter `s`, not for a space, a first name
   * and surname without an `s` where the pattern wants it are refused as an
   * unrecognised format.
   */
  lemma NameWithoutLetterS()
    ensures GetType("Ana Maria") == Failure(Unrecognized("Ana Maria"))
  {
    AnaMariaMatchesNoKind();
    AnaMariaNotSingleName();
    GetTypeRefusing("Ana Maria");
  }

  lemma AnaMariaMatchesNoKind()
    ensures NoKindMatches("Ana Maria")
  {
    NoLetterSNoName("Ana Maria");
    FirstCharacter("Ana Maria");
  }

  /** The space between the names is not a name character. */
  lemma AnaMariaNotSingleName()
    ensures !SingleNamePattern("Ana Maria")
  {
    var s := "Ana Maria";
    SingleNameIff(s);
    assert s[3] == ' ';
    assert !InClass(s[3], Name);
  }

  // Routes (tests/test_request_type.py, lines 108-134)

  lemma CaseRoutes()
    ensures Route(CNJ) == "/processobycnj/"
    ensures Route(OAB) == "/processobyoab/"
    ensures Route(INQ) == "/processobyinquerito/"
  {
  }

  lemma PartyRoutes()
    ensures Route(NomeParte) == "/processobynomeparte/"
    ensures Route(NomeParteExato) == "/processobynomeparteexato/"
  {
  }

  lemma TaxIdRoutes()
    ensures Route(CPF) == "/processobycpf/"
    ensures Route(CNPJ) == "/processobycnpj/"
  {
  }

  // Paths (tests/test_request_type.py, lines 140-182). The number in the
  // tests is arbitrary: the CNJ and CPF paths hold for any data `d`.

  /** A CNJ path is the route, the data as it is, then the optional segments. */
  lemma CnjUrlShape(d: string, system: Json, page: Json, size: Json)
    ensures RequestUrl(CNJ, d, system, page, size) ==
      "/processobycnj/" + d + (OptionalSegment(system) + OptionalSegment(page) + OptionalSegment(size))
  {
    VerbatimData(CNJ, d);
    assert Route(CNJ) == "/processobycnj/";
    Regroup(Route(CNJ) + d, OptionalSegment(system), OptionalSegment(page), OptionalSegment(size));
  }

  /** Truthy page numbers and sizes become a `/` and their decimal digits. */
  lemma IntSegments()
    ensures OptionalSegment(JInt(1)) == "/1" && OptionalSegment(JInt(2)) == "/2"
    ensures OptionalSegment(JInt(50)) == "/50" && OptionalSegment(JInt(100)) == "/100"
  {
    assert NatToString(5) == "5";
    assert NatToString(10) == "10";
  }

  lemma CnjUrl(d: string)
    ensures RequestUrl(CNJ, d, JNull, JNull, JNull) == "/processobycnj/" + d
  {
    CnjUrlShape(d, JNull, JNull, JNull);
    assert OptionalSegment(JNull) == "";
  }

  lemma CnjUrlWithSystem(d: string)
    ensures RequestUrl(CNJ, d, JStr("PROJUDI"), JNull, JNull) == "/processobycnj/" + d + "/PROJUDI"
  {
    CnjUrlShape(d, JStr("PROJUDI"), JNull, JNull);
    assert OptionalSegment(JStr("PROJUDI")) == "/PROJUDI";
    assert OptionalSegment(JNull) == "";
  }

  lemma CnjUrlWithPagination(d: string)
    ensures RequestUrl(CNJ, d, JNull, JInt(2), JInt(50)) == "/processobycnj/" + d + "/2/50"
  {
    CnjUrlShape(d, JNull, JInt(2), JInt(50));
    IntSegments();
    assert OptionalSegment(JNull) == "";
  }

  lemma CnjUrlWithAll(d: string)
    ensures RequestUrl(CNJ, d, JStr("PROJUDI"), JInt(1), JInt(100)) == "/processobycnj/" + d + "/PROJUDI/1/100"
  {
    CnjUrlShape(d, JStr("PROJUDI"), JInt(1), JInt(100));
    IntSegments();
    assert OptionalSegment(JStr("PROJUDI")) == "/" + "PROJUDI";
    CnjAllTail(OptionalSegment(JStr("PROJUDI")), OptionalSegment(JInt(1)), OptionalSegment(JInt(100)));
  }

  lemma CnjAllTail(a: string, b: string, c: string)
    requires a == "/" + "PROJUDI" && b == "/1" && c == "/100"
    ensures a + b + c == "/PROJUDI/1/100"
  {
  }

  lemma CpfUrlBase(d: string)
    ensures UrlBase(CPF, d) + OptionalSegment(JNull) + "/1/1000" == "/processobycpf/" + d + "/1/1000"
  {
    VerbatimData(CPF, d);
    assert Route(CPF) == "/processobycpf/";
  }

  /** CPF ignores the page arguments and always asks for page 1 of size 1000. */
  lemma CpfUrlForcesPagination(d: string)
    ensures RequestUrl(CPF, d, JNull, JNull, JNull) == "/processobycpf/" + d + "/1/1000"
  {
    ForcedPagination(CPF, d, JNull, JNull, JNull);
    CpfUrlBase(d);
  }

  lemma OabExampleParts(d: string)
    requires d == "OAB:12345PA"
    ensures OabPattern(d) && OabBodyAt(d, 4)
    ensures d[4..|d| - 2] == "12345" && Upper(d[|d| - 2..]) == "PA"
  {
    assert OabBodyAt(d, 4);
    assert d[|d| - 2..] == "PA";
  }

  lemma OabUrlBase(d: string)
    requires d == "OAB:12345PA"
    ensures UrlBase(OAB, d) == "/processobyoab/12345/OAB-PA"
  {
    OabExampleParts(d);
    OabRewrite(d, 4);
    OabRouteConcat(d[4..|d| - 2], Upper(d[|d| - 2..]));
  }

  lemma OabRouteConcat(number: string, state: string)
    requires number == "12345" && state == "PA"
    ensures Route(OAB) + number + "/OAB-" + state == "/processobyoab/12345/OAB-PA"
  {
  }

  /** `OAB:12345PA` is sent as number `12345` and state `OAB-PA`, page 1 of size 1000. */
  lemma OabUrl(d: string)
    requires d == "OAB:12345PA"
    ensures RequestUrl(OAB, d, JNull, JNull, JNull) == "/processobyoab/12345/OAB-PA/1/1000"
  {
    ForcedPagination(OAB, d, JNull, JNull, JNull);
    OabUrlBase(d);
    OabUrlTail(UrlBase(OAB, d), OptionalSegment(JNull));
  }

  lemma OabUrlTail(base: string, system: string)
    requires base == "/processobyoab/12345/OAB-PA" && system == ""
    ensures base + system + "/1/1000" == "/processobyoab/12345/OAB-PA/1/1000"
  {
  }
}
