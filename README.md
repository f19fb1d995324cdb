# TJPA process scraper: a verified model of its core

The TJPA scraper looks up legal processes in the public API of the Pará court (TJPA). It then exports each process, together with its parties and its movements (docket entries). This project models in Dafny the part of the scraper that decides what it asks for and what it keeps. The model has three parts.

- **The query classifier and path builder** (`entities/request_type.py`, module `RequestType`):
  - A search query is stripped and refused when empty.
  - Otherwise its kind is the first of CNJ, NOME_PARTE, NOME_PARTE_EXATO, OAB, CPF, CNPJ, INQ whose pattern matches.
  - When no kind matches, the error says why: a single name lacks a surname, anything else is an unrecognised format.
  - Each kind has an API route. The request path is the route, then the data, then the optional system, page and size segments.
  - The data is percent-encoded for the two party-name kinds, and OAB registrations are rewritten as `<number>/OAB-<STATE>`.
  - Five kinds force page 1 of size 1000.
  - Every regular expression has its own hand-written recognizer. These follow the patterns as written, quirks included:
    - `s{1,2}` in the name patterns is the letter `s`.
    - An unescaped `.` in the numeric patterns matches any character.
    - IGNORECASE lets `[a-zA-Z]` also match `İ`, `ı`, `ſ` and the Kelvin sign.
- **The two services** (modules `Processes` and `Movements`):
  - The process search is a recursive accumulator over four shapes of answer:
    - an empty list;
    - a direct list, which is either the processes themselves or a party-name presearch that fans out into fresh searches;
    - a terminal `listaProcessos`;
    - a paginated `listaResultado`, which is merged, de-duplicated and followed to the next page while fewer records than `qtdRegistrosTotal` are known.
  - `get_processes` then reads each record as a `Process`, fetches its movements and exports it.
  - The movement walk is the paginated branch alone, with its own de-duplication. That de-duplication rebuilds the list through a dict keyed on each record's items.
  - Each service is modelled twice. Pure specification functions (`Processes.Fetch`, `Processes.Scrape`, `Movements.Fetch`, `Movements.Collect`) return the outcome, the responses left and the paths requested. Classes (`ProcessService`, `MovementService`) run the same steps imperatively against a scripted `ApiClient` and an `Exporter`, and their methods are proved equal to those functions.
- **The record models** (`models/party.py`, `models/movement.py`, `models/process.py`; modules `PartyModel`, `MovementModel`, `ProcessModel`):
  - Reading raw API dictionaries into records.
  - Exporting records as dictionaries, as CSV rows and as display strings.

Raw API values are a `Json` datatype with Python's structural equality. Python's truthiness, `dict.get`, `str()`, `<` and `+ 1` on those values are written out in `JsonValue`. Every error the source raises becomes a value of `Client.Error`.

## Model

| member | source | states |
|---|---|---|
| Client.ApiClient.Get | client/api_client.py:30-48 | each call records the path asked for; it returns the next scripted response, or fails once the script is exhausted |
| JsonValue.NatToString | models/process.py:50-51 | decimal rendering: non-empty, digits only, one digit exactly below 10 |
| JsonValue.NatToStringRoundTrip | models/process.py:50-51 | the rendered digits read back as the number |
| JsonValue.NatToStringInjective | services/movement_service.py:44 | distinct page numbers render as distinct path segments |
| JsonValue.IntToString | entities/request_type.py:125-128 | rendering of an int: non-empty, with a leading `-` exactly for negatives |
| JsonValue.MakeHashableInjective | services/process_service.py:125-132 | `MakeHashable`: on values without booleans, equal hashable projections means structurally equal values, and conversely |
| JsonValue.BoolIntCollide | services/process_service.py:125-132 | with booleans the projection is coarser: `{"a": True}` and `{"a": 1}` differ but project alike |
| JsonValue.Elements | services/process_service.py:103 | what `list.extend` takes: a list's items; a string's characters, each as a one-character string, in order; nothing for any other value |
| JsonValue.NumericOperators | services/process_service.py:85-101 | `LessThan`, `PlusOne` and `Truthy` on a total or a page number: an int, or a bool as 0 or 1, is compared, incremented and tested as that integer; any other value makes `<` and `+ 1` raise |
| JsonValue.BelowTotalIsTruthy | services/process_service.py:85-93 | a total that a record count is still below is truthy, so `total_records or …` keeps it on the next page, and `+ 1` moves past it |
| JsonValue.TruthyIsNonEmpty | services/process_service.py:80-83 | `Truthy` of a list or a string: truthy exactly when `extend` would take something from it |
| JsonValue.DisplayIntReadsBack | entities/request_type.py:124-129 | `Display` (`str()`) of an integer reads back: its digits, after a `-` when negative, are the number |
| Text.Strip | entities/request_type.py:62 | `str.strip()`: the piece of the input left after cutting exactly the surrounding whitespace; it neither starts nor ends with whitespace |
| Text.StripNoop | entities/request_type.py:62 | a string without surrounding whitespace strips to itself |
| Text.StripBlank | entities/request_type.py:62-64 | an all-whitespace string strips to the empty string |
| Text.JoinSnoc | models/process.py:70-71 | joining one more part appends the separator and the part |
| Text.SplitJoin | models/process.py:70-71 | splitting a join on a separator that no part holds gives the parts back |
| UrlQuote.Quote | entities/request_type.py:111-112 | `urllib.parse.quote`: every output character is safe or `%` |
| UrlQuote.QuoteChar | entities/request_type.py:111-112 | a safe character stays as it is; any other becomes one `%XX` per UTF-8 byte |
| UrlQuote.Utf8 | entities/request_type.py:111-112 | UTF-8 encoding: 1 to 4 bytes, one byte exactly for ASCII, which is the code point itself |
| UrlQuote.QuoteAppend | entities/request_type.py:111-112 | quoting distributes over concatenation |
| UrlQuote.QuoteSafeIdentity | entities/request_type.py:111-112 | a string of safe characters is not changed |
| UrlQuote.QuoteChangesUnsafe | entities/request_type.py:111-112 | a string holding an unsafe character is always changed |
| UrlQuote.QuoteSlashFree | entities/request_type.py:111-112 | quoting adds no `/` |
| UrlQuote.QuoteHasNoSpace | entities/request_type.py:111-112 | quoted text holds no space |
| RequestType.Rank | entities/request_type.py:13-19 | each kind's position in declaration order |
| RequestType.InvalidMessageNamesCause | entities/request_type.py:64-80 | the three refusals mention "vazia", "sobrenome" and "não identificado" |
| RequestType.NomeParteIff | entities/request_type.py:32-35 | `NomePartePattern`: NOME_PARTE accepts exactly the newline-free queries whose leading run of name characters holds a letter `s` with a name character on each side |
| RequestType.NomeParteExatoIff | entities/request_type.py:36-39 | `NomeParteExatoPattern`: NOME_PARTE_EXATO accepts exactly a quoted text whose inner run holds a non-initial, non-final `s`, then name characters and spaces only |
| RequestType.NomeParteExatoOfShape | entities/request_type.py:36-39 | a quoted string of that shape matches |
| RequestType.SingleNameIff | entities/request_type.py:41-44 | `SingleNamePattern`: SINGLE_NAME accepts exactly one non-empty run of name characters, bare or quoted |
| RequestType.NoLetterSNoName | entities/request_type.py:32-35 | a query without a letter `s` is never a party name |
| RequestType.FirstCharacter | entities/request_type.py:24-40 | `Matches`: what each pattern demands of the first character: a name character, a quote, `o`, `i`, or a digit |
| RequestType.FirstMatch | entities/request_type.py:68-70 | nothing when no kind in the list matches; otherwise a kind that matches with no earlier kind matching |
| RequestType.Classify | entities/request_type.py:66-80 | the first matching kind in declaration order; when none matches, a missing surname exactly for single names, otherwise an unrecognised query that names the query |
| RequestType.GetType | entities/request_type.py:48-80 | an empty stripped query is refused as empty, and only then; otherwise the stripped query is classified |
| RequestType.OabInqAreNotNames | entities/request_type.py:31-40 | `OabPattern`, `InqPattern`: an OAB or INQ query is never a party name |
| RequestType.NumericPatternsDisjoint | entities/request_type.py:24-30 | `CnjPattern`, `CpfPattern`, `CnpjPattern`: no query is two of CNJ, CPF and CNPJ |
| RequestType.PatternsDisjoint | entities/request_type.py:24-40 | `Matches`: no query matches the patterns of two different kinds |
| RequestType.ClassifyIff | entities/request_type.py:66-70 | a query is classified as `k` exactly when `k`'s pattern matches it, so the order of the loop does not matter |
| RequestType.GetTypeMatching | entities/request_type.py:48-70 | a query without surrounding whitespace matching `k`'s pattern is of kind `k` |
| RequestType.GetTypeRefusing | entities/request_type.py:72-80 | a query without surrounding whitespace that no pattern matches is refused for a missing surname or as unrecognised |
| RequestType.RouteName | entities/request_type.py:82-98 | the route without its slashes is one non-empty segment |
| RequestType.Route | entities/request_type.py:82-98 | every route begins and ends with `/` and has no other `/` |
| RequestType.RouteInjective | entities/request_type.py:82-98 | distinct kinds have distinct routes |
| RequestType.DigitRunStart | entities/request_type.py:118 | the start of the maximal run of digits ending at a position |
| RequestType.OabSearch | entities/request_type.py:118-121 | `re.search(r"(\d+)([a-z]{2})$", …, IGNORECASE)`: a result exactly when the pattern matches somewhere, and then the number and state of the leftmost match |
| RequestType.Upper | entities/request_type.py:121 | `str.upper()` on the OAB state: the length is kept, no lower-case letter (`a`-`z`, `ı`, `ſ`) is left, each letter stays the letter `[a-z]` matched, and any other character is kept |
| RequestType.OptionalSegment | entities/request_type.py:123-128 | a segment is added exactly when its value is truthy |
| RequestType.ForcedPagination | entities/request_type.py:113-115 | `RequestUrl`: for every kind but NOME_PARTE and CNJ the path ends in `/1/1000`, whatever page and size are passed |
| RequestType.UrlBaseIsJoin | entities/request_type.py:116-122 | `UrlBase`: the base of the path is the route name and the data segments joined by `/` |
| RequestType.UrlIsJoin | entities/request_type.py:116-128 | `RequestUrl`: the path is its segments joined by `/`: route, data (or OAB number and state), then the truthy system, page and size, in that order |
| RequestType.UrlSplit | entities/request_type.py:116-128 | `RequestUrl`: when no argument holds a `/`, splitting the path on `/` gives back exactly those segments |
| RequestType.OabSearchOfPattern | entities/request_type.py:117-121 | for a query OAB's pattern accepts, the search finds the whole registration number and the state |
| RequestType.OabRewrite | entities/request_type.py:117-122 | `UrlBase`: the base of an OAB path is the route, the number, `/OAB-` and the upper-cased state |
| RequestType.VerbatimData | entities/request_type.py:111-116 | for the kinds other than the party names and OAB, the query goes into the path verbatim |
| RequestType.PartyNameUrlQuoted | entities/request_type.py:111-112 | for the party-name kinds, the percent-encoded query follows the route |
| RequestExamples.CnjFormatted | tests/test_request_type.py:13-16 | `0801234-56.2026.8.14.0301` is CNJ |
| RequestExamples.CnjDigits | tests/test_request_type.py:18-21 | 20 digits are CNJ |
| RequestExamples.CpfDigits | tests/test_request_type.py:23-26 | 11 digits are CPF |
| RequestExamples.CpfFormatted | tests/test_request_type.py:28-31 | `123.456.789-01` is CPF |
| RequestExamples.CnpjDigits | tests/test_request_type.py:33-36 | 14 digits are CNPJ |
| RequestExamples.CnpjFormatted | tests/test_request_type.py:38-41 | `12.345.678/9012-34` is CNPJ |
| RequestExamples.OabUpper | tests/test_request_type.py:43-46 | `OAB:12345PA` is OAB |
| RequestExamples.OabLower | tests/test_request_type.py:48-51 | `oab:12345pa` is OAB |
| RequestExamples.PartyName | tests/test_request_type.py:53-57 | `Jose Antonio` is NOME_PARTE |
| RequestExamples.PartyNameWithAccents | tests/test_request_type.py:59-62 | `José Antônio Ferreira` is NOME_PARTE |
| RequestExamples.ExactPartyName | tests/test_request_type.py:64-68 | `"Jose Antonio"` in quotes is NOME_PARTE_EXATO |
| RequestExamples.InquiryUpper | tests/test_request_type.py:70-73 | `INQ:2026.12345` is INQ |
| RequestExamples.InquiryLower | tests/test_request_type.py:75-78 | `inq:2026.12345` is INQ |
| RequestExamples.EmptyQueries | tests/test_request_type.py:80-90 | the empty and the blank query are refused as empty |
| RequestExamples.FirstNameOnly | tests/test_request_type.py:92-96 | `João` is refused for a missing surname |
| RequestExamples.Symbols | tests/test_request_type.py:98-102 | `!@#$%` is refused as unrecognised |
| RequestExamples.NameWithoutLetterS | entities/request_type.py:32-35 | `Ana Maria` has no `s` where NOME_PARTE wants one and is refused as unrecognised |
| RequestExamples.CaseRoutes | tests/test_request_type.py:108-134 | the CNJ, OAB and INQ routes |
| RequestExamples.PartyRoutes | tests/test_request_type.py:112-118 | the two party-name routes |
| RequestExamples.TaxIdRoutes | tests/test_request_type.py:124-130 | the CPF and CNPJ routes |
| RequestExamples.CnjUrl | tests/test_request_type.py:140-143 | a CNJ path without options is the route and the number |
| RequestExamples.CnjUrlWithSystem | tests/test_request_type.py:155-160 | a system adds `/PROJUDI` |
| RequestExamples.CnjUrlWithPagination | tests/test_request_type.py:162-167 | page 2 and size 50 add `/2/50` |
| RequestExamples.CnjUrlWithAll | tests/test_request_type.py:169-177 | system, page and size are appended in that order |
| RequestExamples.CpfUrlForcesPagination | tests/test_request_type.py:179-182 | a CPF path always ends with `/1/1000` |
| RequestExamples.OabUrl | entities/request_type.py:117-122 | `OAB:12345PA` is asked for as `/processobyoab/12345/OAB-PA/1/1000` |
| PartyModel.PartyToDict | models/party.py:23-25 | the export has exactly the keys `name` and `type`, holding the two fields |
| PartyModel.PartyExportRoundTrip | models/party.py:23-25 | a party can be read back from its export |
| PartyModel.PartyStringRoundTrip | models/party.py:20-21 | `name (type)` is unambiguous when the type holds no `(` |
| PartyModel.PartyStringExample | models/party.py:20-21 | `Maria Santos (Réu)` |
| PartyModel.PartyToDictExample | models/party.py:23-25 | the export of a concrete party |
| MovementModel.MovementToDict | models/movement.py:23-25 | the export has exactly the keys `date` and `description`, holding the two fields |
| MovementModel.MovementFromDict | models/movement.py:37-38 | a missing `dataFormatada` or `descricao` gives `None` |
| MovementModel.MovementImportExport | models/movement.py:25-38 | reading and exporting renames `dataFormatada` and `descricao` to `date` and `description`, keeping their values |
| MovementModel.MovementExportRoundTrip | models/movement.py:23-25 | a movement can be read back from its export |
| MovementModel.MovementStringRoundTrip | models/movement.py:20-21 | `date: description` is unambiguous when the date holds no `:` |
| MovementModel.MovementExamples | models/movement.py:20-38 | `15/03/2026: Despacho`; an empty dict gives two `None` |
| ProcessModel.PartiesOf | models/process.py:102-105 | a list of raw parties gives one party per element, in order, built from `nome` and `tipo`; an element without them raises |
| ProcessModel.ProcessFromDict | models/process.py:97-125 | `from_dict` succeeds exactly when the parties can be built; the parties are those of `partes` (none when absent) and the movements are empty |
| ProcessModel.PartyDicts | models/process.py:93 | one party export per party, in order |
| ProcessModel.MovementDicts | models/process.py:94 | one movement export per movement, in order |
| ProcessModel.PartiesExportRoundTrip | models/process.py:93 | the exported parties read back as the parties |
| ProcessModel.MovementsExportRoundTrip | models/process.py:94 | the exported movements read back as the movements |
| ProcessModel.ProcessExportRoundTrip | models/process.py:74-95 | `ProcessToDict`: `to_dict` loses nothing: every field, party and movement reads back |
| ProcessModel.ExportedFields | models/process.py:76-94 | `ProcessToDict`: the key under which `to_dict` writes each field |
| ProcessModel.IdentifiersImportExport | models/process.py:107-110 | number, formatted number, class, topic, document and instance codes and distribution date come from their keys, or `None` when absent |
| ProcessModel.DescriptionsImportExport | models/process.py:111-124 | the descriptive fields come from their keys, or `""` when absent; the movements are empty |
| ProcessModel.PartiesImportExport | models/process.py:102-105 | the exported parties are `{"name": nome, "type": tipo}` per raw party, in order |
| ProcessModel.PartiesCsvLines | models/process.py:70 | `ProcessCsvExport`: splitting the `Partes` column at newlines gives back `str()` of each party, in order, when none spans several lines; with no parties the column is empty |
| ProcessModel.MovementsCsvLines | models/process.py:71 | `ProcessCsvExport`: splitting the `Movimentações` column at newlines gives back `str()` of each movement, in order, when none spans several lines; with no movements the column is empty |
| ProcessModel.ProcessStringNumber | models/process.py:37 | `ProcessString`: `str(process)` starts with `Processo ` and then the formatted number |
| ProcessModel.ProcessStringCounts | models/process.py:50-51 | `ProcessString`: `str(process)` ends with `Partes: <n>, Movimentações: <m>`, and the last number reads back as the count of movements |
| Dedup.KeysOf | services/process_service.py:135-140 | the set of hashable projections of a list, and nothing more |
| Dedup.FirstIndices | services/process_service.py:137-141 | where each kept record comes from: one valid input index per kept record |
| Dedup.KeepFirstIsFirstOccurrences | services/process_service.py:134-142 | `KeepFirst`: de-duplication keeps exactly the first record of each key, at increasing positions, in input order |
| Dedup.KeepFirstKeys | services/process_service.py:134-142 | every input record has a kept record equal to it under the projection |
| Dedup.KeepFirstDistinct | services/process_service.py:134-142 | no two kept records have equal projections |
| Dedup.KeepFirstOfDistinct | services/process_service.py:134-142 | a list without duplicates is kept whole |
| Dedup.KeepFirstIdempotent | services/process_service.py:134-142 | de-duplicating twice is de-duplicating once |
| Dedup.SlotOf | services/movement_service.py:53 | where a key sits in the rebuilt dict, or nowhere |
| Dedup.DictValuesKeys | services/movement_service.py:53 | the rebuilt list has its keys in the order of their first occurrences |
| Dedup.DictValuesDistinct | services/movement_service.py:53 | the rebuilt list holds one record per key |
| Dedup.DictValuesLast | services/movement_service.py:53 | each slot holds the last record of its key |
| Dedup.DictValuesSpec | services/movement_service.py:53 | `DictValues`: the three properties of the dict rebuild together |
| Dedup.DictValuesIsKeepFirst | services/movement_service.py:53 | when records with one key are equal, the dict rebuild is the keep-first de-duplication |
| Dedup.BoolFreeDictValues | services/movement_service.py:53 | so for records without booleans the two de-duplications agree |
| Movements.MovementsUrlShape | services/movement_service.py:39-45 | `MovementsUrl`: the path of page `p` is the movements route, number, document code, instance code, `p` and `1000` |
| Movements.MovementsUrlSplit | services/movement_service.py:39-45 | `MovementsUrl`: with codes free of `/`, splitting the path gives back its seven segments, and the page segment reads back as the page |
| Movements.PageStepRecords | services/movement_service.py:46-57 | `PageStep`: a page that continues the walk leaves one record per key, fewer than the total, keeping a known total; a page that ends it leaves the records so far or a de-duplicated list |
| Movements.FetchRecords | services/movement_service.py:31-58 | `Fetch`: the walk returns the records it started with or a list holding one record per key |
| Movements.FetchUnfoldAll | services/movement_service.py:39-57 | one request per step; an exhausted script fails |
| Movements.CollectMovements | services/movement_service.py:19-29 | `Collect`: `get_movements` asks for page 1 first and returns one `Movement.from_dict` per record of the walk, in order |
| Movements.EmptyListEnds | services/movement_service.py:46-47 | an empty list ends the walk with the records so far, after one request |
| Movements.NoRecordsEnds | services/movement_service.py:49-51 | a missing or empty `listaResultado` ends the walk the same way |
| Movements.TotalFixed | services/movement_service.py:48 | once a total is known, the total an answer announces is ignored |
| Movements.PageMerged | services/movement_service.py:52-57 | `PageStep` on a page of records, the first page included: the result is the dict rebuild of the records so far plus the page; the total is the known one or else the page's `qtdRegistrosTotal`; the walk goes on, carrying that total, exactly when fewer records than it are known; a total that is not a number fails as malformed |
| Movements.NextBelowTotal | services/movement_service.py:54 | `PageStep`: a page that continues the walk leaves fewer records than the total it carries on |
| Movements.WalkBound | services/movement_service.py:54-57 | `Fetch`: when every continuing page adds a record and the total is `T`, the walk from `acc` makes at most `T` minus the length of `acc` requests (at most `T` from the first page), however many responses would come |
| Movements.FirstPage | services/movement_service.py:52-57 | a first page of one record announcing 2 asks for page 2 next |
| Movements.LastPage | services/movement_service.py:52-57 | a second page with a new record ends the walk with both |
| Movements.TwoPages | services/movement_service.py:31-58 | two single-record pages with total 2: two requests, for pages 1 and 2, and both records in order |
| Movements.DictReprReplace | services/movement_service.py:53 | assigning a key already present replaces its record in place |
| Movements.DictReprAppend | services/movement_service.py:53 | assigning a new key appends it |
| Movements.MovementService.RebuildByItems | services/movement_service.py:53 | the dict comprehension loop computes the dict rebuild |
| Movements.MovementService.HandlePage | services/movement_service.py:46-54 | handling one response is the specification's page step |
| Movements.MovementService.FetchMovements | services/movement_service.py:31-58 | the walk's result, the responses consumed and the paths requested are those of `Fetch` |
| Movements.MovementService.ContinueWalk | services/movement_service.py:54-58 | stopping or recursing on the next page, as the specification does |
| Movements.MovementService.ToMovements | services/movement_service.py:25-29 | the loop builds one movement per record, in order |
| Movements.MovementService.GetMovements | services/movement_service.py:19-29 | result, responses consumed and paths requested are those of `Collect` |
| Processes.GatherPrefixNone | services/process_service.py:88-91 | `Gather`: once an entry of `listaResultado` is malformed, the whole merge fails |
| Processes.InvalidQuerySendsNothing | services/process_service.py:68-75 | `Fetch`: an empty or unknown query ends the search with no request and no export, the error saying which |
| Processes.EmptyAnswerEnds | services/process_service.py:76-84 | `ProcessStep`: an empty answer returns what was gathered, after one request |
| Processes.FetchFinishes | services/process_service.py:75-104 | `Fetch`: an answer that settles the search is the last request |
| Processes.NothingFound | services/process_service.py:40-43 | `Scrape`: then `get_processes` fails with "not found" and exports nothing |
| Processes.ProcessListEnds | services/process_service.py:80-104 | `ProcessStep`: a non-empty `listaProcessos` is appended without de-duplication and ends the search |
| Processes.PageMerged | services/process_service.py:85-101 | `ProcessStep` on a `listaResultado` page, the first page included: the nested processes are appended and the whole de-duplicated keeping first occurrences; the total is the known one or else the page's `qtdRegistrosTotal`; the next page is asked for, carrying that total, exactly when fewer records than it are known; a total that is not a number fails as malformed |
| Processes.PagedBelowTotal | services/process_service.py:93 | `ProcessStep`: an answer that continues the search leaves fewer records than the total it carries on |
| Processes.WalkBound | services/process_service.py:93-101 | `Fetch` and `Follow`: when every continuing page adds a record and the total is `T`, the search from `acc` makes at most `T` minus the length of `acc` requests (at most `T` from the first page), however many answers would come |
| Processes.TotalFixed | services/process_service.py:85-87 | `ProcessStep`: once a total is known, the total an answer announces is ignored |
| Processes.TwoPages | services/process_service.py:85-101 | `Fetch`: two pages of one new process each with total 2: two requests, for pages 1 and 2, and both processes in order |
| Processes.NoPageCannotPaginate | services/process_service.py:93-101 | `Follow`: without a page number, a search that needs a second page fails on `None + 1` after one request |
| Processes.ForcedPageRepeats | services/process_service.py:93-101 | for the kinds whose page is forced, the second request repeats the first path |
| Processes.DirectList | services/process_service.py:106-112 | `HandleList`: a list whose first entry has no name and no system is returned as it is (dropping what was gathered) when that entry has a number, and otherwise fails |
| Processes.PresearchSkipsAll | services/process_service.py:115-123 | `PresearchItem`: entries without a name and a system ask for nothing and add nothing |
| Processes.PresearchItemPath | services/process_service.py:118-121 | `PresearchItem`: a qualifying entry searches its name with its system, page 1 of 1000 |
| Processes.PartyEntrySearch | services/process_service.py:118-121 | such a search answered with a process list returns that list after one request |
| Processes.PartyStep | services/process_service.py:117-122 | `Presearch`: each qualifying entry adds its search's processes to what the earlier entries found, in list order |
| Processes.PresearchFanOut | services/process_service.py:115-123 | `Presearch`: a presearch that succeeds is exactly the fresh searches, page 1 of 1000, of the entries with a truthy name and system, in list order (`Searches` of `Hits`): their processes concatenated after what came before and their paths concatenated, with no request for any other entry |
| Processes.ExportRecordRead | services/process_service.py:52 | `ExportRecord`: a completed record was read by `from_dict` |
| Processes.ExportAllInOrder | services/process_service.py:45-56 | `ExportAll`: a completed export holds one process per record, in order, each read from its record |
| Processes.ExportRecordMovements | services/process_service.py:52-55 | `ExportRecord`: each exported process carries the movements `get_movements` returned for it, fetched from page 1 |
| Processes.ScrapeExportsEach | services/process_service.py:29-56 | `Scrape`: `get_processes` succeeds only when the search found records, and then exports one process per record, in order |
| Processes.Exporter.Export | services/process_service.py:56 | export appends the process to the exported sequence |
| Processes.ProcessService.DeduplicateProcesses | services/process_service.py:134-142 | the `seen`-set loop computes the keep-first de-duplication |
| Processes.ProcessService.HandleReply | services/process_service.py:76-104 | reading one answer is the specification's step |
| Processes.ProcessService.FetchProcesses | services/process_service.py:58-104 | result, responses consumed and paths requested are those of `Fetch` |
| Processes.ProcessService.FollowReply | services/process_service.py:76-104 | ending, handing a list over or asking for the next page, as the specification does |
| Processes.ProcessService.HandleListData | services/process_service.py:106-113 | the direct-list dispatch, as the specification does |
| Processes.ProcessService.SearchEntry | services/process_service.py:118-122 | one presearch entry, as the specification does |
| Processes.ProcessService.PartyNamePresearch | services/process_service.py:115-123 | the presearch loop, as the specification does |
| Processes.ProcessService.CompleteProcess | services/process_service.py:52-55 | read one record and fetch its movements, as the specification does |
| Processes.ProcessService.ExportOne | services/process_service.py:52-56 | the same, then export the process on success |
| Processes.ProcessService.ExportProcesses | services/process_service.py:45-56 | the export loop: what is exported, consumed and requested is `ExportAll`'s |
| Processes.ProcessService.GetProcesses | services/process_service.py:29-56 | outcome, exports, responses consumed and paths requested are those of `Scrape` |

## Left out

- HTTP, the base URL, headers, rate-limiting sleeps, random jitter and the retry decorator (client/api_client.py, utils/retry.py) are not modelled. The client is a script of decoded responses. A request once the script is exhausted fails with `ApiFailure`, standing for the client giving up. A `204` answer is `[]` in the script.
- Recursion is bounded by the script: every request consumes one response. `WalkBound` bounds both walks when each continuing page adds a record; a walk whose pages add nothing new is bounded only by the script. The search for a forced-pagination kind can repeat its first path forever (`ForcedPageRepeats`).
- The export service and its CSV and JSON writers (services/export_service.py, services/exporters/) are not part of this model. The `Exporter` keeps the exported processes in a sequence.
- Logging, configuration loading and the command line (main.py, config.py, utils/logging_config.py) are left out. The movements route and the page size 1000 are written into the model.
- Python exceptions are values of `Client.Error`, not exceptions. The message texts are kept only for the query refusals.
- `str()` of a list or a dict (`JsonValue.Display`) is a fixed placeholder rather than Python's repr. It only occurs when such a value is put into a path or a display string.
- Floats are not among the `Json` values. The services never compute with them.
- `JsonValue.Elements`: extending by a truthy non-list `listaProcessos` takes a string's characters, as Python does. For a dict the model reports a malformed response, because the model does not keep a dict's key order.
- Dict key order in general is not modelled: raw dictionaries and exports are maps.
- Aliasing is not modelled. The source mutates the accumulator it is handed with `extend`; the model passes sequences by value, which gives the same result because the caller never reads its own list again.
- `\d` in the OAB search is taken as ASCII digits. Python's `\d` also accepts other Unicode decimal digits, which the `[0-9]{1,}` of OAB's own pattern has already excluded for a query that `get_type` accepted.
- OAB paths: the code appends the forced `/1/1000` after `/OAB-<STATE>` (entities/request_type.py:113-128), so `OAB:12345PA` is asked for as `/processobyoab/12345/OAB-PA/1/1000` (`RequestExamples.OabUrl`).
