/**
 * `ProcessService` (services/process_service.py): searches the processes a
 * query names, following the four shapes an answer can take, then exports
 * each process found together with its movements.
 *
 * An answer is one of:
 *  - an empty list, or a mapping with neither `listaProcessos` nor
 *    `listaResultado`: the search ends with what was gathered so far;
 *  - a non-empty list: either the processes themselves, or a presearch list
 *    of party names, each of which starts a fresh search;
 *  - a mapping with `listaProcessos`: those processes are appended and the
 *    search ends;
 *  - a mapping with `listaResultado`: the nested `listaProcessos` of each
 *    entry are appended, the whole de-duplicated, and the next page asked
 *    for while fewer processes than `qtdRegistrosTotal` are known.
 *
 * `Fetch`, `HandleList`, `Presearch`, `ExportAll` and `Scrape` are the
 * specification; the class `ProcessService` performs the same steps against
 * an `ApiClient` and an `Exporter`, and its methods are proved to agree
 * with them.
 */
module Processes {
  import opened Wrappers
  import opened JsonValue
  import opened Dedup
  import opened ProcessModel
  import opened Client
  import opened Sequences
  import RequestType
  import Movements
  import Text

  // ---------------------------------------------------------------------------
  // One answer

  /** What one answer does to `__fetch_processes__`. */
  datatype Reply =
    | Finished(outcome: Result<seq<Json>, Error>)  // the search ends here
    | Listed(items: seq<Json>)                     // a non-empty list, for `__handle_list_data__`
    | Paged(merged: seq<Json>, total: Json)        // ask for the next page

  /**
   * What one entry of `listaResultado` adds (lines 89-91): its
   * `listaProcessos` when truthy, nothing otherwise; an entry that is not a
   * dict, or a value `extend` cannot take, fails.
   */
  function ItemProcesses(item: Json): (r: Option<seq<Json>>)
  {
    if !item.JObj? then None
    else
      var nested := Get(item.fields, "listaProcessos", JNull);
      if Truthy(nested) then Elements(nested) else Some([])
  }

  /** The loop of lines 88-91 over `listaResultado`: everything its entries add, in order. */
  function Gather(items: seq<Json>): (r: Option<seq<Json>>)
    decreases |items|
  {
    if items == [] then Some([])
    else match Gather(items[..|items| - 1])
      case None => None
      case Some(found) =>
        match ItemProcesses(items[|items| - 1])
        case None => None
        case Some(more) => Some(found + more)
  }

  /** Once an entry fails, the whole loop fails. */
  lemma {:induction false} GatherPrefixNone(items: seq<Json>, i: nat)
    requires i <= |items| && Gather(items[..i]).None?
    ensures Gather(items).None?
    decreases |items| - i
  {
    if i < |items| {
      assert items[..i + 1][..i] == items[..i];
      GatherPrefixNone(items, i + 1);
    } else {
      assert items[..i] == items;
    }
  }

  /**
   * One answer of `__fetch_processes__` (lines 76-104), given the processes
   * gathered so far and the total known so far.
   */
  function ProcessStep(acc: seq<Json>, total: Json, response: Json): Reply
  {
    if response.JArr? then
      if response.items == [] then Finished(Success(acc)) else Listed(response.items)
    else if !response.JObj? then Finished(Failure(MalformedResponse))
    else
      var fields := response.fields;
      var processes := Get(fields, "listaProcessos", JNull);
      if Truthy(processes) then
        match Elements(processes)
        case None => Finished(Failure(MalformedResponse))
        case Some(xs) => Finished(Success(acc + xs))
      else
        var searchResults := Get(fields, "listaResultado", JNull);
        if !Truthy(searchResults) then Finished(Success(acc))
        else
          var total' := if Truthy(total) then total else Get(fields, "qtdRegistrosTotal", JInt(0));
          if !searchResults.JArr? then Finished(Failure(MalformedResponse))
          else match Gather(searchResults.items)
            case None => Finished(Failure(MalformedResponse))
            case Some(found) =>
              var merged := KeepFirst(acc + found);
              match LessThan(|merged|, total')
              case None => Finished(Failure(MalformedResponse))
              case Some(false) => Finished(Success(merged))
              case Some(true) => Paged(merged, total')
  }

  // ---------------------------------------------------------------------------
  // The search

  /**
   * `__fetch_processes__(request, system, page, size, acc, total)` against
   * the answers `script`: the query is classified before anything is asked.
   */
  function Fetch(request: string, system: Json, page: Json, size: Json, acc: seq<Json>, total: Json, script: seq<Json>): (r: Run<seq<Json>>)
    ensures |r.rest| <= |script|
    decreases |script|, 0, 0
  {
    match RequestType.GetType(request)
    case Failure(reason) => Run(Failure(InvalidRequest(reason)), script, [])
    case Success(kind) =>
      var url := RequestType.RequestUrl(kind, request, system, page, size);
      if script == [] then Ended(url, Failure(ApiFailure), [])
      else After(url, Follow(request, system, page, size, ProcessStep(acc, total, script[0]), script[1..]))
  }

  /**
   * Lines 76-104 once the answer is read: end, hand the list over, or ask
   * for page `page + 1` (a page that is not a number cannot be incremented).
   */
  function Follow(request: string, system: Json, page: Json, size: Json, reply: Reply, script: seq<Json>): (r: Run<seq<Json>>)
    ensures |r.rest| <= |script|
    decreases |script|, 4, 0
  {
    match reply
    case Finished(outcome) => Run(outcome, script, [])
    case Listed(items) => HandleList(items, script)
    case Paged(merged, total') =>
      match PlusOne(page)
      case None => Run(Failure(PageNotNumeric), script, [])
      case Some(next) => Fetch(request, system, next, size, merged, total', script)
  }

  /**
   * `__handle_list_data__` (lines 106-113): a list whose first entry names a
   * party or a system is a presearch list; otherwise it is the list of
   * processes itself, provided that entry has a number.
   */
  function HandleList(items: seq<Json>, script: seq<Json>): (r: Run<seq<Json>>)
    ensures |r.rest| <= |script|
    decreases |script|, 3, 0
  {
    if items == [] || !items[0].JObj? || "nome" !in items[0].fields then Run(Failure(MalformedResponse), script, [])
    else
      var first := items[0].fields;
      if Truthy(first["nome"]) then Presearch(items, 0, [], script)
      else if "sistema" !in first then Run(Failure(MalformedResponse), script, [])
      else if Truthy(first["sistema"]) then Presearch(items, 0, [], script)
      else if !Truthy(Get(first, "numero", JNull)) then Run(Failure(NoProcessesInList), script, [])
      else Run(Success(items), script, [])
  }

  /**
   * One entry of the presearch loop (lines 118-122): a fresh search, page 1
   * of 1000, when the entry has a truthy name and system; nothing otherwise.
   */
  function PresearchItem(item: Json, script: seq<Json>): (r: Run<seq<Json>>)
    ensures |r.rest| <= |script|
    decreases |script|, 1, 0
  {
    if !item.JObj? then Run(Failure(MalformedResponse), script, [])
    else
      var name := Get(item.fields, "nome", JNull);
      var system := Get(item.fields, "sistema", JNull);
      if !(Truthy(name) && Truthy(system)) then Run(Success([]), script, [])
      else if !name.JStr? then Run(Failure(MalformedResponse), script, [])
      else Fetch(name.s, system, JInt(1), JInt(1000), [], JInt(0), script)
  }

  /**
   * `__handle_party_name_presearch__` (lines 115-123) from entry `i` on,
   * with `acc` gathered so far: the results of the entries, concatenated.
   */
  function Presearch(items: seq<Json>, i: nat, acc: seq<Json>, script: seq<Json>): (r: Run<seq<Json>>)
    requires i <= |items|
    ensures |r.rest| <= |script|
    decreases |script|, 2, |items| - i
  {
    if i == |items| then Run(Success(acc), script, [])
    else
      var f := PresearchItem(items[i], script);
      match f.outcome
      case Failure(_) => f
      case Success(found) =>
        var r := Presearch(items, i + 1, acc + found, f.rest);
        Run(r.outcome, r.rest, f.urls + r.urls)
  }

  // ---------------------------------------------------------------------------
  // The export

  /** How `get_processes` ends: its outcome, the processes exported, and the answers and paths as in `Run`. */
  datatype Report = Report(outcome: Result<(), Error>, exported: seq<Process>, rest: seq<Json>, urls: seq<string>)

  /**
   * One record of the loop of lines 45-56, before its export: read as a
   * process and given its movements.
   */
  function ExportRecord(record: Json, script: seq<Json>): (r: Run<Process>)
  {
    if !record.JObj? then Run(Failure(MalformedResponse), script, [])
    else match ProcessFromDict(record.fields)
      case None => Run(Failure(MalformedResponse), script, [])
      case Some(p) =>
        var m := Movements.Collect(p, script);
        match m.outcome
        case Failure(e) => Run(Failure(e), m.rest, m.urls)
        case Success(ms) => Run(Success(p.(movements := ms)), m.rest, m.urls)
  }

  /** The loop of lines 45-56 from record `i` on: each record completed and exported, in order. */
  function ExportAll(records: seq<Json>, i: nat, script: seq<Json>): (r: Report)
    requires i <= |records|
    decreases |records| - i
  {
    if i == |records| then Report(Success(()), [], script, [])
    else
      var e := ExportRecord(records[i], script);
      match e.outcome
      case Failure(err) => Report(Failure(err), [], e.rest, e.urls)
      case Success(p) =>
        var r := ExportAll(records, i + 1, e.rest);
        Report(r.outcome, [p] + r.exported, r.rest, e.urls + r.urls)
  }

  /** `get_processes(request, system, page, size)` (lines 29-56). */
  function Scrape(request: string, system: Json, page: Json, size: Json, script: seq<Json>): Report
  {
    var f := Fetch(request, system, page, size, [], JInt(0), script);
    match f.outcome
    case Failure(e) => Report(Failure(e), [], f.rest, f.urls)
    case Success(records) =>
      if records == [] then Report(Failure(ProcessNotFound(request)), [], f.rest, f.urls)
      else
        var e := ExportAll(records, 0, f.rest);
        Report(e.outcome, e.exported, e.rest, f.urls + e.urls)
  }

  // ---------------------------------------------------------------------------
  // Properties of the specification

  /**
   * The query is classified before anything is asked (lines 68-75): a
   * query that is empty once stripped, or of no known kind, ends the search
   * with no request and no export.
   */
  lemma InvalidQuerySendsNothing(request: string, system: Json, page: Json, size: Json, script: seq<Json>)
    requires RequestType.GetType(request).Failure?
    ensures var reason := RequestType.GetType(request).error;
      Scrape(request, system, page, size, script) == Report(Failure(InvalidRequest(reason)), [], script, []) &&
      (Text.Strip(request) == [] <==> reason == RequestType.EmptyQuery)
  {
  }

  /** The path asked for a query of kind `kind`. */
  function SearchUrl(request: string, system: Json, page: Json, size: Json): string
    requires RequestType.GetType(request).Success?
  {
    RequestType.RequestUrl(RequestType.GetType(request).value, request, system, page, size)
  }

  /** An answer that ends the search with the processes gathered so far. */
  predicate Empty(response: Json)
  {
    response == JArr([]) ||
    (response.JObj? && !Truthy(Get(response.fields, "listaProcessos", JNull)) &&
      !Truthy(Get(response.fields, "listaResultado", JNull)))
  }

  /**
   * An empty list, or a mapping with neither a non-empty `listaProcessos`
   * nor a non-empty `listaResultado`, returns what was gathered, after one
   * request (lines 76-78, 80-84).
   */
  lemma EmptyAnswerEnds(request: string, system: Json, page: Json, size: Json, acc: seq<Json>, total: Json, response: Json, rest: seq<Json>)
    requires RequestType.GetType(request).Success? && Empty(response)
    ensures Fetch(request, system, page, size, acc, total, [response] + rest) ==
      Run(Success(acc), rest, [SearchUrl(request, system, page, size)])
  {
    HeadTail(response, rest);
    assert ProcessStep(acc, total, response) == Finished(Success(acc));
    FetchFinishes(request, system, page, size, acc, total, [response] + rest, Success(acc));
  }

  /** An answer that settles the search is the last request. */
  lemma FetchFinishes(request: string, system: Json, page: Json, size: Json, acc: seq<Json>, total: Json,
                      script: seq<Json>, outcome: Result<seq<Json>, Error>)
    requires RequestType.GetType(request).Success? && script != []
    requires ProcessStep(acc, total, script[0]) == Finished(outcome)
    ensures Fetch(request, system, page, size, acc, total, script) ==
      Run(outcome, script[1..], [SearchUrl(request, system, page, size)])
  {
    FetchAsks(request, system, page, size, acc, total, script);
    AppendEmpty([SearchUrl(request, system, page, size)]);
  }

  /** ... and `get_processes` then reports that nothing was found, exporting nothing (lines 40-43). */
  lemma NothingFound(request: string, system: Json, page: Json, size: Json, response: Json, rest: seq<Json>)
    requires RequestType.GetType(request).Success? && Empty(response)
    ensures Scrape(request, system, page, size, [response] + rest) ==
      Report(Failure(ProcessNotFound(request)), [], rest, [SearchUrl(request, system, page, size)])
  {
    EmptyAnswerEnds(request, system, page, size, [], JInt(0), response, rest);
  }

  /**
   * A non-empty `listaProcessos` is appended as it is, not de-duplicated,
   * and ends the search (lines 80, 103-104).
   */
  lemma ProcessListEnds(request: string, system: Json, page: Json, size: Json, acc: seq<Json>, total: Json,
                        fields: map<string, Json>, xs: seq<Json>, rest: seq<Json>)
    requires RequestType.GetType(request).Success?
    requires Get(fields, "listaProcessos", JNull) == JArr(xs) && xs != []
    ensures Fetch(request, system, page, size, acc, total, [JObj(fields)] + rest) ==
      Run(Success(acc + xs), rest, [SearchUrl(request, system, page, size)])
  {
    HeadTail(JObj(fields), rest);
    ListedProcessesStep(acc, total, fields, xs);
    FetchFinishes(request, system, page, size, acc, total, [JObj(fields)] + rest, Success(acc + xs));
  }

  lemma ListedProcessesStep(acc: seq<Json>, total: Json, fields: map<string, Json>, xs: seq<Json>)
    requires Get(fields, "listaProcessos", JNull) == JArr(xs) && xs != []
    ensures ProcessStep(acc, total, JObj(fields)) == Finished(Success(acc + xs))
  {
    assert Truthy(JArr(xs)) && Elements(JArr(xs)) == Some(xs);
  }

  /**
   * A page of `listaResultado` (lines 85-101), the first page included:
   * what its entries add is appended and the whole de-duplicated, keeping
   * the first record of each key in order. The total is the one already
   * known or, when none is, the page's `qtdRegistrosTotal`; the next page
   * is asked for exactly when fewer records than that total are known, and
   * a total that is not a number cannot be compared.
   */
  lemma PageMerged(acc: seq<Json>, total: Json, fields: map<string, Json>, items: seq<Json>, found: seq<Json>)
    requires !Truthy(Get(fields, "listaProcessos", JNull))
    requires Get(fields, "listaResultado", JNull) == JArr(items) && items != []
    requires Gather(items) == Some(found)
    ensures var total' := if Truthy(total) then total else Get(fields, "qtdRegistrosTotal", JInt(0));
      var merged := KeepFirst(acc + found);
      var reply := ProcessStep(acc, total, JObj(fields));
      FirstOccurrencesAt(acc + found, merged, FirstIndices(acc + found)) && DistinctKeys(merged) &&
      (total'.JInt? ==> (reply.Paged? <==> |merged| < total'.n) && (!reply.Paged? ==> reply == Finished(Success(merged)))) &&
      (reply.Paged? ==> reply.merged == merged && reply.total == total') &&
      (!total'.JInt? && !total'.JBool? ==> reply == Finished(Failure(MalformedResponse)))
  {
    KeepFirstIsFirstOccurrences(acc + found);
    KeepFirstDistinct(acc + found);
    var total' := if Truthy(total) then total else Get(fields, "qtdRegistrosTotal", JInt(0));
    ProcessStepCompares(acc, total, fields, items, found, total');
  }

  /** Unfold helper: `ProcessStep` on a `listaResultado` page, once its total is known. */
  lemma ProcessStepCompares(acc: seq<Json>, total: Json, fields: map<string, Json>, items: seq<Json>, found: seq<Json>, total': Json)
    requires !Truthy(Get(fields, "listaProcessos", JNull))
    requires Get(fields, "listaResultado", JNull) == JArr(items) && items != []
    requires Gather(items) == Some(found)
    requires total' == if Truthy(total) then total else Get(fields, "qtdRegistrosTotal", JInt(0))
    ensures var merged := KeepFirst(acc + found);
      ProcessStep(acc, total, JObj(fields)) ==
        match LessThan(|merged|, total')
        case None => Finished(Failure(MalformedResponse))
        case Some(false) => Finished(Success(merged))
        case Some(true) => Paged(merged, total')
  {
  }

  /**
   * Once a truthy total is known, the count an answer announces is ignored
   * (line 85): replacing its `qtdRegistrosTotal` changes nothing.
   */
  lemma TotalFixed(acc: seq<Json>, total: Json, fields: map<string, Json>, other: Json)
    requires Truthy(total)
    ensures ProcessStep(acc, total, JObj(fields)) == ProcessStep(acc, total, JObj(fields["qtdRegistrosTotal" := other]))
  {
    var fields' := fields["qtdRegistrosTotal" := other];
    assert Get(fields, "listaProcessos", JNull) == Get(fields', "listaProcessos", JNull);
    assert Get(fields, "listaResultado", JNull) == Get(fields', "listaResultado", JNull);
  }

  /** A page that continues the search leaves fewer records than the total it carries on. */
  lemma PagedBelowTotal(acc: seq<Json>, total: Json, response: Json)
    requires ProcessStep(acc, total, response).Paged?
    ensures var reply := ProcessStep(acc, total, response);
      LessThan(|reply.merged|, reply.total) == Some(true)
  {
  }

  /**
   * The answers of `script` paginate with total `T`: each page that
   * continues the search adds at least one new record and carries the
   * total `T`, and no answer is a list (the fresh searches a list starts
   * are counted by `PresearchFanOut`).
   */
  predicate PagesAdd(acc: seq<Json>, total: Json, script: seq<Json>, T: int)
    decreases |script|
  {
    script != [] ==>
      match ProcessStep(acc, total, script[0])
      case Finished(_) => true
      case Listed(_) => false
      case Paged(merged, total') => |acc| < |merged| && total' == JInt(T) && PagesAdd(merged, total', script[1..], T)
  }

  /**
   * The recursion of lines 93-101 is bounded when every page adds a record:
   * starting with `acc`, the search makes at most `T - |acc|` requests (one
   * when `acc` already reaches `T`), so at most `T` from an empty start,
   * however many answers the API would give.
   */
  lemma {:induction false} WalkBound(request: string, system: Json, page: Json, size: Json, acc: seq<Json>, total: Json,
                                     script: seq<Json>, T: int)
    requires PagesAdd(acc, total, script, T)
    ensures |Fetch(request, system, page, size, acc, total, script).urls| <= if |acc| < T then T - |acc| else 1
    decreases |script|
  {
    if RequestType.GetType(request).Success? && script != [] {
      FetchAsks(request, system, page, size, acc, total, script);
      var reply := ProcessStep(acc, total, script[0]);
      if reply.Paged? && PlusOne(page).Some? {
        PagedBelowTotal(acc, total, script[0]);
        WalkBound(request, system, PlusOne(page).value, size, reply.merged, reply.total, script[1..], T);
      }
    }
  }

  /** One `listaResultado` page whose only entry holds the process `x`. */
  function OneProcessPage(x: Json): Json
  {
    JObj(map["qtdRegistrosTotal" := JInt(2), "listaResultado" := JArr([JObj(map["listaProcessos" := JArr([x])])])])
  }

  lemma OneProcessPageStep(acc: seq<Json>, x: Json)
    ensures var page := OneProcessPage(x).fields;
      !Truthy(Get(page, "listaProcessos", JNull)) &&
      Get(page, "listaResultado", JNull) == JArr([JObj(map["listaProcessos" := JArr([x])])]) &&
      Get(page, "qtdRegistrosTotal", JInt(0)) == JInt(2) &&
      Gather([JObj(map["listaProcessos" := JArr([x])])]) == Some([x])
  {
    var entry := [JObj(map["listaProcessos" := JArr([x])])];
    assert entry[..0] == [];
    assert [] + [x] == [x];
  }

  lemma KeepFirstOne(a: Json)
    ensures KeepFirst([a]) == [a]
  {
    assert [a][..0] == [];
  }

  lemma KeepFirstPair(a: Json, b: Json)
    requires KeyOf(a) != KeyOf(b)
    ensures KeepFirst([a, b]) == [a, b]
  {
    KeepFirstOne(a);
    assert [a, b][..1] == [a];
    assert KeyOf(b) !in KeysOf([a]);
  }

  /**
   * Two pages of one new process each, both announcing a total of 2: two
   * requests, for pages 1 and 2, and both processes, in order.
   */
  lemma TwoPages(request: string, system: Json, size: Json, a: Json, b: Json)
    requires RequestType.GetType(request).Success? && KeyOf(a) != KeyOf(b)
    ensures Fetch(request, system, JInt(1), size, [], JInt(0), [OneProcessPage(a), OneProcessPage(b)]) ==
      Run(Success([a, b]), [], [SearchUrl(request, system, JInt(1), size), SearchUrl(request, system, JInt(2), size)])
  {
    var script := [OneProcessPage(a), OneProcessPage(b)];
    PairParts(OneProcessPage(a), OneProcessPage(b));
    FetchAsks(request, system, JInt(1), size, [], JInt(0), script);
    FirstPageOfTwo(a);
    assert PlusOne(JInt(1)) == Some(JInt(2));
    SecondPageOfTwo(a, b);
    HeadTail(OneProcessPage(b), []);
    FetchFinishes(request, system, JInt(2), size, [a], JInt(2), [OneProcessPage(b)], Success([a, b]));
    PairParts(SearchUrl(request, system, JInt(1), size), SearchUrl(request, system, JInt(2), size));
  }

  lemma FirstPageOfTwo(a: Json)
    ensures ProcessStep([], JInt(0), OneProcessPage(a)) == Paged([a], JInt(2))
  {
    OneProcessPageStep([], a);
    KeepFirstOne(a);
    AppendEmpty([a]);
    assert LessThan(1, JInt(2)) == Some(true);
    PagedStep([], JInt(0), OneProcessPage(a).fields, [JObj(map["listaProcessos" := JArr([a])])], [a]);
  }

  /**
   * Unfold helper: `ProcessStep` on a `listaResultado` page, once its
   * pieces are known. What the step means is stated by `PageMerged`.
   */
  lemma PagedStep(acc: seq<Json>, total: Json, fields: map<string, Json>, items: seq<Json>, found: seq<Json>)
    requires !Truthy(Get(fields, "listaProcessos", JNull))
    requires Get(fields, "listaResultado", JNull) == JArr(items) && items != []
    requires Gather(items) == Some(found)
    ensures var total' := if Truthy(total) then total else Get(fields, "qtdRegistrosTotal", JInt(0));
      var merged := KeepFirst(acc + found);
      ProcessStep(acc, total, JObj(fields)) ==
        match LessThan(|merged|, total')
        case None => Finished(Failure(MalformedResponse))
        case Some(false) => Finished(Success(merged))
        case Some(true) => Paged(merged, total')
  {
  }

  lemma SecondPageOfTwo(a: Json, b: Json)
    requires KeyOf(a) != KeyOf(b)
    ensures ProcessStep([a], JInt(2), OneProcessPage(b)) == Finished(Success([a, b]))
  {
    OneProcessPageStep([a], b);
    KeepFirstPair(a, b);
    assert [a] + [b] == [a, b];
  }

  /**
   * `get_processes` is called without a page (main.py, line 45), so a
   * search that needs a second page fails on `None + 1` (line 97) after its
   * first request.
   */
  lemma NoPageCannotPaginate(request: string, system: Json, size: Json, acc: seq<Json>, total: Json, script: seq<Json>)
    requires RequestType.GetType(request).Success? && script != []
    requires ProcessStep(acc, total, script[0]).Paged?
    ensures Fetch(request, system, JNull, size, acc, total, script) ==
      Run(Failure(PageNotNumeric), script[1..], [SearchUrl(request, system, JNull, size)])
  {
  }

  /**
   * For the kinds whose page is forced to 1 (entities/request_type.py,
   * lines 113-115), the next page is asked for with the very same path.
   */
  lemma ForcedPageRepeats(request: string, system: Json, page: Json, size: Json, acc: seq<Json>, total: Json, script: seq<Json>)
    requires RequestType.GetType(request).Success? && RequestType.ForcesPagination(RequestType.GetType(request).value)
    requires |script| >= 2 && ProcessStep(acc, total, script[0]).Paged? && PlusOne(page).Some?
    ensures var urls := Fetch(request, system, page, size, acc, total, script).urls;
      |urls| >= 2 && urls[0] == urls[1]
  {
    var k := RequestType.GetType(request).value;
    var next := PlusOne(page).value;
    var reply := ProcessStep(acc, total, script[0]);
    FetchAsks(request, system, page, size, acc, total, script);
    FetchAsks(request, system, next, size, reply.merged, reply.total, script[1..]);
    RequestType.ForcedPagination(k, request, system, page, size);
    RequestType.ForcedPagination(k, request, system, next, size);
  }

  /**
   * A list whose first entry has no name and no system is the list of
   * processes itself: without a number in that entry nothing is found;
   * with one, the list is returned and what was gathered before is dropped
   * (lines 107-112).
   */
  lemma DirectList(request: string, system: Json, page: Json, size: Json, acc: seq<Json>, total: Json,
                   items: seq<Json>, rest: seq<Json>)
    requires RequestType.GetType(request).Success?
    requires items != [] && items[0].JObj?
    requires "nome" in items[0].fields && !Truthy(items[0].fields["nome"])
    requires "sistema" in items[0].fields && !Truthy(items[0].fields["sistema"])
    ensures var r := Fetch(request, system, page, size, acc, total, [JArr(items)] + rest);
      r.rest == rest && r.urls == [SearchUrl(request, system, page, size)] &&
      r.outcome == if Truthy(Get(items[0].fields, "numero", JNull)) then Success(items) else Failure(NoProcessesInList)
  {
    FetchAsks(request, system, page, size, acc, total, [JArr(items)] + rest);
    assert ([JArr(items)] + rest)[1..] == rest;
  }

  /** A presearch entry without a truthy name or system asks for nothing (line 118). */
  predicate Skipped(item: Json)
  {
    item.JObj? && !(Truthy(Get(item.fields, "nome", JNull)) && Truthy(Get(item.fields, "sistema", JNull)))
  }

  /** A presearch list in which no entry qualifies asks for nothing and adds nothing. */
  lemma {:induction false} PresearchSkipsAll(items: seq<Json>, i: nat, acc: seq<Json>, script: seq<Json>)
    requires i <= |items|
    requires forall j :: i <= j < |items| ==> Skipped(items[j])
    ensures Presearch(items, i, acc, script) == Run(Success(acc), script, [])
    decreases |items| - i
  {
    if i < |items| {
      PresearchStep(items, i, acc, script);
      assert PresearchItem(items[i], script) == Run(Success([]), script, []);
      assert acc + [] == acc;
      PresearchSkipsAll(items, i + 1, acc, script);
    }
  }

  /**
   * The fresh search of a qualifying entry asks for page 1 of 1000 of its
   * name, with its system (lines 119-121).
   */
  lemma PresearchItemPath(item: Json, script: seq<Json>)
    requires item.JObj? && !Skipped(item) && script != []
    requires Get(item.fields, "nome", JNull).JStr?
    requires RequestType.GetType(Get(item.fields, "nome", JNull).s).Success?
    ensures var name := Get(item.fields, "nome", JNull).s;
      var r := PresearchItem(item, script);
      r.urls != [] && r.urls[0] == SearchUrl(name, Get(item.fields, "sistema", JNull), JInt(1), JInt(1000))
  {
    var name := Get(item.fields, "nome", JNull).s;
    PresearchItemSearches(item, script);
    FetchAsks(name, Get(item.fields, "sistema", JNull), JInt(1), JInt(1000), [], JInt(0), script);
  }

  /** A presearch entry whose search answers with a `listaProcessos` page. */
  function PartyEntry(name: string, system: Json): Json
  {
    JObj(map["nome" := JStr(name), "sistema" := system])
  }

  function ProcessListPage(xs: seq<Json>): Json
  {
    JObj(map["listaProcessos" := JArr(xs)])
  }

  /**
   * A party the presearch finds: a truthy name and system, the name a valid
   * query, whose search is answered with the non-empty process list `xs`
   * (`ProcessListPage(xs)`).
   */
  predicate Party(name: string, system: Json, xs: seq<Json>)
  {
    Truthy(system) && name != [] && xs != [] && RequestType.GetType(name).Success?
  }

  lemma PartyEntrySearch(name: string, system: Json, xs: seq<Json>, rest: seq<Json>)
    requires Party(name, system, xs)
    ensures PresearchItem(PartyEntry(name, system), [ProcessListPage(xs)] + rest) ==
      Run(Success(xs), rest, [SearchUrl(name, system, JInt(1), JInt(1000))])
  {
    var item := PartyEntry(name, system);
    assert Get(item.fields, "nome", JNull) == JStr(name);
    assert Get(item.fields, "sistema", JNull) == system;
    PresearchItemSearches(item, [ProcessListPage(xs)] + rest);
    ProcessListEnds(name, system, JInt(1), JInt(1000), [], JInt(0), ProcessListPage(xs).fields, xs, rest);
    assert [] + xs == xs;
  }

  /**
   * A party entry of the presearch list: one search for its name and
   * system, page 1 of 1000; its processes are appended to what the earlier
   * entries found, and the later entries go on with the answers left.
   */
  lemma PartyStep(items: seq<Json>, i: nat, acc: seq<Json>, name: string, system: Json, xs: seq<Json>, rest: seq<Json>)
    requires i < |items| && items[i] == PartyEntry(name, system) && Party(name, system, xs)
    ensures var r := Presearch(items, i + 1, acc + xs, rest);
      Presearch(items, i, acc, [ProcessListPage(xs)] + rest) ==
        Run(r.outcome, r.rest, [SearchUrl(name, system, JInt(1), JInt(1000))] + r.urls)
  {
    PartyEntrySearch(name, system, xs, rest);
    PresearchStep(items, i, acc, [ProcessListPage(xs)] + rest);
  }

  /** The name and system of each presearch entry that starts a fresh search, in list order. */
  function Hits(items: seq<Json>): (hits: seq<(string, Json)>)
    ensures |hits| <= |items|
  {
    if items == [] then []
    else
      var item := items[0];
      if item.JObj? && !Skipped(item) && Get(item.fields, "nome", JNull).JStr? then
        [(Get(item.fields, "nome", JNull).s, Get(item.fields, "sistema", JNull))] + Hits(items[1..])
      else Hits(items[1..])
  }

  /**
   * The fresh searches of `hits`, each for page 1 of 1000 of a name with
   * its system, one after the other on the answers the previous one left:
   * their processes appended to `acc` and their paths concatenated, in
   * order; the first failure ends them.
   */
  function Searches(hits: seq<(string, Json)>, acc: seq<Json>, script: seq<Json>): Run<seq<Json>>
    decreases |hits|
  {
    if hits == [] then Run(Success(acc), script, [])
    else
      var f := Fetch(hits[0].0, hits[0].1, JInt(1), JInt(1000), [], JInt(0), script);
      match f.outcome
      case Failure(_) => f
      case Success(found) =>
        var r := Searches(hits[1..], acc + found, f.rest);
        Run(r.outcome, r.rest, f.urls + r.urls)
  }

  /**
   * A presearch that succeeds is exactly the fresh searches of its entries
   * with a name and a system (lines 117-122), in list order: one search per
   * such entry, whose processes and paths follow those of the entries
   * before it, and no request for any other entry.
   */
  lemma {:induction false} PresearchFanOut(items: seq<Json>, i: nat, acc: seq<Json>, script: seq<Json>)
    requires i <= |items|
    ensures var r := Presearch(items, i, acc, script);
      r.outcome.Success? ==> r == Searches(Hits(items[i..]), acc, script)
    decreases |items| - i
  {
    if i == |items| {
      assert items[i..] == [];
    } else {
      var item := items[i];
      HeadTail(item, items[i + 1..]);
      assert items[i..] == [item] + items[i + 1..];
      PresearchStep(items, i, acc, script);
      var f := PresearchItem(item, script);
      if f.outcome.Success? {
        PresearchFanOut(items, i + 1, acc + f.outcome.value, f.rest);
        if Skipped(item) {
          AppendEmpty(acc);
        } else {
          PresearchItemSearches(item, script);
        }
      }
    }
  }

  /** `exported` holds one process per record, in order, each read from its record (its movements aside). */
  predicate ExportedFrom(records: seq<Json>, exported: seq<Process>)
  {
    |exported| == |records| && forall j :: 0 <= j < |records| ==> ReadFrom(records[j], exported[j])
  }

  /** `p` is the process `record` reads as, its movements aside. */
  predicate ReadFrom(record: Json, p: Process)
  {
    record.JObj? && ProcessFromDict(record.fields).Some? &&
    p == ProcessFromDict(record.fields).value.(movements := p.movements)
  }

  lemma ExportedFromCons(x: Json, records: seq<Json>, p: Process, exported: seq<Process>)
    requires ExportedFrom(records, exported) && ReadFrom(x, p)
    ensures ExportedFrom([x] + records, [p] + exported)
  {
    var xs, ps := [x] + records, [p] + exported;
    forall j | 0 <= j < |xs|
      ensures ReadFrom(xs[j], ps[j])
    {
      if j > 0 {
        assert xs[j] == records[j - 1] && ps[j] == exported[j - 1];
      }
    }
  }

  /** A completed record was read as the process it yields. */
  lemma ExportRecordRead(record: Json, script: seq<Json>)
    ensures var e := ExportRecord(record, script);
      e.outcome.Success? ==> ReadFrom(record, e.outcome.value)
  {
  }

  /**
   * A completed export reads each record as a process, in order, one
   * export per record, each carrying the movements fetched for it
   * (lines 45-56).
   */
  lemma {:induction false} ExportAllInOrder(records: seq<Json>, i: nat, script: seq<Json>)
    requires i <= |records|
    ensures var r := ExportAll(records, i, script);
      r.outcome.Success? ==> ExportedFrom(records[i..], r.exported)
    decreases |records| - i
  {
    if i < |records| {
      ExportStep(records, i, script);
      var e := ExportRecord(records[i], script);
      if e.outcome.Success? {
        ExportRecordRead(records[i], script);
        ExportAllInOrder(records, i + 1, e.rest);
        var r := ExportAll(records, i + 1, e.rest);
        if r.outcome.Success? {
          assert records[i..] == [records[i]] + records[i + 1..];
          ExportedFromCons(records[i], records[i + 1..], e.outcome.value, r.exported);
        }
      }
    } else {
      assert records[i..] == [];
    }
  }

  /** The movements a process is exported with are those `get_movements` returns for it, from page 1. */
  lemma ExportRecordMovements(record: Json, script: seq<Json>)
    requires ExportRecord(record, script).outcome.Success?
    ensures record.JObj? && ProcessFromDict(record.fields).Some?
    ensures var p := ProcessFromDict(record.fields).value;
      var m := Movements.Collect(p, script);
      var r := ExportRecord(record, script);
      m.outcome.Success? && r.outcome.value == p.(movements := m.outcome.value) &&
      r.urls == m.urls && r.urls[0] == Movements.MovementsUrl(p, 1)
  {
    var p := ProcessFromDict(record.fields).value;
    Movements.CollectMovements(p, script);
  }

  /**
   * `get_processes` succeeds only when the search found records, and then
   * exports exactly one process per record, in order.
   */
  lemma ScrapeExportsEach(request: string, system: Json, page: Json, size: Json, script: seq<Json>)
    ensures var s := Scrape(request, system, page, size, script);
      var f := Fetch(request, system, page, size, [], JInt(0), script);
      s.outcome.Success? ==>
        f.outcome.Success? && f.outcome.value != [] && ExportedFrom(f.outcome.value, s.exported)
  {
    var f := Fetch(request, system, page, size, [], JInt(0), script);
    if f.outcome.Success? && f.outcome.value != [] {
      ExportAllInOrder(f.outcome.value, 0, f.rest);
      assert f.outcome.value[0..] == f.outcome.value;
    }
  }

  // ---------------------------------------------------------------------------
  // Unfold helpers, for the loops of the methods: each restates one step of
  // a specification function; what the steps mean is stated by the lemmas
  // above (`PageMerged`, `WalkBound`, `PresearchFanOut`, ...).

  /** Unfold helper: with a valid query and an answer to come, `Fetch` asks for its path and follows the answer. */
  lemma FetchAsks(request: string, system: Json, page: Json, size: Json, acc: seq<Json>, total: Json, script: seq<Json>)
    requires RequestType.GetType(request).Success? && script != []
    ensures Fetch(request, system, page, size, acc, total, script) ==
      After(SearchUrl(request, system, page, size), Follow(request, system, page, size, ProcessStep(acc, total, script[0]), script[1..]))
  {
  }

  /** A qualifying presearch entry starts a fresh search, page 1 of 1000. */
  lemma PresearchItemSearches(item: Json, script: seq<Json>)
    requires item.JObj? && !Skipped(item) && Get(item.fields, "nome", JNull).JStr?
    ensures PresearchItem(item, script) ==
      Fetch(Get(item.fields, "nome", JNull).s, Get(item.fields, "sistema", JNull), JInt(1), JInt(1000), [], JInt(0), script)
  {
  }

  /** Unfold helper: one entry further into the presearch loop. */
  lemma PresearchStep(items: seq<Json>, i: nat, acc: seq<Json>, script: seq<Json>)
    requires i < |items|
    ensures var f := PresearchItem(items[i], script);
      var run := Presearch(items, i, acc, script);
      (f.outcome.Failure? ==> run == f) &&
      (f.outcome.Success? ==>
        var r := Presearch(items, i + 1, acc + f.outcome.value, f.rest);
        run == Run(r.outcome, r.rest, f.urls + r.urls))
  {
  }

  /** `r`, after `exported` were exported and `urls` requested. */
  function Prepend(exported: seq<Process>, urls: seq<string>, r: Report): Report
  {
    Report(r.outcome, exported + r.exported, r.rest, urls + r.urls)
  }

  /** One record further into the export loop. */
  lemma ExportAdvance(records: seq<Json>, i: nat, script: seq<Json>, exported: seq<Process>, urls: seq<string>)
    requires i < |records|
    ensures var e := ExportRecord(records[i], script);
      var run := Prepend(exported, urls, ExportAll(records, i, script));
      (e.outcome.Failure? ==> run == Report(Failure(e.outcome.error), exported, e.rest, urls + e.urls)) &&
      (e.outcome.Success? ==> run == Prepend(exported + [e.outcome.value], urls + e.urls, ExportAll(records, i + 1, e.rest)))
  {
    ExportStep(records, i, script);
    var e := ExportRecord(records[i], script);
    if e.outcome.Success? {
      var r := ExportAll(records, i + 1, e.rest);
      Associative(exported, [e.outcome.value], r.exported);
      Associative(urls, e.urls, r.urls);
    } else {
      assert exported + [] == exported;
    }
  }

  lemma ExportStep(records: seq<Json>, i: nat, script: seq<Json>)
    requires i < |records|
    ensures var e := ExportRecord(records[i], script);
      var run := ExportAll(records, i, script);
      (e.outcome.Failure? ==> run == Report(Failure(e.outcome.error), [], e.rest, e.urls)) &&
      (e.outcome.Success? ==>
        var r := ExportAll(records, i + 1, e.rest);
        run == Report(r.outcome, [e.outcome.value] + r.exported, r.rest, e.urls + r.urls))
  {
  }

  // ---------------------------------------------------------------------------
  // The service

  /** The export service, reduced to the processes handed to it, in order. */
  class Exporter {
    var exported: seq<Process>

    constructor ()
      ensures exported == []
    {
      exported := [];
    }

    /** `export_service.export(process)`. */
    method Export(p: Process)
      modifies this
      ensures exported == old(exported) + [p]
    {
      exported := exported + [p];
    }
  }

  class ProcessService {
    const api: ApiClient
    const exporter: Exporter
    const movements: Movements.MovementService

    /** The movement service asks the same client, as the application wires them. */
    predicate Valid()
    {
      movements.api == api
    }

    constructor (api: ApiClient, exporter: Exporter)
      ensures this.api == api && this.exporter == exporter && Valid()
    {
      this.api := api;
      this.exporter := exporter;
      this.movements := new Movements.MovementService(api);
    }

    /** `__deduplicate_processes__` (lines 134-142): a `seen` set of hashable projections. */
    static method DeduplicateProcesses(processes: seq<Json>) returns (unique: seq<Json>)
      ensures unique == KeepFirst(processes)
    {
      var seen: set<Key> := {};
      unique := [];
      for i := 0 to |processes|
        invariant seen == KeysOf(processes[..i])
        invariant unique == KeepFirst(processes[..i])
      {
        assert processes[..i + 1][..i] == processes[..i];
        var hashable := MakeHashable(processes[i]);
        if hashable !in seen {
          seen := seen + {hashable};
          unique := unique + [processes[i]];
        }
      }
      assert processes[..|processes|] == processes;
    }

    /**
     * Lines 76-104 after the request: what one answer does to the search,
     * computed step by step and proved to be `ProcessStep`, whose meaning
     * `PageMerged` and `WalkBound` state.
     */
    static method HandleReply(acc: seq<Json>, total: Json, response: Json) returns (reply: Reply)
      ensures reply == ProcessStep(acc, total, response)
    {
      if response.JArr? {
        if response.items == [] {
          return Finished(Success(acc));
        }
        return Listed(response.items);
      }
      if !response.JObj? {
        return Finished(Failure(MalformedResponse));
      }
      var processes := Get(response.fields, "listaProcessos", JNull);
      if Truthy(processes) {
        var xs := Elements(processes);
        if xs.None? {
          return Finished(Failure(MalformedResponse));
        }
        return Finished(Success(acc + xs.value));
      }
      var searchResults := Get(response.fields, "listaResultado", JNull);
      if !Truthy(searchResults) {
        return Finished(Success(acc));
      }
      var total' := if Truthy(total) then total else Get(response.fields, "qtdRegistrosTotal", JInt(0));
      if !searchResults.JArr? {
        return Finished(Failure(MalformedResponse));
      }
      var items := searchResults.items;
      var result := acc;
      for i := 0 to |items|
        invariant Gather(items[..i]).Some? && result == acc + Gather(items[..i]).value
      {
        assert items[..i + 1][..i] == items[..i];
        var more := ItemProcesses(items[i]);
        if more.None? {
          GatherPrefixNone(items, i + 1);
          return Finished(Failure(MalformedResponse));
        }
        assert result + more.value == acc + (Gather(items[..i]).value + more.value);
        result := result + more.value;
      }
      assert items[..|items|] == items;
      result := DeduplicateProcesses(result);
      var below := LessThan(|result|, total');
      if below.None? {
        return Finished(Failure(MalformedResponse));
      }
      if !below.value {
        return Finished(Success(result));
      }
      return Paged(result, total');
    }

    /** `__fetch_processes__`: classify, build the path, ask, and follow the answer. */
    method FetchProcesses(request: string, system: Json, page: Json, size: Json, acc: seq<Json>, total: Json)
      returns (r: Result<seq<Json>, Error>)
      modifies api
      ensures var run := Fetch(request, system, page, size, acc, total, old(api.script));
        r == run.outcome && api.script == run.rest && api.requested == old(api.requested) + run.urls
      decreases |api.script|, 0
    {
      var kind := RequestType.GetType(request);
      if kind.Failure? {
        r := Failure(InvalidRequest(kind.error));
      } else {
        var url := RequestType.RequestUrl(kind.value, request, system, page, size);
        var got := api.Get(url);
        if got.Failure? {
          r := Failure(got.error);
        } else {
          var reply := HandleReply(acc, total, got.value);
          ghost var requested1 := api.requested;
          r := FollowReply(request, system, page, size, reply);
          Associative(old(api.requested), [url], api.requested[|requested1|..]);
        }
      }
    }

    /** Lines 76-104 once the answer is read. */
    method FollowReply(request: string, system: Json, page: Json, size: Json, reply: Reply)
      returns (r: Result<seq<Json>, Error>)
      modifies api
      ensures var run := Follow(request, system, page, size, reply, old(api.script));
        r == run.outcome && api.script == run.rest && api.requested == old(api.requested) + run.urls
      decreases |api.script|, 4
    {
      match reply
      case Finished(outcome) =>
        r := outcome;
      case Listed(items) =>
        r := HandleListData(items);
      case Paged(merged, total') =>
        var next := PlusOne(page);
        if next.None? {
          r := Failure(PageNotNumeric);
        } else {
          r := FetchProcesses(request, system, next.value, size, merged, total');
        }
    }

    /** `__handle_list_data__`. */
    method HandleListData(items: seq<Json>) returns (r: Result<seq<Json>, Error>)
      modifies api
      ensures var run := HandleList(items, old(api.script));
        r == run.outcome && api.script == run.rest && api.requested == old(api.requested) + run.urls
      decreases |api.script|, 3
    {
      if items == [] || !items[0].JObj? || "nome" !in items[0].fields {
        r := Failure(MalformedResponse);
      } else {
        var first := items[0].fields;
        if Truthy(first["nome"]) {
          r := PartyNamePresearch(items);
        } else if "sistema" !in first {
          r := Failure(MalformedResponse);
        } else if Truthy(first["sistema"]) {
          r := PartyNamePresearch(items);
        } else if !Truthy(Get(first, "numero", JNull)) {
          r := Failure(NoProcessesInList);
        } else {
          r := Success(items);
        }
      }
    }

    /** One entry of `__handle_party_name_presearch__`. */
    method SearchEntry(item: Json) returns (r: Result<seq<Json>, Error>)
      modifies api
      ensures var run := PresearchItem(item, old(api.script));
        r == run.outcome && api.script == run.rest && api.requested == old(api.requested) + run.urls
      decreases |api.script|, 1
    {
      if !item.JObj? {
        r := Failure(MalformedResponse);
      } else {
        var name := Get(item.fields, "nome", JNull);
        var system := Get(item.fields, "sistema", JNull);
        if !(Truthy(name) && Truthy(system)) {
          r := Success([]);
        } else if !name.JStr? {
          r := Failure(MalformedResponse);
        } else {
          r := FetchProcesses(name.s, system, JInt(1), JInt(1000), [], JInt(0));
        }
      }
    }

    /** `__handle_party_name_presearch__`: one fresh search per entry naming a party and a system. */
    method PartyNamePresearch(items: seq<Json>) returns (r: Result<seq<Json>, Error>)
      modifies api
      ensures var run := Presearch(items, 0, [], old(api.script));
        r == run.outcome && api.script == run.rest && api.requested == old(api.requested) + run.urls
      decreases |api.script|, 2
    {
      var result: seq<Json> := [];
      ghost var urls: seq<string> := [];
      var i := 0;
      while i < |items|
        invariant i <= |items|
        invariant |api.script| <= old(|api.script|)
        invariant api.requested == old(api.requested) + urls
        invariant var run := Presearch(items, i, result, api.script);
          Presearch(items, 0, [], old(api.script)) == Run(run.outcome, run.rest, urls + run.urls)
        decreases |items| - i
      {
        ghost var f := PresearchItem(items[i], api.script);
        PresearchStep(items, i, result, api.script);
        var found := SearchEntry(items[i]);
        Associative(old(api.requested), urls, f.urls);
        if found.Failure? {
          return found;
        }
        Associative(urls, f.urls, Presearch(items, i + 1, result + found.value, api.script).urls);
        result := result + found.value;
        urls := urls + f.urls;
        i := i + 1;
      }
      r := Success(result);
    }

    /** Lines 50-55 for one record: read it as a process and fetch its movements. */
    method CompleteProcess(record: Json) returns (r: Result<Process, Error>)
      requires Valid()
      modifies api
      ensures var run := ExportRecord(record, old(api.script));
        r == run.outcome && api.script == run.rest && api.requested == old(api.requested) + run.urls
    {
      if !record.JObj? {
        return Failure(MalformedResponse);
      }
      var p := ProcessFromDict(record.fields);
      if p.None? {
        return Failure(MalformedResponse);
      }
      var ms := movements.GetMovements(p.value);
      if ms.Failure? {
        return Failure(ms.error);
      }
      return Success(p.value.(movements := ms.value));
    }

    /** Lines 45-56: every record completed and exported, in order. */
    method ExportProcesses(records: seq<Json>) returns (r: Result<(), Error>)
      requires Valid()
      modifies api, exporter
      ensures var run := ExportAll(records, 0, old(api.script));
        r == run.outcome && exporter.exported == old(exporter.exported) + run.exported &&
        api.script == run.rest && api.requested == old(api.requested) + run.urls
    {
      ghost var exported: seq<Process> := [];
      ghost var urls: seq<string> := [];
      ghost var done, requested, whole := exporter.exported, api.requested, ExportAll(records, 0, api.script);
      var i := 0;
      while i < |records|
        invariant i <= |records|
        invariant exporter.exported == done + exported
        invariant api.requested == requested + urls
        invariant whole == Prepend(exported, urls, ExportAll(records, i, api.script))
        decreases |records| - i
      {
        ghost var e := ExportRecord(records[i], api.script);
        ExportAdvance(records, i, api.script, exported, urls);
        var complete := ExportOne(records[i]);
        Associative(requested, urls, e.urls);
        if complete.Failure? {
          return Failure(complete.error);
        }
        Associative(done, exported, [complete.value]);
        exported := exported + [complete.value];
        urls := urls + e.urls;
        i := i + 1;
      }
      AppendEmpty(exported);
      AppendEmpty(urls);
      r := Success(());
    }

    /** One pass of the loop of lines 45-56: complete the record and, when that succeeds, export it. */
    method ExportOne(record: Json) returns (r: Result<Process, Error>)
      requires Valid()
      modifies api, exporter
      ensures var run := ExportRecord(record, old(api.script));
        r == run.outcome && api.script == run.rest && api.requested == old(api.requested) + run.urls &&
        exporter.exported == old(exporter.exported) + (if r.Success? then [r.value] else [])
    {
      r := CompleteProcess(record);
      if r.Success? {
        exporter.Export(r.value);
      }
    }

    /** `get_processes(request, system, page, size)`: search, then export each process with its movements. */
    method GetProcesses(request: string, system: Json, page: Json, size: Json) returns (r: Result<(), Error>)
      requires Valid()
      modifies api, exporter
      ensures var s := Scrape(request, system, page, size, old(api.script));
        r == s.outcome && exporter.exported == old(exporter.exported) + s.exported &&
        api.script == s.rest && api.requested == old(api.requested) + s.urls
    {
      var found := FetchProcesses(request, system, page, size, [], JInt(0));
      if found.Failure? {
        r := Failure(found.error);
      } else if found.value == [] {
        r := Failure(ProcessNotFound(request));
      } else {
        ghost var requested1 := api.requested;
        r := ExportProcesses(found.value);
        Associative(old(api.requested), requested1[|old(api.requested)|..], api.requested[|requested1|..]);
      }
    }
  }
}
