/**
 * `MovementService` (services/movement_service.py): fetches the movements of
 * a process page by page, 1000 per page, merging each page into what was
 * gathered so far and de-duplicating on the records' contents, until the
 * count reaches the total the API announced.
 *
 * `Fetch` and `Collect` are the specification: what the service returns,
 * which responses of the script it uses, and which paths it requests. The
 * class `MovementService` performs the same steps against an `ApiClient` and
 * its methods are proved to agree with them.
 */
module Movements {
  import opened Wrappers
  import opened JsonValue
  import opened Text
  import opened Dedup
  import opened MovementModel
  import opened ProcessModel
  import opened Client
  import opened Sequences
  import RequestType

  /** The movements route of the configuration (config.py, line 12), without its slashes. */
  const MovementsRouteName: string := "movimentacaopublicobycnj"

  /** The page size of every movements request. */
  const MovementsPageSize: string := "1000"

  /**
   * The page of movements a process asks for: the route, then the number,
   * the document code, the instance code, the page and the page size, each
   * as `str()` gives it, as one `/`-separated path.
   */
  function MovementsUrl(p: Process, page: int): string
  {
    Join("/", ["", MovementsRouteName, Display(p.number), Display(p.cdDocProcess), Display(p.cdInstance), IntToString(page), MovementsPageSize])
  }

  lemma JoinSix(n: string, a: string, b: string, c: string, d: string)
    ensures Join("/", ["", n, a, b, c, d]) == "/" + n + "/" + a + "/" + b + "/" + c + "/" + d
  {
    JoinSnoc("/", [""], n);
    assert [""] + [n] == ["", n];
    JoinSnoc("/", ["", n], a);
    assert ["", n] + [a] == ["", n, a];
    JoinSnoc("/", ["", n, a], b);
    assert ["", n, a] + [b] == ["", n, a, b];
    JoinSnoc("/", ["", n, a, b], c);
    assert ["", n, a, b] + [c] == ["", n, a, b, c];
    JoinSnoc("/", ["", n, a, b, c], d);
    assert ["", n, a, b, c] + [d] == ["", n, a, b, c, d];
  }

  lemma JoinSeven(n: string, a: string, b: string, c: string, d: string, e: string)
    ensures Join("/", ["", n, a, b, c, d, e]) == "/" + n + "/" + a + "/" + b + "/" + c + "/" + d + "/" + e
  {
    JoinSix(n, a, b, c, d);
    JoinSnoc("/", ["", n, a, b, c, d], e);
    assert ["", n, a, b, c, d] + [e] == ["", n, a, b, c, d, e];
  }

  /**
   * The path of page `page` is the movements route followed by the number,
   * the document code, the instance code, the page and 1000, each after a `/`.
   */
  lemma MovementsUrlShape(p: Process, page: int)
    ensures MovementsUrl(p, page) ==
      "/" + "movimentacaopublicobycnj" + "/" + Display(p.number) + "/" + Display(p.cdDocProcess) + "/" +
      Display(p.cdInstance) + "/" + IntToString(page) + "/" + "1000"
  {
    JoinSeven(MovementsRouteName, Display(p.number), Display(p.cdDocProcess), Display(p.cdInstance), IntToString(page), MovementsPageSize);
  }

  /**
   * When the three codes of the process are free of `/`, splitting the path
   * on `/` gives back the route, the codes, the page and 1000, and a
   * non-negative page segment reads back as the page.
   */
  lemma MovementsUrlSplit(p: Process, page: nat)
    requires RequestType.SlashFree(Display(p.number))
    requires RequestType.SlashFree(Display(p.cdDocProcess))
    requires RequestType.SlashFree(Display(p.cdInstance))
    ensures Split(MovementsUrl(p, page), '/') ==
      ["", MovementsRouteName, Display(p.number), Display(p.cdDocProcess), Display(p.cdInstance), IntToString(page), MovementsPageSize]
    ensures DigitsValue(IntToString(page)) == page
  {
    var parts := ["", MovementsRouteName, Display(p.number), Display(p.cdDocProcess), Display(p.cdInstance), IntToString(page), MovementsPageSize];
    RequestType.IntToStringSlashFree(page);
    assert RequestType.SlashFree(MovementsRouteName);
    assert RequestType.SlashFree(MovementsPageSize);
    assert RequestType.AllSlashFree(parts);
    RequestType.SlashFreeParts(parts);
    SplitJoin(parts, '/');
    NatToStringRoundTrip(page);
  }

  // ---------------------------------------------------------------------------
  // The specification

  /** A record the dict comprehension of line 53 accepts: a dict whose values are all hashable. */
  predicate FlatRecord(j: Json)
  {
    j.JObj? && forall k :: k in j.fields ==> !j.fields[k].JArr? && !j.fields[k].JObj?
  }

  predicate AllFlat(xs: seq<Json>)
  {
    forall i :: 0 <= i < |xs| ==> FlatRecord(xs[i])
  }

  /** The records `DictValues` keeps are records of its input. */
  lemma DictValuesFlat(xs: seq<Json>)
    requires AllFlat(xs)
    ensures AllFlat(DictValues(xs))
  {
    DictValuesLast(xs);
  }

  /** What one response does to the walk: end it with an outcome, or go on with the merged records and the total. */
  datatype Step = Done(outcome: Result<seq<Json>, Error>) | Next(merged: seq<Json>, total: Json)

  /**
   * One response of `__fetch_movements__` (lines 46-57). An empty list, or a
   * missing or empty `listaResultado`, ends the walk with the records
   * gathered so far. Otherwise the page's records are appended and the
   * whole rebuilt through a dict keyed on each record's items
   * (`DictValues`); the total is the first truthy count seen; the walk goes
   * on while there are fewer records than the total.
   */
  function PageStep(acc: seq<Json>, total: Json, response: Json): Step
  {
    if response == JArr([]) then Done(Success(acc))
    else if !response.JObj? then Done(Failure(MalformedResponse))
    else
      var total' := if Truthy(total) then total else Get(response.fields, "qtdRegistrosTotal", JInt(0));
      var pageResult := Get(response.fields, "listaResultado", JArr([]));
      if !Truthy(pageResult) then Done(Success(acc))
      else match Elements(pageResult)
        case None => Done(Failure(MalformedResponse))
        case Some(items) =>
          if !AllFlat(acc + items) then Done(Failure(MalformedResponse))
          else
            var merged := DictValues(acc + items);
            match LessThan(|merged|, total')
            case None => Done(Failure(MalformedResponse))
            case Some(false) => Done(Success(merged))
            case Some(true) => Next(merged, total')
  }

  /**
   * `__fetch_movements__(process, page, acc, total)` against the responses
   * `script`: one request per page, from `page` on, until a response ends
   * the walk.
   */
  function Fetch(p: Process, page: int, acc: seq<Json>, total: Json, script: seq<Json>): (r: Run<seq<Json>>)
    ensures r.urls != [] && r.urls[0] == MovementsUrl(p, page)
    ensures |r.rest| <= |script|
    ensures r.outcome != Failure(ApiFailure) ==> |r.urls| + |r.rest| == |script|
    decreases |script|
  {
    var url := MovementsUrl(p, page);
    if script == [] then Ended(url, Failure(ApiFailure), [])
    else match PageStep(acc, total, script[0])
      case Done(outcome) => Ended(url, outcome, script[1..])
      case Next(merged, total') => After(url, Fetch(p, page + 1, merged, total', script[1..]))
  }

  /**
   * A response that continues the walk leaves one record per key, all of
   * them dicts with hashable values, fewer than the total, and keeps a
   * total that was already known; one that ends it successfully leaves the
   * records gathered so far, or such a de-duplicated list.
   */
  lemma PageStepRecords(acc: seq<Json>, total: Json, response: Json)
    requires AllFlat(acc)
    ensures var s := PageStep(acc, total, response);
      (s.Next? ==> AllFlat(s.merged) && DistinctKeys(s.merged) && LessThan(|s.merged|, s.total) == Some(true)) &&
      (s.Next? && Truthy(total) ==> s.total == total) &&
      (s.Done? && s.outcome.Success? ==>
        s.outcome.value == acc || (AllFlat(s.outcome.value) && DistinctKeys(s.outcome.value)))
  {
    if response != JArr([]) && response.JObj? {
      var pageResult := Get(response.fields, "listaResultado", JArr([]));
      if Truthy(pageResult) && Elements(pageResult).Some? && AllFlat(acc + Elements(pageResult).value) {
        var items := Elements(pageResult).value;
        DictValuesFlat(acc + items);
        DictValuesDistinct(acc + items);
      }
    }
  }

  /**
   * The walk returns the records gathered before it, or a list of dicts
   * with hashable values holding one record per key.
   */
  lemma {:induction false} FetchRecords(p: Process, page: int, acc: seq<Json>, total: Json, script: seq<Json>)
    requires AllFlat(acc)
    ensures var r := Fetch(p, page, acc, total, script);
      r.outcome.Success? ==> AllFlat(r.outcome.value) && (r.outcome.value == acc || DistinctKeys(r.outcome.value))
    decreases |script|
  {
    if script != [] {
      PageStepRecords(acc, total, script[0]);
      var s := PageStep(acc, total, script[0]);
      if s.Next? {
        FetchRecords(p, page + 1, s.merged, s.total, script[1..]);
      }
    }
  }

  /** One step of `Fetch`, for the methods that follow it. */
  lemma FetchUnfold(p: Process, page: int, acc: seq<Json>, total: Json, script: seq<Json>)
    requires script != []
    ensures var url := MovementsUrl(p, page);
      Fetch(p, page, acc, total, script) ==
        match PageStep(acc, total, script[0])
        case Done(outcome) => Run(outcome, script[1..], [url])
        case Next(merged, total') =>
          var r := Fetch(p, page + 1, merged, total', script[1..]);
          Run(r.outcome, r.rest, [url] + r.urls)
  {
  }

  /** What follows a handled response: nothing more, or the walk from the next page. */
  function Continue(p: Process, page: int, step: Step, script: seq<Json>): Run<seq<Json>>
  {
    match step
    case Done(outcome) => Run(outcome, script, [])
    case Next(merged, total') => Fetch(p, page + 1, merged, total', script)
  }

  /** `Fetch`, one response at a time, with the failure of an exhausted script. */
  lemma FetchUnfoldAll(p: Process, page: int, acc: seq<Json>, total: Json, script: seq<Json>)
    ensures var url := MovementsUrl(p, page);
      var run := Fetch(p, page, acc, total, script);
      (script == [] ==> run == Run(Failure(ApiFailure), [], [url])) &&
      (script != [] ==>
        var tail := Continue(p, page, PageStep(acc, total, script[0]), script[1..]);
        run == Run(tail.outcome, tail.rest, [url] + tail.urls))
  {
  }

  /** `Movement.from_dict` of each record, in order. */
  function MovementsOf(records: seq<Json>): (ms: seq<Movement>)
    requires AllFlat(records)
  {
    seq(|records|, i requires 0 <= i < |records| => MovementFromDict(records[i].fields))
  }

  /** `get_movements(process)`: the records of all pages from page 1, as movements. */
  function Collect(p: Process, script: seq<Json>): Run<seq<Movement>>
  {
    var f := Fetch(p, 1, [], JInt(0), script);
    FetchRecords(p, 1, [], JInt(0), script);
    match f.outcome
    case Failure(e) => Run(Failure(e), f.rest, f.urls)
    case Success(raw) => Run(Success(MovementsOf(raw)), f.rest, f.urls)
  }

  /**
   * `get_movements` asks for page 1 first, and on success returns one
   * movement per record of the walk, in order, the records holding one
   * record per key.
   */
  lemma CollectMovements(p: Process, script: seq<Json>)
    ensures var r := Collect(p, script);
      var f := Fetch(p, 1, [], JInt(0), script);
      r.urls == f.urls && r.rest == f.rest && r.urls[0] == MovementsUrl(p, 1) &&
      r.outcome.Success? == f.outcome.Success? &&
      (r.outcome.Failure? ==> r.outcome.error == f.outcome.error) &&
      (r.outcome.Success? ==>
        |r.outcome.value| == |f.outcome.value| && DistinctKeys(f.outcome.value) &&
        forall i :: 0 <= i < |f.outcome.value| ==>
          f.outcome.value[i].JObj? && r.outcome.value[i] == MovementFromDict(f.outcome.value[i].fields))
  {
    FetchRecords(p, 1, [], JInt(0), script);
  }

  // ---------------------------------------------------------------------------
  // Properties of the specification

  /** An empty list ends the walk with the records gathered so far, after one request. */
  lemma EmptyListEnds(p: Process, page: int, acc: seq<Json>, total: Json, rest: seq<Json>)
    ensures Fetch(p, page, acc, total, [JArr([])] + rest) == Run(Success(acc), rest, [MovementsUrl(p, page)])
  {
    assert ([JArr([])] + rest)[1..] == rest;
  }

  /** A response without records (`listaResultado` missing or empty) ends the walk the same way. */
  lemma NoRecordsEnds(p: Process, page: int, acc: seq<Json>, total: Json, fields: map<string, Json>, rest: seq<Json>)
    requires !Truthy(Get(fields, "listaResultado", JArr([])))
    ensures Fetch(p, page, acc, total, [JObj(fields)] + rest) == Run(Success(acc), rest, [MovementsUrl(p, page)])
  {
    assert ([JObj(fields)] + rest)[1..] == rest;
  }

  /**
   * Once a truthy total is known, the count a response announces is
   * ignored: replacing its `qtdRegistrosTotal` changes nothing.
   */
  lemma TotalFixed(acc: seq<Json>, total: Json, fields: map<string, Json>, other: Json)
    requires Truthy(total)
    ensures PageStep(acc, total, JObj(fields)) == PageStep(acc, total, JObj(fields["qtdRegistrosTotal" := other]))
  {
    assert Get(fields, "listaResultado", JArr([])) == Get(fields["qtdRegistrosTotal" := other], "listaResultado", JArr([]));
  }

  /**
   * One page merged into the records gathered so far, the first page
   * included: the result holds one record per key, the keys in the order
   * they first occur in `acc + page`, each slot holding the last record of
   * its key. The total is the one already known or, when none is, the
   * page's `qtdRegistrosTotal`; the walk goes on exactly when the result is
   * shorter than that total, and a total that is not a number cannot be
   * compared.
   */
  lemma PageMerged(acc: seq<Json>, total: Json, fields: map<string, Json>, items: seq<Json>)
    requires Get(fields, "listaResultado", JArr([])) == JArr(items) && items != []
    requires AllFlat(acc + items)
    ensures var total' := if Truthy(total) then total else Get(fields, "qtdRegistrosTotal", JInt(0));
      var merged := DictValues(acc + items);
      var s := PageStep(acc, total, JObj(fields));
      SameKeys(merged, KeepFirst(acc + items)) && DistinctKeys(merged) &&
      LastOccurrencesAt(acc + items, merged, LastIndices(acc + items)) &&
      (total'.JInt? ==> (s.Next? <==> |merged| < total'.n) && (s.Done? ==> s.outcome == Success(merged))) &&
      (s.Next? ==> s.merged == merged && s.total == total') &&
      (!total'.JInt? && !total'.JBool? ==> s == Done(Failure(MalformedResponse)))
  {
    DictValuesSpec(acc + items);
    var total' := if Truthy(total) then total else Get(fields, "qtdRegistrosTotal", JInt(0));
    PageStepCompares(acc, total, fields, items, total');
  }

  /** Unfold helper: `PageStep` on a page of `items`, once its total is known. */
  lemma PageStepCompares(acc: seq<Json>, total: Json, fields: map<string, Json>, items: seq<Json>, total': Json)
    requires Get(fields, "listaResultado", JArr([])) == JArr(items) && items != []
    requires AllFlat(acc + items)
    requires total' == if Truthy(total) then total else Get(fields, "qtdRegistrosTotal", JInt(0))
    ensures var merged := DictValues(acc + items);
      PageStep(acc, total, JObj(fields)) ==
        match LessThan(|merged|, total')
        case None => Done(Failure(MalformedResponse))
        case Some(false) => Done(Success(merged))
        case Some(true) => Next(merged, total')
  {
  }

  /** A page that continues the walk leaves fewer records than the total it carries on. */
  lemma NextBelowTotal(acc: seq<Json>, total: Json, response: Json)
    requires PageStep(acc, total, response).Next?
    ensures var s := PageStep(acc, total, response);
      LessThan(|s.merged|, s.total) == Some(true)
  {
  }

  /**
   * The responses of `script` paginate with total `T`: each page that
   * continues the walk adds at least one new record and carries the total
   * `T`.
   */
  predicate PagesAdd(acc: seq<Json>, total: Json, script: seq<Json>, T: int)
    decreases |script|
  {
    script != [] ==>
      match PageStep(acc, total, script[0])
      case Done(_) => true
      case Next(merged, total') => |acc| < |merged| && total' == JInt(T) && PagesAdd(merged, total', script[1..], T)
  }

  /**
   * The recursion of lines 54-57 is bounded when every page adds a record:
   * starting with `acc`, the walk makes at most `T - |acc|` requests (one
   * when `acc` already reaches `T`), so at most `T` from an empty start,
   * however many responses the API would give.
   */
  lemma {:induction false} WalkBound(p: Process, page: int, acc: seq<Json>, total: Json, script: seq<Json>, T: int)
    requires PagesAdd(acc, total, script, T)
    ensures |Fetch(p, page, acc, total, script).urls| <= if |acc| < T then T - |acc| else 1
    decreases |script|
  {
    if script != [] {
      var s := PageStep(acc, total, script[0]);
      if s.Next? {
        NextBelowTotal(acc, total, script[0]);
        WalkBound(p, page + 1, s.merged, s.total, script[1..], T);
      }
    }
  }

  lemma FirstPage(p: Process, a: Json, page1: Json, rest: seq<Json>)
    requires FlatRecord(a)
    requires page1 == JObj(map["qtdRegistrosTotal" := JInt(2), "listaResultado" := JArr([a])])
    ensures Fetch(p, 1, [], JInt(0), [page1] + rest) == After(MovementsUrl(p, 1), Fetch(p, 2, [a], JInt(2), rest))
  {
    FetchUnfoldAll(p, 1, [], JInt(0), [page1] + rest);
    assert ([page1] + rest)[0] == page1 && ([page1] + rest)[1..] == rest;
    FirstPageStep(a, page1);
  }

  lemma FirstPageStep(a: Json, page1: Json)
    requires FlatRecord(a)
    requires page1 == JObj(map["qtdRegistrosTotal" := JInt(2), "listaResultado" := JArr([a])])
    ensures PageStep([], JInt(0), page1) == Next([a], JInt(2))
  {
    PageFields(page1.fields, JInt(2), [a]);
    SingletonRecords(a);
    assert LessThan(1, JInt(2)) == Some(true);
  }

  /** What `PageStep` reads of a page holding `records` and announcing `total`. */
  lemma PageFields(fields: map<string, Json>, total: Json, records: seq<Json>)
    requires fields == map["qtdRegistrosTotal" := total, "listaResultado" := JArr(records)]
    ensures Get(fields, "qtdRegistrosTotal", JInt(0)) == total
    ensures Get(fields, "listaResultado", JArr([])) == JArr(records)
  {
  }

  lemma SingletonRecords(a: Json)
    requires FlatRecord(a)
    ensures [] + [a] == [a] && AllFlat([a]) && DictValues([a]) == [a]
  {
    assert [a][..0] == [];
  }

  /** Two records with different keys survive the rebuild as they are. */
  lemma DictValuesPair(a: Json, b: Json)
    requires KeyOf(a) != KeyOf(b)
    ensures DictValues([a, b]) == [a, b]
  {
    assert DictValues([a]) == [a] by {
      assert [a][..0] == [];
      assert SlotOf([], KeyOf(a)) == -1;
    }
    assert SlotOf([a], KeyOf(b)) == -1 by {
      assert [a][1..] == [];
    }
    assert [a, b][..1] == [a];
  }

  lemma LastPageStep(a: Json, b: Json, page2: Json)
    requires FlatRecord(a) && FlatRecord(b) && KeyOf(a) != KeyOf(b)
    requires page2 == JObj(map["qtdRegistrosTotal" := JInt(2), "listaResultado" := JArr([b])])
    ensures PageStep([a], JInt(2), page2) == Done(Success([a, b]))
  {
    PageFields(page2.fields, JInt(2), [b]);
    PairRecords(a, b);
    assert LessThan(2, JInt(2)) == Some(false);
  }

  lemma PairRecords(a: Json, b: Json)
    requires FlatRecord(a) && FlatRecord(b) && KeyOf(a) != KeyOf(b)
    ensures [a] + [b] == [a, b] && AllFlat([a, b]) && DictValues([a, b]) == [a, b]
  {
    DictValuesPair(a, b);
  }

  lemma LastPage(p: Process, a: Json, b: Json, page2: Json)
    requires FlatRecord(a) && FlatRecord(b) && KeyOf(a) != KeyOf(b)
    requires page2 == JObj(map["qtdRegistrosTotal" := JInt(2), "listaResultado" := JArr([b])])
    ensures Fetch(p, 2, [a], JInt(2), [page2]) == Run(Success([a, b]), [], [MovementsUrl(p, 2)])
  {
    LastPageStep(a, b, page2);
    FetchUnfold(p, 2, [a], JInt(2), [page2]);
    assert [page2][1..] == [];
  }

  /**
   * Two pages of one new record each, both announcing a total of 2: two
   * requests, for pages 1 and 2, and both records, in order.
   */
  lemma TwoPages(p: Process, a: Json, b: Json)
    requires FlatRecord(a) && FlatRecord(b) && KeyOf(a) != KeyOf(b)
    ensures var page1 := JObj(map["qtdRegistrosTotal" := JInt(2), "listaResultado" := JArr([a])]);
      var page2 := JObj(map["qtdRegistrosTotal" := JInt(2), "listaResultado" := JArr([b])]);
      Fetch(p, 1, [], JInt(0), [page1, page2]) ==
        Run(Success([a, b]), [], [MovementsUrl(p, 1), MovementsUrl(p, 2)])
  {
    var page1 := JObj(map["qtdRegistrosTotal" := JInt(2), "listaResultado" := JArr([a])]);
    var page2 := JObj(map["qtdRegistrosTotal" := JInt(2), "listaResultado" := JArr([b])]);
    assert [page1, page2] == [page1] + [page2];
    FirstPage(p, a, page1, [page2]);
    LastPage(p, a, b, page2);
  }

  // ---------------------------------------------------------------------------
  // The dict of line 53

  /**
   * A Python dict in insertion order: `order` lists its keys, `dict` maps
   * them to their records, and `entries` is the list of its values.
   */
  predicate DictRepr(order: seq<Key>, dict: map<Key, Json>, entries: seq<Json>)
  {
    OrderOf(order, entries) && Holds(order, dict, entries) && Covered(order, dict)
  }

  /** `order` lists the keys of `entries`, in order. */
  predicate OrderOf(order: seq<Key>, entries: seq<Json>)
  {
    |order| == |entries| && forall j :: 0 <= j < |entries| ==> order[j] == KeyOf(entries[j])
  }

  /** The dict maps each listed key to its entry. */
  predicate Holds(order: seq<Key>, dict: map<Key, Json>, entries: seq<Json>)
    requires |order| == |entries|
  {
    forall j :: 0 <= j < |entries| ==> order[j] in dict && dict[order[j]] == entries[j]
  }

  /** Every key of the dict is listed. */
  predicate Covered(order: seq<Key>, dict: map<Key, Json>)
  {
    forall k :: k in dict ==> k in order
  }

  /** `d[key(x)] = x` for a key already in the dict replaces its record in place. */
  lemma DictReprReplace(order: seq<Key>, dict: map<Key, Json>, entries: seq<Json>, x: Json)
    requires DictRepr(order, dict, entries) && DistinctKeys(entries) && KeyOf(x) in dict
    ensures DictRepr(order, dict[KeyOf(x) := x], Upsert(entries, x))
  {
    var k := KeyOf(x);
    var slot := SlotOf(entries, k);
    assert slot != -1 by {
      var j :| 0 <= j < |order| && order[j] == k;
      assert KeyOf(entries[j]) == k;
    }
    assert Upsert(entries, x) == entries[slot := x];
    OrderReplace(order, entries, slot, x);
    HoldsReplace(order, dict, entries, slot, x);
  }

  lemma OrderReplace(order: seq<Key>, entries: seq<Json>, slot: int, x: Json)
    requires OrderOf(order, entries) && 0 <= slot < |entries| && KeyOf(entries[slot]) == KeyOf(x)
    ensures OrderOf(order, entries[slot := x])
  {
  }

  lemma HoldsReplace(order: seq<Key>, dict: map<Key, Json>, entries: seq<Json>, slot: int, x: Json)
    requires OrderOf(order, entries) && Holds(order, dict, entries) && DistinctKeys(entries)
    requires 0 <= slot < |entries| && KeyOf(entries[slot]) == KeyOf(x)
    ensures Holds(order, dict[KeyOf(x) := x], entries[slot := x])
  {
    var dict', entries' := dict[KeyOf(x) := x], entries[slot := x];
    forall j | 0 <= j < |entries'|
      ensures order[j] in dict' && dict'[order[j]] == entries'[j]
    {
      if j != slot {
        assert order[j] == KeyOf(entries[j]) != KeyOf(entries[slot]);
      }
    }
  }

  /** `d[key(x)] = x` for a new key appends it. */
  lemma DictReprAppend(order: seq<Key>, dict: map<Key, Json>, entries: seq<Json>, x: Json)
    requires DictRepr(order, dict, entries) && KeyOf(x) !in dict
    ensures DictRepr(order + [KeyOf(x)], dict[KeyOf(x) := x], Upsert(entries, x))
  {
    var k := KeyOf(x);
    assert k !in KeysOf(entries) by {
      forall j | 0 <= j < |entries| ensures KeyOf(entries[j]) != k {
        assert order[j] in dict;
      }
    }
    assert Upsert(entries, x) == entries + [x];
    HoldsAppend(order, dict, entries, x);
  }

  lemma HoldsAppend(order: seq<Key>, dict: map<Key, Json>, entries: seq<Json>, x: Json)
    requires OrderOf(order, entries) && Holds(order, dict, entries) && KeyOf(x) !in dict
    ensures Holds(order + [KeyOf(x)], dict[KeyOf(x) := x], entries + [x])
  {
    var order', dict', entries' := order + [KeyOf(x)], dict[KeyOf(x) := x], entries + [x];
    forall j | 0 <= j < |entries'|
      ensures order'[j] in dict' && dict'[order'[j]] == entries'[j]
    {
      if j < |entries| {
        assert order'[j] == order[j] && entries'[j] == entries[j];
      }
    }
  }

  // ---------------------------------------------------------------------------
  // The service

  class MovementService {
    const api: ApiClient

    constructor (api: ApiClient)
      ensures this.api == api
    {
      this.api := api;
    }

    /** `list({frozenset(i.items()): i for i in result}.values())`. */
    static method RebuildByItems(records: seq<Json>) returns (values: seq<Json>)
      ensures values == DictValues(records)
    {
      var order: seq<Key> := [];
      var dict: map<Key, Json> := map[];
      ghost var entries: seq<Json> := [];
      for i := 0 to |records|
        invariant entries == DictValues(records[..i])
        invariant DictRepr(order, dict, entries)
      {
        var x := records[i];
        var k := KeyOf(x);
        assert records[..i + 1][..i] == records[..i];
        DictValuesDistinct(records[..i]);
        if k !in dict {
          DictReprAppend(order, dict, entries, x);
          order := order + [k];
        } else {
          DictReprReplace(order, dict, entries, x);
        }
        dict := dict[k := x];
        entries := Upsert(entries, x);
      }
      assert records[..|records|] == records;
      values := seq(|order|, j requires 0 <= j < |order| => dict[order[j]]);
      assert values == entries;
    }

    /**
     * Lines 46-57: what one response does to the walk, computed step by
     * step and proved to be `PageStep`, whose meaning `PageMerged` and
     * `WalkBound` state.
     */
    static method HandlePage(acc: seq<Json>, total: Json, response: Json) returns (s: Step)
      ensures s == PageStep(acc, total, response)
    {
      if response == JArr([]) {
        return Done(Success(acc));
      }
      if !response.JObj? {
        return Done(Failure(MalformedResponse));
      }
      var total' := if Truthy(total) then total else Get(response.fields, "qtdRegistrosTotal", JInt(0));
      var pageResult := Get(response.fields, "listaResultado", JArr([]));
      if !Truthy(pageResult) {
        return Done(Success(acc));
      }
      var items := Elements(pageResult);
      if items.None? || !AllFlat(acc + items.value) {
        return Done(Failure(MalformedResponse));
      }
      var merged := RebuildByItems(acc + items.value);
      var below := LessThan(|merged|, total');
      if below.None? {
        return Done(Failure(MalformedResponse));
      }
      if !below.value {
        return Done(Success(merged));
      }
      return Next(merged, total');
    }

    /** `__fetch_movements__`: the walk over the pages from `page` on. */
    method FetchMovements(p: Process, page: int, acc: seq<Json>, total: Json) returns (r: Result<seq<Json>, Error>)
      modifies api
      ensures var run := Fetch(p, page, acc, total, old(api.script));
        r == run.outcome && api.script == run.rest && api.requested == old(api.requested) + run.urls
      decreases |api.script|, 0
    {
      var url := MovementsUrl(p, page);
      FetchUnfoldAll(p, page, acc, total, api.script);
      var got := api.Get(url);
      if got.Failure? {
        r := Failure(got.error);
      } else {
        var step := HandlePage(acc, total, got.value);
        ghost var tail := Continue(p, page, step, api.script);
        r := ContinueWalk(p, page, step);
        Associative(old(api.requested), [url], tail.urls);
      }
    }

    /** Lines 55-57 once a response is handled: stop, or walk on from the next page. */
    method ContinueWalk(p: Process, page: int, step: Step) returns (r: Result<seq<Json>, Error>)
      modifies api
      ensures var run := Continue(p, page, step, old(api.script));
        r == run.outcome && api.script == run.rest && api.requested == old(api.requested) + run.urls
      decreases |api.script|, 1
    {
      if step.Done? {
        r := step.outcome;
        assert api.requested == old(api.requested) + [];
      } else {
        r := FetchMovements(p, page + 1, step.merged, step.total);
      }
    }

    /** Lines 25-29: `Movement.from_dict` of each record, in order. */
    static method ToMovements(records: seq<Json>) returns (ms: seq<Movement>)
      requires AllFlat(records)
      ensures ms == MovementsOf(records)
    {
      ms := [];
      for i := 0 to |records|
        invariant ms == MovementsOf(records[..i])
      {
        assert records[..i + 1] == records[..i] + [records[i]];
        ms := ms + [MovementFromDict(records[i].fields)];
      }
      assert records[..|records|] == records;
    }

    /** `get_movements(process)`: one movement per record gathered, in order. */
    method GetMovements(p: Process) returns (r: Result<seq<Movement>, Error>)
      modifies api
      ensures var run := Collect(p, old(api.script));
        r == run.outcome && api.script == run.rest && api.requested == old(api.requested) + run.urls
    {
      FetchRecords(p, 1, [], JInt(0), api.script);
      var raw := FetchMovements(p, 1, [], JInt(0));
      if raw.Failure? {
        r := Failure(raw.error);
      } else {
        var ms := ToMovements(raw.value);
        r := Success(ms);
      }
    }
  }
}
