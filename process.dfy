/**
 * A legal process (models/process.py): its identifying numbers, its
 * descriptive fields, its parties and its movements, with the conversions
 * from the raw API record and to the export dictionaries and strings.
 */
module ProcessModel {
  import opened Wrappers
  import opened JsonValue
  import opened Text
  import opened PartyModel
  import opened MovementModel
  import opened Sequences

  datatype Process = Process(
    formattedNumber: Json,
    number: Json,
    processClass: Json,
    topic: Json,
    cdDocProcess: Json,
    cdInstance: Json,
    parties: seq<Party>,
    movements: seq<Movement>,
    jurisdiction: Json,
    competence: Json,
    instance: Json,
    situation: Json,
    court: Json,
    policeInquiry: Json,
    causeValue: Json,
    citationDate: Json,
    justiceSecret: Json,
    distributionDate: Json)

  // ---------------------------------------------------------------------------
  // from_dict (lines 97-125)

  /** A raw party: an object that has both `nome` and `tipo`. */
  predicate IsRawParty(j: Json)
  {
    j.JObj? && "nome" in j.fields && "tipo" in j.fields
  }

  function PartyOfRaw(j: Json): Party
    requires IsRawParty(j)
  {
    Party(j.fields["nome"], j.fields["tipo"])
  }

  /**
   * `[Party(name=party["nome"], party_type=party["tipo"]) for party in v]`.
   * A list of raw parties gives one party per element, in order. Iterating
   * an empty string or an empty object gives no party. Anything else raises:
   * an element without `nome` or `tipo`, an element that is not an object, a
   * non-empty string or object, or a value that cannot be iterated.
   */
  function PartiesOf(v: Json): (r: Option<seq<Party>>)
    ensures v.JArr? ==> (r.Some? <==> forall i :: 0 <= i < |v.items| ==> IsRawParty(v.items[i]))
    ensures v.JArr? && r.Some? ==>
      |r.value| == |v.items| &&
      forall i :: 0 <= i < |v.items| ==> r.value[i] == Party(v.items[i].fields["nome"], v.items[i].fields["tipo"])
    ensures !v.JArr? ==> (r == Some([]) <==> v == JStr("") || v == JObj(map[])) && (r.Some? ==> r == Some([]))
  {
    match v
    case JArr(items) =>
      if forall i :: 0 <= i < |items| ==> IsRawParty(items[i]) then
        Some(seq(|items|, i requires 0 <= i < |items| => PartyOfRaw(items[i])))
      else None
    case JStr(s) => if s == "" then Some([]) else None
    case JObj(m) => if m == map[] then Some([]) else None
    case _ => None
  }

  /**
   * `Process.from_dict(data)`, or `None` when building the parties raises.
   * A missing `partes` is an empty list; the movements always start empty.
   */
  function ProcessFromDict(data: map<string, Json>): (r: Option<Process>)
    ensures r.Some? <==> PartiesOf(Get(data, "partes", JArr([]))).Some?
    ensures r.Some? ==> r.value.parties == PartiesOf(Get(data, "partes", JArr([]))).value
    ensures r.Some? ==> r.value.movements == []
  {
    var parties := PartiesOf(Get(data, "partes", JArr([])));
    if parties.None? then None
    else
      Some(Process(
        formattedNumber := Get(data, "numeroFormatado", JNull),
        number := Get(data, "numero", JNull),
        processClass := Get(data, "classe", JNull),
        topic := Get(data, "assunto", JNull),
        cdDocProcess := Get(data, "cdDocProcesso", JNull),
        cdInstance := Get(data, "cdInstancia", JNull),
        parties := parties.value,
        movements := [],
        jurisdiction := Get(data, "comarca", JStr("")),
        competence := Get(data, "competencia", JStr("")),
        instance := Get(data, "instancia", JStr("")),
        situation := Get(data, "situacao", JStr("")),
        court := Get(data, "vara", JStr("")),
        policeInquiry := Get(data, "numeroInqueritoPolicial", JStr("")),
        causeValue := Get(data, "valorCausaFormatado", JStr("")),
        citationDate := Get(data, "dataAutuacaoFormatada", JStr("")),
        justiceSecret := Get(data, "segredoJustica", JStr("")),
        distributionDate := Get(data, "dataDistribuicaoFormatada", JNull)))
  }

  // ---------------------------------------------------------------------------
  // to_dict (lines 74-95)

  function PartyDicts(ps: seq<Party>): (r: seq<Json>)
    ensures |r| == |ps| && forall i :: 0 <= i < |ps| ==> r[i] == JObj(PartyToDict(ps[i]))
  {
    seq(|ps|, i requires 0 <= i < |ps| => JObj(PartyToDict(ps[i])))
  }

  function MovementDicts(ms: seq<Movement>): (r: seq<Json>)
    ensures |r| == |ms| && forall i :: 0 <= i < |ms| ==> r[i] == JObj(MovementToDict(ms[i]))
  {
    seq(|ms|, i requires 0 <= i < |ms| => JObj(MovementToDict(ms[i])))
  }

  /** `process.to_dict()`: sixteen fields under English keys, then the parties and movements. */
  function ProcessToDict(p: Process): map<string, Json>
  {
    map[
      "number" := p.number,
      "formatted_number" := p.formattedNumber,
      "class" := p.processClass,
      "topic" := p.topic,
      "jurisdiction" := p.jurisdiction,
      "competence" := p.competence,
      "cd_doc_process" := p.cdDocProcess,
      "instance" := p.instance,
      "cd_instance" := p.cdInstance,
      "situation" := p.situation,
      "court" := p.court,
      "police_inquiry" := p.policeInquiry,
      "cause_value" := p.causeValue,
      "citation_date" := p.citationDate,
      "justice_secret" := p.justiceSecret,
      "distribution_date" := p.distributionDate,
      "parties" := JArr(PartyDicts(p.parties)),
      "movements" := JArr(MovementDicts(p.movements))]
  }

  /** Reads a list of party export dictionaries back. */
  function PartiesOfExport(v: Json): (r: Option<seq<Party>>)
    ensures r.Some? ==> v.JArr? && |r.value| == |v.items|
  {
    if v.JArr? && forall i :: 0 <= i < |v.items| ==> v.items[i].JObj? && PartyOfExport(v.items[i].fields).Some? then
      Some(seq(|v.items|, i requires 0 <= i < |v.items| => PartyOfExport(v.items[i].fields).value))
    else None
  }

  /** Reads a list of movement export dictionaries back. */
  function MovementsOfExport(v: Json): (r: Option<seq<Movement>>)
    ensures r.Some? ==> v.JArr? && |r.value| == |v.items|
  {
    if v.JArr? && forall i :: 0 <= i < |v.items| ==> v.items[i].JObj? && MovementOfExport(v.items[i].fields).Some? then
      Some(seq(|v.items|, i requires 0 <= i < |v.items| => MovementOfExport(v.items[i].fields).value))
    else None
  }

  lemma PartiesExportRoundTrip(ps: seq<Party>)
    ensures PartiesOfExport(JArr(PartyDicts(ps))) == Some(ps)
  {
    var v := PartyDicts(ps);
    forall i | 0 <= i < |ps| ensures v[i].JObj? && PartyOfExport(v[i].fields) == Some(ps[i]) {
      PartyExportRoundTrip(ps[i]);
    }
    var r := PartiesOfExport(JArr(v));
    assert r.Some?;
    assert forall i :: 0 <= i < |ps| ==> r.value[i] == ps[i];
    assert r.value == ps;
  }

  lemma MovementsExportRoundTrip(ms: seq<Movement>)
    ensures MovementsOfExport(JArr(MovementDicts(ms))) == Some(ms)
  {
    var v := MovementDicts(ms);
    forall i | 0 <= i < |ms| ensures v[i].JObj? && MovementOfExport(v[i].fields) == Some(ms[i]) {
      MovementExportRoundTrip(ms[i]);
    }
    var r := MovementsOfExport(JArr(v));
    assert r.Some?;
    assert forall i :: 0 <= i < |ms| ==> r.value[i] == ms[i];
    assert r.value == ms;
  }

  /** Every key `to_dict` writes. */
  predicate HasExportKeys(d: map<string, Json>)
  {
    "number" in d && "formatted_number" in d && "class" in d && "topic" in d &&
    "jurisdiction" in d && "competence" in d && "cd_doc_process" in d && "instance" in d &&
    "cd_instance" in d && "situation" in d && "court" in d && "police_inquiry" in d &&
    "cause_value" in d && "citation_date" in d && "justice_secret" in d &&
    "distribution_date" in d && "parties" in d && "movements" in d
  }

  /** Reads a process back from its export dictionary. */
  function ProcessOfExport(d: map<string, Json>): Option<Process>
  {
    if HasExportKeys(d) && PartiesOfExport(d["parties"]).Some? && MovementsOfExport(d["movements"]).Some? then
      Some(Process(
        formattedNumber := d["formatted_number"],
        number := d["number"],
        processClass := d["class"],
        topic := d["topic"],
        cdDocProcess := d["cd_doc_process"],
        cdInstance := d["cd_instance"],
        parties := PartiesOfExport(d["parties"]).value,
        movements := MovementsOfExport(d["movements"]).value,
        jurisdiction := d["jurisdiction"],
        competence := d["competence"],
        instance := d["instance"],
        situation := d["situation"],
        court := d["court"],
        policeInquiry := d["police_inquiry"],
        causeValue := d["cause_value"],
        citationDate := d["citation_date"],
        justiceSecret := d["justice_secret"],
        distributionDate := d["distribution_date"]))
    else None
  }

  /**
   * `to_dict` loses nothing: every field, and the parties and movements with
   * their number and order, can be read back from the export dictionary.
   */
  lemma ProcessExportRoundTrip(p: Process)
    ensures ProcessOfExport(ProcessToDict(p)) == Some(p)
  {
    var d := ProcessToDict(p);
    assert HasExportKeys(d);
    PartiesExportRoundTrip(p.parties);
    MovementsExportRoundTrip(p.movements);
  }

  /** The key under which `to_dict` writes each field. */
  lemma ExportedFields(p: Process)
    ensures var d := ProcessToDict(p);
      d["number"] == p.number && d["formatted_number"] == p.formattedNumber &&
      d["class"] == p.processClass && d["topic"] == p.topic &&
      d["cd_doc_process"] == p.cdDocProcess && d["cd_instance"] == p.cdInstance &&
      d["distribution_date"] == p.distributionDate &&
      d["jurisdiction"] == p.jurisdiction && d["competence"] == p.competence &&
      d["instance"] == p.instance && d["situation"] == p.situation && d["court"] == p.court &&
      d["police_inquiry"] == p.policeInquiry && d["cause_value"] == p.causeValue &&
      d["citation_date"] == p.citationDate && d["justice_secret"] == p.justiceSecret &&
      d["parties"] == JArr(PartyDicts(p.parties)) && d["movements"] == JArr(MovementDicts(p.movements))
  {
    ProcessExportRoundTrip(p);
  }

  /**
   * Importing a raw record and exporting it: the identifying fields are the
   * raw values under their Portuguese keys, or `None` when absent ...
   */
  lemma IdentifiersImportExport(data: map<string, Json>)
    requires ProcessFromDict(data).Some?
    ensures var d := ProcessToDict(ProcessFromDict(data).value);
      d["number"] == Get(data, "numero", JNull) &&
      d["formatted_number"] == Get(data, "numeroFormatado", JNull) &&
      d["class"] == Get(data, "classe", JNull) &&
      d["topic"] == Get(data, "assunto", JNull) &&
      d["cd_doc_process"] == Get(data, "cdDocProcesso", JNull) &&
      d["cd_instance"] == Get(data, "cdInstancia", JNull) &&
      d["distribution_date"] == Get(data, "dataDistribuicaoFormatada", JNull)
  {
    var p := ProcessFromDict(data).value;
    ExportedFields(p);
  }

  /**
   * ... the descriptive fields are the raw values, or `""` when absent, and
   * the movements are empty ...
   */
  lemma DescriptionsImportExport(data: map<string, Json>)
    requires ProcessFromDict(data).Some?
    ensures var d := ProcessToDict(ProcessFromDict(data).value);
      d["jurisdiction"] == Get(data, "comarca", JStr("")) &&
      d["competence"] == Get(data, "competencia", JStr("")) &&
      d["instance"] == Get(data, "instancia", JStr("")) &&
      d["situation"] == Get(data, "situacao", JStr("")) &&
      d["court"] == Get(data, "vara", JStr("")) &&
      d["police_inquiry"] == Get(data, "numeroInqueritoPolicial", JStr("")) &&
      d["cause_value"] == Get(data, "valorCausaFormatado", JStr("")) &&
      d["citation_date"] == Get(data, "dataAutuacaoFormatada", JStr("")) &&
      d["justice_secret"] == Get(data, "segredoJustica", JStr("")) &&
      d["movements"] == JArr([])
  {
    var p := ProcessFromDict(data).value;
    ExportedFields(p);
  }

  /**
   * ... and the exported parties are `{"name": nome, "type": tipo}` for each
   * raw party, in order.
   */
  lemma PartiesImportExport(data: map<string, Json>)
    requires ProcessFromDict(data).Some? && Get(data, "partes", JArr([])).JArr?
    ensures var raw := Get(data, "partes", JArr([])).items;
      var exported := ProcessToDict(ProcessFromDict(data).value)["parties"].items;
      |exported| == |raw| &&
      forall i :: 0 <= i < |raw| ==>
        exported[i] == JObj(map["name" := raw[i].fields["nome"], "type" := raw[i].fields["tipo"]])
  {
  }

  // ---------------------------------------------------------------------------
  // __str__ and to_csv_export (lines 35-72)

  function PartyStrings(ps: seq<Party>): (r: seq<string>)
    ensures |r| == |ps| && forall i :: 0 <= i < |ps| ==> r[i] == PartyString(ps[i])
  {
    seq(|ps|, i requires 0 <= i < |ps| => PartyString(ps[i]))
  }

  function MovementStrings(ms: seq<Movement>): (r: seq<string>)
    ensures |r| == |ms| && forall i :: 0 <= i < |ms| ==> r[i] == MovementString(ms[i])
  {
    seq(|ms|, i requires 0 <= i < |ms| => MovementString(ms[i]))
  }

  /** `process.to_csv_export()`: Portuguese column names; parties and movements one per line. */
  function ProcessCsvExport(p: Process): map<string, Json>
  {
    map[
      "Número do Processo" := p.formattedNumber,
      "Classe" := p.processClass,
      "Assunto" := p.topic,
      "Jurisdição" := p.jurisdiction,
      "Competência" := p.competence,
      "Instância" := p.instance,
      "Situação" := p.situation,
      "Órgão Julgador" := p.court,
      "Inquérito Policial" := p.policeInquiry,
      "Valor da Causa" := p.causeValue,
      "Data da Autuação" := p.citationDate,
      "Segredo de Justiça" := p.justiceSecret,
      "Data de Distribuição" := p.distributionDate,
      "Partes" := JStr(Join("\n", PartyStrings(p.parties))),
      "Movimentações" := JStr(Join("\n", MovementStrings(p.movements)))]
  }

  predicate NoNewline(s: string)
  {
    forall k :: 0 <= k < |s| ==> s[k] != '\n'
  }

  /**
   * The CSV "Partes" column holds one line per party, in order: when no
   * party's `str()` spans several lines, splitting the column at newlines
   * gives them back; with no parties the column is empty.
   */
  lemma PartiesCsvLines(p: Process)
    requires forall i :: 0 <= i < |p.parties| ==> NoNewline(PartyString(p.parties[i]))
    ensures p.parties == [] ==> ProcessCsvExport(p)["Partes"] == JStr("")
    ensures p.parties != [] ==> Split(ProcessCsvExport(p)["Partes"].s, '\n') == PartyStrings(p.parties)
  {
    var ps := PartyStrings(p.parties);
    if p.parties != [] {
      assert forall q, k :: q in ps && 0 <= k < |q| ==> q[k] != '\n';
      assert "\n" == ['\n'];
      SplitJoin(ps, '\n');
    }
  }

  /**
   * The CSV "Movimentações" column holds one line per movement, in order:
   * when no movement's `str()` spans several lines, splitting the column at
   * newlines gives them back; with no movements the column is empty.
   */
  lemma MovementsCsvLines(p: Process)
    requires forall i :: 0 <= i < |p.movements| ==> NoNewline(MovementString(p.movements[i]))
    ensures p.movements == [] ==> ProcessCsvExport(p)["Movimentações"] == JStr("")
    ensures p.movements != [] ==> Split(ProcessCsvExport(p)["Movimentações"].s, '\n') == MovementStrings(p.movements)
  {
    var ms := MovementStrings(p.movements);
    if p.movements != [] {
      assert forall q, k :: q in ms && 0 <= k < |q| ==> q[k] != '\n';
      assert "\n" == ['\n'];
      SplitJoin(ms, '\n');
    }
  }

  /** The comma-separated pieces of `str(process)`: each field with its label, then the counts. */
  function ProcessStringParts(p: Process): seq<string>
  {
    ["Processo " + Display(p.formattedNumber),
     "Classe: " + Display(p.processClass),
     "Assunto: " + Display(p.topic),
     "Jurisdição: " + Display(p.jurisdiction),
     "Competência: " + Display(p.competence),
     "Instância: " + Display(p.instance),
     "Situação: " + Display(p.situation),
     "Órgão Julgador: " + Display(p.court),
     "Inquérito Policial: " + Display(p.policeInquiry),
     "Valor da Causa: " + Display(p.causeValue),
     "Data da Autuação: " + Display(p.citationDate),
     "Segredo de Justiça: " + Display(p.justiceSecret),
     "Distribuído em " + Display(p.distributionDate),
     "Partes: " + NatToString(|p.parties|),
     "Movimentações: " + NatToString(|p.movements|)]
  }

  /** `str(process)`. */
  function ProcessString(p: Process): string
  {
    Join(", ", ProcessStringParts(p))
  }

  /** `str(process)` starts with `Processo` and the formatted number. */
  lemma ProcessStringNumber(p: Process)
    ensures SliceAt(ProcessString(p), "Processo ", 0)
    ensures SliceAt(ProcessString(p), Display(p.formattedNumber), 9)
  {
    var parts := ProcessStringParts(p);
    var s := ProcessString(p);
    var first := "Processo " + Display(p.formattedNumber);
    assert s == first + ", " + Join(", ", parts[1..]);
    assert s[..9] == first[..9];
    assert s[9..9 + |Display(p.formattedNumber)|] == first[9..];
  }

  /**
   * `str(process)` ends with the number of parties and the number of
   * movements in decimal, and the last number reads back as the count.
   */
  lemma ProcessStringCounts(p: Process)
    ensures var s := ProcessString(p);
      var m := NatToString(|p.movements|);
      var tail := "Partes: " + NatToString(|p.parties|) + ", Movimentações: " + m;
      |tail| <= |s| && s[|s| - |tail|..] == tail &&
      DigitsValue(s[|s| - |m|..]) == |p.movements|
  {
    var s := ProcessString(p);
    var head := Join(", ", ProcessStringParts(p)[..13]);
    var n, m := NatToString(|p.parties|), NatToString(|p.movements|);
    assert s == head + ", " + ("Partes: " + n) + ", " + ("Movimentações: " + m) by {
      ProcessStringEnd(p);
    }
    assert (forall i :: 0 <= i < |m| ==> IsDigit(m[i])) && DigitsValue(m) == |p.movements| by {
      NatToStringRoundTrip(|p.movements|);
    }
    EndsWithCounts(s, head, n, m, |p.movements|);
  }

  /** A string that ends with the two counts, as `str(process)` does. */
  lemma EndsWithCounts(s: string, head: string, n: string, m: string, k: nat)
    requires forall i :: 0 <= i < |m| ==> IsDigit(m[i])
    requires DigitsValue(m) == k
    requires s == head + ", " + ("Partes: " + n) + ", " + ("Movimentações: " + m)
    ensures var tail := "Partes: " + n + ", Movimentações: " + m;
      |tail| <= |s| && s[|s| - |tail|..] == tail &&
      DigitsValue(s[|s| - |m|..]) == k
  {
    var tail := "Partes: " + n + ", Movimentações: " + m;
    CountsGlue(head, n, m);
    Suffix(head + ", ", tail);
    Suffix("Partes: " + n + ", Movimentações: ", m);
    SuffixOfSuffix(s, tail, m);
  }

  /** The last two parts of `str(process)`, after the first thirteen. */
  lemma ProcessStringEnd(p: Process)
    ensures ProcessString(p) == Join(", ", ProcessStringParts(p)[..13]) + ", " +
      ("Partes: " + NatToString(|p.parties|)) + ", " + ("Movimentações: " + NatToString(|p.movements|))
  {
    var parts := ProcessStringParts(p);
    var a := parts[13];
    var b := parts[14];
    assert parts == parts[..13] + [a] + [b];
    JoinSnoc(", ", parts[..13], a);
    JoinSnoc(", ", parts[..13] + [a], b);
  }

  lemma CountsGlue(head: string, n: string, m: string)
    ensures head + ", " + ("Partes: " + n) + ", " + ("Movimentações: " + m) ==
      (head + ", ") + ("Partes: " + n + ", Movimentações: " + m)
  {
    assert ", " + "Movimentações: " == ", Movimentações: ";
  }
}
