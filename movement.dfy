/**
 * A movement (an event) of a legal process (models/movement.py): its
 * formatted date and its description, as the API gave them.
 */
module MovementModel {
  import opened Wrappers
  import opened JsonValue
  import opened Text

  datatype Movement = Movement(date: Json, description: Json)

  /** `str(movement)`: the date, a colon and a space, then the description. */
  function MovementString(m: Movement): string
  {
    Display(m.date) + ": " + Display(m.description)
  }

  /** `movement.to_dict()`: the export dictionary. */
  function MovementToDict(m: Movement): (d: map<string, Json>)
    ensures d.Keys == {"date", "description"}
    ensures d["date"] == m.date && d["description"] == m.description
  {
    map["date" := m.date, "description" := m.description]
  }

  /**
   * `Movement.from_dict(data)`: the date from `dataFormatada` and the
   * description from `descricao`, each `None` when its key is absent.
   */
  function MovementFromDict(data: map<string, Json>): (m: Movement)
    ensures "dataFormatada" !in data ==> m.date == JNull
    ensures "descricao" !in data ==> m.description == JNull
  {
    Movement(Get(data, "dataFormatada", JNull), Get(data, "descricao", JNull))
  }

  /** Reading a raw movement and exporting it renames the two keys and keeps their values. */
  lemma MovementImportExport(data: map<string, Json>)
    requires "dataFormatada" in data && "descricao" in data
    ensures MovementToDict(MovementFromDict(data)) ==
      map["date" := data["dataFormatada"], "description" := data["descricao"]]
  {
  }

  /** Reads a movement back from an export dictionary. */
  function MovementOfExport(d: map<string, Json>): (r: Option<Movement>)
    ensures r.Some? <==> "date" in d && "description" in d
  {
    if "date" in d && "description" in d then Some(Movement(d["date"], d["description"])) else None
  }

  /** Exporting loses nothing: the movement can be read back from its dictionary. */
  lemma MovementExportRoundTrip(m: Movement)
    ensures MovementOfExport(MovementToDict(m)) == Some(m)
  {
  }

  /** Reads `date: description` back, splitting at the first `:`. */
  function ParseMovementString(s: string): Option<(string, string)>
  {
    var i := IndexOf(s, ':');
    if i + 1 < |s| && s[i + 1] == ' ' then Some((s[..i], s[i + 2..])) else None
  }

  /**
   * When the date holds no `:` (dates are `dd/mm/yyyy`), the date and the
   * description can be read back from `str(movement)`.
   */
  lemma MovementStringRoundTrip(m: Movement)
    requires forall k :: 0 <= k < |Display(m.date)| ==> Display(m.date)[k] != ':'
    ensures ParseMovementString(MovementString(m)) == Some((Display(m.date), Display(m.description)))
  {
    var d := Display(m.date);
    var e := Display(m.description);
    var s := MovementString(m);
    assert s == d + ": " + e;
    assert s[|d|] == ':';
    assert forall k :: 0 <= k < |d| ==> s[k] == d[k];
    assert IndexOf(s, ':') == |d|;
    assert s[..|d|] == d;
    assert s[|d| + 2..] == e;
  }

  lemma MovementExamples()
    ensures MovementString(Movement(JStr("15/03/2026"), JStr("Despacho"))) == "15/03/2026: Despacho"
    ensures MovementFromDict(map[]) == Movement(JNull, JNull)
  {
  }
}
