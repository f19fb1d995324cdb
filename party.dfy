/**
 * A party of a legal process (models/party.py): a name and the role the
 * party plays. The fields hold whatever the API gave, so they are JSON
 * values; `str()` of a field is `Display`.
 */
module PartyModel {
  import opened Wrappers
  import opened JsonValue
  import opened Text

  datatype Party = Party(name: Json, partyType: Json)

  /** `str(party)`: the name, then the role in parentheses. */
  function PartyString(p: Party): string
  {
    Display(p.name) + " (" + Display(p.partyType) + ")"
  }

  /** `party.to_dict()`: the export dictionary. */
  function PartyToDict(p: Party): (d: map<string, Json>)
    ensures d.Keys == {"name", "type"}
    ensures d["name"] == p.name && d["type"] == p.partyType
  {
    map["name" := p.name, "type" := p.partyType]
  }

  /** Reads a party back from an export dictionary. */
  function PartyOfExport(d: map<string, Json>): (r: Option<Party>)
    ensures r.Some? <==> "name" in d && "type" in d
  {
    if "name" in d && "type" in d then Some(Party(d["name"], d["type"])) else None
  }

  /** Exporting loses nothing: the party can be read back from its dictionary. */
  lemma PartyExportRoundTrip(p: Party)
    ensures PartyOfExport(PartyToDict(p)) == Some(p)
  {
  }

  /** Reads `name (type)` back, splitting at the last `(`. */
  function ParsePartyString(s: string): Option<(string, string)>
  {
    if |s| >= 3 && s[|s| - 1] == ')' then
      var i := LastIndexOf(s[..|s| - 1], '(');
      if 1 <= i && s[i - 1] == ' ' then Some((s[..i - 1], s[i + 1..|s| - 1])) else None
    else None
  }

  /**
   * When the role holds no `(`, the name and the role can be read back from
   * `str(party)`: the string form is unambiguous.
   */
  lemma PartyStringRoundTrip(p: Party)
    requires forall k :: 0 <= k < |Display(p.partyType)| ==> Display(p.partyType)[k] != '('
    ensures ParsePartyString(PartyString(p)) == Some((Display(p.name), Display(p.partyType)))
  {
    var n := Display(p.name);
    var t := Display(p.partyType);
    var s := PartyString(p);
    assert s == n + " (" + t + ")";
    assert s[..|s| - 1] == n + " (" + t;
    var i := |n| + 1;
    assert s[i] == '(';
    assert LastIndexOf(s[..|s| - 1], '(') == i;
    assert s[..i - 1] == n;
    assert s[i + 1..|s| - 1] == t;
  }

  lemma PartyStringExample()
    ensures PartyString(Party(JStr("Maria Santos"), JStr("Réu"))) == "Maria Santos (Réu)"
  {
  }

  lemma PartyToDictExample()
    ensures PartyToDict(Party(JStr("Pedro Lima"), JStr("Advogado"))) ==
      map["name" := JStr("Pedro Lima"), "type" := JStr("Advogado")]
  {
  }
}
