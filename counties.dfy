/** The county reference data and its lookup by name. */
module Counties {

  import opened Options

  /** One county record of the reference data. */
  datatype County = County(name: string, code: string, capital: string, subCounties: seq<string>)

  /** Index `i` holds the first county whose name is exactly `name`
      (ordinal comparison: case and every character count). */
  ghost predicate IsFirstMatch(counties: seq<County>, name: string, i: int)
  {
    && 0 <= i < |counties|
    && counties[i].name == name
    && forall j :: 0 <= j < i ==> counties[j].name != name
  }

  /** The position of the first county named `name`, or None when no county has that name. */
  function FirstIndex(counties: seq<County>, name: string): (r: Option<nat>)
    ensures r.None? <==> forall i :: 0 <= i < |counties| ==> counties[i].name != name
    ensures r.Some? ==> IsFirstMatch(counties, name, r.value)
  {
    if |counties| == 0 then None
    else if counties[0].name == name then Some(0)
    else
      match FirstIndex(counties[1..], name)
      case None => None
      case Some(k) => Some(k + 1)
  }

  /** `Counties.FirstOrDefault(c => c.Name == name)`: the first county with that
      name, or None where the source gets `null`. */
  function FindByName(counties: seq<County>, name: string): (r: Option<County>)
    ensures r.None? <==> forall i :: 0 <= i < |counties| ==> counties[i].name != name
    ensures r.Some? ==> exists i :: IsFirstMatch(counties, name, i) && counties[i] == r.value
  {
    match FirstIndex(counties, name)
    case None => None
    case Some(i) => Some(counties[i])
  }

  /** There is at most one first match, so the county found is the one at that index. */
  lemma FirstMatchIsFound(counties: seq<County>, name: string, i: int)
    requires IsFirstMatch(counties, name, i)
    ensures FindByName(counties, name) == Some(counties[i])
  {
  }
}
