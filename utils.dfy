/** Renaming an endpoint's parameter->type table into the state-field names
    a binding's `param_map` (state field -> endpoint parameter) chooses. */
module Utils {
  import opened Dicts
  import opened Js

  /** The (value, key) entries `reverse_map` hands to `Object.fromEntries`. */
  function Swapped(strMap: Dict<string>): (es: seq<(string, string)>)
    ensures |es| == |strMap|
    ensures forall i :: 0 <= i < |es| ==> es[i] == (strMap[i].1, strMap[i].0)
  {
    seq(|strMap|, i requires 0 <= i < |strMap| => (strMap[i].1, strMap[i].0))
  }

  /** `reverse_map`: keys and values swapped. */
  function ReverseMap(strMap: Dict<string>): Dict<string>
  {
    FromEntries(Swapped(strMap))
  }

  /** Each value maps back to the LAST key that carries it (a later entry of
      `Object.fromEntries` overwrites an earlier one). */
  lemma ReverseMapLastKeyWins(strMap: Dict<string>, i: nat)
    requires i < |strMap|
    requires forall j :: i < j < |strMap| ==> strMap[j].1 != strMap[i].1
    ensures Get(ReverseMap(strMap), strMap[i].1) == Some(strMap[i].0)
  {
    var es := Swapped(strMap);
    GetSetAll([], es, strMap[i].1);
    LastValueAt(es, i);
  }

  /** A string that is no value of the map has no entry in its reverse. */
  lemma ReverseMapAbsent(strMap: Dict<string>, v: string)
    requires forall j :: 0 <= j < |strMap| ==> strMap[j].1 != v
    ensures Get(ReverseMap(strMap), v) == None
  {
    var es := Swapped(strMap);
    GetSetAll([], es, v);
    LastValueAbsent(es, v);
  }

  /** With distinct values, reversing is an exact swap: every value maps back
      to its own key. */
  lemma ReverseMapInverts(strMap: Dict<string>)
    requires forall i, j :: 0 <= i < j < |strMap| ==> strMap[i].1 != strMap[j].1
    ensures forall i :: 0 <= i < |strMap| ==> Get(ReverseMap(strMap), strMap[i].1) == Some(strMap[i].0)
  {
    forall i | 0 <= i < |strMap| ensures Get(ReverseMap(strMap), strMap[i].1) == Some(strMap[i].0) {
      ReverseMapLastKeyWins(strMap, i);
    }
  }

  /** The name a parameter gets: its reversed entry when that is truthy (a
      non-empty key), its own name otherwise. */
  function LocalName(reversed: Dict<string>, param: string): string
  {
    match Get(reversed, param)
    case Some(k) => if k != "" then k else param
    case None => param
  }

  /** The entries `map_endpoint_types` hands to `Object.fromEntries`: one per
      key of the type table, in its order, each with that key's type. */
  function Renamed(reversed: Dict<string>, typeMap: Dict<Ctor>): (es: Dict<Ctor>)
    ensures |es| == |typeMap|
    ensures forall i :: 0 <= i < |es| ==> es[i] == (LocalName(reversed, typeMap[i].0), typeMap[i].1)
  {
    seq(|typeMap|, i requires 0 <= i < |typeMap| => (LocalName(reversed, typeMap[i].0), typeMap[i].1))
  }

  /** `map_endpoint_types`: a falsy `param_map` returns the type table itself. */
  function MapEndpointTypes(paramMap: Option<Dict<string>>, typeMap: Dict<Ctor>): (r: Dict<Ctor>)
    ensures paramMap.None? ==> r == typeMap
  {
    match paramMap
    case None => typeMap
    case Some(pm) => FromEntries(Renamed(ReverseMap(pm), typeMap))
  }

  /** How one endpoint parameter is named: after the last state field mapped
      onto it, unless that field's name is empty or none is mapped onto it. */
  lemma LocalNameOf(pm: Dict<string>, param: string)
    ensures (forall j :: 0 <= j < |pm| ==> pm[j].1 != param) ==> LocalName(ReverseMap(pm), param) == param
    ensures forall i :: 0 <= i < |pm| && pm[i].1 == param && (forall j :: i < j < |pm| ==> pm[j].1 != param) ==>
              LocalName(ReverseMap(pm), param) == if pm[i].0 != "" then pm[i].0 else param
  {
    if forall j :: 0 <= j < |pm| ==> pm[j].1 != param {
      ReverseMapAbsent(pm, param);
    }
    forall i | 0 <= i < |pm| && pm[i].1 == param && (forall j :: i < j < |pm| ==> pm[j].1 != param)
      ensures LocalName(ReverseMap(pm), param) == if pm[i].0 != "" then pm[i].0 else param
    {
      ReverseMapLastKeyWins(pm, i);
    }
  }

  /** When the local names come out distinct, the result has exactly one entry
      per key of the type table, in the same order, with that key's type. */
  lemma MapEndpointTypesShape(pm: Dict<string>, typeMap: Dict<Ctor>)
    requires UniqueKeys(Renamed(ReverseMap(pm), typeMap))
    ensures var r := MapEndpointTypes(Some(pm), typeMap);
            |r| == |typeMap| &&
            forall i :: 0 <= i < |r| ==> r[i] == (LocalName(ReverseMap(pm), typeMap[i].0), typeMap[i].1)
  {
    FromEntriesUnique(Renamed(ReverseMap(pm), typeMap));
  }

  /** In general each local name ends up with the type of the LAST parameter
      that was renamed to it. */
  lemma MapEndpointTypesGet(pm: Dict<string>, typeMap: Dict<Ctor>, i: nat)
    requires i < |typeMap|
    requires var es := Renamed(ReverseMap(pm), typeMap);
             forall j :: i < j < |es| ==> es[j].0 != es[i].0
    ensures Get(MapEndpointTypes(Some(pm), typeMap), LocalName(ReverseMap(pm), typeMap[i].0)) == Some(typeMap[i].1)
  {
    var es := Renamed(ReverseMap(pm), typeMap);
    GetSetAll([], es, es[i].0);
    LastValueAt(es, i);
  }

  /** An empty `param_map` (a truthy `{}`) renames nothing. */
  lemma EmptyParamMapKeepsTable(typeMap: Dict<Ctor>)
    requires UniqueKeys(typeMap)
    ensures MapEndpointTypes(Some([]), typeMap) == typeMap
  {
    var es := Renamed(ReverseMap([]), typeMap);
    assert ReverseMap([]) == [];
    assert es == typeMap;
    FromEntriesUnique(typeMap);
  }

  /** Two parameters can collapse into one entry: with `{a: "b"}` the
      parameter `a` keeps its name and `b` is renamed to `a`, and the later
      one wins. */
  lemma RenamingCanCollide()
    ensures MapEndpointTypes(Some([("a", "b")]), [("a", Number), ("b", String)]) == [("a", String)]
  {
    var rev := ReverseMap([("a", "b")]);
    assert rev == [("b", "a")];
    assert LocalName(rev, "a") == "a";
    assert LocalName(rev, "b") == "a";
    assert Renamed(rev, [("a", Number), ("b", String)]) == [("a", Number), ("a", String)];
  }

  /** `Nullable`: a matcher factory that names the nullable type. */
  function Nullable(): (name: string)
    ensures name == "nullable"
  {
    "nullable"
  }

  /** `Zero(x)`: a thunk that always returns `x`. */
  function ZeroOf(x: Value): (thunk: () -> Value)
    ensures thunk() == x
  {
    () => x
  }
}
