/** The symbol table: every name the compiler meets gets a small integer
    id, handed out in order of first appearance. A map from names to ids
    and a list from ids to names are kept inverse to each other. */
module Symbols {
  import opened Outcome

  /** No name appears twice in the id-to-name list. */
  predicate Distinct(names: seq<string>) {
    forall i, j :: 0 <= i < j < |names| ==> names[i] != names[j]
  }

  /** The id name already has in the list of names. */
  function IndexOf(names: seq<string>, name: string): (i: nat)
    requires name in names
    ensures i < |names| && names[i] == name
    ensures Distinct(names) ==> forall j :: 0 <= j < |names| && names[j] == name ==> j == i
  {
    if names[|names| - 1] == name then |names| - 1
    else IndexOf(names[..|names| - 1], name)
  }

  /** get_or_create_id on the list of names alone: a known name keeps its
      id, a new one is appended and gets the next id. */
  function Intern(names: seq<string>, name: string): (nat, seq<string>) {
    if name in names then (IndexOf(names, name), names) else (|names|, names + [name])
  }

  /** The id returned names the given name, the old names keep their ids,
      the list grows by at most one, and no name is ever duplicated. */
  lemma InternRoundTrip(names: seq<string>, name: string)
    ensures var (id, after) := Intern(names, name);
      id < |after| && after[id] == name && after[..|names|] == names &&
      |after| <= |names| + 1 && (Distinct(names) ==> Distinct(after))
  {
  }

  /** Asking twice for the same name gives the same id and does not grow
      the table. */
  lemma InternIdempotent(names: seq<string>, name: string)
    ensures Distinct(names) ==>
      var (id, after) := Intern(names, name);
      Intern(after, name) == (id, after)
  {
    var (id, after) := Intern(names, name);
    InternRoundTrip(names, name);
    if Distinct(after) {
      assert name in after;
      assert IndexOf(after, name) == id;
    }
  }

  class SymbolTable {
    var nameToId: map<string, nat>
    var idToName: seq<string>

    /** The two fields are inverse bijections between the stored names and
        the ids 0 .. |idToName| - 1. */
    ghost predicate Valid()
      reads this
    {
      (forall n :: n in nameToId ==> nameToId[n] < |idToName| && idToName[nameToId[n]] == n) &&
      (forall i :: 0 <= i < |idToName| ==> idToName[i] in nameToId && nameToId[idToName[i]] == i)
    }

    /** SymbolTable::new: empty. */
    constructor ()
      ensures Valid() && nameToId == map[] && idToName == []
    {
      nameToId := map[];
      idToName := [];
    }

    /** get_or_create_id. */
    method GetOrCreateId(name: string) returns (id: nat)
      requires Valid()
      modifies this
      ensures Valid()
      ensures GetId(name) == Some(id) && GetName(id) == Some(name)
      ensures (id, idToName) == Intern(old(idToName), name)
      ensures old(name in nameToId) ==> id == old(nameToId[name]) && nameToId == old(nameToId)
      ensures !old(name in nameToId) ==> id == old(|idToName|) && nameToId == old(nameToId)[name := id]
    {
      ValidDistinct();
      if name in nameToId {
        id := nameToId[name];
        assert name in idToName;
        assert IndexOf(idToName, name) == id;
      } else {
        id := |idToName|;
        assert name !in idToName;
        idToName := idToName + [name];
        nameToId := nameToId[name := id];
      }
    }

    /** get_id: the id of a stored name, None for any other. */
    function GetId(name: string): (r: Option<nat>)
      requires Valid()
      reads this
      ensures r.Some? <==> name in idToName
      ensures r.Some? ==> r.value < |idToName| && idToName[r.value] == name
    {
      if name in nameToId then Some(nameToId[name]) else None
    }

    /** get_name: the name with the given id, None past the end. */
    function GetName(id: nat): (r: Option<string>)
      requires Valid()
      reads this
      ensures r.None? <==> id >= |idToName|
      ensures r.Some? ==> GetId(r.value) == Some(id)
    {
      if id < |idToName| then Some(idToName[id]) else None
    }

    /** A valid table stores each name once. */
    lemma ValidDistinct()
      requires Valid()
      ensures Distinct(idToName)
    {
      forall i, j | 0 <= i < j < |idToName| ensures idToName[i] != idToName[j] {
        assert nameToId[idToName[i]] == i && nameToId[idToName[j]] == j;
      }
    }
  }
}
