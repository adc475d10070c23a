/** `Workspace`: a bank account of an organisation, named by a unique `username` and a
    display `name`. Unlike the Boleto, its map constructor is lenient: it reads the two
    keys it knows with `get` and ignores everything else. */
module Workspaces {
  import opened JavaValues

  /** The three-argument constructor `Workspace(username, name, id)` stores its
      arguments as given; `id` is assigned by the server. */
  datatype Workspace = Workspace(username: Option<string>, name: Option<string>, id: Option<string>)

  /** The two keys the map constructor and `create` read. */
  const ReadKeys: set<string> := {"username", "name"}

  /** `Workspace(Map data)`: casts the values under `username` and then `name` to
      String (an absent key reads as null) and leaves `id` null. */
  function FromMap(data: map<string, Value>): (r: Result<Workspace, Exception>)
    ensures r.Success? <==>
      (Lookup(data, "username").Null? || Lookup(data, "username").JString?) &&
      (Lookup(data, "name").Null? || Lookup(data, "name").JString?)
    ensures r.Success? ==>
      && r.value.id.None?
      && Success(r.value.username) == CastString("username", Lookup(data, "username"))
      && Success(r.value.name) == CastString("name", Lookup(data, "name"))
    ensures r.Failure? ==>
      var usernameRejected := CastString("username", Lookup(data, "username")).Failure?;
      r.error == ClassCast(if usernameRejected then "username" else "name")
  {
    var username :- CastString("username", Lookup(data, "username"));
    var name :- CastString("name", Lookup(data, "name"));
    Success(Workspace(username, name, None))
  }

  /** The object `create(workspaceData, user)` hands to `Rest.postSingle`: built with the
      three-argument constructor from the two casts, with a null id. It is the Workspace
      the map constructor would build from the same map. */
  function CreatePayload(workspaceData: map<string, Value>): (r: Result<Workspace, Exception>)
    ensures r == FromMap(workspaceData)
  {
    var username :- CastString("username", Lookup(workspaceData, "username"));
    var name :- CastString("name", Lookup(workspaceData, "name"));
    Success(Workspace(username, name, None))
  }

  /** Setting any key other than `username` and `name` changes nothing: no error, and the
      same Workspace. */
  lemma FromMapIgnoresOtherKeys(data: map<string, Value>, key: string, v: Value)
    requires key !in ReadKeys
    ensures FromMap(data[key := v]) == FromMap(data)
  {
    assert Lookup(data[key := v], "username") == Lookup(data, "username");
    assert Lookup(data[key := v], "name") == Lookup(data, "name");
  }

  /** More generally, only the entries under `username` and `name` matter: the map
      constructor gives the same outcome on the map cut down to those two keys. */
  lemma FromMapReadsOnlyItsKeys(data: map<string, Value>)
    ensures FromMap(data) == FromMap(map k | k in data && k in ReadKeys :: data[k])
  {
    var kept := map k | k in data && k in ReadKeys :: data[k];
    assert Lookup(kept, "username") == Lookup(data, "username");
    assert Lookup(kept, "name") == Lookup(data, "name");
  }

  /** The map holding a Workspace's two client-side fields, a null field as a null value. */
  function FieldMap(w: Workspace): map<string, Value> {
    map["username" := StringValue(w.username), "name" := StringValue(w.name)]
  }


  /** Round trip: the map constructor rebuilds a Workspace from its fields, except the
      id, which it always leaves null. */
  lemma FromMapFieldMap(w: Workspace)
    ensures FromMap(FieldMap(w)) == Success(w.(id := None))
  {
    assert Lookup(FieldMap(w), "username") == StringValue(w.username);
    assert Lookup(FieldMap(w), "name") == StringValue(w.name);
  }
}
