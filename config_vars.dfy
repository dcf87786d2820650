/**
 * The `heroku_app_config_vars` resource: the `public` and `private` groups
 * of config vars are merged into one map and sent in a single update call.
 * Update and Delete do nothing.
 */
module ConfigVars {
  import opened Wrappers

  /** A config var value as sent to the platform: a `*string`, where nil asks for removal. */
  type Value = Option<string>

  /** A group of config vars, by name. */
  type Vars = map<string, Value>

  // ---------------------------------------------------------------------------
  // Merging

  /** The reference meaning of mergeMaps: a left fold of map union, later maps winning. */
  function Merged(maps: seq<Vars>): (m: Vars)
    ensures |maps| == 0 ==> m == map[]
    ensures |maps| > 0 ==> maps[|maps| - 1].Keys <= m.Keys &&
                           forall k :: k in maps[|maps| - 1] ==> m[k] == maps[|maps| - 1][k]
  {
    if |maps| == 0 then map[] else Merged(maps[..|maps| - 1]) + maps[|maps| - 1]
  }

  /** mergeMaps: copies every pair of every map, in argument order, into a fresh map. */
  method MergeMaps(maps: seq<Vars>) returns (result: Vars)
    ensures result == Merged(maps)
  {
    result := map[];
    var i := 0;
    while i < |maps|
      invariant 0 <= i <= |maps|
      invariant result == Merged(maps[..i])
    {
      var m := maps[i];
      var pending := m.Keys;
      while pending != {}
        invariant pending <= m.Keys
        invariant result.Keys == Merged(maps[..i]).Keys + (m.Keys - pending)
        invariant forall k :: k in m.Keys - pending ==> result[k] == m[k]
        invariant forall k :: k in result && k !in m.Keys - pending ==> result[k] == Merged(maps[..i])[k]
        decreases pending
      {
        var k :| k in pending;
        result := result[k := m[k]];
        pending := pending - {k};
      }
      assert maps[..i + 1][..i] == maps[..i];
      assert result == Merged(maps[..i]) + m;
      i := i + 1;
    }
    assert maps[..i] == maps;
  }

  /** The merged keys are exactly the keys of some input map. */
  lemma {:induction false} MergedKeys(maps: seq<Vars>)
    ensures forall k :: k in Merged(maps) <==> exists i :: 0 <= i < |maps| && k in maps[i]
  {
    if |maps| > 0 {
      var init := maps[..|maps| - 1];
      MergedKeys(init);
      assert forall i :: 0 <= i < |init| ==> init[i] == maps[i];
    }
  }

  /** The value of a key comes from the last map that holds it. */
  lemma {:induction false} LastMapWins(maps: seq<Vars>, i: nat, k: string)
    requires i < |maps| && k in maps[i]
    requires forall j :: i < j < |maps| ==> k !in maps[j]
    ensures k in Merged(maps) && Merged(maps)[k] == maps[i][k]
  {
    if i < |maps| - 1 {
      var init := maps[..|maps| - 1];
      assert forall j :: i < j < |init| ==> init[j] == maps[j];
      LastMapWins(init, i, k);
    }
  }

  /** A key that only one map holds keeps that map's value. */
  lemma OnlyHolderKeepsValue(maps: seq<Vars>, i: nat, k: string)
    requires i < |maps| && k in maps[i]
    requires forall j :: 0 <= j < |maps| && j != i ==> k !in maps[j]
    ensures k in Merged(maps) && Merged(maps)[k] == maps[i][k]
  {
  }

  /** Merging no maps, or only empty ones, gives the empty map. */
  lemma {:induction false} MergeOfEmptiesIsEmpty(maps: seq<Vars>)
    requires forall i :: 0 <= i < |maps| ==> maps[i] == map[]
    ensures Merged(maps) == map[]
  {
    if |maps| > 0 {
      MergeOfEmptiesIsEmpty(maps[..|maps| - 1]);
    }
  }

  /** An empty map anywhere in the argument list changes nothing. */
  lemma {:induction false} EmptyMapIsNeutral(front: seq<Vars>, back: seq<Vars>)
    ensures Merged(front + [map[]] + back) == Merged(front + back)
  {
    if |back| == 0 {
      assert (front + [map[]] + back)[..|front|] == front;
      assert front + back == front;
    } else {
      var s := front + [map[]] + back;
      var t := front + back;
      var rest := back[..|back| - 1];
      assert s[..|s| - 1] == front + [map[]] + rest;
      assert t[..|t| - 1] == front + rest;
      EmptyMapIsNeutral(front, rest);
    }
  }

  /** Repeating the last map changes nothing. */
  lemma RepeatedMapIsAbsorbed(maps: seq<Vars>, m: Vars)
    ensures Merged(maps + [m, m]) == Merged(maps + [m])
  {
    assert (maps + [m, m])[..|maps| + 1] == maps + [m];
    assert (maps + [m])[..|maps|] == maps;
  }

  /** mergeMaps(m, m) == mergeMaps(m) == m. */
  lemma MergeIsIdempotent(m: Vars)
    ensures Merged([m, m]) == Merged([m]) == m
  {
  }

  // ---------------------------------------------------------------------------
  // The resource's inputs

  /** A `public` or `private` group that is not set contributes nothing: a nil map. */
  function GroupOrNil(group: Option<Vars>): (m: Vars)
    ensures group.None? ==> m == map[]
    ensures group.Some? ==> m == group.value
  {
    match group
    case None => map[]
    case Some(vars) => vars
  }

  /** The vars Create sends: `public` merged with `private`. */
  function CreateVars(public: Option<Vars>, private: Option<Vars>): (vars: Vars)
    ensures vars.Keys == GroupOrNil(public).Keys + GroupOrNil(private).Keys
  {
    var maps := [GroupOrNil(public), GroupOrNil(private)];
    assert maps[..1] == [maps[0]] && maps[..1][..0] == [];
    assert Merged(maps) == Merged(maps[..1]) + maps[1] && Merged(maps[..1]) == map[] + maps[0];
    Merged(maps)
  }

  /** A private var overrides a public var of the same name; a public-only var is sent as it is. */
  lemma PrivateOverridesPublic(public: Option<Vars>, private: Option<Vars>, k: string)
    ensures k in CreateVars(public, private) <==> k in GroupOrNil(public) || k in GroupOrNil(private)
    ensures k in GroupOrNil(private) ==> CreateVars(public, private)[k] == GroupOrNil(private)[k]
    ensures k in GroupOrNil(public) && k !in GroupOrNil(private) ==>
              CreateVars(public, private)[k] == GroupOrNil(public)[k]
  {
    var maps := [GroupOrNil(public), GroupOrNil(private)];
    MergedKeys(maps);
    if k in GroupOrNil(private) {
      LastMapWins(maps, 1, k);
    } else if k in GroupOrNil(public) {
      LastMapWins(maps, 0, k);
    }
  }

  /** An unset group is sent as if it were empty: the other group alone. */
  lemma UnsetGroupContributesNothing(public: Option<Vars>, private: Option<Vars>)
    ensures public.None? ==> CreateVars(public, private) == GroupOrNil(private)
    ensures private.None? ==> CreateVars(public, private) == GroupOrNil(public)
  {
    if public.None? {
      EmptyMapIsNeutral([], [GroupOrNil(private)]);
      assert [] + [map[]] + [GroupOrNil(private)] == [GroupOrNil(public), GroupOrNil(private)];
    }
    if private.None? {
      EmptyMapIsNeutral([GroupOrNil(public)], []);
      assert [GroupOrNil(public)] + [map[]] + [] == [GroupOrNil(public), GroupOrNil(private)];
    }
  }

  // ---------------------------------------------------------------------------
  // The resource handlers

  /** A request to the platform. */
  datatype Call =
    | ConfigVarUpdate(app: string, vars: Vars)
    | ConfigVarInfoForApp(app: string)

  /**
   * A stand-in for the Heroku API client: it records every request and
   * answers with fixed responses.
   */
  class Client {
    var calls: seq<Call>
    const updateError: Option<string>                  // the error ConfigVarUpdate reports, if any
    const info: Result<map<string, string>, string>    // what ConfigVarInfoForApp answers
    const appUuid: string                              // what getAppUuid finds for the app

    constructor (updateError: Option<string>, info: Result<map<string, string>, string>, appUuid: string)
      ensures calls == [] && this.updateError == updateError && this.info == info && this.appUuid == appUuid
    {
      calls := [];
      this.updateError, this.info, this.appUuid := updateError, info, appUuid;
    }

    method UpdateConfigVars(app: string, vars: Vars) returns (err: Option<string>)
      modifies this`calls
      ensures calls == old(calls) + [ConfigVarUpdate(app, vars)]
      ensures err == updateError
    {
      calls := calls + [ConfigVarUpdate(app, vars)];
      err := updateError;
    }

    method ConfigVarInfo(app: string) returns (r: Result<map<string, string>, string>)
      modifies this`calls
      ensures calls == old(calls) + [ConfigVarInfoForApp(app)]
      ensures r == info
    {
      calls := calls + [ConfigVarInfoForApp(app)];
      r := info;
    }
  }

  /** The resource's desired state and its id. */
  class ResourceData {
    const app: string               // what getAppName reads
    const public: Option<Vars>      // d.GetOk("public")
    const private: Option<Vars>     // d.GetOk("private")
    var id: string

    constructor (app: string, public: Option<Vars>, private: Option<Vars>)
      ensures this.app == app && this.public == public && this.private == private && id == ""
    {
      this.app, this.public, this.private := app, public, private;
      id := "";
    }
  }

  /** The error Create reports when the update call fails. */
  function CreateError(app: string, msg: string): (e: string)
    ensures |e| == 23 + |app| + 16 + |msg|
    ensures e[..23] == "[ERROR] Error creating "
    ensures e[23..23 + |app|] == app
    ensures e[23 + |app|..|e| - |msg|] == "'s config vars: "
    ensures e[|e| - |msg|..] == msg
  {
    "[ERROR] Error creating " + app + "'s config vars: " + msg
  }

  /** Read: fetch the app's config vars; on success the app's UUID becomes the id. */
  method Read(d: ResourceData, client: Client) returns (err: Option<string>)
    modifies d`id, client`calls
    ensures client.calls == old(client.calls) + [ConfigVarInfoForApp(d.app)]
    ensures client.info.Failure? ==> err == Some(client.info.error) && d.id == old(d.id)
    ensures client.info.Success? ==> err == None && d.id == client.appUuid
  {
    var vars := client.ConfigVarInfo(d.app);
    if vars.Failure? {
      return Some(vars.error);
    }
    d.id := client.appUuid;
    return None;
  }

  /** Create: one merged update call; on failure the wrapped error and no Read, otherwise Read. */
  method Create(d: ResourceData, client: Client) returns (err: Option<string>)
    modifies d`id, client`calls
    ensures client.updateError.Some? ==>
              client.calls == old(client.calls) + [ConfigVarUpdate(d.app, CreateVars(d.public, d.private))] &&
              err == Some(CreateError(d.app, client.updateError.value)) &&
              d.id == old(d.id)
    ensures client.updateError.None? ==>
              client.calls == old(client.calls) + [ConfigVarUpdate(d.app, CreateVars(d.public, d.private)),
                                                   ConfigVarInfoForApp(d.app)] &&
              (client.info.Failure? ==> err == Some(client.info.error) && d.id == old(d.id)) &&
              (client.info.Success? ==> err == None && d.id == client.appUuid)
  {
    var publicVars: Vars := map[];
    var privateVars: Vars := map[];
    if d.public.Some? {
      publicVars := d.public.value;
    }
    if d.private.Some? {
      privateVars := d.private.value;
    }

    var configVars := MergeMaps([publicVars, privateVars]);

    var updateErr := client.UpdateConfigVars(d.app, configVars);
    if updateErr.Some? {
      return Some(CreateError(d.app, updateErr.value));
    }

    err := Read(d, client);
  }

  /** Update does nothing and succeeds. */
  method Update(d: ResourceData, client: Client) returns (err: Option<string>)
    ensures err == None
  {
    return None;
  }

  /** Delete does nothing and succeeds. */
  method Delete(d: ResourceData, client: Client) returns (err: Option<string>)
    ensures err == None
  {
    return None;
  }

  /** A scenario: a private var shadows the public var of the same name. */
  method CreateScenario() returns (err: Option<string>, sent: seq<Call>)
    ensures err == None
    ensures sent == [ConfigVarUpdate("web", map["A" := Some("2"), "B" := Some("3")]), ConfigVarInfoForApp("web")]
  {
    var client := new Client(None, Success(map["A" := "2", "B" := "3"]), "uuid-1");
    var d := new ResourceData("web", Some(map["A" := Some("1"), "B" := Some("3")]), Some(map["A" := Some("2")]));
    err := Create(d, client);
    PrivateOverridesPublic(d.public, d.private, "A");
    PrivateOverridesPublic(d.public, d.private, "B");
    assert CreateVars(d.public, d.private).Keys == {"A", "B"} by {
      MergedKeys([GroupOrNil(d.public), GroupOrNil(d.private)]);
    }
    assert client.calls[0] == ConfigVarUpdate("web", map["A" := Some("2"), "B" := Some("3")]);
    assert err == None && d.id == "uuid-1";
    sent := client.calls;
  }
}
