/**
 * Listing and looking up the lights of a bridge (bridge.go, lines 65-172). Each call fetches one
 * decoded response through a Transport and reshapes it: the map key of each entry becomes the
 * light's identifier. Go visits a map in no fixed order, so the loops below take the keys in an
 * arbitrary order, and what they promise does not depend on it.
 */
module LightList {
  import opened Wrappers
  import opened Json
  import opened HueBridge
  import opened HueLight
  import opened Listing

  /** The identifier of a light: the key it is listed under. */
  function LightId(l: Light): string {
    l.id
  }

  /*
   * GetAllLights
   */

  /**
   * What GetAllLights returns for a decoded map: one light per entry, its identifier the key,
   * its name the entry's name, and the bridge it was fetched from attached.
   */
  predicate AllListed(m: map<string, Light>, b: Bridge, lights: seq<Light>) {
    multiset(Project(lights, LightId)) == multiset(m.Keys) && Entries(m, b, lights)
  }

  /** Each light is an entry of the map, under its key, with its name and the bridge attached. */
  predicate Entries(m: map<string, Light>, b: Bridge, lights: seq<Light>) {
    forall i :: 0 <= i < |lights| ==> lights[i].id in m && lights[i] == Light(lights[i].id, m[lights[i].id].name, b)
  }

  /** Appending the light of an entry keeps Entries. */
  lemma EntriesStep(m: map<string, Light>, b: Bridge, lights: seq<Light>, id: string)
    requires Entries(m, b, lights) && id in m
    ensures Entries(m, b, lights + [Light(id, m[id].name, b)])
  {
  }

  /** GetAllLights: GET /lights, then one light per entry of the decoded map; a failed call is passed on. */
  method GetAllLights(b: Bridge, fetch: Transport<map<string, Light>>) returns (r: Result<seq<Light>, Error>)
    ensures var resp := fetch(b.RequestTo(Get, "/lights", None));
            && (resp.Failure? ==> r == Failure(resp.error))
            && (resp.Success? ==> r.Success? && AllListed(resp.value, b, r.value))
  {
    var resp := fetch(b.RequestTo(Get, "/lights", None));
    if resp.Failure? {
      return Failure(resp.error);
    }
    var m := resp.value;
    var lights: seq<Light> := [];
    var rest := m.Keys;
    while rest != {}
      invariant rest <= m.Keys
      invariant multiset(Project(lights, LightId)) + multiset(rest) == multiset(m.Keys)
      invariant Entries(m, b, lights)
      decreases |rest|
    {
      var id :| id in rest;
      var light := Light(id, m[id].name, b);
      MoveKey(lights, light, LightId, rest);
      EntriesStep(m, b, lights, id);
      lights := lights + [light];
      rest := rest - {id};
    }
    return Success(lights);
  }

  /** Every entry of the map is listed exactly once, so there are as many lights as entries. */
  lemma AllListedOnce(m: map<string, Light>, b: Bridge, lights: seq<Light>)
    requires AllListed(m, b, lights)
    ensures |lights| == |m|
    ensures forall id :: id in m ==> multiset(Project(lights, LightId))[id] == 1
    ensures forall id :: id in m ==> exists i :: 0 <= i < |lights| && lights[i] == Light(id, m[id].name, b)
  {
    ListedOnce(lights, LightId, m.Keys);
    assert |m.Keys| == |m|;
  }

  /*
   * GetNewLights
   */

  /** What GetNewLights returns: the new lights and the time of the last scan. */
  datatype NewLights = NewLights(lights: seq<Light>, lastScan: string)

  /** The reserved key of the /lights/new response that holds the last scan time, not a light. */
  const LastScan := "lastscan"

  /** An entry of the /lights/new response that GetNewLights can read: an object with a string "name". */
  predicate NamedEntry(v: Value) {
    v.Object? && "name" in v.fields && v.fields["name"].Str?
  }

  /** The name of a readable entry. */
  function EntryName(v: Value): string
    requires NamedEntry(v)
  {
    v.fields["name"].s
  }

  /**
   * The responses GetNewLights reads without a failed type assertion: "lastscan" present and a
   * string, and every other entry a named object.
   */
  predicate NewLightsShape(m: map<string, Value>) {
    && LastScan in m && m[LastScan].Str?
    && forall id :: id in m && id != LastScan ==> NamedEntry(m[id])
  }

  /** Each light is a named entry of the response other than "lastscan", under its key, without a bridge. */
  predicate NewEntries(m: map<string, Value>, lights: seq<Light>) {
    forall i :: 0 <= i < |lights| ==>
      && lights[i].id in m && lights[i].id != LastScan && NamedEntry(m[lights[i].id])
      && lights[i] == Light(lights[i].id, EntryName(m[lights[i].id]), null)
  }

  /** Every entry already visited, "lastscan" aside, is a named object. */
  predicate Readable(m: map<string, Value>, rest: set<string>) {
    forall id :: id in m && id !in rest && id != LastScan ==> NamedEntry(m[id])
  }

  /** Visiting a readable entry, or "lastscan", keeps the visited part readable. */
  lemma ReadableStep(m: map<string, Value>, rest: set<string>, id: string)
    requires Readable(m, rest)
    requires id in m && (id == LastScan || NamedEntry(m[id]))
    ensures Readable(m, rest - {id})
  {
  }

  /** Appending the light of a named entry keeps NewEntries. */
  lemma NewEntriesStep(m: map<string, Value>, lights: seq<Light>, id: string)
    requires NewEntries(m, lights)
    requires id in m && id != LastScan && NamedEntry(m[id])
    ensures NewEntries(m, lights + [Light(id, EntryName(m[id]), null)])
  {
  }

  /** Listing a new light moves its identifier from the keys still to visit to the list. */
  lemma MoveNewId(lights: seq<Light>, light: Light, rest: set<string>)
    requires light.id in rest && light.id != LastScan
    ensures multiset(Project(lights + [light], LightId)) + multiset((rest - {light.id}) - {LastScan})
         == multiset(Project(lights, LightId)) + multiset(rest - {LastScan})
  {
    MoveKey(lights, light, LightId, rest - {LastScan});
    assert rest - {LastScan} - {light.id} == (rest - {light.id}) - {LastScan};
  }

  /** Visiting "lastscan" leaves the keys of lights still to visit as they were. */
  lemma SkipLastScan(rest: set<string>)
    ensures (rest - {LastScan}) - {LastScan} == rest - {LastScan}
    ensures multiset((rest - {LastScan}) - {LastScan}) == multiset(rest - {LastScan})
  {
  }

  /**
   * What GetNewLights returns for a readable response: one light per entry but "lastscan", its
   * identifier the key and its name the entry's "name", with no bridge attached.
   */
  predicate NewListed(m: map<string, Value>, lights: seq<Light>)
    requires NewLightsShape(m)
  {
    && multiset(Project(lights, LightId)) == multiset(m.Keys - {LastScan})
    && NewEntries(m, lights)
  }

  /**
   * GetNewLights: GET /lights/new; the "lastscan" string is split off and every other entry
   * becomes a light. A response of another shape makes the Go call panic, here Panicked.
   */
  method GetNewLights(b: Bridge, fetch: Transport<map<string, Value>>) returns (r: Result<NewLights, Error>)
    ensures var resp := fetch(b.RequestTo(Get, "/lights/new", None));
            && (resp.Failure? ==> r == Failure(resp.error))
            && (resp.Success? && !NewLightsShape(resp.value) ==> r == Failure(Panicked))
            && (resp.Success? && NewLightsShape(resp.value) ==>
                  && r.Success?
                  && r.value.lastScan == resp.value[LastScan].s
                  && NewListed(resp.value, r.value.lights))
  {
    var resp := fetch(b.RequestTo(Get, "/lights/new", None));
    if resp.Failure? {
      return Failure(resp.error);
    }
    var m := resp.value;
    if LastScan !in m || !m[LastScan].Str? {
      return Failure(Panicked);
    }
    var lastScan := m[LastScan].s;
    var lights: seq<Light> := [];
    var rest := m.Keys;
    while rest != {}
      invariant rest <= m.Keys
      invariant multiset(Project(lights, LightId)) + multiset(rest - {LastScan}) == multiset(m.Keys - {LastScan})
      invariant Readable(m, rest)
      invariant NewEntries(m, lights)
      decreases |rest|
    {
      var id :| id in rest;
      if id != LastScan {
        var entry := m[id];
        if !entry.Object? || "name" !in entry.fields || !entry.fields["name"].Str? {
          assert !NamedEntry(m[id]);
          return Failure(Panicked);
        }
        var light := Light(id, entry.fields["name"].s, null);
        MoveNewId(lights, light, rest);
        NewEntriesStep(m, lights, id);
        ReadableStep(m, rest, id);
        lights := lights + [light];
      } else {
        SkipLastScan(rest);
        ReadableStep(m, rest, id);
      }
      rest := rest - {id};
    }
    assert NewLightsShape(m);
    return Success(NewLights(lights, lastScan));
  }

  /** No new light is the "lastscan" entry, and there is one light per other entry. */
  lemma NewListedCount(m: map<string, Value>, lights: seq<Light>)
    requires NewLightsShape(m) && NewListed(m, lights)
    ensures |lights| == |m| - 1
    ensures forall i :: 0 <= i < |lights| ==> lights[i].id != LastScan
  {
    ListedOnce(lights, LightId, m.Keys - {LastScan});
    assert |m.Keys - {LastScan}| == |m.Keys| - 1;
  }

  /*
   * FindLightByID and FindLightByName
   */

  /**
   * FindLightByID: fetches all lights and scans them for the identifier. The light with that
   * key is returned; when there is none, the error carries the identifier.
   */
  method FindLightByID(b: Bridge, id: string, fetch: Transport<map<string, Light>>) returns (r: Result<Light, Error>)
    ensures var resp := fetch(b.RequestTo(Get, "/lights", None));
            && (resp.Failure? ==> r == Failure(resp.error))
            && (resp.Success? && id in resp.value ==> r == Success(Light(id, resp.value[id].name, b)))
            && (resp.Success? && id !in resp.value ==> r == Failure(NotFound("unable to find light with id, " + id)))
  {
    var all := GetAllLights(b, fetch);
    if all.Failure? {
      return Failure(all.error);
    }
    ghost var m := fetch(b.RequestTo(Get, "/lights", None)).value;
    var lights := all.value;
    var i := 0;
    while i < |lights|
      invariant 0 <= i <= |lights|
      invariant forall j :: 0 <= j < i ==> lights[j].id != id
    {
      if lights[i].id == id {
        return Success(lights[i]);
      }
      i := i + 1;
    }
    AllListedOnce(m, b, lights);
    return Failure(NotFound("unable to find light with id, " + id));
  }

  /**
   * FindLightByName: fetches all lights and returns the first one carrying the name, in the
   * order the listing happened to take; when no light has the name, the error carries it.
   */
  method FindLightByName(b: Bridge, name: string, fetch: Transport<map<string, Light>>) returns (r: Result<Light, Error>)
    ensures var resp := fetch(b.RequestTo(Get, "/lights", None));
            && (resp.Failure? ==> r == Failure(resp.error))
            && (resp.Success? && (exists id :: id in resp.value && resp.value[id].name == name) ==>
                  && r.Success? && r.value.id in resp.value && r.value.name == name
                  && r.value == Light(r.value.id, resp.value[r.value.id].name, b))
            && (resp.Success? && !(exists id :: id in resp.value && resp.value[id].name == name) ==>
                  r == Failure(NotFound("unable to find light with name, " + name)))
  {
    var all := GetAllLights(b, fetch);
    if all.Failure? {
      return Failure(all.error);
    }
    ghost var m := fetch(b.RequestTo(Get, "/lights", None)).value;
    var lights := all.value;
    var i := 0;
    while i < |lights|
      invariant 0 <= i <= |lights|
      invariant forall j :: 0 <= j < i ==> lights[j].name != name
    {
      if lights[i].name == name {
        return Success(lights[i]);
      }
      i := i + 1;
    }
    AllListedOnce(m, b, lights);
    return Failure(NotFound("unable to find light with name, " + name));
  }
}
