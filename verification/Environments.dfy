/**
 Updating an environment (views/environments.py) as a versioned resource; its
 name is unique among the user's active ones.
 */
module Environments {
  import opened Prelude
  import opened Json
  import opened Versioned

  datatype EnvironmentFields = EnvironmentFields(
    name: string,
    packages: map<string, seq<string>>,
    envVars: map<string, string>,
    setupScript: string,
    networkingType: Json,
    networkingConfig: map<string, Json>)

  datatype EnvironmentRequest = EnvironmentRequest(
    version: int,
    name: Option<string>,
    packages: Option<map<string, seq<string>>>,
    envVars: Option<map<string, string>>,
    setupScript: Option<string>,
    networking: Option<map<string, Json>>)

  /** A request and the names the user's other active environments have while it holds the lock. */
  datatype EnvironmentPatch = EnvironmentPatch(req: EnvironmentRequest, otherNames: set<string>)

  datatype Refusal = EnvironmentArchived | VersionMismatch(expected: nat, got: int) | NameTaken(name: Option<string>)

  function NetworkingType(networking: map<string, Json>): Json {
    if "type" in networking then networking["type"] else JStr("unrestricted")
  }

  function NetworkingConfig(networking: map<string, Json>): map<string, Json> {
    networking - {"type"}
  }

  function PatchedWith(f: EnvironmentFields, req: EnvironmentRequest): EnvironmentFields {
    EnvironmentFields(
      Or(req.name, f.name), Or(req.packages, f.packages), Or(req.envVars, f.envVars),
      Or(req.setupScript, f.setupScript),
      if req.networking.Some? then NetworkingType(req.networking.value) else f.networkingType,
      if req.networking.Some? then NetworkingConfig(req.networking.value) else f.networkingConfig)
  }

  /** These are the fields with what the request gives, and without what it does not give left alone. */
  ghost predicate AsGiven(before: EnvironmentFields, after: EnvironmentFields, req: EnvironmentRequest) {
    && after.name == Or(req.name, before.name) && after.packages == Or(req.packages, before.packages)
    && after.envVars == Or(req.envVars, before.envVars) && after.setupScript == Or(req.setupScript, before.setupScript)
    && (req.networking.None? ==>
          after.networkingType == before.networkingType && after.networkingConfig == before.networkingConfig)
    && (req.networking.Some? ==> IsNetworking(after.networkingType, after.networkingConfig, req.networking.value))
  }

  /** The type, unrestricted if none is named, and everything else as the configuration. */
  ghost predicate IsNetworking(kind: Json, config: map<string, Json>, networking: map<string, Json>) {
    && ("type" in networking ==> kind == networking["type"])
    && ("type" !in networking ==> kind == JStr("unrestricted"))
    && "type" !in config && (forall k | k != "type" :: k in config <==> k in networking)
    && forall k | k in config :: config[k] == networking[k]
  }

  /** A save under another active environment's name fails as a whole. */
  function PatchEnvironment(f: EnvironmentFields, patch: EnvironmentPatch): Option<EnvironmentFields> {
    var fields := PatchedWith(f, patch.req);
    if fields != f && fields.name in patch.otherNames then None else Some(fields)
  }

  const ENVIRONMENT_PATCHER: Patcher<EnvironmentFields, EnvironmentPatch> :=
    (f: EnvironmentFields, p: EnvironmentPatch) => PatchEnvironment(f, p)

  function Answer(r: Resource<EnvironmentFields>, patch: EnvironmentPatch): Option<Refusal> {
    if r.archived then Some(EnvironmentArchived)
    else if patch.req.version != r.version then Some(VersionMismatch(r.version, patch.req.version))
    else if PatchEnvironment(r.fields, patch).None? then Some(NameTaken(patch.req.name))
    else None
  }

  class Environment {
    var fields: EnvironmentFields
    var version: nat
    var archived: bool
    /** The EnvironmentVersion rows. */
    var versions: seq<Snapshot<EnvironmentFields>>

    function Row(): Resource<EnvironmentFields>
      reads this
    {
      Resource(fields, version, archived, versions)
    }

    constructor (fields: EnvironmentFields)
      ensures Row() == Create(fields)
    {
      this.fields, version, archived, versions := fields, 1, false, [Snapshot(1, fields)];
    }

    /** The row is changed only by the save; a failed one rolls everything back. */
    method Put(req: EnvironmentRequest, otherNames: set<string>) returns (refusal: Option<Refusal>)
      modifies this
      ensures refusal == Answer(old(Row()), EnvironmentPatch(req, otherNames))
      ensures var f := old(fields);
              refusal == if old(archived) then Some(EnvironmentArchived)
                         else if req.version != old(version) then Some(VersionMismatch(old(version), req.version))
                         else if !AsGiven(f, f, req) && Or(req.name, f.name) in otherNames
                         then Some(NameTaken(req.name))
                         else None
      ensures refusal.Some? ==> Row() == old(Row())
      ensures refusal.None? ==>
                && AsGiven(old(fields), fields, req)
                && version == (if fields == old(fields) then old(version) else old(version) + 1)
                && (fields != old(fields) ==> versions == old(versions) + [Snapshot(version, fields)])
      ensures Row() == if refusal.Some? then old(Row())
                       else Step(ENVIRONMENT_PATCHER, old(Row()),
                                 Versioned.Put(req.version, EnvironmentPatch(req, otherNames)))
    {
      if archived {
        return Some(EnvironmentArchived);
      }
      if req.version != version {
        return Some(VersionMismatch(version, req.version));
      }
      var env, changed := Assign(fields, req);
      if changed {
        if env.name in otherNames {
          return Some(NameTaken(req.name));
        }
        fields, version := env, version + 1;
        versions := versions + [Snapshot(version, fields)];
      }
      return None;
    }

    method Archive()
      modifies this`archived
      ensures Row() == Step(ENVIRONMENT_PATCHER, old(Row()), Versioned.Archive)
      ensures archived
    {
      archived := true;
    }
  }

  method AssignTexts(fields: EnvironmentFields, req: EnvironmentRequest) returns (env: EnvironmentFields, changed: bool)
    ensures env == fields.(name := Or(req.name, fields.name), setupScript := Or(req.setupScript, fields.setupScript))
    ensures changed <==> env != fields
  {
    env, changed := fields, false;
    if req.name.Some? && req.name.value != env.name {
      env, changed := env.(name := req.name.value), true;
    }
    if req.setupScript.Some? && req.setupScript.value != env.setupScript {
      env, changed := env.(setupScript := req.setupScript.value), true;
    }
  }

  method AssignMaps(fields: EnvironmentFields, req: EnvironmentRequest) returns (env: EnvironmentFields, changed: bool)
    ensures env == fields.(packages := Or(req.packages, fields.packages), envVars := Or(req.envVars, fields.envVars))
    ensures changed <==> env != fields
  {
    env, changed := fields, false;
    if req.packages.Some? && req.packages.value != env.packages {
      env, changed := env.(packages := req.packages.value), true;
    }
    if req.envVars.Some? && req.envVars.value != env.envVars {
      env, changed := env.(envVars := req.envVars.value), true;
    }
  }

  method AssignNetworking(fields: EnvironmentFields, req: EnvironmentRequest)
      returns (env: EnvironmentFields, changed: bool)
    ensures req.networking.None? ==> env == fields
    ensures req.networking.Some? ==>
              env == fields.(networkingType := NetworkingType(req.networking.value),
                             networkingConfig := NetworkingConfig(req.networking.value))
    ensures changed <==> env != fields
  {
    env, changed := fields, false;
    if req.networking.Some? {
      var newType, newConfig := NetworkingType(req.networking.value), NetworkingConfig(req.networking.value);
      if newType != env.networkingType || newConfig != env.networkingConfig {
        env, changed := env.(networkingType := newType, networkingConfig := newConfig), true;
      }
    }
  }

  /** The assignments of a PUT to its copy of the row, each made only when its value differs. */
  method Assign(fields: EnvironmentFields, req: EnvironmentRequest) returns (env: EnvironmentFields, changed: bool)
    ensures env == PatchedWith(fields, req) && AsGiven(fields, env, req)
    ensures changed <==> env != fields
  {
    var c, d: bool;
    env, changed := AssignTexts(fields, req);
    env, c := AssignMaps(env, req);
    env, d := AssignNetworking(env, req);
    changed := changed || c || d;
    PatchedIsAsGiven(fields, req);
  }

  lemma PatchedIsAsGiven(f: EnvironmentFields, req: EnvironmentRequest)
    ensures AsGiven(f, PatchedWith(f, req), req)
  {
  }

  /**
   A request whose values are identical to the current state is never refused
   for its name, and leaves the row and its version alone.
   */
  lemma IdenticalPutIsNoOp(r: Resource<EnvironmentFields>, req: EnvironmentRequest, otherNames: set<string>)
    requires PatchedWith(r.fields, req) == r.fields
    ensures Step(ENVIRONMENT_PATCHER, r, Put(req.version, EnvironmentPatch(req, otherNames))) == r
    ensures !r.archived && req.version == r.version ==> Answer(r, EnvironmentPatch(req, otherNames)) == None
  {
  }

  /** Sending the same PUT again, with the new version, changes nothing. */
  lemma {:induction false} RepeatedPutIsNoOp(f: EnvironmentFields, req: EnvironmentRequest)
    ensures PatchedWith(PatchedWith(f, req), req) == PatchedWith(f, req)
  {
  }

  // ---- All of a user's environments ----

  type Table = map<nat, Resource<EnvironmentFields>>

  datatype TableRequest =
    | PostEnvironment(id: nat, fields: EnvironmentFields)
    | PutEnvironment(id: nat, req: EnvironmentRequest)
    | ArchiveEnvironment(id: nat)

  function OtherNames(t: Table, id: nat): set<string> {
    set other | other in t && other != id && !t[other].archived :: t[other].fields.name
  }

  function StepTable(t: Table, r: TableRequest): Table {
    match r
    case PostEnvironment(id, fields) =>
      if id in t || fields.name in OtherNames(t, id) then t else t[id := Create(fields)]
    case PutEnvironment(id, req) =>
      if id !in t then t
      else t[id := Step(ENVIRONMENT_PATCHER, t[id], Put(req.version, EnvironmentPatch(req, OtherNames(t, id))))]
    case ArchiveEnvironment(id) => if id !in t then t else t[id := t[id].(archived := true)]
  }

  /** Another environment of the user that is not archived has the name. */
  ghost predicate IsTaken(t: Table, id: nat, name: string) {
    exists other | other in t :: other != id && !t[other].archived && t[other].fields.name == name
  }

  /** A create is refused exactly for a name an active environment has: archiving one frees its name. */
  lemma {:induction false} CreatedUnlessTaken(t: Table, id: nat, fields: EnvironmentFields)
    requires id !in t
    ensures StepTable(t, PostEnvironment(id, fields))
         == if IsTaken(t, id, fields.name) then t else t[id := Create(fields)]
  {
    assert fields.name in OtherNames(t, id) <==> IsTaken(t, id, fields.name);
  }

  /** A PUT that would change something is refused exactly for such a name too, and then as a whole. */
  lemma {:induction false} ChangedUnlessTaken(t: Table, id: nat, req: EnvironmentRequest)
    requires id in t && !t[id].archived && req.version == t[id].version
    requires !AsGiven(t[id].fields, t[id].fields, req)
    ensures var next := StepTable(t, PutEnvironment(id, req));
            if IsTaken(t, id, Or(req.name, t[id].fields.name)) then next == t
            else id in next && AsGiven(t[id].fields, next[id].fields, req) && next[id].version == t[id].version + 1
  {
    PatchedIsAsGiven(t[id].fields, req);
    var name := Or(req.name, t[id].fields.name);
    assert name in OtherNames(t, id) <==> IsTaken(t, id, name);
  }

  function RunTable(t: Table, rs: seq<TableRequest>): Table
    decreases |rs|
  {
    if rs == [] then t else RunTable(StepTable(t, rs[0]), rs[1..])
  }

  ghost predicate NamesUnique(t: Table) {
    forall a, b | a in t && b in t && a != b && !t[a].archived && !t[b].archived :: t[a].fields.name != t[b].fields.name
  }

  lemma {:induction false} StepKeepsNamesUnique(t: Table, r: TableRequest)
    requires NamesUnique(t)
    ensures NamesUnique(StepTable(t, r))
  {
    var next := StepTable(t, r);
    if r.id in next {
      forall b | b in t && b != r.id && !t[b].archived && !next[r.id].archived
        ensures next[r.id].fields.name != t[b].fields.name
      {
        assert t[b].fields.name in OtherNames(t, r.id);
      }
    }
  }

  /** Under any interleaving of creations, updates and archivals no two active environments share a name. */
  lemma {:induction false} NamesStayUnique(t: Table, rs: seq<TableRequest>)
    requires NamesUnique(t)
    ensures NamesUnique(RunTable(t, rs))
    decreases |rs|
  {
    if rs != [] {
      StepKeepsNamesUnique(t, rs[0]);
      NamesStayUnique(StepTable(t, rs[0]), rs[1..]);
    }
  }
}
