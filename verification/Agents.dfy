/** Updating an agent (views/agents.py) as a versioned resource, with the provider and model rule of providers.py. */
module Agents {
  import opened Prelude
  import opened Json
  import opened Decimal
  import opened Lines
  import opened Metadata
  import opened Versioned

  // ---- Provider and model ----

  predicate Supported(provider: string) {
    provider == "anthropic" || provider == "openai"
  }

  predicate KnownPrefix(prefix: string) {
    Supported(prefix) || prefix == "google" || prefix == "kimi"
  }

  datatype ModelError =
    | UnknownProvider(provider: string)
    | EmptyModel
    | PrefixMismatch(prefix: string, provider: string)

  function ModelPrefix(model: string): string {
    model[..IndexOf(model, '/')]
  }

  predicate HasKnownPrefix(model: string) {
    '/' in model && KnownPrefix(ModelPrefix(model))
  }

  function NormalizeProviderModel(provider: string, model: string): Result<(string, string), ModelError> {
    var p, m := Strip(provider), Strip(model);
    if !Supported(p) then Err(UnknownProvider(p))
    else if m == "" then Err(EmptyModel)
    else
      var k := IndexOf(m, '/');
      if k < |m| && KnownPrefix(m[..k]) then
        if m[..k] != p then Err(PrefixMismatch(m[..k], p))
        else if Strip(m[k + 1..]) == "" then Err(EmptyModel)
        else Ok((p, Strip(m[k + 1..])))
      else Ok((p, m))
  }

  /** What a stored agent's provider and model are like. */
  predicate Normal(provider: string, model: string) {
    Supported(provider) && model != "" && Stripped(model)
  }

  lemma SupportedIsStripped(provider: string)
    requires Supported(provider)
    ensures Strip(provider) == provider && Stripped(provider) && provider != ""
  {
    assert Stripped("anthropic") && Stripped("openai");
    StripStrips(provider);
  }

  lemma NormalizedIsNormal(provider: string, model: string)
    requires NormalizeProviderModel(provider, model).Ok?
    ensures var (p, m) := NormalizeProviderModel(provider, model).value; Normal(p, m)
  {
    var m := Strip(model);
    var k := IndexOf(m, '/');
    StripStrips(model);
    if k < |m| {
      StripStrips(m[k + 1..]);
    }
  }

  /**
   Spaces around both are dropped. A model whose part before its first slash is
   a known provider loses that part, if it is the agent's own provider, and is
   refused if it is another's; any other model stays as it is.
   */
  lemma {:induction false} NormalizeSays(provider: string, model: string)
    ensures var p, m, r := Strip(provider), Strip(model), NormalizeProviderModel(provider, model);
            && (p !in {"anthropic", "openai"} <==> r == Err(UnknownProvider(p)))
            && (Supported(p) && m == "" ==> r == Err(EmptyModel))
            && (Supported(p) && m != "" && !HasKnownPrefix(m) ==> r == Ok((p, m)))
            && (HasKnownPrefix(m) ==> ModelPrefix(m) in {"anthropic", "openai", "google", "kimi"})
            && forall prefix, rest | m == prefix + "/" + rest && '/' !in prefix ::
                 prefix in {"anthropic", "openai", "google", "kimi"} && Supported(p) ==>
                 r == if prefix != p then Err(PrefixMismatch(prefix, p))
                      else if Strip(rest) == "" then Err(EmptyModel)
                      else Ok((p, Strip(rest)))
  {
    var p, m := Strip(provider), Strip(model);
    SlashAt(m);
    forall prefix, rest | m == prefix + "/" + rest && '/' !in prefix
      ensures IndexOf(m, '/') == |prefix| && m[..|prefix|] == prefix && m[|prefix| + 1..] == rest && m != ""
    {
      IndexOfUnique(m, '/', |prefix|);
    }
  }

  lemma SlashAt(model: string)
    ensures '/' in model <==> IndexOf(model, '/') < |model|
  {
    assert model[..|model|] == model;
  }

  /**
   Normalizing what is stored gives it back if and only if the stored model has
   no known provider prefix of its own.
   */
  lemma NormalizesToItselfIff(provider: string, model: string)
    requires Normal(provider, model)
    ensures NormalizeProviderModel(provider, model) == Ok((provider, model)) <==> !HasKnownPrefix(model)
  {
    SupportedIsStripped(provider);
    StripStrips(model);
    SlashAt(model);
    var k := IndexOf(model, '/');
    if k < |model| {
      StripStrips(model[k + 1..]);
    }
  }

  // ---- Fields and patches ----

  datatype AgentFields = AgentFields(
    name: string,
    provider: string,
    model: string,
    system: string,
    description: string,
    environmentId: Option<string>,
    skills: Json,
    mcpServers: Json,
    metadata: Meta)

  /** The environment in a request: left out, null, or one that was found. */
  datatype EnvironmentField = Absent | Null | To(id: string)

  datatype AgentPatch = AgentPatch(
    name: Option<string>,
    provider: Option<string>,
    model: Option<string>,
    system: Option<string>,
    description: Option<string>,
    environment: EnvironmentField,
    skills: Option<Json>,
    mcpServers: Option<Json>,
    metadata: Option<Meta>)

  const EMPTY_PATCH := AgentPatch(None, None, None, None, None, Absent, None, None, None)

  /** `given or otherwise`: empty strings do not count. */
  function OrTruthy(given: Option<string>, otherwise: string): string {
    if given.Some? && given.value != "" then given.value else otherwise
  }

  function EnvironmentAfter(field: EnvironmentField, current: Option<string>): Option<string> {
    match field
    case Absent => current
    case Null => None
    case To(id) => Some(id)
  }

  function MetadataPatch(patch: AgentPatch): Meta {
    Or(patch.metadata, map[])
  }

  function NormalizedFor(f: AgentFields, patch: AgentPatch): Result<(string, string), ModelError> {
    NormalizeProviderModel(OrTruthy(patch.provider, f.provider), OrTruthy(patch.model, f.model))
  }

  function PatchAgent(f: AgentFields, patch: AgentPatch): Option<AgentFields> {
    match NormalizedFor(f, patch)
    case Err(_) => None
    case Ok(pm) => Some(PatchedWith(f, patch, pm.0, pm.1))
  }

  function PatchedWith(f: AgentFields, patch: AgentPatch, provider: string, model: string): AgentFields {
    AgentFields(
      Or(patch.name, f.name), provider, model, Or(patch.system, f.system), Or(patch.description, f.description),
      EnvironmentAfter(patch.environment, f.environmentId),
      Or(patch.skills, f.skills), Or(patch.mcpServers, f.mcpServers),
      Merged(f.metadata, MetadataPatch(patch)))
  }

  const AGENT_PATCHER: Patcher<AgentFields, AgentPatch> := (f: AgentFields, p: AgentPatch) => PatchAgent(f, p)

  // ---- PUT ----

  datatype AgentRequest = AgentRequest(
    version: int,
    name: Option<string>,
    provider: Option<string>,
    model: Option<string>,
    system: Option<string>,
    description: Option<string>,
    environmentGiven: bool,
    environmentId: Option<string>,
    skills: Option<Json>,
    mcpServers: Option<Json>,
    metadata: Option<Meta>)

  datatype Refusal =
    | EnvironmentNotFound
    | EnvironmentArchived
    | AgentArchived
    | VersionMismatch(expected: nat, got: int)
    | ModelRefused(why: ModelError)

  /** The user's environments, and whether each is archived. */
  type Environments = map<string, bool>

  function CheckEnvironment(req: AgentRequest, environments: Environments): Option<Refusal> {
    if !req.environmentGiven || req.environmentId.None? then None
    else if req.environmentId.value !in environments then Some(EnvironmentNotFound)
    else if environments[req.environmentId.value] then Some(EnvironmentArchived)
    else None
  }

  function PatchOf(req: AgentRequest): AgentPatch {
    AgentPatch(req.name, req.provider, req.model, req.system, req.description,
               if !req.environmentGiven then Absent
               else if req.environmentId.None? then Null
               else To(req.environmentId.value),
               req.skills, req.mcpServers, req.metadata)
  }

  /** The answer to a PUT: a refusal, the first that applies, or None for the saved agent. */
  function Answer(r: Resource<AgentFields>, req: AgentRequest, environments: Environments): Option<Refusal> {
    if CheckEnvironment(req, environments).Some? then CheckEnvironment(req, environments)
    else if r.archived then Some(AgentArchived)
    else if req.version != r.version then Some(VersionMismatch(r.version, req.version))
    else if NormalizedFor(r.fields, PatchOf(req)).Err? then
      Some(ModelRefused(NormalizedFor(r.fields, PatchOf(req)).error))
    else None
  }

  /** What the request gives, unless it is empty. */
  function Given(given: Option<string>, current: string): string {
    match given
    case None => current
    case Some(text) => if text == "" then current else text
  }

  /** Which refusal it is, if not one of the model: the environment is looked at first, then the agent's own state. */
  predicate Refuses(
    refusal: Option<Refusal>, req: AgentRequest, environments: Environments, archived: bool, version: nat)
  {
    if req.environmentGiven && req.environmentId.Some? && req.environmentId.value !in environments then
      refusal == Some(EnvironmentNotFound)
    else if req.environmentGiven && req.environmentId.Some? && environments[req.environmentId.value] then
      refusal == Some(EnvironmentArchived)
    else if archived then refusal == Some(AgentArchived)
    else if req.version != version then refusal == Some(VersionMismatch(version, req.version))
    else refusal.Some? ==> refusal.value.ModelRefused?
  }

  function CheckVersionMatch(requestVersion: int, currentVersion: nat): Option<Refusal> {
    if requestVersion != currentVersion then Some(VersionMismatch(currentVersion, requestVersion)) else None
  }

  /** The turn of the loop over field names: a value is set when it is given and differs. */
  method SetIfGiven<T(==)>(given: Option<T>, current: T) returns (value: T, changed: bool)
    ensures value == Or(given, current) && (changed <==> value != current)
    ensures (given.Some? ==> value == given.value) && (given.None? ==> value == current)
  {
    value, changed := current, false;
    if given.Some? && given.value != current {
      value, changed := given.value, true;
    }
  }

  class Agent {
    var name: string
    var provider: string
    var model: string
    var system: string
    var description: string
    var environmentId: Option<string>
    var skills: Json
    var mcpServers: Json
    var metadata: Meta
    var version: nat
    var archived: bool
    /** The AgentVersion rows. */
    var versions: seq<Snapshot<AgentFields>>

    function Fields(): AgentFields
      reads this
    {
      AgentFields(name, provider, model, system, description, environmentId, skills, mcpServers, metadata)
    }

    function Row(): Resource<AgentFields>
      reads this
    {
      Resource(Fields(), version, archived, versions)
    }

    constructor (fields: AgentFields)
      ensures Row() == Create(fields) && HistoryAgrees(Row())
    {
      name, provider, model, system, description :=
        fields.name, fields.provider, fields.model, fields.system, fields.description;
      environmentId, skills, mcpServers, metadata :=
        fields.environmentId, fields.skills, fields.mcpServers, fields.metadata;
      version, archived, versions := 1, false, [Snapshot(1, fields)];
    }

    /** After a version bump: the versions recorded are again exactly 1 to the current one, and the last is the row. */
    method SnapshotVersion()
      requires version == |versions| + 1 && forall i | 0 <= i < |versions| :: versions[i].version == i + 1
      modifies this`versions
      ensures HistoryAgrees(Row()) && old(versions) <= versions
    {
      versions := versions + [Snapshot(version, Fields())];
    }

    /** The environment is left alone, cleared by a null, or set. */
    method SetEnvironment(req: AgentRequest) returns (changed: bool)
      modifies this`environmentId
      ensures environmentId == if req.environmentGiven then req.environmentId else old(environmentId)
      ensures changed <==> environmentId != old(environmentId)
    {
      changed := false;
      if req.environmentGiven && req.environmentId != environmentId {
        environmentId, changed := req.environmentId, true;
      }
    }

    method SetTexts(req: AgentRequest) returns (changed: bool)
      modifies this`name, this`system, this`description
      ensures name == Or(req.name, old(name)) && system == Or(req.system, old(system))
      ensures description == Or(req.description, old(description))
      ensures changed <==> name != old(name) || system != old(system) || description != old(description)
    {
      var c, d: bool;
      name, changed := SetIfGiven(req.name, name);
      system, c := SetIfGiven(req.system, system);
      description, d := SetIfGiven(req.description, description);
      changed := changed || c || d;
    }

    method SetLists(req: AgentRequest) returns (changed: bool)
      modifies this`skills, this`mcpServers
      ensures skills == Or(req.skills, old(skills)) && mcpServers == Or(req.mcpServers, old(mcpServers))
      ensures changed <==> skills != old(skills) || mcpServers != old(mcpServers)
    {
      var c: bool;
      skills, changed := SetIfGiven(req.skills, skills);
      mcpServers, c := SetIfGiven(req.mcpServers, mcpServers);
      changed := changed || c;
    }

    method SetModel(provider: string, model: string) returns (changed: bool)
      modifies this`provider, this`model
      ensures this.provider == provider && this.model == model
      ensures changed <==> provider != old(this.provider) || model != old(this.model)
    {
      var c: bool;
      this.provider, changed := SetIfGiven(Some(provider), this.provider);
      this.model, c := SetIfGiven(Some(model), this.model);
      changed := changed || c;
    }

    /** Every field but the metadata is set when it is given and differs. */
    method SetFields(req: AgentRequest, provider: string, model: string) returns (changed: bool)
      modifies this`name, this`provider, this`model, this`system, this`description, this`environmentId, this`skills,
        this`mcpServers
      ensures name == Or(req.name, old(name)) && this.provider == provider && this.model == model
      ensures system == Or(req.system, old(system)) && description == Or(req.description, old(description))
      ensures environmentId == EnvironmentAfter(PatchOf(req).environment, old(environmentId))
      ensures environmentId == if req.environmentGiven then req.environmentId else old(environmentId)
      ensures skills == Or(req.skills, old(skills)) && mcpServers == Or(req.mcpServers, old(mcpServers))
      ensures changed <==> Fields() != old(Fields())
    {
      var environmentChanged := SetEnvironment(req);
      var textsChanged := SetTexts(req);
      var modelChanged := SetModel(provider, model);
      var listsChanged := SetLists(req);
      changed := environmentChanged || textsChanged || modelChanged || listsChanged;
    }

    method Put(req: AgentRequest, environments: Environments) returns (refusal: Option<Refusal>)
      requires HistoryAgrees(Row())
      modifies this
      ensures HistoryAgrees(Row())
      ensures refusal == Answer(old(Row()), req, environments)
      ensures Refuses(refusal, req, environments, old(archived), old(version))
      ensures refusal.Some? && refusal.value.ModelRefused? ==>
                NormalizeProviderModel(Given(req.provider, old(provider)), Given(req.model, old(model)))
                == Err(refusal.value.why)
      ensures refusal.None? ==>
                && name == Or(req.name, old(name)) && system == Or(req.system, old(system))
                && description == Or(req.description, old(description))
                && environmentId == (if req.environmentGiven then req.environmentId else old(environmentId))
                && skills == Or(req.skills, old(skills)) && mcpServers == Or(req.mcpServers, old(mcpServers))
                && metadata == Merged(old(metadata), Or(req.metadata, map[]))
                && NormalizeProviderModel(Given(req.provider, old(provider)), Given(req.model, old(model)))
                   == Ok((provider, model))
                && version == (if Fields() == old(Fields()) then old(version) else old(version) + 1)
      ensures Row() == if refusal.Some? then old(Row())
                            else Step(AGENT_PATCHER, old(Row()), Versioned.Put(req.version, PatchOf(req)))
    {
      refusal := CheckEnvironment(req, environments);
      if refusal.Some? {
        return;
      }
      if archived {
        return Some(AgentArchived);
      }
      refusal := CheckVersionMatch(req.version, version);
      if refusal.Some? {
        return;
      }
      var pm := NormalizeProviderModel(OrTruthy(req.provider, provider), OrTruthy(req.model, model));
      if pm.Err? {
        return Some(ModelRefused(pm.error));
      }
      Save(req, pm.value.0, pm.value.1);
    }

    /** What the checks let through: set the fields, and if any changed, number and snapshot the result. */
    method Save(req: AgentRequest, provider: string, model: string)
      requires HistoryAgrees(Row())
      modifies this
      ensures HistoryAgrees(Row())
      ensures Row() == Stored(old(Row()), PatchedWith(old(Fields()), PatchOf(req), provider, model))
    {
      var fieldsChanged := SetFields(req, provider, model);
      var metadataChanged := SetMetadata(req.metadata);
      assert Fields() == PatchedWith(old(Fields()), PatchOf(req), provider, model);
      if fieldsChanged || metadataChanged {
        version := version + 1;
        SnapshotVersion();
      }
    }

    method SetMetadata(patch: Option<Meta>) returns (changed: bool)
      modifies this`metadata
      ensures metadata == Merged(old(metadata), Or(patch, map[]))
      ensures changed <==> metadata != old(metadata)
    {
      changed := false;
      MergeNothing(metadata);
      if patch.Some? {
        var merged := MergeMetadata(metadata, patch.value);
        if merged != metadata {
          metadata, changed := merged, true;
        }
      }
    }

    method Archive()
      modifies this`archived
      ensures Row() == Step(AGENT_PATCHER, old(Row()), Versioned.Archive)
      ensures archived
    {
      archived := true;
    }
  }

  // ---- Over runs ----

  ghost predicate NormalFields(f: AgentFields) {
    Normal(f.provider, f.model)
  }

  /** Whatever is stored has a supported provider and a stripped, non-empty model. */
  lemma {:induction false} StoredAgentsAreNormal(r: Resource<AgentFields>, reqs: seq<Request<AgentPatch>>)
    requires NormalFields(r.fields)
    ensures NormalFields(Run(AGENT_PATCHER, r, reqs).fields)
    decreases |reqs|
  {
    if reqs != [] {
      var next := Step(AGENT_PATCHER, r, reqs[0]);
      if reqs[0].Put? && NormalizedFor(r.fields, reqs[0].patch).Ok? {
        NormalizedIsNormal(OrTruthy(reqs[0].patch.provider, r.fields.provider),
          OrTruthy(reqs[0].patch.model, r.fields.model));
      }
      StoredAgentsAreNormal(next, reqs[1..]);
    }
  }

  function MetadataPatches(accepted: seq<Request<AgentPatch>>): seq<Meta> {
    if accepted == [] then []
    else (if accepted[0].Put? then [MetadataPatch(accepted[0].patch)] else []) + MetadataPatches(accepted[1..])
  }

  /** The current metadata is the first metadata under the right-biased union of the accepted patches. */
  lemma {:induction false} MetadataIsOneMerge(fields: AgentFields, accepted: seq<Request<AgentPatch>>)
    requires FoldPatches(AGENT_PATCHER, fields, accepted).Some?
    ensures FoldPatches(AGENT_PATCHER, fields, accepted).value.metadata
         == Merged(fields.metadata, UnionOf(MetadataPatches(accepted)))
    decreases |accepted|
  {
    if accepted == [] {
      MergeNothing(fields.metadata);
    } else if accepted[0].Archive? {
      MetadataIsOneMerge(fields, accepted[1..]);
      assert [] + MetadataPatches(accepted[1..]) == MetadataPatches(accepted[1..]);
    } else {
      var next := PatchAgent(fields, accepted[0].patch).value;
      var patch, rest := MetadataPatch(accepted[0].patch), MetadataPatches(accepted[1..]);
      MetadataIsOneMerge(next, accepted[1..]);
      MergesCompose(fields.metadata, patch, UnionOf(rest));
      assert ([patch] + rest)[1..] == rest;
    }
  }

  lemma AgentMetadataHistory(fields: AgentFields, reqs: seq<Request<AgentPatch>>)
    ensures Run(AGENT_PATCHER, Create(fields), reqs).fields.metadata
         == Merged(fields.metadata, UnionOf(MetadataPatches(Accepted(AGENT_PATCHER, Create(fields), reqs))))
  {
    UpdatesLinearize(AGENT_PATCHER, fields, reqs);
    MetadataIsOneMerge(fields, Accepted(AGENT_PATCHER, Create(fields), reqs));
  }

  /** Every value a patch gives is the one the agent has. */
  ghost predicate AgreesWith(f: AgentFields, patch: AgentPatch) {
    && Or(patch.name, f.name) == f.name && Or(patch.system, f.system) == f.system
    && OrTruthy(patch.provider, f.provider) == f.provider && OrTruthy(patch.model, f.model) == f.model
    && Or(patch.description, f.description) == f.description
    && EnvironmentAfter(patch.environment, f.environmentId) == f.environmentId
    && Or(patch.skills, f.skills) == f.skills && Or(patch.mcpServers, f.mcpServers) == f.mcpServers
    && Merged(f.metadata, MetadataPatch(patch)) == f.metadata
  }

  /**
   A PUT whose values are identical to the current state leaves the agent and
   its version alone if and only if the stored model has no known provider
   prefix: the stored model is normalized once more, although it already was.
   */
  lemma IdenticalPutIsNoOpIff(r: Resource<AgentFields>, patch: AgentPatch)
    requires NormalFields(r.fields) && AgreesWith(r.fields, patch)
    ensures PatchAgent(r.fields, patch) == Some(r.fields) <==> !HasKnownPrefix(r.fields.model)
    ensures !r.archived && PatchAgent(r.fields, patch).Some? ==>
              (Step(AGENT_PATCHER, r, Put(r.version, patch)).version == r.version <==> !HasKnownPrefix(r.fields.model))
  {
    NormalizesToItselfIff(r.fields.provider, r.fields.model);
  }

  lemma {:induction false} NormalizesFromAnySpacing(provider: string, model: string)
    requires Normal(Strip(provider), model)
    ensures NormalizeProviderModel(provider, model) == Ok((Strip(provider), model)) <==> !HasKnownPrefix(model)
  {
    StripStrips(model);
    SlashAt(model);
    var k := IndexOf(model, '/');
    if k < |model| {
      StripStrips(model[k + 1..]);
    }
  }

  /**
   Sending the same PUT again, with the new version, changes nothing if and
   only if it names a model or the model it left has no known provider prefix.
   */
  lemma {:induction false} RepeatedPutIsNoOpIff(f: AgentFields, patch: AgentPatch)
    requires NormalFields(f) && PatchAgent(f, patch).Some?
    ensures var g := PatchAgent(f, patch).value;
            PatchAgent(g, patch) == Some(g) <==> OrTruthy(patch.model, "") != "" || !HasKnownPrefix(g.model)
  {
    var g := PatchAgent(f, patch).value;
    MergeIsIdempotent(f.metadata, MetadataPatch(patch));
    SupportedIsStripped(f.provider);
    NormalizedIsNormal(OrTruthy(patch.provider, f.provider), OrTruthy(patch.model, f.model));
    SupportedIsStripped(g.provider);
    if OrTruthy(patch.model, "") == "" {
      NormalizesFromAnySpacing(OrTruthy(patch.provider, g.provider), g.model);
    }
  }

  /**
   An agent whose stored model carries another provider's prefix refuses every
   PUT that does not bring a new model or provider.
   */
  lemma ForeignPrefixRefusesAllUpdates(f: AgentFields, patch: AgentPatch)
    requires NormalFields(f) && HasKnownPrefix(f.model) && ModelPrefix(f.model) != f.provider
    requires OrTruthy(patch.model, f.model) == f.model && OrTruthy(patch.provider, f.provider) == f.provider
    ensures NormalizedFor(f, patch) == Err(PrefixMismatch(ModelPrefix(f.model), f.provider))
    ensures PatchAgent(f, patch) == None
  {
    SupportedIsStripped(f.provider);
    StripStrips(f.model);
    SlashAt(f.model);
  }

  /** A model of the form provider/rest loses that prefix. */
  lemma {:induction false} PrefixIsTaken(provider: string, rest: string)
    requires Supported(provider) && '/' !in provider && rest != "" && Stripped(rest)
    ensures NormalizeProviderModel(provider, provider + "/" + rest) == Ok((provider, rest))
  {
    var m, k := provider + "/" + rest, |provider|;
    SupportedIsStripped(provider);
    JoinedParts(provider, rest);
    StripStrips(m);
    StripStrips(rest);
  }

  lemma {:induction false} JoinedParts(provider: string, rest: string)
    requires provider != "" && Stripped(provider) && '/' !in provider && rest != "" && Stripped(rest)
    ensures var m, k := provider + "/" + rest, |provider|;
            IndexOf(m, '/') == k && m[..k] == provider && m[k + 1..] == rest && Stripped(m)
  {
    IndexOfUnique(provider + "/" + rest, '/', |provider|);
  }

  /**
   Such agents can be stored: creating one with "openai/openai/x" keeps
   "openai/x", and the next empty PUT makes it "x", version 2.
   */
  lemma {:induction false} EmptyPutCanChangeTheModel(f: AgentFields)
    requires f.provider == "openai" && f.model == "openai" + "/" + "x"
    ensures NormalizeProviderModel("openai", "openai" + "/" + f.model) == Ok(("openai", f.model))
    ensures Step(AGENT_PATCHER, Create(f), Put(1, EMPTY_PATCH)).fields.model == "x"
    ensures Step(AGENT_PATCHER, Create(f), Put(1, EMPTY_PATCH)).version == 2
  {
    TwoPrefixesAreTaken();
    EmptyPutNormalizesAgain(f, "x");
  }

  lemma {:induction false} EmptyPutNormalizesAgain(f: AgentFields, model: string)
    requires NormalizeProviderModel(f.provider, f.model) == Ok((f.provider, model)) && model != f.model
    ensures Step(AGENT_PATCHER, Create(f), Put(1, EMPTY_PATCH)).fields.model == model
    ensures Step(AGENT_PATCHER, Create(f), Put(1, EMPTY_PATCH)).version == 2
  {
    assert PatchAgent(f, EMPTY_PATCH) == Some(PatchedWith(f, EMPTY_PATCH, f.provider, model));
  }

  lemma {:induction false} TwoPrefixesAreTaken()
    ensures var model := "openai" + "/" + "x";
            && NormalizeProviderModel("openai", "openai" + "/" + model) == Ok(("openai", model))
            && NormalizeProviderModel("openai", model) == Ok(("openai", "x"))
            && model != "x"
  {
    var model := "openai" + "/" + "x";
    assert '/' !in "openai" && Stripped("x") && |model| == 8 && model[0] == 'o' && model[7] == 'x';
    PrefixIsTaken("openai", model);
    PrefixIsTaken("openai", "x");
  }
}
