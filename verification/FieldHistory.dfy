/** Where each field of an agent and of an environment comes from, after any run of requests. */
module FieldHistory {
  import opened Prelude
  import opened Json
  import opened Versioned
  import A = Agents
  import E = Environments

  /** The environment a PUT names: none with null, nothing said when the field is left out. */
  function EnvironmentGiven(p: A.AgentPatch): Option<Option<string>> {
    match p.environment
    case Absent => None
    case Null => Some(None)
    case To(id) => Some(Some(id))
  }

  /** What the request's field says is what the patch says. */
  lemma RequestGivesEnvironment(req: A.AgentRequest)
    ensures EnvironmentGiven(A.PatchOf(req)) == if req.environmentGiven then Some(req.environmentId) else None
  {
  }

  type AgentRun = seq<Request<A.AgentPatch>>

  /** After any requests the agent's environment is what the last accepted PUT that gave one named, else the first. */
  lemma {:induction false} AgentEnvironmentHistory(r: Resource<A.AgentFields>, reqs: AgentRun)
    ensures Run(A.AGENT_PATCHER, r, reqs).fields.environmentId
         == LastGiven(EnvironmentGiven, r.fields.environmentId, Passed(A.AGENT_PATCHER, r, reqs))
  {
    FieldIsLastGiven(A.AGENT_PATCHER, (f: A.AgentFields) => f.environmentId, EnvironmentGiven, r, reqs);
  }

  /** ... and so are its other plain fields. */
  lemma {:induction false} AgentTextHistory(r: Resource<A.AgentFields>, reqs: AgentRun)
    ensures var end, passed := Run(A.AGENT_PATCHER, r, reqs).fields, Passed(A.AGENT_PATCHER, r, reqs);
            && end.name == LastGiven((p: A.AgentPatch) => p.name, r.fields.name, passed)
            && end.system == LastGiven((p: A.AgentPatch) => p.system, r.fields.system, passed)
            && end.description == LastGiven((p: A.AgentPatch) => p.description, r.fields.description, passed)
  {
    FieldIsLastGiven(A.AGENT_PATCHER, (f: A.AgentFields) => f.name, (p: A.AgentPatch) => p.name, r, reqs);
    FieldIsLastGiven(A.AGENT_PATCHER, (f: A.AgentFields) => f.system, (p: A.AgentPatch) => p.system, r, reqs);
    FieldIsLastGiven(A.AGENT_PATCHER, (f: A.AgentFields) => f.description, (p: A.AgentPatch) => p.description, r, reqs);
  }

  lemma {:induction false} AgentListHistory(r: Resource<A.AgentFields>, reqs: AgentRun)
    ensures var end, passed := Run(A.AGENT_PATCHER, r, reqs).fields, Passed(A.AGENT_PATCHER, r, reqs);
            && end.skills == LastGiven((p: A.AgentPatch) => p.skills, r.fields.skills, passed)
            && end.mcpServers == LastGiven((p: A.AgentPatch) => p.mcpServers, r.fields.mcpServers, passed)
  {
    FieldIsLastGiven(A.AGENT_PATCHER, (f: A.AgentFields) => f.skills, (p: A.AgentPatch) => p.skills, r, reqs);
    FieldIsLastGiven(A.AGENT_PATCHER, (f: A.AgentFields) => f.mcpServers, (p: A.AgentPatch) => p.mcpServers, r, reqs);
  }

  type EnvironmentRun = seq<Request<E.EnvironmentPatch>>

  /** An environment's fields, each as the last accepted PUT that gave it left it. */
  lemma {:induction false} EnvironmentFieldHistory(r: Resource<E.EnvironmentFields>, reqs: EnvironmentRun)
    ensures var end := Run(E.ENVIRONMENT_PATCHER, r, reqs).fields;
            var passed := Passed(E.ENVIRONMENT_PATCHER, r, reqs);
            && end.name == LastGiven((p: E.EnvironmentPatch) => p.req.name, r.fields.name, passed)
            && end.packages == LastGiven((p: E.EnvironmentPatch) => p.req.packages, r.fields.packages, passed)
            && end.envVars == LastGiven((p: E.EnvironmentPatch) => p.req.envVars, r.fields.envVars, passed)
            && end.setupScript == LastGiven((p: E.EnvironmentPatch) => p.req.setupScript, r.fields.setupScript, passed)
  {
    var apply := E.ENVIRONMENT_PATCHER;
    FieldIsLastGiven(apply, (f: E.EnvironmentFields) => f.name, (p: E.EnvironmentPatch) => p.req.name, r, reqs);
    FieldIsLastGiven(apply, (f: E.EnvironmentFields) => f.packages, (p: E.EnvironmentPatch) => p.req.packages, r, reqs);
    FieldIsLastGiven(apply, (f: E.EnvironmentFields) => f.envVars, (p: E.EnvironmentPatch) => p.req.envVars, r, reqs);
    FieldIsLastGiven(apply, (f: E.EnvironmentFields) => f.setupScript, (p: E.EnvironmentPatch) => p.req.setupScript,
                     r, reqs);
  }

  /** The networking of the last accepted PUT that gave one, with its type told apart; unrestricted if it names none. */
  function NetworkingGiven(p: E.EnvironmentPatch): Option<(Json, map<string, Json>)> {
    if p.req.networking.None? then None
    else
      var n := p.req.networking.value;
      Some((if "type" in n then n["type"] else JStr("unrestricted"), map k | k in n && k != "type" :: n[k]))
  }

  lemma {:induction false} EnvironmentNetworkingHistory(r: Resource<E.EnvironmentFields>, reqs: EnvironmentRun)
    ensures var end := Run(E.ENVIRONMENT_PATCHER, r, reqs).fields;
            (end.networkingType, end.networkingConfig)
            == LastGiven(NetworkingGiven, (r.fields.networkingType, r.fields.networkingConfig),
                         Passed(E.ENVIRONMENT_PATCHER, r, reqs))
  {
    var get := (f: E.EnvironmentFields) => (f.networkingType, f.networkingConfig);
    forall f, p | E.PatchEnvironment(f, p).Some?
      ensures get(E.PatchEnvironment(f, p).value) == Or(NetworkingGiven(p), get(f))
    {
      if p.req.networking.Some? {
        assert E.NetworkingConfig(p.req.networking.value) == NetworkingGiven(p).value.1;
      }
    }
    FieldIsLastGiven(E.ENVIRONMENT_PATCHER, get, NetworkingGiven, r, reqs);
  }
}
