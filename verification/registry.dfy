/**
 * The agent registry (pkg/agent/registry.go): agents keyed by their
 * normalised ID, the implicit "main" agent, lookup, the subagent allow-list,
 * the default agent, and the wiring of each agent's language model with its
 * fallbacks. The ID normalisation of the routing package is not part of
 * this model and is a parameter.
 */
module Registry {
  import opened Wrappers
  import opened Configuration
  import opened Protocol

  /** The subagent section of an agent's configuration; a nil allow-list is None. */
  datatype SubagentsConfig = SubagentsConfig(allowAgents: Option<seq<string>>)

  /**
   * The fields of an agent instance's configuration the registry reads.
   * `fallbacks` is the instance's fallback list as NewAgentInstance leaves
   * it, after it has consulted the agent defaults; that resolution is an
   * input here.
   */
  datatype AgentConfig = AgentConfig(
    id: string,
    name: string,
    isDefault: bool,
    subagents: Option<SubagentsConfig>,
    fallbacks: seq<string>)

  /** The language model an agent runs: none yet, a plain one, or one wrapped with fallbacks. */
  datatype AgentModel =
    | NoModel
    | Plain(model: LanguageModel)
    | WithFallbacks(primary: LanguageModel, fallbackCfgs: seq<ModelConfig>)

  /** An agent instance: its configuration and its model. */
  datatype AgentInstance = AgentInstance(config: AgentConfig, model: AgentModel)

  /**
   * The agent created when no agents are configured: ID "main", the default,
   * with the fallbacks NewAgentInstance takes from the agent defaults.
   */
  function ImplicitMain(defaultFallbacks: seq<string>): AgentConfig {
    AgentConfig("main", "", true, None, defaultFallbacks)
  }

  /** Configured agents in order, each under its normalised ID, a later one replacing an earlier one. */
  function RegisterAll(configs: seq<AgentConfig>, normalize: string -> string): map<string, AgentInstance>
  {
    if configs == [] then map[]
    else
      var last := configs[|configs| - 1];
      RegisterAll(configs[..|configs| - 1], normalize)[normalize(last.id) := AgentInstance(last, NoModel)]
  }

  /** The agents of a new registry, before their models are set. */
  function Registered(configs: seq<AgentConfig>, normalize: string -> string, defaultFallbacks: seq<string>): map<string, AgentInstance> {
    if configs == [] then map["main" := AgentInstance(ImplicitMain(defaultFallbacks), NoModel)]
    else RegisterAll(configs, normalize)
  }

  /** configs[j] is the last configured agent whose ID normalises to k. */
  predicate IsLastFor(configs: seq<AgentConfig>, normalize: string -> string, k: string, j: int) {
    0 <= j < |configs| && normalize(configs[j].id) == k &&
    forall j' :: j < j' < |configs| ==> normalize(configs[j'].id) != k
  }

  /**
   * The registry holds one agent per distinct normalised ID, and the agent
   * under an ID is the last configured agent with that ID.
   */
  lemma {:induction false} RegisterAllLastWins(configs: seq<AgentConfig>, normalize: string -> string)
    ensures RegisterAll(configs, normalize).Keys == set c | c in configs :: normalize(c.id)
    ensures forall k :: k in RegisterAll(configs, normalize) ==>
      exists j :: IsLastFor(configs, normalize, k, j) && RegisterAll(configs, normalize)[k] == AgentInstance(configs[j], NoModel)
  {
    if configs != [] {
      var init, n := configs[..|configs| - 1], |configs| - 1;
      var last := configs[n];
      RegisterAllLastWins(init, normalize);
      assert configs == init + [last];
      var m := RegisterAll(configs, normalize);
      forall k | k in m
        ensures exists j :: IsLastFor(configs, normalize, k, j) && m[k] == AgentInstance(configs[j], NoModel)
      {
        if k == normalize(last.id) {
          assert IsLastFor(configs, normalize, k, n);
        } else {
          var j :| IsLastFor(init, normalize, k, j) && RegisterAll(init, normalize)[k] == AgentInstance(init[j], NoModel);
          assert configs[j] == init[j];
          assert IsLastFor(configs, normalize, k, j);
        }
      }
    }
  }

  /**
   * A registry built from no configured agents holds only the implicit main
   * agent, which carries the default fallbacks.
   */
  lemma NoConfigsOnlyMain(normalize: string -> string, defaultFallbacks: seq<string>)
    ensures Registered([], normalize, defaultFallbacks).Keys == {"main"}
    ensures Registered([], normalize, defaultFallbacks)["main"].config.isDefault
    ensures Registered([], normalize, defaultFallbacks)["main"].config.fallbacks == defaultFallbacks
  {
  }

  /** The fallback configurations: a name the model list resolves gives its entry, any other name a bare one. */
  function FallbackConfigs(fallbacks: seq<string>, list: seq<ModelConfig>): (r: seq<ModelConfig>)
    ensures |r| == |fallbacks|
    ensures forall k :: 0 <= k < |r| ==>
      r[k] == LookupModel(list, fallbacks[k]).GetOr(ModelConfig(fallbacks[k], fallbacks[k], "", ""))
  {
    seq(|fallbacks|, k requires 0 <= k < |fallbacks| =>
      LookupModel(list, fallbacks[k]).GetOr(ModelConfig(fallbacks[k], fallbacks[k], "", "")))
  }

  /** Every fallback configuration carries the name it was asked for; an unknown name is also its model. */
  lemma FallbackConfigsNamed(fallbacks: seq<string>, list: seq<ModelConfig>)
    ensures forall k :: 0 <= k < |fallbacks| ==> FallbackConfigs(fallbacks, list)[k].modelName == fallbacks[k]
    ensures forall k :: 0 <= k < |fallbacks| && fallbacks[k] !in ModelNames(list) ==>
      FallbackConfigs(fallbacks, list)[k].model == fallbacks[k]
  {
  }

  /** The loop of initFantasyModels that resolves an agent's fallback names. */
  method ResolveFallbacks(fallbacks: seq<string>, list: seq<ModelConfig>) returns (cfgs: seq<ModelConfig>)
    ensures cfgs == FallbackConfigs(fallbacks, list)
  {
    cfgs := [];
    for k := 0 to |fallbacks|
      invariant |cfgs| == k
      invariant forall m :: 0 <= m < k ==> cfgs[m] == FallbackConfigs(fallbacks, list)[m]
    {
      var fb := fallbacks[k];
      var found := LookupModel(list, fb);
      var cfg := if found.Some? then found.value else ModelConfig(fb, fb, "", "");
      cfgs := cfgs + [cfg];
    }
  }

  /**
   * The model initFantasyModels gives an agent: unchanged when the model
   * cannot be built, wrapped with fallbacks only when the agent has some.
   * `build` is the result of Protocol.FantasyModelFromFullConfig on the
   * configuration, and `list` the configuration's model list after that
   * call, that is, after Protocol.MergeModelList has appended the legacy
   * provider entries.
   */
  function ModelFor(agent: AgentInstance, build: Result<LanguageModel, BuildError>, list: seq<ModelConfig>): (m: AgentModel)
    ensures build.Err? ==> m == agent.model
    ensures build.Ok? && agent.config.fallbacks == [] ==> m == Plain(build.value)
    ensures build.Ok? && agent.config.fallbacks != [] ==>
      m.WithFallbacks? && m.primary == build.value && |m.fallbackCfgs| == |agent.config.fallbacks|
    ensures build.Ok? && agent.config.fallbacks != [] ==>
      forall k :: 0 <= k < |m.fallbackCfgs| ==> m.fallbackCfgs[k].modelName == agent.config.fallbacks[k]
  {
    if build.Err? then agent.model
    else if |agent.config.fallbacks| > 0 then WithFallbacks(build.value, FallbackConfigs(agent.config.fallbacks, list))
    else Plain(build.value)
  }

  /**
   * With no agents configured, the implicit main agent is wrapped with the
   * default fallbacks, in order, whenever its model builds and there are any.
   */
  lemma ImplicitMainUsesDefaultFallbacks(normalize: string -> string, defaultFallbacks: seq<string>,
                                         build: Result<LanguageModel, BuildError>, list: seq<ModelConfig>)
    requires build.Ok? && defaultFallbacks != []
    ensures ModelFor(Registered([], normalize, defaultFallbacks)["main"], build, list)
      == WithFallbacks(build.value, FallbackConfigs(defaultFallbacks, list))
  {
  }

  /** AgentRegistry. */
  class AgentRegistry {
    var agents: map<string, AgentInstance>
    const normalize: string -> string

    /**
     * NewAgentRegistry. `defaultFallbacks` are the fallbacks
     * NewAgentInstance gives the implicit main agent from the agent
     * defaults. `build` is the outcome of building the language
     * model from the full configuration (Protocol.FantasyModelFromFullConfig)
     * and `list` the model list fallback names are resolved in: the
     * configuration's list after that call has merged the provider entries
     * into it (Protocol.MergeModelList).
     */
    constructor (configs: seq<AgentConfig>, normalize: string -> string, defaultFallbacks: seq<string>,
                 build: Result<LanguageModel, BuildError>, list: seq<ModelConfig>)
      ensures this.normalize == normalize
      ensures agents.Keys == Registered(configs, normalize, defaultFallbacks).Keys
      ensures forall id :: id in agents ==>
        agents[id] == Registered(configs, normalize, defaultFallbacks)[id].(model :=
          ModelFor(Registered(configs, normalize, defaultFallbacks)[id], build, list))
    {
      this.normalize := normalize;
      agents := map[];
      new;
      if |configs| == 0 {
        agents := map["main" := AgentInstance(ImplicitMain(defaultFallbacks), NoModel)];
      } else {
        for i := 0 to |configs|
          invariant agents == RegisterAll(configs[..i], normalize)
        {
          assert configs[..i + 1][..i] == configs[..i];
          agents := agents[normalize(configs[i].id) := AgentInstance(configs[i], NoModel)];
        }
        assert configs[..|configs|] == configs;
      }
      InitFantasyModels(build, list);
    }

    /** initFantasyModels: every agent gets its model, in no particular order. */
    method InitFantasyModels(build: Result<LanguageModel, BuildError>, list: seq<ModelConfig>)
      modifies this
      ensures agents.Keys == old(agents).Keys
      ensures forall id :: id in agents ==> agents[id] == old(agents)[id].(model := ModelFor(old(agents)[id], build, list))
    {
      ghost var before := agents;
      var todo := agents.Keys;
      while todo != {}
        invariant todo <= agents.Keys && agents.Keys == before.Keys
        invariant forall id :: id in agents && id in todo ==> agents[id] == before[id]
        invariant forall id :: id in agents && id !in todo ==>
          agents[id] == before[id].(model := ModelFor(before[id], build, list))
        decreases todo
      {
        var id :| id in todo;
        var agent := agents[id];
        if build.Ok? {
          var model := build.value;
          var wrapped := Plain(model);
          if |agent.config.fallbacks| > 0 {
            var cfgs := ResolveFallbacks(agent.config.fallbacks, list);
            if |cfgs| > 0 {
              wrapped := WithFallbacks(model, cfgs);
            }
          }
          agents := agents[id := agent.(model := wrapped)];
        }
        todo := todo - {id};
      }
    }

    /** GetAgent: lookup under the normalised ID. */
    function GetAgent(agentId: string): (r: Option<AgentInstance>)
      reads this
      ensures r.Some? <==> normalize(agentId) in agents
      ensures r.Some? ==> r.value == agents[normalize(agentId)]
    {
      var id := normalize(agentId);
      if id in agents then Some(agents[id]) else None
    }

    /** ListAgentIDs: every registered ID exactly once, in no particular order. */
    method ListAgentIds() returns (ids: seq<string>)
      ensures |ids| == |agents.Keys|
      ensures forall id :: id in ids <==> id in agents
      ensures forall a, b :: 0 <= a < b < |ids| ==> ids[a] != ids[b]
    {
      ids := [];
      var todo := agents.Keys;
      while todo != {}
        invariant todo <= agents.Keys
        invariant forall id :: id in ids <==> id in agents && id !in todo
        invariant forall a, b :: 0 <= a < b < |ids| ==> ids[a] != ids[b]
        invariant |ids| + |todo| == |agents.Keys|
        decreases todo
      {
        var id :| id in todo;
        ids := ids + [id];
        todo := todo - {id};
      }
    }

    /** The allow-list admits the target: a wildcard, or an entry with the same normalised ID. */
    predicate Admits(allow: seq<string>, targetAgentId: string)
      reads this
    {
      exists k :: 0 <= k < |allow| && (allow[k] == "*" || normalize(allow[k]) == normalize(targetAgentId))
    }

    /** CanSpawnSubagent: the parent exists and has an allow-list that admits the target. */
    method CanSpawnSubagent(parentAgentId: string, targetAgentId: string) returns (ok: bool)
      ensures ok <==> match GetAgent(parentAgentId)
        case None => false
        case Some(parent) =>
          parent.config.subagents.Some? && parent.config.subagents.value.allowAgents.Some? &&
          Admits(parent.config.subagents.value.allowAgents.value, targetAgentId)
    {
      var parent := GetAgent(parentAgentId);
      if parent.None? {
        return false;
      }
      var sub := parent.value.config.subagents;
      if sub.None? || sub.value.allowAgents.None? {
        return false;
      }
      var allow := sub.value.allowAgents.value;
      var targetNorm := normalize(targetAgentId);
      for k := 0 to |allow|
        invariant forall m :: 0 <= m < k ==> allow[m] != "*" && normalize(allow[m]) != targetNorm
      {
        if allow[k] == "*" || normalize(allow[k]) == targetNorm {
          return true;
        }
      }
      return false;
    }

    /** GetDefaultAgent: "main" when registered, else any agent, else none. */
    method GetDefaultAgent() returns (r: Option<AgentInstance>)
      ensures "main" in agents ==> r == Some(agents["main"])
      ensures r.Some? <==> agents != map[]
      ensures r.Some? ==> r.value in agents.Values
    {
      if "main" in agents {
        return Some(agents["main"]);
      }
      if agents == map[] {
        return None;
      }
      var id :| id in agents;
      return Some(agents[id]);
    }
  }

  /** A wildcard in the allow-list admits every target. */
  lemma WildcardAdmitsAll(reg: AgentRegistry, allow: seq<string>, target: string)
    requires "*" in allow
    ensures reg.Admits(allow, target)
  {
    var k :| 0 <= k < |allow| && allow[k] == "*";
  }

  /** Agents are found under any spelling of their ID that normalises the same way. */
  lemma GetAgentByNormalisedId(reg: AgentRegistry, a: string, b: string)
    requires reg.normalize(a) == reg.normalize(b)
    ensures reg.GetAgent(a) == reg.GetAgent(b)
  {
  }
}
