/**
 * Provider selection: splitting "protocol/model" strings, the default API
 * base per protocol, the protocol dispatch that builds a language model from
 * one model-list entry, and the merge of legacy provider settings into the
 * model list (pkg/providers/factory_provider.go, pkg/providers/fantasy_bridge.go).
 */
module Protocol {
  import opened Wrappers
  import opened Strings
  import opened Configuration

  /** Splits a model string at its first '/'; without one the protocol is "openai". */
  function ExtractProtocol(model: string): (r: (string, string))
    ensures '/' !in r.0
    ensures var t := TrimSpace(model);
      if '/' in t then r.0 + "/" + r.1 == t else r == ("openai", t)
  {
    SplitAtSlash(TrimSpace(model))
  }

  /** The split of an already trimmed model string. */
  function SplitAtSlash(t: string): (r: (string, string))
    ensures '/' !in r.0
    ensures if '/' in t then r.0 + "/" + r.1 == t else r == ("openai", t)
  {
    var i := IndexOfChar(t, '/');
    if i < 0 then ("openai", t)
    else
      var p, m := t[..i], t[i + 1..];
      assert t[i] == '/' && '/' !in p;
      SplitAround(t, i);
      assert p + "/" + m == t;
      (p, m)
  }

  /** The split is unique: any "p/m" with a slash-free p is split back into (p, m). */
  lemma ExtractProtocolInverse(p: string, m: string)
    requires '/' !in p
    requires p == [] || !IsSpace(p[0])
    requires m == [] || !IsSpace(m[|m| - 1])
    ensures ExtractProtocol(p + "/" + m) == (p, m)
  {
    var s := p + "/" + m;
    assert s[|p|] == '/';
    assert s[0] == if p == [] then '/' else p[0];
    assert s[|s| - 1] == if m == [] then '/' else m[|m| - 1];
    TrimSpaceOfTrimmed(s);
    assert s[..|p|] == p;
    assert IndexOfChar(s, '/') == |p|;
    assert s[|p| + 1..] == m;
  }

  /** The examples of the documentation comment of ExtractProtocol. */
  lemma ExtractProtocolExampleWithPrefix()
    ensures ExtractProtocol("openai/gpt-4o") == ("openai", "gpt-4o")
  {
    var p, m := "openai", "gpt-4o";
    assert forall i :: 0 <= i < |p| ==> p[i] != '/';
    assert p + "/" + m == "openai/gpt-4o";
    ExtractProtocolInverse(p, m);
  }

  lemma ExtractProtocolExampleBare()
    ensures ExtractProtocol("gpt-4o") == ("openai", "gpt-4o")
  {
    var m := "gpt-4o";
    assert forall i :: 0 <= i < |m| ==> m[i] != '/';
    assert '/' !in m;
    TrimSpaceOfTrimmed(m);
  }

  /** The protocols that have a default API base, with their URLs. */
  const DefaultApiBases: map<string, string> := map[
    "openai" := "https://api.openai.com/v1",
    "openrouter" := "https://openrouter.ai/api/v1",
    "groq" := "https://api.groq.com/openai/v1",
    "zhipu" := "https://open.bigmodel.cn/api/paas/v4",
    "gemini" := "https://generativelanguage.googleapis.com/v1beta",
    "nvidia" := "https://integrate.api.nvidia.com/v1",
    "ollama" := "http://localhost:11434/v1",
    "moonshot" := "https://api.moonshot.cn/v1",
    "shengsuanyun" := "https://router.shengsuanyun.com/api/v1",
    "deepseek" := "https://api.deepseek.com/v1",
    "cerebras" := "https://api.cerebras.ai/v1",
    "volcengine" := "https://ark.cn-beijing.volces.com/api/v3",
    "qwen" := "https://dashscope.aliyuncs.com/compatible-mode/v1",
    "vllm" := "http://localhost:8000/v1",
    "mistral" := "https://api.mistral.ai/v1"
  ]

  function DefaultApiBase(protocol: string): (r: string)
    ensures r != "" <==> protocol in DefaultApiBases
    ensures protocol in DefaultApiBases ==> r == DefaultApiBases[protocol]
  {
    if protocol in DefaultApiBases then DefaultApiBases[protocol] else ""
  }

  /** The table covers exactly OpenAI, Gemini and the OpenAI-compatible protocols. */
  lemma DefaultApiBasesCover()
    ensures DefaultApiBases.Keys == CompatProtocols + {"openai", "gemini"}
  {
  }

  /** Anthropic and Google are not in the table: their providers get no default base. */
  lemma DefaultApiBaseMissing()
    ensures DefaultApiBase("anthropic") == "" && DefaultApiBase("google") == ""
  {
  }

  /** The protocols served by the OpenAI-compatible provider. */
  const CompatProtocols: set<string> := {"openrouter", "groq", "deepseek", "ollama", "mistral",
    "cerebras", "qwen", "vllm", "nvidia", "moonshot", "zhipu", "volcengine", "shengsuanyun"}

  datatype ProviderKind = Anthropic | OpenAI | Google | OpenAICompat(name: string)

  /** The options a provider is built with: an API key and a base URL, each only when set. */
  datatype ProviderSpec = ProviderSpec(kind: ProviderKind, apiKey: Option<string>, baseUrl: Option<string>)

  /** A language model: the provider and the model identifier handed to it. */
  datatype LanguageModel = LanguageModel(provider: ProviderSpec, modelId: string)

  datatype BuildError =
    | ConfigNil
    | ModelRequired
    | UnsupportedProtocol(protocol: string)
    | ProviderFailed(protocol: string)
    | LanguageModelFailed(modelId: string)
    | NoProvidersConfigured
    | ModelNotFound(name: string)

  function OptionIfSet(s: string): (r: Option<string>)
    ensures r.None? <==> s == ""
    ensures r.Some? ==> r.value == s
  {
    if s == "" then None else Some(s)
  }

  /** createFantasyProvider and the four create*Provider helpers. */
  function CreateProvider(protocol: string, cfg: ModelConfig): (r: Result<ProviderSpec, BuildError>)
    ensures r.Err? <==> protocol !in CompatProtocols + {"anthropic", "openai", "gemini", "google"}
    ensures r.Err? ==> r.error == UnsupportedProtocol(protocol)
    ensures r.Ok? ==> r.value.apiKey == OptionIfSet(cfg.apiKey)
    ensures r.Ok? && protocol == "anthropic" ==> r.value.kind == Anthropic
    ensures r.Ok? && protocol == "openai" ==> r.value.kind == OpenAI
    ensures r.Ok? && protocol in {"gemini", "google"} ==> r.value.kind == Google
    ensures r.Ok? && protocol in CompatProtocols ==> r.value.kind == OpenAICompat(protocol)
    // Anthropic and Google get a base URL only when one is configured.
    ensures r.Ok? && (r.value.kind.Anthropic? || r.value.kind.Google?) ==>
      r.value.baseUrl == OptionIfSet(cfg.apiBase)
    // OpenAI and the compatible providers fall back to the protocol's default.
    ensures r.Ok? && (r.value.kind.OpenAI? || r.value.kind.OpenAICompat?) ==>
      r.value.baseUrl.Some? &&
      r.value.baseUrl.value == (if cfg.apiBase != "" then cfg.apiBase else DefaultApiBase(protocol))
  {
    var key := OptionIfSet(cfg.apiKey);
    if protocol == "anthropic" then Ok(ProviderSpec(Anthropic, key, OptionIfSet(cfg.apiBase)))
    else if protocol == "openai" then
      Ok(ProviderSpec(OpenAI, key, OptionIfSet(if cfg.apiBase != "" then cfg.apiBase else DefaultApiBase("openai"))))
    else if protocol == "gemini" || protocol == "google" then
      Ok(ProviderSpec(Google, key, OptionIfSet(cfg.apiBase)))
    else if protocol in CompatProtocols then
      Ok(ProviderSpec(OpenAICompat(protocol), key,
        OptionIfSet(if cfg.apiBase != "" then cfg.apiBase else DefaultApiBase(protocol))))
    else Err(UnsupportedProtocol(protocol))
  }

  /**
   * What the SDK does with a provider specification: whether its provider
   * constructor (anthropic.New, openai.New, google.New or openaicompat.New)
   * succeeds, and whether the provider's LanguageModel accepts the model id.
   */
  datatype Sdk = Sdk(providerBuilds: ProviderSpec -> bool, modelBuilds: LanguageModel -> bool)

  /** The result of FantasyModelFromConfig together with the caller's config after the call. */
  datatype BuildOutcome = BuildOutcome(model: Result<LanguageModel, BuildError>, cfgAfter: Option<ModelConfig>)

  /**
   * FantasyModelFromConfig. The caller's config is passed by pointer and its
   * API key is trimmed in place once validation passes; `cfgAfter` is that config.
   */
  function FantasyModelFromConfig(cfg: Option<ModelConfig>, sdk: Sdk): (r: BuildOutcome)
    ensures cfg.None? ==> r == BuildOutcome(Err(ConfigNil), None)
    ensures cfg.Some? && cfg.value.model == "" ==> r == BuildOutcome(Err(ModelRequired), cfg)
    ensures cfg.Some? && cfg.value.model != "" ==>
      r.cfgAfter == Some(cfg.value.(apiKey := TrimSpace(cfg.value.apiKey)))
    ensures r.model.Ok? ==> (cfg.Some? && r.cfgAfter.Some? &&
      r.model.value.modelId == ExtractProtocol(cfg.value.model).1 &&
      CreateProvider(ExtractProtocol(cfg.value.model).0, r.cfgAfter.value) == Ok(r.model.value.provider) &&
      sdk.providerBuilds(r.model.value.provider) && sdk.modelBuilds(r.model.value))
    // Past validation, the errors in the order the source meets them.
    ensures cfg.Some? && cfg.value.model != "" ==>
      var split := ExtractProtocol(cfg.value.model);
      var spec := CreateProvider(split.0, cfg.value.(apiKey := TrimSpace(cfg.value.apiKey)));
      if spec.Err? then r.model == Err(UnsupportedProtocol(split.0))
      else if !sdk.providerBuilds(spec.value) then r.model == Err(ProviderFailed(split.0))
      else if !sdk.modelBuilds(LanguageModel(spec.value, split.1)) then r.model == Err(LanguageModelFailed(split.1))
      else r.model == Ok(LanguageModel(spec.value, split.1))
  {
    match cfg
    case None => BuildOutcome(Err(ConfigNil), None)
    case Some(c) =>
      if c.model == "" then BuildOutcome(Err(ModelRequired), cfg)
      else
        var trimmed := c.(apiKey := TrimSpace(c.apiKey));
        var split := ExtractProtocol(c.model);
        var provider := CreateProvider(split.0, trimmed);
        if provider.Err? then BuildOutcome(Err(provider.error), Some(trimmed))
        else if !sdk.providerBuilds(provider.value) then BuildOutcome(Err(ProviderFailed(split.0)), Some(trimmed))
        else
          var model := LanguageModel(provider.value, split.1);
          if !sdk.modelBuilds(model) then BuildOutcome(Err(LanguageModelFailed(split.1)), Some(trimmed))
          else BuildOutcome(Ok(model), Some(trimmed))
  }

  /** The API key a built model carries never has surrounding whitespace. */
  lemma BuiltKeyIsTrimmed(cfg: ModelConfig, sdk: Sdk)
    requires FantasyModelFromConfig(Some(cfg), sdk).model.Ok?
    ensures var k := FantasyModelFromConfig(Some(cfg), sdk).model.value.provider.apiKey;
      k.Some? ==> k.value == TrimSpace(cfg.apiKey) && !IsSpace(k.value[0]) && !IsSpace(k.value[|k.value| - 1])
  {
  }

  /**
   * The provider-derived entries appended by the merge: those, in order, whose
   * name is not in `existing` (the names of the original list; the set is not
   * extended while appending, so two new entries with one name are both kept).
   */
  function AppendMissing(existing: set<string>, pms: seq<ModelConfig>): (r: seq<ModelConfig>)
    ensures |r| <= |pms|
    ensures forall m :: m in r ==> m in pms && m.modelName !in existing
    ensures forall m :: m in pms && m.modelName !in existing ==> m in r
  {
    if pms == [] then []
    else
      var last := pms[|pms| - 1];
      var front := AppendMissing(existing, pms[..|pms| - 1]);
      assert forall m :: m in pms ==> m in pms[..|pms| - 1] || m == last;
      if last.modelName in existing then front else front + [last]
  }

  /** The model list after the merge: the original list, then the new provider-derived entries. */
  function MergeModelList(list: seq<ModelConfig>, pms: seq<ModelConfig>): (r: seq<ModelConfig>)
    ensures |list| <= |r| && r[..|list|] == list
    ensures forall i :: |list| <= i < |r| ==> r[i] in pms && r[i].modelName !in ModelNames(list)
  {
    var added := AppendMissing(ModelNames(list), pms);
    assert forall i :: |list| <= i < |list + added| ==> (list + added)[i] in added;
    list + added
  }

  /** After the merge every original and every provider-derived name resolves, and no other. */
  lemma MergeCoversNames(list: seq<ModelConfig>, pms: seq<ModelConfig>)
    ensures ModelNames(MergeModelList(list, pms)) == ModelNames(list) + ModelNames(pms)
  {
    MergeGainsNames(list, pms);
    MergeInventsNoNames(list, pms);
  }

  lemma MergeGainsNames(list: seq<ModelConfig>, pms: seq<ModelConfig>)
    ensures ModelNames(pms) <= ModelNames(MergeModelList(list, pms))
  {
    var r := MergeModelList(list, pms);
    var added := AppendMissing(ModelNames(list), pms);
    assert r == list + added;
    forall n | n in ModelNames(pms) ensures n in ModelNames(r) {
      var k :| 0 <= k < |pms| && pms[k].modelName == n;
      if n !in ModelNames(list) {
        assert pms[k] in added;
        var j :| 0 <= j < |added| && added[j] == pms[k];
        assert r[|list| + j] == pms[k];
      } else {
        var i :| 0 <= i < |list| && list[i].modelName == n;
        assert r[i] == list[i];
      }
    }
  }

  lemma MergeInventsNoNames(list: seq<ModelConfig>, pms: seq<ModelConfig>)
    ensures ModelNames(MergeModelList(list, pms)) <= ModelNames(list) + ModelNames(pms)
  {
    var r := MergeModelList(list, pms);
    forall n | n in ModelNames(r) ensures n in ModelNames(list) + ModelNames(pms) {
      var k :| 0 <= k < |r| && r[k].modelName == n;
      if k >= |list| {
        var j :| 0 <= j < |pms| && pms[j] == r[k];
      } else {
        assert r[k] == list[k];
      }
    }
  }

  /**
   * FantasyModelFromFullConfig. `hasProviders` and `providerModels` stand for
   * HasProvidersConfig and ConvertProvidersToModelList, `defaultModel` for
   * the configured default model name; the merge appends to the caller's list.
   */
  method FantasyModelFromFullConfig(cfg: Config, hasProviders: bool, providerModels: seq<ModelConfig>,
                                    defaultModel: string, sdk: Sdk)
    returns (r: Result<LanguageModel, BuildError>)
    modifies cfg`modelList
    ensures cfg.modelList == if hasProviders then MergeModelList(old(cfg.modelList), providerModels)
                             else old(cfg.modelList)
    ensures |cfg.modelList| == 0 ==> r == Err(NoProvidersConfigured)
    ensures |cfg.modelList| > 0 && defaultModel !in ModelNames(cfg.modelList) ==>
      r == Err(ModelNotFound(defaultModel))
    ensures |cfg.modelList| > 0 && defaultModel in ModelNames(cfg.modelList) ==>
      r == FantasyModelFromConfig(LookupModel(cfg.modelList, defaultModel), sdk).model
  {
    if hasProviders {
      var existing: set<string> := {};
      var original := cfg.modelList;
      for i := 0 to |original|
        invariant existing == ModelNames(original[..i])
      {
        assert original[..i + 1] == original[..i] + [original[i]];
        existing := existing + {original[i].modelName};
      }
      assert original[..|original|] == original;
      for j := 0 to |providerModels|
        invariant cfg.modelList == original + AppendMissing(existing, providerModels[..j])
      {
        var pm := providerModels[j];
        assert providerModels[..j + 1][..j] == providerModels[..j];
        if pm.modelName !in existing {
          cfg.modelList := cfg.modelList + [pm];
        }
      }
      assert providerModels[..|providerModels|] == providerModels;
    }
    if |cfg.modelList| == 0 {
      return Err(NoProvidersConfigured);
    }
    var found := LookupModel(cfg.modelList, defaultModel);
    if found.None? {
      return Err(ModelNotFound(defaultModel));
    }
    r := FantasyModelFromConfig(found, sdk).model;
  }
}
