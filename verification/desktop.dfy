/**
 * The desktop application's services (cmd/agentx-desktop): the configuration
 * editor, the bootstrap files of the agent workspace, the dashboard and the
 * setup state. The config file and the workspace directory are state of the
 * services here; reading and writing them always succeeds except where the
 * model says otherwise, and what the operating system reports is a parameter.
 */
module Desktop {
  import opened Wrappers
  import opened Strings
  import opened Configuration
  import Onboard

  // ---- Configuration editor (configui.go) ----

  /** A provider the desktop offers for quick setup. */
  datatype ProviderOption = ProviderOption(
    name: string,
    id: string,
    modelName: string,
    model: string,
    apiBase: string,
    keyUrl: string,
    needsKey: bool)

  /** GetAvailableProviders. */
  const AvailableProviders: seq<ProviderOption> := [
    ProviderOption("OpenAI", "openai", "gpt-5.2", "openai/gpt-5.2", "https://api.openai.com/v1",
      "https://platform.openai.com/api-keys", true),
    ProviderOption("Anthropic", "anthropic", "claude-sonnet-4.6", "anthropic/claude-sonnet-4.6", "https://api.anthropic.com/v1",
      "https://console.anthropic.com/settings/keys", true),
    ProviderOption("Google Gemini", "gemini", "gemini-2.0-flash", "gemini/gemini-2.0-flash-exp",
      "https://generativelanguage.googleapis.com/v1beta", "https://ai.google.dev/", true),
    ProviderOption("DeepSeek", "deepseek", "deepseek-chat", "deepseek/deepseek-chat", "https://api.deepseek.com/v1",
      "https://platform.deepseek.com/", true),
    ProviderOption("Groq", "groq", "llama-3.3-70b", "groq/llama-3.3-70b-versatile", "https://api.groq.com/openai/v1",
      "https://console.groq.com/keys", true),
    ProviderOption("OpenRouter", "openrouter", "openrouter-auto", "openrouter/auto", "https://openrouter.ai/api/v1",
      "https://openrouter.ai/keys", true),
    ProviderOption("Ollama (local)", "ollama", "llama3", "ollama/llama3", "http://localhost:11434/v1", "", false),
    ProviderOption("Mistral AI", "mistral", "mistral-small", "mistral/mistral-small-latest", "https://api.mistral.ai/v1",
      "https://console.mistral.ai/api-keys", true),
    ProviderOption("Cerebras", "cerebras", "cerebras-llama-3.3-70b", "cerebras/llama-3.3-70b", "https://api.cerebras.ai/v1",
      "https://inference.cerebras.ai/", true)
  ]

  /**
   * The desktop offers the wizard's nine providers, in the same order, with
   * the same ids, models, endpoints, key links and key requirement; so its
   * ids are distinct and only ollama needs no key.
   */
  lemma SameProvidersAsWizard()
    ensures |AvailableProviders| == |Onboard.Providers| == 9
    ensures forall k :: 0 <= k < |AvailableProviders| ==>
      var d, w := AvailableProviders[k], Onboard.Providers[k];
      d.id == w.id && d.modelName == w.modelName && d.model == w.model && d.apiBase == w.apiBase &&
      d.keyUrl == w.keyUrl && d.needsKey == w.needsKey
  {
  }

  /** Quick setup keys a provider the same way the wizard does: "ollama" for the keyless provider when no key is given. */
  lemma QuickSetupKeyMatchesWizard(k: nat, apiKey: string)
    requires k < |AvailableProviders|
    ensures QuickSetupModel(AvailableProviders[k], apiKey) == Onboard.BuildModelConfig(Onboard.Providers[k], apiKey)
  {
    SameProvidersAsWizard();
    Onboard.ProvidersComplete();
  }

  datatype ServiceError =
    | LoadFailed
    | IndexOutOfRange(index: int)
    | UnknownChannel(name: string)
    | UnknownProviderId(id: string)

  /** The setting name of each channel, as SetChannelEnabled accepts it. */
  function ChannelKey(k: ChannelKind): string {
    match k
    case Telegram => "telegram"
    case Discord => "discord"
    case Slack => "slack"
    case WhatsApp => "whatsapp"
    case Feishu => "feishu"
    case DingTalk => "dingtalk"
    case QQ => "qq"
    case Line => "line"
    case OneBot => "onebot"
    case WeCom => "wecom"
    case WeComApp => "wecom_app"
    case MaixCam => "maixcam"
  }

  /** The channel a setting name selects; no other name selects one. */
  function ChannelNamed(name: string): (r: Option<ChannelKind>)
    ensures r.Some? ==> ChannelKey(r.value) == name
  {
    match name
    case "telegram" => Some(Telegram)
    case "discord" => Some(Discord)
    case "slack" => Some(Slack)
    case "whatsapp" => Some(WhatsApp)
    case "feishu" => Some(Feishu)
    case "dingtalk" => Some(DingTalk)
    case "qq" => Some(QQ)
    case "line" => Some(Line)
    case "onebot" => Some(OneBot)
    case "wecom" => Some(WeCom)
    case "wecom_app" => Some(WeComApp)
    case "maixcam" => Some(MaixCam)
    case _ => None
  }

  /** Every channel is selected by its own setting name, so the twelve names are distinct. */
  lemma ChannelNamesRoundTrip(k: ChannelKind)
    ensures ChannelNamed(ChannelKey(k)) == Some(k)
  {
  }

  /** The list without the entry at index i. */
  function RemoveAt<T>(list: seq<T>, i: nat): (r: seq<T>)
    requires i < |list|
    ensures |r| == |list| - 1
    ensures forall k :: 0 <= k < i ==> r[k] == list[k]
    ensures forall k :: i <= k < |r| ==> r[k] == list[k + 1]
  {
    list[..i] + list[i + 1..]
  }

  /** The index of the first entry with the given model name, or -1. */
  function FirstNamed(list: seq<ModelConfig>, name: string): (r: int)
    ensures -1 <= r < |list|
    ensures r >= 0 ==> list[r].modelName == name
    ensures forall k :: 0 <= k < |list| && (r < 0 || k < r) ==> list[k].modelName != name
  {
    if list == [] then -1
    else if list[0].modelName == name then 0
    else var r := FirstNamed(list[1..], name); if r < 0 then -1 else r + 1
  }

  /** The model list after quick setup: the first entry with the same name replaced, or the entry appended. */
  function Upsert(list: seq<ModelConfig>, m: ModelConfig): seq<ModelConfig> {
    var i := FirstNamed(list, m.modelName);
    if i >= 0 then list[i := m] else list + [m]
  }

  /**
   * After the upsert the entry is listed under its name exactly where the
   * first entry of that name was, or last; every other entry is kept.
   */
  lemma UpsertShape(list: seq<ModelConfig>, m: ModelConfig)
    ensures var r, i := Upsert(list, m), FirstNamed(list, m.modelName);
      if i >= 0 then |r| == |list| && r[i] == m && forall k :: 0 <= k < |list| && k != i ==> r[k] == list[k]
      else r == list + [m]
    ensures LookupModel(Upsert(list, m), m.modelName) == Some(m)
  {
    var r, i := Upsert(list, m), FirstNamed(list, m.modelName);
    if i >= 0 {
      LookupFirst(r, m.modelName, i);
    } else {
      LookupFirst(r, m.modelName, |list|);
    }
  }

  lemma {:induction false} LookupFirst(list: seq<ModelConfig>, name: string, i: nat)
    requires i < |list| && list[i].modelName == name
    requires forall k :: 0 <= k < i ==> list[k].modelName != name
    ensures LookupModel(list, name) == Some(list[i])
  {
    if i > 0 {
      LookupFirst(list[1..], name, i - 1);
    }
  }

  /** The model entry quick setup writes: the given key, or "ollama" for a keyless provider. */
  function QuickSetupModel(p: ProviderOption, apiKey: string): (m: ModelConfig)
    ensures m.modelName == p.modelName && m.model == p.model && m.apiBase == p.apiBase
    ensures m.apiKey == if apiKey == "" && !p.needsKey then "ollama" else apiKey
  {
    var key := if apiKey == "" && !p.needsKey then "ollama" else apiKey;
    ModelConfig(p.modelName, p.model, p.apiBase, key)
  }

  /** The configuration editor. `stored` is the config file: None when it cannot be loaded. */
  class ConfigService {
    var stored: Option<ConfigData>

    constructor (stored: Option<ConfigData>)
      ensures this.stored == stored
    {
      this.stored := stored;
    }

    /** AddModel: the model goes at the end of the list. */
    method AddModel(model: ModelConfig) returns (err: Option<ServiceError>)
      modifies this
      ensures old(stored).None? ==> err == Some(LoadFailed) && stored == old(stored)
      ensures old(stored).Some? ==>
        err.None? && stored == Some(old(stored).value.(modelList := old(stored).value.modelList + [model]))
    {
      if stored.None? {
        return Some(LoadFailed);
      }
      var cfg := stored.value;
      stored := Some(cfg.(modelList := cfg.modelList + [model]));
      return None;
    }

    /** UpdateModel: an index outside the list is an error and nothing is saved; otherwise only that entry is replaced. */
    method UpdateModel(index: int, model: ModelConfig) returns (err: Option<ServiceError>)
      modifies this
      ensures old(stored).None? ==> err == Some(LoadFailed) && stored == old(stored)
      ensures old(stored).Some? && !(0 <= index < |old(stored).value.modelList|) ==>
        err == Some(IndexOutOfRange(index)) && stored == old(stored)
      ensures old(stored).Some? && 0 <= index < |old(stored).value.modelList| ==>
        err.None? && stored == Some(old(stored).value.(modelList := old(stored).value.modelList[index := model]))
    {
      if stored.None? {
        return Some(LoadFailed);
      }
      var cfg := stored.value;
      if index < 0 || index >= |cfg.modelList| {
        return Some(IndexOutOfRange(index));
      }
      stored := Some(cfg.(modelList := cfg.modelList[index := model]));
      return None;
    }

    /** RemoveModel: an index outside the list is an error; otherwise exactly that entry goes. */
    method RemoveModel(index: int) returns (err: Option<ServiceError>)
      modifies this
      ensures old(stored).None? ==> err == Some(LoadFailed) && stored == old(stored)
      ensures old(stored).Some? && !(0 <= index < |old(stored).value.modelList|) ==>
        err == Some(IndexOutOfRange(index)) && stored == old(stored)
      ensures old(stored).Some? && 0 <= index < |old(stored).value.modelList| ==>
        err.None? && stored == Some(old(stored).value.(modelList := RemoveAt(old(stored).value.modelList, index)))
    {
      if stored.None? {
        return Some(LoadFailed);
      }
      var cfg := stored.value;
      if index < 0 || index >= |cfg.modelList| {
        return Some(IndexOutOfRange(index));
      }
      stored := Some(cfg.(modelList := cfg.modelList[..index] + cfg.modelList[index + 1..]));
      return None;
    }

    /** SetChannelEnabled: one of twelve named channels is switched; an unknown name is an error and nothing is saved. */
    method SetChannelEnabled(channel: string, enabled: bool) returns (err: Option<ServiceError>)
      modifies this
      ensures old(stored).None? ==> err == Some(LoadFailed) && stored == old(stored)
      ensures old(stored).Some? && ChannelNamed(channel).None? ==>
        err == Some(UnknownChannel(channel)) && stored == old(stored)
      ensures old(stored).Some? && ChannelNamed(channel).Some? ==>
        err.None? && stored == Some(old(stored).value.(channels := old(stored).value.channels.SetEnabled(ChannelNamed(channel).value, enabled)))
    {
      if stored.None? {
        return Some(LoadFailed);
      }
      var cfg := stored.value;
      var kind := ChannelNamed(channel);
      if kind.None? {
        return Some(UnknownChannel(channel));
      }
      stored := Some(cfg.(channels := cfg.channels.SetEnabled(kind.value, enabled)));
      return None;
    }

    /**
     * QuickSetupProvider: an unknown provider is an error before the config
     * is read; otherwise the provider's model is upserted and made the default.
     */
    method QuickSetupProvider(providerId: string, apiKey: string) returns (err: Option<ServiceError>)
      modifies this
      ensures FirstProvider(AvailableProviders, providerId) < 0 ==>
        err == Some(UnknownProviderId(providerId)) && stored == old(stored)
      ensures FirstProvider(AvailableProviders, providerId) >= 0 && old(stored).None? ==>
        err == Some(LoadFailed) && stored == old(stored)
      ensures FirstProvider(AvailableProviders, providerId) >= 0 && old(stored).Some? ==>
        err.None? &&
        stored == Some(QuickSetupConfig(old(stored).value, AvailableProviders[FirstProvider(AvailableProviders, providerId)], apiKey))
    {
      var found := FindProvider(AvailableProviders, providerId);
      if found < 0 {
        return Some(UnknownProviderId(providerId));
      }
      if stored.None? {
        return Some(LoadFailed);
      }
      var p := AvailableProviders[found];
      var cfg := stored.value;
      var list := UpsertModel(cfg.modelList, QuickSetupModel(p, apiKey));
      stored := Some(cfg.(modelList := list, defaults := cfg.defaults.(modelName := p.modelName)));
      return None;
    }
  }

  /** The search at the start of QuickSetupProvider: the first provider with the id, or -1. */
  method FindProvider(providers: seq<ProviderOption>, id: string) returns (found: int)
    ensures found == FirstProvider(providers, id)
  {
    found := -1;
    var i := 0;
    while i < |providers| && found < 0
      invariant 0 <= i <= |providers|
      invariant found < 0 ==> forall k :: 0 <= k < i ==> providers[k].id != id
      invariant found >= 0 ==> found < |providers| && providers[found].id == id
      invariant found >= 0 ==> forall k :: 0 <= k < found ==> providers[k].id != id
    {
      if providers[i].id == id {
        found := i;
      }
      i := i + 1;
    }
  }

  /** The update-or-append loop of QuickSetupProvider: the first entry with the model's name is replaced, else it is appended. */
  method UpsertModel(list: seq<ModelConfig>, m: ModelConfig) returns (r: seq<ModelConfig>)
    ensures r == Upsert(list, m)
  {
    for i := 0 to |list|
      invariant forall k :: 0 <= k < i ==> list[k].modelName != m.modelName
    {
      if list[i].modelName == m.modelName {
        assert FirstNamed(list, m.modelName) == i;
        return list[i := m];
      }
    }
    assert FirstNamed(list, m.modelName) == -1;
    return list + [m];
  }

  /** The index of the first provider with the id, or -1 when none has it. */
  function FirstProvider(providers: seq<ProviderOption>, id: string): (r: int)
    ensures -1 <= r < |providers|
    ensures r >= 0 ==> providers[r].id == id
    ensures forall k :: 0 <= k < |providers| && (r < 0 || k < r) ==> providers[k].id != id
  {
    if providers == [] then -1
    else if providers[0].id == id then 0
    else var r := FirstProvider(providers[1..], id); if r < 0 then -1 else r + 1
  }

  /** The configuration quick setup saves: the provider's model upserted and named as the default model. */
  function QuickSetupConfig(cfg: ConfigData, p: ProviderOption, apiKey: string): ConfigData {
    cfg.(modelList := Upsert(cfg.modelList, QuickSetupModel(p, apiKey)), defaults := cfg.defaults.(modelName := p.modelName))
  }

  /** After quick setup the default model name resolves to the provider's model entry. */
  lemma QuickSetupDefaultResolves(cfg: ConfigData, p: ProviderOption, apiKey: string)
    ensures var c := QuickSetupConfig(cfg, p, apiKey);
      LookupModel(c.modelList, c.defaults.modelName) == Some(QuickSetupModel(p, apiKey))
  {
    UpsertShape(cfg.modelList, QuickSetupModel(p, apiKey));
  }

  // ---- Bootstrap files and skills (agentsetup.go) ----

  /** The bootstrap files, in the order they are listed. */
  const BootstrapNames: seq<string> := ["AGENTS.md", "SOUL.md", "USER.md", "IDENTITY.md"]

  /** One bootstrap file as the UI shows it. */
  datatype BootstrapFile = BootstrapFile(name: string, path: string, content: string, present: bool)

  /** A file path inside the workspace. */
  function PathIn(workspace: string, name: string): string {
    workspace + "/" + name
  }

  /** The templates of the four bootstrap files; their text is a parameter. */
  function DefaultTemplates(soul: string, identity: string, user: string, agents: string): (m: map<string, string>)
    ensures m.Keys == set n | n in BootstrapNames
  {
    map["SOUL.md" := soul, "IDENTITY.md" := identity, "USER.md" := user, "AGENTS.md" := agents]
  }

  /** The agent workspace: its path and its files by name (a missing key is a missing file). */
  class AgentSetupService {
    const workspace: string
    var files: map<string, string>

    constructor (workspace: string, files: map<string, string>)
      ensures this.workspace == workspace && this.files == files
    {
      this.workspace := workspace;
      this.files := files;
    }

    /** GetBootstrapFiles: the four files in order; a file that can be read is marked present with its text. */
    method GetBootstrapFiles() returns (list: seq<BootstrapFile>)
      ensures |list| == |BootstrapNames|
      ensures forall k :: 0 <= k < |list| ==> list[k].name == BootstrapNames[k] && list[k].path == PathIn(workspace, BootstrapNames[k])
      ensures forall k :: 0 <= k < |list| ==> (list[k].present <==> BootstrapNames[k] in files)
      ensures forall k :: 0 <= k < |list| ==> list[k].content == if BootstrapNames[k] in files then files[BootstrapNames[k]] else ""
    {
      list := [];
      for k := 0 to |BootstrapNames|
        invariant |list| == k
        invariant forall m :: 0 <= m < k ==> list[m] == BootstrapFile(BootstrapNames[m], PathIn(workspace, BootstrapNames[m]),
          if BootstrapNames[m] in files then files[BootstrapNames[m]] else "", BootstrapNames[m] in files)
      {
        var name := BootstrapNames[k];
        var bf := BootstrapFile(name, PathIn(workspace, name), "", false);
        if name in files {
          bf := bf.(content := files[name], present := true);
        }
        list := list + [bf];
      }
    }

    /** SaveBootstrapFile: a name outside the four is an error and writes nothing; otherwise the file holds exactly the text. */
    method SaveBootstrapFile(name: string, content: string) returns (ok: bool)
      modifies this
      ensures ok <==> name in BootstrapNames
      ensures ok ==> files == old(files)[name := content]
      ensures !ok ==> files == old(files)
    {
      var valid := false;
      for k := 0 to |BootstrapNames|
        invariant !valid ==> forall m :: 0 <= m < k ==> BootstrapNames[m] != name
        invariant valid ==> name in BootstrapNames
      {
        if BootstrapNames[k] == name {
          valid := true;
          break;
        }
      }
      if !valid {
        return false;
      }
      files := files[name := content];
      return true;
    }

    /** CreateDefaultBootstrapFiles: each missing file gets its template; existing files are left alone. */
    method CreateDefaultBootstrapFiles(defaults: map<string, string>)
      modifies this
      ensures files.Keys == old(files).Keys + defaults.Keys
      ensures forall n :: n in old(files) ==> files[n] == old(files)[n]
      ensures forall n :: n in defaults && n !in old(files) ==> files[n] == defaults[n]
    {
      ghost var before := files;
      var todo := defaults.Keys;
      while todo != {}
        invariant todo <= defaults.Keys
        invariant files.Keys == before.Keys + (defaults.Keys - todo)
        invariant forall n :: n in before ==> files[n] == before[n]
        invariant forall n :: n in defaults && n !in todo && n !in before ==> files[n] == defaults[n]
        decreases todo
      {
        var name :| name in todo;
        if name !in files {
          files := files[name := defaults[name]];
        }
        todo := todo - {name};
      }
    }
  }

  /** After creating the defaults from the four templates, all four bootstrap files exist. */
  method CreateDefaultsThenList(ws: AgentSetupService, soul: string, identity: string, user: string, agents: string)
    returns (list: seq<BootstrapFile>)
    modifies ws
    ensures forall k :: 0 <= k < |list| ==> list[k].present
  {
    ws.CreateDefaultBootstrapFiles(DefaultTemplates(soul, identity, user, agents));
    list := ws.GetBootstrapFiles();
  }

  /** GetSkillContent: the text of an installed skill; an unknown skill is an error. `installed` stands for the skills loader. */
  function GetSkillContent(installed: map<string, string>, name: string): (r: Result<string, string>)
    ensures r.Ok? <==> name in installed
    ensures r.Ok? ==> r.value == installed[name]
  {
    if name in installed then Ok(installed[name]) else Err("skill not found: " + name)
  }

  // ---- Dashboard (dashboard.go) ----

  /** The channels in the order the dashboard lists them. */
  const DashboardChannels: seq<ChannelKind> :=
    [Telegram, Discord, Slack, WhatsApp, Feishu, DingTalk, QQ, Line, OneBot, WeCom, WeComApp, MaixCam]

  function DisplayName(k: ChannelKind): string {
    match k
    case Telegram => "Telegram"
    case Discord => "Discord"
    case Slack => "Slack"
    case WhatsApp => "WhatsApp"
    case Feishu => "Feishu"
    case DingTalk => "DingTalk"
    case QQ => "QQ"
    case Line => "LINE"
    case OneBot => "OneBot"
    case WeCom => "WeCom"
    case WeComApp => "WeComApp"
    case MaixCam => "MaixCam"
  }

  datatype ChannelInfo = ChannelInfo(name: string, enabled: bool)

  /** getChannelInfos: the twelve channels in a fixed order, each flag mirroring the configuration. */
  function ChannelInfos(ch: ChannelsConfig): (r: seq<ChannelInfo>)
    ensures |r| == 12
    ensures forall k :: 0 <= k < 12 ==> r[k] == ChannelInfo(DisplayName(DashboardChannels[k]), ch.IsEnabled(DashboardChannels[k]))
  {
    seq(12, k requires 0 <= k < 12 => ChannelInfo(DisplayName(DashboardChannels[k]), ch.IsEnabled(DashboardChannels[k])))
  }

  /** Every channel appears exactly once on the dashboard. */
  lemma DashboardListsEveryChannelOnce(k: ChannelKind)
    ensures k in DashboardChannels
    ensures forall a, b :: 0 <= a < b < |DashboardChannels| ==> DashboardChannels[a] != DashboardChannels[b]
  {
  }

  datatype ModelInfo = ModelInfo(modelName: string, model: string, hasKey: bool)

  /** getModelInfos: one entry per model, in order, showing whether it has a key. */
  method ModelInfos(list: seq<ModelConfig>) returns (infos: seq<ModelInfo>)
    ensures |infos| == |list|
    ensures forall k :: 0 <= k < |list| ==>
      infos[k] == ModelInfo(list[k].modelName, list[k].model, list[k].apiKey != "")
  {
    infos := [];
    for k := 0 to |list|
      invariant |infos| == k
      invariant forall m :: 0 <= m < k ==> infos[m] == ModelInfo(list[m].modelName, list[m].model, list[m].apiKey != "")
    {
      infos := infos + [ModelInfo(list[k].modelName, list[k].model, list[k].apiKey != "")];
    }
  }

  /** The health reply of a running gateway, kept as it came. */
  datatype GatewayStatus = GatewayStatus(running: bool, health: Option<string>, channels: seq<ChannelInfo>, models: seq<ModelInfo>)

  /**
   * GetStatus: an unloadable configuration gives the empty status; otherwise
   * the channels and models, and running only when the health reply decodes.
   */
  method GetStatus(cfg: Option<ConfigData>, health: Option<string>) returns (status: GatewayStatus)
    ensures cfg.None? ==> status == GatewayStatus(false, None, [], [])
    ensures cfg.Some? ==>
      status.running == health.Some? && status.health == health &&
      status.channels == ChannelInfos(cfg.value.channels) && |status.models| == |cfg.value.modelList|
    ensures cfg.Some? ==> forall k :: 0 <= k < |cfg.value.modelList| ==>
      status.models[k] == ModelInfo(cfg.value.modelList[k].modelName, cfg.value.modelList[k].model, cfg.value.modelList[k].apiKey != "")
  {
    if cfg.None? {
      return GatewayStatus(false, None, [], []);
    }
    var models := ModelInfos(cfg.value.modelList);
    status := GatewayStatus(false, None, ChannelInfos(cfg.value.channels), models);
    if health.None? {
      return status;
    }
    status := status.(running := true, health := health);
  }

  /** The end of a log: the last `lines` lines when there are more, else all of it. */
  function LogTail(data: string, lines: nat): string {
    var all := Split(data, '\n');
    Join(if |all| > lines then all[|all| - lines..] else all, "\n")
  }

  /** A log with no more lines than asked for is returned whole. */
  lemma ShortLogWhole(data: string, lines: nat)
    requires Count(data, '\n') < lines
    ensures LogTail(data, lines) == data
  {
    SplitShape(data, '\n');
    JoinSplit(data, '\n');
  }

  /** The tail is the end of the log. */
  lemma LogTailIsSuffix(data: string, lines: nat)
    ensures var t := LogTail(data, lines); |t| <= |data| && t == data[|data| - |t|..]
  {
    var all := Split(data, '\n');
    if lines == 0 && |all| > 0 {
      assert all[|all|..] == [];
    } else if |all| > lines {
      JoinSplitSuffix(data, '\n', |all| - lines);
    } else {
      JoinSplit(data, '\n');
    }
  }

  /**
   * The tail holds as many lines as asked for, or all of the log when it
   * has fewer: with n > 0 lines asked for, it has n - 1 line breaks, or the
   * log's own count when that is smaller; asking for none gives nothing.
   */
  lemma LogTailKeepsLastLines(data: string, lines: nat)
    ensures lines == 0 ==> LogTail(data, lines) == ""
    ensures lines > 0 ==>
      Count(LogTail(data, lines), '\n') == if Count(data, '\n') < lines then Count(data, '\n') else lines - 1
  {
    var all := Split(data, '\n');
    SplitShape(data, '\n');
    if |all| > lines {
      var tail := all[|all| - lines..];
      assert forall k :: 0 <= k < |tail| ==> tail[k] == all[|all| - lines + k];
      if lines > 0 {
        CountJoin(tail, '\n');
      }
    } else {
      JoinSplit(data, '\n');
    }
  }

  /** Joining the pieces of a split from the k-th on gives the end of the text. */
  lemma {:induction false} JoinSplitSuffix(s: string, c: char, k: nat)
    requires k < |Split(s, c)|
    ensures var t := Join(Split(s, c)[k..], [c]); |t| <= |s| && t == s[|s| - |t|..]
    decreases |s|
  {
    var i := IndexOfChar(s, c);
    if k == 0 {
      assert Split(s, c)[0..] == Split(s, c);
      JoinSplit(s, c);
    } else {
      var rest := s[i + 1..];
      assert Split(s, c) == [s[..i]] + Split(rest, c);
      assert Split(s, c)[k..] == Split(rest, c)[k - 1..];
      JoinSplitSuffix(rest, c, k - 1);
    }
  }

  // ---- Setup state (app.go) ----

  datatype SetupState = SetupState(binaryInstalled: bool, configExists: bool, hasApiKey: bool)

  /** A key that counts as configured: set, and not the local placeholder. */
  predicate HasRealKey(m: ModelConfig) {
    m.apiKey != "" && m.apiKey != "ollama"
  }

  predicate SomeRealKey(list: seq<ModelConfig>) {
    exists k :: 0 <= k < |list| && HasRealKey(list[k])
  }

  /**
   * GetSetupState. `binaryExists` is what platform detection reports,
   * `configExists` whether the config file exists, `loaded` the result of
   * loading it.
   */
  method GetSetupState(binaryExists: bool, configExists: bool, loaded: Option<ConfigData>) returns (state: SetupState)
    ensures state.binaryInstalled == binaryExists && state.configExists == configExists
    ensures state.hasApiKey ==> state.configExists
    ensures state.hasApiKey <==> (configExists && loaded.Some? && SomeRealKey(loaded.value.modelList))
  {
    state := SetupState(binaryExists, false, false);
    if configExists {
      state := state.(configExists := true);
    }
    if state.configExists && loaded.Some? {
      var list := loaded.value.modelList;
      var k := 0;
      while k < |list| && !state.hasApiKey
        invariant 0 <= k <= |list|
        invariant !state.hasApiKey ==> forall m :: 0 <= m < k ==> !HasRealKey(list[m])
        invariant state.hasApiKey ==> SomeRealKey(list)
        invariant state.binaryInstalled == binaryExists && state.configExists
      {
        if list[k].apiKey != "" && list[k].apiKey != "ollama" {
          state := state.(hasApiKey := true);
        }
        k := k + 1;
      }
    }
  }

  /** getConfigPath: the config file under the home directory, or "" when the home directory is unknown. */
  function ConfigPath(home: Option<string>): (p: string)
    ensures home.None? ==> p == ""
    ensures home.Some? ==> p == home.value + "/.agentx/config.json"
  {
    if home.None? then "" else home.value + "/" + ".agentx" + "/" + "config.json"
  }
}
