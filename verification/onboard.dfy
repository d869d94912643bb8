/**
 * The onboarding wizard (cmd/agentx/internal/onboard): its provider and
 * channel tables, the model configuration built from a chosen provider, the
 * configuration the wizard saves, and the checks of the non-interactive
 * mode. The prompts, the config file on disk and the service installation
 * are not part of this model.
 */
module Onboard {
  import opened Wrappers
  import opened Configuration

  /** One selectable LLM provider. */
  datatype ProviderInfo = ProviderInfo(
    name: string,
    id: string,
    modelName: string,
    model: string,
    apiBase: string,
    defaultKey: string,
    keyUrl: string,
    needsKey: bool)

  /** The provider table, in the order the wizard offers it. */
  const Providers: seq<ProviderInfo> := [
    ProviderInfo("OpenAI", "openai", "gpt-5.2", "openai/gpt-5.2", "https://api.openai.com/v1",
      "", "https://platform.openai.com/api-keys", true),
    ProviderInfo("Anthropic", "anthropic", "claude-sonnet-4.6", "anthropic/claude-sonnet-4.6", "https://api.anthropic.com/v1",
      "", "https://console.anthropic.com/settings/keys", true),
    ProviderInfo("Google Gemini", "gemini", "gemini-2.0-flash", "gemini/gemini-2.0-flash-exp",
      "https://generativelanguage.googleapis.com/v1beta", "", "https://ai.google.dev/", true),
    ProviderInfo("DeepSeek", "deepseek", "deepseek-chat", "deepseek/deepseek-chat", "https://api.deepseek.com/v1",
      "", "https://platform.deepseek.com/", true),
    ProviderInfo("Groq", "groq", "llama-3.3-70b", "groq/llama-3.3-70b-versatile", "https://api.groq.com/openai/v1",
      "", "https://console.groq.com/keys", true),
    ProviderInfo("OpenRouter (100+ models)", "openrouter", "openrouter-auto", "openrouter/auto", "https://openrouter.ai/api/v1",
      "", "https://openrouter.ai/keys", true),
    ProviderInfo("Ollama (local)", "ollama", "llama3", "ollama/llama3", "http://localhost:11434/v1",
      "ollama", "", false),
    ProviderInfo("Mistral AI", "mistral", "mistral-small", "mistral/mistral-small-latest", "https://api.mistral.ai/v1",
      "", "https://console.mistral.ai/api-keys", true),
    ProviderInfo("Cerebras", "cerebras", "cerebras-llama-3.3-70b", "cerebras/llama-3.3-70b", "https://api.cerebras.ai/v1",
      "", "https://inference.cerebras.ai/", true)
  ]

  /** The ids of the provider table. */
  const ProviderIds: seq<string> := ["openai", "anthropic", "gemini", "deepseek", "groq", "openrouter", "ollama", "mistral", "cerebras"]

  /** The table lists the nine ids in order. */
  lemma ProviderIdsInOrder()
    ensures |Providers| == |ProviderIds| == 9
    ensures forall k :: 0 <= k < |Providers| ==> Providers[k].id == ProviderIds[k]
  {
  }

  /** No two providers share an id. */
  lemma ProviderIdsDistinct()
    ensures forall a, b :: 0 <= a < b < |ProviderIds| ==> ProviderIds[a] != ProviderIds[b]
  {
  }

  /**
   * Every provider has a model alias, a model and an endpoint; only ollama
   * needs no key, and only ollama has a default key.
   */
  lemma ProvidersComplete()
    ensures forall k :: 0 <= k < |Providers| ==>
      Providers[k].modelName != "" && Providers[k].model != "" && Providers[k].apiBase != ""
    ensures forall k :: 0 <= k < |Providers| ==> (!Providers[k].needsKey <==> Providers[k].id == "ollama")
    ensures forall k :: 0 <= k < |Providers| ==>
      Providers[k].defaultKey == (if Providers[k].id == "ollama" then "ollama" else "")
  {
  }

  /** findProvider: the entry with the given id, if any. */
  method FindProvider(id: string) returns (p: Option<ProviderInfo>)
    ensures p.Some? <==> id in ProviderIds
    ensures p.Some? ==> p.value in Providers && p.value.id == id
  {
    ProviderIdsInOrder();
    for k := 0 to |Providers|
      invariant forall m :: 0 <= m < k ==> ProviderIds[m] != id
    {
      if Providers[k].id == id {
        return Some(Providers[k]);
      }
    }
    return None;
  }

  /** buildModelConfig: the provider's model entry, with the given key or else the provider's default key. */
  function BuildModelConfig(p: ProviderInfo, apiKey: string): (m: ModelConfig)
    ensures m.modelName == p.modelName && m.model == p.model && m.apiBase == p.apiBase
    ensures apiKey != "" ==> m.apiKey == apiKey
    ensures apiKey == "" ==> m.apiKey == p.defaultKey
  {
    var key := if apiKey == "" then p.defaultKey else apiKey;
    ModelConfig(p.modelName, p.model, p.apiBase, key)
  }

  /** An empty key becomes "ollama" for ollama and stays empty for a provider that needs a key. */
  lemma EmptyKeyDefaults(p: ProviderInfo)
    requires p in Providers
    ensures BuildModelConfig(p, "").apiKey == if p.needsKey then "" else "ollama"
  {
    ProvidersComplete();
  }

  /** One credential a channel asks for. */
  datatype TokenField = TokenField(title: string, placeholder: string, configField: string)

  /** One chat channel the wizard can set up. */
  datatype ChannelInfo = ChannelInfo(name: string, id: string, tokenFields: seq<TokenField>, helpUrl: string)

  /** The channel table. */
  const Channels: seq<ChannelInfo> := [
    ChannelInfo("Telegram", "telegram",
      [TokenField("Bot Token", "123456:ABC-DEF...", "token")], "https://core.telegram.org/bots#botfather"),
    ChannelInfo("Discord", "discord",
      [TokenField("Bot Token", "your-discord-bot-token", "token")], "https://discord.com/developers/applications"),
    ChannelInfo("Slack", "slack",
      [TokenField("Bot Token (xoxb-...)", "xoxb-...", "bot_token"), TokenField("App Token (xapp-...)", "xapp-...", "app_token")],
      "https://api.slack.com/apps"),
    ChannelInfo("WhatsApp", "whatsapp",
      [TokenField("Bridge URL", "ws://localhost:3001", "bridge_url")], "https://github.com/nicechatx/chat-to-api")
  ]

  const ChannelIds: seq<string> := ["telegram", "discord", "slack", "whatsapp"]

  /**
   * Four channels with distinct ids, each with a name, token fields and a
   * help link; Slack asks for a bot token then an app token, every other
   * channel for one credential.
   */
  lemma ChannelsTable()
    ensures |Channels| == 4
    ensures forall k :: 0 <= k < |Channels| ==> Channels[k].id == ChannelIds[k]
    ensures forall a, b :: 0 <= a < b < |Channels| ==> Channels[a].id != Channels[b].id
    ensures forall c :: c in Channels ==> c.name != "" && c.tokenFields != [] && c.helpUrl != ""
    ensures forall c :: c in Channels ==> |c.tokenFields| == (if c.id == "slack" then 2 else 1)
    ensures Channels[2].tokenFields[0].configField == "bot_token" && Channels[2].tokenFields[1].configField == "app_token"
  {
  }

  /** findChannel: the entry with the given id, if any. */
  method FindChannel(id: string) returns (c: Option<ChannelInfo>)
    ensures c.Some? <==> id in ChannelIds
    ensures c.Some? ==> c.value in Channels && c.value.id == id
  {
    ChannelsTable();
    for k := 0 to |Channels|
      invariant forall m :: 0 <= m < k ==> ChannelIds[m] != id
    {
      if Channels[k].id == id {
        return Some(Channels[k]);
      }
    }
    return None;
  }

  /** The channel settings after applyChannelConfig. */
  function ApplyChannels(ch: ChannelsConfig, channelId: string, tokens: seq<string>): ChannelsConfig {
    var first := if |tokens| > 0 then Some(tokens[0]) else None;
    match channelId
    case "telegram" => ch.SetEnabled(Telegram, true).(telegramToken := first.GetOr(ch.telegramToken))
    case "discord" => ch.SetEnabled(Discord, true).(discordToken := first.GetOr(ch.discordToken))
    case "slack" =>
      ch.SetEnabled(Slack, true).(slackBotToken := first.GetOr(ch.slackBotToken),
        slackAppToken := if |tokens| > 1 then tokens[1] else ch.slackAppToken)
    case "whatsapp" => ch.SetEnabled(WhatsApp, true).(whatsAppBridgeUrl := first.GetOr(ch.whatsAppBridgeUrl))
    case _ => ch
  }

  /** The channel kind a wizard channel id enables. */
  function WizardChannelKind(channelId: string): Option<ChannelKind> {
    match channelId
    case "telegram" => Some(Telegram)
    case "discord" => Some(Discord)
    case "slack" => Some(Slack)
    case "whatsapp" => Some(WhatsApp)
    case _ => None
  }

  /**
   * Applying a known channel enables it and no other; its first token goes
   * to its credential (and Slack's second to the app token); an unknown
   * channel changes nothing.
   */
  lemma ApplyChannelsEffect(ch: ChannelsConfig, channelId: string, tokens: seq<string>)
    ensures WizardChannelKind(channelId).None? ==> ApplyChannels(ch, channelId, tokens) == ch
    ensures WizardChannelKind(channelId).Some? ==>
      var r := ApplyChannels(ch, channelId, tokens);
      var k := WizardChannelKind(channelId).value;
      r.IsEnabled(k) && forall j :: j != k ==> r.IsEnabled(j) == ch.IsEnabled(j)
    ensures channelId == "telegram" && |tokens| > 0 ==> ApplyChannels(ch, channelId, tokens).telegramToken == tokens[0]
    ensures channelId == "discord" && |tokens| > 0 ==> ApplyChannels(ch, channelId, tokens).discordToken == tokens[0]
    ensures channelId == "slack" && |tokens| > 0 ==> ApplyChannels(ch, channelId, tokens).slackBotToken == tokens[0]
    ensures channelId == "slack" && |tokens| > 1 ==> ApplyChannels(ch, channelId, tokens).slackAppToken == tokens[1]
    ensures channelId == "whatsapp" && |tokens| > 0 ==> ApplyChannels(ch, channelId, tokens).whatsAppBridgeUrl == tokens[0]
    ensures tokens == [] ==> ApplyChannels(ch, channelId, tokens).(enabled := ch.enabled) == ch
  {
  }

  /** applyChannelConfig on a loaded configuration. */
  method ApplyChannelConfig(cfg: Config, channelId: string, tokens: seq<string>)
    modifies cfg
    ensures cfg.Data() == old(cfg.Data()).(channels := ApplyChannels(old(cfg.channels), channelId, tokens))
  {
    match channelId {
      case "telegram" =>
        cfg.channels := cfg.channels.SetEnabled(Telegram, true);
        if |tokens| > 0 {
          cfg.channels := cfg.channels.(telegramToken := tokens[0]);
        }
      case "discord" =>
        cfg.channels := cfg.channels.SetEnabled(Discord, true);
        if |tokens| > 0 {
          cfg.channels := cfg.channels.(discordToken := tokens[0]);
        }
      case "slack" =>
        cfg.channels := cfg.channels.SetEnabled(Slack, true);
        if |tokens| > 0 {
          cfg.channels := cfg.channels.(slackBotToken := tokens[0]);
        }
        if |tokens| > 1 {
          cfg.channels := cfg.channels.(slackAppToken := tokens[1]);
        }
      case "whatsapp" =>
        cfg.channels := cfg.channels.SetEnabled(WhatsApp, true);
        if |tokens| > 0 {
          cfg.channels := cfg.channels.(whatsAppBridgeUrl := tokens[0]);
        }
      case _ =>
    }
  }

  /** The configuration the wizard saves, starting from the default configuration `base`. */
  function WizardConfig(base: ConfigData, p: ProviderInfo, apiKey: string, channelId: string, tokens: seq<string>): ConfigData {
    ConfigData(
      [BuildModelConfig(p, apiKey)],
      base.defaults.(modelName := p.modelName, model := ""),
      if channelId != "" && channelId != "skip" then ApplyChannels(base.channels, channelId, tokens) else base.channels)
  }

  /** saveWizardConfig: a fresh configuration holding the chosen provider's model, its default, and the chosen channel. */
  method SaveWizardConfig(base: ConfigData, p: ProviderInfo, apiKey: string, channelId: string, tokens: seq<string>)
    returns (cfg: Config)
    ensures fresh(cfg)
    ensures cfg.Data() == WizardConfig(base, p, apiKey, channelId, tokens)
  {
    cfg := new Config(base);
    cfg.modelList := [BuildModelConfig(p, apiKey)];
    cfg.defaults := cfg.defaults.(modelName := p.modelName);
    cfg.defaults := cfg.defaults.(model := "");
    if channelId != "" && channelId != "skip" {
      ApplyChannelConfig(cfg, channelId, tokens);
    }
  }

  /**
   * The saved configuration lists exactly the chosen provider's model and
   * makes it the default; with no channel, or "skip", the channels are
   * those of the defaults.
   */
  lemma WizardConfigShape(base: ConfigData, p: ProviderInfo, apiKey: string, channelId: string, tokens: seq<string>)
    ensures var c := WizardConfig(base, p, apiKey, channelId, tokens);
      c.modelList == [BuildModelConfig(p, apiKey)] && c.defaults.modelName == p.modelName && c.defaults.model == "" &&
      LookupModel(c.modelList, c.defaults.modelName) == Some(BuildModelConfig(p, apiKey))
    ensures channelId == "" || channelId == "skip" ==> WizardConfig(base, p, apiKey, channelId, tokens).channels == base.channels
  {
    var m := BuildModelConfig(p, apiKey);
    assert [m][0].modelName == p.modelName;
  }

  datatype WizardError =
    | UnknownProvider(id: string)
    | KeyRequired(providerName: string, keyUrl: string)

  /**
   * runNonInteractive up to the save: an unknown provider or a missing
   * required key is rejected before anything is saved; otherwise the
   * configuration to save.
   */
  method RunNonInteractive(base: ConfigData, providerId: string, apiKey: string) returns (r: Result<ConfigData, WizardError>)
    ensures providerId !in ProviderIds ==> r == Err(UnknownProvider(providerId))
    ensures r.Err? && r.error.KeyRequired? ==> providerId in ProviderIds && apiKey == "" && providerId != "ollama"
    ensures r.Ok? <==> providerId in ProviderIds && (apiKey != "" || providerId == "ollama")
    ensures r.Ok? ==> exists p :: p in Providers && p.id == providerId && r.value == WizardConfig(base, p, apiKey, "", [])
  {
    ProvidersComplete();
    var p := FindProvider(providerId);
    if p.None? {
      return Err(UnknownProvider(providerId));
    }
    var provider := p.value;
    if provider.needsKey && apiKey == "" {
      return Err(KeyRequired(provider.name, provider.keyUrl));
    }
    var cfg := SaveWizardConfig(base, provider, apiKey, "", []);
    return Ok(cfg.Data());
  }
}
