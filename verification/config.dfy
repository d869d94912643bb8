/**
 * The parts of the configuration record the modelled code reads or writes.
 * Fields that no modelled operation touches are left out.
 */
module Configuration {
  import opened Wrappers

  /** One entry of `model_list`. */
  datatype ModelConfig = ModelConfig(modelName: string, model: string, apiBase: string, apiKey: string)

  /** The `agents.defaults` fields the modelled code uses. */
  datatype AgentDefaults = AgentDefaults(modelName: string, model: string)

  /** The twelve channel sections of the configuration. */
  datatype ChannelKind =
    Telegram | Discord | Slack | WhatsApp | Feishu | DingTalk | QQ | Line | OneBot | WeCom | WeComApp | MaixCam

  /** Enabled flags of all channels (an absent key reads as Go's zero value, false) and the tokens the wizard writes. */
  datatype ChannelsConfig = ChannelsConfig(
    enabled: map<ChannelKind, bool>,
    telegramToken: string, discordToken: string,
    slackBotToken: string, slackAppToken: string,
    whatsAppBridgeUrl: string)
  {
    predicate IsEnabled(k: ChannelKind) {
      k in enabled && enabled[k]
    }

    function SetEnabled(k: ChannelKind, on: bool): (r: ChannelsConfig)
      ensures r.IsEnabled(k) == on
      ensures forall j :: j != k ==> r.IsEnabled(j) == IsEnabled(j)
      ensures r.(enabled := enabled) == this
    {
      this.(enabled := enabled[k := on])
    }
  }

  /** A value snapshot of a configuration, as a config file holds it. */
  datatype ConfigData = ConfigData(modelList: seq<ModelConfig>, defaults: AgentDefaults, channels: ChannelsConfig)

  /** A loaded `*config.Config` whose fields the code assigns in place. */
  class Config {
    var modelList: seq<ModelConfig>
    var defaults: AgentDefaults
    var channels: ChannelsConfig

    constructor (d: ConfigData)
      ensures Data() == d
    {
      modelList := d.modelList;
      defaults := d.defaults;
      channels := d.channels;
    }

    function Data(): ConfigData
      reads this
    {
      ConfigData(modelList, defaults, channels)
    }
  }

  /** The names of the entries of a model list. */
  function ModelNames(list: seq<ModelConfig>): (names: set<string>)
    ensures forall i :: 0 <= i < |list| ==> list[i].modelName in names
    ensures forall n :: n in names ==> exists i :: 0 <= i < |list| && list[i].modelName == n
  {
    set i | 0 <= i < |list| :: list[i].modelName
  }

  /**
   * `Config.GetModelConfig`, whose code is not part of this model, taken to
   * return the first entry with the requested name.
   */
  function LookupModel(list: seq<ModelConfig>, name: string): (r: Option<ModelConfig>)
    ensures r.None? <==> name !in ModelNames(list)
    ensures r.Some? ==> r.value in list && r.value.modelName == name
  {
    if list == [] then None
    else if list[0].modelName == name then Some(list[0])
    else LookupModel(list[1..], name)
  }
}
