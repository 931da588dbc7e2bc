/**
 * The pure helpers of the backend-analysis service: looking up one agent's
 * configuration by name, building the discovery card served at
 * `/.well-known/agent.json`, and extracting the status line from the
 * speaker-selection agent's reply.
 */
module AgentConfig {
  import opened Wrappers
  import opened Strings
  import opened Values

  // ---------------------------------------------------------------------
  // _agent_cfg_by_name
  // ---------------------------------------------------------------------

  /** `a.get("name") == name`: the entry has a `name` key holding exactly this string. */
  predicate NameIs(a: Config, name: string) {
    "name" in a && a["name"] == Str(name)
  }

  /** `CFG.get("agents") or []` for the typed list; `None` stands for an absent or `None` entry. */
  function AgentList(agents: Option<seq<Config>>): seq<Config> {
    OrEmpty(agents)
  }

  /**
   * `_agent_cfg_by_name(name)`: the first agent entry whose name is `name`,
   * or the empty mapping when no entry matches or the list is absent.
   */
  method AgentCfgByName(agents: Option<seq<Config>>, name: string) returns (cfg: Config)
    ensures var list := AgentList(agents);
            (forall i :: 0 <= i < |list| ==> !NameIs(list[i], name)) ==> cfg == map[]
    ensures var list := AgentList(agents);
            (exists i :: 0 <= i < |list| && NameIs(list[i], name)) ==>
              exists i :: 0 <= i < |list| && cfg == list[i] && NameIs(list[i], name)
                          && forall j :: 0 <= j < i ==> !NameIs(list[j], name)
  {
    var list := AgentList(agents);
    var i := 0;
    while i < |list|
      invariant 0 <= i <= |list|
      invariant forall j :: 0 <= j < i ==> !NameIs(list[j], name)
    {
      if NameIs(list[i], name) {
        return list[i];
      }
      i := i + 1;
    }
    return map[];
  }

  // ---------------------------------------------------------------------
  // agent_card
  // ---------------------------------------------------------------------

  /** The default skill advertised when the configuration names none. */
  const DefaultSkill: Value := Dict(map[
    "id" := Str("sse_article"),
    "name" := Str("Autonomous Analysis"),
    "description" := Str("Runs an autonomous multi-agent analysis and streams updates via SSE"),
    "inputModes" := List([Str("text")]),
    "outputModes" := List([Str("json")])
  ])

  /** The card's fields other than `capabilities`, each with the value used when the key is absent. */
  const CardDefaults: map<string, Value> := map[
    "name" := Str("backend_analysis_team"),
    "description" := Str("Multi-agent backend performance analysis with SSE"),
    "url" := Str(""),
    "version" := Str("1.0.0"),
    "authentication" := Dict(map["schemes" := List([])]),
    "defaultInputModes" := List([Str("text")]),
    "defaultOutputModes" := List([Str("json")]),
    "skills" := List([DefaultSkill])
  ]

  /** `**x` of a value that is not a mapping raises `TypeError`. */
  datatype CardError = CapabilitiesNotAMapping(found: Value)

  /** The configured capabilities after `or {}`: any false value counts as no capabilities. */
  function ConfiguredCapabilities(section: Config): Value {
    if "capabilities" in section && Truthy(section["capabilities"]) then section["capabilities"] else Dict(map[])
  }

  /**
   * `agent_card()` over the `agent_card` section of the configuration: every
   * field is the configured value when its key is present, else its
   * default; `capabilities` is `{"streaming": True}` overlaid with the
   * configured capabilities, so a configured key (`streaming` included) wins.
   */
  function AgentCard(section: Config): (r: Result<Config, CardError>)
    ensures r.Success? <==> ConfiguredCapabilities(section).Dict?
    ensures r.Failure? ==> r.error == CapabilitiesNotAMapping(ConfiguredCapabilities(section))
    ensures r.Success? ==> r.value.Keys == CardDefaults.Keys + {"capabilities"}
    ensures r.Success? ==> forall k :: k in CardDefaults ==>
              r.value[k] == (if k in section then section[k] else CardDefaults[k])
    ensures r.Success? ==>
              var configured := ConfiguredCapabilities(section).fields;
              && r.value["capabilities"].Dict?
              && r.value["capabilities"].fields.Keys == configured.Keys + {"streaming"}
              && (forall k :: k in configured ==> r.value["capabilities"].fields[k] == configured[k])
              && ("streaming" !in configured ==> r.value["capabilities"].fields["streaming"] == Bool(true))
  {
    var caps := ConfiguredCapabilities(section);
    if !caps.Dict? then Failure(CapabilitiesNotAMapping(caps))
    else
      var fields := map k | k in CardDefaults :: Get(section, k, CardDefaults[k]);
      Success(fields["capabilities" := Dict(map["streaming" := Bool(true)] + caps.fields)])
  }

  /** With no capabilities configured, or false ones (`None`, `{}`), the card advertises streaming only. */
  lemma EmptyCapabilitiesMeanStreamingOnly(section: Config)
    requires "capabilities" !in section || !Truthy(section["capabilities"])
    ensures AgentCard(section).Success?
    ensures AgentCard(section).value["capabilities"] == Dict(map["streaming" := Bool(true)])
  {
  }

  /** A configured `streaming` flag overrides the default `True`. */
  lemma ConfiguredStreamingWins(section: Config, flag: Value)
    requires "capabilities" in section && section["capabilities"].Dict?
    requires "streaming" in section["capabilities"].fields
    requires section["capabilities"].fields["streaming"] == flag
    ensures AgentCard(section).Success?
    ensures AgentCard(section).value["capabilities"].fields["streaming"] == flag
  {
  }

  // ---------------------------------------------------------------------
  // The status emitted for the speaker-selection agent
  // ---------------------------------------------------------------------

  /** `content.split(":")[-1].strip()`. */
  function SpeakerStatus(content: string): (status: string)
    ensures ':' !in status
    ensures status == [] || (!IsSpace(status[0]) && !IsSpace(status[|status| - 1]))
  {
    var parts := Split(content, ':');
    Strip(parts[|parts| - 1])
  }

  /** The status is the stripped text after the last colon. */
  lemma StatusIsAfterLastColon(content: string, k: nat)
    requires 1 <= k <= |content| && content[k - 1] == ':' && ':' !in content[k..]
    ensures SpeakerStatus(content) == Strip(content[k..])
  {
    LastPieceAfterLastSep(content, ':', k);
  }

  /** Without a colon, the status is the whole content, stripped. */
  lemma StatusWithoutColon(content: string)
    requires ':' !in content
    ensures SpeakerStatus(content) == Strip(content)
  {
    SplitWithoutSep(content, ':');
  }
}
