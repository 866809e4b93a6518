/** The model configuration resolver: turns a partial model descriptor plus the
    per-run overrides into a fully populated model configuration.

    The preset catalog, the set of known base providers and the two enrichment
    helpers (Claude headers, Azure-Claude parameters) are not visible to this
    model; they are passed in as a `Tables` value. */
module ModelResolver {
  import opened Wrappers

  type Headers = map<string, string>
  type Params = map<string, string>

  /** A model descriptor. The same shape is the resolver's input (any field may
      be missing) and its output (provider, id and baseProvider always set). */
  datatype AgentModel = AgentModel(
    provider: Option<string>,
    id: Option<string>,
    displayName: Option<string>,
    baseURL: Option<string>,
    apiKey: Option<string>,
    headers: Option<Headers>,
    params: Option<Params>,
    baseProvider: Option<string>)

  /** What `agentModel?.field` reads when no agent model is given. */
  const NoModel := AgentModel(None, None, None, None, None, None, None, None)

  /** An entry of the high-level provider catalog. */
  datatype ProviderPreset = ProviderPreset(
    name: string,
    extendsProvider: Option<string>,
    baseURL: Option<string>,
    apiKey: Option<string>)

  /** The static tables and helpers the resolver reads. */
  datatype Tables = Tables(
    presets: seq<ProviderPreset>,
    knownBaseProviders: set<string>,
    addClaudeHeaders: (string, Option<Headers>) -> Option<Headers>,
    addAzureClaudeParams: (string, string, Option<Params>) -> Option<Params>)

  const DefaultProvider := "openai"
  const DefaultModelId := "gpt-4o"
  const FallbackBaseProvider := "openai-compatible"

  /** JavaScript truthiness of an optional string: `undefined` and `''` are falsy. */
  predicate Truthy(s: Option<string>) {
    s.Some? && s.value != ""
  }

  /** JavaScript `a || b` on optional strings. */
  function Or(a: Option<string>, b: Option<string>): Option<string> {
    if Truthy(a) then a else b
  }

  /** `i` is the position of the first preset named `name`. */
  predicate IsFirstMatch(presets: seq<ProviderPreset>, name: string, i: int) {
    && 0 <= i < |presets|
    && presets[i].name == name
    && forall j :: 0 <= j < i ==> presets[j].name != name
  }

  /** The catalog lookup `find((c) => c.name === providerName)`: the first
      preset with that name, or nothing when no preset has it. */
  function GetDefaultConfig(presets: seq<ProviderPreset>, providerName: string): (r: Option<ProviderPreset>)
    ensures r.None? <==> forall i :: 0 <= i < |presets| ==> presets[i].name != providerName
    ensures r.Some? ==> exists i :: IsFirstMatch(presets, providerName, i) && presets[i] == r.value
  {
    if |presets| == 0 then None
    else if presets[0].name == providerName then
      assert IsFirstMatch(presets, providerName, 0);
      Some(presets[0])
    else
      var r := GetDefaultConfig(presets[1..], providerName);
      if r.None? then
        assert forall i :: 1 <= i < |presets| ==> presets[i] == presets[1..][i - 1];
        r
      else
        var k :| IsFirstMatch(presets[1..], providerName, k) && presets[1..][k] == r.value;
        assert IsFirstMatch(presets, providerName, k + 1);
        r
  }

  /** The execution family of a provider name: the `extends` of its first
      preset when that is truthy, else the name itself when it is a known base
      provider, else `'openai-compatible'`. */
  function GetActualProvider(t: Tables, providerName: string): (r: string)
    ensures forall i :: IsFirstMatch(t.presets, providerName, i) && Truthy(t.presets[i].extendsProvider) ==>
      r == t.presets[i].extendsProvider.value
    ensures (forall i :: IsFirstMatch(t.presets, providerName, i) ==> !Truthy(t.presets[i].extendsProvider)) ==>
      r == (if providerName in t.knownBaseProviders then providerName else FallbackBaseProvider)
  {
    var config := GetDefaultConfig(t.presets, providerName);
    if config.Some? && Truthy(config.value.extendsProvider) then
      config.value.extendsProvider.value
    else if providerName in t.knownBaseProviders then
      providerName
    else
      FallbackBaseProvider
  }

  /** `resolveModel(agentModel, runModel, runProvider)`. */
  function ResolveModel(t: Tables, agentModel: Option<AgentModel>, runModel: Option<string>, runProvider: Option<string>): (r: AgentModel)
    // provider: run override, then the agent model's, then 'openai'; empty strings fall through
    ensures r.provider.Some? && r.provider.value != ""
    ensures Truthy(runProvider) ==> r.provider == runProvider
    ensures var m := agentModel.GetOr(NoModel);
      !Truthy(runProvider) && Truthy(m.provider) ==> r.provider == m.provider
    ensures var m := agentModel.GetOr(NoModel);
      !Truthy(runProvider) && !Truthy(m.provider) ==> r.provider == Some(DefaultProvider)
    // id: run override, then the agent model's, then 'gpt-4o'
    ensures r.id.Some? && r.id.value != ""
    ensures Truthy(runModel) ==> r.id == runModel
    ensures var m := agentModel.GetOr(NoModel);
      !Truthy(runModel) && Truthy(m.id) ==> r.id == m.id
    ensures var m := agentModel.GetOr(NoModel);
      !Truthy(runModel) && !Truthy(m.id) ==> r.id == Some(DefaultModelId)
    // displayName is passed through, with no default
    ensures r.displayName == agentModel.GetOr(NoModel).displayName
    // baseURL and apiKey: a truthy own value is kept; otherwise the first
    // matching preset's value; with no matching preset the own value stays
    ensures var m := agentModel.GetOr(NoModel);
      Truthy(m.baseURL) ==> r.baseURL == m.baseURL
    ensures var m := agentModel.GetOr(NoModel);
      Truthy(m.apiKey) ==> r.apiKey == m.apiKey
    ensures var m := agentModel.GetOr(NoModel);
      (forall i :: 0 <= i < |t.presets| ==> t.presets[i].name != r.provider.value) ==>
        r.baseURL == m.baseURL && r.apiKey == m.apiKey
    ensures var m := agentModel.GetOr(NoModel);
      forall i :: IsFirstMatch(t.presets, r.provider.value, i) ==>
        && (!Truthy(m.baseURL) ==> r.baseURL == t.presets[i].baseURL)
        && (!Truthy(m.apiKey) ==> r.apiKey == t.presets[i].apiKey)
    // headers and params are exactly what the enrichment helpers return
    ensures r.headers == t.addClaudeHeaders(r.id.value, agentModel.GetOr(NoModel).headers)
    ensures r.params == t.addAzureClaudeParams(r.id.value, r.provider.value, agentModel.GetOr(NoModel).params)
    // baseProvider is the execution family of the resolved provider
    ensures r.baseProvider == Some(GetActualProvider(t, r.provider.value))
  {
    var m := agentModel.GetOr(NoModel);
    var provider := Or(Or(runProvider, m.provider), Some(DefaultProvider)).value;
    var model := Or(Or(runModel, m.id), Some(DefaultModelId)).value;
    var defaultConfig := GetDefaultConfig(t.presets, provider);
    var baseURL := if defaultConfig.Some? then Or(m.baseURL, defaultConfig.value.baseURL) else m.baseURL;
    var apiKey := if defaultConfig.Some? then Or(m.apiKey, defaultConfig.value.apiKey) else m.apiKey;
    AgentModel(
      provider := Some(provider),
      id := Some(model),
      displayName := m.displayName,
      baseURL := baseURL,
      apiKey := apiKey,
      headers := t.addClaudeHeaders(model, m.headers),
      params := t.addAzureClaudeParams(model, provider, m.params),
      baseProvider := Some(GetActualProvider(t, provider)))
  }

  /** A later preset with the same name is never consulted: appending presets
      after a name's first match does not change the lookup. */
  lemma {:induction false} LaterDuplicatePresetIgnored(presets: seq<ProviderPreset>, more: seq<ProviderPreset>, name: string)
    requires exists i :: 0 <= i < |presets| && presets[i].name == name
    ensures GetDefaultConfig(presets + more, name) == GetDefaultConfig(presets, name)
  {
    if presets[0].name != name {
      assert presets + more == [presets[0]] + (presets[1..] + more);
      assert (presets + more)[1..] == presets[1..] + more;
      var i :| 0 <= i < |presets| && presets[i].name == name;
      assert presets[1..][i - 1].name == name;
      LaterDuplicatePresetIgnored(presets[1..], more, name);
    }
  }

  /** Hence a duplicate preset that comes later, with or without `extends`,
      does not change the execution family of that name. */
  lemma ShadowedPresetIgnored(t: Tables, more: seq<ProviderPreset>, name: string)
    requires exists i :: 0 <= i < |t.presets| && t.presets[i].name == name
    ensures GetActualProvider(t.(presets := t.presets + more), name) == GetActualProvider(t, name)
  {
    LaterDuplicatePresetIgnored(t.presets, more, name);
  }

  /** The catalog respects the known-base-provider set: every truthy `extends`
      names a known base provider, and so does the fallback. */
  predicate ClosedTables(t: Tables) {
    && FallbackBaseProvider in t.knownBaseProviders
    && forall p :: p in t.presets && Truthy(p.extendsProvider) ==> p.extendsProvider.value in t.knownBaseProviders
  }

  /** Over such tables the resolved baseProvider is always a known base provider. */
  lemma BaseProviderIsKnown(t: Tables, agentModel: Option<AgentModel>, runModel: Option<string>, runProvider: Option<string>)
    requires ClosedTables(t)
    ensures ResolveModel(t, agentModel, runModel, runProvider).baseProvider.value in t.knownBaseProviders
  {
  }

  /** With no input at all the resolver yields the hard defaults. */
  lemma DefaultResolution(t: Tables)
    requires DefaultProvider in t.knownBaseProviders
    requires forall p :: p in t.presets && p.name == DefaultProvider ==> !Truthy(p.extendsProvider)
    ensures var r := ResolveModel(t, None, None, None);
      && r.provider == Some(DefaultProvider)
      && r.id == Some(DefaultModelId)
      && r.baseProvider == Some(DefaultProvider)
      && r.displayName == None
  {
  }

  /** A run-time provider override beats the agent model's provider. */
  lemma RunProviderOverridesAgentProvider(t: Tables)
    ensures var agent := NoModel.(provider := Some("anthropic"), id := Some("claude-x"));
      var r := ResolveModel(t, Some(agent), None, Some("azure"));
      r.provider == Some("azure") && r.id == Some("claude-x")
  {
  }

  /** A provider alias with no preset that is not a known base provider runs as
      an OpenAI-compatible provider. */
  lemma UnknownAliasIsOpenAICompatible(t: Tables, agentModel: Option<AgentModel>, runModel: Option<string>, alias: string)
    requires alias != "" && alias !in t.knownBaseProviders
    requires forall i :: 0 <= i < |t.presets| ==> t.presets[i].name != alias
    ensures ResolveModel(t, agentModel, runModel, Some(alias)).baseProvider == Some(FallbackBaseProvider)
  {
  }

  /** The first preset of an alias that extends a base provider decides the
      execution family, wherever it stands in the catalog and whether or not
      the alias is itself a known base provider. */
  lemma PresetAliasWins(t: Tables, agentModel: Option<AgentModel>, runModel: Option<string>, i: int)
    requires IsFirstMatch(t.presets, "my-claude", i) && t.presets[i].extendsProvider == Some("anthropic")
    ensures ResolveModel(t, agentModel, runModel, Some("my-claude")).baseProvider == Some("anthropic")
  {
  }

  /** The agent model's `headers` are the only header input: two agent models
      that resolve to the same id and carry the same headers get the same
      headers, whatever their other fields and the provider. */
  lemma HeadersDependOnIdAndAgentHeaders(t: Tables, agentModel: AgentModel, other: AgentModel,
                                         runModel: Option<string>, runProvider: Option<string>, otherRunProvider: Option<string>)
    requires agentModel.headers == other.headers
    requires ResolveModel(t, Some(agentModel), runModel, runProvider).id == ResolveModel(t, Some(other), runModel, otherRunProvider).id
    ensures ResolveModel(t, Some(agentModel), runModel, runProvider).headers
         == ResolveModel(t, Some(other), runModel, otherRunProvider).headers
  {
  }

  /** The resolver reads every field of the agent model except `baseProvider`,
      which it always recomputes. */
  lemma InputBaseProviderIgnored(t: Tables, agentModel: AgentModel, runModel: Option<string>, runProvider: Option<string>, other: Option<string>)
    ensures ResolveModel(t, Some(agentModel.(baseProvider := other)), runModel, runProvider)
         == ResolveModel(t, Some(agentModel), runModel, runProvider)
  {
  }

  /** Resolving an already resolved configuration again, without overrides,
      changes nothing, provided the two enrichment helpers are idempotent. */
  lemma ResolvedModelIsFixpoint(t: Tables, agentModel: Option<AgentModel>, runModel: Option<string>, runProvider: Option<string>)
    requires forall id, h :: t.addClaudeHeaders(id, t.addClaudeHeaders(id, h)) == t.addClaudeHeaders(id, h)
    requires forall id, p, ps :: t.addAzureClaudeParams(id, p, t.addAzureClaudeParams(id, p, ps)) == t.addAzureClaudeParams(id, p, ps)
    ensures var r := ResolveModel(t, agentModel, runModel, runProvider);
      ResolveModel(t, Some(r), None, None) == r
  {
  }
}
