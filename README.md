# Resolution layer of the Tarko agent server and model provider

This project models, in Dafny, the two resolvers that turn a loose descriptor
into a concrete, fully shaped result:

- **Model configuration resolver** (`resolveModel` with its helpers
  `getActualProvider` and `getDefaultConfig`), module `ModelResolver` in
  `model_resolver.dfy`. A partial `AgentModel` and the per-run overrides
  `runModel` and `runProvider` become a configuration whose `provider`, `id`
  and `baseProvider` are always set. `provider` and `id` follow the chain
  "run override, then agent model, then `'openai'` / `'gpt-4o'`". `baseURL` and
  `apiKey` fall back to the first provider preset of that name. `baseProvider`
  follows the chain "preset `extends`, then known base provider, then
  `'openai-compatible'`". The code uses `||`, so an empty string falls through
  to the next tier just as a missing value does.
- **Agent implementation resolver** (`resolveAgentImplementation`), module
  `AgentResolver` in `agent_resolver.dfy`. A descriptor of type `'module'`
  returns its constructor as it is. A descriptor of type `'modulePath'` is
  resolved and loaded, and its default export is unwrapped at most once. The
  result must then be a function. Any other type is rejected. The agent name
  follows `label ?? constructor.label ?? 'Anonymous'`, so a missing label
  falls through and an empty one is kept. Every failure of a module path is
  re-raised as `Failed to resolve agent module '<id>': <inner message>`.

`wrappers.dfy` holds the `Option` and `Result` types both use.

Collaborators the model cannot see are parameters:

- `ModelResolver.Tables` holds the preset catalog (an ordered sequence searched
  first-match), the known-base-provider set, and the two enrichment helpers
  (`addClaudeHeadersIfNeeded`, `addAzureClaudeParamsIfNeeded`) as uninterpreted
  functions.
- `AgentResolver.ModuleHost` holds `require.resolve` (identifier and search
  paths to an absolute path or an error message) and the dynamic `import`
  (path to the module's default export or an error message).

Behaviour of the code that the model keeps:

- The provider and id chains use `||`, so `''` falls through to the next tier
  like a missing value. One consequence: an agent model `baseURL` of `''` with
  a matching preset that has no `baseURL` resolves to no `baseURL` at all.
- Every module-path failure (module not found, load error, invalid export) is
  re-raised as one `Failed to resolve agent module '<id>': <inner message>`
  message. The model keeps the message strings.
- `baseProvider` is always a known base provider when every truthy `extends`
  and `'openai-compatible'` are known (`ModelResolver.BaseProviderIsKnown`).

## Model

| member | source | states |
|---|---|---|
| `ModelResolver.GetDefaultConfig` | multimodal/tarko/model-provider/src/model-resolver.ts:41-43 | It returns nothing exactly when no preset has the name. Otherwise it returns the preset at the first position whose name matches (first-match `find`). |
| `ModelResolver.GetActualProvider` | multimodal/tarko/model-provider/src/model-resolver.ts:21-36 | If the first preset with the name has a truthy `extends`, the result is that value. Otherwise the result is the name itself when it is a known base provider, and `'openai-compatible'` when it is not. |
| `ModelResolver.ResolveModel` | multimodal/tarko/model-provider/src/model-resolver.ts:54-90 | `provider` and `id` are non-empty. Each takes the run override if truthy, else the agent model's value if truthy, else `'openai'` / `'gpt-4o'`. `displayName` is passed through unchanged. `baseURL` and `apiKey` keep a truthy own value. Otherwise they take the first matching preset's value, and stay as given when no preset matches. `headers` and `params` are exactly the enrichment helpers' results on the resolved id (and provider). `baseProvider` is the actual provider of the resolved provider. |
| `ModelResolver.LaterDuplicatePresetIgnored` | multimodal/tarko/model-provider/src/model-resolver.ts:42 | Appending presets after a name's first match leaves the preset lookup for that name unchanged. |
| `ModelResolver.ShadowedPresetIgnored` | multimodal/tarko/model-provider/src/model-resolver.ts:23-26 | A later duplicate preset, with or without `extends`, does not change the base provider of a name that already has a preset. |
| `ModelResolver.BaseProviderIsKnown` | multimodal/tarko/model-provider/src/model-resolver.ts:21-36 | Assume every truthy `extends` and `'openai-compatible'` are known base providers. Then the resolved `baseProvider` is always a known base provider. |
| `ModelResolver.DefaultResolution` | multimodal/tarko/model-provider/src/model-resolver.ts:54-90 | With no agent model and no overrides, the result has provider `'openai'`, id `'gpt-4o'` and no display name. Its base provider is `'openai'` when `'openai'` is known and no `'openai'` preset extends another provider. |
| `ModelResolver.RunProviderOverridesAgentProvider` | multimodal/tarko/model-provider/src/model-resolver.ts:60-61 | A run provider `'azure'` wins over the agent model's `'anthropic'`, and the agent model's id is kept. |
| `ModelResolver.UnknownAliasIsOpenAICompatible` | multimodal/tarko/model-provider/src/model-resolver.ts:33-35 | A provider name with no preset that is not a known base provider resolves to base provider `'openai-compatible'`. |
| `ModelResolver.PresetAliasWins` | multimodal/tarko/model-provider/src/model-resolver.ts:22-26 | If the first preset named `my-claude`, wherever it stands, extends `anthropic`, the base provider is `anthropic`, whether or not `my-claude` is known. |
| `ModelResolver.HeadersDependOnIdAndAgentHeaders` | multimodal/tarko/model-provider/src/model-resolver.ts:75 | The agent model's `headers` and the resolved id are the only header inputs. Two agent models that agree on both get the same headers, whatever their other fields and the provider. |
| `ModelResolver.InputBaseProviderIgnored` | multimodal/tarko/model-provider/src/model-resolver.ts:80-89 | The agent model's own `baseProvider` has no influence on the result. |
| `ModelResolver.ResolvedModelIsFixpoint` | multimodal/tarko/model-provider/src/model-resolver.ts:54-90 | Assume both enrichment helpers are idempotent. Then resolving a resolved configuration again without overrides returns it unchanged. |
| `AgentResolver.AgentName` | multimodal/tarko/agent-server/src/utils/agent-resolver.ts:33 | The name is the descriptor's label when present (even empty). Otherwise it is the constructor's label when present, and otherwise `'Anonymous'`. |
| `AgentResolver.SearchPaths` | multimodal/tarko/agent-server/src/utils/agent-resolver.ts:44-47 | Search paths are given exactly when a non-empty workspace is given, and then they are `[workspace]`. |
| `AgentResolver.UnwrapDefault` | multimodal/tarko/agent-server/src/utils/agent-resolver.ts:58-68 | An object with a `default` key is replaced by that key's value. Any other value, a function included, is left as it is. At most one level is removed. |
| `AgentResolver.FailedToResolveMessage` | multimodal/tarko/agent-server/src/utils/agent-resolver.ts:81-85 | The message is the prefix `Failed to resolve agent module '<id>': ` followed by exactly the inner message. |
| `AgentResolver.LoadAgentModule` | multimodal/tarko/agent-server/src/utils/agent-resolver.ts:42-80 | A resolve failure passes on the resolver's message. A success means resolve and load both succeeded. The constructor is then the unwrapped default export, the name follows the precedence rule, and `agio` is the descriptor's. Every failure is a resolve failure, a load failure, or the invalid-module message. A load failure passes on the loader's message. After a successful resolve and load, the result is a success exactly when the unwrapped default export is a function. |
| `AgentResolver.ResolveAgentImplementation` | multimodal/tarko/agent-server/src/utils/agent-resolver.ts:23-89 | A missing descriptor fails with `Missing agent implementation`. A `'module'` descriptor succeeds with its own constructor and `agio`. Another type fails with `Non-supported agent type: <type>`. A `'modulePath'` descriptor has three outcomes. A resolve or load failure is re-raised with its own message under the identifier. A loaded default export that is a function after the unwrap gives that constructor, the precedence name and `agio`. Any other export gives the invalid-module message under the identifier. Every success carries the descriptor's `agio`. |
| `AgentResolver.ModuleImplNeedsNoHost` | multimodal/tarko/agent-server/src/utils/agent-resolver.ts:31-37 | A `'module'` descriptor resolves to its own constructor, whatever the module system and the options. |
| `AgentResolver.ModulePathFailureNamesIdentifier` | multimodal/tarko/agent-server/src/utils/agent-resolver.ts:81-85 | Every failure of a `'modulePath'` descriptor starts with `Failed to resolve agent module '<id>': `. |
| `AgentResolver.ModuleNotFound` | multimodal/tarko/agent-server/src/utils/agent-resolver.ts:52 | An identifier the resolver cannot locate fails with the resolver's message under the identifier. |
| `AgentResolver.NestedDefaultUnwrapped` | multimodal/tarko/agent-server/src/utils/agent-resolver.ts:58-68 | A default export `{ default: Agent }` resolves to `Agent`. |
| `AgentResolver.DoublyNestedDefaultRejected` | multimodal/tarko/agent-server/src/utils/agent-resolver.ts:58-74 | A default export `{ default: { default: Agent } }` fails as an invalid module, because only one level is unwrapped. |
| `AgentResolver.FunctionWithDefaultKept` | multimodal/tarko/agent-server/src/utils/agent-resolver.ts:61-64 | A function exported as default is used as it is, even when it has a `default` property. |
| `AgentResolver.NonFunctionExportRejected` | multimodal/tarko/agent-server/src/utils/agent-resolver.ts:70-74 | A default export that is not a function after the unwrap fails as an invalid module, re-wrapped with the identifier. |

## Left out

- `infra/pdk/src/utils/version.ts` is not part of this model. It is git invocation, timestamps, interactive prompts, semver calls and JSON file I/O.
- `infra/pdk/src/index.ts` is not part of this model. It only re-exports.
- Node's module resolution algorithm and the dynamic `import` are not modelled. Their outcomes come from the `ModuleHost` parameter. A loaded module is represented by its `default` export alone.
- The promise returned by `resolveAgentImplementation` is not modelled. The function is modelled as a synchronous function that returns a `Result`.
- Thrown errors are represented by their message string. A non-`Error` value thrown by the module system is represented by the string `String(error)` would give.
- The internals of `addClaudeHeadersIfNeeded`, `addAzureClaudeParamsIfNeeded`, the `models` table of the LLM client and the contents of `HIGH_LEVEL_MODEL_PROVIDER_CONFIGS` are not visible. They are the `Tables` parameter.
- The Claude header and Azure-Claude parameter injection rules (no overwrite of caller keys, non-Claude ids left untouched) are not stated. The Claude naming pattern and the injection are inside helpers this model cannot see.
- Header and parameter values are modelled as strings. The resolver only passes them to the helpers.
- A descriptor whose `type` is `'module'` but has no constructor is not representable. The model assumes that a `'module'` descriptor always carries a constructor.
- A `null` label is not representable: `Option` stands for present or `undefined`. In the code `??` lets a `null` label fall through too, so the model's name rule covers `null` only as a missing label.
- Function identity is modelled by an `ident` string on function values.
- Determinism gets no separate lemma. A Dafny function gives equal results on equal arguments by construction, so two calls with the same inputs and tables agree.
