/** The agent implementation resolver: turns an agent implementation descriptor
    into the agent's name, its constructor and its optional AGIO provider
    constructor, or fails with an error message.

    Node's module resolution (`require.resolve`) and dynamic `import` are not
    modelled; their outcomes are supplied by a `ModuleHost`. */
module AgentResolver {
  import opened Wrappers

  /** The JavaScript values the resolver tells apart. */
  datatype JsValue =
    | Undefined
    | Null
      /** a string, number, boolean, bigint or symbol, with its truthiness */
    | Primitive(truthy: bool)
      /** a function (a class); `staticLabel` is its static `label` property and
          `defaultProp` its `default` property, when it has one */
    | Function(ident: string, staticLabel: Option<string>, defaultProp: Option<JsValue>)
      /** a non-function object; `defaultProp` is `None` when it has no `default` key */
    | Object(defaultProp: Option<JsValue>)

  /** An agent constructor is a function value. */
  type Constructor = v: JsValue | v.Function? witness Function("Agent", None, None)

  /** Tags other than the two supported ones. */
  type OtherTag = s: string | s != "module" && s != "modulePath" witness "custom"

  /** The agent implementation descriptor, tagged by its `type`. */
  datatype AgentImplementation =
      /** `type: 'module'`: a constructor given in place */
    | ModuleImpl(ctor: Constructor, agentLabel: Option<string>, agio: Option<Constructor>)
      /** `type: 'modulePath'`: a package name, relative path or directory to load */
    | ModulePathImpl(value: string, agentLabel: Option<string>, agio: Option<Constructor>)
      /** any other `type` */
    | OtherImpl(typeTag: OtherTag)

  datatype ResolutionOptions = ResolutionOptions(workspace: Option<string>)

  /** The module system: `resolve(identifier, paths)` gives an absolute path or
      an error message; `load(path)` gives the module's `default` export
      (`Undefined` when it has none) or an error message. */
  datatype ModuleHost = ModuleHost(
    resolve: (string, Option<seq<string>>) -> Result<string, string>,
    load: string -> Result<JsValue, string>)

  datatype AgentResolutionResult = AgentResolutionResult(
    agentName: string,
    agentConstructor: Constructor,
    agioProviderConstructor: Option<Constructor>)

  const MissingImplementationMessage := "Missing agent implementation"
  const AnonymousAgentName := "Anonymous"

  /** JavaScript truthiness. */
  predicate Truthy(v: JsValue) {
    match v
    case Undefined => false
    case Null => false
    case Primitive(b) => b
    case Function(_, _, _) => true
    case Object(_) => true
  }

  /** `typeof v === 'object'` (true of `null` as well). */
  predicate IsObjectType(v: JsValue) {
    v.Object? || v.Null?
  }

  /** `'default' in v`, for a value of object type other than `null`. */
  predicate HasDefaultKey(v: JsValue)
    requires v.Object?
  {
    v.defaultProp.Some?
  }

  function UnsupportedTypeMessage(tag: string): string {
    "Non-supported agent type: " + tag
  }

  function InvalidModuleMessage(identifier: string): string {
    "Invalid agent module at '" + identifier + "': Must export an Agent constructor as default export."
  }

  function FailedToResolvePrefix(identifier: string): string {
    "Failed to resolve agent module '" + identifier + "': "
  }

  /** The message every failure of a module path is re-raised with. */
  function FailedToResolveMessage(identifier: string, cause: string): (msg: string)
    ensures |FailedToResolvePrefix(identifier)| <= |msg|
    ensures msg[..|FailedToResolvePrefix(identifier)|] == FailedToResolvePrefix(identifier)
    ensures msg[|FailedToResolvePrefix(identifier)|..] == cause
  {
    FailedToResolvePrefix(identifier) + cause
  }

  /** The name precedence `label ?? constructor.label ?? 'Anonymous'`: only a
      missing label falls through, an empty one is kept. */
  function AgentName(agentLabel: Option<string>, ctor: Constructor): (name: string)
    ensures agentLabel.Some? ==> name == agentLabel.value
    ensures agentLabel.None? && ctor.staticLabel.Some? ==> name == ctor.staticLabel.value
    ensures agentLabel.None? && ctor.staticLabel.None? ==> name == AnonymousAgentName
  {
    match agentLabel
    case Some(l) => l
    case None => ctor.staticLabel.GetOr(AnonymousAgentName)
  }

  /** The search paths handed to `require.resolve`: the workspace alone when
      one is given and non-empty, otherwise none. */
  function SearchPaths(options: Option<ResolutionOptions>): (paths: Option<seq<string>>)
    ensures paths.Some? <==> options.Some? && options.value.workspace.Some? && options.value.workspace.value != ""
    ensures paths.Some? ==> paths.value == [options.value.workspace.value]
  {
    if options.Some? && options.value.workspace.Some? && options.value.workspace.value != "" then
      Some([options.value.workspace.value])
    else
      None
  }

  /** One level of nested default export is unwrapped: a truthy non-function
      object with a `default` key is replaced by that key's value. */
  function UnwrapDefault(exported: JsValue): (r: JsValue)
    ensures exported.Object? && exported.defaultProp.Some? ==> r == exported.defaultProp.value
    ensures r != exported ==> exported.Object? && exported.defaultProp == Some(r)
    ensures exported.Function? ==> r == exported
  {
    if Truthy(exported) && IsObjectType(exported) && HasDefaultKey(exported) then
      exported.defaultProp.value
    else
      exported
  }

  /** The body of the `try` block for a module path: resolve, load, unwrap,
      check that a constructor came out. A failure carries the inner message. */
  function LoadAgentModule(identifier: string, agentLabel: Option<string>, agio: Option<Constructor>,
                           options: Option<ResolutionOptions>, host: ModuleHost): (r: Result<AgentResolutionResult, string>)
    ensures host.resolve(identifier, SearchPaths(options)).Failure? ==>
      r == Failure(host.resolve(identifier, SearchPaths(options)).error)
    ensures r.Success? ==>
      && host.resolve(identifier, SearchPaths(options)).Success?
      && var loaded := host.load(host.resolve(identifier, SearchPaths(options)).value);
      && loaded.Success?
      && r.value.agentConstructor == UnwrapDefault(loaded.value)
      && r.value.agentName == AgentName(agentLabel, r.value.agentConstructor)
      && r.value.agioProviderConstructor == agio
    ensures r.Failure? ==>
      || r == Failure(InvalidModuleMessage(identifier))
      || host.resolve(identifier, SearchPaths(options)).Failure?
      || host.load(host.resolve(identifier, SearchPaths(options)).value).Failure?
    ensures var resolved := host.resolve(identifier, SearchPaths(options));
      resolved.Success? && host.load(resolved.value).Failure? ==>
        r == Failure(host.load(resolved.value).error)
    ensures var resolved := host.resolve(identifier, SearchPaths(options));
      resolved.Success? && host.load(resolved.value).Success? ==>
        (r.Success? <==> UnwrapDefault(host.load(resolved.value).value).Function?)
  {
    match host.resolve(identifier, SearchPaths(options))
    case Failure(e) => Failure(e)
    case Success(resolvedPath) =>
      match host.load(resolvedPath)
      case Failure(e) => Failure(e)
      case Success(moduleDefault) =>
        var agentConstructor := UnwrapDefault(moduleDefault);
        if !Truthy(agentConstructor) || !agentConstructor.Function? then
          Failure(InvalidModuleMessage(identifier))
        else
          Success(AgentResolutionResult(AgentName(agentLabel, agentConstructor), agentConstructor, agio))
  }

  /** `resolveAgentImplementation(implementation, options)`. */
  function ResolveAgentImplementation(implementation: Option<AgentImplementation>,
                                      options: Option<ResolutionOptions>, host: ModuleHost): (r: Result<AgentResolutionResult, string>)
    ensures implementation.None? ==> r == Failure(MissingImplementationMessage)
    ensures implementation.Some? && implementation.value.ModuleImpl? ==>
      var impl := implementation.value;
      r == Success(AgentResolutionResult(AgentName(impl.agentLabel, impl.ctor), impl.ctor, impl.agio))
    ensures implementation.Some? && implementation.value.OtherImpl? ==>
      r == Failure(UnsupportedTypeMessage(implementation.value.typeTag))
    ensures implementation.Some? && implementation.value.ModulePathImpl? ==>
      var impl := implementation.value;
      var inner := LoadAgentModule(impl.value, impl.agentLabel, impl.agio, options, host);
      && (inner.Success? ==> r == inner)
      && (inner.Failure? ==> r == Failure(FailedToResolveMessage(impl.value, inner.error)))
    ensures implementation.Some? && implementation.value.ModulePathImpl? ==>
      var impl := implementation.value;
      var resolved := host.resolve(impl.value, SearchPaths(options));
      && (resolved.Failure? ==> r == Failure(FailedToResolveMessage(impl.value, resolved.error)))
      && (resolved.Success? && host.load(resolved.value).Failure? ==>
            r == Failure(FailedToResolveMessage(impl.value, host.load(resolved.value).error)))
      && (resolved.Success? && host.load(resolved.value).Success? ==>
            var exported := UnwrapDefault(host.load(resolved.value).value);
            && (exported.Function? ==>
                  r == Success(AgentResolutionResult(AgentName(impl.agentLabel, exported), exported, impl.agio)))
            && (!exported.Function? ==>
                  r == Failure(FailedToResolveMessage(impl.value, InvalidModuleMessage(impl.value)))))
    ensures r.Success? ==> r.value.agioProviderConstructor == implementation.value.agio
  {
    match implementation
    case None => Failure(MissingImplementationMessage)
    case Some(ModuleImpl(ctor, agentLabel, agio)) =>
      Success(AgentResolutionResult(AgentName(agentLabel, ctor), ctor, agio))
    case Some(ModulePathImpl(identifier, agentLabel, agio)) =>
      (match LoadAgentModule(identifier, agentLabel, agio, options, host)
       case Success(result) => Success(result)
       case Failure(e) => Failure(FailedToResolveMessage(identifier, e)))
    case Some(OtherImpl(tag)) =>
      Failure(UnsupportedTypeMessage(tag))
  }

  /** An in-place constructor is returned without consulting the module system
      or the options. */
  lemma ModuleImplNeedsNoHost(impl: AgentImplementation, options: Option<ResolutionOptions>, host: ModuleHost,
                              otherOptions: Option<ResolutionOptions>, otherHost: ModuleHost)
    requires impl.ModuleImpl?
    ensures ResolveAgentImplementation(Some(impl), options, host) == ResolveAgentImplementation(Some(impl), otherOptions, otherHost)
    ensures ResolveAgentImplementation(Some(impl), options, host).Success?
    ensures ResolveAgentImplementation(Some(impl), options, host).value.agentConstructor == impl.ctor
  {
  }

  /** Every failure of a module path, whatever its cause, names the identifier
      in the same message shape. */
  lemma ModulePathFailureNamesIdentifier(identifier: string, agentLabel: Option<string>, agio: Option<Constructor>,
                                         options: Option<ResolutionOptions>, host: ModuleHost)
    ensures var r := ResolveAgentImplementation(Some(ModulePathImpl(identifier, agentLabel, agio)), options, host);
      r.Failure? ==>
        && |FailedToResolvePrefix(identifier)| <= |r.error|
        && r.error[..|FailedToResolvePrefix(identifier)|] == FailedToResolvePrefix(identifier)
  {
  }

  /** A module that cannot be located fails with its resolver's message,
      re-raised under the identifier, and nothing is loaded. */
  lemma ModuleNotFound(identifier: string, agentLabel: Option<string>, agio: Option<Constructor>,
                       options: Option<ResolutionOptions>, host: ModuleHost, cause: string)
    requires host.resolve(identifier, SearchPaths(options)) == Failure(cause)
    ensures ResolveAgentImplementation(Some(ModulePathImpl(identifier, agentLabel, agio)), options, host)
         == Failure(FailedToResolveMessage(identifier, cause))
  {
  }

  /** `export default { default: Agent }` resolves to `Agent`. */
  lemma NestedDefaultUnwrapped(identifier: string, agentLabel: Option<string>, agio: Option<Constructor>,
                               options: Option<ResolutionOptions>, host: ModuleHost, agent: Constructor)
    requires host.resolve(identifier, SearchPaths(options)).Success?
    requires host.load(host.resolve(identifier, SearchPaths(options)).value) == Success(Object(Some(agent)))
    ensures ResolveAgentImplementation(Some(ModulePathImpl(identifier, agentLabel, agio)), options, host)
         == Success(AgentResolutionResult(AgentName(agentLabel, agent), agent, agio))
  {
  }

  /** Only one level is unwrapped: `{ default: { default: Agent } }` is not a
      constructor and the resolution fails as an invalid module. */
  lemma DoublyNestedDefaultRejected(identifier: string, agentLabel: Option<string>, agio: Option<Constructor>,
                                    options: Option<ResolutionOptions>, host: ModuleHost, agent: Constructor)
    requires host.resolve(identifier, SearchPaths(options)).Success?
    requires host.load(host.resolve(identifier, SearchPaths(options)).value) == Success(Object(Some(Object(Some(agent)))))
    ensures ResolveAgentImplementation(Some(ModulePathImpl(identifier, agentLabel, agio)), options, host)
         == Failure(FailedToResolveMessage(identifier, InvalidModuleMessage(identifier)))
  {
  }

  /** A function is used as it is, even when it carries a `default` property. */
  lemma FunctionWithDefaultKept(identifier: string, agentLabel: Option<string>, agio: Option<Constructor>,
                                options: Option<ResolutionOptions>, host: ModuleHost, agent: Constructor)
    requires agent.defaultProp.Some?
    requires host.resolve(identifier, SearchPaths(options)).Success?
    requires host.load(host.resolve(identifier, SearchPaths(options)).value) == Success(agent)
    ensures ResolveAgentImplementation(Some(ModulePathImpl(identifier, agentLabel, agio)), options, host).Success?
    ensures ResolveAgentImplementation(Some(ModulePathImpl(identifier, agentLabel, agio)), options, host).value.agentConstructor == agent
  {
  }

  /** A module whose default export, after the unwrap, is not a function fails
      as an invalid module. */
  lemma NonFunctionExportRejected(identifier: string, agentLabel: Option<string>, agio: Option<Constructor>,
                                  options: Option<ResolutionOptions>, host: ModuleHost, exported: JsValue)
    requires host.resolve(identifier, SearchPaths(options)).Success?
    requires host.load(host.resolve(identifier, SearchPaths(options)).value) == Success(exported)
    requires !UnwrapDefault(exported).Function?
    ensures ResolveAgentImplementation(Some(ModulePathImpl(identifier, agentLabel, agio)), options, host)
         == Failure(FailedToResolveMessage(identifier, InvalidModuleMessage(identifier)))
  {
  }
}
