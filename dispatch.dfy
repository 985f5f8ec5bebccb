/**
 * The handler dispatch shared by the coordinating adapters: a map from config
 * type to the handler that converts that type, and a lookup that fails for a
 * type without a handler.
 */
module Dispatch {
  import opened Values
  import opened Canonical

  /** A config-type handler; its conversions live in modules not part of this model. */
  datatype Handler = Handler(toCanonical: string -> Result<CanonicalObject>, fromCanonical: CanonicalObject -> Result<string>)

  /** `_get_handler`: the registered handler, or an "Unsupported config type" error. */
  function HandlerFor(handlers: map<ConfigType, Handler>, configType: ConfigType): (r: Result<Handler>)
    ensures r.Ok? <==> configType in handlers
    ensures r.Ok? ==> r.value == handlers[configType]
    ensures r.Err? ==> r.failure == UnsupportedConfigType(configType)
  {
    if configType !in handlers then Err(UnsupportedConfigType(configType)) else Ok(handlers[configType])
  }

  /** `to_canonical` once the handler is found: the handler's own conversion. */
  function ViaHandlerTo(handlers: map<ConfigType, Handler>, configType: ConfigType, content: string): Result<CanonicalObject>
  {
    match HandlerFor(handlers, configType)
    case Err(f) => Err(f)
    case Ok(h) => h.toCanonical(content)
  }

  /** `from_canonical` once the handler is found: the handler's own conversion. */
  function ViaHandlerFrom(handlers: map<ConfigType, Handler>, configType: ConfigType, obj: CanonicalObject): Result<string>
  {
    match HandlerFor(handlers, configType)
    case Err(f) => Err(f)
    case Ok(h) => h.fromCanonical(obj)
  }

  /** A conversion for a type without a handler fails, whatever the input. */
  lemma UnsupportedTypeFails(handlers: map<ConfigType, Handler>, configType: ConfigType, content: string, obj: CanonicalObject)
    requires configType !in handlers
    ensures ViaHandlerTo(handlers, configType, content) == Err(UnsupportedConfigType(configType))
    ensures ViaHandlerFrom(handlers, configType, obj) == Err(UnsupportedConfigType(configType))
  {
  }

  /** A conversion for a registered type is exactly what that type's handler does. */
  lemma SupportedTypeDelegates(handlers: map<ConfigType, Handler>, configType: ConfigType, content: string, obj: CanonicalObject)
    requires configType in handlers
    ensures ViaHandlerTo(handlers, configType, content) == handlers[configType].toCanonical(content)
    ensures ViaHandlerFrom(handlers, configType, obj) == handlers[configType].fromCanonical(obj)
  {
  }

  /** The config types listed as supported: the handler keys, in registration order. */
  function SupportedTypes(handlers: map<ConfigType, Handler>): (r: seq<ConfigType>)
    requires handlers.Keys == {Agent, Permission}
    ensures forall t :: t in r <==> t in handlers
    ensures |r| == |handlers.Keys|
  {
    [Agent, Permission]
  }

  /** Slash commands have no handler in either coordinator. */
  lemma SlashCommandUnsupported(handlers: map<ConfigType, Handler>)
    requires handlers.Keys == {Agent, Permission}
    ensures SlashCommand !in SupportedTypes(handlers)
    ensures HandlerFor(handlers, SlashCommand) == Err(UnsupportedConfigType(SlashCommand))
  {
  }
}
