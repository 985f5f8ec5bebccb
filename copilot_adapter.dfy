/**
 * The GitHub Copilot coordinator adapter: it recognises `.agent.md` files,
 * names the extensions, hands each conversion to the handler registered for
 * the config type and maps model names between the Copilot display form and
 * the canonical short form.
 */
module CopilotCoordinator {
  import opened Values
  import opened Text
  import opened Canonical
  import opened Dispatch
  import ClaudeFormat
  import Converter

  /**
   * `can_handle`: the final path component ends with ".agent.md"; no file the
   * Copilot adapter claims is also claimed by the Claude adapter.
   */
  function CanHandle(path: string): (r: bool)
    ensures r <==> EndsWith(BaseName(path), ".agent.md")
    ensures r ==> !ClaudeFormat.CanHandle(path)
  {
    NoSharedFiles(path);
    EndsWith(BaseName(path), ".agent.md")
  }

  /** `get_file_extension`: the placeholder permission extension, else the agent extension. */
  function FileExtension(configType: ConfigType): (r: string)
    ensures configType == Permission <==> r == ".perm.json"
    ensures configType != Permission ==> r == ".agent.md"
  {
    if configType == Permission then ".perm.json" else ".agent.md"
  }

  /** No name ending in ".agent.md" is a Claude settings file or a Claude agent file. */
  lemma NoSharedFiles(path: string)
    ensures !(EndsWith(BaseName(path), ".agent.md") && ClaudeFormat.CanHandle(path))
  {
    var name := BaseName(path);
    if name == "settings.json" {
      assert name[|name| - 1] == 'n';
    } else if name == "settings.local.json" {
      assert name[|name| - 1] == 'n';
    }
  }

  /** An agent file written under any plain stem is recognised again, and not by the Claude adapter. */
  lemma AgentFilesRecognised(stem: string)
    requires '/' !in stem
    ensures CanHandle(stem + FileExtension(Agent))
    ensures !ClaudeFormat.CanHandle(stem + FileExtension(Agent))
  {
    var name := stem + ".agent.md";
    assert '/' !in ".agent.md";
    BaseNameOfName(name);
    EndsWithAppended(stem, "", ".agent.md");
    assert "" + ".agent.md" == ".agent.md";
  }

  // ---------------------------------------------------------------------------
  // Model names
  // ---------------------------------------------------------------------------

  /** Lowercased Copilot display names to canonical short names. */
  const CanonicalModels: map<string, string> := map[
    "claude sonnet 4" := "sonnet",
    "claude opus 4" := "opus",
    "claude haiku 4" := "haiku"]

  /** Canonical short names to Copilot display names. */
  const DisplayModels: map<string, string> := map[
    "sonnet" := "Claude Sonnet 4",
    "opus" := "Claude Opus 4",
    "haiku" := "Claude Haiku 4"]

  /** `_normalize_model`: a display name, in any case, becomes its short name; others pass through. */
  function NormalizeModel(model: Option<string>): (r: Option<string>)
    ensures model.None? <==> r.None?
    ensures r.Some? && r.value != model.value ==> r.value in DisplayModels
  {
    match model
    case None => None
    case Some(m) => if Lower(m) in CanonicalModels then Some(CanonicalModels[Lower(m)]) else Some(m)
  }

  /** `_denormalize_model`: a short name becomes its display name; others pass through. */
  function DenormalizeModel(model: string): (r: string)
    ensures r != model ==> Lower(r) in CanonicalModels
  {
    if model in DisplayModels then
      DisplayRoundTrips(model);
      DisplayModels[model]
    else model
  }

  /** The position of a short name in the table of short names. */
  function ShortIndex(model: string): (n: nat)
    requires model in DisplayModels
    ensures n < 3 && Converter.ShortNames[n] == model
  {
    if model == Converter.ShortNames[0] then 0 else if model == Converter.ShortNames[1] then 1 else 2
  }

  lemma DisplayAt(key: string, n: nat)
    requires n < 3 && key == Converter.ShortNames[n]
    ensures key in DisplayModels && DisplayModels[key] == Converter.DisplayNames[n]
  {
  }

  /** Each display name, lowercased, is a key of the normalising table. */
  lemma DisplayRoundTrips(model: string)
    requires model in DisplayModels
    ensures Lower(DisplayModels[model]) in CanonicalModels
  {
    var n := ShortIndex(model);
    DisplayAt(model, n);
    Converter.LowerNames(n);
    CanonicalAt(Lower(DisplayModels[model]), n);
  }

  lemma CanonicalAt(key: string, n: nat)
    requires n < 3 && key == Converter.LowerDisplayNames[n]
    ensures key in CanonicalModels && CanonicalModels[key] == Converter.ShortNames[n]
  {
  }

  /** The n-th display name, in any capitalisation, normalises to the n-th short name. */
  lemma NormalizeIgnoresCase(n: nat, model: string)
    requires n < 3 && Lower(model) == Converter.LowerDisplayNames[n]
    ensures NormalizeModel(Some(model)) == Some(Converter.ShortNames[n])
  {
    CanonicalAt(Lower(model), n);
  }

  /** The n-th short name and the n-th display name are each other's image. */
  lemma ModelsCorrespond(n: nat)
    requires n < 3
    ensures NormalizeModel(Some(Converter.DisplayNames[n])) == Some(Converter.ShortNames[n])
    ensures DenormalizeModel(Converter.ShortNames[n]) == Converter.DisplayNames[n]
  {
    Converter.LowerNames(n);
    NormalizeIgnoresCase(n, Converter.DisplayNames[n]);
    DisplayAt(Converter.ShortNames[n], n);
  }

  /** Denormalising then normalising gives back any model name that is lowercase or unknown to both tables. */
  lemma DenormalizeThenNormalize(model: string)
    requires model in DisplayModels || Lower(model) !in CanonicalModels
    ensures NormalizeModel(Some(DenormalizeModel(model))) == Some(model)
  {
    if model in DisplayModels {
      var n := ShortIndex(model);
      ModelsCorrespond(n);
    }
  }

  /** Normalising then denormalising gives back each display name. */
  lemma NormalizeThenDenormalize(n: nat)
    requires n < 3
    ensures DenormalizeModel(NormalizeModel(Some(Converter.DisplayNames[n])).value) == Converter.DisplayNames[n]
  {
    ModelsCorrespond(n);
  }

  /** Names in neither table pass through both directions unchanged. */
  lemma UnknownModelsPassThrough(model: string)
    requires Lower(model) !in CanonicalModels && model !in DisplayModels
    ensures NormalizeModel(Some(model)) == Some(model)
    ensures DenormalizeModel(model) == model
  {
  }

  class CopilotAdapter {
    var warnings: seq<string>
    /** The handlers, by config type: fixed when the adapter is built. */
    const handlers: map<ConfigType, Handler>

    constructor(agentHandler: Handler, permissionHandler: Handler)
      ensures handlers == map[Agent := agentHandler, Permission := permissionHandler]
      ensures warnings == []
    {
      handlers := map[Agent := agentHandler, Permission := permissionHandler];
      warnings := [];
    }

    /** `supported_config_types`: exactly the handler keys. */
    function SupportedConfigTypes(): (r: seq<ConfigType>)
      requires handlers.Keys == {Agent, Permission}
      ensures forall t :: t in r <==> t in handlers
      ensures Agent in r && Permission in r && SlashCommand !in r
    {
      SupportedTypes(handlers)
    }

    /** `to_canonical`: resets the warnings, then delegates to the handler for the type. */
    method ToCanonicalObject(content: string, configType: ConfigType) returns (r: Result<CanonicalObject>)
      modifies this`warnings
      ensures warnings == []
      ensures r == ViaHandlerTo(handlers, configType, content)
    {
      warnings := [];
      var handler := HandlerFor(handlers, configType);
      if handler.Err? {
        return Err(handler.failure);
      }
      r := handler.value.toCanonical(content);
    }

    /** `from_canonical`: resets the warnings, then delegates to the handler for the type. */
    method FromCanonicalObject(obj: CanonicalObject, configType: ConfigType) returns (r: Result<string>)
      modifies this`warnings
      ensures warnings == []
      ensures r == ViaHandlerFrom(handlers, configType, obj)
    {
      warnings := [];
      var handler := HandlerFor(handlers, configType);
      if handler.Err? {
        return Err(handler.failure);
      }
      r := handler.value.fromCanonical(obj);
    }
  }
}
