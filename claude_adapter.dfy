/**
 * The Claude Code coordinator adapter (the package form of the Claude
 * adapter): it recognises Claude files, names their extensions and hands each
 * conversion to the handler registered for the config type.
 */
module ClaudeCoordinator {
  import opened Values
  import opened Text
  import opened Canonical
  import opened Dispatch
  import ClaudeFormat

  /** `get_file_extension`: settings files are JSON, everything else markdown. */
  function FileExtension(configType: ConfigType): (r: string)
    ensures configType == Permission <==> r == ".json"
    ensures configType != Permission ==> r == ".md"
  {
    if configType == Permission then ".json" else ".md"
  }

  /** A markdown agent file written under a plain stem is recognised again. */
  lemma AgentFilesRecognised(stem: string)
    requires stem != [] && '/' !in stem && !EndsWith(stem, ".agent")
    ensures ClaudeFormat.CanHandle(stem + FileExtension(Agent))
  {
    var name := stem + ".md";
    assert FileExtension(Agent) == ".md";
    assert '/' !in ".md";
    BaseNameOfName(name);
    EndsWithAppended(stem, [], ".md");
    assert [] + ".md" == ".md";
    assert EndsWith(name, ".md") && |name| > 3;
    EndsWithAppended(stem, ".agent", ".md");
    assert ".agent" + ".md" == ".agent.md";
    assert !EndsWith(name, ".agent.md");
    ClaudeFormat.SuffixIsMd(name);
  }

  /** The settings file named by the permission extension is recognised, wherever it lives. */
  lemma SettingsFilesRecognised(dir: string)
    ensures ClaudeFormat.CanHandle(dir + "/" + "settings" + FileExtension(Permission))
  {
    var path := dir + "/" + "settings" + FileExtension(Permission);
    var i := RFind(path, '/');
    assert path[|dir|] == '/';
    assert i == |dir| by {
      forall j | |dir| < j < |path| ensures path[j] != '/' {
        assert path[j] == "settings.json"[j - |dir| - 1];
      }
    }
    assert BaseName(path) == "settings.json";
  }

  class ClaudeAdapter {
    var warnings: seq<string>
    /** The handlers, by config type: fixed when the adapter is built. */
    const handlers: map<ConfigType, Handler>

    constructor(agentHandler: Handler, permissionHandler: Handler)
      ensures handlers == map[Agent := agentHandler, Permission := permissionHandler]
      ensures warnings == []
    {
      handlers := map[Agent := agentHandler, Permission := permissionHandler];
      warnings := [];
    }

    /** `supported_config_types`: exactly the handler keys. */
    function SupportedConfigTypes(): (r: seq<ConfigType>)
      requires handlers.Keys == {Agent, Permission}
      ensures forall t :: t in r <==> t in handlers
      ensures Agent in r && Permission in r && SlashCommand !in r
    {
      SupportedTypes(handlers)
    }

    /** `can_handle`: the same rule as the single-file adapter, a settings file or a non-Copilot markdown file. */
    function CanHandle(path: string): (r: bool)
      ensures var name := BaseName(path);
        r <==> name in ClaudeFormat.SettingsFiles || (EndsWith(name, ".md") && |name| > 3 && !EndsWith(name, ".agent.md"))
    {
      ClaudeFormat.CanHandleIff(path);
      ClaudeFormat.CanHandle(path)
    }

    /** `to_canonical`: resets the warnings, then delegates to the handler for the type. */
    method ToCanonicalObject(content: string, configType: ConfigType) returns (r: Result<CanonicalObject>)
      modifies this`warnings
      ensures warnings == []
      ensures r == ViaHandlerTo(handlers, configType, content)
    {
      warnings := [];
      var handler := HandlerFor(handlers, configType);
      if handler.Err? {
        return Err(handler.failure);
      }
      r := handler.value.toCanonical(content);
    }

    /** `from_canonical`: resets the warnings, then delegates to the handler for the type. */
    method FromCanonicalObject(obj: CanonicalObject, configType: ConfigType) returns (r: Result<string>)
      modifies this`warnings
      ensures warnings == []
      ensures r == ViaHandlerFrom(handlers, configType, obj)
    {
      warnings := [];
      var handler := HandlerFor(handlers, configType);
      if handler.Err? {
        return Err(handler.failure);
      }
      r := handler.value.fromCanonical(obj);
    }
  }
}
