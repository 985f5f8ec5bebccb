/**
 * The single-file Claude Code adapter: recognising Claude agent and settings
 * files, and converting an agent file (YAML frontmatter and markdown body) or a
 * settings file (JSON) to and from the canonical records.
 */
module ClaudeFormat {
  import opened Values
  import opened Text
  import opened Canonical
  import opened Converter

  const SettingsFiles: set<string> := {"settings.json", "settings.local.json"}

  /** `supported_config_types` */
  const SupportedConfigTypes: seq<ConfigType> := [Agent, Permission]

  const PermissionModeKey := "claude_permission_mode"
  const SkillsKey := "claude_skills"

  // ---------------------------------------------------------------------------
  // File recognition
  // ---------------------------------------------------------------------------

  /** `can_handle`: a settings file, or a `.md` file that is not a Copilot `.agent.md` file. */
  predicate CanHandle(path: string)
  {
    var name := BaseName(path);
    name in SettingsFiles || (Suffix(name) == ".md" && !EndsWith(name, ".agent.md"))
  }

  /** pathlib's suffix is ".md" exactly for names that end in ".md" and have a stem before it. */
  lemma SuffixIsMd(name: string)
    ensures Suffix(name) == ".md" <==> EndsWith(name, ".md") && |name| > 3
  {
    var n := |name|;
    var i := RFind(name, '.');
    if EndsWith(name, ".md") && |name| > 3 {
      assert name[n - 3..] == ".md";
      assert name[n - 3] == '.' && name[n - 2] == 'm' && name[n - 1] == 'd';
      assert i == n - 3;
    }
    if Suffix(name) == ".md" {
      assert 0 < i < n - 1 && name[i..] == ".md";
      assert i == n - 3;
    }
  }

  /** The recognition rule, with the suffix test spelled out. */
  lemma CanHandleIff(path: string)
    ensures var name := BaseName(path);
      CanHandle(path) <==> name in SettingsFiles || (EndsWith(name, ".md") && |name| > 3 && !EndsWith(name, ".agent.md"))
  {
    SuffixIsMd(BaseName(path));
  }

  // ---------------------------------------------------------------------------
  // Field helpers
  // ---------------------------------------------------------------------------

  /** `_parse_tools`: a string is split on commas and cleaned, a list is kept, anything else is empty. */
  function ParseTools(v: Value): (r: seq<Value>)
    ensures v.Str? ==> forall i :: 0 <= i < |r| ==> r[i].Str? && ToolName(r[i].s)
    ensures v.List? ==> r == v.items
    ensures !v.Str? && !v.List? ==> r == []
  {
    match v
    case Str(s) => StrValues(SplitTools(s))
    case List(items) => items
    case _ => []
  }

  /** A list of tool names, joined with ", ", parses back to the same list. */
  lemma ParseToolsOfJoined(tools: seq<string>)
    requires forall i :: 0 <= i < |tools| ==> ToolName(tools[i])
    ensures ParseTools(Str(Join(tools, ", "))) == StrValues(tools)
  {
    JoinThenSplitTools(tools);
  }

  /** `_normalize_model`: None for a falsy value, otherwise the lowercased string. */
  function NormalizeModel(v: Value): (r: Result<Option<string>>)
    ensures !Truthy(v) <==> r == Ok(None)
    ensures Truthy(v) && v.Str? ==> r.Ok? && r.value.Some? && |r.value.value| == |v.s| && NoUpper(r.value.value)
    ensures Truthy(v) && !v.Str? ==> r == Err(NotAString("model"))
  {
    if !Truthy(v) then Ok(None)
    else if v.Str? then Ok(Some(Lower(v.s)))
    else Err(NotAString("model"))
  }

  /** Normalising a normalised model changes nothing. */
  lemma NormalizeModelIdempotent(v: Value)
    requires NormalizeModel(v).Ok? && NormalizeModel(v).value.Some?
    ensures NormalizeModel(Str(NormalizeModel(v).value.value)) == NormalizeModel(v)
  {
  }

  // ---------------------------------------------------------------------------
  // to_canonical
  // ---------------------------------------------------------------------------

  /**
   * The PERMISSION branch of `to_canonical`: the three lists of the
   * `permissions` object, empty when the object is missing or empty.
   */
  function PermissionToCanonical(json: Codec, content: string): (r: Result<CanonicalPermission>)
    ensures json.load(content).None? <==> r == Err(InvalidJson)
    ensures r.Ok? ==> r.value.sourceFormat == "claude"
  {
    match json.load(content)
    case None => Err(InvalidJson)
    case Some(data) =>
      if !data.Mapping? then Err(NotAMapping)
      else
        var found := Get(data.fields, "permissions", Mapping(map[]));
        var permissions := if !Truthy(found) then Mapping(map[]) else found;
        if !permissions.Mapping? then Err(NotAMapping)
        else
          var p := permissions.fields;
          Ok(CanonicalPermission(Get(p, "allow", List([])), Get(p, "deny", List([])), Get(p, "ask", List([])), "claude"))
  }

  /** A settings object without a (non-empty) `permissions` object gives three empty lists. */
  lemma MissingPermissionsAreEmpty(json: Codec, content: string, data: map<string, Value>)
    requires json.load(content) == Some(Mapping(data))
    requires !Truthy(Get(data, "permissions", Mapping(map[])))
    ensures PermissionToCanonical(json, content) == Ok(CanonicalPermission(List([]), List([]), List([]), "claude"))
  {
  }

  /** The metadata `to_canonical` keeps from the Claude-only fields. */
  function ClaudeMetadata(fm: map<string, Value>): map<string, Value>
  {
    var withMode := if "permissionMode" in fm then map[PermissionModeKey := fm["permissionMode"]] else map[];
    if "skills" in fm then withMode[SkillsKey := fm["skills"]] else withMode
  }

  /** The agent branch of `to_canonical` (every config type other than PERMISSION). */
  function AgentToCanonical(yaml: Codec, content: string): (r: Result<CanonicalAgent>)
    ensures MatchFrontmatter(content).None? ==> r == Err(NoFrontmatter)
    ensures r.Ok? ==> r.value.sourceFormat == "claude" && IsStripped(r.value.instructions)
  {
    match ParseAgentFile(yaml, content)
    case Err(f) => Err(f)
    case Ok((v, body)) =>
      if !v.Mapping? then Err(NotAMapping)
      else
        var fm := v.fields;
        match NormalizeModel(Get(fm, "model", Null))
        case Err(f) => Err(f)
        case Ok(model) =>
          Ok(CanonicalAgent(Get(fm, "name", Str("")), Get(fm, "description", Str("")), body,
                            ParseTools(Get(fm, "tools", Str(""))), model, "claude", ClaudeMetadata(fm)))
  }

  function ToCanonical(yaml: Codec, json: Codec, content: string, configType: ConfigType): Result<CanonicalObject>
  {
    if configType == Permission then
      match PermissionToCanonical(json, content)
      case Err(f) => Err(f)
      case Ok(p) => Ok(PermissionConfig(p))
    else
      match AgentToCanonical(yaml, content)
      case Err(f) => Err(f)
      case Ok(a) => Ok(AgentConfig(a))
  }

  // ---------------------------------------------------------------------------
  // from_canonical
  // ---------------------------------------------------------------------------

  /** The settings object written for a permission set. */
  function PermissionDocument(p: CanonicalPermission): Value
  {
    Mapping(map["permissions" := Mapping(map["allow" := p.allow, "deny" := p.deny, "ask" := p.ask])])
  }

  /** Metadata worth restoring: `if canonical_obj.get_metadata(key)` holds. */
  function WithMetadata(fm: map<string, Value>, a: CanonicalAgent, key: string, field: string): map<string, Value>
  {
    if Truthy(GetMetadata(a, key)) then fm[field := GetMetadata(a, key)] else fm
  }

  /** The frontmatter `from_canonical` builds for an agent. */
  function AgentFrontmatter(a: CanonicalAgent): Result<map<string, Value>>
  {
    var header := map["name" := a.name, "description" := a.description];
    if a.tools != [] && Strs(a.tools).None? then Err(NonStringTool)
    else
      var withTools := if a.tools != [] then header["tools" := Str(Join(Strs(a.tools).value, ", "))] else header;
      var withModel := if a.model.Some? && a.model.value != "" then withTools["model" := Str(a.model.value)] else withTools;
      Ok(WithMetadata(WithMetadata(withModel, a, PermissionModeKey, "permissionMode"), a, SkillsKey, "skills"))
  }

  function FromCanonical(yaml: Codec, json: Codec, obj: CanonicalObject, configType: ConfigType): Result<string>
  {
    if configType == Permission then
      if !obj.PermissionConfig? then Err(ExpectedPermission)
      else Ok(json.dump(PermissionDocument(obj.permission)))
    else if !obj.AgentConfig? then Err(NotAnAgent)
    else
      match AgentFrontmatter(obj.agent)
      case Err(f) => Err(f)
      case Ok(fm) => Ok(Emit(yaml, fm, obj.agent.instructions))
  }

  lemma MetadataKeysDistinct()
    ensures |PermissionModeKey| == 22 && |SkillsKey| == 13
  {
  }

  /**
   * The frontmatter always names the agent and describes it; `tools` appears
   * exactly when the list is non-empty, `model` exactly when the model is
   * truthy, and each Claude-only field exactly when its metadata is truthy.
   */
  lemma AgentFrontmatterFields(a: CanonicalAgent)
    requires AgentFrontmatter(a).Ok?
    ensures var fm := AgentFrontmatter(a).value;
      && fm.Keys <= {"name", "description", "tools", "model", "permissionMode", "skills"}
      && "name" in fm && fm["name"] == a.name
      && "description" in fm && fm["description"] == a.description
      && ("tools" in fm <==> a.tools != [])
      && ("tools" in fm ==> fm["tools"] == Str(Join(Strs(a.tools).value, ", ")))
      && ("model" in fm <==> a.model.Some? && a.model.value != "")
      && ("model" in fm ==> fm["model"] == Str(a.model.value))
      && ("permissionMode" in fm <==> Truthy(GetMetadata(a, PermissionModeKey)))
      && ("permissionMode" in fm ==> fm["permissionMode"] == GetMetadata(a, PermissionModeKey))
      && ("skills" in fm <==> Truthy(GetMetadata(a, SkillsKey)))
      && ("skills" in fm ==> fm["skills"] == GetMetadata(a, SkillsKey))
  {
    KeysDistinct();
  }

  /** A tools list holding a non-string cannot be written. */
  lemma NonStringToolsRejected(a: CanonicalAgent)
    requires exists i :: 0 <= i < |a.tools| && !a.tools[i].Str?
    ensures AgentFrontmatter(a) == Err(NonStringTool)
  {
  }

  /** With a JSON library that reads back what it writes, a permission set survives a round trip. */
  lemma PermissionRoundTrip(json: Codec, yaml: Codec, p: CanonicalPermission)
    requires json.load(json.dump(PermissionDocument(p))) == Some(PermissionDocument(p))
    ensures FromCanonical(yaml, json, PermissionConfig(p), Permission).Ok?
    ensures ToCanonical(yaml, json, FromCanonical(yaml, json, PermissionConfig(p), Permission).value, Permission)
         == Ok(PermissionConfig(p.(sourceFormat := "claude")))
  {
    assert |"allow"| == 5 && |"deny"| == 4 && |"ask"| == 3;
  }

  /** A metadata value that comes back the same: absent, or truthy so that it is written. */
  predicate Restorable(v: Value)
  {
    v == Null || Truthy(v)
  }

  /** The agents whose conversion to Claude and back is faithful. */
  predicate PortableAgent(a: CanonicalAgent)
  {
    && Strs(a.tools).Some?
    && (forall i :: 0 <= i < |Strs(a.tools).value| ==> ToolName(Strs(a.tools).value[i]))
    && (a.model.Some? ==> a.model.value != "" && NoUpper(a.model.value))
    && Restorable(GetMetadata(a, PermissionModeKey))
    && Restorable(GetMetadata(a, SkillsKey))
    && IsStripped(a.instructions)
  }

  /** Clean tool names come back from the joined `tools` field. */
  lemma ToolsComeBack(a: CanonicalAgent)
    requires PortableAgent(a) && AgentFrontmatter(a).Ok?
    ensures ParseTools(Get(AgentFrontmatter(a).value, "tools", Str(""))) == a.tools
  {
    var fm := AgentFrontmatter(a).value;
    AgentFrontmatterFields(a);
    var names := Strs(a.tools).value;
    ParseToolsOfJoined(names);
    if a.tools == [] {
      assert names == [];
      assert Join(names, ", ") == "";
    }
    assert StrValues(names) == a.tools;
  }

  /** A lowercase model comes back unchanged; no model comes back as none. */
  lemma ModelComesBack(a: CanonicalAgent)
    requires PortableAgent(a) && AgentFrontmatter(a).Ok?
    ensures NormalizeModel(Get(AgentFrontmatter(a).value, "model", Null)) == Ok(a.model)
  {
    AgentFrontmatterFields(a);
  }

  /** Both Claude-only metadata values come back, whether present or absent. */
  lemma MetadataComesBack(a: CanonicalAgent)
    requires PortableAgent(a) && AgentFrontmatter(a).Ok?
    ensures Get(ClaudeMetadata(AgentFrontmatter(a).value), PermissionModeKey, Null) == GetMetadata(a, PermissionModeKey)
    ensures Get(ClaudeMetadata(AgentFrontmatter(a).value), SkillsKey, Null) == GetMetadata(a, SkillsKey)
  {
    AgentFrontmatterFields(a);
    MetadataKeysDistinct();
  }

  /**
   * `to_canonical(from_canonical(a))` gives back the name, description,
   * instructions, tools, model and both Claude-only metadata values, provided
   * the tools are clean names, the model is lowercase, the instructions are
   * stripped and the YAML library reads back the frontmatter it writes.
   */
  lemma AgentRoundTrip(yaml: Codec, json: Codec, a: CanonicalAgent)
    requires PortableAgent(a)
    requires AgentFrontmatter(a).Ok? && DumpsFrontmatter(yaml, AgentFrontmatter(a).value)
    ensures FromCanonical(yaml, json, AgentConfig(a), Agent).Ok?
    ensures var back := ToCanonical(yaml, json, FromCanonical(yaml, json, AgentConfig(a), Agent).value, Agent);
      && back.Ok? && back.value.AgentConfig?
      && back.value.agent.name == a.name
      && back.value.agent.description == a.description
      && back.value.agent.instructions == a.instructions
      && back.value.agent.tools == a.tools
      && back.value.agent.model == a.model
      && GetMetadata(back.value.agent, PermissionModeKey) == GetMetadata(a, PermissionModeKey)
      && GetMetadata(back.value.agent, SkillsKey) == GetMetadata(a, SkillsKey)
  {
    var fm := AgentFrontmatter(a).value;
    EmittedFileParses(yaml, fm, a.instructions);
    AgentFrontmatterFields(a);
    ToolsComeBack(a);
    ModelComesBack(a);
    MetadataComesBack(a);
    assert AgentToCanonical(yaml, Emit(yaml, fm, a.instructions))
        == Ok(CanonicalAgent(a.name, a.description, a.instructions, a.tools, a.model, "claude", ClaudeMetadata(fm)));
  }

  // ---------------------------------------------------------------------------
  // The adapter object
  // ---------------------------------------------------------------------------

  class ClaudeAdapter {
    /** The YAML and JSON libraries. */
    const yaml: Codec
    const json: Codec
    var warnings: seq<string>

    constructor(yaml: Codec, json: Codec)
      ensures warnings == []
    {
      this.yaml := yaml;
      this.json := json;
      warnings := [];
    }

    /** `to_canonical`: resets the warnings, then parses a settings or an agent file. */
    method ToCanonicalObject(content: string, configType: ConfigType) returns (r: Result<CanonicalObject>)
      modifies this`warnings
      ensures warnings == []
      ensures r == ToCanonical(yaml, json, content, configType)
    {
      warnings := [];
      if configType == Permission {
        var p := PermissionToCanonical(json, content);
        r := if p.Ok? then Ok(PermissionConfig(p.value)) else Err(p.failure);
        return;
      }
      var parsed := ParseAgentFile(yaml, content);
      if parsed.Err? {
        return Err(parsed.failure);
      }
      var (v, body) := parsed.value;
      if !v.Mapping? {
        return Err(NotAMapping);
      }
      var frontmatter := v.fields;
      var model := NormalizeModel(Get(frontmatter, "model", Null));
      if model.Err? {
        return Err(model.failure);
      }
      var agent := CanonicalAgent(Get(frontmatter, "name", Str("")), Get(frontmatter, "description", Str("")), body,
                                  ParseTools(Get(frontmatter, "tools", Str(""))), model.value, "claude", map[]);
      if "permissionMode" in frontmatter {
        agent := agent.(metadata := agent.metadata[PermissionModeKey := frontmatter["permissionMode"]]);
      }
      if "skills" in frontmatter {
        agent := agent.(metadata := agent.metadata[SkillsKey := frontmatter["skills"]]);
      }
      r := Ok(AgentConfig(agent));
    }

    /** `from_canonical`: resets the warnings, then writes a settings or an agent file. */
    method FromCanonicalObject(obj: CanonicalObject, configType: ConfigType) returns (r: Result<string>)
      modifies this`warnings
      ensures warnings == []
      ensures r == FromCanonical(yaml, json, obj, configType)
    {
      warnings := [];
      if configType == Permission {
        if !obj.PermissionConfig? {
          return Err(ExpectedPermission);
        }
        return Ok(json.dump(PermissionDocument(obj.permission)));
      }
      if !obj.AgentConfig? {
        return Err(NotAnAgent);
      }
      var a := obj.agent;
      var frontmatter := map["name" := a.name, "description" := a.description];
      if a.tools != [] {
        var names := Strs(a.tools);
        if names.None? {
          return Err(NonStringTool);
        }
        frontmatter := frontmatter["tools" := Str(Join(names.value, ", "))];
      }
      if a.model.Some? && a.model.value != "" {
        frontmatter := frontmatter["model" := Str(a.model.value)];
      }
      frontmatter := WithMetadata(frontmatter, a, PermissionModeKey, "permissionMode");
      frontmatter := WithMetadata(frontmatter, a, SkillsKey, "skills");
      r := Ok(Emit(yaml, frontmatter, a.instructions));
    }
  }
}
