/**
 * `AgentConverter`: the conversion of one agent file between the Claude Code
 * layout (comma-separated `tools`, short model names) and the GitHub Copilot
 * layout (`tools` list, display model names, `target: vscode`), at the level of
 * the frontmatter mapping. The YAML library is an injected codec.
 */
module Converter {
  import opened Values
  import opened Text

  /** A conversion warning; the code renders each as one line of text. */
  datatype Warning =
    | DroppedUnsupported(field: string, value: Value)    // "Dropped unsupported field: <field>=<value>"
    | DroppedCopilotFields(fields: seq<string>)          // "Dropped Copilot-specific fields: <a, b>"

  /** CLAUDE_TO_COPILOT_MODELS; 'inherit' maps to None, which drops the model. */
  const CopilotModels: map<string, Value> := map[
    "sonnet" := Str("Claude Sonnet 4"),
    "opus" := Str("Claude Opus 4"),
    "haiku" := Str("Claude Haiku 4"),
    "inherit" := Null]

  /** COPILOT_TO_CLAUDE_MODELS, keyed by the lowercased display name. */
  const ClaudeModels: map<string, Value> := map[
    "claude sonnet 4" := Str("sonnet"),
    "claude opus 4" := Str("opus"),
    "claude haiku 4" := Str("haiku")]

  /** The `handoffs` placeholder written under `--add-handoffs`. */
  const HandoffsPlaceholder: Value := List([Mapping(map[
    "label" := Str("Next Step"),
    "agent" := Str("agent"),
    "prompt" := Str("Continue with the next step"),
    "send" := Bool(false)])])

  /** The fields `copilot_to_claude` reports as dropped, in the order it checks them. */
  const CopilotOnlyFields: seq<string> := ["argument-hint", "handoffs", "target", "mcp-servers"]

  /** The fields `claude_to_copilot` carries over, other than those it rewrites. */
  const SharedFields: set<string> := {"name", "description", "tools", "model"}

  /** A list of strings as a loaded YAML list. */
  function StrValues(names: seq<string>): (r: seq<Value>)
    ensures |r| == |names|
    ensures forall i :: 0 <= i < |r| ==> r[i] == Str(names[i])
  {
    if names == [] then [] else [Str(names[0])] + StrValues(names[1..])
  }

  /** The strings of a loaded list, or None when one item is not a string (`', '.join` raises). */
  function Strs(items: seq<Value>): (r: Option<seq<string>>)
    ensures r.Some? <==> forall i :: 0 <= i < |items| ==> items[i].Str?
    ensures r.Some? ==> |r.value| == |items| && forall i :: 0 <= i < |items| ==> items[i] == Str(r.value[i])
  {
    if items == [] then Some([])
    else if !items[0].Str? then None
    else match Strs(items[1..])
      case None => None
      case Some(rest) => Some([items[0].s] + rest)
  }

  /** The two conversions of a list of strings are inverse. */
  lemma {:induction false} StrsOfStrValues(names: seq<string>)
    ensures Strs(StrValues(names)) == Some(names)
  {
    if names != [] {
      var vs := StrValues(names);
      StrsOfStrValues(names[1..]);
      assert vs[1..] == StrValues(names[1..]);
      assert Strs(vs) == Some([names[0]] + names[1..]);
      assert [names[0]] + names[1..] == names;
    }
  }

  /** `CLAUDE_TO_COPILOT_MODELS.get(model.lower(), model)` */
  function CopilotModel(model: string): Value
  {
    Get(CopilotModels, Lower(model), Str(model))
  }

  /** `COPILOT_TO_CLAUDE_MODELS.get(model.lower(), model)` */
  function ClaudeModel(model: string): Value
  {
    Get(ClaudeModels, Lower(model), Str(model))
  }

  /**
   * `parse_agent_file`: the loaded frontmatter and the stripped body. A content
   * without the `---` fences and a frontmatter the loader rejects are errors.
   */
  function ParseAgentFile(yaml: Codec, content: string): (r: Result<(Value, string)>)
    ensures r.Ok? ==> IsStripped(r.value.1)
    ensures MatchFrontmatter(content).None? <==> r == Err(NoFrontmatter)
  {
    match MatchFrontmatter(content)
    case None => Err(NoFrontmatter)
    case Some((front, body)) =>
      match yaml.load(front)
      case None => Err(YamlSyntax)
      case Some(v) => Ok((v, Strip(body)))
  }

  /** The file `claude_to_copilot` and `copilot_to_claude` write for a frontmatter and a body. */
  function Emit(yaml: Codec, fm: map<string, Value>, body: string): string
  {
    "---\n" + yaml.dump(Mapping(fm)) + "---\n" + body + "\n"
  }

  /** `out[k] = fm[k]` when `k` is present in `fm`. */
  function CopyField(out: map<string, Value>, fm: map<string, Value>, k: string): map<string, Value>
  {
    if k in fm then out[k := fm[k]] else out
  }

  /** The `argument-hint` step: the description repeated, when asked for and present. */
  function HintStep(out: map<string, Value>, fm: map<string, Value>, addArgumentHint: bool): map<string, Value>
  {
    if "description" in fm && addArgumentHint then out["argument-hint" := fm["description"]] else out
  }

  /** The tools step towards Copilot: a string is split, a list kept, anything else left out. */
  function CopilotToolsStep(out: map<string, Value>, fm: map<string, Value>): map<string, Value>
  {
    if "tools" in fm && fm["tools"].Str? then out["tools" := List(StrValues(SplitTools(fm["tools"].s)))]
    else if "tools" in fm && fm["tools"].List? then out["tools" := fm["tools"]]
    else out
  }

  /** The model step towards Copilot: the mapped model, when it is truthy. */
  function CopilotModelStep(out: map<string, Value>, fm: map<string, Value>): map<string, Value>
    requires "model" in fm ==> fm["model"].Str?
  {
    if "model" in fm && Truthy(CopilotModel(fm["model"].s)) then out["model" := CopilotModel(fm["model"].s)] else out
  }

  /** The closing step towards Copilot: `target`, and the `handoffs` placeholder when asked for. */
  function CopilotTail(out: map<string, Value>, addHandoffs: bool): map<string, Value>
  {
    var withTarget := out["target" := Str("vscode")];
    if addHandoffs then withTarget["handoffs" := HandoffsPlaceholder] else withTarget
  }

  /** The frontmatter `claude_to_copilot` builds from a loaded Claude frontmatter. */
  function CopilotFrontmatter(v: Value, addArgumentHint: bool, addHandoffs: bool): Result<map<string, Value>>
  {
    if !v.Mapping? then Err(NotAMapping)
    else if "model" in v.fields && !v.fields["model"].Str? then Err(NotAString("model"))
    else
      var header := CopyField(CopyField(map[], v.fields, "name"), v.fields, "description");
      var withTools := CopilotToolsStep(HintStep(header, v.fields, addArgumentHint), v.fields);
      Ok(CopilotTail(CopilotModelStep(withTools, v.fields), addHandoffs))
  }

  /** The warnings `claude_to_copilot` lists for a Claude frontmatter, in the order it appends them. */
  function ClaudeDropped(fm: map<string, Value>): seq<Warning>
  {
    var afterMode := if "permissionMode" in fm then [DroppedUnsupported("permissionMode", fm["permissionMode"])] else [];
    if "skills" in fm then afterMode + [DroppedUnsupported("skills", fm["skills"])] else afterMode
  }

  /** The tools step towards Claude: a list of strings is joined, a string kept, anything else left out. */
  function ClaudeToolsStep(out: map<string, Value>, fm: map<string, Value>): map<string, Value>
    requires "tools" in fm && fm["tools"].List? ==> Strs(fm["tools"].items).Some?
  {
    if "tools" in fm && fm["tools"].List? then out["tools" := Str(Join(Strs(fm["tools"].items).value, ", "))]
    else if "tools" in fm && fm["tools"].Str? then out["tools" := fm["tools"]]
    else out
  }

  /** The model step towards Claude: the model is always mapped. */
  function ClaudeModelStep(out: map<string, Value>, fm: map<string, Value>): map<string, Value>
    requires "model" in fm ==> fm["model"].Str?
  {
    if "model" in fm then out["model" := ClaudeModel(fm["model"].s)] else out
  }

  /** The frontmatter `copilot_to_claude` builds from a loaded Copilot frontmatter. */
  function ClaudeFrontmatter(v: Value): Result<map<string, Value>>
  {
    if !v.Mapping? then Err(NotAMapping)
    else if "tools" in v.fields && v.fields["tools"].List? && Strs(v.fields["tools"].items).None? then Err(NonStringTool)
    else if "model" in v.fields && !v.fields["model"].Str? then Err(NotAString("model"))
    else
      var header := CopyField(CopyField(map[], v.fields, "name"), v.fields, "description");
      Ok(ClaudeModelStep(ClaudeToolsStep(header, v.fields), v.fields))
  }

  /** `dropped` with `field` appended when `fm` has it. */
  function AppendIfPresent(dropped: seq<string>, fm: map<string, Value>, field: string): seq<string>
  {
    if field in fm then dropped + [field] else dropped
  }

  /** The Copilot-only fields present in a frontmatter, in the order they are checked. */
  function PresentCopilotFields(fm: map<string, Value>): (r: seq<string>)
    ensures forall f :: f in r <==> f in CopilotOnlyFields && f in fm
  {
    var hint := AppendIfPresent([], fm, "argument-hint");
    var handoffs := AppendIfPresent(hint, fm, "handoffs");
    var target := AppendIfPresent(handoffs, fm, "target");
    AppendIfPresent(target, fm, "mcp-servers")
  }

  /** The warnings `copilot_to_claude` lists for a Copilot frontmatter. */
  function CopilotDropped(fm: map<string, Value>): seq<Warning>
  {
    var dropped := PresentCopilotFields(fm);
    if dropped != [] then [DroppedCopilotFields(dropped)] else []
  }

  /** The text `claude_to_copilot` returns, or the error it raises. */
  function ToCopilotText(yaml: Codec, content: string, addArgumentHint: bool, addHandoffs: bool): Result<string>
  {
    match ParseAgentFile(yaml, content)
    case Err(f) => Err(f)
    case Ok((v, body)) =>
      match CopilotFrontmatter(v, addArgumentHint, addHandoffs)
      case Err(f) => Err(f)
      case Ok(fm) => Ok(Emit(yaml, fm, body))
  }

  /** The text `copilot_to_claude` returns, or the error it raises. */
  function ToClaudeText(yaml: Codec, content: string): Result<string>
  {
    match ParseAgentFile(yaml, content)
    case Err(f) => Err(f)
    case Ok((v, body)) =>
      match ClaudeFrontmatter(v)
      case Err(f) => Err(f)
      case Ok(fm) => Ok(Emit(yaml, fm, body))
  }

  /** The mapping keeps the entries of `fm` whose keys are in `keys`. */
  function Restrict(fm: map<string, Value>, keys: set<string>): map<string, Value>
  {
    map k | k in fm && k in keys :: fm[k]
  }

  // ---------------------------------------------------------------------------
  // Properties of the field mapping
  // ---------------------------------------------------------------------------

  /**
   * The field names the conversions test are pairwise different: their lengths
   * differ, except for three pairs that differ in their first letter.
   */
  lemma KeysDistinct()
    ensures |"name"| == 4 && |"description"| == 11 && |"argument-hint"| == 13 && |"tools"| == 5
    ensures |"model"| == 5 && |"target"| == 6 && |"handoffs"| == 8 && |"permissionMode"| == 14
    ensures |"skills"| == 6 && |"mcp-servers"| == 11
    ensures "tools" != "model" && "target" != "skills" && "description" != "mcp-servers"
  {
    assert "tools"[0] != "model"[0];
    assert "target"[0] != "skills"[0];
    assert "description"[0] != "mcp-servers"[0];
  }

  /** The two mappings agree on key `k`: both lack it or both map it to the same value. */
  predicate AgreeOn(a: map<string, Value>, b: map<string, Value>, k: string)
  {
    (k in a <==> k in b) && (k in a ==> a[k] == b[k])
  }

  // Each step of a conversion leaves every key it does not write as it was.

  lemma CopyFieldFrame(out: map<string, Value>, fm: map<string, Value>, f: string, k: string)
    requires k != f
    ensures AgreeOn(CopyField(out, fm, f), out, k)
  {
  }

  lemma HintStepFrame(out: map<string, Value>, fm: map<string, Value>, addArgumentHint: bool, k: string)
    requires k != "argument-hint"
    ensures AgreeOn(HintStep(out, fm, addArgumentHint), out, k)
  {
  }

  lemma CopilotToolsStepFrame(out: map<string, Value>, fm: map<string, Value>, k: string)
    requires k != "tools"
    ensures AgreeOn(CopilotToolsStep(out, fm), out, k)
  {
  }

  lemma CopilotModelStepFrame(out: map<string, Value>, fm: map<string, Value>, k: string)
    requires "model" in fm ==> fm["model"].Str?
    requires k != "model"
    ensures AgreeOn(CopilotModelStep(out, fm), out, k)
  {
  }

  lemma CopilotTailFrame(out: map<string, Value>, addHandoffs: bool, k: string)
    requires k != "target" && k != "handoffs"
    ensures AgreeOn(CopilotTail(out, addHandoffs), out, k)
  {
  }

  lemma ClaudeToolsStepFrame(out: map<string, Value>, fm: map<string, Value>, k: string)
    requires "tools" in fm && fm["tools"].List? ==> Strs(fm["tools"].items).Some?
    requires k != "tools"
    ensures AgreeOn(ClaudeToolsStep(out, fm), out, k)
  {
  }

  lemma ClaudeModelStepFrame(out: map<string, Value>, fm: map<string, Value>, k: string)
    requires "model" in fm ==> fm["model"].Str?
    requires k != "model"
    ensures AgreeOn(ClaudeModelStep(out, fm), out, k)
  {
  }

  /** The steps after the tools step leave every other key alone. */
  lemma CopilotAfterTools(tooled: map<string, Value>, fm: map<string, Value>, addHandoffs: bool, k: string)
    requires "model" in fm ==> fm["model"].Str?
    requires k != "model" && k != "target" && k != "handoffs"
    ensures AgreeOn(CopilotTail(CopilotModelStep(tooled, fm), addHandoffs), tooled, k)
  {
    CopilotModelStepFrame(tooled, fm, k);
    CopilotTailFrame(CopilotModelStep(tooled, fm), addHandoffs, k);
  }

  /** The steps after the `argument-hint` step leave every other key alone. */
  lemma CopilotAfterHint(hinted: map<string, Value>, fm: map<string, Value>, addHandoffs: bool, k: string)
    requires "model" in fm ==> fm["model"].Str?
    requires k != "tools" && k != "model" && k != "target" && k != "handoffs"
    ensures AgreeOn(CopilotTail(CopilotModelStep(CopilotToolsStep(hinted, fm), fm), addHandoffs), hinted, k)
  {
    CopilotToolsStepFrame(hinted, fm, k);
    CopilotAfterTools(CopilotToolsStep(hinted, fm), fm, addHandoffs, k);
  }

  /**
   * The Copilot frontmatter copies name and description, and repeats the
   * description as `argument-hint` when that option is on.
   */
  lemma CopilotCopiesHeader(fm: map<string, Value>, addArgumentHint: bool, addHandoffs: bool)
    requires "model" in fm ==> fm["model"].Str?
    ensures var r := CopilotFrontmatter(Mapping(fm), addArgumentHint, addHandoffs);
      && r.Ok?
      && ("name" in r.value <==> "name" in fm) && ("name" in fm ==> r.value["name"] == fm["name"])
      && ("description" in r.value <==> "description" in fm)
      && ("description" in fm ==> r.value["description"] == fm["description"])
      && ("argument-hint" in r.value <==> "description" in fm && addArgumentHint)
      && ("argument-hint" in r.value ==> r.value["argument-hint"] == fm["description"])
  {
    KeysDistinct();
    var named := CopyField(map[], fm, "name");
    var header := CopyField(named, fm, "description");
    var hinted := HintStep(header, fm, addArgumentHint);
    CopyFieldFrame(named, fm, "description", "name");
    HintStepFrame(header, fm, addArgumentHint, "name");
    HintStepFrame(header, fm, addArgumentHint, "description");
    CopilotAfterHint(hinted, fm, addHandoffs, "name");
    CopilotAfterHint(hinted, fm, addHandoffs, "description");
    CopilotAfterHint(hinted, fm, addHandoffs, "argument-hint");
  }

  /** The Copilot frontmatter always has `target: vscode`, and `handoffs` exactly under that option. */
  lemma CopilotAddsTarget(fm: map<string, Value>, addArgumentHint: bool, addHandoffs: bool)
    requires "model" in fm ==> fm["model"].Str?
    ensures var r := CopilotFrontmatter(Mapping(fm), addArgumentHint, addHandoffs);
      && r.Ok?
      && "target" in r.value && r.value["target"] == Str("vscode")
      && ("handoffs" in r.value <==> addHandoffs)
      && (addHandoffs ==> r.value["handoffs"] == HandoffsPlaceholder)
  {
    KeysDistinct();
  }

  /**
   * A string `tools` becomes the list of its stripped non-empty pieces, a list
   * is kept, and a `tools` of any other kind is left out.
   */
  lemma CopilotConvertsTools(fm: map<string, Value>, addArgumentHint: bool, addHandoffs: bool)
    requires "model" in fm ==> fm["model"].Str?
    ensures var r := CopilotFrontmatter(Mapping(fm), addArgumentHint, addHandoffs);
      && r.Ok?
      && ("tools" in r.value <==> "tools" in fm && (fm["tools"].Str? || fm["tools"].List?))
      && ("tools" in fm && fm["tools"].Str? ==> r.value["tools"] == List(StrValues(SplitTools(fm["tools"].s))))
      && ("tools" in fm && fm["tools"].List? ==> r.value["tools"] == fm["tools"])
  {
    KeysDistinct();
    var hinted := HintStep(CopyField(CopyField(map[], fm, "name"), fm, "description"), fm, addArgumentHint);
    CopilotAfterTools(CopilotToolsStep(hinted, fm), fm, addHandoffs, "tools");
  }

  /** The model is mapped through the table, and left out when the mapped value is falsy. */
  lemma CopilotMapsModel(fm: map<string, Value>, addArgumentHint: bool, addHandoffs: bool)
    requires "model" in fm ==> fm["model"].Str?
    ensures var r := CopilotFrontmatter(Mapping(fm), addArgumentHint, addHandoffs);
      && r.Ok?
      && ("model" in r.value <==> "model" in fm && Truthy(CopilotModel(fm["model"].s)))
      && ("model" in r.value ==> r.value["model"] == CopilotModel(fm["model"].s))
  {
    KeysDistinct();
    var hinted := HintStep(CopyField(CopyField(map[], fm, "name"), fm, "description"), fm, addArgumentHint);
    var modelled := CopilotModelStep(CopilotToolsStep(hinted, fm), fm);
    CopilotTailFrame(modelled, addHandoffs, "model");
  }

  /** No key appears other than the shared ones, `target`, and the two optional ones under their options. */
  lemma CopilotKeys(fm: map<string, Value>, addArgumentHint: bool, addHandoffs: bool)
    requires "model" in fm ==> fm["model"].Str?
    ensures var r := CopilotFrontmatter(Mapping(fm), addArgumentHint, addHandoffs);
      && r.Ok?
      && forall k :: k in r.value ==>
           || k in SharedFields || k == "target"
           || (addArgumentHint && k == "argument-hint") || (addHandoffs && k == "handoffs")
  {
    KeysDistinct();
  }

  /** A model that is not a string makes `claude_to_copilot` raise. */
  lemma CopilotFrontmatterRejects(v: Value, addArgumentHint: bool, addHandoffs: bool)
    ensures CopilotFrontmatter(v, addArgumentHint, addHandoffs).Err?
        <==> !v.Mapping? || ("model" in v.fields && !v.fields["model"].Str?)
  {
    KeysDistinct();
  }

  /** The Claude frontmatter copies name and description. */
  lemma ClaudeCopiesHeader(fm: map<string, Value>)
    requires ClaudeConvertible(fm)
    ensures var r := ClaudeFrontmatter(Mapping(fm));
      && r.Ok? && AgreeOn(r.value, fm, "name") && AgreeOn(r.value, fm, "description")
  {
    KeysDistinct();
    var named := CopyField(map[], fm, "name");
    var header := CopyField(named, fm, "description");
    CopyFieldFrame(named, fm, "description", "name");
    ClaudeAfterHeader(header, fm, "name");
    ClaudeAfterHeader(header, fm, "description");
  }

  /** The steps after the header leave every other key alone. */
  lemma ClaudeAfterHeader(header: map<string, Value>, fm: map<string, Value>, k: string)
    requires ClaudeConvertible(fm)
    requires k != "tools" && k != "model"
    ensures AgreeOn(ClaudeModelStep(ClaudeToolsStep(header, fm), fm), header, k)
  {
    ClaudeToolsStepFrame(header, fm, k);
    ClaudeModelStepFrame(ClaudeToolsStep(header, fm), fm, k);
  }

  /** A `tools` list of strings becomes their ", "-joined string, a string is kept, any other kind is left out. */
  lemma ClaudeConvertsTools(fm: map<string, Value>)
    requires ClaudeConvertible(fm)
    ensures var r := ClaudeFrontmatter(Mapping(fm));
      && r.Ok?
      && ("tools" in r.value <==> "tools" in fm && (fm["tools"].Str? || fm["tools"].List?))
      && ("tools" in fm && fm["tools"].Str? ==> r.value["tools"] == fm["tools"])
      && ("tools" in fm && fm["tools"].List? ==> r.value["tools"] == Str(Join(Strs(fm["tools"].items).value, ", ")))
  {
    KeysDistinct();
    var header := CopyField(CopyField(map[], fm, "name"), fm, "description");
    ClaudeModelStepFrame(ClaudeToolsStep(header, fm), fm, "tools");
  }

  /** The model is always mapped through the table. */
  lemma ClaudeMapsModel(fm: map<string, Value>)
    requires ClaudeConvertible(fm)
    ensures var r := ClaudeFrontmatter(Mapping(fm));
      && r.Ok?
      && ("model" in r.value <==> "model" in fm)
      && ("model" in fm ==> r.value["model"] == ClaudeModel(fm["model"].s))
  {
  }

  /** No key other than name, description, tools and model appears. */
  lemma ClaudeKeys(fm: map<string, Value>)
    requires ClaudeConvertible(fm)
    ensures var r := ClaudeFrontmatter(Mapping(fm));
      && r.Ok?
      && forall k :: k in r.value ==> k in SharedFields
  {
  }

  /** A tools list with a non-string item, or a non-string model, makes `copilot_to_claude` raise. */
  lemma ClaudeFrontmatterRejects(v: Value)
    ensures ClaudeFrontmatter(v).Err?
        <==> || !v.Mapping?
             || ("tools" in v.fields && v.fields["tools"].List? && Strs(v.fields["tools"].items).None?)
             || ("model" in v.fields && !v.fields["model"].Str?)
  {
    KeysDistinct();
  }

  /** Only present Copilot-only fields are reported, and the list is empty exactly when none is present. */
  lemma CopilotDroppedReportsPresent(fm: map<string, Value>)
    ensures CopilotDropped(fm) == [] <==> forall f :: f in CopilotOnlyFields ==> f !in fm
    ensures CopilotDropped(fm) != [] ==>
      forall f :: f in CopilotDropped(fm)[0].fields <==> f in CopilotOnlyFields && f in fm
  {
    EmptyIffNoMember(PresentCopilotFields(fm));
  }

  lemma EmptyIffNoMember(s: seq<string>)
    ensures s == [] <==> forall x :: x !in s
  {
    if s != [] {
      assert s[0] in s;
    }
  }

  // ---------------------------------------------------------------------------
  // Model names
  // ---------------------------------------------------------------------------

  /** Lowercasing, one character at a time. */
  lemma LowerIs(s: string, t: string)
    requires |s| == |t|
    requires forall i :: 0 <= i < |s| ==> LowerChar(s[i]) == t[i]
    ensures Lower(s) == t
  {
  }

  lemma LowerLiteral(s: string, t: string)
    requires s in {"Claude Sonnet 4", "Claude Opus 4", "Claude Haiku 4", "sonnet", "opus", "haiku"}
    requires t == if s == "Claude Sonnet 4" then "claude sonnet 4"
                  else if s == "Claude Opus 4" then "claude opus 4"
                  else if s == "Claude Haiku 4" then "claude haiku 4"
                  else s
    ensures Lower(s) == t
  {
    forall i | 0 <= i < |s|
      ensures LowerChar(s[i]) == t[i]
    {
    }
    LowerIs(s, t);
  }

  lemma LowerSonnet()
    ensures Lower("Claude Sonnet 4") == "claude sonnet 4" && Lower("sonnet") == "sonnet"
  {
    LowerLiteral("Claude Sonnet 4", "claude sonnet 4");
    LowerLiteral("sonnet", "sonnet");
  }

  lemma LowerOpus()
    ensures Lower("Claude Opus 4") == "claude opus 4" && Lower("opus") == "opus"
  {
    LowerLiteral("Claude Opus 4", "claude opus 4");
    LowerLiteral("opus", "opus");
  }

  lemma LowerHaiku()
    ensures Lower("Claude Haiku 4") == "claude haiku 4" && Lower("haiku") == "haiku"
  {
    LowerLiteral("Claude Haiku 4", "claude haiku 4");
    LowerLiteral("haiku", "haiku");
  }

  /** The short Claude model names and the Copilot display names, pairwise. */
  const ShortNames: seq<string> := ["sonnet", "opus", "haiku"]
  const DisplayNames: seq<string> := ["Claude Sonnet 4", "Claude Opus 4", "Claude Haiku 4"]
  const LowerDisplayNames: seq<string> := ["claude sonnet 4", "claude opus 4", "claude haiku 4"]

  lemma CopilotTableAt(k: string, n: nat)
    requires n < 3 && k == ShortNames[n]
    ensures Get(CopilotModels, k, Null) == Str(DisplayNames[n])
  {
  }

  lemma ClaudeTableAt(k: string, n: nat)
    requires n < 3 && k == LowerDisplayNames[n]
    ensures Get(ClaudeModels, k, Null) == Str(ShortNames[n])
  {
  }

  lemma LowerNames(n: nat)
    requires n < 3
    ensures Lower(ShortNames[n]) == ShortNames[n]
    ensures Lower(DisplayNames[n]) == LowerDisplayNames[n]
  {
    if n == 0 {
      LowerSonnet();
    } else if n == 1 {
      LowerOpus();
    } else {
      LowerHaiku();
    }
  }

  /** The two tables map each short name to its display name and back. */
  lemma TablesAt(n: nat)
    requires n < 3
    ensures CopilotModel(ShortNames[n]) == Str(DisplayNames[n])
    ensures ClaudeModel(DisplayNames[n]) == Str(ShortNames[n])
  {
    LowerNames(n);
    CopilotTableAt(Lower(ShortNames[n]), n);
    ClaudeTableAt(Lower(DisplayNames[n]), n);
  }

  /** A short model name that goes to Copilot and back comes back unchanged. */
  lemma ShortModelRoundTrip(model: string)
    requires model in ShortNames
    ensures CopilotModel(model).Str?
    ensures ClaudeModel(CopilotModel(model).s) == Str(model)
  {
    var n :| 0 <= n < 3 && ShortNames[n] == model;
    TablesAt(n);
  }

  /** A display model name that goes to Claude and back comes back unchanged. */
  lemma DisplayModelRoundTrip(model: string)
    requires model in DisplayNames
    ensures ClaudeModel(model).Str?
    ensures CopilotModel(ClaudeModel(model).s) == Str(model)
    ensures Truthy(CopilotModel(ClaudeModel(model).s))
  {
    var n :| 0 <= n < 3 && DisplayNames[n] == model;
    TablesAt(n);
  }

  /** A model name whose lowercase form is in neither table passes through both ways, in its own case. */
  lemma UnknownModelPassesThrough(model: string)
    requires Lower(model) !in CopilotModels && Lower(model) !in ClaudeModels
    ensures CopilotModel(model) == Str(model) && ClaudeModel(model) == Str(model)
  {
  }

  /** 'inherit', in any case, drops the model from the Copilot file. */
  lemma InheritDropsModel(model: string)
    requires Lower(model) == "inherit"
    ensures !Truthy(CopilotModel(model))
  {
  }

  /** A Claude model that survives a round trip through Copilot unchanged. */
  predicate PortableModel(model: string)
  {
    || model in ShortNames
    || (model != "" && NoUpper(model) && model !in CopilotModels && model !in ClaudeModels)
  }

  lemma PortableModelRoundTrip(model: string)
    requires PortableModel(model)
    ensures Truthy(CopilotModel(model))
    ensures ClaudeModel(CopilotModel(model).s) == Str(model)
  {
    if model in ShortNames {
      ShortModelRoundTrip(model);
    }
  }

  // ---------------------------------------------------------------------------
  // Round trips of the frontmatter
  // ---------------------------------------------------------------------------

  /** The frontmatters `claude_to_copilot` converts without raising. */
  predicate CopilotConvertible(fm: map<string, Value>)
  {
    "model" in fm ==> fm["model"].Str?
  }

  /** The frontmatters `copilot_to_claude` converts without raising. */
  predicate ClaudeConvertible(fm: map<string, Value>)
  {
    && ("tools" in fm && fm["tools"].List? ==> Strs(fm["tools"].items).Some?)
    && ("model" in fm ==> fm["model"].Str?)
  }

  /** A mapping with only shared keys, agreeing with `fm` on each of them, is `fm` restricted to them. */
  lemma RestrictByKeys(fm: map<string, Value>, back: map<string, Value>)
    requires forall k :: k in back ==> k in SharedFields
    requires AgreeOn(back, fm, "name") && AgreeOn(back, fm, "description")
    requires AgreeOn(back, fm, "tools") && AgreeOn(back, fm, "model")
    ensures back == Restrict(fm, SharedFields)
  {
    KeysDistinct();
    var expected := Restrict(fm, SharedFields);
    forall k | k in expected
      ensures k in back && back[k] == expected[k]
    {
      assert k == "name" || k == "description" || k == "tools" || k == "model";
    }
  }

  /** A mapping with `target: vscode` besides shared keys that agree with `fm`. */
  lemma RestrictTargetByKeys(fm: map<string, Value>, back: map<string, Value>)
    requires forall k :: k in back ==> k in SharedFields || k == "target"
    requires "target" in back && back["target"] == Str("vscode")
    requires AgreeOn(back, fm, "name") && AgreeOn(back, fm, "description")
    requires AgreeOn(back, fm, "tools") && AgreeOn(back, fm, "model")
    ensures back == Restrict(fm, SharedFields)["target" := Str("vscode")]
  {
    KeysDistinct();
    var expected := Restrict(fm, SharedFields)["target" := Str("vscode")];
    forall k | k in expected
      ensures k in back && back[k] == expected[k]
    {
      assert k == "name" || k == "description" || k == "tools" || k == "model" || k == "target";
    }
  }

  /** A Copilot file written from a Claude frontmatter whose tools are strings converts back. */
  lemma CopilotOutputConverts(fm: map<string, Value>, addArgumentHint: bool, addHandoffs: bool)
    requires CopilotConvertible(fm) && ClaudeConvertible(fm)
    ensures CopilotFrontmatter(Mapping(fm), addArgumentHint, addHandoffs).Ok?
    ensures ClaudeConvertible(CopilotFrontmatter(Mapping(fm), addArgumentHint, addHandoffs).value)
  {
    KeysDistinct();
    CopilotConvertsTools(fm, addArgumentHint, addHandoffs);
    CopilotMapsModel(fm, addArgumentHint, addHandoffs);
    if "tools" in fm && fm["tools"].Str? {
      StrsOfStrValues(SplitTools(fm["tools"].s));
    }
  }

  /** A Claude file written from a Copilot frontmatter converts back. */
  lemma ClaudeOutputConverts(fm: map<string, Value>)
    requires ClaudeConvertible(fm)
    ensures ClaudeFrontmatter(Mapping(fm)).Ok?
    ensures CopilotConvertible(ClaudeFrontmatter(Mapping(fm)).value)
  {
    KeysDistinct();
    ClaudeMapsModel(fm);
    if "model" in fm {
      ClaudeModelIsString(fm["model"].s);
    }
  }

  /** Both tables hold strings, so the Claude-side model is always a string. */
  lemma ClaudeModelIsString(model: string)
    ensures ClaudeModel(model).Str?
  {
  }

  /** Name and description survive Claude to Copilot to Claude unchanged. */
  lemma ClaudeHeaderComesBack(fm: map<string, Value>, addArgumentHint: bool, addHandoffs: bool, k: string)
    requires k == "name" || k == "description"
    requires CopilotConvertible(fm) && ClaudeConvertible(fm)
    ensures CopilotFrontmatter(Mapping(fm), addArgumentHint, addHandoffs).Ok?
    ensures var out := CopilotFrontmatter(Mapping(fm), addArgumentHint, addHandoffs).value;
      ClaudeFrontmatter(Mapping(out)).Ok? && AgreeOn(ClaudeFrontmatter(Mapping(out)).value, fm, k)
  {
    CopilotOutputConverts(fm, addArgumentHint, addHandoffs);
    CopilotCopiesHeader(fm, addArgumentHint, addHandoffs);
    ClaudeCopiesHeader(CopilotFrontmatter(Mapping(fm), addArgumentHint, addHandoffs).value);
  }

  /** A tools string in the ", "-joined form survives Claude to Copilot to Claude unchanged. */
  lemma ClaudeToolsComeBack(fm: map<string, Value>, addArgumentHint: bool, addHandoffs: bool)
    requires CopilotConvertible(fm) && ClaudeConvertible(fm)
    requires "tools" in fm ==> fm["tools"].Str? && Join(SplitTools(fm["tools"].s), ", ") == fm["tools"].s
    ensures CopilotFrontmatter(Mapping(fm), addArgumentHint, addHandoffs).Ok?
    ensures var out := CopilotFrontmatter(Mapping(fm), addArgumentHint, addHandoffs).value;
      ClaudeFrontmatter(Mapping(out)).Ok? && AgreeOn(ClaudeFrontmatter(Mapping(out)).value, fm, "tools")
  {
    CopilotOutputConverts(fm, addArgumentHint, addHandoffs);
    CopilotConvertsTools(fm, addArgumentHint, addHandoffs);
    ClaudeConvertsTools(CopilotFrontmatter(Mapping(fm), addArgumentHint, addHandoffs).value);
    if "tools" in fm {
      StrsOfStrValues(SplitTools(fm["tools"].s));
    }
  }

  /** A portable model survives Claude to Copilot to Claude unchanged. */
  lemma ClaudeModelComesBack(fm: map<string, Value>, addArgumentHint: bool, addHandoffs: bool)
    requires CopilotConvertible(fm) && ClaudeConvertible(fm)
    requires "model" in fm ==> PortableModel(fm["model"].s)
    ensures CopilotFrontmatter(Mapping(fm), addArgumentHint, addHandoffs).Ok?
    ensures var out := CopilotFrontmatter(Mapping(fm), addArgumentHint, addHandoffs).value;
      ClaudeFrontmatter(Mapping(out)).Ok? && AgreeOn(ClaudeFrontmatter(Mapping(out)).value, fm, "model")
  {
    CopilotOutputConverts(fm, addArgumentHint, addHandoffs);
    CopilotMapsModel(fm, addArgumentHint, addHandoffs);
    ClaudeMapsModel(CopilotFrontmatter(Mapping(fm), addArgumentHint, addHandoffs).value);
    if "model" in fm {
      PortableModelRoundTrip(fm["model"].s);
    }
  }

  /** The Claude frontmatters a round trip through Copilot gives back. */
  predicate PortableClaude(fm: map<string, Value>)
  {
    && ("tools" in fm ==> fm["tools"].Str? && Join(SplitTools(fm["tools"].s), ", ") == fm["tools"].s)
    && ("model" in fm ==> fm["model"].Str? && PortableModel(fm["model"].s))
  }

  /**
   * Claude to Copilot to Claude keeps exactly name, description, tools and
   * model of a portable Claude frontmatter; the Claude-only fields are lost.
   */
  lemma ClaudeRoundTrip(fm: map<string, Value>, addArgumentHint: bool, addHandoffs: bool)
    requires PortableClaude(fm)
    ensures CopilotFrontmatter(Mapping(fm), addArgumentHint, addHandoffs).Ok?
    ensures ClaudeFrontmatter(Mapping(CopilotFrontmatter(Mapping(fm), addArgumentHint, addHandoffs).value))
         == Ok(Restrict(fm, SharedFields))
  {
    ClaudeHeaderComesBack(fm, addArgumentHint, addHandoffs, "name");
    ClaudeHeaderComesBack(fm, addArgumentHint, addHandoffs, "description");
    ClaudeToolsComeBack(fm, addArgumentHint, addHandoffs);
    ClaudeModelComesBack(fm, addArgumentHint, addHandoffs);
    var out := CopilotFrontmatter(Mapping(fm), addArgumentHint, addHandoffs).value;
    ClaudeKeys(out);
    RestrictByKeys(fm, ClaudeFrontmatter(Mapping(out)).value);
  }

  /** Tool names as the Claude side writes them: ", "-separated, no stray blanks. */
  predicate CanonicalTools(tools: seq<string>)
  {
    forall i :: 0 <= i < |tools| ==> ToolName(tools[i])
  }

  /** Name and description survive Copilot to Claude to Copilot unchanged. */
  lemma CopilotHeaderComesBack(fm: map<string, Value>, k: string)
    requires k == "name" || k == "description"
    requires ClaudeConvertible(fm)
    ensures ClaudeFrontmatter(Mapping(fm)).Ok?
    ensures var out := ClaudeFrontmatter(Mapping(fm)).value;
      CopilotFrontmatter(Mapping(out), false, false).Ok? && AgreeOn(CopilotFrontmatter(Mapping(out), false, false).value, fm, k)
  {
    ClaudeOutputConverts(fm);
    ClaudeCopiesHeader(fm);
    CopilotCopiesHeader(ClaudeFrontmatter(Mapping(fm)).value, false, false);
  }

  /** A tools list of canonical names survives Copilot to Claude to Copilot unchanged. */
  lemma CopilotToolsComeBack(fm: map<string, Value>)
    requires ClaudeConvertible(fm)
    requires "tools" in fm ==> fm["tools"].List? && CanonicalTools(Strs(fm["tools"].items).value)
    ensures ClaudeFrontmatter(Mapping(fm)).Ok?
    ensures var out := ClaudeFrontmatter(Mapping(fm)).value;
      CopilotFrontmatter(Mapping(out), false, false).Ok? && AgreeOn(CopilotFrontmatter(Mapping(out), false, false).value, fm, "tools")
  {
    ClaudeOutputConverts(fm);
    ClaudeConvertsTools(fm);
    CopilotConvertsTools(ClaudeFrontmatter(Mapping(fm)).value, false, false);
    if "tools" in fm {
      var tools := Strs(fm["tools"].items).value;
      assert StrValues(tools) == fm["tools"].items;
      JoinThenSplitTools(tools);
    }
  }

  /** A display model name survives Copilot to Claude to Copilot unchanged. */
  lemma CopilotModelComesBack(fm: map<string, Value>)
    requires ClaudeConvertible(fm)
    requires "model" in fm ==> fm["model"].s in DisplayNames
    ensures ClaudeFrontmatter(Mapping(fm)).Ok?
    ensures var out := ClaudeFrontmatter(Mapping(fm)).value;
      CopilotFrontmatter(Mapping(out), false, false).Ok? && AgreeOn(CopilotFrontmatter(Mapping(out), false, false).value, fm, "model")
  {
    ClaudeOutputConverts(fm);
    ClaudeMapsModel(fm);
    CopilotMapsModel(ClaudeFrontmatter(Mapping(fm)).value, false, false);
    if "model" in fm {
      DisplayModelRoundTrip(fm["model"].s);
    }
  }

  /** The Copilot frontmatters a round trip through Claude gives back. */
  predicate PortableCopilot(fm: map<string, Value>)
  {
    && ("tools" in fm ==> fm["tools"].List? && Strs(fm["tools"].items).Some?
                          && CanonicalTools(Strs(fm["tools"].items).value))
    && ("model" in fm ==> fm["model"].Str? && fm["model"].s in DisplayNames)
  }

  /**
   * Copilot to Claude to Copilot (without the two options) keeps name,
   * description, tools and model of a portable Copilot frontmatter and sets
   * `target: vscode`; `argument-hint`, `handoffs` and `mcp-servers` are lost.
   */
  lemma CopilotRoundTrip(fm: map<string, Value>)
    requires PortableCopilot(fm)
    ensures ClaudeFrontmatter(Mapping(fm)).Ok?
    ensures CopilotFrontmatter(Mapping(ClaudeFrontmatter(Mapping(fm)).value), false, false)
         == Ok(Restrict(fm, SharedFields)["target" := Str("vscode")])
  {
    CopilotHeaderComesBack(fm, "name");
    CopilotHeaderComesBack(fm, "description");
    CopilotToolsComeBack(fm);
    CopilotModelComesBack(fm);
    var out := ClaudeFrontmatter(Mapping(fm)).value;
    CopilotAddsTarget(out, false, false);
    CopilotKeys(out, false, false);
    RestrictTargetByKeys(fm, CopilotFrontmatter(Mapping(out), false, false).value);
  }

  // ---------------------------------------------------------------------------
  // The emitted file
  // ---------------------------------------------------------------------------

  /**
   * What the YAML library must do for a written file to read back: the dump of
   * the mapping ends with a newline, holds no closing fence, and loads back.
   */
  ghost predicate DumpsFrontmatter(yaml: Codec, fm: map<string, Value>)
  {
    var d := yaml.dump(Mapping(fm));
    && |d| > 0 && d[|d| - 1] == '\n'
    && NoMarkerBefore(d[..|d| - 1] + Marker, |d| - 1)
    && yaml.load(d[..|d| - 1]) == Some(Mapping(fm))
  }

  /** An emitted file parses back to its frontmatter and its (stripped) body. */
  lemma EmittedFileParses(yaml: Codec, fm: map<string, Value>, body: string)
    requires DumpsFrontmatter(yaml, fm)
    requires IsStripped(body)
    ensures ParseAgentFile(yaml, Emit(yaml, fm, body)) == Ok((Mapping(fm), body))
  {
    var d := yaml.dump(Mapping(fm));
    var front := d[..|d| - 1];
    assert d == front + "\n";
    assert Emit(yaml, fm, body) == "---\n" + front + Marker + (body + "\n");
    MatchFrontmatterOfLayout(front, body + "\n");
    StripNewline(body);
  }

  /**
   * A Claude file converted to Copilot and back is the Claude file of its
   * portable fields, with the same body.
   */
  lemma ClaudeFileRoundTrip(yaml: Codec, content: string, addArgumentHint: bool, addHandoffs: bool)
    requires forall fm :: DumpsFrontmatter(yaml, fm)
    requires ParseAgentFile(yaml, content).Ok?
    requires ParseAgentFile(yaml, content).value.0.Mapping?
    requires PortableClaude(ParseAgentFile(yaml, content).value.0.fields)
    ensures ToCopilotText(yaml, content, addArgumentHint, addHandoffs).Ok?
    ensures ToClaudeText(yaml, ToCopilotText(yaml, content, addArgumentHint, addHandoffs).value)
         == Ok(Emit(yaml, Restrict(ParseAgentFile(yaml, content).value.0.fields, SharedFields),
                    ParseAgentFile(yaml, content).value.1))
  {
    var fm := ParseAgentFile(yaml, content).value.0.fields;
    var body := ParseAgentFile(yaml, content).value.1;
    ClaudeRoundTrip(fm, addArgumentHint, addHandoffs);
    var out := CopilotFrontmatter(Mapping(fm), addArgumentHint, addHandoffs).value;
    assert DumpsFrontmatter(yaml, out);
    EmittedFileParses(yaml, out, body);
  }

  /** The converter object: the last conversion's warnings. */
  class AgentConverter {
    const verbose: bool
    var warnings: seq<Warning>

    constructor(verbose: bool)
      ensures this.verbose == verbose && warnings == []
    {
      this.verbose := verbose;
      warnings := [];
    }

    /**
     * `claude_to_copilot`: the warnings are reset, the Copilot mapping is built
     * block by block, then the dropped Claude-only fields are listed.
     */
    method ClaudeToCopilot(yaml: Codec, content: string, addArgumentHint: bool, addHandoffs: bool) returns (r: Result<string>)
      modifies this`warnings
      ensures r == ToCopilotText(yaml, content, addArgumentHint, addHandoffs)
      ensures warnings == if r.Ok? then ClaudeDropped(ParseAgentFile(yaml, content).value.0.fields) else []
    {
      warnings := [];
      var parsed := ParseAgentFile(yaml, content);
      if parsed.Err? {
        return Err(parsed.failure);
      }
      var (v, body) := parsed.value;
      if !v.Mapping? {
        return Err(NotAMapping);
      }
      var claudeAgent := v.fields;
      var copilotAgent := CopyField(map[], claudeAgent, "name");
      copilotAgent := CopyField(copilotAgent, claudeAgent, "description");
      copilotAgent := HintStep(copilotAgent, claudeAgent, addArgumentHint);
      copilotAgent := CopilotToolsStep(copilotAgent, claudeAgent);
      if "model" in claudeAgent && !claudeAgent["model"].Str? {
        return Err(NotAString("model"));
      }
      copilotAgent := CopilotModelStep(copilotAgent, claudeAgent);
      copilotAgent := CopilotTail(copilotAgent, addHandoffs);
      if "permissionMode" in claudeAgent {
        warnings := warnings + [DroppedUnsupported("permissionMode", claudeAgent["permissionMode"])];
      }
      if "skills" in claudeAgent {
        warnings := warnings + [DroppedUnsupported("skills", claudeAgent["skills"])];
      }
      r := Ok(Emit(yaml, copilotAgent, body));
    }

    /**
     * `copilot_to_claude`: the warnings are reset, the Claude mapping is built
     * block by block, then one warning lists the dropped Copilot-only fields.
     */
    method CopilotToClaude(yaml: Codec, content: string) returns (r: Result<string>)
      modifies this`warnings
      ensures r == ToClaudeText(yaml, content)
      ensures warnings == if r.Ok? then CopilotDropped(ParseAgentFile(yaml, content).value.0.fields) else []
    {
      warnings := [];
      var parsed := ParseAgentFile(yaml, content);
      if parsed.Err? {
        return Err(parsed.failure);
      }
      var (v, body) := parsed.value;
      if !v.Mapping? {
        return Err(NotAMapping);
      }
      var copilotAgent := v.fields;
      var claudeAgent := CopyField(map[], copilotAgent, "name");
      claudeAgent := CopyField(claudeAgent, copilotAgent, "description");
      if "tools" in copilotAgent && copilotAgent["tools"].List? && Strs(copilotAgent["tools"].items).None? {
        return Err(NonStringTool);
      }
      claudeAgent := ClaudeToolsStep(claudeAgent, copilotAgent);
      if "model" in copilotAgent && !copilotAgent["model"].Str? {
        return Err(NotAString("model"));
      }
      claudeAgent := ClaudeModelStep(claudeAgent, copilotAgent);
      var droppedFields: seq<string> := [];
      if "argument-hint" in copilotAgent {
        droppedFields := droppedFields + ["argument-hint"];
      }
      if "handoffs" in copilotAgent {
        droppedFields := droppedFields + ["handoffs"];
      }
      if "target" in copilotAgent {
        droppedFields := droppedFields + ["target"];
      }
      if "mcp-servers" in copilotAgent {
        droppedFields := droppedFields + ["mcp-servers"];
      }
      if droppedFields != [] {
        warnings := warnings + [DroppedCopilotFields(droppedFields)];
      }
      r := Ok(Emit(yaml, claudeAgent, body));
    }
  }
}
