# Agent sync: a verified model

This project models the bidirectional agent synchronizer between Claude Code
agent files (`<name>.md`: YAML frontmatter with a comma-separated `tools`
string and short model names) and GitHub Copilot agent files
(`<name>.agent.md`: a `tools` list, display model names and `target: vscode`).
It also models the format adapters that recognise these files and convert them
to and from canonical agent and permission records.

The model has these parts:

- **`values.dfy` (`Values`)**: loaded YAML/JSON values and Python truthiness. The
  YAML and JSON libraries are injected `Codec`s (a `load` and a `dump`
  function).
- **`text.dfy` (`Text`)**: the Python string operations the code relies on.
  - `strip` with Python's whitespace set, `lower` on ASCII, `split`/`join`,
    `endswith`, `rfind` and `replace`.
  - pathlib's `name`, `stem` and `suffix`.
  - The frontmatter regex `^---\n(.*?)\n---\n(.*)$`.
  - Code-point ordering of strings, which fixes the `sorted()` order of the loop.
- **`sync_types.dfy`, `sync_state.dfy` (`SyncTypes`, `SyncStore`)**: the
  persisted sync records and the `SyncState` class. The class holds its
  in-memory map and the last saved copy, and models the lazy insert of a pair
  entry on reads.
- **`decision.dfy` (`SyncDecision`)**: the decision table of `should_sync` and
  the two conflict policies of `resolve_conflict`.
- **`converter.dfy` (`Converter`)**: `AgentConverter` at the frontmatter-map
  level. It covers tools string ↔ list, the model tables, `target`,
  `argument-hint`, `handoffs` and the dropped-field warnings, and the round
  trips between the two formats.
- **`syncer.dfy` (`Syncer`)**: the `AgentSyncer` class.
  - `get_agent_pairs` is two loops over the directory listings.
  - `sync_agent` applies an action.
  - `sync` is the driver loop, which visits the pairs in ascending name order.
  - Each method is proved equal to a specification function on a `World`. A
    world holds the counters, the two directories and the record store.
- **`canonical.dfy`, `claude_format.dfy` (`Canonical`, `ClaudeFormat`)**: the
  single-file Claude adapter. It covers recognition, tools parsing, model
  normalisation, and settings/agent conversion both ways with their round
  trips.
- **`dispatch.dfy`, `claude_adapter.dfy`, `copilot_adapter.dfy` (`Dispatch`,
  `ClaudeCoordinator`, `CopilotCoordinator`)**: the coordinator adapters.
  - Handler dispatch by config type.
  - File extensions and recognition.
  - Copilot model-name normalisation.
  - The guarantee that no file is claimed by both formats.

Directories are maps from file name to (content, mtime). A write stamps the
file with the file system's clock and advances it, which plays the role of the
`stat()` after the write.

## Model

| member | source | states |
|---|---|---|
| SyncStore.LoadRecovers | sync_custom_agents.py:38-46 | a missing or corrupt state file loads as an empty store; a stored one loads as itself |
| SyncStore.SyncState.constructor | sync_custom_agents.py:34-36 | the store starts as what was loaded from its file |
| SyncStore.SyncState.SaveState | sync_custom_agents.py:48-51 | the saved copy is the current map, and loading it gives the map back |
| SyncStore.SyncState.GetPairState | sync_custom_agents.py:57-65 | returns the pair's entry, or an empty one that it inserts; nothing else changes |
| SyncStore.SyncState.UpdateFileState | sync_custom_agents.py:67-78 | afterwards the agent's record holds exactly the given mtimes, action and time |
| SyncStore.SyncState.GetFileState | sync_custom_agents.py:80-84 | returns the agent's record; the only change is the lazy insert of the pair entry |
| SyncStore.SyncState.RemoveFileState | sync_custom_agents.py:86-90 | afterwards the agent has no record |
| SyncStore.TouchKeepsRecords | sync_custom_agents.py:57-65 | the lazy insert changes no record and no existing pair entry |
| SyncStore.PutThenLookup | sync_custom_agents.py:67-84 | a record read after it is written is the written record |
| SyncStore.PutFrame | sync_custom_agents.py:67-78 | writing one agent's record leaves every other agent and every other pair unchanged |
| SyncStore.DropThenLookup | sync_custom_agents.py:86-90 | after removal the agent has no record |
| SyncStore.DropFrame | sync_custom_agents.py:86-90 | removal leaves every other agent and every other pair unchanged |
| SyncStore.DropAbsent | sync_custom_agents.py:86-90 | removing an absent record changes nothing beyond the lazy insert |
| SyncStore.PairKeyInjective | sync_custom_agents.py:53-55 | the key of the two joined paths determines both directories when the Claude path holds no bar character |
| SyncStore.KeyLayout | sync_custom_agents.py:53-55 | the first bar character of the key sits right after the Claude path |
| SyncStore.PairKeyAmbiguous | sync_custom_agents.py:53-55 | two different directory pairs share a key when a path contains a bar character |
| SyncDecision.Decide | sync_custom_agents.py:317-395 | never a deletion; a conflict needs both files and a record; a propagation needs its source file and a direction that allows it |
| SyncDecision.OnlyClaudePresent | sync_custom_agents.py:331-335 | a Claude-only agent propagates to Copilot when the direction allows, else is skipped, whatever the record |
| SyncDecision.OnlyCopilotPresent | sync_custom_agents.py:337-341 | the Copilot-only case, symmetrically |
| SyncDecision.DeletedClaudeIsRecreated | sync_custom_agents.py:331-354 | a recorded Claude file that was deleted is re-created from Copilot, since the new-file check runs first |
| SyncDecision.FirstSyncNewerWins | sync_custom_agents.py:357-370 | without a record the strictly newer side propagates, gated by direction; equal mtimes skip |
| SyncDecision.BothChangedIsConflict | sync_custom_agents.py:372-385 | when both sides changed since the record, the result is a conflict for every direction |
| SyncDecision.OneSideChanged | sync_custom_agents.py:372-395 | exactly one changed side propagates, gated by direction; no change skips |
| SyncDecision.RecordedMtimesAreSkipped | sync_custom_agents.py:376-395 | files whose mtimes equal the recorded ones are skipped as unchanged |
| SyncDecision.ResolveConflict | sync_custom_agents.py:397-433 | a resolution is always a propagation; none only when the user skips without force |
| SyncDecision.ForcePicksNewer | sync_custom_agents.py:406-413 | under force, Claude wins iff its mtime is strictly greater; ties go to Copilot |
| Converter.StrsOfStrValues | sync_custom_agents.py:156-159 | reading back a list of strings gives the strings |
| Converter.ParseAgentFile | sync_custom_agents.py:119-130 | content without the fences fails exactly as "no frontmatter"; the body is stripped |
| Converter.CopilotCopiesHeader | sync_custom_agents.py:139-151 | name and description are copied when present; `argument-hint` repeats the description exactly under the option |
| Converter.CopilotConvertsTools | sync_custom_agents.py:153-160 | a tools string is split and cleaned, a list kept, anything else left out |
| Converter.CopilotMapsModel | sync_custom_agents.py:162-170 | the model goes through the table and is left out when the result is falsy |
| Converter.CopilotAddsTarget | sync_custom_agents.py:172-186 | `target: vscode` is always written; the handoffs placeholder exactly under the option |
| Converter.CopilotKeys | sync_custom_agents.py:132-186 | no other key is written |
| Converter.CopilotFrontmatterRejects | sync_custom_agents.py:163-165 | conversion fails iff the frontmatter is not a mapping or its model is not a string |
| Converter.ClaudeCopiesHeader | sync_custom_agents.py:204-212 | name and description are copied when present |
| Converter.ClaudeConvertsTools | sync_custom_agents.py:214-221 | a tools list is joined with ", ", a string kept, anything else left out |
| Converter.ClaudeMapsModel | sync_custom_agents.py:223-228 | the model is always written, mapped through the table |
| Converter.ClaudeKeys | sync_custom_agents.py:198-228 | only name, description, tools and model are written |
| Converter.ClaudeFrontmatterRejects | sync_custom_agents.py:215-225 | conversion fails iff the frontmatter is not a mapping, a tool is not a string, or the model is not a string |
| Converter.CopilotDroppedReportsPresent | sync_custom_agents.py:230-242 | the warning lists exactly the Copilot-only fields present, and is absent when none is |
| Converter.TablesAt | sync_custom_agents.py:97-108 | each short name maps to its display name and back |
| Converter.ShortModelRoundTrip | sync_custom_agents.py:97-108 | a short model name survives Claude → Copilot → Claude |
| Converter.DisplayModelRoundTrip | sync_custom_agents.py:97-108 | a display model name survives Copilot → Claude → Copilot |
| Converter.UnknownModelPassesThrough | sync_custom_agents.py:164-165 | a name whose lowercase form is in neither table is passed through both ways in its original case |
| Converter.InheritDropsModel | sync_custom_agents.py:101-102 | `inherit`, in any ASCII case, drops the model from the Copilot file |
| Converter.PortableModelRoundTrip | sync_custom_agents.py:162-170 | a portable model comes back unchanged through both conversions |
| Converter.ClaudeRoundTrip | sync_custom_agents.py:132-228 | Claude → Copilot → Claude gives back the shared fields of a portable frontmatter |
| Converter.CopilotRoundTrip | sync_custom_agents.py:132-228 | Copilot → Claude → Copilot gives back the shared fields plus `target: vscode` |
| Converter.EmittedFileParses | sync_custom_agents.py:119-130 | a written file parses back to its frontmatter and body |
| Converter.ClaudeFileRoundTrip | sync_custom_agents.py:132-246 | converting a portable Claude file to Copilot and back gives the file of its shared fields |
| Converter.AgentConverter.constructor | sync_custom_agents.py:110-112 | a new converter has no warnings |
| Converter.AgentConverter.ClaudeToCopilot | sync_custom_agents.py:132-196 | returns the converted text or the error; the warnings are those for the dropped Claude fields |
| Converter.AgentConverter.CopilotToClaude | sync_custom_agents.py:198-246 | returns the converted text or the error; the warnings are those for the dropped Copilot fields |
| Syncer.CreatedCopilotNameRelists | sync_custom_agents.py:303-304 | `<agent>.agent.md` is listed under `agent` when the name holds no `.agent` |
| Syncer.CreatedClaudeNameRelists | sync_custom_agents.py:294-295 | `<agent>.md` is listed under `agent` when the name is not empty |
| Syncer.AgentInfixRelistsElsewhere | sync_custom_agents.py:303-304 | the Copilot file created for agent `foo.agent` is listed under agent `foo` |
| Syncer.PairsDetermined | sync_custom_agents.py:289-315 | when file names are unique per agent, the listings fix the pairs |
| Syncer.SideFromFile | sync_custom_agents.py:289-315 | two pairings of the same listing agree on every agent |
| Syncer.ReadSide | sync_custom_agents.py:444-445 | a side reads as a file exactly when it names a file that exists |
| Syncer.AgentSyncer.constructor | sync_custom_agents.py:252-275 | all settings are kept, counters start at zero, and a fresh converter and store are made |
| Syncer.AgentSyncer.GetAgentPairs | sync_custom_agents.py:289-315 | every listed agent file gives a pair under its name, with the file's mtime, and every pair comes from a listed file |
| Syncer.AgentSyncer.ShouldSync | sync_custom_agents.py:317-395 | the decision is the table applied to the stored record; the only change is the lazy insert |
| Syncer.AgentSyncer.SyncAgent | sync_custom_agents.py:435-509 | the new counters, files and records are those of applying the action |
| Syncer.AgentSyncer.ConvertToCopilot | sync_custom_agents.py:440-463 | reads, converts and writes the Copilot file, or counts the error |
| Syncer.AgentSyncer.WriteCopilot | sync_custom_agents.py:448-463 | the write, the re-read mtime, the counter and the record, live or dry-run |
| Syncer.AgentSyncer.ConvertToClaude | sync_custom_agents.py:465-484 | reads, converts and writes the Claude file, or counts the error |
| Syncer.AgentSyncer.WriteClaude | sync_custom_agents.py:470-484 | the write, the re-read mtime, the counter and the record, live or dry-run |
| Syncer.AgentSyncer.Delete | sync_custom_agents.py:486-505 | unlinks the file when live and present, counts the deletion, drops the record when live |
| Syncer.AgentSyncer.HandlePair | sync_custom_agents.py:528-577 | one loop turn: skip, count and resolve a conflict, or apply |
| Syncer.AgentSyncer.Sync | sync_custom_agents.py:511-581 | visits every pair in ascending name order; saves the store iff live and there were pairs |
| Syncer.AgentStepSettles | sync_custom_agents.py:435-509 | applying an action increments exactly one settling counter and never the conflicts: its own direction or errors for a propagation, deletions for a deletion, every other counter unchanged |
| Syncer.DryRunOnlyCounts | sync_custom_agents.py:453-505 | under dry-run no file and no record changes, and the counters move exactly as in a live run |
| Syncer.LiveDeletionRemoves | sync_custom_agents.py:484-500 | a live deletion unlinks that side's file, leaves the other directory alone and drops the agent's record |
| Syncer.FailedConversionIsIsolated | sync_custom_agents.py:507-509 | a failed Claude to Copilot read or conversion counts an error and changes no file and no record |
| Syncer.FailedCopilotConversionIsIsolated | sync_custom_agents.py:507-509 | a failed Copilot to Claude read or conversion counts an error and changes no file and no record |
| Syncer.LivePropagationRecords | sync_custom_agents.py:453-463 | live Claude to Copilot: the Copilot file holds the converted text, the Claude directory is unchanged, and the record holds the Claude mtime, the written file's new mtime and the action |
| Syncer.LiveCopilotPropagationRecords | sync_custom_agents.py:464-505 | live Copilot to Claude: the Claude file holds the converted text, the Copilot directory is unchanged, and the record holds the written file's new mtime, the Copilot mtime and the action |
| Syncer.SyncedAgentIsSkipped | sync_custom_agents.py:376-395 | after a live Claude to Copilot propagation, Decide on the recorded mtimes and the written file skips with "no changes" |
| Syncer.RelistedAgentIsSkipped | sync_custom_agents.py:289-395 | after a live Claude to Copilot propagation, every listing of the new directories pairs the agent with its Claude file and the written Copilot file, and the next decision is "no changes" (for a created Copilot file, when the agent name holds no `.agent`) |
| Syncer.SyncedCopilotAgentIsSkipped | sync_custom_agents.py:376-395 | after a live Copilot to Claude propagation, Decide on the recorded mtimes and the written file skips with "no changes" |
| Syncer.RelistedCopilotAgentIsSkipped | sync_custom_agents.py:289-395 | after a live Copilot to Claude propagation, every listing of the new directories pairs the agent with the written Claude file and its Copilot file, and the next decision is "no changes" (for a created Claude file, when the agent name is not empty) |
| Syncer.AgentStepFrame | sync_custom_agents.py:498-505 | applying an action touches no other agent's record and no other pair |
| Syncer.RunHead | sync_custom_agents.py:528-577 | the loop over a name and the rest is that name's turn, then the rest |
| Syncer.PairStepCounts | sync_custom_agents.py:528-577 | a turn settles one pair, counts a conflict iff the decision was one, and never deletes |
| Syncer.RunCounts | sync_custom_agents.py:528-577 | the settling counters grow by the number of pairs; deletions stay unchanged |
| Syncer.DryRunChangesNothing | sync_custom_agents.py:528-581 | a dry run changes no file and no record |
| Syncer.RunFrame | sync_custom_agents.py:528-577 | records of agents the loop does not visit, and of other pairs, are unchanged |
| Syncer.SortedSeqSorted | sync_custom_agents.py:528 | the visiting order lists every agent once, in strictly ascending order |
| Syncer.SortedSeqHead | sync_custom_agents.py:528 | the visiting order starts with the least name |
| Syncer.SortedPairsLocated | sync_custom_agents.py:289-315 | every listed pair has a file on at least one side |
| ClaudeFormat.SuffixIsMd | adapters/claude.py:70 | the suffix is `.md` iff the name ends in `.md` after a non-empty stem |
| ClaudeFormat.CanHandleIff | adapters/claude.py:60-71 | a settings file, or a `.md` file whose name does not end in `.agent.md` |
| ClaudeFormat.ParseTools | adapters/claude.py:190-204 | a string gives clean tool names, a list is kept, anything else is empty |
| ClaudeFormat.ParseToolsOfJoined | adapters/claude.py:190-204 | clean names joined with ", " parse back to themselves |
| ClaudeFormat.NormalizeModel | adapters/claude.py:206-215 | none iff the model is falsy; a string becomes lowercase |
| ClaudeFormat.NormalizeModelIdempotent | adapters/claude.py:206-215 | normalising twice is normalising once |
| ClaudeFormat.PermissionToCanonical | adapters/claude.py:95-111 | invalid JSON is the JSON error; a result is marked as from Claude |
| ClaudeFormat.MissingPermissionsAreEmpty | adapters/claude.py:102-111 | a missing or empty `permissions` object gives three empty lists |
| ClaudeFormat.AgentToCanonical | adapters/claude.py:113-136 | no fences is the frontmatter error; a result is from Claude with stripped instructions |
| ClaudeFormat.AgentFrontmatterFields | adapters/claude.py:164-183 | name and description always; tools iff non-empty; model iff truthy; permissionMode and skills iff their metadata is truthy |
| ClaudeFormat.NonStringToolsRejected | adapters/claude.py:169-170 | a tool that is not a string makes the conversion fail |
| ClaudeFormat.PermissionRoundTrip | adapters/claude.py:95-162 | a permission set written and read back keeps allow, deny and ask |
| ClaudeFormat.ToolsComeBack | adapters/claude.py:168-170 | clean tools come back from the written `tools` field |
| ClaudeFormat.ModelComesBack | adapters/claude.py:172-174 | a lowercase model, or none, comes back |
| ClaudeFormat.MetadataComesBack | adapters/claude.py:131-136 | permission mode and skills metadata come back |
| ClaudeFormat.AgentRoundTrip | adapters/claude.py:140-188 | reading a written agent gives back name, description, instructions, tools, model and both metadata values |
| ClaudeFormat.ClaudeAdapter.constructor | adapters/claude.py:44-46 | a new adapter has no warnings |
| ClaudeFormat.ClaudeAdapter.ToCanonicalObject | adapters/claude.py:86-138 | the warnings are reset, and the result is the settings or agent conversion |
| ClaudeFormat.ClaudeAdapter.FromCanonicalObject | adapters/claude.py:140-188 | the warnings are reset, and the result is the settings or agent file |
| Dispatch.HandlerFor | adapters/claude/adapter.py:91-95 | the registered handler, or the unsupported-type error exactly when none is registered |
| Dispatch.UnsupportedTypeFails | adapters/claude/adapter.py:74-95 | a conversion for a type without a handler fails with that error |
| Dispatch.SupportedTypeDelegates | adapters/claude/adapter.py:74-86 | a conversion for a registered type is that handler's conversion |
| Dispatch.SupportedTypes | adapters/claude/adapter.py:45-47 | the supported types are exactly the handler keys |
| Dispatch.SlashCommandUnsupported | adapters/claude/adapter.py:23-29 | slash commands are neither listed nor dispatched |
| ClaudeCoordinator.FileExtension | adapters/claude/adapter.py:39-43 | `.json` exactly for permissions, `.md` for every other type |
| ClaudeCoordinator.AgentFilesRecognised | adapters/claude/adapter.py:39-59 | a file named with the agent extension is recognised again |
| ClaudeCoordinator.SettingsFilesRecognised | adapters/claude/adapter.py:39-59 | `settings` plus the permission extension is recognised in any directory |
| ClaudeCoordinator.ClaudeAdapter.constructor | adapters/claude/adapter.py:23-29 | handlers for agents and permissions, and no warnings |
| ClaudeCoordinator.ClaudeAdapter.SupportedConfigTypes | adapters/claude/adapter.py:45-47 | exactly the handler keys: agents and permissions |
| ClaudeCoordinator.ClaudeAdapter.CanHandle | adapters/claude/adapter.py:49-59 | a settings file, or a `.md` file whose name does not end in `.agent.md` |
| ClaudeCoordinator.ClaudeAdapter.ToCanonicalObject | adapters/claude/adapter.py:74-78 | the warnings are reset, then the handler's conversion or the unsupported-type error |
| ClaudeCoordinator.ClaudeAdapter.FromCanonicalObject | adapters/claude/adapter.py:80-86 | the warnings are reset, then the handler's conversion or the unsupported-type error |
| CopilotCoordinator.CanHandle | adapters/copilot/adapter.py:49-51 | exactly the names ending in `.agent.md`, none of which the Claude adapter claims |
| CopilotCoordinator.FileExtension | adapters/copilot/adapter.py:39-43 | `.perm.json` exactly for permissions, `.agent.md` for every other type |
| CopilotCoordinator.NoSharedFiles | adapters/copilot/adapter.py:49-51 | no path is recognised by both the Copilot and the Claude adapter |
| CopilotCoordinator.AgentFilesRecognised | adapters/copilot/adapter.py:39-51 | a file named with the agent extension is recognised by Copilot and not by Claude |
| CopilotCoordinator.NormalizeModel | adapters/copilot/adapter.py:88-90 | none maps to none; a changed name is a canonical short name |
| CopilotCoordinator.DenormalizeModel | adapters/copilot/adapter.py:92-95 | a changed name is a display name that normalises back |
| CopilotCoordinator.NormalizeIgnoresCase | adapters/copilot/adapter.py:88-90 | a display name in any ASCII case normalises to its short name |
| CopilotCoordinator.ModelsCorrespond | adapters/copilot/adapter.py:88-95 | each display name normalises to its short name, which denormalises to it |
| CopilotCoordinator.DenormalizeThenNormalize | adapters/copilot/adapter.py:88-95 | denormalising then normalising gives back a short or unknown name |
| CopilotCoordinator.NormalizeThenDenormalize | adapters/copilot/adapter.py:88-95 | normalising then denormalising gives back each display name |
| CopilotCoordinator.UnknownModelsPassThrough | adapters/copilot/adapter.py:88-95 | names in neither table pass through both ways |
| CopilotCoordinator.CopilotAdapter.constructor | adapters/copilot/adapter.py:23-29 | handlers for agents and permissions, and no warnings |
| CopilotCoordinator.CopilotAdapter.SupportedConfigTypes | adapters/copilot/adapter.py:45-47 | exactly the handler keys: agents and permissions |
| CopilotCoordinator.CopilotAdapter.ToCanonicalObject | adapters/copilot/adapter.py:66-70 | the warnings are reset, then the handler's conversion or the unsupported-type error |
| CopilotCoordinator.CopilotAdapter.FromCanonicalObject | adapters/copilot/adapter.py:72-77 | the warnings are reset, then the handler's conversion or the unsupported-type error |
| Text.SplitTools | sync_custom_agents.py:156 | the pieces are non-empty, stripped and comma-free |
| Text.JoinThenSplitTools | sync_custom_agents.py:156-217 | clean names joined with ", " split back to themselves |
| Text.ReplaceAllTrailing | sync_custom_agents.py:303-304 | removing a pattern held only at the end of a text gives back the text before it |
| Text.MatchFrontmatter | sync_custom_agents.py:121-123 | a match splits the content at the first `\n---\n` after the opening fence |
| Text.MatchFrontmatterOfLayout | sync_custom_agents.py:121-125 | a written file matches with its own frontmatter and body |
| Text.StrLtTotal | sync_custom_agents.py:528 | any two different names are ordered one way or the other |

## Left out

- File-system I/O. Directories are maps from name to content and mtime; the store's file is the `disk` field of `SyncState`.
- File writes, unlinks and saves never fail in the model. Only reading an absent file and conversion errors are failures.
- The YAML and JSON libraries are injected codecs. Round-trip lemmas assume the codec reads back what it writes, through `DumpsFrontmatter` or an explicit requirement. YAML key order and formatting are not modelled.
- Float mtimes are integers. They are only compared, and a stored 0 is falsy, as in the source.
- `datetime.now()` is a single `now` value for a whole run. The source reads the clock for each record.
- Text.Lower maps ASCII letters only; Python's `str.lower` also maps other Unicode letters (the Kelvin sign to `k`, for one). Its callers Converter.CopilotModel, Converter.ClaudeModel, ClaudeFormat.NormalizeModel and CopilotCoordinator.NormalizeModel therefore do not model non-ASCII case mapping of model names.
- SyncStore.Load: the state file is absent, not JSON, or a well-formed store. A file that is valid JSON without the expected shape (`[]`, a number, a mapping without `sync_pairs`), or one that cannot be read or decoded, makes the source fail later in `get_pair_state` or abort the run; that is not modelled.
- `Path.resolve()` in the pair key: the key is built from the directory strings as given.
- Syncer.AgentSyncer.ShouldSync: requires at least one side to be present. With both files absent the source returns a deletion when the record holds a truthy mtime for the missing side, and otherwise fails comparing absent mtimes; `get_agent_pairs` never produces such a pair, so `sync` never reaches either case.
- Syncer.RelistedAgentIsSkipped, Syncer.RelistedCopilotAgentIsSkipped: a created file lists back under its agent only for names without `.agent` and for non-empty names. For other agents a propagation does not settle. The Copilot file created for `foo.agent` lists as agent `foo`, so the next run propagates `foo.agent` again and creates `foo.md` (Syncer.AgentInfixRelistsElsewhere). Likewise the Claude file `.md` created for the empty agent lists as agent `.md`. These lemmas also assume that no two files of one directory list under the same agent.
- Syncer.AgentSyncer.GetAgentPairs: the listing order of `glob` is modelled as an arbitrary choice. Its contract holds for every order.
- Syncer.AgentSyncer.Sync: the pairs it iterates are returned as a ghost value; its contract fixes them through the listing.
- Syncer.AgentSyncer.constructor: does not state the stored YAML codec and the conflict oracle.
- The interactive prompt of `resolve_conflict` is the injected `ask` oracle, which returns one of three choices. The reprompt loop and `print`s are left out.
- `validate_directories`, all logging and `print` output, the summary, and `main`/argument parsing are left out as I/O. So are the CLI and GUI entry points and the `example.py` template.
- A frontmatter that loads as something other than a mapping is an error. The source would fail on `.get` or do substring tests.
- claude.py does not catch YAML syntax errors, so they surface with a different exception type. Here they are an error value like every other failure.
- The `options` argument of `from_canonical` is ignored by every visible conversion and is not modelled.
- The config-type handler modules are not part of this model: `core/` and the handlers under `adapters/claude/handlers` and `adapters/copilot/handlers`. The coordinators delegate to injected handlers.
  - The `_parse_tools` and `_normalize_model` delegations of adapters/claude/adapter.py (97-104) are therefore left out.
  - CopilotCoordinator.NormalizeModel and DenormalizeModel follow the behaviour stated by the adapter tests: case-insensitive display names, pass-through for unknown names.
- The Copilot permission handler is a placeholder returning constants and is not modelled.
- `format_name` and `file_extension` are constant properties with no logic.
