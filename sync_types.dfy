/**
 * The entities of the agent sync engine: actions, the direction setting, the
 * per-agent sync record and its per-directory-pair grouping, a located agent
 * pair, and the run counters.
 */
module SyncTypes {
  import opened Values

  /** The answers of `should_sync`, and what `sync_agent` applies. */
  datatype Action = ClaudeToCopilot | CopilotToClaude | Conflict | DeleteCopilot | DeleteClaude | Skip

  /** `--direction`: 'claude-to-copilot', 'copilot-to-claude' or 'both'. */
  datatype Direction = OneWayToCopilot | OneWayToClaude | Both

  /** One entry of a pair's `files`: what was seen at the last sync of an agent. */
  datatype FileRecord = FileRecord(
    claudeMtime: Option<int>,
    copilotMtime: Option<int>,
    lastAction: Action,
    lastSyncTime: string)

  /** One entry of `sync_pairs`: the records of one (Claude dir, Copilot dir) job. */
  datatype PairRecord = PairRecord(lastSync: Option<string>, files: map<string, FileRecord>)

  /** A located agent file: its name within its directory and its mtime. */
  datatype Side = Side(name: string, mtime: int)

  /** One agent as found in the two directories; an absent side is None. */
  datatype Pair = Pair(claude: Option<Side>, copilot: Option<Side>)

  /** A pair built from the directory listings has at least one side. */
  predicate Located(p: Pair)
  {
    p.claude.Some? || p.copilot.Some?
  }

  /** The `stats` counters of one run. */
  datatype Stats = Stats(
    claudeToCopilot: nat,
    copilotToClaude: nat,
    deletions: nat,
    conflicts: nat,
    skipped: nat,
    errors: nat)

  const NoStats := Stats(0, 0, 0, 0, 0, 0)

  /** The counters that record how a pair ended: every pair ends in exactly one of them. */
  function Settled(s: Stats): nat
  {
    s.claudeToCopilot + s.copilotToClaude + s.deletions + s.skipped + s.errors
  }
}
