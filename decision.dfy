/**
 * The decision table of `should_sync` and the conflict policy of
 * `resolve_conflict`, over the presence and mtimes of the two files of one
 * agent, its stored sync record and the direction setting.
 */
module SyncDecision {
  import opened Values
  import opened SyncTypes

  /** What `should_sync` answers: an action and the reason shown to the user. */
  datatype Decision = Decision(action: Action, reason: string)

  const NewClaudeAgent := "New Claude agent"
  const NewCopilotAgent := "New Copilot agent"
  const ClaudeDeleted := "Claude agent deleted"
  const CopilotDeleted := "Copilot agent deleted"
  const FirstSyncClaudeNewer := "First sync - Claude is newer"
  const FirstSyncCopilotNewer := "First sync - Copilot is newer"
  const SameMtime := "Files have same modification time"
  const BothModified := "Both files modified since last sync"
  const ClaudeModified := "Claude agent modified"
  const CopilotModified := "Copilot agent modified"
  const NoChanges := "No changes detected"
  const NotTowardCopilot := "Direction does not include Claude→Copilot"
  const NotTowardClaude := "Direction does not include Copilot→Claude"

  /** `direction in ['claude-to-copilot', 'both']` */
  predicate TowardCopilot(dir: Direction)
  {
    dir == OneWayToCopilot || dir == Both
  }

  /** `direction in ['copilot-to-claude', 'both']` */
  predicate TowardClaude(dir: Direction)
  {
    dir == OneWayToClaude || dir == Both
  }

  /** Truthiness of a stored mtime read with `.get`: absent and 0 both count as false. */
  predicate StoredTruthy(m: Option<int>)
  {
    m.Some? && m.value != 0
  }

  /** `file_state and file_state.get('claude_mtime')` */
  predicate RecordsClaude(rec: Option<FileRecord>)
  {
    rec.Some? && StoredTruthy(rec.value.claudeMtime)
  }

  /** `file_state and file_state.get('copilot_mtime')` */
  predicate RecordsCopilot(rec: Option<FileRecord>)
  {
    rec.Some? && StoredTruthy(rec.value.copilotMtime)
  }

  /** `last is None or current > last` */
  predicate Changed(last: Option<int>, current: int)
  {
    last.None? || current > last.value
  }

  /** An action from Claude towards Copilot, or a skip when the direction excludes it. */
  function GateTowardCopilot(dir: Direction, a: Action, reason: string): Decision
  {
    if TowardCopilot(dir) then Decision(a, reason) else Decision(Skip, NotTowardCopilot)
  }

  /** An action from Copilot towards Claude, or a skip when the direction excludes it. */
  function GateTowardClaude(dir: Direction, a: Action, reason: string): Decision
  {
    if TowardClaude(dir) then Decision(a, reason) else Decision(Skip, NotTowardClaude)
  }

  /**
   * `should_sync`, branch by branch in the order the code tests them. The pair
   * comes from the directory listings, so one side at least is present.
   */
  function Decide(p: Pair, rec: Option<FileRecord>, dir: Direction): (d: Decision)
    requires Located(p)
    ensures d.action != DeleteCopilot && d.action != DeleteClaude
    ensures d.action == Conflict ==> p.claude.Some? && p.copilot.Some? && rec.Some?
    ensures d.action == ClaudeToCopilot ==> p.claude.Some? && TowardCopilot(dir)
    ensures d.action == CopilotToClaude ==> p.copilot.Some? && TowardClaude(dir)
  {
    if p.claude.Some? && p.copilot.None? then
      GateTowardCopilot(dir, ClaudeToCopilot, NewClaudeAgent)
    else if p.copilot.Some? && p.claude.None? then
      GateTowardClaude(dir, CopilotToClaude, NewCopilotAgent)
    else if p.claude.None? && RecordsClaude(rec) then
      GateTowardCopilot(dir, DeleteCopilot, ClaudeDeleted)
    else if p.copilot.None? && RecordsCopilot(rec) then
      GateTowardClaude(dir, DeleteClaude, CopilotDeleted)
    else
      var cm := p.claude.value.mtime;
      var pm := p.copilot.value.mtime;
      if rec.None? then
        if cm > pm then GateTowardCopilot(dir, ClaudeToCopilot, FirstSyncClaudeNewer)
        else if pm > cm then GateTowardClaude(dir, CopilotToClaude, FirstSyncCopilotNewer)
        else Decision(Skip, SameMtime)
      else
        var claudeChanged := Changed(rec.value.claudeMtime, cm);
        var copilotChanged := Changed(rec.value.copilotMtime, pm);
        if claudeChanged && copilotChanged then Decision(Conflict, BothModified)
        else if claudeChanged then GateTowardCopilot(dir, ClaudeToCopilot, ClaudeModified)
        else if copilotChanged then GateTowardClaude(dir, CopilotToClaude, CopilotModified)
        else Decision(Skip, NoChanges)
  }

  /** A Claude agent with no Copilot counterpart is copied, gated by direction. */
  lemma OnlyClaudePresent(c: Side, rec: Option<FileRecord>, dir: Direction)
    ensures Decide(Pair(Some(c), None), rec, dir)
         == if TowardCopilot(dir) then Decision(ClaudeToCopilot, NewClaudeAgent)
            else Decision(Skip, NotTowardCopilot)
  {
  }

  /** A Copilot agent with no Claude counterpart is copied, gated by direction. */
  lemma OnlyCopilotPresent(p: Side, rec: Option<FileRecord>, dir: Direction)
    ensures Decide(Pair(None, Some(p)), rec, dir)
         == if TowardClaude(dir) then Decision(CopilotToClaude, NewCopilotAgent)
            else Decision(Skip, NotTowardClaude)
  {
  }

  /**
   * Even with a record of the missing side, a one-sided pair is copied back:
   * an agent deleted on the Claude side after a sync is recreated from Copilot.
   */
  lemma DeletedClaudeIsRecreated(p: Side, rec: FileRecord)
    requires StoredTruthy(rec.claudeMtime)
    ensures Decide(Pair(None, Some(p)), Some(rec), Both).action == CopilotToClaude
  {
  }

  /** On a first sync the strictly newer side is copied, gated by direction; a tie is skipped. */
  lemma FirstSyncNewerWins(c: Side, p: Side, dir: Direction)
    ensures var d := Decide(Pair(Some(c), Some(p)), None, dir);
      && (c.mtime > p.mtime ==> d.action == (if TowardCopilot(dir) then ClaudeToCopilot else Skip))
      && (p.mtime > c.mtime ==> d.action == (if TowardClaude(dir) then CopilotToClaude else Skip))
      && (c.mtime == p.mtime ==> d == Decision(Skip, SameMtime))
  {
  }

  /** With a record, a change on both sides is a conflict whatever the direction and mtimes. */
  lemma BothChangedIsConflict(c: Side, p: Side, rec: FileRecord, dir: Direction)
    ensures Decide(Pair(Some(c), Some(p)), Some(rec), dir).action == Conflict
        <==> Changed(rec.claudeMtime, c.mtime) && Changed(rec.copilotMtime, p.mtime)
  {
  }

  /** With a record, the one side that changed is copied, gated by direction; no change is a skip. */
  lemma OneSideChanged(c: Side, p: Side, rec: FileRecord, dir: Direction)
    ensures var d := Decide(Pair(Some(c), Some(p)), Some(rec), dir);
      var cc := Changed(rec.claudeMtime, c.mtime);
      var pc := Changed(rec.copilotMtime, p.mtime);
      && (cc && !pc ==> d.action == (if TowardCopilot(dir) then ClaudeToCopilot else Skip))
      && (pc && !cc ==> d.action == (if TowardClaude(dir) then CopilotToClaude else Skip))
      && (!cc && !pc ==> d == Decision(Skip, NoChanges))
  {
  }

  /**
   * A record that holds the current mtimes of both files, as a live
   * propagation leaves it, answers "No changes detected".
   */
  lemma RecordedMtimesAreSkipped(c: Side, p: Side, last: Action, when: string, dir: Direction)
    ensures Decide(Pair(Some(c), Some(p)), Some(FileRecord(Some(c.mtime), Some(p.mtime), last, when)), dir)
         == Decision(Skip, NoChanges)
  {
  }

  /** The three answers of the interactive prompt: '1', '2' and '3'. */
  datatype Choice = UseClaude | UseCopilot | SkipAgent

  /**
   * `resolve_conflict`: under `--force` the newer side wins and a tie goes to
   * Copilot; otherwise the user's choice decides, None meaning skip this agent.
   */
  function ResolveConflict(force: bool, claudeMtime: int, copilotMtime: int, choice: Choice): (r: Option<Action>)
    ensures r.Some? ==> r.value == ClaudeToCopilot || r.value == CopilotToClaude
    ensures r.None? <==> !force && choice == SkipAgent
  {
    if force then
      if claudeMtime > copilotMtime then Some(ClaudeToCopilot) else Some(CopilotToClaude)
    else
      match choice
      case UseClaude => Some(ClaudeToCopilot)
      case UseCopilot => Some(CopilotToClaude)
      case SkipAgent => None
  }

  /** The `--force` policy copies Claude exactly when Claude is strictly newer. */
  lemma ForcePicksNewer(claudeMtime: int, copilotMtime: int, choice: Choice)
    ensures ResolveConflict(true, claudeMtime, copilotMtime, choice) == Some(ClaudeToCopilot) <==> claudeMtime > copilotMtime
    ensures ResolveConflict(true, claudeMtime, copilotMtime, choice) == Some(CopilotToClaude) <==> claudeMtime <= copilotMtime
  {
  }
}
