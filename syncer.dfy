/**
 * `AgentSyncer`: pairs the agents of a Claude directory with those of a
 * Copilot directory, decides per agent what to do, applies it, and keeps the
 * sync records and the run counters.
 *
 * The two directories are maps from file name to contents and mtime; the
 * mtime a written file receives comes from a clock that each write advances.
 * One run of the driver is specified by pure step functions (`AgentStep` for
 * `sync_agent`, `PairStep` for one turn of the `sync` loop, `Run` for the whole
 * loop), and the methods of the class are proved to follow them.
 */
module Syncer {
  import opened Values
  import opened Text
  import opened SyncTypes
  import opened SyncStore
  import opened SyncDecision
  import opened Converter

  // ---------------------------------------------------------------------------
  // The file system and the settings of a run
  // ---------------------------------------------------------------------------

  /** A file: its text and its modification time. */
  datatype File = File(content: string, mtime: int)

  /** The two agent directories, and the mtime the next write stamps. */
  datatype FileSystem = FileSystem(claude: map<string, File>, copilot: map<string, File>, clock: int)

  /** The command-line settings and the injected services of one syncer. */
  datatype Settings = Settings(
    claudeDir: string,
    copilotDir: string,
    direction: Direction,
    dryRun: bool,
    force: bool,
    addArgumentHint: bool,
    addHandoffs: bool,
    yaml: Codec,
    ask: string -> Choice)

  /** Everything one run changes: the counters, the files and the sync records. */
  datatype World = World(stats: Stats, fs: FileSystem, store: map<string, PairRecord>)

  function Key(c: Settings): string
  {
    PairKey(c.claudeDir, c.copilotDir)
  }

  // ---------------------------------------------------------------------------
  // get_agent_pairs
  // ---------------------------------------------------------------------------

  /** Matched by `glob("*.md")` in the Claude directory. */
  predicate IsClaudeAgentFile(name: string)
  {
    EndsWith(name, ".md")
  }

  /** Matched by `glob("*.agent.md")` in the Copilot directory. */
  predicate IsCopilotAgentFile(name: string)
  {
    EndsWith(name, ".agent.md")
  }

  /** The agent name of a Copilot file: its stem with every ".agent" removed. */
  function CopilotBase(name: string): string
  {
    ReplaceAll(Stem(name), ".agent", "")
  }

  /** The Claude side of the pair named `b`: a listed file of that stem, or none exists. */
  predicate ClaudeSideFor(files: map<string, File>, b: string, s: Option<Side>)
  {
    match s
    case Some(x) => x.name in files && IsClaudeAgentFile(x.name) && Stem(x.name) == b && x.mtime == files[x.name].mtime
    case None => forall n :: n in files && IsClaudeAgentFile(n) ==> Stem(n) != b
  }

  /** The Copilot side of the pair named `b`: a listed file of that base, or none exists. */
  predicate CopilotSideFor(files: map<string, File>, b: string, s: Option<Side>)
  {
    match s
    case Some(x) => x.name in files && IsCopilotAgentFile(x.name) && CopilotBase(x.name) == b && x.mtime == files[x.name].mtime
    case None => forall n :: n in files && IsCopilotAgentFile(n) ==> CopilotBase(n) != b
  }

  /**
   * What `get_agent_pairs` promises: one pair per agent name found in either
   * directory, each side a listed file of that name or absent when there is none.
   */
  predicate PairsOf(fs: FileSystem, pairs: map<string, Pair>)
  {
    && (forall b :: b in pairs ==>
          Located(pairs[b]) && ClaudeSideFor(fs.claude, b, pairs[b].claude) && CopilotSideFor(fs.copilot, b, pairs[b].copilot))
    && (forall n :: n in fs.claude && IsClaudeAgentFile(n) ==> Stem(n) in pairs)
    && (forall n :: n in fs.copilot && IsCopilotAgentFile(n) ==> CopilotBase(n) in pairs)
  }

  /** No two listed Claude files have the same stem. */
  predicate UniqueStems(files: map<string, File>)
  {
    forall m, n :: m in files && n in files && IsClaudeAgentFile(m) && IsClaudeAgentFile(n) && Stem(m) == Stem(n) ==> m == n
  }

  /** No two listed Copilot files have the same agent name. */
  predicate UniqueBases(files: map<string, File>)
  {
    forall m, n :: m in files && n in files && IsCopilotAgentFile(m) && IsCopilotAgentFile(n) && CopilotBase(m) == CopilotBase(n) ==> m == n
  }

  /** No two listed files of one directory give the same agent name. */
  predicate UniqueNames(fs: FileSystem)
  {
    UniqueStems(fs.claude) && UniqueBases(fs.copilot)
  }

  /** With unique stems, an agent's listed Claude side is the one it had. */
  lemma ClaudeSideKept(files: map<string, File>, agent: string, s: Option<Side>, q: Option<Side>)
    requires UniqueStems(files) && s.Some?
    requires ClaudeSideFor(files, agent, s) && ClaudeSideFor(files, agent, q)
    ensures q == s
  {
    if q.Some? {
      assert q.value.name == s.value.name;
    }
  }

  /** With unique agent names, an agent's listed Copilot side is the one it had. */
  lemma CopilotSideKept(files: map<string, File>, agent: string, s: Option<Side>, q: Option<Side>)
    requires UniqueBases(files) && s.Some?
    requires CopilotSideFor(files, agent, s) && CopilotSideFor(files, agent, q)
    ensures q == s
  {
    if q.Some? {
      assert q.value.name == s.value.name;
    }
  }

  /**
   * Writing the agent's Claude file (its listed one, or a new one when it had
   * none) makes that file the agent's only listed Claude side.
   */
  lemma ClaudeSideAfterWrite(files: map<string, File>, agent: string, before: Option<Side>, target: string, f: File, q: Option<Side>)
    requires UniqueStems(files) && ClaudeSideFor(files, agent, before)
    requires before.Some? ==> target == before.value.name
    requires IsClaudeAgentFile(target) && Stem(target) == agent
    requires ClaudeSideFor(files[target := f], agent, q)
    ensures q == Some(Side(target, f.mtime))
  {
  }

  /** The same for the agent's Copilot file. */
  lemma CopilotSideAfterWrite(files: map<string, File>, agent: string, before: Option<Side>, target: string, f: File, q: Option<Side>)
    requires UniqueBases(files) && CopilotSideFor(files, agent, before)
    requires before.Some? ==> target == before.value.name
    requires IsCopilotAgentFile(target) && CopilotBase(target) == agent
    requires CopilotSideFor(files[target := f], agent, q)
    ensures q == Some(Side(target, f.mtime))
  {
  }

  /** The Copilot file created for an agent whose name holds no ".agent" lists again under that agent. */
  lemma CreatedCopilotNameRelists(agent: string)
    requires !Contains(agent, ".agent")
    ensures IsCopilotAgentFile(agent + ".agent.md") && CopilotBase(agent + ".agent.md") == agent
  {
    var name := agent + ".agent.md";
    assert name[|agent| + 6] == '.' && name[|agent| + 7] == 'm' && name[|agent| + 8] == 'd';
    assert RFind(name, '.') == |agent| + 6;
    assert name[..|agent| + 6] == agent + ".agent";
    ReplaceAllTrailing(agent, ".agent");
    assert name[|name| - 9..] == ".agent.md";
  }

  /** The Claude file created for a non-empty agent name lists again under that agent. */
  lemma CreatedClaudeNameRelists(agent: string)
    requires agent != ""
    ensures IsClaudeAgentFile(agent + ".md") && Stem(agent + ".md") == agent
  {
    var name := agent + ".md";
    assert name[|agent|] == '.' && name[|agent| + 1] == 'm' && name[|agent| + 2] == 'd';
    assert RFind(name, '.') == |agent|;
    assert name[..|agent|] == agent;
    assert name[|name| - 3..] == ".md";
  }

  /**
   * A name holding ".agent" does not list back: the Copilot file created for
   * agent `foo.agent` is listed under agent `foo`.
   */
  lemma AgentInfixRelistsElsewhere()
    ensures CopilotBase("foo.agent" + ".agent.md") == "foo"
  {
    var name := "foo.agent" + ".agent.md";
    assert name[15] == '.' && name[16] == 'm' && name[17] == 'd';
    assert RFind(name, '.') == 15;
    assert Stem(name) == "foo.agent.agent";
    var pat := ".agent";
    assert ReplaceAll(pat, pat, "") == "";
    assert ReplaceAll(pat + pat, pat, "") == "";
    var s := "foo" + pat + pat;
    assert s[..6] != pat && s[1..][..6] != pat && s[2..][..6] != pat;
    assert s[3..] == pat + pat;
    assert ReplaceAll(s[2..], pat, "") == "o" + ReplaceAll(s[3..], pat, "");
    assert ReplaceAll(s[1..], pat, "") == "oo";
    assert ReplaceAll(s, pat, "") == "foo";
    assert Stem(name) == s;
  }

  /**
   * When no two listed files of a directory give the same agent name, the
   * listing determines the pairs: any two answers agree on every name.
   */
  lemma PairsDetermined(fs: FileSystem, x: map<string, Pair>, y: map<string, Pair>, b: string)
    requires PairsOf(fs, x) && PairsOf(fs, y)
    requires UniqueNames(fs)
    ensures b in x <==> b in y
    ensures b in x ==> x[b] == y[b]
  {
    if b in x {
      SideFromFile(fs, x, y, b);
    }
    if b in y {
      SideFromFile(fs, y, x, b);
    }
  }

  lemma SideFromFile(fs: FileSystem, x: map<string, Pair>, y: map<string, Pair>, b: string)
    requires PairsOf(fs, x) && PairsOf(fs, y) && b in x
    requires UniqueNames(fs)
    ensures b in y && x[b] == y[b]
  {
    if x[b].claude.Some? {
      assert Stem(x[b].claude.value.name) in y;
    } else {
      assert CopilotBase(x[b].copilot.value.name) in y;
    }
    var cx, cy := x[b].claude, y[b].claude;
    if cx.Some? && cy.Some? {
      assert cx.value.name == cy.value.name;
    }
    var px, py := x[b].copilot, y[b].copilot;
    if px.Some? && py.Some? {
      assert px.value.name == py.value.name;
    }
  }

  // ---------------------------------------------------------------------------
  // sync_agent
  // ---------------------------------------------------------------------------

  /** `open(path)` on a located side: its file, or None when there is no such file. */
  function ReadSide(files: map<string, File>, s: Option<Side>): (r: Option<File>)
    ensures r.Some? <==> s.Some? && s.value.name in files
  {
    if s.Some? && s.value.name in files then Some(files[s.value.name]) else None
  }

  /** The mtime passed along with a side: None for an absent side. */
  function MtimeOf(s: Option<Side>): Option<int>
  {
    if s.Some? then Some(s.value.mtime) else None
  }

  /** The Copilot file written for `agent`: the existing one, or `<agent>.agent.md`. */
  function CopilotTarget(agent: string, p: Pair): string
  {
    if p.copilot.Some? then p.copilot.value.name else agent + ".agent.md"
  }

  /** The Claude file written for `agent`: the existing one, or `<agent>.md`. */
  function ClaudeTarget(agent: string, p: Pair): string
  {
    if p.claude.Some? then p.claude.value.name else agent + ".md"
  }

  function CountError(s: Stats): Stats { s.(errors := s.errors + 1) }
  function CountToCopilot(s: Stats): Stats { s.(claudeToCopilot := s.claudeToCopilot + 1) }
  function CountToClaude(s: Stats): Stats { s.(copilotToClaude := s.copilotToClaude + 1) }
  function CountDeletion(s: Stats): Stats { s.(deletions := s.deletions + 1) }
  function CountSkip(s: Stats): Stats { s.(skipped := s.skipped + 1) }
  function CountConflict(s: Stats): Stats { s.(conflicts := s.conflicts + 1) }

  /** Claude → Copilot: convert the Claude file and write it over the Copilot target. */
  function PropagateToCopilot(c: Settings, w: World, agent: string, p: Pair, now: string): World
  {
    match ReadSide(w.fs.claude, p.claude)
    case None => w.(stats := CountError(w.stats))
    case Some(f) =>
      match ToCopilotText(c.yaml, f.content, c.addArgumentHint, c.addHandoffs)
      case Err(_) => w.(stats := CountError(w.stats))
      case Ok(text) => CopilotWritten(c, w, agent, p, text, now)
  }

  /** The converted Copilot text written (when live), counted, and recorded (when live). */
  function CopilotWritten(c: Settings, w: World, agent: string, p: Pair, text: string, now: string): World
  {
    if c.dryRun then w.(stats := CountToCopilot(w.stats))
    else
      var written := w.fs.clock;
      World(CountToCopilot(w.stats),
            w.fs.(copilot := w.fs.copilot[CopilotTarget(agent, p) := File(text, written)], clock := written + 1),
            Put(w.store, Key(c), agent, FileRecord(MtimeOf(p.claude), Some(written), ClaudeToCopilot, now), now))
  }

  /** Copilot → Claude: convert the Copilot file and write it over the Claude target. */
  function PropagateToClaude(c: Settings, w: World, agent: string, p: Pair, now: string): World
  {
    match ReadSide(w.fs.copilot, p.copilot)
    case None => w.(stats := CountError(w.stats))
    case Some(f) =>
      match ToClaudeText(c.yaml, f.content)
      case Err(_) => w.(stats := CountError(w.stats))
      case Ok(text) => ClaudeWritten(c, w, agent, p, text, now)
  }

  /** The converted Claude text written (when live), counted, and recorded (when live). */
  function ClaudeWritten(c: Settings, w: World, agent: string, p: Pair, text: string, now: string): World
  {
    if c.dryRun then w.(stats := CountToClaude(w.stats))
    else
      var written := w.fs.clock;
      World(CountToClaude(w.stats),
            w.fs.(claude := w.fs.claude[ClaudeTarget(agent, p) := File(text, written)], clock := written + 1),
            Put(w.store, Key(c), agent, FileRecord(Some(written), MtimeOf(p.copilot), CopilotToClaude, now), now))
  }

  /** The two deletions: unlink the side's file when live and present, then drop the record. */
  function DeleteSide(c: Settings, w: World, agent: string, p: Pair, copilotSide: bool): World
  {
    var s := if copilotSide then p.copilot else p.claude;
    var files := if copilotSide then w.fs.copilot else w.fs.claude;
    var files' := if !c.dryRun && s.Some? && s.value.name in files then files - {s.value.name} else files;
    var fs := if copilotSide then w.fs.(copilot := files') else w.fs.(claude := files');
    World(CountDeletion(w.stats), fs, if c.dryRun then w.store else Drop(w.store, Key(c), agent))
  }

  /** `sync_agent`: the effect of applying `action` to one agent. */
  function AgentStep(c: Settings, w: World, agent: string, action: Action, p: Pair, now: string): World
  {
    match action
    case ClaudeToCopilot => PropagateToCopilot(c, w, agent, p, now)
    case CopilotToClaude => PropagateToClaude(c, w, agent, p, now)
    case DeleteCopilot => DeleteSide(c, w, agent, p, true)
    case DeleteClaude => DeleteSide(c, w, agent, p, false)
    case _ =>
      if c.dryRun then w
      else w.(store := Put(w.store, Key(c), agent, FileRecord(MtimeOf(p.claude), MtimeOf(p.copilot), action, now), now))
  }

  /**
   * Each application ends in exactly one of the settling counters, and never
   * counts a conflict: a propagation counts its own direction or an error, a
   * deletion counts a deletion, and every other counter keeps its value.
   */
  lemma AgentStepSettles(c: Settings, w: World, agent: string, action: Action, p: Pair, now: string)
    requires action != Skip && action != Conflict
    ensures Settled(AgentStep(c, w, agent, action, p, now).stats) == Settled(w.stats) + 1
    ensures AgentStep(c, w, agent, action, p, now).stats.conflicts == w.stats.conflicts
    ensures action == ClaudeToCopilot ==>
      AgentStep(c, w, agent, action, p, now).stats in {CountToCopilot(w.stats), CountError(w.stats)}
    ensures action == CopilotToClaude ==>
      AgentStep(c, w, agent, action, p, now).stats in {CountToClaude(w.stats), CountError(w.stats)}
    ensures action == DeleteCopilot || action == DeleteClaude ==>
      AgentStep(c, w, agent, action, p, now).stats == CountDeletion(w.stats)
  {
  }

  /**
   * Under dry-run an application changes no file and no record; it counts
   * exactly what the live application would count.
   */
  lemma DryRunOnlyCounts(c: Settings, w: World, agent: string, action: Action, p: Pair, now: string)
    requires c.dryRun
    ensures AgentStep(c, w, agent, action, p, now).fs == w.fs
    ensures AgentStep(c, w, agent, action, p, now).store == w.store
    ensures AgentStep(c, w, agent, action, p, now).stats == AgentStep(c.(dryRun := false), w, agent, action, p, now).stats
  {
  }

  /**
   * A live deletion unlinks the side's file, leaves the other directory alone
   * and drops the agent's record.
   */
  lemma LiveDeletionRemoves(c: Settings, w: World, agent: string, p: Pair, now: string, copilotSide: bool)
    requires !c.dryRun
    ensures var w' := AgentStep(c, w, agent, if copilotSide then DeleteCopilot else DeleteClaude, p, now);
      && Lookup(w'.store, Key(c), agent) == None
      && (copilotSide ==> w'.fs.claude == w.fs.claude)
      && (copilotSide && p.copilot.Some? ==> w'.fs.copilot == w.fs.copilot - {p.copilot.value.name})
      && (!copilotSide ==> w'.fs.copilot == w.fs.copilot)
      && (!copilotSide && p.claude.Some? ==> w'.fs.claude == w.fs.claude - {p.claude.value.name})
  {
    DropThenLookup(w.store, Key(c), agent);
  }

  /** A failed read or conversion is counted as an error and changes nothing else. */
  lemma FailedConversionIsIsolated(c: Settings, w: World, agent: string, p: Pair, now: string)
    requires ReadSide(w.fs.claude, p.claude).None?
          || ToCopilotText(c.yaml, ReadSide(w.fs.claude, p.claude).value.content, c.addArgumentHint, c.addHandoffs).Err?
    ensures AgentStep(c, w, agent, ClaudeToCopilot, p, now) == w.(stats := CountError(w.stats))
  {
  }

  /**
   * A live Claude → Copilot application writes the converted text with a fresh
   * mtime and records the Claude mtime it read and that fresh mtime.
   */
  lemma LivePropagationRecords(c: Settings, w: World, agent: string, p: Pair, now: string)
    requires !c.dryRun
    requires ReadSide(w.fs.claude, p.claude).Some?
    requires ToCopilotText(c.yaml, ReadSide(w.fs.claude, p.claude).value.content, c.addArgumentHint, c.addHandoffs).Ok?
    ensures var w' := AgentStep(c, w, agent, ClaudeToCopilot, p, now);
      && w'.fs.copilot[CopilotTarget(agent, p)]
           == File(ToCopilotText(c.yaml, ReadSide(w.fs.claude, p.claude).value.content, c.addArgumentHint, c.addHandoffs).value, w.fs.clock)
      && w'.fs.claude == w.fs.claude
      && Lookup(w'.store, Key(c), agent) == Some(FileRecord(Some(p.claude.value.mtime), Some(w.fs.clock), ClaudeToCopilot, now))
  {
    PutThenLookup(w.store, Key(c), agent, FileRecord(Some(p.claude.value.mtime), Some(w.fs.clock), ClaudeToCopilot, now), now);
  }

  /**
   * Idempotence: once a live Claude → Copilot application is recorded, the
   * next run, seeing the same Claude file and the written Copilot file, skips it.
   */
  lemma SyncedAgentIsSkipped(c: Settings, w: World, agent: string, p: Pair, now: string)
    requires !c.dryRun
    requires ReadSide(w.fs.claude, p.claude).Some?
    requires ToCopilotText(c.yaml, ReadSide(w.fs.claude, p.claude).value.content, c.addArgumentHint, c.addHandoffs).Ok?
    ensures var w' := AgentStep(c, w, agent, ClaudeToCopilot, p, now);
      var again := Pair(p.claude, Some(Side(CopilotTarget(agent, p), w'.fs.copilot[CopilotTarget(agent, p)].mtime)));
      Decide(again, Lookup(w'.store, Key(c), agent), c.direction) == Decision(Skip, NoChanges)
  {
    LivePropagationRecords(c, w, agent, p, now);
    var w' := AgentStep(c, w, agent, ClaudeToCopilot, p, now);
    RecordedMtimesAreSkipped(p.claude.value, Side(CopilotTarget(agent, p), w.fs.clock), ClaudeToCopilot, now, c.direction);
  }

  /** The same for Copilot → Claude: a failed read or conversion only counts an error. */
  lemma FailedCopilotConversionIsIsolated(c: Settings, w: World, agent: string, p: Pair, now: string)
    requires ReadSide(w.fs.copilot, p.copilot).None?
          || ToClaudeText(c.yaml, ReadSide(w.fs.copilot, p.copilot).value.content).Err?
    ensures AgentStep(c, w, agent, CopilotToClaude, p, now) == w.(stats := CountError(w.stats))
  {
  }

  /**
   * A live Copilot → Claude application writes the converted text with a fresh
   * mtime and records that fresh mtime and the Copilot mtime it read.
   */
  lemma LiveCopilotPropagationRecords(c: Settings, w: World, agent: string, p: Pair, now: string)
    requires !c.dryRun
    requires ReadSide(w.fs.copilot, p.copilot).Some?
    requires ToClaudeText(c.yaml, ReadSide(w.fs.copilot, p.copilot).value.content).Ok?
    ensures var w' := AgentStep(c, w, agent, CopilotToClaude, p, now);
      && w'.fs.claude[ClaudeTarget(agent, p)]
           == File(ToClaudeText(c.yaml, ReadSide(w.fs.copilot, p.copilot).value.content).value, w.fs.clock)
      && w'.fs.copilot == w.fs.copilot
      && Lookup(w'.store, Key(c), agent) == Some(FileRecord(Some(w.fs.clock), Some(p.copilot.value.mtime), CopilotToClaude, now))
  {
    PutThenLookup(w.store, Key(c), agent, FileRecord(Some(w.fs.clock), Some(p.copilot.value.mtime), CopilotToClaude, now), now);
  }

  /**
   * Idempotence the other way: once a live Copilot → Claude application is
   * recorded, the next run, seeing the written Claude file and the same
   * Copilot file, skips it.
   */
  lemma SyncedCopilotAgentIsSkipped(c: Settings, w: World, agent: string, p: Pair, now: string)
    requires !c.dryRun
    requires ReadSide(w.fs.copilot, p.copilot).Some?
    requires ToClaudeText(c.yaml, ReadSide(w.fs.copilot, p.copilot).value.content).Ok?
    ensures var w' := AgentStep(c, w, agent, CopilotToClaude, p, now);
      var again := Pair(Some(Side(ClaudeTarget(agent, p), w'.fs.claude[ClaudeTarget(agent, p)].mtime)), p.copilot);
      Decide(again, Lookup(w'.store, Key(c), agent), c.direction) == Decision(Skip, NoChanges)
  {
    LiveCopilotPropagationRecords(c, w, agent, p, now);
    RecordedMtimesAreSkipped(Side(ClaudeTarget(agent, p), w.fs.clock), p.copilot.value, CopilotToClaude, now, c.direction);
  }

  /**
   * Idempotence through the listing: after a live Claude → Copilot application
   * to the agent's listed pair, every listing of the new directories pairs the
   * agent with the same Claude file and the written Copilot file, and the next
   * decision is "no changes". A created Copilot file lists back only for an
   * agent name without ".agent".
   */
  lemma RelistedAgentIsSkipped(c: Settings, w: World, agent: string, p: Pair, now: string, next: map<string, Pair>)
    requires !c.dryRun
    requires ReadSide(w.fs.claude, p.claude).Some?
    requires ToCopilotText(c.yaml, ReadSide(w.fs.claude, p.claude).value.content, c.addArgumentHint, c.addHandoffs).Ok?
    requires ClaudeSideFor(w.fs.claude, agent, p.claude) && CopilotSideFor(w.fs.copilot, agent, p.copilot)
    requires UniqueNames(w.fs)
    requires p.copilot.None? ==> !Contains(agent, ".agent")
    requires PairsOf(AgentStep(c, w, agent, ClaudeToCopilot, p, now).fs, next)
    ensures agent in next
    ensures next[agent] == Pair(p.claude, Some(Side(CopilotTarget(agent, p), w.fs.clock)))
    ensures Decide(next[agent], Lookup(AgentStep(c, w, agent, ClaudeToCopilot, p, now).store, Key(c), agent), c.direction)
         == Decision(Skip, NoChanges)
  {
    var w' := AgentStep(c, w, agent, ClaudeToCopilot, p, now);
    var target := CopilotTarget(agent, p);
    var f := File(ToCopilotText(c.yaml, ReadSide(w.fs.claude, p.claude).value.content, c.addArgumentHint, c.addHandoffs).value, w.fs.clock);
    assert w'.fs.claude == w.fs.claude && w'.fs.copilot == w.fs.copilot[target := f];
    if p.copilot.None? {
      CreatedCopilotNameRelists(agent);
    }
    assert Stem(p.claude.value.name) == agent;
    ClaudeSideKept(w.fs.claude, agent, p.claude, next[agent].claude);
    CopilotSideAfterWrite(w.fs.copilot, agent, p.copilot, target, f, next[agent].copilot);
    SyncedAgentIsSkipped(c, w, agent, p, now);
  }

  /**
   * The same for Copilot → Claude: every listing of the new directories pairs
   * the agent with the written Claude file and the same Copilot file, and the
   * next decision is "no changes". A created Claude file lists back only for a
   * non-empty agent name.
   */
  lemma RelistedCopilotAgentIsSkipped(c: Settings, w: World, agent: string, p: Pair, now: string, next: map<string, Pair>)
    requires !c.dryRun
    requires ReadSide(w.fs.copilot, p.copilot).Some?
    requires ToClaudeText(c.yaml, ReadSide(w.fs.copilot, p.copilot).value.content).Ok?
    requires ClaudeSideFor(w.fs.claude, agent, p.claude) && CopilotSideFor(w.fs.copilot, agent, p.copilot)
    requires UniqueNames(w.fs)
    requires p.claude.None? ==> agent != ""
    requires PairsOf(AgentStep(c, w, agent, CopilotToClaude, p, now).fs, next)
    ensures agent in next
    ensures next[agent] == Pair(Some(Side(ClaudeTarget(agent, p), w.fs.clock)), p.copilot)
    ensures Decide(next[agent], Lookup(AgentStep(c, w, agent, CopilotToClaude, p, now).store, Key(c), agent), c.direction)
         == Decision(Skip, NoChanges)
  {
    var w' := AgentStep(c, w, agent, CopilotToClaude, p, now);
    var target := ClaudeTarget(agent, p);
    var f := File(ToClaudeText(c.yaml, ReadSide(w.fs.copilot, p.copilot).value.content).value, w.fs.clock);
    assert w'.fs.copilot == w.fs.copilot && w'.fs.claude == w.fs.claude[target := f];
    if p.claude.None? {
      CreatedClaudeNameRelists(agent);
    }
    assert target in w'.fs.claude;
    ClaudeSideAfterWrite(w.fs.claude, agent, p.claude, target, f, next[agent].claude);
    CopilotSideKept(w.fs.copilot, agent, p.copilot, next[agent].copilot);
    SyncedCopilotAgentIsSkipped(c, w, agent, p, now);
  }

  /** An application changes no record of another agent and no other directory pair. */
  lemma AgentStepFrame(c: Settings, w: World, agent: string, action: Action, p: Pair, now: string, k: string, a: string)
    requires k != Key(c) || a != agent
    ensures Lookup(AgentStep(c, w, agent, action, p, now).store, k, a) == Lookup(w.store, k, a)
    ensures k != Key(c) ==> (k in AgentStep(c, w, agent, action, p, now).store <==> k in w.store)
  {
    var r := FileRecord(MtimeOf(p.claude), MtimeOf(p.copilot), action, now);
    PutFrame(w.store, Key(c), agent, r, now, k, a);
    DropFrame(w.store, Key(c), agent, k, a);
    PutFrame(w.store, Key(c), agent, FileRecord(MtimeOf(p.claude), Some(w.fs.clock), ClaudeToCopilot, now), now, k, a);
    PutFrame(w.store, Key(c), agent, FileRecord(Some(w.fs.clock), MtimeOf(p.copilot), CopilotToClaude, now), now, k, a);
  }

  // ---------------------------------------------------------------------------
  // The sync loop
  // ---------------------------------------------------------------------------

  /**
   * One turn of the `sync` loop: decide (which inserts the pair entry), count a
   * skip, or count a conflict and resolve it, then apply the action.
   */
  function PairStep(c: Settings, w: World, agent: string, p: Pair, now: string): World
    requires Located(p)
  {
    var d := Decide(p, Lookup(w.store, Key(c), agent), c.direction);
    var w1 := w.(store := Touch(w.store, Key(c)));
    if d.action == Skip then w1.(stats := CountSkip(w1.stats))
    else if d.action == Conflict then
      var w2 := w1.(stats := CountConflict(w1.stats));
      match ResolveConflict(c.force, p.claude.value.mtime, p.copilot.value.mtime, c.ask(agent))
      case None => w2.(stats := CountSkip(w2.stats))
      case Some(a) => AgentStep(c, w2, agent, a, p, now)
    else AgentStep(c, w1, agent, d.action, p, now)
  }

  predicate AllLocated(names: seq<string>, pairs: map<string, Pair>)
  {
    forall i :: 0 <= i < |names| ==> names[i] in pairs && Located(pairs[names[i]])
  }

  /** The loop of `sync` over `names`, in that order. */
  function Run(c: Settings, w: World, names: seq<string>, pairs: map<string, Pair>, now: string): World
    requires AllLocated(names, pairs)
    decreases |names|
  {
    if names == [] then w
    else Run(c, PairStep(c, w, names[0], pairs[names[0]], now), names[1..], pairs, now)
  }

  /** The loop over a name followed by others: that name's turn, then the others. */
  lemma RunHead(c: Settings, w: World, agent: string, rest: seq<string>, pairs: map<string, Pair>, now: string)
    requires AllLocated([agent] + rest, pairs)
    ensures AllLocated(rest, pairs)
    ensures Run(c, w, [agent] + rest, pairs, now) == Run(c, PairStep(c, w, agent, pairs[agent], now), rest, pairs, now)
  {
    assert ([agent] + rest)[1..] == rest;
    assert forall i :: 0 <= i < |rest| ==> rest[i] == ([agent] + rest)[i + 1];
  }

  /** One turn settles exactly one pair, and counts a conflict exactly when the decision was one. */
  lemma PairStepCounts(c: Settings, w: World, agent: string, p: Pair, now: string)
    requires Located(p)
    ensures Settled(PairStep(c, w, agent, p, now).stats) == Settled(w.stats) + 1
    ensures PairStep(c, w, agent, p, now).stats.conflicts
         == w.stats.conflicts + (if Decide(p, Lookup(w.store, Key(c), agent), c.direction).action == Conflict then 1 else 0)
    ensures PairStep(c, w, agent, p, now).stats.deletions == w.stats.deletions
  {
    var d := Decide(p, Lookup(w.store, Key(c), agent), c.direction);
    var w1 := w.(store := Touch(w.store, Key(c)));
    if d.action == Conflict {
      var w2 := w1.(stats := CountConflict(w1.stats));
      var r := ResolveConflict(c.force, p.claude.value.mtime, p.copilot.value.mtime, c.ask(agent));
      if r.Some? {
        AgentStepSettles(c, w2, agent, r.value, p, now);
      }
    } else if d.action != Skip {
      AgentStepSettles(c, w1, agent, d.action, p, now);
    }
  }

  /**
   * Every pair the loop visits ends in exactly one settling counter, and no
   * deletion is ever counted: the decision table never asks for one on a
   * located pair, and conflict resolution only propagates.
   */
  lemma {:induction false} RunCounts(c: Settings, w: World, names: seq<string>, pairs: map<string, Pair>, now: string)
    requires AllLocated(names, pairs)
    ensures Settled(Run(c, w, names, pairs, now).stats) == Settled(w.stats) + |names|
    ensures Run(c, w, names, pairs, now).stats.deletions == w.stats.deletions
    decreases |names|
  {
    if names != [] {
      PairStepCounts(c, w, names[0], pairs[names[0]], now);
      RunCounts(c, PairStep(c, w, names[0], pairs[names[0]], now), names[1..], pairs, now);
    }
  }

  /** A dry run changes no file, and no record beyond the lazy insert of the pair entry. */
  lemma {:induction false} DryRunChangesNothing(c: Settings, w: World, names: seq<string>, pairs: map<string, Pair>, now: string)
    requires c.dryRun && AllLocated(names, pairs)
    ensures Run(c, w, names, pairs, now).fs == w.fs
    ensures Run(c, w, names, pairs, now).store == if names == [] then w.store else Touch(w.store, Key(c))
    decreases |names|
  {
    if names != [] {
      var p := pairs[names[0]];
      var d := Decide(p, Lookup(w.store, Key(c), names[0]), c.direction);
      if d.action == Conflict {
        var r := ResolveConflict(c.force, p.claude.value.mtime, p.copilot.value.mtime, c.ask(names[0]));
        if r.Some? {
          DryRunOnlyCounts(c, w.(store := Touch(w.store, Key(c)), stats := CountConflict(w.stats)), names[0], r.value, p, now);
        }
      } else if d.action != Skip {
        DryRunOnlyCounts(c, w.(store := Touch(w.store, Key(c))), names[0], d.action, p, now);
      }
      var w' := PairStep(c, w, names[0], p, now);
      assert w'.fs == w.fs && w'.store == Touch(w.store, Key(c));
      DryRunChangesNothing(c, w', names[1..], pairs, now);
    }
  }

  /** The loop changes no record of an agent it does not visit, and no other directory pair. */
  lemma {:induction false} RunFrame(c: Settings, w: World, names: seq<string>, pairs: map<string, Pair>, now: string, k: string, a: string)
    requires AllLocated(names, pairs)
    requires k != Key(c) || a !in names
    ensures Lookup(Run(c, w, names, pairs, now).store, k, a) == Lookup(w.store, k, a)
    ensures k != Key(c) ==> (k in Run(c, w, names, pairs, now).store <==> k in w.store)
    decreases |names|
  {
    if names != [] {
      var agent := names[0];
      var p := pairs[agent];
      assert k != Key(c) || a != agent;
      TouchKeepsRecords(w.store, Key(c), k, a);
      var w1 := w.(store := Touch(w.store, Key(c)));
      var d := Decide(p, Lookup(w.store, Key(c), agent), c.direction);
      if d.action == Conflict {
        var r := ResolveConflict(c.force, p.claude.value.mtime, p.copilot.value.mtime, c.ask(agent));
        if r.Some? {
          AgentStepFrame(c, w1.(stats := CountConflict(w1.stats)), agent, r.value, p, now, k, a);
        }
      } else if d.action != Skip {
        AgentStepFrame(c, w1, agent, d.action, p, now, k, a);
      }
      assert a !in names[1..] || k != Key(c);
      RunFrame(c, PairStep(c, w, agent, p, now), names[1..], pairs, now, k, a);
    }
  }

  // ---------------------------------------------------------------------------
  // sorted(pairs.items())
  // ---------------------------------------------------------------------------

  /** A set of names has at most one least element. */
  lemma LeastUnique(m1: string, m2: string, names: set<string>)
    requires IsLeast(m1, names) && IsLeast(m2, names)
    ensures m1 == m2
  {
    if m1 != m2 {
      StrLtTransitive(m1, m2, m1);
      StrLtIrreflexive(m1);
    }
  }

  /** The least name of a non-empty set. */
  ghost function Least(names: set<string>): (m: string)
    requires names != {}
    ensures IsLeast(m, names)
  {
    LeastExists(names);
    var m :| IsLeast(m, names);
    m
  }

  /** The names of a set in ascending order. */
  ghost function SortedSeq(names: set<string>): seq<string>
    decreases |names|
  {
    if names == {} then [] else [Least(names)] + SortedSeq(names - {Least(names)})
  }

  /** The ascending order starts with the least name. */
  lemma SortedSeqHead(names: set<string>, m: string)
    requires IsLeast(m, names)
    ensures SortedSeq(names) == [m] + SortedSeq(names - {m})
  {
    LeastUnique(m, Least(names), names);
  }

  /** `SortedSeq` lists exactly the set, in strictly ascending order. */
  lemma {:induction false} SortedSeqSorted(names: set<string>)
    ensures forall x :: x in SortedSeq(names) <==> x in names
    ensures |SortedSeq(names)| == |names|
    ensures Sorted(SortedSeq(names))
    decreases |names|
  {
    if names != {} {
      var m := Least(names);
      var rest := SortedSeq(names - {m});
      SortedSeqSorted(names - {m});
      var s := [m] + rest;
      forall i, j | 0 <= i < j < |s|
        ensures StrLt(s[i], s[j])
      {
        assert s[j] == rest[j - 1] && rest[j - 1] in rest;
        if i == 0 {
          assert s[j] in names - {m};
          assert IsLeast(m, names);
        } else {
          assert s[i] == rest[i - 1];
          assert StrLt(rest[i - 1], rest[j - 1]);
        }
      }
    }
  }

  /** The pairs of a listing are all located, so the loop may visit them in any order. */
  lemma SortedPairsLocated(fs: FileSystem, pairs: map<string, Pair>, names: set<string>)
    requires PairsOf(fs, pairs) && names <= pairs.Keys
    ensures AllLocated(SortedSeq(names), pairs)
  {
    SortedSeqSorted(names);
  }

  // ---------------------------------------------------------------------------
  // The syncer object
  // ---------------------------------------------------------------------------

  class AgentSyncer {
    const claudeDir: string
    const copilotDir: string
    const direction: Direction
    const dryRun: bool
    const force: bool
    const verbose: bool
    const addArgumentHint: bool
    const addHandoffs: bool
    /** The YAML library the converter uses. */
    const yaml: Codec
    /** The interactive conflict prompt: the answer given for an agent. */
    const ask: string -> Choice
    const converter: AgentConverter
    const state: SyncState
    var stats: Stats
    /** The directories this syncer reads and writes. */
    var fs: FileSystem

    function Config(): Settings
    {
      Settings(claudeDir, copilotDir, direction, dryRun, force, addArgumentHint, addHandoffs, yaml, ask)
    }

    function Current(): World
      reads this, state
    {
      World(stats, fs, state.state)
    }

    /** `__init__`: zero counters, a fresh converter, and the store loaded from its file. */
    constructor(claudeDir: string, copilotDir: string, direction: Direction, dryRun: bool, force: bool, verbose: bool,
                addArgumentHint: bool, addHandoffs: bool, yaml: Codec, ask: string -> Choice,
                stored: Persisted, fs: FileSystem)
      ensures this.claudeDir == claudeDir && this.copilotDir == copilotDir && this.direction == direction
      ensures this.dryRun == dryRun && this.force == force && this.verbose == verbose
      ensures this.addArgumentHint == addArgumentHint && this.addHandoffs == addHandoffs
      ensures stats == NoStats && this.fs == fs
      ensures fresh(converter) && converter.verbose == verbose && converter.warnings == []
      ensures fresh(state) && state.state == Load(stored) && state.disk == stored
    {
      this.claudeDir := claudeDir;
      this.copilotDir := copilotDir;
      this.direction := direction;
      this.dryRun := dryRun;
      this.force := force;
      this.verbose := verbose;
      this.addArgumentHint := addArgumentHint;
      this.addHandoffs := addHandoffs;
      this.yaml := yaml;
      this.ask := ask;
      converter := new AgentConverter(verbose);
      state := new SyncState(stored);
      stats := NoStats;
      this.fs := fs;
    }

    /** `get_agent_pairs`: the Claude files first, then the Copilot files joined by name. */
    method GetAgentPairs() returns (pairs: map<string, Pair>)
      ensures PairsOf(fs, pairs)
    {
      pairs := map[];
      var todo := fs.claude.Keys;
      while todo != {}
        invariant todo <= fs.claude.Keys
        invariant forall b :: b in pairs ==>
          pairs[b].claude.Some? && pairs[b].copilot.None? && ClaudeSideFor(fs.claude, b, pairs[b].claude)
        invariant forall n :: n in fs.claude && n !in todo && IsClaudeAgentFile(n) ==> Stem(n) in pairs
        decreases |todo|
      {
        var name :| name in todo;
        todo := todo - {name};
        if IsClaudeAgentFile(name) {
          pairs := pairs[Stem(name) := Pair(Some(Side(name, fs.claude[name].mtime)), None)];
        }
      }
      todo := fs.copilot.Keys;
      while todo != {}
        invariant todo <= fs.copilot.Keys
        invariant forall b :: b in pairs ==>
          && Located(pairs[b])
          && ClaudeSideFor(fs.claude, b, pairs[b].claude)
          && (pairs[b].copilot.Some? ==> CopilotSideFor(fs.copilot, b, pairs[b].copilot))
          && (pairs[b].copilot.None? ==> forall n :: n in fs.copilot && n !in todo && IsCopilotAgentFile(n) ==> CopilotBase(n) != b)
        invariant forall n :: n in fs.claude && IsClaudeAgentFile(n) ==> Stem(n) in pairs
        invariant forall n :: n in fs.copilot && n !in todo && IsCopilotAgentFile(n) ==> CopilotBase(n) in pairs
        decreases |todo|
      {
        var name :| name in todo;
        todo := todo - {name};
        if IsCopilotAgentFile(name) {
          var base := CopilotBase(name);
          var side := Some(Side(name, fs.copilot[name].mtime));
          if base !in pairs {
            pairs := pairs[base := Pair(None, side)];
          } else {
            pairs := pairs[base := pairs[base].(copilot := side)];
          }
        }
      }
    }

    /** `should_sync`: the decision table on the agent's record, after the lazy insert of the pair entry. */
    method ShouldSync(agent: string, p: Pair) returns (d: Decision)
      requires Located(p)
      modifies state
      ensures d == Decide(p, Lookup(old(state.state), Key(Config()), agent), direction)
      ensures state.state == Touch(old(state.state), Key(Config()))
      ensures state.disk == old(state.disk)
    {
      var fileState := state.GetFileState(claudeDir, copilotDir, agent);
      d := Decide(p, fileState, direction);
    }

    /** `sync_agent`: apply `action` to one agent, counting it, or counting the error that stopped it. */
    method SyncAgent(agent: string, action: Action, p: Pair, now: string)
      modifies this`stats, this`fs, state, converter
      ensures Current() == AgentStep(Config(), old(Current()), agent, action, p, now)
      ensures state.disk == old(state.disk)
    {
      if action == ClaudeToCopilot {
        ConvertToCopilot(agent, p, now);
      } else if action == CopilotToClaude {
        ConvertToClaude(agent, p, now);
      } else if action == DeleteCopilot {
        Delete(agent, p, true);
      } else if action == DeleteClaude {
        Delete(agent, p, false);
      } else if !dryRun {
        state.UpdateFileState(claudeDir, copilotDir, agent, MtimeOf(p.claude), MtimeOf(p.copilot), action, now);
      }
    }

    /** The 'claude_to_copilot' branch of `sync_agent`. */
    method ConvertToCopilot(agent: string, p: Pair, now: string)
      modifies this`stats, this`fs, state, converter
      ensures Current() == PropagateToCopilot(Config(), old(Current()), agent, p, now)
      ensures state.disk == old(state.disk)
    {
      var source := ReadSide(fs.claude, p.claude);
      if source.None? {
        stats := CountError(stats);
        return;
      }
      var converted := converter.ClaudeToCopilot(yaml, source.value.content, addArgumentHint, addHandoffs);
      if converted.Err? {
        stats := CountError(stats);
        return;
      }
      WriteCopilot(agent, p, converted.value, now);
    }

    /** Writing the converted Copilot file, re-reading its mtime, counting, and recording. */
    method WriteCopilot(agent: string, p: Pair, text: string, now: string)
      modifies this`stats, this`fs, state
      ensures Current() == CopilotWritten(Config(), old(Current()), agent, p, text, now)
      ensures state.disk == old(state.disk)
    {
      var copilotMtime := MtimeOf(p.copilot);
      if !dryRun {
        copilotMtime := Some(fs.clock);
        fs := fs.(copilot := fs.copilot[CopilotTarget(agent, p) := File(text, fs.clock)], clock := fs.clock + 1);
      }
      stats := CountToCopilot(stats);
      if !dryRun {
        state.UpdateFileState(claudeDir, copilotDir, agent, MtimeOf(p.claude), copilotMtime, ClaudeToCopilot, now);
      }
    }

    /** The 'copilot_to_claude' branch of `sync_agent`. */
    method ConvertToClaude(agent: string, p: Pair, now: string)
      modifies this`stats, this`fs, state, converter
      ensures Current() == PropagateToClaude(Config(), old(Current()), agent, p, now)
      ensures state.disk == old(state.disk)
    {
      var source := ReadSide(fs.copilot, p.copilot);
      if source.None? {
        stats := CountError(stats);
        return;
      }
      var converted := converter.CopilotToClaude(yaml, source.value.content);
      if converted.Err? {
        stats := CountError(stats);
        return;
      }
      WriteClaude(agent, p, converted.value, now);
    }

    /** Writing the converted Claude file, re-reading its mtime, counting, and recording. */
    method WriteClaude(agent: string, p: Pair, text: string, now: string)
      modifies this`stats, this`fs, state
      ensures Current() == ClaudeWritten(Config(), old(Current()), agent, p, text, now)
      ensures state.disk == old(state.disk)
    {
      var claudeMtime := MtimeOf(p.claude);
      if !dryRun {
        claudeMtime := Some(fs.clock);
        fs := fs.(claude := fs.claude[ClaudeTarget(agent, p) := File(text, fs.clock)], clock := fs.clock + 1);
      }
      stats := CountToClaude(stats);
      if !dryRun {
        state.UpdateFileState(claudeDir, copilotDir, agent, claudeMtime, MtimeOf(p.copilot), CopilotToClaude, now);
      }
    }

    /** The 'delete_copilot' and 'delete_claude' branches of `sync_agent`. */
    method Delete(agent: string, p: Pair, copilotSide: bool)
      modifies this`stats, this`fs, state
      ensures Current() == DeleteSide(Config(), old(Current()), agent, p, copilotSide)
      ensures state.disk == old(state.disk)
    {
      if copilotSide {
        if !dryRun && p.copilot.Some? && p.copilot.value.name in fs.copilot {
          fs := fs.(copilot := fs.copilot - {p.copilot.value.name});
        }
      } else {
        if !dryRun && p.claude.Some? && p.claude.value.name in fs.claude {
          fs := fs.(claude := fs.claude - {p.claude.value.name});
        }
      }
      stats := CountDeletion(stats);
      if !dryRun {
        state.RemoveFileState(claudeDir, copilotDir, agent);
      }
    }

    /** One turn of the `sync` loop: decide, then skip, resolve a conflict, or apply. */
    method HandlePair(agent: string, p: Pair, now: string)
      requires Located(p)
      modifies this`stats, this`fs, state, converter
      ensures Current() == PairStep(Config(), old(Current()), agent, p, now)
      ensures state.disk == old(state.disk)
    {
      var decision := ShouldSync(agent, p);
      if decision.action == Skip {
        stats := CountSkip(stats);
        return;
      }
      var action := decision.action;
      if action == Conflict {
        stats := CountConflict(stats);
        var resolved := ResolveConflict(force, p.claude.value.mtime, p.copilot.value.mtime, ask(agent));
        if resolved.None? {
          stats := CountSkip(stats);
          return;
        }
        action := resolved.value;
      }
      SyncAgent(agent, action, p, now);
    }

    /**
     * `sync`: list the pairs; when there are any, handle each in ascending name
     * order and save the store unless this is a dry run. `pairs` is the listing.
     */
    method Sync(now: string) returns (ghost pairs: map<string, Pair>)
      modifies this`stats, this`fs, state, converter
      ensures PairsOf(old(fs), pairs)
      ensures AllLocated(SortedSeq(pairs.Keys), pairs)
      ensures Current() == Run(Config(), old(Current()), SortedSeq(pairs.Keys), pairs, now)
      ensures state.disk == if dryRun || pairs == map[] then old(state.disk) else Stored(state.state)
    {
      var listed := GetAgentPairs();
      pairs := listed;
      SortedPairsLocated(fs, listed, listed.Keys);
      if listed == map[] {
        assert SortedSeq(listed.Keys) == [];
        return;
      }
      var todo := listed.Keys;
      while todo != {}
        invariant todo <= listed.Keys
        invariant AllLocated(SortedSeq(todo), listed)
        invariant Run(Config(), Current(), SortedSeq(todo), listed, now)
               == Run(Config(), old(Current()), SortedSeq(listed.Keys), listed, now)
        invariant state.disk == old(state.disk)
        decreases |todo|
      {
        LeastExists(todo);
        var agent :| IsLeast(agent, todo);
        SortedSeqHead(todo, agent);
        SortedPairsLocated(old(fs), listed, todo - {agent});
        ghost var before := Current();
        RunHead(Config(), before, agent, SortedSeq(todo - {agent}), listed, now);
        todo := todo - {agent};
        HandlePair(agent, listed[agent], now);
      }
      if !dryRun {
        state.SaveState();
      }
    }
  }
}
