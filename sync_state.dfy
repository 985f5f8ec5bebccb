/**
 * `SyncState`: the persisted store of sync records, a map from a directory-pair
 * key to that job's records, one per agent name.
 */
module SyncStore {
  import opened Values
  import opened Text
  import opened SyncTypes

  /** The state file as the store finds it when it starts. */
  datatype Persisted = Missing | Corrupt | Stored(pairs: map<string, PairRecord>)

  /** `_load_state`, reduced to its `sync_pairs` object. */
  function Load(p: Persisted): map<string, PairRecord>
  {
    if p.Stored? then p.pairs else map[]
  }

  /** `get_pair_key` on the resolved directory paths. */
  function PairKey(claudeDir: string, copilotDir: string): string
  {
    claudeDir + "|" + copilotDir
  }

  const EmptyPair := PairRecord(None, map[])

  /** The lazy insert of `get_pair_state`: an empty entry for a key not yet present. */
  function Touch(s: map<string, PairRecord>, key: string): map<string, PairRecord>
  {
    if key in s then s else s[key := EmptyPair]
  }

  /** `pair_state["files"].get(agent)`, None also when the pair has no entry. */
  function Lookup(s: map<string, PairRecord>, key: string, agent: string): Option<FileRecord>
  {
    if key in s && agent in s[key].files then Some(s[key].files[agent]) else None
  }

  /** The store after `update_file_state`. */
  function Put(s: map<string, PairRecord>, key: string, agent: string, rec: FileRecord, now: string): map<string, PairRecord>
  {
    var t := Touch(s, key);
    t[key := PairRecord(Some(now), t[key].files[agent := rec])]
  }

  /** The store after `remove_file_state`. */
  function Drop(s: map<string, PairRecord>, key: string, agent: string): map<string, PairRecord>
  {
    var t := Touch(s, key);
    if agent in t[key].files then t[key := t[key].(files := t[key].files - {agent})] else t
  }

  /** A missing or corrupt state file is an empty store; a saved one loads back as saved. */
  lemma LoadRecovers(s: map<string, PairRecord>)
    ensures Load(Missing) == map[] && Load(Corrupt) == map[]
    ensures Load(Stored(s)) == s
  {
  }

  /** A read through `get_pair_state` changes no record. */
  lemma TouchKeepsRecords(s: map<string, PairRecord>, key: string, k: string, agent: string)
    ensures Lookup(Touch(s, key), k, agent) == Lookup(s, k, agent)
    ensures forall other :: other in s ==> other in Touch(s, key) && Touch(s, key)[other] == s[other]
  {
  }

  /** After an update the agent's record is the one written. */
  lemma PutThenLookup(s: map<string, PairRecord>, key: string, agent: string, rec: FileRecord, now: string)
    ensures Lookup(Put(s, key, agent, rec, now), key, agent) == Some(rec)
  {
  }

  /** An update touches no other agent and no other pair. */
  lemma PutFrame(s: map<string, PairRecord>, key: string, agent: string, rec: FileRecord, now: string, k: string, a: string)
    requires k != key || a != agent
    ensures Lookup(Put(s, key, agent, rec, now), k, a) == Lookup(s, k, a)
    ensures k != key ==> (k in Put(s, key, agent, rec, now) <==> k in s)
  {
  }

  /** After a removal the agent has no record. */
  lemma DropThenLookup(s: map<string, PairRecord>, key: string, agent: string)
    ensures Lookup(Drop(s, key, agent), key, agent) == None
  {
  }

  /** A removal touches no other agent and no other pair. */
  lemma DropFrame(s: map<string, PairRecord>, key: string, agent: string, k: string, a: string)
    requires k != key || a != agent
    ensures Lookup(Drop(s, key, agent), k, a) == Lookup(s, k, a)
    ensures k != key ==> (k in Drop(s, key, agent) <==> k in s)
  {
  }

  /** Removing an agent that has no record only performs the lazy insert. */
  lemma DropAbsent(s: map<string, PairRecord>, key: string, agent: string)
    requires Lookup(s, key, agent) == None
    ensures Drop(s, key, agent) == Touch(s, key)
  {
  }

  /** Different directory pairs get different keys when the Claude path holds no '|'. */
  lemma PairKeyInjective(c1: string, p1: string, c2: string, p2: string)
    requires '|' !in c1 && '|' !in c2
    requires PairKey(c1, p1) == PairKey(c2, p2)
    ensures c1 == c2 && p1 == p2
  {
    var k := PairKey(c1, p1);
    KeyLayout(c1, p1);
    KeyLayout(c2, p2);
    assert |c1| == |c2|;
    assert c1 == k[..|c1|] == c2;
    assert p1 == k[|c1| + 1..] == p2;
  }

  /** The first '|' of a key ends the Claude path when that path holds none. */
  lemma KeyLayout(c: string, p: string)
    requires '|' !in c
    ensures |c| < |PairKey(c, p)| && PairKey(c, p)[|c|] == '|'
    ensures forall i :: 0 <= i < |c| ==> PairKey(c, p)[i] != '|'
  {
    forall i | 0 <= i < |c|
      ensures PairKey(c, p)[i] != '|'
    {
      assert PairKey(c, p)[i] == c[i];
    }
  }

  /** Without that condition two different jobs share one key. */
  lemma PairKeyAmbiguous()
    ensures PairKey("/a|/b", "/c") == PairKey("/a", "/b|/c")
  {
  }

  /** The store object of one run: `state` is the `sync_pairs` map, `disk` the state file. */
  class SyncState {
    var state: map<string, PairRecord>
    var disk: Persisted

    /** `__init__`: loads the file, recovering from a missing or corrupt one. */
    constructor(stored: Persisted)
      ensures disk == stored
      ensures state == Load(stored)
    {
      disk := stored;
      state := Load(stored);
    }

    /** `save_state`: the file is replaced by the whole current map. */
    method SaveState()
      modifies this`disk
      ensures disk == Stored(state)
      ensures Load(disk) == state
    {
      disk := Stored(state);
    }

    /** `get_pair_state`: the pair's entry, inserting an empty one when missing. */
    method GetPairState(claudeDir: string, copilotDir: string) returns (p: PairRecord)
      modifies this`state
      ensures state == Touch(old(state), PairKey(claudeDir, copilotDir))
      ensures p == state[PairKey(claudeDir, copilotDir)]
      ensures PairKey(claudeDir, copilotDir) in old(state) ==> p == old(state)[PairKey(claudeDir, copilotDir)]
      ensures PairKey(claudeDir, copilotDir) !in old(state) ==> p == EmptyPair
    {
      var key := PairKey(claudeDir, copilotDir);
      if key !in state {
        state := state[key := PairRecord(None, map[])];
      }
      p := state[key];
    }

    /** `update_file_state`: records the mtimes and action of one agent's sync. */
    method UpdateFileState(claudeDir: string, copilotDir: string, agent: string,
                           claudeMtime: Option<int>, copilotMtime: Option<int>, action: Action, now: string)
      modifies this`state
      ensures state == Put(old(state), PairKey(claudeDir, copilotDir), agent,
                           FileRecord(claudeMtime, copilotMtime, action, now), now)
      ensures Lookup(state, PairKey(claudeDir, copilotDir), agent) == Some(FileRecord(claudeMtime, copilotMtime, action, now))
    {
      var pairState := GetPairState(claudeDir, copilotDir);
      var key := PairKey(claudeDir, copilotDir);
      var files := pairState.files[agent := FileRecord(claudeMtime, copilotMtime, action, now)];
      state := state[key := PairRecord(Some(now), files)];
    }

    /** `get_file_state`: the agent's record, if any; still performs the lazy insert. */
    method GetFileState(claudeDir: string, copilotDir: string, agent: string) returns (r: Option<FileRecord>)
      modifies this`state
      ensures state == Touch(old(state), PairKey(claudeDir, copilotDir))
      ensures r == Lookup(old(state), PairKey(claudeDir, copilotDir), agent)
    {
      var pairState := GetPairState(claudeDir, copilotDir);
      r := if agent in pairState.files then Some(pairState.files[agent]) else None;
    }

    /** `remove_file_state`: deletes the agent's record when there is one. */
    method RemoveFileState(claudeDir: string, copilotDir: string, agent: string)
      modifies this`state
      ensures state == Drop(old(state), PairKey(claudeDir, copilotDir), agent)
      ensures Lookup(state, PairKey(claudeDir, copilotDir), agent) == None
    {
      var pairState := GetPairState(claudeDir, copilotDir);
      var key := PairKey(claudeDir, copilotDir);
      if agent in pairState.files {
        state := state[key := pairState.(files := pairState.files - {agent})];
      }
    }
  }
}
