/**
  The registry's actions on the store object. Each is one locked operation of the store, and each
  changes the store as the step of the state machine it stands for.
*/
module RunStore {
  import opened Wrappers
  import opened KVStore
  import opened RunRegistry

  /** The store shows what the machine has registered. */
  ghost predicate Shows(runs: KV<RunId, HandleId>, s: State)
    reads runs
  {
    runs.data == s.data
  }

  /** The lookup that begins a reconnect: a hit makes the call check that handle, a miss sends it to the runtime. */
  method LookUp(runs: KV<RunId, HandleId>, run: RunId, ghost s: State, ghost c: CallId) returns (existing: Option<HandleId>)
    requires Shows(runs, s) && Enabled(s, Get(c)) && s.calls[c].run == run
    ensures Shows(runs, Do(s, Get(c)))
    ensures Do(s, Get(c)).calls[c].pc == match existing case Some(h) => Found(h) case None => Missed
  {
    existing := runs.Get(run);
  }

  /** The unconditional delete of a call that found a handle already done. */
  method ClearEntry(runs: KV<RunId, HandleId>, run: RunId, ghost s: State, ghost c: CallId)
    requires Shows(runs, s) && Enabled(s, DeleteKey(c)) && s.calls[c].run == run
    modifies runs
    ensures Shows(runs, Do(s, DeleteKey(c))) && run !in runs.data
  {
    runs.Delete(run);
  }

  /** The registering half of newAgentRun and newAgentStream; the waiter is spawned by the next step. */
  method RegisterHandle(runs: KV<RunId, HandleId>, run: RunId, h: HandleId, ghost s: State, ghost c: CallId)
    requires Shows(runs, s) && Reachable(s) && Enabled(s, Set(c)) && s.calls[c] == Call(run, Setting(h))
    modifies runs
    ensures Shows(runs, Do(s, Set(c))) && h !in s.everSet
    ensures Lookup(runs.data, run) == Some(h) && h in s.runOf && s.runOf[h] == run
  {
    SetAtMostOnce(s, c);
    HandleIsForItsRun(s, c);
    runs.Set(run, h);
  }

  lemma HandleIsForItsRun(s: State, c: CallId)
    requires Reachable(s) && Enabled(s, Set(c))
    ensures s.calls[c].pc.h in s.runOf && s.runOf[s.calls[c].pc.h] == s.calls[c].run
  {
    ReachableInv(s);
    assert CallInv(s, s.calls[c]);
  }

  /** The waiter's last action: it unregisters its own handle and no other. */
  method Unregister(runs: KV<RunId, HandleId>, h: HandleId, run: RunId, ghost s: State) returns (deleted: bool)
    requires Shows(runs, s) && Reachable(s) && Enabled(s, WaiterUnregisters(h)) && s.runOf[h] == run
    modifies runs
    ensures Shows(runs, Do(s, WaiterUnregisters(h)))
    ensures deleted <==> Lookup(s.data, run) == Some(h)
    ensures deleted ==> run in s.finished
  {
    if Lookup(s.data, run) == Some(h) {
      OnlyFinishedRunsAreRemoved(s, WaiterUnregisters(h), run);
    }
    deleted := runs.DeleteIf(run, h);
  }
}
