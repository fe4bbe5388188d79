/**
  The registry of live run handles (and, with the same code, of live stream handles) as a state
  machine. Starters, reconnecting callers and one waiter goroutine per handle share one store, and
  a call's Get and Set are separate atomic actions, so other calls can come in between.

  The runtime appears only by its contract: it mints fresh run identifiers, a handle's Done is
  closed only after its run has finished, finishing is permanent, a reconnect succeeds only for a run
  that has not finished, and it is refused as completed only for one that has.
*/
module RunRegistry {
  import opened Wrappers
  import opened KVStore
  import opened FiniteSums

  type RunId = string
  type HandleId = nat
  type CallId = nat

  datatype Answer = Existing(h: HandleId) | New(h: HandleId) | AlreadyCompleted | LookupError

  /** Where a call of Run, Stream, GetAgentRun or GetAgentStream stands. */
  datatype CallPc =
    | Looking
    | Found(h: HandleId)
    | Deleting
    | Missed
    | Setting(h: HandleId)
    | Spawning(h: HandleId)
    | Finished(answer: Answer)

  datatype Call = Call(run: RunId, pc: CallPc)

  datatype Waiter = AwaitingDone | Unregistering | Gone

  /** `everSet` is a history: the handles the registry has ever held. */
  datatype State = State(
    data: map<RunId, HandleId>,
    runOf: map<HandleId, RunId>,
    done: set<HandleId>,
    finished: set<RunId>,
    calls: map<CallId, Call>,
    waiters: map<HandleId, Waiter>,
    everSet: set<HandleId>)

  const INITIAL := State(map[], map[], {}, {}, map[], map[], {})

  datatype Step =
    | StartRun(c: CallId, run: RunId, h: HandleId)
    | BeginLookup(c: CallId, run: RunId)
    | Get(c: CallId)
    | CheckDone(c: CallId)
    | DeleteKey(c: CallId)
    | Reconnect(c: CallId, h: HandleId)
    | ReconnectFails(c: CallId, completed: bool)
    | Set(c: CallId)
    | Spawn(c: CallId)
    | WaiterWakes(h: HandleId)
    | WaiterUnregisters(h: HandleId)
    | FinishRun(run: RunId)
    | CloseDone(h: HandleId)

  predicate Enabled(s: State, step: Step) {
    match step
    case StartRun(c, run, h) => c !in s.calls && h !in s.runOf && run !in s.runOf.Values
    case BeginLookup(c, _) => c !in s.calls
    case Get(c) => c in s.calls && s.calls[c].pc.Looking?
    case CheckDone(c) => c in s.calls && s.calls[c].pc.Found?
    case DeleteKey(c) => c in s.calls && s.calls[c].pc.Deleting?
    case Reconnect(c, h) => c in s.calls && s.calls[c].pc.Missed? && h !in s.runOf && s.calls[c].run !in s.finished
    case ReconnectFails(c, completed) => c in s.calls && s.calls[c].pc.Missed? && (completed ==> s.calls[c].run in s.finished)
    case Set(c) => c in s.calls && s.calls[c].pc.Setting?
    case Spawn(c) => c in s.calls && s.calls[c].pc.Spawning?
    case WaiterWakes(h) => h in s.waiters && s.waiters[h].AwaitingDone? && h in s.done
    case WaiterUnregisters(h) => h in s.waiters && s.waiters[h].Unregistering? && h in s.runOf
    case FinishRun(_) => true
    case CloseDone(h) => h in s.runOf && s.runOf[h] in s.finished
  }

  function Goto(s: State, c: CallId, pc: CallPc): State
    requires c in s.calls
  {
    s.(calls := s.calls[c := s.calls[c].(pc := pc)])
  }

  function Do(s: State, step: Step): State
    requires Enabled(s, step)
  {
    match step
    case StartRun(c, run, h) => s.(calls := s.calls[c := Call(run, Setting(h))], runOf := s.runOf[h := run])
    case BeginLookup(c, run) => s.(calls := s.calls[c := Call(run, Looking)])
    case Get(c) =>
      (match Lookup(s.data, s.calls[c].run)
       case Some(h) => Goto(s, c, Found(h))
       case None => Goto(s, c, Missed))
    case CheckDone(c) =>
      if s.calls[c].pc.h in s.done then Goto(s, c, Deleting) else Goto(s, c, Finished(Existing(s.calls[c].pc.h)))
    case DeleteKey(c) => Goto(s, c, Finished(AlreadyCompleted)).(data := s.data - {s.calls[c].run})
    case Reconnect(c, h) => Goto(s, c, Setting(h)).(runOf := s.runOf[h := s.calls[c].run])
    case ReconnectFails(c, completed) => Goto(s, c, Finished(if completed then AlreadyCompleted else LookupError))
    case Set(c) =>
      var h := s.calls[c].pc.h;
      Goto(s, c, Spawning(h)).(data := s.data[s.calls[c].run := h], everSet := s.everSet + {h})
    case Spawn(c) =>
      var h := s.calls[c].pc.h;
      Goto(s, c, Finished(New(h))).(waiters := s.waiters[h := AwaitingDone])
    case WaiterWakes(h) => s.(waiters := s.waiters[h := Unregistering])
    case WaiterUnregisters(h) => s.(waiters := s.waiters[h := Gone], data := DeletedIf(s.data, s.runOf[h], h))
    case FinishRun(run) => s.(finished := s.finished + {run})
    case CloseDone(h) => s.(done := s.done + {h})
  }

  predicate CanRun(s: State, steps: seq<Step>)
    decreases |steps|
  {
    steps == [] || (Enabled(s, steps[0]) && CanRun(Do(s, steps[0]), steps[1..]))
  }

  function Run(s: State, steps: seq<Step>): State
    requires CanRun(s, steps)
    decreases |steps|
  {
    if steps == [] then s else Run(Do(s, steps[0]), steps[1..])
  }

  ghost predicate Reachable(s: State) {
    exists steps :: CanRun(INITIAL, steps) && Run(INITIAL, steps) == s
  }

  // ----- the invariant

  /** The call is about to register `h`, or has and is about to start its waiter. */
  predicate Carries(pc: CallPc, h: HandleId) {
    pc == Setting(h) || pc == Spawning(h)
  }

  /** A waiter for `h` is still to come or still at work. */
  ghost predicate WillUnregister(s: State, h: HandleId) {
    (h in s.waiters && !s.waiters[h].Gone?) || exists c :: c in s.calls && s.calls[c].pc == Spawning(h)
  }

  ghost predicate CallInv(s: State, call: Call) {
    match call.pc
    case Found(h) => h in s.runOf && s.runOf[h] == call.run
    case Deleting => call.run in s.finished
    case Finished(AlreadyCompleted) => call.run in s.finished
    case Finished(Existing(h)) => h in s.runOf && s.runOf[h] == call.run
    case Finished(New(h)) => h in s.runOf && s.runOf[h] == call.run
    case Setting(h) => h in s.runOf && s.runOf[h] == call.run && h !in s.everSet && h !in s.waiters
    case Spawning(h) => h in s.runOf && s.runOf[h] == call.run && h in s.everSet && h !in s.waiters
    case _ => true
  }

  /** Every registered handle is registered under its own run and its waiter has not come and gone. */
  ghost predicate DataInv(s: State) {
    forall r :: r in s.data ==>
      s.data[r] in s.runOf && s.runOf[s.data[r]] == r && s.data[r] in s.everSet && WillUnregister(s, s.data[r])
  }

  ghost predicate CallsInv(s: State) {
    forall c :: c in s.calls ==> CallInv(s, s.calls[c])
  }

  /** No two calls bring the same handle. */
  ghost predicate CarriersInv(s: State) {
    forall c, d, h :: c in s.calls && d in s.calls && Carries(s.calls[c].pc, h) && Carries(s.calls[d].pc, h) ==> c == d
  }

  ghost predicate HandlesInv(s: State) {
    && (forall h :: h in s.done ==> h in s.runOf && s.runOf[h] in s.finished)
    && (forall h :: h in s.waiters ==> h in s.everSet && (!s.waiters[h].AwaitingDone? ==> h in s.done))
    && (forall h :: h in s.everSet ==> h in s.runOf)
  }

  ghost predicate Inv(s: State) {
    DataInv(s) && CallsInv(s) && CarriersInv(s) && HandlesInv(s)
  }

  lemma DoneKeeps(s: State, step: Step)
    requires HandlesInv(s) && Enabled(s, step)
    ensures var s' := Do(s, step); forall h :: h in s'.done ==> h in s'.runOf && s'.runOf[h] in s'.finished
  {
  }

  lemma WaitersKeep(s: State, step: Step)
    requires CallsInv(s) && HandlesInv(s) && Enabled(s, step)
    ensures var s' := Do(s, step);
      forall h :: h in s'.waiters ==> h in s'.everSet && (!s'.waiters[h].AwaitingDone? ==> h in s'.done)
  {
    if step.Spawn? {
      assert CallInv(s, s.calls[step.c]);
    }
  }

  lemma HandlesKeep(s: State, step: Step)
    requires CallsInv(s) && HandlesInv(s) && Enabled(s, step)
    ensures HandlesInv(Do(s, step))
  {
    DoneKeeps(s, step);
    WaitersKeep(s, step);
    if step.Set? {
      assert CallInv(s, s.calls[step.c]);
    }
  }

  predicate IsWaiterStep(step: Step) {
    step.WaiterWakes? || step.WaiterUnregisters? || step.FinishRun? || step.CloseDone?
  }

  /** A call that carries `h` after a step carried it before, or has just brought it as a new handle. */
  lemma CarriedBefore(s: State, step: Step, c: CallId, h: HandleId)
    requires Enabled(s, step) && c in Do(s, step).calls && Carries(Do(s, step).calls[c].pc, h)
    ensures (c in s.calls && Carries(s.calls[c].pc, h)) || (!IsWaiterStep(step) && step.c == c && h !in s.runOf)
  {
  }

  lemma CarriersKeep(s: State, step: Step)
    requires CallsInv(s) && CarriersInv(s) && Enabled(s, step)
    ensures CarriersInv(Do(s, step))
  {
    var s' := Do(s, step);
    forall c, d, h | c in s'.calls && d in s'.calls && Carries(s'.calls[c].pc, h) && Carries(s'.calls[d].pc, h) ensures c == d {
      CarriedBefore(s, step, c, h);
      CarriedBefore(s, step, d, h);
      CarriedAreKnown(s, h);
    }
  }

  lemma CarriedAreKnown(s: State, h: HandleId)
    requires CallsInv(s)
    ensures forall e :: e in s.calls && Carries(s.calls[e].pc, h) ==> h in s.runOf
  {
    forall e | e in s.calls && Carries(s.calls[e].pc, h) ensures h in s.runOf {
      assert CallInv(s, s.calls[e]);
    }
  }

  /** A call that does not move keeps what it relies on. */
  lemma IdleCallKeeps(s: State, step: Step, c: CallId)
    requires CallsInv(s) && CarriersInv(s) && HandlesInv(s) && Enabled(s, step)
    requires c in s.calls && c in Do(s, step).calls && Do(s, step).calls[c] == s.calls[c]
    ensures CallInv(Do(s, step), s.calls[c])
  {
    assert CallInv(s, s.calls[c]);
    if step.Set? || step.Spawn? {
      var h := s.calls[step.c].pc.h;
      assert Carries(s.calls[step.c].pc, h);
      assert step.c != c ==> !Carries(s.calls[c].pc, h);
    }
  }

  lemma MovingCallKeeps(s: State, step: Step, c: CallId)
    requires CallsInv(s) && HandlesInv(s) && DataInv(s) && Enabled(s, step)
    requires c in Do(s, step).calls && (c !in s.calls || Do(s, step).calls[c] != s.calls[c])
    ensures CallInv(Do(s, step), Do(s, step).calls[c])
  {
    if c in s.calls {
      assert CallInv(s, s.calls[c]);
    }
  }

  lemma CallsKeep(s: State, step: Step)
    requires CallsInv(s) && CarriersInv(s) && HandlesInv(s) && DataInv(s) && Enabled(s, step)
    ensures CallsInv(Do(s, step))
  {
    var s' := Do(s, step);
    forall c | c in s'.calls ensures CallInv(s', s'.calls[c]) {
      if c in s.calls && s'.calls[c] == s.calls[c] {
        IdleCallKeeps(s, step, c);
      } else {
        MovingCallKeeps(s, step, c);
      }
    }
  }

  /** Nothing but its own waiter ends the promise that a registered handle will be unregistered. */
  lemma WillUnregisterKept(s: State, step: Step, h: HandleId)
    requires CallsInv(s) && Enabled(s, step) && WillUnregister(s, h) && step != WaiterUnregisters(h)
    ensures WillUnregister(Do(s, step), h)
  {
    var s' := Do(s, step);
    if !(h in s.waiters && !s.waiters[h].Gone?) {
      var c :| c in s.calls && s.calls[c].pc == Spawning(h);
      if step == Spawn(c) {
        assert h in s'.waiters;
      } else {
        assert s'.calls[c] == s.calls[c];
      }
    }
  }

  lemma DataKeeps(s: State, step: Step)
    requires Inv(s) && Enabled(s, step)
    ensures DataInv(Do(s, step))
  {
    var s' := Do(s, step);
    forall r | r in s'.data
      ensures s'.data[r] in s'.runOf && s'.runOf[s'.data[r]] == r && s'.data[r] in s'.everSet && WillUnregister(s', s'.data[r])
    {
      var h := s'.data[r];
      if step.Set? && h == s.calls[step.c].pc.h {
        assert CallInv(s, s.calls[step.c]);
        assert s'.calls[step.c].pc == Spawning(h);
      } else {
        assert r in s.data && s.data[r] == h;
        WillUnregisterKept(s, step, h);
      }
    }
  }

  lemma StepKeeps(s: State, step: Step)
    requires Inv(s) && Enabled(s, step)
    ensures Inv(Do(s, step))
  {
    HandlesKeep(s, step);
    CarriersKeep(s, step);
    CallsKeep(s, step);
    DataKeeps(s, step);
  }

  lemma {:induction false} RunKeeps(s: State, steps: seq<Step>)
    requires Inv(s) && CanRun(s, steps)
    ensures Inv(Run(s, steps))
    decreases |steps|
  {
    if steps != [] {
      StepKeeps(s, steps[0]);
      RunKeeps(Do(s, steps[0]), steps[1..]);
    }
  }

  lemma ReachableInv(s: State)
    requires Reachable(s)
    ensures Inv(s)
  {
    var steps :| CanRun(INITIAL, steps) && Run(INITIAL, steps) == s;
    RunKeeps(INITIAL, steps);
  }

  // ----- no leak, no loss

  /** A handle is put into the registry at most once, by whichever call brought it. */
  lemma SetAtMostOnce(s: State, c: CallId)
    requires Reachable(s) && Enabled(s, Set(c))
    ensures s.calls[c].pc.h !in s.everSet && s.calls[c].pc.h in Do(s, Set(c)).everSet
  {
    ReachableInv(s);
    assert CallInv(s, s.calls[c]);
  }

  /** Every registered handle still has its waiter at work or about to be spawned. */
  lemma RegisteredHandlesHaveWaiters(s: State, r: RunId)
    requires Reachable(s) && r in s.data
    ensures s.data[r] in s.runOf && s.runOf[s.data[r]] == r
    ensures (s.data[r] in s.waiters && !s.waiters[s.data[r]].Gone?) || exists c :: c in s.calls && s.calls[c].pc == Spawning(s.data[r])
  {
    ReachableInv(s);
    assert WillUnregister(s, s.data[r]);
  }

  /** Nothing is in flight: calls have returned, Done is closed for every handle of a finished run, and no waiter that can move is left. */
  ghost predicate Settled(s: State) {
    && (forall c :: c in s.calls ==> s.calls[c].pc.Finished?)
    && (forall h :: h in s.runOf && s.runOf[h] in s.finished ==> h in s.done)
    && (forall h :: h in s.waiters && h in s.done ==> s.waiters[h].Gone?)
  }

  /** No leak: once everything in flight has finished, the registry holds no handle of a finished run. */
  lemma SettledRegistryHoldsOnlyLiveRuns(s: State, r: RunId)
    requires Reachable(s) && Settled(s) && r in s.data
    ensures r !in s.finished
  {
    ReachableInv(s);
    assert WillUnregister(s, s.data[r]);
  }

  /**
    No loss: whatever removes an entry, a waiter's conditional delete or the unconditional delete of
    a reconnecting call, removes it only for a run that has finished, however reconnects overlap.
  */
  lemma OnlyFinishedRunsAreRemoved(s: State, step: Step, r: RunId)
    requires Reachable(s) && Enabled(s, step) && r in s.data && r !in Do(s, step).data
    ensures r in s.finished
  {
    ReachableInv(s);
    if step.DeleteKey? {
      assert CallInv(s, s.calls[step.c]);
    }
  }

  // ----- stable lookups

  /** No call for `r` is past a missed lookup and short of registering. */
  ghost predicate NoneOverlaps(s: State, r: RunId) {
    forall c :: c in s.calls && s.calls[c].run == r ==> !s.calls[c].pc.Missed? && !s.calls[c].pc.Setting?
  }

  /** What calls for `r` that were not in `before` can have seen while `h` stays registered. */
  ghost predicate SeesOnly(before: State, s: State, r: RunId, h: HandleId) {
    forall c :: c in s.calls && c !in before.calls && s.calls[c].run == r ==>
      s.calls[c].pc in {Looking, Found(h), Finished(Existing(h))}
  }

  lemma FinishedGrows(s: State, step: Step)
    requires Enabled(s, step)
    ensures s.finished <= Do(s, step).finished
    ensures s.calls.Keys <= Do(s, step).calls.Keys
  {
  }

  lemma {:induction false} FinishedGrowsOnRun(s: State, steps: seq<Step>)
    requires CanRun(s, steps)
    ensures s.finished <= Run(s, steps).finished
    decreases |steps|
  {
    if steps != [] {
      FinishedGrows(s, steps[0]);
      FinishedGrowsOnRun(Do(s, steps[0]), steps[1..]);
    }
  }

  lemma EntryUndeleted(s: State, step: Step, r: RunId)
    requires Inv(s) && Enabled(s, step) && r in s.data && r !in s.finished && NoneOverlaps(s, r)
    ensures var s' := Do(s, step); r in s'.data && s'.data[r] == s.data[r]
  {
    assert s.data[r] !in s.done;
    if step.DeleteKey? || step.Set? {
      assert CallInv(s, s.calls[step.c]);
    }
  }

  lemma NotOverlappingYet(s: State, step: Step, c: CallId, r: RunId)
    requires Enabled(s, step) && c in Do(s, step).calls && Do(s, step).calls[c].run == r
    requires r in s.data && r in s.runOf.Values
    requires c in s.calls && s.calls[c].run == r ==> !s.calls[c].pc.Missed? && !s.calls[c].pc.Setting?
    ensures !Do(s, step).calls[c].pc.Missed? && !Do(s, step).calls[c].pc.Setting?
  {
    if c in s.calls {
      RunsAreKept(s, step, c);
    }
  }

  lemma RunsAreKept(s: State, step: Step, c: CallId)
    requires Enabled(s, step) && c in s.calls
    ensures c in Do(s, step).calls && Do(s, step).calls[c].run == s.calls[c].run
  {
  }

  lemma NoneOverlapsYet(s: State, step: Step, r: RunId)
    requires Inv(s) && Enabled(s, step) && r in s.data && NoneOverlaps(s, r)
    ensures NoneOverlaps(Do(s, step), r)
  {
    assert s.runOf[s.data[r]] == r;
    forall c | c in Do(s, step).calls && Do(s, step).calls[c].run == r
      ensures !Do(s, step).calls[c].pc.Missed? && !Do(s, step).calls[c].pc.Setting?
    {
      NotOverlappingYet(s, step, c, r);
    }
  }

  lemma EntryStays(s: State, step: Step, r: RunId)
    requires Inv(s) && Enabled(s, step) && r in s.data && r !in s.finished && NoneOverlaps(s, r)
    ensures var s' := Do(s, step); r in s'.data && s'.data[r] == s.data[r] && NoneOverlaps(s', r)
  {
    EntryUndeleted(s, step, r);
    NoneOverlapsYet(s, step, r);
  }

  /** A call for `r` that has only seen `h` goes on seeing only `h`. */
  lemma OneCallSeesOnly(s: State, step: Step, c: CallId, r: RunId, h: HandleId)
    requires Enabled(s, step) && Lookup(s.data, r) == Some(h) && h !in s.done && c in Do(s, step).calls && Do(s, step).calls[c].run == r
    requires c in s.calls ==> s.calls[c].run == r && s.calls[c].pc in {Looking, Found(h), Finished(Existing(h))}
    requires c !in s.calls ==> !step.StartRun?
    ensures Do(s, step).calls[c].pc in {Looking, Found(h), Finished(Existing(h))}
  {
  }

  lemma CallSeesOnly(before: State, s: State, step: Step, r: RunId, h: HandleId)
    requires Inv(s) && Enabled(s, step) && r in s.data && s.data[r] == h && r !in s.finished
    requires SeesOnly(before, s, r, h)
    ensures SeesOnly(before, Do(s, step), r, h)
  {
    assert h !in s.done;
    var s' := Do(s, step);
    forall c | c in s'.calls && c !in before.calls && s'.calls[c].run == r
      ensures s'.calls[c].pc in {Looking, Found(h), Finished(Existing(h))}
    {
      if c in s.calls {
        RunsAreKept(s, step, c);
      }
      OneCallSeesOnly(s, step, c, r, h);
    }
  }

  lemma StableStep(before: State, s: State, step: Step, r: RunId, h: HandleId)
    requires Inv(s) && Enabled(s, step) && r in s.data && s.data[r] == h && r !in s.finished
    requires NoneOverlaps(s, r) && SeesOnly(before, s, r, h) && before.calls.Keys <= s.calls.Keys
    ensures var s' := Do(s, step);
      r in s'.data && s'.data[r] == h && NoneOverlaps(s', r) && SeesOnly(before, s', r, h)
  {
    EntryStays(s, step, r);
    CallSeesOnly(before, s, step, r, h);
  }

  lemma {:induction false} StableRun(before: State, s: State, steps: seq<Step>, r: RunId, h: HandleId)
    requires Inv(s) && CanRun(s, steps) && r in s.data && s.data[r] == h && r !in Run(s, steps).finished
    requires NoneOverlaps(s, r) && SeesOnly(before, s, r, h) && before.calls.Keys <= s.calls.Keys
    ensures var s' := Run(s, steps);
      r in s'.data && s'.data[r] == h && SeesOnly(before, s', r, h)
    decreases |steps|
  {
    FinishedGrowsOnRun(s, steps);
    if steps != [] {
      StableStep(before, s, steps[0], r, h);
      StepKeeps(s, steps[0]);
      FinishedGrows(s, steps[0]);
      StableRun(before, Do(s, steps[0]), steps[1..], r, h);
    }
  }

  /**
    With no overlapping reconnect, a live run keeps its registered handle for as long as it runs,
    and every lookup made in that time that has returned has returned that same handle.
  */
  lemma LookupsOfLiveRunAgree(s: State, steps: seq<Step>, r: RunId, c: CallId)
    requires Reachable(s) && CanRun(s, steps) && r in s.data && NoneOverlaps(s, r) && r !in Run(s, steps).finished
    ensures var s' := Run(s, steps);
      && r in s'.data && s'.data[r] == s.data[r]
      && (c in s'.calls && c !in s.calls && s'.calls[c].run == r && s'.calls[c].pc.Finished? ==>
          s'.calls[c].pc.answer == Existing(s.data[r]))
  {
    ReachableInv(s);
    StableRun(s, s, steps, r, s.data[r]);
  }

  lemma RunCons(s: State, step: Step, rest: seq<Step>)
    ensures CanRun(s, [step] + rest) <==> Enabled(s, step) && CanRun(Do(s, step), rest)
    ensures CanRun(s, [step] + rest) ==> Run(s, [step] + rest) == Run(Do(s, step), rest)
  {
    assert ([step] + rest)[1..] == rest;
  }

  lemma OverlapCanReplace(s: State, r: RunId, c: CallId) returns (steps: seq<Step>)
    requires Inv(s) && r in s.data && r !in s.finished
    requires c in s.calls && s.calls[c].run == r && (s.calls[c].pc.Missed? || s.calls[c].pc.Setting?)
    ensures CanRun(s, steps) && r !in Run(s, steps).finished && Lookup(Run(s, steps).data, r) != Lookup(s.data, r)
  {
    assert s.data[r] in s.everSet;
    if s.calls[c].pc.Setting? {
      assert CallInv(s, s.calls[c]);
      steps := [Set(c)] + [];
      RunCons(s, Set(c), []);
    } else {
      var h := UpperBound(s.runOf.Keys);
      var rest := MissedCanReplace(s, r, c, h);
      steps := [Reconnect(c, h)] + rest;
      RunCons(s, Reconnect(c, h), rest);
    }
  }

  lemma MissedCanReplace(s: State, r: RunId, c: CallId, h: HandleId) returns (steps: seq<Step>)
    requires Inv(s) && r in s.data && r !in s.finished && c in s.calls && s.calls[c] == Call(r, Missed) && h !in s.runOf
    ensures var s' := Do(s, Reconnect(c, h));
      CanRun(s', steps) && r !in Run(s', steps).finished && Lookup(Run(s', steps).data, r) != Lookup(s.data, r)
  {
    var s' := Do(s, Reconnect(c, h));
    assert s.data[r] in s.runOf;
    steps := [Set(c)] + [];
    RunCons(s', Set(c), []);
  }

  /** The registered handle of a live run can still change under it exactly when a reconnect that missed it is in flight. */
  lemma HandleCanChangeIff(s: State, r: RunId)
    requires Reachable(s) && r in s.data && r !in s.finished
    ensures (exists steps :: CanRun(s, steps) && r !in Run(s, steps).finished && Lookup(Run(s, steps).data, r) != Lookup(s.data, r))
      <==> exists c :: c in s.calls && s.calls[c].run == r && (s.calls[c].pc.Missed? || s.calls[c].pc.Setting?)
  {
    ReachableInv(s);
    if c :| c in s.calls && s.calls[c].run == r && (s.calls[c].pc.Missed? || s.calls[c].pc.Setting?) {
      var steps := OverlapCanReplace(s, r, c);
    } else {
      forall steps | CanRun(s, steps) && r !in Run(s, steps).finished ensures Lookup(Run(s, steps).data, r) == Lookup(s.data, r) {
        LookupsOfLiveRunAgree(s, steps, r, 0);
      }
    }
  }

  /** Two reconnects to run "r" that both look before either registers. */
  const REGISTER_BOTH: seq<Step> := [Set(0)] + ([Set(1)] + ([Spawn(0)] + ([Spawn(1)] + [])))
  const CONNECT_BOTH: seq<Step> := [Reconnect(0, 0)] + ([Reconnect(1, 1)] + REGISTER_BOTH)
  const OVERLAP: seq<Step> := [BeginLookup(0, "r")] + ([BeginLookup(1, "r")] + ([Get(0)] + ([Get(1)] + CONNECT_BOTH)))

  const BOTH_MISSED := INITIAL.(calls := map[0 := Call("r", Missed), 1 := Call("r", Missed)])
  const BOTH_SETTING := BOTH_MISSED.(calls := map[0 := Call("r", Setting(0)), 1 := Call("r", Setting(1))], runOf := map[0 := "r", 1 := "r"])

  lemma OverlapRegisters()
    ensures CanRun(BOTH_SETTING, REGISTER_BOTH)
    ensures var s := Run(BOTH_SETTING, REGISTER_BOTH);
      && s.finished == {} && s.calls == map[0 := Call("r", Finished(New(0))), 1 := Call("r", Finished(New(1)))] && s.data == map["r" := 1]
  {
    var s1 := Do(BOTH_SETTING, Set(0));
    var s2 := Do(s1, Set(1));
    var s3 := Do(s2, Spawn(0));
    RunCons(BOTH_SETTING, Set(0), [Set(1)] + ([Spawn(0)] + ([Spawn(1)] + [])));
    RunCons(s1, Set(1), [Spawn(0)] + ([Spawn(1)] + []));
    RunCons(s2, Spawn(0), [Spawn(1)] + []);
    RunCons(s3, Spawn(1), []);
  }

  lemma OverlapConnects()
    ensures CanRun(BOTH_MISSED, CONNECT_BOTH) && CanRun(BOTH_SETTING, REGISTER_BOTH)
    ensures Run(BOTH_MISSED, CONNECT_BOTH) == Run(BOTH_SETTING, REGISTER_BOTH)
  {
    var s1 := Do(BOTH_MISSED, Reconnect(0, 0));
    RunCons(BOTH_MISSED, Reconnect(0, 0), [Reconnect(1, 1)] + REGISTER_BOTH);
    RunCons(s1, Reconnect(1, 1), REGISTER_BOTH);
    assert Do(s1, Reconnect(1, 1)) == BOTH_SETTING;
    OverlapRegisters();
  }

  /** Without that proviso it fails: Get and Set are separate, so overlapping reconnects to one live run return different handles. */
  lemma OverlappingReconnectsDisagree()
    ensures CanRun(INITIAL, OVERLAP)
    ensures var s := Run(INITIAL, OVERLAP);
      && "r" !in s.finished && s.data == map["r" := 1]
      && s.calls == map[0 := Call("r", Finished(New(0))), 1 := Call("r", Finished(New(1)))]
  {
    var s1 := Do(INITIAL, BeginLookup(0, "r"));
    var s2 := Do(s1, BeginLookup(1, "r"));
    var s3 := Do(s2, Get(0));
    RunCons(INITIAL, BeginLookup(0, "r"), [BeginLookup(1, "r")] + ([Get(0)] + ([Get(1)] + CONNECT_BOTH)));
    RunCons(s1, BeginLookup(1, "r"), [Get(0)] + ([Get(1)] + CONNECT_BOTH));
    RunCons(s2, Get(0), [Get(1)] + CONNECT_BOTH);
    RunCons(s3, Get(1), CONNECT_BOTH);
    assert Do(s3, Get(1)) == BOTH_MISSED;
    OverlapConnects();
    OverlapRegisters();
  }

  // ----- what a lookup answers once the run has finished

  /** A call that is about to delete, or has returned, stays where it is until it takes its own step. */
  lemma AnswerStep(s: State, step: Step, c: CallId)
    requires Enabled(s, step) && c in s.calls && (s.calls[c].pc.Deleting? || s.calls[c].pc.Finished?)
    ensures c in Do(s, step).calls && Do(s, step).calls[c].run == s.calls[c].run
    ensures Do(s, step).calls[c].pc == if step == DeleteKey(c) then Finished(AlreadyCompleted) else s.calls[c].pc
    ensures step == DeleteKey(c) ==> s.calls[c].pc.Deleting?
  {
  }

  lemma {:induction false} AnswersOnceAtDelete(s: State, steps: seq<Step>, c: CallId)
    requires CanRun(s, steps) && c in s.calls && (s.calls[c].pc.Deleting? || s.calls[c].pc.Finished?)
    ensures var s' := Run(s, steps);
      && c in s'.calls && s'.calls[c].run == s.calls[c].run
      && (s.calls[c].pc.Finished? ==> s'.calls[c].pc == s.calls[c].pc && DeleteKey(c) !in steps)
      && (s.calls[c].pc.Deleting? ==>
          s'.calls[c].pc == if DeleteKey(c) in steps then Finished(AlreadyCompleted) else Deleting)
    decreases |steps|
  {
    if steps != [] {
      AnswerStep(s, steps[0], c);
      AnswersOnceAtDelete(Do(s, steps[0]), steps[1..], c);
      assert DeleteKey(c) in steps <==> steps[0] == DeleteKey(c) || DeleteKey(c) in steps[1..];
    }
  }

  /**
    What a lookup that found handle `h` answers depends on Done alone, not on whether the run has
    finished. Whatever the others do until it has returned: if `h`'s Done was closed when it
    checked, it deletes the entry and answers that the run already completed; if not, it deletes
    nothing and returns `h`.
  */
  lemma LookupAnswersByDone(s: State, c: CallId, rest: seq<Step>)
    requires Enabled(s, CheckDone(c)) && CanRun(Do(s, CheckDone(c)), rest)
    requires var s' := Run(Do(s, CheckDone(c)), rest); c in s'.calls && s'.calls[c].pc.Finished?
    ensures var h, answer := s.calls[c].pc.h, Run(Do(s, CheckDone(c)), rest).calls[c].pc.answer;
      && (answer == AlreadyCompleted <==> h in s.done)
      && (answer == Existing(h) <==> h !in s.done)
      && (DeleteKey(c) in rest <==> h in s.done)
  {
    AnswersOnceAtDelete(Do(s, CheckDone(c)), rest, c);
  }

  // ----- what a call answers that found nothing, or that started its run

  /** Where a call stands after having missed, or after having been given a handle, by what the runtime said since. */
  ghost predicate AnswersSince(pc: CallPc, c: CallId, steps: seq<Step>) {
    var refused, failed := ReconnectFails(c, true) in steps, ReconnectFails(c, false) in steps;
    && (pc == Finished(AlreadyCompleted) <==> refused)
    && (pc == Finished(LookupError) <==> failed)
    && (forall h :: Carries(pc, h) || pc == Finished(New(h)) <==> Reconnect(c, h) in steps)
    && (pc.Missed? || pc.Setting? || pc.Spawning? || (pc.Finished? && !pc.answer.Existing?))
  }

  /** Past the runtime's answer: one of these program counters leads only to the next. */
  predicate Settles(pc: CallPc, pc': CallPc) {
    match pc
    case Setting(h) => pc' == Setting(h) || pc' == Spawning(h) || pc' == Finished(New(h))
    case Spawning(h) => pc' == Spawning(h) || pc' == Finished(New(h))
    case Finished(_) => pc' == pc
    case _ => false
  }

  /** No later step speaks to this call's lookup. */
  ghost predicate NotAskedAgain(steps: seq<Step>, c: CallId) {
    ReconnectFails(c, true) !in steps && ReconnectFails(c, false) !in steps && forall h :: Reconnect(c, h) !in steps
  }

  lemma SettlesStep(s: State, step: Step, c: CallId)
    requires Enabled(s, step) && c in s.calls && (s.calls[c].pc.Setting? || s.calls[c].pc.Spawning? || s.calls[c].pc.Finished?)
    ensures c in Do(s, step).calls && Settles(s.calls[c].pc, Do(s, step).calls[c].pc)
    ensures step != ReconnectFails(c, true) && step != ReconnectFails(c, false) && forall h :: step != Reconnect(c, h)
  {
  }

  lemma {:induction false} SettlesOnRun(s: State, steps: seq<Step>, c: CallId)
    requires CanRun(s, steps) && c in s.calls && (s.calls[c].pc.Setting? || s.calls[c].pc.Spawning? || s.calls[c].pc.Finished?)
    ensures c in Run(s, steps).calls && Settles(s.calls[c].pc, Run(s, steps).calls[c].pc) && NotAskedAgain(steps, c)
    decreases |steps|
  {
    if steps != [] {
      SettlesStep(s, steps[0], c);
      SettlesOnRun(Do(s, steps[0]), steps[1..], c);
      assert forall x :: x in steps <==> x == steps[0] || x in steps[1..];
    }
  }

  lemma MissedStep(s: State, step: Step, c: CallId)
    requires Enabled(s, step) && c in s.calls && s.calls[c].pc.Missed?
    ensures c in Do(s, step).calls
    ensures Do(s, step).calls[c].pc ==
      match step
      case Reconnect(d, h) => (if d == c then Setting(h) else Missed)
      case ReconnectFails(d, completed) => (if d != c then Missed else if completed then Finished(AlreadyCompleted) else Finished(LookupError))
      case _ => Missed
  {
  }

  lemma AnswersOneStepLater(pc: CallPc, c: CallId, steps: seq<Step>)
    requires steps != [] && AnswersSince(pc, c, steps[1..])
    requires !(steps[0].Reconnect? && steps[0].c == c) && !(steps[0].ReconnectFails? && steps[0].c == c)
    ensures AnswersSince(pc, c, steps)
  {
    assert forall x :: x in steps <==> x == steps[0] || x in steps[1..];
  }

  lemma AnswersAtOnce(pc: CallPc, c: CallId, steps: seq<Step>)
    requires steps != [] && NotAskedAgain(steps[1..], c)
    requires match steps[0]
      case Reconnect(d, h) => d == c && Settles(Setting(h), pc)
      case ReconnectFails(d, completed) => d == c && pc == Finished(if completed then AlreadyCompleted else LookupError)
      case _ => false
    ensures AnswersSince(pc, c, steps)
  {
    assert forall x :: x in steps <==> x == steps[0] || x in steps[1..];
  }

  /**
    What a lookup that found nothing answers, whatever the others do: that the run already completed
    exactly when the runtime said so, the lookup error exactly when the runtime failed otherwise, and
    a new handle exactly when the runtime reconnected with that handle.
  */
  lemma {:induction false} MissedLookupAnswers(s: State, steps: seq<Step>, c: CallId)
    requires CanRun(s, steps) && c in s.calls && s.calls[c].pc.Missed?
    ensures c in Run(s, steps).calls && AnswersSince(Run(s, steps).calls[c].pc, c, steps)
    decreases |steps|
  {
    if steps != [] {
      MissedStep(s, steps[0], c);
      var s' := Do(s, steps[0]);
      if s'.calls[c].pc.Missed? {
        MissedLookupAnswers(s', steps[1..], c);
        AnswersOneStepLater(Run(s, steps).calls[c].pc, c, steps);
      } else {
        SettlesOnRun(s', steps[1..], c);
        AnswersAtOnce(Run(s, steps).calls[c].pc, c, steps);
      }
    }
  }

  /** A call that starts a run answers the handle of that run, and nothing else. */
  lemma StarterAnswersItsHandle(s: State, c: CallId, run: RunId, h: HandleId, rest: seq<Step>)
    requires Enabled(s, StartRun(c, run, h)) && CanRun(Do(s, StartRun(c, run, h)), rest)
    requires var s' := Run(Do(s, StartRun(c, run, h)), rest); c in s'.calls && s'.calls[c].pc.Finished?
    ensures Run(Do(s, StartRun(c, run, h)), rest).calls[c].pc.answer == New(h)
  {
    SettlesOnRun(Do(s, StartRun(c, run, h)), rest, c);
  }

  /** A handle that a call answers is one of the run it asked for. */
  lemma AnswersAreForTheRun(s: State, c: CallId, h: HandleId)
    requires Reachable(s) && c in s.calls && s.calls[c].pc in {Finished(Existing(h)), Finished(New(h))}
    ensures h in s.runOf && s.runOf[h] == s.calls[c].run
  {
    ReachableInv(s);
    assert CallInv(s, s.calls[c]);
  }

  lemma {:induction false} RunsAreKeptOnRun(s: State, steps: seq<Step>, c: CallId)
    requires CanRun(s, steps) && c in s.calls
    ensures c in Run(s, steps).calls && Run(s, steps).calls[c].run == s.calls[c].run
    decreases |steps|
  {
    if steps != [] {
      RunsAreKept(s, steps[0], c);
      RunsAreKeptOnRun(Do(s, steps[0]), steps[1..], c);
    }
  }

  /** And the run it asked for stays the one it was called with. */
  lemma CallsKeepTheirRun(s: State, step: Step, steps: seq<Step>)
    requires Enabled(s, step) && CanRun(Do(s, step), steps)
    ensures match step
      case StartRun(c, run, _) => c in Run(Do(s, step), steps).calls && Run(Do(s, step), steps).calls[c].run == run
      case BeginLookup(c, run) => c in Run(Do(s, step), steps).calls && Run(Do(s, step), steps).calls[c].run == run
      case _ => true
  {
    if step.StartRun? || step.BeginLookup? {
      RunsAreKeptOnRun(Do(s, step), steps, step.c);
    }
  }

  /** However a call comes to answer that the run already completed, the run has finished. */
  lemma CompletedAnswersAreTrue(s: State, c: CallId)
    requires Reachable(s) && c in s.calls && s.calls[c].pc == Finished(AlreadyCompleted)
    ensures s.calls[c].run in s.finished
  {
    ReachableInv(s);
    assert CallInv(s, s.calls[c]);
  }

  /** The delete of such a lookup leaves the run unregistered, and its answer is the completed one. */
  lemma LookupDeletes(s: State, c: CallId)
    requires Reachable(s) && Enabled(s, DeleteKey(c))
    ensures s.calls[c].run in s.finished && s.calls[c].run !in Do(s, DeleteKey(c)).data
    ensures Do(s, DeleteKey(c)).calls[c].pc == Finished(AlreadyCompleted)
  {
    ReachableInv(s);
    assert CallInv(s, s.calls[c]);
  }

  /** For a run that has finished: the lookup clears its entry exactly when Done is closed already when it checks. */
  lemma FinishedRunIsClearedIff(s: State, c: CallId)
    requires Reachable(s) && Enabled(s, CheckDone(c)) && s.calls[c].run in s.finished
    ensures var h, s1 := s.calls[c].pc.h, Do(s, CheckDone(c));
      && h in s.runOf && s.runOf[h] == s.calls[c].run
      && (Enabled(s1, DeleteKey(c)) <==> h in s.done)
      && (h in s.done ==> s.calls[c].run !in Do(s1, DeleteKey(c)).data)
      && (h !in s.done ==> s1.data == s.data && s1.calls[c].pc == Finished(Existing(h)))
  {
    ReachableInv(s);
    assert CallInv(s, s.calls[c]);
  }

  /** Run "r" starts, registers and finishes; before its Done is closed a lookup comes and checks. */
  const FOUND_FINISHED: seq<Step> := [BeginLookup(1, "r")] + ([Get(1)] + ([CheckDone(1)] + []))
  const FINISHED_NOT_DONE: seq<Step> := [StartRun(0, "r", 0)] + ([Set(0)] + ([Spawn(0)] + ([FinishRun("r")] + FOUND_FINISHED)))
  const RUN_FINISHED := INITIAL.(calls := map[0 := Call("r", Finished(New(0)))], runOf := map[0 := "r"], data := map["r" := 0],
    everSet := {0}, waiters := map[0 := AwaitingDone], finished := {"r"})

  lemma LookupOfFinishedRun()
    ensures CanRun(RUN_FINISHED, FOUND_FINISHED)
    ensures var s := Run(RUN_FINISHED, FOUND_FINISHED);
      && s.finished == {"r"} && s.data == map["r" := 0] && 1 in s.calls && s.calls[1].pc == Finished(Existing(0))
  {
    var s1 := Do(RUN_FINISHED, BeginLookup(1, "r"));
    var s2 := Do(s1, Get(1));
    RunCons(RUN_FINISHED, BeginLookup(1, "r"), [Get(1)] + ([CheckDone(1)] + []));
    RunCons(s1, Get(1), [CheckDone(1)] + []);
    RunCons(s2, CheckDone(1), []);
  }

  const RUN_SET := INITIAL.(calls := map[0 := Call("r", Spawning(0))], runOf := map[0 := "r"], data := map["r" := 0], everSet := {0})

  lemma SetRunFinishes()
    ensures CanRun(RUN_SET, [Spawn(0)] + ([FinishRun("r")] + FOUND_FINISHED)) && CanRun(RUN_FINISHED, FOUND_FINISHED)
    ensures Run(RUN_SET, [Spawn(0)] + ([FinishRun("r")] + FOUND_FINISHED)) == Run(RUN_FINISHED, FOUND_FINISHED)
  {
    var s := Do(RUN_SET, Spawn(0));
    RunCons(RUN_SET, Spawn(0), [FinishRun("r")] + FOUND_FINISHED);
    RunCons(s, FinishRun("r"), FOUND_FINISHED);
    assert Do(s, FinishRun("r")) == RUN_FINISHED;
    LookupOfFinishedRun();
  }

  /** A terminal status alone does not clear the entry: the run has finished, and its handle is returned and stays registered. */
  lemma TerminalStatusDoesNotClear()
    ensures CanRun(INITIAL, FINISHED_NOT_DONE)
    ensures var s := Run(INITIAL, FINISHED_NOT_DONE);
      && "r" in s.finished && s.data == map["r" := 0] && 1 in s.calls && s.calls[1].pc == Finished(Existing(0))
  {
    var s := Do(INITIAL, StartRun(0, "r", 0));
    RunCons(INITIAL, StartRun(0, "r", 0), [Set(0)] + ([Spawn(0)] + ([FinishRun("r")] + FOUND_FINISHED)));
    RunCons(s, Set(0), [Spawn(0)] + ([FinishRun("r")] + FOUND_FINISHED));
    assert Do(s, Set(0)) == RUN_SET;
    SetRunFinishes();
    LookupOfFinishedRun();
  }
}
