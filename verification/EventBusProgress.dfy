/**
  Progress of the event bus: exactly when nothing can move, and why a waiting writer gets the lock
  after a bounded number of steps of the publishers ahead of it.
*/
module EventBusProgress {
  import opened Wrappers
  import opened FiniteSums
  import opened EventBus
  import opened EventBusSafety
  import opened EventBusDelivery

  /** A step of a bus operation, as opposed to a new call, a cancelled context or a receive. */
  predicate BusStep(step: Step) {
    !EnvironmentStep(step)
  }

  predicate Returned(pr: Proc) {
    (pr.Pub? && pr.ppc.PDone?) || (pr.Wr? && pr.wpc.WDone?)
  }

  /** Before the first attempt at the mutex. */
  predicate Waiting(pr: Proc) {
    (pr.Pub? && pr.ppc.PWait?) || (pr.Wr? && pr.wpc.WWait?)
  }

  /** Held up in the select: the target's buffer is full and the context is alive. */
  predicate BlockedSend(s: Bus, p: Pid) {
    AtSend(s, p) && !s.chans[Target(s, p)].closed && Full(s.chans[Target(s, p)]) && p !in s.cancelled
  }

  ghost predicate CanMove(s: Bus) {
    exists step :: BusStep(step) && Enabled(s, step)
  }

  // ----- exactly when the bus is stuck

  lemma LockedMoves(s: Bus, p: Pid)
    requires IsWr(s, p) && s.procs[p].wpc.WLocked?
    ensures CanMove(s)
  {
    match s.procs[p].op
    case Subscribe(_) =>
      var ch := UpperBound(s.chans.Keys);
      var arr := UpperBound(s.arrays.Keys);
      assert Enabled(s, Register(p, ch, arr, []));
    case Unsubscribe(_, _) => assert Enabled(s, Splice(p));
    case Close => assert Enabled(s, BeginClose(p));
  }

  lemma ClosingMoves(s: Bus, p: Pid)
    requires SliceInv(s.subs, s.arrays, s.chans) && IsWr(s, p) && s.procs[p].wpc.WClosing?
    requires ProcInv(s.procs[p], s.subs, s.arrays, s.chans, s.closed)
    ensures CanMove(s)
  {
    var pc := s.procs[p].wpc;
    if pc.i < pc.slice.len {
      assert OfTopic(s.chans, ListedIn(s.subs, s.arrays, pc.cur.value), pc.cur.value);
      assert s.arrays[pc.slice.arr][pc.i] == ListedIn(s.subs, s.arrays, pc.cur.value)[pc.i];
      assert Enabled(s, CloseNext(p));
    } else if pc.todo == {} {
      assert Enabled(s, EndClose(p));
    } else {
      var t :| t in pc.todo;
      assert Enabled(s, PickTopic(p, t));
    }
  }

  lemma WriterMoves(s: Bus, p: Pid)
    requires Inv(s) && s.writer == Some(p)
    ensures CanMove(s)
  {
    var op, pc := s.procs[p].op, s.procs[p].wpc;
    assert ProcInv(s.procs[p], s.subs, s.arrays, s.chans, s.closed);
    match pc
    case WLocked => LockedMoves(s, p);
    case WSpliced =>
      assert [op.ch][0] in s.chans;
      assert Enabled(s, CloseOne(p));
    case WClosing(_, _, _, _) => ClosingMoves(s, p);
    case WReturn(_) => assert Enabled(s, Unlock(p));
  }

  lemma ReaderMoves(s: Bus, p: Pid)
    requires Inv(s) && p in s.readers && !BlockedSend(s, p)
    ensures CanMove(s)
  {
    var pr := s.procs[p];
    assert ProcInv(pr, s.subs, s.arrays, s.chans, s.closed);
    match pr.ppc
    case PLocked(_) => assert Enabled(s, ReadHeader(p));
    case PSend(q, sl, n) =>
      if n < sl.len {
        assert OfTopic(s.chans, ListedIn(s.subs, s.arrays, pr.topic), pr.topic);
        assert Target(s, p) == ListedIn(s.subs, s.arrays, pr.topic)[n];
        assert AtSend(s, p);
        if p in s.cancelled { assert Enabled(s, GiveUp(p)); } else { assert Enabled(s, Send(p)); }
      } else {
        assert Enabled(s, Finish(p));
      }
    case PReturn(_, _, _) => assert Enabled(s, RUnlock(p));
  }

  lemma WaitingMoves(s: Bus, p: Pid)
    requires p in s.procs && Waiting(s.procs[p]) && s.writer.None? && s.pending.None?
    ensures CanMove(s)
  {
    if s.procs[p].Pub? { assert Enabled(s, RLock(p)); } else { assert Enabled(s, Announce(p)); }
  }

  /** Publishers hold the read lock at full channels, and whoever else waits is held back by an announced writer. */
  ghost predicate HeldByFullChannels(s: Bus) {
    && s.readers != {}
    && (forall p :: p in s.readers ==> BlockedSend(s, p))
    && (forall p :: p in s.procs && Waiting(s.procs[p]) ==> s.pending.Some?)
  }

  lemma HeldMeansStuck(s: Bus, step: Step)
    requires Inv(s) && HeldByFullChannels(s) && BusStep(step)
    ensures !Enabled(s, step)
  {
    assert s.writer.None?;
    if step.p in s.procs {
      var pr := s.procs[step.p];
      assert !HoldsWrite(pr);
      assert !HoldsRead(pr) || BlockedSend(s, step.p);
    }
  }

  lemma IdleBusIsStuck(s: Bus, step: Step)
    requires Inv(s) && BusStep(step) && forall p :: p in s.procs ==> Returned(s.procs[p])
    ensures !Enabled(s, step)
  {
    assert step.p !in s.procs || Returned(s.procs[step.p]);
  }

  /** Nobody holds the mutex and not every call has returned. */
  lemma FreeBusMoves(s: Bus, p: Pid)
    requires Inv(s) && s.writer.None? && s.readers == {} && p in s.procs && !Returned(s.procs[p])
    ensures CanMove(s)
  {
    if s.pending.Some? {
      assert Enabled(s, Acquire(s.pending.value));
    } else {
      assert !HoldsRead(s.procs[p]) && !HoldsWrite(s.procs[p]) && !IsAnnounced(s.procs[p]);
      WaitingMoves(s, p);
    }
  }

  /** Publishers hold the read lock, and not all of them are blocked or someone waits without an announced writer. */
  lemma ReadBusMoves(s: Bus)
    requires Inv(s) && s.writer.None? && s.readers != {} && !HeldByFullChannels(s)
    ensures CanMove(s)
  {
    if p :| p in s.readers && !BlockedSend(s, p) {
      ReaderMoves(s, p);
    } else {
      var p :| p in s.procs && Waiting(s.procs[p]) && s.pending.None?;
      WaitingMoves(s, p);
    }
  }

  lemma UnreturnedMoves(s: Bus, p: Pid)
    requires Inv(s) && p in s.procs && !Returned(s.procs[p]) && !HeldByFullChannels(s)
    ensures CanMove(s)
  {
    if s.writer.Some? {
      WriterMoves(s, s.writer.value);
    } else if s.readers != {} {
      ReadBusMoves(s);
    } else {
      FreeBusMoves(s, p);
    }
  }

  /**
    The bus stands still in exactly two kinds of reachable state: every call has returned, or some
    publishers hold the read lock at channels whose 64 slots are taken, with their contexts alive,
    and everyone else waits behind an announced writer.
  */
  lemma StuckIff(s: Bus)
    requires Reachable(s)
    ensures !CanMove(s) <==> (forall p :: p in s.procs ==> Returned(s.procs[p])) || HeldByFullChannels(s)
  {
    ReachableInv(s);
    if HeldByFullChannels(s) {
      forall step | BusStep(step) ensures !Enabled(s, step) { HeldMeansStuck(s, step); }
    } else if p :| p in s.procs && !Returned(s.procs[p]) {
      UnreturnedMoves(s, p);
    } else {
      forall step | BusStep(step) ensures !Enabled(s, step) { IdleBusIsStuck(s, step); }
    }
  }

  /**
    If every subscriber with something buffered can receive, no call is left hanging: in every
    reachable state with an unfinished call a bus step is enabled, or one receive makes one so.
  */
  lemma ReceivingUnblocks(s: Bus)
    requires Reachable(s) && exists p :: p in s.procs && !Returned(s.procs[p])
    ensures CanMove(s) || exists c :: Enabled(s, Receive(c)) && CanMove(Do(s, Receive(c)))
  {
    StuckIff(s);
    if !CanMove(s) {
      var p :| p in s.readers;
      ReceiveFreesSlot(s, p);
    }
  }

  lemma ReceiveFreesSlot(s: Bus, p: Pid)
    requires Reachable(s) && BlockedSend(s, p)
    ensures Enabled(s, Receive(Target(s, p))) && CanMove(Do(s, Receive(Target(s, p))))
  {
    ChannelsAreBoundedQueues(s, Target(s, p));
    assert Enabled(Do(s, Receive(Target(s, p))), Send(p));
  }

  /** An ended context frees a blocked publisher too: it can return the context error without any receive. */
  lemma CancelUnblocks(s: Bus, p: Pid)
    requires AtSend(s, p)
    ensures Enabled(s, Cancel(p)) && CanRun(Do(s, Cancel(p)), [GiveUp(p), RUnlock(p)])
    ensures var s' := Run(Do(s, Cancel(p)), [GiveUp(p), RUnlock(p)]);
      && IsPub(s', p) && s'.procs[p].ppc == PDone(s.procs[p].ppc.atLock, s.procs[p].ppc.n, ContextError) && p !in s'.readers
      && s'.chans == s.chans
  {
    var s1 := Do(s, Cancel(p));
    var s2 := Do(s1, GiveUp(p));
    var s3 := Do(s2, RUnlock(p));
    var steps := [GiveUp(p), RUnlock(p)];
    assert steps[1..] == [RUnlock(p)] && [RUnlock(p)][1..] == [];
    assert CanRun(s3, []) && Run(s3, []) == s3;
    assert CanRun(s2, [RUnlock(p)]) && Run(s2, [RUnlock(p)]) == s3;
    assert CanRun(s1, steps) && Run(s1, steps) == s3;
  }

  // ----- a waiting writer is not starved

  /** Steps a publisher inside its read section has left at most. */
  function ReadWork(pc: PubPc): nat {
    match pc
    case PLocked(q) => |q| + 3
    case PSend(q, _, n) => if n <= |q| then |q| - n + 2 else 2
    case PReturn(_, _, _) => 1
    case _ => 0
  }

  function ReaderWeight(s: Bus): Pid -> nat {
    (p: Pid) => if IsPub(s, p) then ReadWork(s.procs[p].ppc) else 0
  }

  /** Steps that all publishers inside their read sections have left at most. */
  ghost function ReadersWork(s: Bus): nat {
    Sum(s.readers, ReaderWeight(s))
  }

  lemma SendAdvances(s: Bus, p: Pid)
    requires Inv(s) && Enabled(s, Send(p))
    ensures ReaderWeight(Do(s, Send(p)))(p) < ReaderWeight(s)(p) && p in Do(s, Send(p)).readers
  {
    TargetOpen(s, p);
  }

  lemma OnlyReadersMove(s: Bus, step: Step, w: Pid)
    requires LockOk(s) && s.pending == Some(w) && Enabled(s, step) && BusStep(step) && Do(s, step).pending == Some(w)
    ensures PublisherStep(step) && step.p in s.readers && !step.RLock?
  {
    assert s.writer.None?;
    assert CriticalStep(step) || step.Unlock? ==> HoldsWrite(s.procs[step.p]);
    assert PublisherStep(step) && !step.RLock? ==> HoldsRead(s.procs[step.p]);
  }

  lemma PublisherMovesOnlyItself(s: Bus, step: Step)
    requires Inv(s) && Enabled(s, step) && PublisherStep(step) && !step.RLock?
    ensures var s', p := Do(s, step), step.p;
      && s'.readers == (if step.RUnlock? then s.readers - {p} else s.readers)
      && (forall q :: q in s.procs && q != p ==> q in s'.procs && s'.procs[q] == s.procs[q])
      && s'.procs.Keys == s.procs.Keys
  {
    if step.Send? {
      TargetOpen(s, step.p);
    }
  }

  lemma QuietReaderUsesUpWork(s: Bus, step: Step)
    requires ProcsOk(s) && Enabled(s, step) && PublisherStep(step) && !step.RLock? && !step.Send?
    ensures ReaderWeight(Do(s, step))(step.p) < ReaderWeight(s)(step.p)
  {
    assert ProcInv(s.procs[step.p], s.subs, s.arrays, s.chans, s.closed);
  }

  lemma ReaderUsesUpWork(s: Bus, step: Step)
    requires Inv(s) && Enabled(s, step) && PublisherStep(step) && !step.RLock?
    ensures ReaderWeight(Do(s, step))(step.p) < ReaderWeight(s)(step.p)
  {
    if step.Send? {
      SendAdvances(s, step.p);
    } else {
      QuietReaderUsesUpWork(s, step);
    }
  }

  /** One step of a publisher inside its read section. */
  lemma ReaderAdvances(s: Bus, step: Step)
    requires Inv(s) && Enabled(s, step) && PublisherStep(step) && !step.RLock?
    ensures var s', p := Do(s, step), step.p;
      && ReaderWeight(s')(p) < ReaderWeight(s)(p) && s'.readers == (if step.RUnlock? then s.readers - {p} else s.readers)
      && (forall q :: q in s.readers && q != p ==> ReaderWeight(s')(q) == ReaderWeight(s)(q))
  {
    ReaderUsesUpWork(s, step);
    PublisherMovesOnlyItself(s, step);
  }

  /** While a writer is announced, the only bus steps besides its own are those of publishers already inside, and each uses up work. */
  lemma ReadersAdvance(s: Bus, step: Step, w: Pid)
    requires Inv(s) && s.pending == Some(w) && Enabled(s, step) && BusStep(step) && Do(s, step).pending == Some(w)
    ensures PublisherStep(step) && step.p in s.readers
    ensures ReadersWork(Do(s, step)) < ReadersWork(s)
  {
    OnlyReadersMove(s, step, w);
    ReaderAdvances(s, step);
    LessWork(s, Do(s, step), step.p);
  }

  lemma LessWork(s: Bus, s': Bus, p: Pid)
    requires p in s.readers && ReaderWeight(s')(p) < ReaderWeight(s)(p)
    requires s'.readers == s.readers || s'.readers == s.readers - {p}
    requires forall q :: q in s.readers && q != p ==> ReaderWeight(s')(q) == ReaderWeight(s)(q)
    ensures ReadersWork(s') < ReadersWork(s)
  {
    SumBelow(s.readers, ReaderWeight(s'), ReaderWeight(s), p);
    SumRemove(s.readers, ReaderWeight(s'), p);
  }

  /** Newly arriving calls, cancelled contexts and receives give the publishers inside no new work. */
  lemma EnvironmentAddsNoWork(s: Bus, step: Step)
    requires Inv(s) && Enabled(s, step) && EnvironmentStep(step)
    ensures Do(s, step).pending == s.pending && ReadersWork(Do(s, step)) <= ReadersWork(s)
  {
    var s' := Do(s, step);
    assert s'.readers == s.readers;
    forall q | q in s.readers ensures ReaderWeight(s')(q) == ReaderWeight(s)(q) {
      assert s'.procs[q] == s.procs[q];
    }
    SumAtMost(s.readers, ReaderWeight(s'), ReaderWeight(s));
  }

  /** Through the whole run writer `w` stays announced and waiting. */
  predicate KeepsWaiting(s: Bus, steps: seq<Step>, w: Pid)
    requires CanRun(s, steps)
    decreases |steps|
  {
    s.pending == Some(w) && (steps == [] || KeepsWaiting(Do(s, steps[0]), steps[1..], w))
  }

  function BusSteps(steps: seq<Step>): nat {
    if steps == [] then 0 else (if BusStep(steps[0]) then 1 else 0) + BusSteps(steps[1..])
  }

  lemma {:induction false} WaitIsBounded(s: Bus, steps: seq<Step>, w: Pid)
    requires Inv(s) && CanRun(s, steps) && KeepsWaiting(s, steps, w)
    ensures BusSteps(steps) + ReadersWork(Run(s, steps)) <= ReadersWork(s)
    decreases |steps|
  {
    if steps != [] {
      var s' := Do(s, steps[0]);
      assert s'.pending == Some(w);
      if BusStep(steps[0]) {
        ReadersAdvance(s, steps[0], w);
      } else {
        EnvironmentAddsNoWork(s, steps[0]);
      }
      StepKeeps(s, steps[0]);
      WaitIsBounded(s', steps[1..], w);
    }
  }

  /**
    No starvation. Once an unsubscribe or Close is waiting for the lock, at most `ReadersWork(s)`
    further bus steps happen before it gets it, however many new publishers arrive; and as soon as
    the publishers inside have used up their work it can take it.
  */
  lemma WriterIsNotStarved(s: Bus, steps: seq<Step>, w: Pid)
    requires Reachable(s) && CanRun(s, steps) && KeepsWaiting(s, steps, w)
    ensures BusSteps(steps) <= ReadersWork(s)
    ensures BusSteps(steps) == ReadersWork(s) ==> Enabled(Run(s, steps), Acquire(w))
  {
    ReachableInv(s);
    WaitIsBounded(s, steps, w);
    RunKeeps(s, steps);
    StillWaiting(s, steps, w);
    if ReadersWork(Run(s, steps)) == 0 {
      WorklessLockIsFree(Run(s, steps), w);
    }
  }

  lemma ReadersHaveWork(s: Bus, p: Pid)
    requires LockOk(s) && p in s.readers
    ensures 0 < ReaderWeight(s)(p) <= ReadersWork(s)
  {
    SumRemove(s.readers, ReaderWeight(s), p);
  }

  /** When the publishers inside have no work left there are none, and the announced writer can have the lock. */
  lemma WorklessLockIsFree(e: Bus, w: Pid)
    requires LockOk(e) && e.pending == Some(w) && ReadersWork(e) == 0
    ensures Enabled(e, Acquire(w))
  {
    forall p | p in e.readers ensures false {
      ReadersHaveWork(e, p);
    }
  }

  lemma {:induction false} StillWaiting(s: Bus, steps: seq<Step>, w: Pid)
    requires CanRun(s, steps) && KeepsWaiting(s, steps, w)
    ensures Run(s, steps).pending == Some(w)
    decreases |steps|
  {
    if steps != [] {
      StillWaiting(Do(s, steps[0]), steps[1..], w);
    }
  }
}
