/**
  What the calls on the bus return and leave behind: a publish its outcome, a subscribe its channel,
  a close function a closed channel, and Close a closed bus.
*/
module EventBusReturns {
  import opened Wrappers
  import opened EventBus
  import opened EventBusSafety
  import opened EventBusDelivery

  // ----- which outcome a publish returns

  /** Where publisher `p` stands, as far as its outcome goes, in a run after it took the lock when the bus was `shut` or open. */
  ghost predicate OutcomeSoFar(s: Bus, p: Pid, shut: bool)
    requires IsPub(s, p)
  {
    match s.procs[p].ppc
    case PWait => false
    case PLocked(_) => s.closed == shut
    case PSend(_, _, _) => !shut
    case PReturn(q, n, outcome) => RightOutcome(s, p, shut, |q|, n, outcome)
    case PDone(q, n, outcome) => RightOutcome(s, p, shut, |q|, n, outcome)
  }

  /** The bus-closed error on a closed bus; otherwise nil after the whole list, or the context error of an ended context before that. */
  ghost predicate RightOutcome(s: Bus, p: Pid, shut: bool, subscribers: nat, n: nat, outcome: Outcome) {
    && (outcome == BusClosed <==> shut)
    && (outcome == Delivered <==> !shut && n == subscribers)
    && (outcome == ContextError ==> p in s.cancelled && n < subscribers)
  }

  lemma OutcomeAtOwnStep(s: Bus, step: Step, shut: bool)
    requires Inv(s) && Enabled(s, step) && PublisherStep(step) && !step.RLock? && OutcomeSoFar(s, step.p, shut)
    ensures IsPub(Do(s, step), step.p) && OutcomeSoFar(Do(s, step), step.p, shut)
  {
    var pr := s.procs[step.p];
    assert ProcInv(pr, s.subs, s.arrays, s.chans, s.closed);
    assert step.ReadHeader? || SliceIn(s.arrays, HeaderIn(s.subs, pr.topic));
    if step.Send? {
      TargetOpen(s, step.p);
    }
  }

  lemma SectionKeepsClosed(s: Bus, step: Step)
    requires Enabled(s, step) && CriticalStep(step) && !step.BeginClose?
    ensures Do(s, step).closed == s.closed && Do(s, step).cancelled == s.cancelled
  {
  }

  lemma OutsideKeepsClosed(s: Bus, step: Step)
    requires Enabled(s, step) && !CriticalStep(step)
    ensures Do(s, step).closed == s.closed && s.cancelled <= Do(s, step).cancelled
  {
  }

  lemma OnlyBeginCloseCloses(s: Bus, step: Step)
    requires Enabled(s, step) && !step.BeginClose?
    ensures Do(s, step).closed == s.closed && s.cancelled <= Do(s, step).cancelled
  {
    if CriticalStep(step) {
      SectionKeepsClosed(s, step);
    } else {
      OutsideKeepsClosed(s, step);
    }
  }

  /** While a publisher holds the read lock nobody closes the bus. */
  lemma ReadersFreezeClosed(s: Bus, step: Step, p: Pid)
    requires LockOk(s) && Enabled(s, step) && IsPub(s, p) && HoldsRead(s.procs[p])
    ensures Do(s, step).closed == s.closed
  {
    assert p in s.readers && s.writer.None?;
    assert forall q :: q in s.procs ==> !HoldsWrite(s.procs[q]);
    if !step.BeginClose? {
      OnlyBeginCloseCloses(s, step);
    }
  }

  lemma CancelledStay(s: Bus, step: Step)
    requires Enabled(s, step)
    ensures s.cancelled <= Do(s, step).cancelled
  {
    if !step.BeginClose? {
      OnlyBeginCloseCloses(s, step);
    }
  }

  lemma OutcomeKept(s: Bus, step: Step, p: Pid, shut: bool)
    requires Inv(s) && Enabled(s, step) && IsPub(s, p) && OutcomeSoFar(s, p, shut)
    ensures IsPub(Do(s, step), p) && OutcomeSoFar(Do(s, step), p, shut)
  {
    PublisherFixed(s, step, p);
    if PublisherStep(step) && step.p == p {
      OutcomeAtOwnStep(s, step, shut);
    } else {
      NotMoved(s, step, p);
      CancelledStay(s, step);
      if HoldsRead(s.procs[p]) {
        ReadersFreezeClosed(s, step, p);
      }
    }
  }

  lemma NotMoved(s: Bus, step: Step, p: Pid)
    requires Enabled(s, step) && IsPub(s, p) && !(PublisherStep(step) && step.p == p)
    ensures IsPub(Do(s, step), p) && Do(s, step).procs[p] == s.procs[p]
  {
    OthersKept(s, step, p);
  }

  lemma {:induction false} OutcomeKeptOnRun(s: Bus, steps: seq<Step>, p: Pid, shut: bool)
    requires Inv(s) && CanRun(s, steps) && IsPub(s, p) && OutcomeSoFar(s, p, shut)
    ensures IsPub(Run(s, steps), p) && OutcomeSoFar(Run(s, steps), p, shut)
    decreases |steps|
  {
    if steps != [] {
      OutcomeKept(s, steps[0], p, shut);
      StepKeeps(s, steps[0]);
      OutcomeKeptOnRun(Do(s, steps[0]), steps[1..], p, shut);
    }
  }

  /**
    Which outcome a publish returns, for every run from the moment it takes the read lock: the
    bus-closed error exactly when the bus was closed then; nil exactly when it was open and every
    subscriber was sent the data; the context error only if its context has ended and some
    subscriber was not reached.
  */
  lemma PublishReturns(pre: seq<Step>, p: Pid, post: seq<Step>)
    requires CanRun(INITIAL, pre) && Enabled(Run(INITIAL, pre), RLock(p)) && CanRun(Do(Run(INITIAL, pre), RLock(p)), post)
    requires var s := Run(Do(Run(INITIAL, pre), RLock(p)), post); IsPub(s, p) && s.procs[p].ppc.PDone?
    ensures var before, s := Run(INITIAL, pre), Run(Do(Run(INITIAL, pre), RLock(p)), post);
      var pc, subscribers := s.procs[p].ppc, Listed(before, before.procs[p].topic);
      && (pc.outcome == BusClosed <==> before.closed)
      && (pc.outcome == Delivered <==> !before.closed && pc.n == |subscribers|)
      && (pc.outcome == ContextError ==> p in s.cancelled && pc.n < |subscribers|)
  {
    var before := Run(INITIAL, pre);
    var locked := Do(before, RLock(p));
    InitialInv();
    RunKeeps(INITIAL, pre);
    StepKeeps(before, RLock(p));
    assert locked.procs[p].ppc == PLocked(Listed(before, before.procs[p].topic));
    OutcomeKeptOnRun(locked, post, p, before.closed);
    PublisherFixedOnRun(locked, post, p);
  }

  // ----- what a subscribe returns

  /** The channel a writer past its critical section will hand out. */
  predicate HandsOut(pc: WritePc, got: Option<ChanId>) {
    pc == WReturn(got) || pc == WDone(got)
  }

  lemma StillHandsOut(s: Bus, step: Step, p: Pid, got: Option<ChanId>)
    requires Enabled(s, step) && IsWr(s, p) && HandsOut(s.procs[p].wpc, got)
    ensures IsWr(Do(s, step), p) && HandsOut(Do(s, step).procs[p].wpc, got)
  {
    if step.Receive? || step.Cancel? || step.p != p {
      OthersKept(s, step, p);
    }
  }

  lemma {:induction false} StillHandsOutOnRun(s: Bus, steps: seq<Step>, p: Pid, got: Option<ChanId>)
    requires CanRun(s, steps) && IsWr(s, p) && HandsOut(s.procs[p].wpc, got)
    ensures IsWr(Run(s, steps), p) && HandsOut(Run(s, steps).procs[p].wpc, got)
    decreases |steps|
  {
    if steps != [] {
      StillHandsOut(s, steps[0], p, got);
      StillHandsOutOnRun(Do(s, steps[0]), steps[1..], p, got);
    }
  }

  /**
    What a subscribe returns, for every run after its critical section: an error exactly when the
    bus was closed, otherwise the one channel it made, which is open, empty and the last its topic
    lists.
  */
  lemma SubscribeReturns(before: Bus, p: Pid, ch: ChanId, arr: ArrId, spare: seq<ChanId>, post: seq<Step>)
    requires Reachable(before) && Enabled(before, Register(p, ch, arr, spare)) && CanRun(Do(before, Register(p, ch, arr, spare)), post)
    requires var s := Run(Do(before, Register(p, ch, arr, spare)), post); IsWr(s, p) && s.procs[p].wpc.WDone?
    ensures var made, s := Do(before, Register(p, ch, arr, spare)), Run(Do(before, Register(p, ch, arr, spare)), post);
      var t := before.procs[p].op.topic;
      && IsWr(s, p) && s.procs[p].wpc.got == (if before.closed then None else Some(ch))
      && (before.closed ==> made.chans == before.chans)
      && (!before.closed ==>
          && ch !in before.chans && ch in made.chans && made.chans[ch] == Channel(t, [], [], [], false)
          && Listed(made, t) == Listed(before, t) + [ch])
  {
    ReachableInv(before);
    var made := Do(before, Register(p, ch, arr, spare));
    assert HandsOut(made.procs[p].wpc, if before.closed then None else Some(ch));
    StillHandsOutOnRun(made, post, p, if before.closed then None else Some(ch));
    if !before.closed {
      ListedAfterRegister(before, p, ch, arr, spare);
    }
  }

  // ----- calls keep what they were called with

  /** The call process `p` is, apart from how far it has come. */
  predicate IsCall(s: Bus, p: Pid, call: Proc) {
    p in s.procs &&
    match s.procs[p]
    case Pub(t, data, _) => call.Pub? && call.topic == t && call.data == data
    case Wr(op, _) => call.Wr? && call.op == op
  }

  lemma CloseKeepsOp(s: Bus, step: Step)
    requires Enabled(s, step) && CloseStep(step)
    ensures IsWr(Do(s, step), step.p) && Do(s, step).procs[step.p].op == s.procs[step.p].op
  {
  }

  lemma SectionKeepsOp(s: Bus, step: Step)
    requires Enabled(s, step) && (step.Register? || step.Splice? || step.CloseOne?)
    ensures IsWr(Do(s, step), step.p) && Do(s, step).procs[step.p].op == s.procs[step.p].op
  {
  }

  lemma LockKeepsOp(s: Bus, step: Step)
    requires Enabled(s, step) && LockStep(step)
    ensures IsWr(Do(s, step), step.p) && Do(s, step).procs[step.p].op == s.procs[step.p].op
  {
  }

  lemma WriterKeepsOp(s: Bus, step: Step)
    requires Enabled(s, step) && (LockStep(step) || CriticalStep(step))
    ensures IsWr(Do(s, step), step.p) && Do(s, step).procs[step.p].op == s.procs[step.p].op
  {
    if CloseStep(step) {
      CloseKeepsOp(s, step);
    } else if CriticalStep(step) {
      SectionKeepsOp(s, step);
    } else {
      LockKeepsOp(s, step);
    }
  }

  lemma CallKept(s: Bus, step: Step, p: Pid, call: Proc)
    requires Enabled(s, step) && IsCall(s, p, call)
    ensures IsCall(Do(s, step), p, call)
  {
    if step.Receive? || step.Cancel? || step.p != p {
      OthersKept(s, step, p);
    } else if PublisherStep(step) {
      OwnStepFixed(s, step);
    } else if LockStep(step) || CriticalStep(step) {
      WriterKeepsOp(s, step);
    }
  }

  lemma {:induction false} CallKeptOnRun(s: Bus, steps: seq<Step>, p: Pid, call: Proc)
    requires CanRun(s, steps) && IsCall(s, p, call)
    ensures IsCall(Run(s, steps), p, call)
    decreases |steps|
  {
    if steps != [] {
      CallKept(s, steps[0], p, call);
      CallKeptOnRun(Do(s, steps[0]), steps[1..], p, call);
    }
  }

  /** A Publish goes on with the topic and data it was called with, a Subscribe with its topic, a close function with the channel its Subscribe returned, in every run. */
  lemma CallsKeepTheirArguments(s: Bus, step: Step, steps: seq<Step>)
    requires Enabled(s, step) && CanRun(Do(s, step), steps)
    ensures var e := Run(Do(s, step), steps);
      match step
      case SpawnPublish(p, t, data) => IsPub(e, p) && e.procs[p].topic == t && e.procs[p].data == data
      case SpawnSubscribe(p, t) => IsWr(e, p) && e.procs[p].op == Subscribe(t)
      case SpawnUnsubscribe(p, o) => IsWr(e, p) && e.procs[p].op == Unsubscribe(s.procs[o].op.topic, s.procs[o].wpc.got.value)
      case SpawnClose(p) => IsWr(e, p) && e.procs[p].op == Close
      case _ => true
  {
    match step
    case SpawnPublish(p, t, data) => CallKeptOnRun(Do(s, step), steps, p, Pub(t, data, PWait));
    case SpawnSubscribe(p, t) => CallKeptOnRun(Do(s, step), steps, p, Wr(Subscribe(t), WWait));
    case SpawnUnsubscribe(p, o) =>
      CallKeptOnRun(Do(s, step), steps, p, Wr(Unsubscribe(s.procs[o].op.topic, s.procs[o].wpc.got.value), WWait));
    case SpawnClose(p) => CallKeptOnRun(Do(s, step), steps, p, Wr(Close, WWait));
    case _ =>
  }

  // ----- what a close function and Close leave behind

  predicate PastSection(pc: WritePc) {
    pc.WReturn? || pc.WDone?
  }

  /** What a writer past its critical section has achieved. */
  predicate Achieved(s: Bus, op: WriteOp) {
    match op
    case Subscribe(_) => true
    case Unsubscribe(_, ch) => ch in s.chans && s.chans[ch].closed
    case Close => s.closed
  }

  ghost predicate ReturnsInv(s: Bus) {
    forall p :: p in s.procs && s.procs[p].Wr? && PastSection(s.procs[p].wpc) ==> Achieved(s, s.procs[p].op)
  }

  /** Closed stays closed, channel by channel and for the bus. */
  ghost predicate StaysShut(s: Bus, s': Bus) {
    && (s.closed ==> s'.closed)
    && (forall c :: c in s.chans && s.chans[c].closed ==> c in s'.chans && s'.chans[c].closed)
  }

  lemma CloseNextStaysShut(s: Bus, p: Pid)
    requires Enabled(s, CloseNext(p))
    ensures StaysShut(s, DoCloseNext(s, p))
  {
  }

  lemma CloseStaysShut(s: Bus, step: Step)
    requires Enabled(s, step) && CloseStep(step)
    ensures StaysShut(s, Do(s, step))
  {
    match step
    case CloseNext(p) => CloseNextStaysShut(s, p);
    case BeginClose(_) =>
    case PickTopic(_, _) =>
    case EndClose(_) =>
  }

  lemma SectionStaysShut(s: Bus, step: Step)
    requires Enabled(s, step) && (step.Register? || step.Splice? || step.CloseOne?)
    ensures StaysShut(s, Do(s, step))
  {
  }

  lemma PublisherStaysShut(s: Bus, step: Step)
    requires Enabled(s, step) && PublisherStep(step)
    ensures StaysShut(s, Do(s, step))
  {
  }

  lemma OutsideStaysShut(s: Bus, step: Step)
    requires Enabled(s, step) && !CriticalStep(step) && !PublisherStep(step)
    ensures StaysShut(s, Do(s, step))
  {
  }

  lemma StepStaysShut(s: Bus, step: Step)
    requires Enabled(s, step)
    ensures StaysShut(s, Do(s, step))
  {
    if CloseStep(step) {
      CloseStaysShut(s, step);
    } else if CriticalStep(step) {
      SectionStaysShut(s, step);
    } else if PublisherStep(step) {
      PublisherStaysShut(s, step);
    } else {
      OutsideStaysShut(s, step);
    }
  }

  /** A close function that finds nothing to do finds its channel closed already. */
  lemma IdleSpliceFindsClosed(s: Bus, p: Pid)
    requires Inv(s) && Enabled(s, Splice(p)) && !DoSplice(s, p).procs[p].wpc.WSpliced?
    ensures Achieved(s, s.procs[p].op) && DoSplice(s, p).chans == s.chans
  {
    InCritical(s, p);
    var op := s.procs[p].op;
    assert PhaseOf(s) == Whole;
    assert [op.ch][0] in s.chans && s.chans[[op.ch][0]].topic == op.topic;
    assert !s.chans[op.ch].closed <==> Owned(Whole, s.subs, s.arrays, op.topic, op.ch);
  }

  lemma CloseOneAchieves(s: Bus, p: Pid)
    requires Inv(s) && Enabled(s, CloseOne(p))
    ensures Achieved(Do(s, CloseOne(p)), s.procs[p].op)
  {
    StepKeeps(s, CloseOne(p));
    assert !Do(s, CloseOne(p)).panicked;
  }

  lemma CloseAchieves(s: Bus, step: Step)
    requires Inv(s) && Enabled(s, step) && (step.BeginClose? || step.EndClose?)
    ensures Do(s, step).closed && IsWr(Do(s, step), step.p) && Do(s, step).procs[step.p].op == s.procs[step.p].op && s.procs[step.p].op == Close
  {
    InCritical(s, step.p);
  }

  /** The writer that takes its last step in the critical section. */
  lemma SectionAchieves(s: Bus, step: Step)
    requires Inv(s) && Enabled(s, step) && CriticalStep(step)
    requires IsWr(Do(s, step), step.p) && PastSection(Do(s, step).procs[step.p].wpc)
    ensures Achieved(Do(s, step), Do(s, step).procs[step.p].op)
  {
    WriterKeepsOp(s, step);
    if step.Splice? {
      IdleSpliceFindsClosed(s, step.p);
    } else if step.CloseOne? {
      CloseOneAchieves(s, step.p);
    } else if step.BeginClose? || step.EndClose? {
      CloseAchieves(s, step);
    } else {
      OthersAchieveNothingMore(s, step);
    }
  }

  /** A Subscribe promises nothing here, and a Close is not past its section while it closes. */
  lemma OthersAchieveNothingMore(s: Bus, step: Step)
    requires Enabled(s, step) && (step.Register? || step.PickTopic? || step.CloseNext?)
    ensures step.Register? ==> s.procs[step.p].op.Subscribe?
    ensures !step.Register? ==> IsWr(Do(s, step), step.p) && !PastSection(Do(s, step).procs[step.p].wpc)
  {
  }

  lemma NotYetPast(s: Bus, step: Step, p: Pid)
    requires Enabled(s, step) && !(CriticalStep(step) && step.p == p) && IsWr(Do(s, step), p) && PastSection(Do(s, step).procs[p].wpc)
    ensures IsWr(s, p) && PastSection(s.procs[p].wpc) && s.procs[p].op == Do(s, step).procs[p].op
  {
    if step.Receive? || step.Cancel? || step.p != p {
      OthersKept(s, step, p);
    } else if PublisherStep(step) {
      PublisherMovesOneProc(s, step);
    } else if LockStep(step) {
      WriterKeepsOp(s, step);
    }
  }

  lemma ReturnsKept(s: Bus, step: Step)
    requires Inv(s) && ReturnsInv(s) && Enabled(s, step)
    ensures ReturnsInv(Do(s, step))
  {
    var s' := Do(s, step);
    StepStaysShut(s, step);
    forall p | p in s'.procs && s'.procs[p].Wr? && PastSection(s'.procs[p].wpc) ensures Achieved(s', s'.procs[p].op) {
      if CriticalStep(step) && step.p == p {
        SectionAchieves(s, step);
      } else {
        NotYetPast(s, step, p);
      }
    }
  }

  lemma {:induction false} ReturnsKeptOnRun(s: Bus, steps: seq<Step>)
    requires Inv(s) && ReturnsInv(s) && CanRun(s, steps)
    ensures ReturnsInv(Run(s, steps))
    decreases |steps|
  {
    if steps != [] {
      ReturnsKept(s, steps[0]);
      StepKeeps(s, steps[0]);
      ReturnsKeptOnRun(Do(s, steps[0]), steps[1..]);
    }
  }

  /**
    In every reachable state: a close function that has returned has left its channel closed, whether
    it closed it itself or found the bus closed or the channel gone; a Close that has returned has
    left the bus closed.
  */
  lemma ReturnedHasClosed(s: Bus, p: Pid)
    requires Reachable(s) && IsWr(s, p) && s.procs[p].wpc.WDone?
    ensures s.procs[p].op.Unsubscribe? ==> s.procs[p].op.ch in s.chans && s.chans[s.procs[p].op.ch].closed
    ensures s.procs[p].op.Close? ==> s.closed
  {
    var steps :| CanRun(INITIAL, steps) && Run(INITIAL, steps) == s;
    InitialInv();
    ReturnsKeptOnRun(INITIAL, steps);
  }
}
