/**
  The whole bus runs dry: with no new calls, the steps of any run are bounded by what the calls
  under way have left to do, and a run that cannot go on has every call returned.
*/
module EventBusBound {
  import opened Wrappers
  import opened FiniteSums
  import opened EventBus
  import opened EventBusSafety
  import opened EventBusDelivery
  import opened EventBusProgress

  // ----- how long lists and the topic map can get

  /** A Subscribe that may still make a channel. */
  predicate Subscribing(pr: Proc) {
    pr.Wr? && pr.op.Subscribe? && (pr.wpc.WWait? || pr.wpc.WAnnounced? || pr.wpc.WLocked?)
  }

  ghost function Subscribers(s: Bus): set<Pid> {
    set p | p in s.procs && Subscribing(s.procs[p])
  }

  /** However the calls under way go on, there will be at most `n` channels and at most `n` topics. */
  ghost predicate Room(s: Bus, n: nat) {
    |s.chans.Keys| + |Subscribers(s)| <= n && |s.subs.Keys| + |Subscribers(s)| <= n
  }

  predicate NewCall(step: Step) {
    step.SpawnPublish? || step.SpawnSubscribe? || step.SpawnUnsubscribe? || step.SpawnClose?
  }

  lemma NobodyStartsSubscribing(s: Bus, step: Step)
    requires Enabled(s, step) && !NewCall(step)
    ensures Subscribers(Do(s, step)) <= Subscribers(s)
  {
    forall p | p in Subscribers(Do(s, step)) ensures p in Subscribers(s) {
      if step.Receive? || step.Cancel? || step.p != p {
        OthersKept(s, step, p);
      } else {
        OwnSubscribing(s, step);
      }
    }
  }

  lemma OwnSubscribing(s: Bus, step: Step)
    requires Enabled(s, step) && BusStep(step) && step.p in Do(s, step).procs && Subscribing(Do(s, step).procs[step.p])
    ensures step.p in s.procs && Subscribing(s.procs[step.p])
  {
    if PublisherStep(step) {
      PublisherMovesOneProc(s, step);
    } else if CloseStep(step) {
      CloseMovesOneProc(s, step);
    }
  }

  lemma RegisterKeys(s: Bus, p: Pid, ch: ChanId, arr: ArrId, spare: seq<ChanId>)
    requires Enabled(s, Register(p, ch, arr, spare))
    ensures var s', t := DoRegister(s, p, ch, arr, spare), s.procs[p].op.topic;
      && s'.chans.Keys <= s.chans.Keys + {ch} && s'.subs.Keys <= s.subs.Keys + {t}
      && p in s'.procs && !Subscribing(s'.procs[p]) && Subscribing(s.procs[p])
  {
  }

  lemma OneSubscriberLess(s: Bus, step: Step)
    requires Enabled(s, step) && step.Register?
    ensures |Subscribers(Do(s, step))| < |Subscribers(s)|
  {
    RegisterKeys(s, step.p, step.ch, step.arr, step.spare);
    NobodyStartsSubscribing(s, step);
    assert step.p in Subscribers(s);
    SmallerSet(Subscribers(Do(s, step)), Subscribers(s) - {step.p});
  }

  lemma RegisterKeepsRoom(s: Bus, step: Step, n: nat)
    requires Enabled(s, step) && step.Register? && Room(s, n)
    ensures Room(Do(s, step), n)
  {
    var s', t := Do(s, step), s.procs[step.p].op.topic;
    RegisterKeys(s, step.p, step.ch, step.arr, step.spare);
    OneSubscriberLess(s, step);
    SmallerSet(s'.chans.Keys, s.chans.Keys + {step.ch});
    SmallerSet(s'.subs.Keys, s.subs.Keys + {t});
  }

  lemma StepKeepsRoom(s: Bus, step: Step, n: nat)
    requires Enabled(s, step) && !NewCall(step) && Room(s, n)
    ensures Room(Do(s, step), n)
  {
    if step.Register? {
      RegisterKeepsRoom(s, step, n);
    } else {
      if !step.Send? && !step.Receive? {
        QueuesStand(s, step);
      }
      NobodyStartsSubscribing(s, step);
      SmallerSet(Subscribers(Do(s, step)), Subscribers(s));
      SmallerSet(Do(s, step).subs.Keys, s.subs.Keys);
    }
  }

  lemma {:induction false} DistinctLength(q: seq<ChanId>, ids: set<ChanId>)
    requires Distinct(q) && forall k :: 0 <= k < |q| ==> q[k] in ids
    ensures |q| <= |ids|
    decreases |q|
  {
    if q != [] {
      DistinctLength(q[1..], ids - {q[0]});
    }
  }

  lemma ListsFit(s: Bus, t: Topic, n: nat)
    requires SliceInv(s.subs, s.arrays, s.chans) && |s.chans.Keys| <= n
    ensures |Listed(s, t)| == Header(s, t).len <= n
  {
    var q := ListedIn(s.subs, s.arrays, t);
    assert OfTopic(s.chans, q, t) && Distinct(q);
    DistinctLength(q, s.chans.Keys);
  }

  // ----- what a call has left to do

  /** Closing the channels of `k` topics, and picking each topic. */
  function TopicsWork(k: nat, n: nat): nat {
    if k == 0 then 0 else n + 1 + TopicsWork(k - 1, n)
  }

  lemma {:induction false} MoreTopicsMoreWork(j: nat, k: nat, n: nat)
    requires j <= k
    ensures TopicsWork(j, n) <= TopicsWork(k, n)
  {
    if j < k {
      MoreTopicsMoreWork(j, k - 1, n);
    }
  }

  /** Steps an operation has left at most when it has just got the lock. */
  function LockedWork(op: WriteOp, n: nat): nat {
    match op
    case Subscribe(_) => 2
    case Unsubscribe(_, _) => 3
    case Close => TopicsWork(n, n) + 3
  }

  function WriterWork(op: WriteOp, pc: WritePc, n: nat): nat {
    match pc
    case WWait => LockedWork(op, n) + 2
    case WAnnounced => LockedWork(op, n) + 1
    case WLocked => LockedWork(op, n)
    case WSpliced => 2
    case WClosing(todo, _, sl, i) => TopicsWork(|todo|, n) + (if i <= sl.len then sl.len - i else 0) + 2
    case WReturn(_) => 1
    case WDone(_) => 0
  }

  /** Steps a call has left at most while no list or topic map is longer than `n`. */
  function CallWork(pr: Proc, n: nat): nat {
    match pr
    case Pub(_, _, pc) => if pc.PWait? then n + 4 else ReadWork(pc)
    case Wr(op, pc) => WriterWork(op, pc, n)
  }

  function Weight(s: Bus, n: nat): Pid -> nat {
    (p: Pid) => if p in s.procs then CallWork(s.procs[p], n) else 0
  }

  ghost function CallsWork(s: Bus, n: nat): nat {
    Sum(s.procs.Keys, Weight(s, n))
  }

  lemma PublisherUsesUpWork(s: Bus, step: Step, n: nat)
    requires Inv(s) && Room(s, n) && Enabled(s, step) && PublisherStep(step)
    ensures Weight(Do(s, step), n)(step.p) < Weight(s, n)(step.p)
  {
    PublisherMovesOneProc(s, step);
    if step.RLock? {
      ListsFit(s, s.procs[step.p].topic, n);
    } else {
      ReaderUsesUpWork(s, step);
      OwnStepFixed(s, step);
    }
  }

  lemma LockStepUsesUpWork(s: Bus, step: Step, n: nat)
    requires Enabled(s, step) && LockStep(step)
    ensures Weight(Do(s, step), n)(step.p) < Weight(s, n)(step.p)
  {
  }

  lemma SectionUsesUpWork(s: Bus, step: Step, n: nat)
    requires Enabled(s, step) && (step.Register? || step.Splice? || step.CloseOne?)
    ensures Weight(Do(s, step), n)(step.p) < Weight(s, n)(step.p)
  {
  }

  lemma BeginUsesUpWork(s: Bus, p: Pid, n: nat)
    requires |s.subs.Keys| <= n && Enabled(s, BeginClose(p))
    ensures Weight(Do(s, BeginClose(p)), n)(p) < Weight(s, n)(p)
  {
    MoreTopicsMoreWork(|s.subs.Keys|, n, n);
  }

  lemma FewerTopicsLessWork(todo: set<Topic>, t: Topic, n: nat)
    requires t in todo
    ensures TopicsWork(|todo - {t}|, n) + n + 1 == TopicsWork(|todo|, n)
  {
    assert |todo - {t}| == |todo| - 1;
  }

  lemma PickMoves(s: Bus, p: Pid, t: Topic)
    requires Enabled(s, PickTopic(p, t))
    ensures p in Do(s, PickTopic(p, t)).procs
    ensures Do(s, PickTopic(p, t)).procs[p] == Wr(s.procs[p].op, WClosing(s.procs[p].wpc.todo - {t}, Some(t), Header(s, t), 0))
    ensures t in s.procs[p].wpc.todo && s.procs[p].wpc.i >= s.procs[p].wpc.slice.len
  {
  }

  lemma PickUsesUpWork(s: Bus, p: Pid, t: Topic, n: nat)
    requires Inv(s) && |s.chans.Keys| <= n && Enabled(s, PickTopic(p, t))
    ensures Weight(Do(s, PickTopic(p, t)), n)(p) < Weight(s, n)(p)
  {
    ListsFit(s, t, n);
    PickMoves(s, p, t);
    var todo := s.procs[p].wpc.todo;
    FewerTopicsLessWork(todo, t, n);
    assert Weight(s, n)(p) == TopicsWork(|todo|, n) + 2;
    assert Weight(Do(s, PickTopic(p, t)), n)(p) == TopicsWork(|todo - {t}|, n) + Header(s, t).len + 2;
  }

  lemma CloseNextUsesUpWork(s: Bus, p: Pid, n: nat)
    requires Enabled(s, CloseNext(p))
    ensures Weight(Do(s, CloseNext(p)), n)(p) < Weight(s, n)(p)
  {
  }

  lemma EndCloseUsesUpWork(s: Bus, p: Pid, n: nat)
    requires Enabled(s, EndClose(p))
    ensures Weight(Do(s, EndClose(p)), n)(p) < Weight(s, n)(p)
  {
  }

  lemma CloseUsesUpWork(s: Bus, step: Step, n: nat)
    requires Inv(s) && Room(s, n) && Enabled(s, step) && CloseStep(step)
    ensures Weight(Do(s, step), n)(step.p) < Weight(s, n)(step.p)
  {
    match step
    case BeginClose(p) => BeginUsesUpWork(s, p, n);
    case PickTopic(p, t) => PickUsesUpWork(s, p, t, n);
    case CloseNext(p) => CloseNextUsesUpWork(s, p, n);
    case EndClose(p) => EndCloseUsesUpWork(s, p, n);
  }

  lemma BusStepUsesUpWork(s: Bus, step: Step, n: nat)
    requires Inv(s) && Room(s, n) && Enabled(s, step) && BusStep(step)
    ensures Weight(Do(s, step), n)(step.p) < Weight(s, n)(step.p)
  {
    if PublisherStep(step) {
      PublisherUsesUpWork(s, step, n);
    } else if LockStep(step) {
      LockStepUsesUpWork(s, step, n);
    } else if CloseStep(step) {
      CloseUsesUpWork(s, step, n);
    } else {
      SectionUsesUpWork(s, step, n);
    }
  }

  lemma OneCallMoves(s: Bus, s': Bus, p: Pid, n: nat)
    requires p in s.procs && p in s'.procs && s'.procs == s.procs[p := s'.procs[p]]
    requires Weight(s', n)(p) < Weight(s, n)(p)
    ensures CallsWork(s', n) < CallsWork(s, n)
  {
    assert s'.procs.Keys == s.procs.Keys;
    SumBelow(s.procs.Keys, Weight(s', n), Weight(s, n), p);
  }

  lemma BusStepLessWork(s: Bus, step: Step, n: nat)
    requires Inv(s) && Room(s, n) && Enabled(s, step) && BusStep(step)
    ensures CallsWork(Do(s, step), n) < CallsWork(s, n)
  {
    BusStepUsesUpWork(s, step, n);
    MovesOneProc(s, step);
    OneCallMoves(s, Do(s, step), step.p, n);
  }

  lemma SameCallsSameWork(s: Bus, s': Bus, n: nat)
    requires s'.procs == s.procs
    ensures CallsWork(s', n) == CallsWork(s, n)
  {
    SumAtMost(s.procs.Keys, Weight(s', n), Weight(s, n));
    SumAtMost(s.procs.Keys, Weight(s, n), Weight(s', n));
  }

  // ----- what the subscribers have left to receive

  function Backlog(s: Bus): ChanId -> nat {
    (c: ChanId) => if c in s.chans then |s.chans[c].buffer| else 0
  }

  ghost function Buffered(s: Bus): nat {
    Sum(s.chans.Keys, Backlog(s))
  }

  lemma ReceiveEmpties(s: Bus, c: ChanId)
    requires Enabled(s, Receive(c))
    ensures Buffered(Do(s, Receive(c))) < Buffered(s)
  {
    var s' := Do(s, Receive(c));
    assert s'.chans.Keys == s.chans.Keys;
    SumBelow(s.chans.Keys, Backlog(s'), Backlog(s), c);
  }

  lemma SendBuffersOne(s: Bus, p: Pid)
    requires Inv(s) && Enabled(s, Send(p))
    ensures Buffered(Do(s, Send(p))) <= Buffered(s) + 1
  {
    TargetOpen(s, p);
    var s', c := Do(s, Send(p)), Target(s, p);
    assert s'.chans.Keys == s.chans.Keys;
    SumRemove(s.chans.Keys, Backlog(s), c);
    SumRemove(s.chans.Keys, Backlog(s'), c);
    SumAtMost(s.chans.Keys - {c}, Backlog(s'), Backlog(s));
  }

  lemma RegisterBuffersNothing(s: Bus, step: Step)
    requires Enabled(s, step) && step.Register?
    ensures Buffered(Do(s, step)) <= Buffered(s)
  {
    var s' := Do(s, step);
    if !s.closed {
      assert s'.chans.Keys - {step.ch} == s.chans.Keys;
      SumRemove(s'.chans.Keys, Backlog(s'), step.ch);
    }
    SumAtMost(s.chans.Keys, Backlog(s'), Backlog(s));
  }

  lemma OtherStepBuffersNothing(s: Bus, step: Step)
    requires Enabled(s, step) && !step.Send? && !step.Register? && !step.Receive?
    ensures Buffered(Do(s, step)) <= Buffered(s)
  {
    QueuesStand(s, step);
    SumAtMost(s.chans.Keys, Backlog(Do(s, step)), Backlog(s));
  }

  // ----- every run is bounded

  predicate NoNewCalls(steps: seq<Step>) {
    forall k :: 0 <= k < |steps| ==> !NewCall(steps[k])
  }

  /** Bus steps and receives: all that happens besides contexts being cancelled. */
  function Moves(steps: seq<Step>): nat {
    if steps == [] then 0 else (if steps[0].Cancel? then 0 else 1) + Moves(steps[1..])
  }

  /** Each bus step uses up work and buffers at most one message; each receive takes one out. */
  ghost function Energy(s: Bus, n: nat): nat {
    2 * CallsWork(s, n) + Buffered(s)
  }

  lemma StepUsesWork(s: Bus, step: Step, n: nat)
    requires Inv(s) && Room(s, n) && Enabled(s, step) && !NewCall(step)
    ensures CallsWork(Do(s, step), n) + (if BusStep(step) then 1 else 0) <= CallsWork(s, n)
  {
    if BusStep(step) {
      BusStepLessWork(s, step, n);
    } else {
      SameCallsSameWork(s, Do(s, step), n);
    }
  }

  lemma StepUsesEnergy(s: Bus, step: Step, n: nat)
    requires Inv(s) && Room(s, n) && Enabled(s, step) && !NewCall(step)
    ensures Energy(Do(s, step), n) + (if step.Cancel? then 0 else 1) <= Energy(s, n)
  {
    StepUsesWork(s, step, n);
    if step.Receive? {
      ReceiveEmpties(s, step.c);
    } else if step.Send? {
      SendBuffersOne(s, step.p);
    } else if step.Register? {
      RegisterBuffersNothing(s, step);
    } else {
      OtherStepBuffersNothing(s, step);
    }
  }

  lemma StepLeavesRoom(s: Bus, step: Step, n: nat)
    requires Inv(s) && Room(s, n) && Enabled(s, step) && !NewCall(step)
    ensures Inv(Do(s, step)) && Room(Do(s, step), n)
  {
    StepKeepsRoom(s, step, n);
    StepKeeps(s, step);
  }

  lemma {:induction false} RunUsesWork(s: Bus, steps: seq<Step>, n: nat)
    requires Inv(s) && Room(s, n) && CanRun(s, steps) && NoNewCalls(steps)
    ensures BusSteps(steps) + CallsWork(Run(s, steps), n) <= CallsWork(s, n)
    decreases |steps|
  {
    if steps != [] {
      var step, rest := steps[0], steps[1..];
      assert Inv(Do(s, step)) && Room(Do(s, step), n) by { StepLeavesRoom(s, step, n); }
      RunUsesWork(Do(s, step), rest, n);
      StepUsesWork(s, step, n);
    }
  }

  lemma {:induction false} RunUsesEnergy(s: Bus, steps: seq<Step>, n: nat)
    requires Inv(s) && Room(s, n) && CanRun(s, steps) && NoNewCalls(steps)
    ensures Moves(steps) + Energy(Run(s, steps), n) <= Energy(s, n)
    decreases |steps|
  {
    if steps != [] {
      var step, rest := steps[0], steps[1..];
      assert Inv(Do(s, step)) && Room(Do(s, step), n) by { StepLeavesRoom(s, step, n); }
      RunUsesEnergy(Do(s, step), rest, n);
      StepUsesEnergy(s, step, n);
    }
  }

  /** Room for the channels and topics there are and those of the Subscribe calls under way. */
  ghost function RoomOf(s: Bus): (n: nat)
    ensures Room(s, n)
  {
    |s.chans.Keys| + |s.subs.Keys| + |Subscribers(s)|
  }

  /**
    With no new calls every run ends: at most `CallsWork` steps of the bus itself, and at most
    `Energy` counting the receives, in any order and however contexts are cancelled meanwhile.
    A Close under way, with its loop over all topics and all their channels, is no exception.
  */
  lemma EveryRunEnds(s: Bus, steps: seq<Step>)
    requires Reachable(s) && CanRun(s, steps) && NoNewCalls(steps)
    ensures BusSteps(steps) <= CallsWork(s, RoomOf(s))
    ensures Moves(steps) <= Energy(s, RoomOf(s))
  {
    ReachableInv(s);
    RunUsesWork(s, steps, RoomOf(s));
    RunUsesEnergy(s, steps, RoomOf(s));
  }

  /** Where a run cannot go on, not even by a receive, every call has returned. */
  lemma EndedMeansReturned(s: Bus)
    requires Reachable(s) && !CanMove(s) && forall c :: !Enabled(s, Receive(c))
    ensures forall p :: p in s.procs ==> Returned(s.procs[p])
  {
    if p :| p in s.procs && !Returned(s.procs[p]) {
      ReceivingUnblocks(s);
    }
  }
}
