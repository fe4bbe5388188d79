/**
  What a publish delivers, over every run: exactly one copy on each channel that was subscribed
  when the publisher took the lock (or on a prefix of that list if its context ended first), and
  first-in first-out order on every channel. Also: the slices refine a plain per-topic list.
*/
module EventBusDelivery {
  import opened Wrappers
  import opened EventBus
  import opened EventBusSafety

  // ----- the slices refine per-topic lists

  /** What each step does to a topic's list `q`, said without slices or arrays. */
  ghost function NextList(s: Bus, step: Step, t: Topic, q: seq<ChanId>): seq<ChanId>
    requires Enabled(s, step)
  {
    match step
    case Register(p, ch, _, _) => if !s.closed && s.procs[p].op.topic == t then q + [ch] else q
    case Splice(p) =>
      var i := IndexOf(q, s.procs[p].op.ch);
      if !s.closed && s.procs[p].op.topic == t && i < |q| then q[..i] + q[i + 1..] else q
    case EndClose(_) => []
    case _ => q
  }

  lemma WriterLeavesLists(s: Bus, step: Step, t: Topic)
    requires Enabled(s, step) && (step.CloseOne? || step.BeginClose? || step.PickTopic? || step.CloseNext?)
    ensures Listed(Do(s, step), t) == Listed(s, t)
  {
  }

  lemma OthersLeaveLists(s: Bus, step: Step, t: Topic)
    requires Enabled(s, step) && !CriticalStep(step)
    ensures Listed(Do(s, step), t) == Listed(s, t)
  {
  }

  lemma ListsUntouched(s: Bus, step: Step, t: Topic)
    requires Enabled(s, step) && !step.Register? && !step.Splice? && !step.EndClose?
    ensures Listed(Do(s, step), t) == NextList(s, step, t, Listed(s, t))
  {
    if CriticalStep(step) {
      WriterLeavesLists(s, step, t);
    } else {
      OthersLeaveLists(s, step, t);
    }
  }

  lemma EndCloseUnlists(s: Bus, p: Pid, t: Topic)
    requires Inv(s) && Enabled(s, EndClose(p))
    ensures Listed(Do(s, EndClose(p)), t) == []
  {
  }

  lemma IdleSpliceLeavesLists(s: Bus, p: Pid, t: Topic)
    requires Enabled(s, Splice(p)) && !DoSplice(s, p).procs[p].wpc.WSpliced?
    ensures Listed(DoSplice(s, p), t) == Listed(s, t)
    ensures SliceIn(s.arrays, Header(s, s.procs[p].op.topic)) ==>
      s.closed || IndexOf(Listed(s, s.procs[p].op.topic), s.procs[p].op.ch) >= |Listed(s, s.procs[p].op.topic)|
  {
  }

  lemma SpliceUnlists(s: Bus, p: Pid, t: Topic)
    requires Inv(s) && Enabled(s, Splice(p))
    ensures Listed(DoSplice(s, p), t) == NextList(s, Splice(p), t, Listed(s, t))
  {
    assert SliceIn(s.arrays, Header(s, s.procs[p].op.topic));
    if DoSplice(s, p).procs[p].wpc.WSpliced? {
      SplicedIsListed(s, p);
      ListedAfterSplice(s, p);
    } else {
      IdleSpliceLeavesLists(s, p, t);
    }
  }

  lemma RegisterLists(s: Bus, p: Pid, ch: ChanId, arr: ArrId, spare: seq<ChanId>, t: Topic)
    requires Inv(s) && Enabled(s, Register(p, ch, arr, spare))
    ensures Listed(DoRegister(s, p, ch, arr, spare), t) == NextList(s, Register(p, ch, arr, spare), t, Listed(s, t))
  {
    if !s.closed {
      ListedAfterRegister(s, p, ch, arr, spare);
    }
  }

  lemma StepRefinesLists(s: Bus, step: Step, t: Topic)
    requires Inv(s) && Enabled(s, step)
    ensures Listed(Do(s, step), t) == NextList(s, step, t, Listed(s, t))
  {
    if step.Register? {
      RegisterLists(s, step.p, step.ch, step.arr, step.spare, t);
    } else if step.Splice? {
      SpliceUnlists(s, step.p, t);
    } else if step.EndClose? {
      EndCloseUnlists(s, step.p, t);
    } else {
      ListsUntouched(s, step, t);
    }
  }

  /** Every step acts on the slices and backing arrays as the list operation it stands for. */
  lemma SlicesRefineLists(s: Bus, step: Step, t: Topic)
    requires Reachable(s) && Enabled(s, step)
    ensures Listed(Do(s, step), t) == NextList(s, step, t, Listed(s, t))
  {
    ReachableInv(s);
    StepRefinesLists(s, step, t);
  }

  // ----- counting what a publisher put on a channel

  function Count(log: seq<Entry>, p: Pid): nat {
    if log == [] then 0 else Count(log[..|log| - 1], p) + if log[|log| - 1].from == p then 1 else 0
  }

  lemma {:induction false} CountAppend(log: seq<Entry>, e: Entry, p: Pid)
    ensures Count(log + [e], p) == Count(log, p) + if e.from == p then 1 else 0
  {
    assert (log + [e])[..|log|] == log;
  }

  lemma {:induction false} CountZero(log: seq<Entry>, p: Pid)
    requires forall k :: 0 <= k < |log| ==> log[k].from != p
    ensures Count(log, p) == 0
  {
    if log != [] {
      CountZero(log[..|log| - 1], p);
    }
  }

  /** The channels a publisher has sent on so far. */
  function SentTo(pc: PubPc): seq<ChanId> {
    match pc
    case PSend(q, _, n) => if n <= |q| then q[..n] else q
    case PReturn(q, n, _) => if n <= |q| then q[..n] else q
    case PDone(q, n, _) => if n <= |q| then q[..n] else q
    case _ => []
  }

  /** Every entry comes from a publisher and carries its data. */
  ghost predicate Signed(log: seq<Entry>, procs: map<Pid, Proc>) {
    forall k :: 0 <= k < |log| ==> log[k].from in procs && procs[log[k].from].Pub? && log[k].payload == procs[log[k].from].data
  }

  ghost predicate Counted(log: seq<Entry>, c: ChanId, procs: map<Pid, Proc>) {
    forall p :: p in procs && procs[p].Pub? ==> Count(log, p) == if c in SentTo(procs[p].ppc) then 1 else 0
  }

  ghost predicate DeliveryInv(s: Bus) {
    forall c :: c in s.chans ==> Signed(s.chans[c].sent, s.procs) && Counted(s.chans[c].sent, c, s.procs)
  }

  /** The steps of a Close under the lock. */
  predicate CloseStep(step: Step) {
    step.BeginClose? || step.PickTopic? || step.CloseNext? || step.EndClose?
  }

  lemma CloseMovesOneProc(s: Bus, step: Step)
    requires Enabled(s, step) && CloseStep(step)
    ensures Do(s, step).procs.Keys == s.procs.Keys && IsWr(Do(s, step), step.p)
    ensures Do(s, step).procs == s.procs[step.p := Do(s, step).procs[step.p]]
  {
  }

  lemma SectionMovesOneProc(s: Bus, step: Step)
    requires Enabled(s, step) && (step.Register? || step.Splice? || step.CloseOne?)
    ensures Do(s, step).procs.Keys == s.procs.Keys && IsWr(Do(s, step), step.p)
    ensures Do(s, step).procs == s.procs[step.p := Do(s, step).procs[step.p]]
  {
  }

  lemma LockMovesOneProc(s: Bus, step: Step)
    requires Enabled(s, step) && LockStep(step)
    ensures Do(s, step).procs.Keys == s.procs.Keys && IsWr(Do(s, step), step.p)
    ensures Do(s, step).procs == s.procs[step.p := Do(s, step).procs[step.p]]
  {
  }

  lemma PublisherMovesOneProc(s: Bus, step: Step)
    requires Enabled(s, step) && PublisherStep(step)
    ensures Do(s, step).procs.Keys == s.procs.Keys && IsPub(Do(s, step), step.p)
    ensures Do(s, step).procs == s.procs[step.p := Do(s, step).procs[step.p]]
  {
  }

  lemma CallerMovesOneProc(s: Bus, step: Step)
    requires Enabled(s, step) && EnvironmentStep(step) && !step.Receive? && !step.Cancel?
    ensures step.p !in s.procs && Do(s, step).procs.Keys == s.procs.Keys + {step.p}
    ensures Do(s, step).procs == s.procs[step.p := Do(s, step).procs[step.p]]
  {
  }

  /** A step moves no process but the one that takes it. */
  lemma MovesOneProc(s: Bus, step: Step)
    requires Enabled(s, step) && !step.Receive? && !step.Cancel?
    ensures step.p in Do(s, step).procs && Do(s, step).procs == s.procs[step.p := Do(s, step).procs[step.p]]
  {
    if CloseStep(step) {
      CloseMovesOneProc(s, step);
    } else if CriticalStep(step) {
      SectionMovesOneProc(s, step);
    } else if LockStep(step) {
      LockMovesOneProc(s, step);
    } else if PublisherStep(step) {
      PublisherMovesOneProc(s, step);
    } else {
      CallerMovesOneProc(s, step);
    }
  }

  lemma OthersKept(s: Bus, step: Step, q: Pid)
    requires Enabled(s, step) && (step.Receive? || step.Cancel? || step.p != q)
    ensures if q in s.procs then q in Do(s, step).procs && Do(s, step).procs[q] == s.procs[q] else q !in Do(s, step).procs
  {
    if !step.Receive? && !step.Cancel? {
      MovesOneProc(s, step);
    }
  }

  /** A publisher's own steps keep its topic, data and, once taken, the list it saw under the lock. */
  lemma OwnStepFixed(s: Bus, step: Step)
    requires Enabled(s, step) && PublisherStep(step)
    ensures var s', p := Do(s, step), step.p;
      && IsPub(s', p) && s'.procs[p].topic == s.procs[p].topic && s'.procs[p].data == s.procs[p].data
      && (!s.procs[p].ppc.PWait? ==> !s'.procs[p].ppc.PWait? && s'.procs[p].ppc.atLock == s.procs[p].ppc.atLock)
      && (!step.Send? ==> SentTo(s'.procs[p].ppc) == SentTo(s.procs[p].ppc))
  {
  }

  lemma PublisherFixed(s: Bus, step: Step, p: Pid)
    requires Enabled(s, step) && IsPub(s, p)
    ensures var s' := Do(s, step);
      && IsPub(s', p) && s'.procs[p].topic == s.procs[p].topic && s'.procs[p].data == s.procs[p].data
      && (!s.procs[p].ppc.PWait? ==> !s'.procs[p].ppc.PWait? && s'.procs[p].ppc.atLock == s.procs[p].ppc.atLock)
      && (step != Send(p) ==> SentTo(s'.procs[p].ppc) == SentTo(s.procs[p].ppc))
  {
    if step.Receive? || step.Cancel? || step.p != p {
      OthersKept(s, step, p);
    } else {
      OwnStepFixed(s, step);
    }
  }

  lemma WritersStayWriters(s: Bus, step: Step)
    requires Enabled(s, step) && (LockStep(step) || CriticalStep(step))
    ensures IsWr(Do(s, step), step.p)
  {
    if CloseStep(step) {
      CloseMovesOneProc(s, step);
    } else if CriticalStep(step) {
      SectionMovesOneProc(s, step);
    } else {
      LockMovesOneProc(s, step);
    }
  }

  lemma NewcomersSentNothing(s: Bus, step: Step, p: Pid)
    requires Enabled(s, step) && !IsPub(s, p) && IsPub(Do(s, step), p)
    ensures p !in s.procs && SentTo(Do(s, step).procs[p].ppc) == []
  {
    if step.Receive? || step.Cancel? || step.p != p {
      OthersKept(s, step, p);
    } else if LockStep(step) || CriticalStep(step) {
      WritersStayWriters(s, step);
    } else {
      assert EnvironmentStep(step);
    }
  }

  lemma LogsKeptByClose(s: Bus, step: Step, c: ChanId)
    requires Enabled(s, step) && CloseStep(step) && c in Do(s, step).chans
    ensures c in s.chans && Do(s, step).chans[c].sent == s.chans[c].sent
  {
  }

  lemma LogsKeptBySection(s: Bus, step: Step, c: ChanId)
    requires Enabled(s, step) && (step.Register? || step.Splice? || step.CloseOne?) && c in Do(s, step).chans
    ensures if c in s.chans then Do(s, step).chans[c].sent == s.chans[c].sent else Do(s, step).chans[c].sent == []
  {
  }

  lemma LogsKept(s: Bus, step: Step, c: ChanId)
    requires Enabled(s, step) && !step.Send? && c in Do(s, step).chans
    ensures if c in s.chans then Do(s, step).chans[c].sent == s.chans[c].sent else Do(s, step).chans[c].sent == []
  {
    if CloseStep(step) {
      LogsKeptByClose(s, step, c);
    } else if CriticalStep(step) {
      LogsKeptBySection(s, step, c);
    }
  }

  /** No channel comes or goes, none of their queues moves, and no topic is added. */
  ghost predicate SameQueues(s: Bus, s': Bus) {
    && s'.chans.Keys == s.chans.Keys && s'.subs.Keys <= s.subs.Keys
    && (forall c :: c in s.chans ==> s'.chans[c].buffer == s.chans[c].buffer)
  }

  lemma CloseLeavesQueues(s: Bus, step: Step)
    requires Enabled(s, step) && CloseStep(step)
    ensures SameQueues(s, Do(s, step))
  {
  }

  lemma SectionLeavesQueues(s: Bus, step: Step)
    requires Enabled(s, step) && (step.Splice? || step.CloseOne?)
    ensures SameQueues(s, Do(s, step))
  {
  }

  lemma PublisherLeavesQueues(s: Bus, step: Step)
    requires Enabled(s, step) && PublisherStep(step) && !step.Send?
    ensures SameQueues(s, Do(s, step))
  {
  }

  lemma OutsideLeavesQueues(s: Bus, step: Step)
    requires Enabled(s, step) && (LockStep(step) || EnvironmentStep(step)) && !step.Receive?
    ensures SameQueues(s, Do(s, step))
  {
  }

  lemma QueuesStand(s: Bus, step: Step)
    requires Enabled(s, step) && !step.Send? && !step.Receive? && !step.Register?
    ensures SameQueues(s, Do(s, step))
  {
    if CloseStep(step) {
      CloseLeavesQueues(s, step);
    } else if CriticalStep(step) {
      SectionLeavesQueues(s, step);
    } else if PublisherStep(step) {
      PublisherLeavesQueues(s, step);
    } else {
      OutsideLeavesQueues(s, step);
    }
  }

  lemma SignedKept(s: Bus, step: Step, log: seq<Entry>)
    requires Enabled(s, step) && Signed(log, s.procs)
    ensures Signed(log, Do(s, step).procs)
  {
    forall k | 0 <= k < |log|
      ensures var s' := Do(s, step);
        log[k].from in s'.procs && s'.procs[log[k].from].Pub? && log[k].payload == s'.procs[log[k].from].data
    {
      PublisherFixed(s, step, log[k].from);
    }
  }

  lemma QuietStepDelivers(s: Bus, step: Step)
    requires Inv(s) && DeliveryInv(s) && Enabled(s, step) && !step.Send?
    ensures DeliveryInv(Do(s, step))
  {
    var s' := Do(s, step);
    forall c | c in s'.chans ensures Signed(s'.chans[c].sent, s'.procs) && Counted(s'.chans[c].sent, c, s'.procs) {
      LogsKept(s, step, c);
      var log := s'.chans[c].sent;
      if c in s.chans {
        SignedKept(s, step, log);
      }
      forall p | p in s'.procs && s'.procs[p].Pub? ensures Count(log, p) == if c in SentTo(s'.procs[p].ppc) then 1 else 0 {
        if IsPub(s, p) {
          PublisherFixed(s, step, p);
          SentToKnown(s, p);
        } else {
          NewcomersSentNothing(s, step, p);
          CountZero(log, p);
        }
      }
    }
  }

  lemma SentToKnown(s: Bus, p: Pid)
    requires Inv(s) && IsPub(s, p)
    ensures forall c :: c in SentTo(s.procs[p].ppc) ==> c in s.chans
  {
    assert ProcInv(s.procs[p], s.subs, s.arrays, s.chans, s.closed);
  }

  lemma SendLogs(s: Bus, p: Pid)
    requires Enabled(s, Send(p)) && !s.chans[Target(s, p)].closed
    ensures var s', c := Do(s, Send(p)), Target(s, p);
      && s'.procs == s.procs[p := s'.procs[p]] && s'.procs[p].Pub? && s'.chans.Keys == s.chans.Keys
      && s'.chans[c].sent == s.chans[c].sent + [Entry(p, s.procs[p].data)]
      && (forall d :: d in s.chans && d != c ==> s'.chans[d].sent == s.chans[d].sent)
      && s'.procs[p].ppc == PSend(s.procs[p].ppc.atLock, s.procs[p].ppc.slice, s.procs[p].ppc.n + 1)
  {
  }

  lemma NextOfDistinct(q: seq<ChanId>, n: nat)
    requires Distinct(q) && n < |q|
    ensures q[..n + 1] == q[..n] + [q[n]] && q[n] !in q[..n]
  {
  }

  lemma SeenAreDistinct(s: Bus, p: Pid)
    requires ProcsOk(s) && IsPub(s, p) && !s.procs[p].ppc.PWait?
    ensures Distinct(s.procs[p].ppc.atLock)
  {
    assert ProcInv(s.procs[p], s.subs, s.arrays, s.chans, s.closed);
  }

  /** The target is the next of the channels seen under the lock, and has not been sent to. */
  lemma SentToGrows(s: Bus, p: Pid)
    requires Inv(s) && AtSend(s, p)
    ensures var pc, c := s.procs[p].ppc, Target(s, p);
      && SentTo(PSend(pc.atLock, pc.slice, pc.n + 1)) == SentTo(pc) + [c] && c !in SentTo(pc)
  {
    TargetOpen(s, p);
    SeenAreDistinct(s, p);
    NextOfDistinct(s.procs[p].ppc.atLock, s.procs[p].ppc.n);
  }

  /** A send adds one entry to its target's log and one channel to the publisher's list; nothing else moves. */
  lemma SendEffect(s: Bus, p: Pid)
    requires Inv(s) && Enabled(s, Send(p))
    ensures var s', c := Do(s, Send(p)), Target(s, p);
      && IsPub(s', p) && s'.chans.Keys == s.chans.Keys
      && s'.chans[c].sent == s.chans[c].sent + [Entry(p, s.procs[p].data)]
      && (forall d :: d in s.chans && d != c ==> s'.chans[d].sent == s.chans[d].sent)
      && SentTo(s'.procs[p].ppc) == SentTo(s.procs[p].ppc) + [c] && c !in SentTo(s.procs[p].ppc)
      && (forall q :: IsPub(s', q) ==> IsPub(s, q))
  {
    TargetOpen(s, p);
    SentToGrows(s, p);
    SendLogs(s, p);
  }

  lemma SendCountedOwn(s: Bus, p: Pid, c: ChanId)
    requires Inv(s) && DeliveryInv(s) && Enabled(s, Send(p)) && c in s.chans
    ensures var s' := Do(s, Send(p));
      IsPub(s', p) && c in s'.chans && Count(s'.chans[c].sent, p) == if c in SentTo(s'.procs[p].ppc) then 1 else 0
  {
    SendEffect(s, p);
    CountAppend(s.chans[c].sent, Entry(p, s.procs[p].data), p);
  }

  lemma SendCountedOther(s: Bus, p: Pid, c: ChanId, q: Pid)
    requires Inv(s) && DeliveryInv(s) && Enabled(s, Send(p)) && c in s.chans && IsPub(s, q) && q != p
    ensures var s' := Do(s, Send(p));
      IsPub(s', q) && c in s'.chans && Count(s'.chans[c].sent, q) == if c in SentTo(s'.procs[q].ppc) then 1 else 0
  {
    SendEffect(s, p);
    CountAppend(s.chans[c].sent, Entry(p, s.procs[p].data), q);
    PublisherFixed(s, Send(p), q);
  }

  lemma SignedAppend(log: seq<Entry>, e: Entry, procs: map<Pid, Proc>)
    requires Signed(log, procs) && e.from in procs && procs[e.from].Pub? && e.payload == procs[e.from].data
    ensures Signed(log + [e], procs)
  {
  }

  lemma SendSigned(s: Bus, p: Pid, c: ChanId)
    requires Inv(s) && DeliveryInv(s) && Enabled(s, Send(p)) && c in s.chans
    ensures var s' := Do(s, Send(p)); c in s'.chans && Signed(s'.chans[c].sent, s'.procs)
  {
    var log, e := s.chans[c].sent, Entry(p, s.procs[p].data);
    SignedKept(s, Send(p), log);
    PublisherFixed(s, Send(p), p);
    SignedAppend(log, e, Do(s, Send(p)).procs);
    SendEffect(s, p);
    assert Do(s, Send(p)).chans[c].sent == log || Do(s, Send(p)).chans[c].sent == log + [e];
  }

  lemma SendDeliversOn(s: Bus, p: Pid, c: ChanId)
    requires Inv(s) && DeliveryInv(s) && Enabled(s, Send(p)) && c in s.chans
    ensures var s' := Do(s, Send(p)); c in s'.chans && Signed(s'.chans[c].sent, s'.procs) && Counted(s'.chans[c].sent, c, s'.procs)
  {
    var s' := Do(s, Send(p));
    SendSigned(s, p, c);
    PublisherMovesOneProc(s, Send(p));
    forall q | q in s'.procs && s'.procs[q].Pub?
      ensures Count(s'.chans[c].sent, q) == if c in SentTo(s'.procs[q].ppc) then 1 else 0
    {
      if q == p {
        SendCountedOwn(s, p, c);
      } else {
        SendCountedOther(s, p, c, q);
      }
    }
  }

  lemma SendDelivers(s: Bus, p: Pid)
    requires Inv(s) && DeliveryInv(s) && Enabled(s, Send(p))
    ensures DeliveryInv(Do(s, Send(p)))
  {
    SendEffect(s, p);
    forall c | c in s.chans
      ensures Signed(Do(s, Send(p)).chans[c].sent, Do(s, Send(p)).procs) && Counted(Do(s, Send(p)).chans[c].sent, c, Do(s, Send(p)).procs)
    {
      SendDeliversOn(s, p, c);
    }
  }

  lemma {:induction false} RunDelivers(s: Bus, steps: seq<Step>)
    requires Inv(s) && DeliveryInv(s) && CanRun(s, steps)
    ensures DeliveryInv(Run(s, steps))
    decreases |steps|
  {
    if steps != [] {
      if steps[0].Send? {
        SendDelivers(s, steps[0].p);
      } else {
        QuietStepDelivers(s, steps[0]);
      }
      StepKeeps(s, steps[0]);
      RunDelivers(Do(s, steps[0]), steps[1..]);
    }
  }

  lemma {:induction false} PublisherFixedOnRun(s: Bus, steps: seq<Step>, p: Pid)
    requires CanRun(s, steps) && IsPub(s, p) && !s.procs[p].ppc.PWait?
    ensures var s' := Run(s, steps);
      && IsPub(s', p) && !s'.procs[p].ppc.PWait? && s'.procs[p].ppc.atLock == s.procs[p].ppc.atLock
      && s'.procs[p].data == s.procs[p].data
    decreases |steps|
  {
    if steps != [] {
      PublisherFixed(s, steps[0], p);
      PublisherFixedOnRun(Do(s, steps[0]), steps[1..], p);
    }
  }

  /** How many times channel `c` was sent the call's data, and how often anything else came from that call. */
  ghost predicate ReceivedExactly(s: Bus, p: Pid, subscribers: seq<ChanId>)
    requires IsPub(s, p)
  {
    forall c :: c in s.chans ==>
      && Count(s.chans[c].sent, p) == (if c in subscribers then 1 else 0)
      && (forall k :: 0 <= k < |s.chans[c].sent| && s.chans[c].sent[k].from == p ==> s.chans[c].sent[k].payload == s.procs[p].data)
  }

  /**
    Exactly-once delivery. Take any run in which publisher `p` takes the read lock after `pre` and
    has returned by the end. If it returned nil, its data went exactly once to each channel that was
    subscribed to the topic at that moment and to no other; if its context ended, exactly to a
    prefix of that list; if the bus was closed, to none.
  */
  lemma PublishDeliversExactlyOnce(pre: seq<Step>, p: Pid, post: seq<Step>)
    requires CanRun(INITIAL, pre) && Enabled(Run(INITIAL, pre), RLock(p)) && CanRun(Do(Run(INITIAL, pre), RLock(p)), post)
    requires var s := Run(Do(Run(INITIAL, pre), RLock(p)), post); IsPub(s, p) && s.procs[p].ppc.PDone?
    ensures var before, s := Run(INITIAL, pre), Run(Do(Run(INITIAL, pre), RLock(p)), post);
      var pc, subscribers := s.procs[p].ppc, Listed(before, before.procs[p].topic);
      && s.procs[p].data == before.procs[p].data && pc.n <= |subscribers|
      && (pc.outcome == Delivered ==> ReceivedExactly(s, p, subscribers))
      && (pc.outcome == ContextError ==> ReceivedExactly(s, p, subscribers[..pc.n]))
      && (pc.outcome == BusClosed ==> ReceivedExactly(s, p, []))
    ensures var before := Run(INITIAL, pre); var t := before.procs[p].topic;
      forall c :: c in before.chans ==> (c in Listed(before, t) <==> before.chans[c].topic == t && !before.chans[c].closed)
  {
    var before := Run(INITIAL, pre);
    InitialInv();
    RunKeeps(INITIAL, pre);
    RunDelivers(INITIAL, pre);
    LockedPublishDelivers(before, p, post);
    LockSeesOpenChannels(before, p);
  }

  /** The same from any state in which the invariants hold and the publisher can take the read lock. */
  lemma LockedPublishDelivers(before: Bus, p: Pid, post: seq<Step>)
    requires Inv(before) && DeliveryInv(before) && Enabled(before, RLock(p)) && CanRun(Do(before, RLock(p)), post)
    requires var s := Run(Do(before, RLock(p)), post); IsPub(s, p) && s.procs[p].ppc.PDone?
    ensures var s := Run(Do(before, RLock(p)), post);
      var pc, subscribers := s.procs[p].ppc, Listed(before, before.procs[p].topic);
      && s.procs[p].data == before.procs[p].data && pc.n <= |subscribers|
      && (pc.outcome == Delivered ==> ReceivedExactly(s, p, subscribers))
      && (pc.outcome == ContextError ==> ReceivedExactly(s, p, subscribers[..pc.n]))
      && (pc.outcome == BusClosed ==> ReceivedExactly(s, p, []))
  {
    var locked := Do(before, RLock(p));
    assert locked.procs[p] == Pub(before.procs[p].topic, before.procs[p].data, PLocked(Listed(before, before.procs[p].topic)));
    StepKeeps(before, RLock(p));
    QuietStepDelivers(before, RLock(p));
    RunKeeps(locked, post);
    RunDelivers(locked, post);
    PublisherFixedOnRun(locked, post, p);
    ReturnedHasDelivered(Run(locked, post), p);
  }

  /** What a publisher that has returned has put on every channel. */
  lemma ReturnedHasDelivered(s: Bus, p: Pid)
    requires Inv(s) && DeliveryInv(s) && IsPub(s, p) && s.procs[p].ppc.PDone?
    ensures var pc := s.procs[p].ppc;
      && pc.n <= |pc.atLock|
      && (pc.outcome == Delivered ==> ReceivedExactly(s, p, pc.atLock))
      && (pc.outcome == ContextError ==> ReceivedExactly(s, p, pc.atLock[..pc.n]))
      && (pc.outcome == BusClosed ==> ReceivedExactly(s, p, []))
  {
    assert ProcInv(s.procs[p], s.subs, s.arrays, s.chans, s.closed);
    var pc := s.procs[p].ppc;
    assert pc.atLock[..|pc.atLock|] == pc.atLock;
    DeliveredAreSentTo(s, p);
  }

  lemma DeliveredAreSentTo(s: Bus, p: Pid)
    requires DeliveryInv(s) && IsPub(s, p)
    ensures ReceivedExactly(s, p, SentTo(s.procs[p].ppc))
  {
    forall c | c in s.chans
      ensures Count(s.chans[c].sent, p) == (if c in SentTo(s.procs[p].ppc) then 1 else 0)
    {
      assert Counted(s.chans[c].sent, c, s.procs);
    }
  }

  /** When a publisher takes the read lock its topic lists exactly the topic's open channels. */
  lemma LockSeesOpenChannels(before: Bus, p: Pid)
    requires Inv(before) && Enabled(before, RLock(p))
    ensures var t := before.procs[p].topic;
      forall c :: c in before.chans ==> (c in Listed(before, t) <==> before.chans[c].topic == t && !before.chans[c].closed)
  {
    var t := before.procs[p].topic;
    assert PhaseOf(before) == Whole;
    assert OfTopic(before.chans, ListedIn(before.subs, before.arrays, t), t);
    forall c | c in before.chans ensures c in Listed(before, t) <==> before.chans[c].topic == t && !before.chans[c].closed {
      assert !before.chans[c].closed <==> Owned(Whole, before.subs, before.arrays, before.chans[c].topic, c);
    }
  }

  /** Each channel hands out what it was sent in order, and never holds more than its capacity. */
  lemma ChannelsAreBoundedQueues(s: Bus, c: ChanId)
    requires Reachable(s) && c in s.chans
    ensures s.chans[c].received + s.chans[c].buffer == s.chans[c].sent
    ensures |s.chans[c].buffer| <= 64
  {
    ReachableInv(s);
    assert QueueInv(s.chans[c]);
  }
}
