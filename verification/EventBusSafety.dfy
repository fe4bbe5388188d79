/**
  Safety of the event bus over every run: no send on a closed channel, no channel closed twice,
  and the channels listed in the map are exactly the open ones, each listed once.
*/
module EventBusSafety {
  import opened Wrappers
  import opened EventBus

  /** Between RLock and RUnlock. */
  predicate HoldsRead(pr: Proc) {
    pr.Pub? && (pr.ppc.PLocked? || pr.ppc.PSend? || pr.ppc.PReturn?)
  }

  /** Inside `Lock`, waiting for the readers to leave. */
  predicate IsAnnounced(pr: Proc) {
    pr.Wr? && pr.wpc.WAnnounced?
  }

  /** Between Lock and Unlock. */
  predicate HoldsWrite(pr: Proc) {
    pr.Wr? && (pr.wpc.WLocked? || pr.wpc.WSpliced? || pr.wpc.WClosing? || pr.wpc.WReturn?)
  }

  /** The mutex agrees with the program counters and excludes readers from writers. */
  ghost predicate LockInv(procs: map<Pid, Proc>, readers: set<Pid>, pending: Option<Pid>, writer: Option<Pid>) {
    && (forall p :: p in readers <==> p in procs && HoldsRead(procs[p]))
    && (forall p :: pending == Some(p) <==> p in procs && IsAnnounced(procs[p]))
    && (forall p :: writer == Some(p) <==> p in procs && HoldsWrite(procs[p]))
    && (writer.Some? ==> readers == {} && pending.None?)
  }

  ghost predicate LockOk(s: Bus) {
    LockInv(s.procs, s.readers, s.pending, s.writer)
  }

  predicate Distinct(q: seq<ChanId>) {
    forall j, k :: 0 <= j < k < |q| ==> q[j] != q[k]
  }

  predicate OfTopic(chans: map<ChanId, Channel>, q: seq<ChanId>, t: Topic) {
    forall k :: 0 <= k < |q| ==> q[k] in chans && chans[q[k]].topic == t
  }

  /** Topics own disjoint backing arrays, and each lists distinct channels of its own. */
  ghost predicate SliceInv(subs: map<Topic, Slice>, arrays: map<ArrId, seq<ChanId>>, chans: map<ChanId, Channel>) {
    && 0 in arrays && arrays[0] == []
    && (forall t :: t in subs ==> subs[t].arr != 0 && SliceIn(arrays, subs[t]))
    && (forall t, u :: t in subs && u in subs && subs[t].arr == subs[u].arr ==> t == u)
    && (forall t :: OfTopic(chans, ListedIn(subs, arrays, t), t) && Distinct(ListedIn(subs, arrays, t)))
  }

  /** What a writer's program counter says about its operands. */
  ghost predicate WriterInv(op: WriteOp, pc: WritePc, subs: map<Topic, Slice>, arrays: map<ArrId, seq<ChanId>>,
                            chans: map<ChanId, Channel>, closed: bool)
  {
    && (op.Unsubscribe? ==> OfTopic(chans, [op.ch], op.topic))
    && (op.Subscribe? && pc.WReturn? && pc.got.Some? ==> OfTopic(chans, [pc.got.value], op.topic))
    && (op.Subscribe? && pc.WDone? && pc.got.Some? ==> OfTopic(chans, [pc.got.value], op.topic))
    && (pc.WSpliced? ==> op.Unsubscribe? && op.ch !in ListedIn(subs, arrays, op.topic))
    && (pc.WClosing? ==>
      && op.Close? && closed && pc.todo <= subs.Keys
      && (pc.cur.None? ==> pc.slice == NIL_SLICE && pc.i == 0)
      && (pc.cur.Some? ==> pc.cur.value in subs && pc.cur.value !in pc.todo && pc.slice == subs[pc.cur.value] && pc.i <= pc.slice.len))
  }

  /** A publisher's loop runs over the list as it was when the lock was taken. */
  ghost predicate PublisherInv(t: Topic, pc: PubPc, subs: map<Topic, Slice>, arrays: map<ArrId, seq<ChanId>>,
                               chans: map<ChanId, Channel>)
  {
    && (pc.PLocked? ==> pc.atLock == ListedIn(subs, arrays, t))
    && (pc.PSend? ==> pc.slice == HeaderIn(subs, t) && pc.atLock == ListedIn(subs, arrays, t) && pc.n <= |pc.atLock|)
    && (pc.PReturn? || pc.PDone? ==>
      && pc.n <= |pc.atLock|
      && (pc.outcome == Delivered ==> pc.n == |pc.atLock|)
      && (pc.outcome == BusClosed ==> pc.n == 0))
    && (!pc.PWait? ==> OfTopic(chans, pc.atLock, t) && Distinct(pc.atLock))
  }

  ghost predicate ProcInv(pr: Proc, subs: map<Topic, Slice>, arrays: map<ArrId, seq<ChanId>>,
                          chans: map<ChanId, Channel>, closed: bool)
  {
    match pr
    case Pub(t, _, pc) => PublisherInv(t, pc, subs, arrays, chans)
    case Wr(op, pc) => WriterInv(op, pc, subs, arrays, chans, closed)
  }

  /** Where the holder of the exclusive lock stands, as far as the set of open channels goes. */
  datatype Phase = Whole | Spliced(ch: ChanId) | Closing(todo: set<Topic>, cur: Option<Topic>, i: nat)

  ghost function PhaseOf(s: Bus): Phase {
    if s.writer.Some? && IsWr(s, s.writer.value) then
      match s.procs[s.writer.value]
      case Wr(Unsubscribe(_, ch), WSpliced) => Spliced(ch)
      case Wr(_, WClosing(todo, cur, _, i)) => Closing(todo, cur, i)
      case _ => Whole
    else Whole
  }

  /** The bus still answers for closing `c`: it is listed, or the writer at work has it left to close. */
  ghost predicate Owned(phase: Phase, subs: map<Topic, Slice>, arrays: map<ArrId, seq<ChanId>>, t: Topic, c: ChanId) {
    var q := ListedIn(subs, arrays, t);
    match phase
    case Whole => c in q
    case Spliced(ch) => c in q || c == ch
    case Closing(todo, cur, i) => (t in todo && c in q) || (cur == Some(t) && i <= |q| && c in q[i..])
  }

  ghost predicate OpenInv(phase: Phase, subs: map<Topic, Slice>, arrays: map<ArrId, seq<ChanId>>, chans: map<ChanId, Channel>) {
    forall c :: c in chans ==> (!chans[c].closed <==> Owned(phase, subs, arrays, chans[c].topic, c))
  }

  /** A bounded queue: what was sent is what was received followed by the buffer. */
  ghost predicate QueueInv(ch: Channel) {
    ch.sent == ch.received + ch.buffer && |ch.buffer| <= CHANNEL_CAPACITY
  }

  ghost predicate Inv(s: Bus) {
    && LockOk(s)
    && SliceInv(s.subs, s.arrays, s.chans)
    && (forall p :: p in s.procs ==> ProcInv(s.procs[p], s.subs, s.arrays, s.chans, s.closed))
    && (s.closed ==> s.subs == map[] || PhaseOf(s).Closing?)
    && OpenInv(PhaseOf(s), s.subs, s.arrays, s.chans)
    && (forall c :: c in s.chans ==> QueueInv(s.chans[c]))
    && !s.panicked
  }

  lemma InitialInv()
    ensures Inv(INITIAL)
  {
  }


  /** One process changes its program counter and the mutex follows. */
  lemma LockUpdate(s: Bus, s': Bus, p: Pid, pr: Proc)
    requires LockOk(s) && s'.procs == s.procs[p := pr]
    requires s'.readers == if HoldsRead(pr) then s.readers + {p} else s.readers - {p}
    requires s'.pending == if IsAnnounced(pr) then Some(p) else if s.pending == Some(p) then None else s.pending
    requires s'.writer == if HoldsWrite(pr) then Some(p) else if s.writer == Some(p) then None else s.writer
    requires IsAnnounced(pr) ==> s.pending.None? || s.pending == Some(p)
    requires HoldsWrite(pr) ==> s.writer.None? || s.writer == Some(p)
    requires s'.writer.Some? ==> s'.readers == {} && s'.pending.None?
    ensures LockOk(s')
  {
  }

  lemma LockKeepsLockStep(s: Bus, step: Step)
    requires LockOk(s) && Enabled(s, step) && LockStep(step)
    ensures LockOk(Do(s, step))
  {
    var s' := Do(s, step);
    LockUpdate(s, s', step.p, s'.procs[step.p]);
  }

  lemma LockKeepsPublisher(s: Bus, step: Step)
    requires LockOk(s) && Enabled(s, step) && PublisherStep(step)
    ensures LockOk(Do(s, step))
  {
    var s' := Do(s, step);
    LockUpdate(s, s', step.p, s'.procs[step.p]);
  }

  lemma PhaseKeepsLock(s: Bus, step: Step)
    requires LockOk(s) && Enabled(s, step) && LockStep(step)
    ensures PhaseOf(Do(s, step)) == PhaseOf(s)
  {
  }

  lemma PhaseKeepsPublisher(s: Bus, step: Step)
    requires LockOk(s) && Enabled(s, step) && PublisherStep(step)
    ensures PhaseOf(Do(s, step)) == PhaseOf(s)
  {
  }

  ghost predicate KeepsTopics(chans: map<ChanId, Channel>, chans': map<ChanId, Channel>) {
    forall c :: c in chans ==> c in chans' && chans'[c].topic == chans[c].topic
  }

  lemma ProcFrame(pr: Proc, s: Bus, chans': map<ChanId, Channel>)
    requires ProcInv(pr, s.subs, s.arrays, s.chans, s.closed) && KeepsTopics(s.chans, chans')
    ensures ProcInv(pr, s.subs, s.arrays, chans', s.closed)
  {
  }

  lemma SliceFrame(s: Bus, chans': map<ChanId, Channel>)
    requires SliceInv(s.subs, s.arrays, s.chans) && KeepsTopics(s.chans, chans')
    ensures SliceInv(s.subs, s.arrays, chans')
  {
    forall t ensures OfTopic(chans', ListedIn(s.subs, s.arrays, t), t) {
      assert OfTopic(s.chans, ListedIn(s.subs, s.arrays, t), t);
    }
  }

  /** Everything but a channel's queue and histories is as before. */
  ghost predicate SameButQueues(s: Bus, s': Bus) {
    && s'.subs == s.subs && s'.arrays == s.arrays && s'.closed == s.closed && s'.panicked == s.panicked
    && s'.chans.Keys == s.chans.Keys && KeepsTopics(s.chans, s'.chans)
    && (forall c :: c in s.chans ==> s'.chans[c].closed == s.chans[c].closed)
  }

  ghost predicate QueuesOk(chans: map<ChanId, Channel>) {
    forall c :: c in chans ==> QueueInv(chans[c])
  }

  /** At most one process moves its program counter, and at most the queues change. */
  lemma QuietStepKeeps(s: Bus, s': Bus, p: Pid)
    requires Inv(s) && SameButQueues(s, s') && LockOk(s') && PhaseOf(s') == PhaseOf(s) && QueuesOk(s'.chans)
    requires s'.procs == s.procs || (p in s'.procs && s'.procs == s.procs[p := s'.procs[p]] && ProcInv(s'.procs[p], s.subs, s.arrays, s.chans, s.closed))
    ensures Inv(s')
  {
    SliceFrame(s, s'.chans);
    forall q | q in s'.procs ensures ProcInv(s'.procs[q], s'.subs, s'.arrays, s'.chans, s'.closed) {
      ProcFrame(s'.procs[q], s, s'.chans);
    }
  }

  ghost predicate ProcsOk(s: Bus) {
    forall p :: p in s.procs ==> ProcInv(s.procs[p], s.subs, s.arrays, s.chans, s.closed)
  }

  lemma CancelKeeps(s: Bus, p: Pid)
    requires Inv(s) && Enabled(s, Cancel(p))
    ensures Inv(Do(s, Cancel(p)))
  {
    QuietStepKeeps(s, Do(s, Cancel(p)), p);
  }

  /** A new call waits for the mutex and has touched nothing. */
  lemma NewcomerKeeps(s: Bus, p: Pid, pr: Proc)
    requires Inv(s) && p !in s.procs && ProcInv(pr, s.subs, s.arrays, s.chans, s.closed)
    requires if pr.Pub? then pr.ppc.PWait? else pr.wpc.WWait?
    ensures Inv(s.(procs := s.procs[p := pr]))
  {
    var s' := s.(procs := s.procs[p := pr]);
    LockUpdate(s, s', p, pr);
    QuietStepKeeps(s, s', p);
  }

  lemma SpawnUnsubscribeKeeps(s: Bus, p: Pid, origin: Pid)
    requires Inv(s) && Enabled(s, SpawnUnsubscribe(p, origin))
    ensures Inv(Do(s, SpawnUnsubscribe(p, origin)))
  {
    assert ProcInv(s.procs[origin], s.subs, s.arrays, s.chans, s.closed);
    NewcomerKeeps(s, p, Wr(Unsubscribe(s.procs[origin].op.topic, s.procs[origin].wpc.got.value), WWait));
  }

  lemma SpawnKeeps(s: Bus, step: Step)
    requires Inv(s) && Enabled(s, step) && EnvironmentStep(step) && !step.Receive?
    ensures Inv(Do(s, step))
  {
    match step
    case Cancel(p) => CancelKeeps(s, p);
    case SpawnUnsubscribe(p, o) => SpawnUnsubscribeKeeps(s, p, o);
    case SpawnPublish(p, t, data) => NewcomerKeeps(s, p, Pub(t, data, PWait));
    case SpawnSubscribe(p, t) => NewcomerKeeps(s, p, Wr(Subscribe(t), WWait));
    case SpawnClose(p) => NewcomerKeeps(s, p, Wr(Close, WWait));
  }

  lemma ReceiveQueues(s: Bus, c: ChanId)
    requires Enabled(s, Receive(c)) && QueuesOk(s.chans)
    ensures var s' := Do(s, Receive(c)); QueuesOk(s'.chans) && SameButQueues(s, s') && s'.procs == s.procs
  {
    assert QueueInv(s.chans[c]);
    assert QueueInv(DoReceive(s, c).chans[c]);
  }

  lemma ReceiveMovesNobody(s: Bus, c: ChanId)
    requires LockOk(s) && Enabled(s, Receive(c))
    ensures LockOk(Do(s, Receive(c))) && PhaseOf(Do(s, Receive(c))) == PhaseOf(s)
  {
  }

  lemma ReceiveKeeps(s: Bus, c: ChanId)
    requires Inv(s) && Enabled(s, Receive(c))
    ensures Inv(Do(s, Receive(c)))
  {
    ReceiveMovesNobody(s, c);
    ReceiveQueues(s, c);
    QuietStepKeeps(s, Do(s, Receive(c)), 0);
  }

  lemma LockStepMoves(s: Bus, step: Step)
    requires ProcsOk(s) && Enabled(s, step) && LockStep(step)
    ensures var s' := Do(s, step);
      && step.p in s'.procs && s'.procs == s.procs[step.p := s'.procs[step.p]]
      && ProcInv(s'.procs[step.p], s.subs, s.arrays, s.chans, s.closed)
  {
    assert ProcInv(s.procs[step.p], s.subs, s.arrays, s.chans, s.closed);
  }

  lemma LockStepTouchesOnlyLock(s: Bus, step: Step)
    requires QueuesOk(s.chans) && Enabled(s, step) && LockStep(step)
    ensures SameButQueues(s, Do(s, step)) && QueuesOk(Do(s, step).chans)
  {
  }

  lemma LockStepKeeps(s: Bus, step: Step)
    requires Inv(s) && Enabled(s, step) && LockStep(step)
    ensures Inv(Do(s, step))
  {
    LockKeepsLockStep(s, step);
    PhaseKeepsLock(s, step);
    LockStepMoves(s, step);
    LockStepTouchesOnlyLock(s, step);
    QuietStepKeeps(s, Do(s, step), step.p);
  }

  lemma PublisherMoves(s: Bus, step: Step)
    requires LockOk(s) && SliceInv(s.subs, s.arrays, s.chans) && ProcsOk(s) && (s.closed ==> s.subs == map[] || PhaseOf(s).Closing?)
    requires Enabled(s, step) && PublisherStep(step) && !step.Send?
    ensures var s' := Do(s, step);
      && step.p in s'.procs && s'.procs == s.procs[step.p := s'.procs[step.p]]
      && ProcInv(s'.procs[step.p], s.subs, s.arrays, s.chans, s.closed)
  {
    assert ProcInv(s.procs[step.p], s.subs, s.arrays, s.chans, s.closed);
    assert OfTopic(s.chans, ListedIn(s.subs, s.arrays, s.procs[step.p].topic), s.procs[step.p].topic);
  }

  lemma PublisherTouchesOnlyItself(s: Bus, step: Step)
    requires QueuesOk(s.chans) && Enabled(s, step) && PublisherStep(step) && !step.Send?
    ensures SameButQueues(s, Do(s, step)) && QueuesOk(Do(s, step).chans)
  {
  }

  lemma PublisherStepKeeps(s: Bus, step: Step)
    requires Inv(s) && Enabled(s, step) && PublisherStep(step) && !step.Send?
    ensures Inv(Do(s, step))
  {
    LockKeepsPublisher(s, step);
    PhaseKeepsPublisher(s, step);
    PublisherMoves(s, step);
    PublisherTouchesOnlyItself(s, step);
    QuietStepKeeps(s, Do(s, step), step.p);
  }

  /** A publisher in its loop sends on a channel its topic lists, and that channel is open. */
  lemma TargetOpen(s: Bus, p: Pid)
    requires Inv(s) && AtSend(s, p)
    ensures s.procs[p].ppc.n < |s.procs[p].ppc.atLock| && Target(s, p) == s.procs[p].ppc.atLock[s.procs[p].ppc.n]
    ensures !s.chans[Target(s, p)].closed
  {
    var pr := s.procs[p];
    assert p in s.readers;
    assert Target(s, p) in ListedIn(s.subs, s.arrays, pr.topic);
  }

  lemma SendQueues(s: Bus, p: Pid)
    requires Enabled(s, Send(p)) && !s.chans[Target(s, p)].closed && QueuesOk(s.chans)
    requires ProcInv(s.procs[p], s.subs, s.arrays, s.chans, s.closed) && s.procs[p].ppc.n < |s.procs[p].ppc.atLock|
    ensures var s' := Do(s, Send(p));
      && QueuesOk(s'.chans) && SameButQueues(s, s')
      && s'.procs == s.procs[p := s'.procs[p]] && ProcInv(s'.procs[p], s.subs, s.arrays, s.chans, s.closed)
  {
    var s' := Do(s, Send(p));
    var c := Target(s, p);
    assert QueueInv(s.chans[c]);
    assert QueueInv(s'.chans[c]);
  }

  lemma SendKeeps(s: Bus, p: Pid)
    requires Inv(s) && Enabled(s, Send(p))
    ensures Inv(Do(s, Send(p)))
  {
    TargetOpen(s, p);
    LockKeepsPublisher(s, Send(p));
    PhaseKeepsPublisher(s, Send(p));
    SendQueues(s, p);
    QuietStepKeeps(s, Do(s, Send(p)), p);
  }

  /** While one process writes, every other one only remembers channels and their topics. */
  lemma CriticalKeeps(s: Bus, s': Bus, p: Pid)
    requires Inv(s) && s.writer == Some(p)
    requires p in s'.procs && s'.procs == s.procs[p := s'.procs[p]] && HoldsWrite(s'.procs[p])
    requires s'.readers == s.readers && s'.pending == s.pending && s'.writer == s.writer
    requires KeepsTopics(s.chans, s'.chans) && QueuesOk(s'.chans) && !s'.panicked
    requires ProcInv(s'.procs[p], s'.subs, s'.arrays, s'.chans, s'.closed)
    requires SliceInv(s'.subs, s'.arrays, s'.chans) && OpenInv(PhaseOf(s'), s'.subs, s'.arrays, s'.chans)
    requires s'.closed ==> s'.subs == map[] || PhaseOf(s').Closing?
    ensures Inv(s')
  {
    LockUpdate(s, s', p, s'.procs[p]);
    forall q | q in s'.procs ensures ProcInv(s'.procs[q], s'.subs, s'.arrays, s'.chans, s'.closed) {
      if q != p {
        assert ProcInv(s.procs[q], s.subs, s.arrays, s.chans, s.closed);
        assert !HoldsRead(s.procs[q]) && !HoldsWrite(s.procs[q]);
      }
    }
  }

  /** A process inside its critical section holds the exclusive lock. */
  lemma InCritical(s: Bus, p: Pid)
    requires Inv(s) && p in s.procs && HoldsWrite(s.procs[p])
    ensures s.writer == Some(p) && s.readers == {} && s.pending.None?
    ensures ProcInv(s.procs[p], s.subs, s.arrays, s.chans, s.closed)
  {
  }

  lemma BeginCloseOwnsAll(s: Bus, p: Pid)
    requires Inv(s) && Enabled(s, BeginClose(p)) && !s.closed
    ensures var s' := DoBeginClose(s, p);
      && PhaseOf(s') == Closing(s.subs.Keys, None, 0)
      && OpenInv(PhaseOf(s'), s'.subs, s'.arrays, s'.chans)
  {
    InCritical(s, p);
    assert PhaseOf(s) == Whole;
    forall c | c in s.chans
      ensures !s.chans[c].closed <==> Owned(Closing(s.subs.Keys, None, 0), s.subs, s.arrays, s.chans[c].topic, c)
    {
      assert !s.chans[c].closed <==> Owned(Whole, s.subs, s.arrays, s.chans[c].topic, c);
    }
  }

  lemma BeginCloseKeeps(s: Bus, p: Pid)
    requires Inv(s) && Enabled(s, BeginClose(p))
    ensures Inv(Do(s, BeginClose(p)))
  {
    InCritical(s, p);
    if !s.closed {
      BeginCloseOwnsAll(s, p);
    } else {
      assert PhaseOf(s) == PhaseOf(DoBeginClose(s, p)) == Whole;
    }
    CriticalKeeps(s, DoBeginClose(s, p), p);
  }

  lemma PickTopicKeeps(s: Bus, p: Pid, t: Topic)
    requires Inv(s) && Enabled(s, PickTopic(p, t))
    ensures Inv(Do(s, PickTopic(p, t)))
  {
    InCritical(s, p);
    CriticalKeeps(s, DoPickTopic(s, p, t), p);
  }

  /** Closing an open channel the writer owns: what is left to it is what it owned before, less that channel. */
  lemma ClosedChannelKeeps(s: Bus, s1: Bus, p: Pid, c: ChanId)
    requires Inv(s) && s.writer == Some(p) && c in s.chans && Owned(PhaseOf(s), s.subs, s.arrays, s.chans[c].topic, c)
    requires IsWr(s, p) && IsWr(s1, p) && s1.procs == s.procs[p := s1.procs[p]] && HoldsWrite(s1.procs[p]) && s1 == s.(procs := s1.procs)
    requires ProcInv(s1.procs[p], s.subs, s.arrays, s.chans, s.closed)
    requires s.closed ==> s.subs == map[] || PhaseOf(s1).Closing?
    requires forall d :: d in s.chans ==>
      (Owned(PhaseOf(s1), s.subs, s.arrays, s.chans[d].topic, d) <==> d != c && Owned(PhaseOf(s), s.subs, s.arrays, s.chans[d].topic, d))
    ensures Inv(CloseChannel(s1, c))
  {
    var s' := CloseChannel(s1, c);
    assert PhaseOf(s') == PhaseOf(s1);
    SliceFrame(s, s'.chans);
    ProcFrame(s1.procs[p], s, s'.chans);
    CriticalKeeps(s, s', p);
  }

  /** Closing moves on by one channel of a list without repetitions. */
  lemma OwnedAfterCloseNext(s: Bus, todo: set<Topic>, t: Topic, i: nat)
    requires SliceInv(s.subs, s.arrays, s.chans) && t !in todo && i < |Listed(s, t)|
    ensures forall d :: d in s.chans ==>
      (Owned(Closing(todo, Some(t), i + 1), s.subs, s.arrays, s.chans[d].topic, d) <==>
       d != Listed(s, t)[i] && Owned(Closing(todo, Some(t), i), s.subs, s.arrays, s.chans[d].topic, d))
    ensures Owned(Closing(todo, Some(t), i), s.subs, s.arrays, t, Listed(s, t)[i])
  {
    var q := ListedIn(s.subs, s.arrays, t);
    assert OfTopic(s.chans, q, t) && Distinct(q);
    assert q[i..] == [q[i]] + q[i + 1..];
  }

  lemma CloseNextKeeps(s: Bus, p: Pid)
    requires Inv(s) && Enabled(s, CloseNext(p))
    ensures Inv(Do(s, CloseNext(p)))
  {
    InCritical(s, p);
    var pc := s.procs[p].wpc;
    var s1, t := SetWr(s, p, pc.(i := pc.i + 1)), pc.cur.value;
    var c := Listed(s, t)[pc.i];
    assert OfTopic(s.chans, Listed(s, t), t);
    assert PhaseOf(s) == Closing(pc.todo, Some(t), pc.i) && PhaseOf(s1) == Closing(pc.todo, Some(t), pc.i + 1);
    OwnedAfterCloseNext(s, pc.todo, t, pc.i);
    ClosedChannelKeeps(s, s1, p, c);
  }

  lemma CloseOneKeeps(s: Bus, p: Pid)
    requires Inv(s) && Enabled(s, CloseOne(p))
    ensures Inv(Do(s, CloseOne(p)))
  {
    InCritical(s, p);
    var op := s.procs[p].op;
    assert [op.ch][0] in s.chans && s.chans[[op.ch][0]].topic == op.topic;
    ClosedChannelKeeps(s, SetWr(s, p, WReturn(None)), p, op.ch);
  }

  lemma EndCloseOwnsNothing(s: Bus, p: Pid)
    requires Inv(s) && Enabled(s, EndClose(p))
    ensures var s' := Do(s, EndClose(p)); PhaseOf(s') == Whole && OpenInv(Whole, s'.subs, s'.arrays, s'.chans)
  {
    InCritical(s, p);
    var pc := s.procs[p].wpc;
    assert PhaseOf(s) == Closing(pc.todo, pc.cur, pc.i);
    forall c | c in s.chans ensures s.chans[c].closed {
      assert !Owned(PhaseOf(s), s.subs, s.arrays, s.chans[c].topic, c);
    }
  }

  lemma NoListsAreInOrder(arrays: map<ArrId, seq<ChanId>>, chans: map<ChanId, Channel>)
    requires 0 in arrays && arrays[0] == []
    ensures SliceInv(map[], arrays, chans)
  {
  }

  lemma EndCloseKeeps(s: Bus, p: Pid)
    requires Inv(s) && Enabled(s, EndClose(p))
    ensures Inv(Do(s, EndClose(p)))
  {
    InCritical(s, p);
    EndCloseOwnsNothing(s, p);
    NoListsAreInOrder(s.arrays, s.chans);
    CriticalKeeps(s, Do(s, EndClose(p)), p);
  }

  lemma SplicedView(a: seq<ChanId>, n: nat, i: nat)
    requires i < n <= |a|
    ensures SplicedOut(a, n, i)[..n - 1] == a[..n][..i] + a[..n][i + 1..]
  {
  }

  lemma WithoutOne(q: seq<ChanId>, i: nat)
    requires Distinct(q) && i < |q|
    ensures q[i] !in q[..i] + q[i + 1..]
  {
  }

  lemma OtherListsAfterSplice(s: Bus, p: Pid, u: Topic)
    requires Inv(s) && Enabled(s, Splice(p)) && u != s.procs[p].op.topic
    ensures Listed(DoSplice(s, p), u) == Listed(s, u)
  {
  }

  lemma SplicedIsListed(s: Bus, p: Pid)
    requires Enabled(s, Splice(p)) && SliceIn(s.arrays, Header(s, s.procs[p].op.topic)) && DoSplice(s, p).procs[p].wpc.WSpliced?
    ensures var t, ch := s.procs[p].op.topic, s.procs[p].op.ch;
      && t in s.subs && IndexOf(Listed(s, t), ch) < |Listed(s, t)| == s.subs[t].len
      && DoSplice(s, p).subs == s.subs[t := Slice(s.subs[t].arr, s.subs[t].len - 1)]
      && DoSplice(s, p).arrays == s.arrays[s.subs[t].arr := SplicedOut(s.arrays[s.subs[t].arr], s.subs[t].len, IndexOf(Listed(s, t), ch))]
  {
  }

  lemma OwnListAfterSplice(s: Bus, p: Pid)
    requires Enabled(s, Splice(p)) && SliceIn(s.arrays, Header(s, s.procs[p].op.topic)) && DoSplice(s, p).procs[p].wpc.WSpliced?
    ensures var t, ch := s.procs[p].op.topic, s.procs[p].op.ch;
      var q, i := Listed(s, t), IndexOf(Listed(s, t), ch);
      i < |q| && q[i] == ch && Listed(DoSplice(s, p), t) == q[..i] + q[i + 1..]
  {
    var t, ch := s.procs[p].op.topic, s.procs[p].op.ch;
    SplicedIsListed(s, p);
    SplicedView(s.arrays[s.subs[t].arr], s.subs[t].len, IndexOf(Listed(s, t), ch));
  }

  /** The in-place splice drops one channel from its topic's list and leaves every other list alone. */
  lemma ListedAfterSplice(s: Bus, p: Pid)
    requires Inv(s) && Enabled(s, Splice(p)) && DoSplice(s, p).procs[p].wpc.WSpliced?
    ensures var t, ch := s.procs[p].op.topic, s.procs[p].op.ch;
      var q, q' := Listed(s, t), Listed(DoSplice(s, p), t);
      ch in q && q' == q[..IndexOf(q, ch)] + q[IndexOf(q, ch) + 1..] && ch !in q'
    ensures forall u :: u != s.procs[p].op.topic ==> Listed(DoSplice(s, p), u) == Listed(s, u)
  {
    var t, ch := s.procs[p].op.topic, s.procs[p].op.ch;
    OwnListAfterSplice(s, p);
    assert Distinct(ListedIn(s.subs, s.arrays, t));
    WithoutOne(Listed(s, t), IndexOf(Listed(s, t), ch));
    forall u | u != t ensures Listed(DoSplice(s, p), u) == Listed(s, u) {
      OtherListsAfterSplice(s, p, u);
    }
  }

  /** Rewriting one topic's list with distinct channels of that topic keeps every list in order. */
  lemma SliceInvAfter(s: Bus, s': Bus, t: Topic)
    requires SliceInv(s.subs, s.arrays, s.chans) && KeepsTopics(s.chans, s'.chans)
    requires 0 in s'.arrays && s'.arrays[0] == []
    requires t in s'.subs && s'.subs == s.subs[t := s'.subs[t]] && s'.subs[t].arr != 0 && SliceIn(s'.arrays, s'.subs[t])
    requires s'.subs[t].arr !in s.arrays || (t in s.subs && s'.subs[t].arr == s.subs[t].arr)
    requires forall a :: a in s.arrays && a != s'.subs[t].arr ==> a in s'.arrays && s'.arrays[a] == s.arrays[a]
    requires OfTopic(s'.chans, Listed(s', t), t) && Distinct(Listed(s', t))
    ensures SliceInv(s'.subs, s'.arrays, s'.chans)
  {
    forall u ensures OfTopic(s'.chans, ListedIn(s'.subs, s'.arrays, u), u) && Distinct(ListedIn(s'.subs, s'.arrays, u)) {
      if u != t { assert Distinct(Listed(s, u)) && OfTopic(s.chans, Listed(s, u), u); }
    }
  }

  lemma RemovedMembers(q: seq<ChanId>, i: nat)
    requires i < |q|
    ensures forall c :: c in q <==> c in q[..i] + q[i + 1..] || c == q[i]
  {
    assert q == q[..i] + [q[i]] + q[i + 1..];
  }

  /** Unlisting `ch` under the lock leaves exactly `ch` to be closed. */
  lemma OpenAfterSplice(s: Bus, s': Bus, t: Topic, i: nat)
    requires SliceInv(s.subs, s.arrays, s.chans) && OpenInv(Whole, s.subs, s.arrays, s.chans) && s'.chans == s.chans
    requires i < |Listed(s, t)| && Listed(s', t) == Listed(s, t)[..i] + Listed(s, t)[i + 1..]
    requires forall u :: u != t ==> Listed(s', u) == Listed(s, u)
    ensures OpenInv(Spliced(Listed(s, t)[i]), s'.subs, s'.arrays, s'.chans)
    ensures OfTopic(s'.chans, Listed(s', t), t) && Distinct(Listed(s', t))
  {
    var q := Listed(s, t);
    RemovedMembers(q, i);
    assert OfTopic(s.chans, q, t) && Distinct(q);
    assert s.chans[q[i]].topic == t;
    forall c | c in s'.chans ensures !s'.chans[c].closed <==> Owned(Spliced(q[i]), s'.subs, s'.arrays, s'.chans[c].topic, c) {
      assert !s.chans[c].closed <==> Owned(Whole, s.subs, s.arrays, s.chans[c].topic, c);
      assert Listed(s, s.chans[c].topic) == if s.chans[c].topic == t then q else Listed(s', s.chans[c].topic);
    }
  }

  /** What the splice touches: one array cell range, one header, one program counter. */
  lemma SpliceShape(s: Bus, p: Pid)
    requires Enabled(s, Splice(p)) && SliceIn(s.arrays, Header(s, s.procs[p].op.topic))
    ensures var s', t := DoSplice(s, p), s.procs[p].op.topic;
      && p in s'.procs && s' == s.(procs := s.procs[p := s'.procs[p]], arrays := s'.arrays, subs := s'.subs)
      && s'.procs[p].Wr? && s'.procs[p].op == s.procs[p].op
      && (s'.procs[p].wpc == WReturn(None) ==> s'.arrays == s.arrays && s'.subs == s.subs)
      && (s'.procs[p].wpc != WReturn(None) ==>
        && s'.procs[p].wpc.WSpliced? && !s.closed && t in s.subs && s'.subs == s.subs[t := Slice(s.subs[t].arr, s.subs[t].len - 1)]
        && IndexOf(Listed(s, t), s.procs[p].op.ch) < |Listed(s, t)|
        && (forall a :: a in s.arrays && a != s.subs[t].arr ==> a in s'.arrays && s'.arrays[a] == s.arrays[a])
        && s.subs[t].arr in s'.arrays && |s'.arrays[s.subs[t].arr]| == |s.arrays[s.subs[t].arr]|)
  {
  }

  lemma SpliceEffect(s: Bus, p: Pid)
    requires Inv(s) && Enabled(s, Splice(p)) && DoSplice(s, p).procs[p].wpc.WSpliced?
    ensures var s', op := DoSplice(s, p), s.procs[p].op;
      && !s'.closed && s' == s.(procs := s.procs[p := Wr(op, WSpliced)], arrays := s'.arrays, subs := s'.subs)
      && op.ch !in Listed(s', op.topic) && SliceInv(s'.subs, s'.arrays, s'.chans)
      && OpenInv(Spliced(op.ch), s'.subs, s'.arrays, s'.chans)
  {
    InCritical(s, p);
    SpliceShape(s, p);
    ListedAfterSplice(s, p);
    var s', t := DoSplice(s, p), s.procs[p].op.topic;
    assert PhaseOf(s) == Whole;
    OpenAfterSplice(s, s', t, IndexOf(Listed(s, t), s.procs[p].op.ch));
    SliceInvAfter(s, s', t);
  }

  lemma SpliceFoundKeeps(s: Bus, p: Pid)
    requires Inv(s) && Enabled(s, Splice(p)) && DoSplice(s, p).procs[p].wpc.WSpliced?
    ensures Inv(DoSplice(s, p))
  {
    InCritical(s, p);
    SpliceEffect(s, p);
    assert PhaseOf(DoSplice(s, p)) == Spliced(s.procs[p].op.ch);
    CriticalKeeps(s, DoSplice(s, p), p);
  }

  lemma SpliceIdleKeeps(s: Bus, p: Pid)
    requires Inv(s) && Enabled(s, Splice(p)) && !DoSplice(s, p).procs[p].wpc.WSpliced?
    ensures Inv(DoSplice(s, p))
  {
    InCritical(s, p);
    assert PhaseOf(DoSplice(s, p)) == PhaseOf(s) == Whole;
    CriticalKeeps(s, DoSplice(s, p), p);
  }

  lemma SpliceKeeps(s: Bus, p: Pid)
    requires Inv(s) && Enabled(s, Splice(p))
    ensures Inv(Do(s, Splice(p)))
  {
    if DoSplice(s, p).procs[p].wpc.WSpliced? {
      SpliceFoundKeeps(s, p);
    } else {
      SpliceIdleKeeps(s, p);
    }
  }

  /** A subscription goes to the end of its topic's list, in place or in a larger array, and leaves every other list alone. */
  lemma ListedAfterRegister(s: Bus, p: Pid, ch: ChanId, arr: ArrId, spare: seq<ChanId>)
    requires Inv(s) && Enabled(s, Register(p, ch, arr, spare)) && !s.closed
    ensures Listed(DoRegister(s, p, ch, arr, spare), s.procs[p].op.topic) == Listed(s, s.procs[p].op.topic) + [ch]
    ensures forall u :: u != s.procs[p].op.topic ==> Listed(DoRegister(s, p, ch, arr, spare), u) == Listed(s, u)
  {
  }

  lemma OpenAfterRegister(s: Bus, s': Bus, t: Topic, ch: ChanId)
    requires SliceInv(s.subs, s.arrays, s.chans) && OpenInv(Whole, s.subs, s.arrays, s.chans)
    requires ch !in s.chans && s'.chans == s.chans[ch := Channel(t, [], [], [], false)] && Listed(s', t) == Listed(s, t) + [ch]
    requires forall u :: u != t ==> Listed(s', u) == Listed(s, u)
    ensures OpenInv(Whole, s'.subs, s'.arrays, s'.chans)
    ensures OfTopic(s'.chans, Listed(s', t), t) && Distinct(Listed(s', t))
  {
    assert OfTopic(s.chans, Listed(s, t), t) && Distinct(Listed(s, t));
    forall c | c in s'.chans ensures !s'.chans[c].closed <==> Owned(Whole, s'.subs, s'.arrays, s'.chans[c].topic, c) {
      if c != ch {
        assert !s.chans[c].closed <==> Owned(Whole, s.subs, s.arrays, s.chans[c].topic, c);
        assert Listed(s', s.chans[c].topic) == Listed(s, s.chans[c].topic) + if s.chans[c].topic == t then [ch] else [];
      }
    }
  }

  lemma RegisterShape(s: Bus, p: Pid, ch: ChanId, arr: ArrId, spare: seq<ChanId>)
    requires Enabled(s, Register(p, ch, arr, spare)) && SliceIn(s.arrays, Header(s, s.procs[p].op.topic)) && !s.closed
    ensures var s', t := DoRegister(s, p, ch, arr, spare), s.procs[p].op.topic;
      && s' == s.(procs := s.procs[p := Wr(s.procs[p].op, WReturn(Some(ch)))], arrays := s'.arrays, subs := s'.subs, chans := s'.chans)
      && s'.chans == s.chans[ch := Channel(t, [], [], [], false)]
      && t in s'.subs && s'.subs == s.subs[t := s'.subs[t]] && SliceIn(s'.arrays, s'.subs[t])
      && (s'.subs[t].arr == arr || s'.subs[t].arr == Header(s, t).arr)
      && (s'.subs[t].arr != arr ==> Header(s, t).len < |s.arrays[Header(s, t).arr]|)
      && (forall a :: a in s.arrays && a != s'.subs[t].arr ==> a in s'.arrays && s'.arrays[a] == s.arrays[a])
  {
  }

  lemma RegisterEffect(s: Bus, p: Pid, ch: ChanId, arr: ArrId, spare: seq<ChanId>)
    requires Inv(s) && Enabled(s, Register(p, ch, arr, spare)) && !s.closed
    ensures var s', op := DoRegister(s, p, ch, arr, spare), s.procs[p].op;
      && !s'.closed && s' == s.(procs := s.procs[p := Wr(op, WReturn(Some(ch)))], arrays := s'.arrays, subs := s'.subs, chans := s'.chans)
      && s'.chans == s.chans[ch := Channel(op.topic, [], [], [], false)]
      && SliceInv(s'.subs, s'.arrays, s'.chans) && OpenInv(Whole, s'.subs, s'.arrays, s'.chans)
  {
    InCritical(s, p);
    assert PhaseOf(s) == Whole;
    RegisterShape(s, p, ch, arr, spare);
    ListedAfterRegister(s, p, ch, arr, spare);
    var s', t := DoRegister(s, p, ch, arr, spare), s.procs[p].op.topic;
    OpenAfterRegister(s, s', t, ch);
    SliceInvAfter(s, s', t);
  }

  lemma RegisterOnClosedKeeps(s: Bus, p: Pid, ch: ChanId, arr: ArrId, spare: seq<ChanId>)
    requires Inv(s) && Enabled(s, Register(p, ch, arr, spare)) && s.closed
    ensures Inv(DoRegister(s, p, ch, arr, spare))
  {
    InCritical(s, p);
    var s' := DoRegister(s, p, ch, arr, spare);
    assert PhaseOf(s) == PhaseOf(s') == Whole;
    CriticalKeeps(s, s', p);
  }

  lemma NewChannelKeeps(chans: map<ChanId, Channel>, ch: ChanId, t: Topic)
    requires QueuesOk(chans) && ch !in chans
    ensures var chans' := chans[ch := Channel(t, [], [], [], false)]; QueuesOk(chans') && KeepsTopics(chans, chans')
  {
  }

  lemma RegisterOnOpenKeeps(s: Bus, p: Pid, ch: ChanId, arr: ArrId, spare: seq<ChanId>)
    requires Inv(s) && Enabled(s, Register(p, ch, arr, spare)) && !s.closed
    ensures Inv(DoRegister(s, p, ch, arr, spare))
  {
    InCritical(s, p);
    RegisterEffect(s, p, ch, arr, spare);
    NewChannelKeeps(s.chans, ch, s.procs[p].op.topic);
    var s' := DoRegister(s, p, ch, arr, spare);
    assert PhaseOf(s') == Whole;
    CriticalKeeps(s, s', p);
  }

  lemma RegisterKeeps(s: Bus, p: Pid, ch: ChanId, arr: ArrId, spare: seq<ChanId>)
    requires Inv(s) && Enabled(s, Register(p, ch, arr, spare))
    ensures Inv(Do(s, Register(p, ch, arr, spare)))
  {
    if s.closed {
      RegisterOnClosedKeeps(s, p, ch, arr, spare);
    } else {
      RegisterOnOpenKeeps(s, p, ch, arr, spare);
    }
  }

  lemma CriticalStepKeeps(s: Bus, step: Step)
    requires Inv(s) && Enabled(s, step) && CriticalStep(step)
    ensures Inv(Do(s, step))
  {
    match step
    case Register(p, ch, arr, spare) => RegisterKeeps(s, p, ch, arr, spare);
    case Splice(p) => SpliceKeeps(s, p);
    case CloseOne(p) => CloseOneKeeps(s, p);
    case BeginClose(p) => BeginCloseKeeps(s, p);
    case PickTopic(p, t) => PickTopicKeeps(s, p, t);
    case CloseNext(p) => CloseNextKeeps(s, p);
    case EndClose(p) => EndCloseKeeps(s, p);
  }

  /** Every step of every goroutine keeps the invariant. */
  lemma StepKeeps(s: Bus, step: Step)
    requires Inv(s) && Enabled(s, step)
    ensures Inv(Do(s, step))
  {
    if CriticalStep(step) {
      CriticalStepKeeps(s, step);
    } else if LockStep(step) {
      LockStepKeeps(s, step);
    } else if step.Send? {
      SendKeeps(s, step.p);
    } else if PublisherStep(step) {
      PublisherStepKeeps(s, step);
    } else if step.Receive? {
      ReceiveKeeps(s, step.c);
    } else {
      SpawnKeeps(s, step);
    }
  }

  lemma {:induction false} RunKeeps(s: Bus, steps: seq<Step>)
    requires Inv(s) && CanRun(s, steps)
    ensures Inv(Run(s, steps))
    decreases |steps|
  {
    if steps != [] {
      StepKeeps(s, steps[0]);
      RunKeeps(Do(s, steps[0]), steps[1..]);
    }
  }

  lemma ReachableInv(s: Bus)
    requires Reachable(s)
    ensures Inv(s)
  {
    var steps :| CanRun(INITIAL, steps) && Run(INITIAL, steps) == s;
    InitialInv();
    RunKeeps(INITIAL, steps);
  }

  /**
    The bus never panics: in no interleaving of publishers, subscribers, unsubscribers, closers and
    receivers is a message sent on a closed channel or a channel closed twice.
  */
  lemma NeverPanics(steps: seq<Step>)
    requires CanRun(INITIAL, steps)
    ensures !Run(INITIAL, steps).panicked
  {
    ReachableInv(Run(INITIAL, steps));
  }

  /** Whenever no writer is at work, the map lists exactly the open channels, each once, under its own topic. */
  lemma ListedIffOpen(s: Bus, c: ChanId)
    requires Reachable(s) && s.writer.None? && c in s.chans
    ensures !s.chans[c].closed <==> c in Listed(s, s.chans[c].topic)
    ensures forall t :: c in Listed(s, t) ==> t == s.chans[c].topic
    ensures forall t, j, k :: 0 <= j < |Listed(s, t)| && 0 <= k < |Listed(s, t)| && Listed(s, t)[j] == c && Listed(s, t)[k] == c ==> j == k
  {
    ReachableInv(s);
    forall t ensures OfTopic(s.chans, Listed(s, t), t) && Distinct(Listed(s, t)) {
      assert OfTopic(s.chans, ListedIn(s.subs, s.arrays, t), t);
    }
  }

  /** After Close has returned nothing is open, and no later step opens anything. */
  lemma ClosedBusHasNoOpenChannel(s: Bus, c: ChanId)
    requires Reachable(s) && s.closed && s.writer.None? && c in s.chans
    ensures s.chans[c].closed
  {
    ReachableInv(s);
  }

  /**
    While a publisher is in its loop, what it has left to visit is the tail of its topic's current
    list, and the channels ahead of it are open, although unsubscribing edits the array it iterates.
  */
  lemma LoopSeesUntouchedTail(s: Bus, p: Pid)
    requires Reachable(s) && IsPub(s, p) && s.procs[p].ppc.PSend?
    ensures var pc := s.procs[p].ppc;
      && SliceIn(s.arrays, pc.slice) && pc.n <= pc.slice.len == |Listed(s, s.procs[p].topic)| == |pc.atLock|
      && s.arrays[pc.slice.arr][pc.n..pc.slice.len] == Listed(s, s.procs[p].topic)[pc.n..] == pc.atLock[pc.n..]
      && (forall k :: pc.n <= k < |pc.atLock| ==> pc.atLock[k] in s.chans && !s.chans[pc.atLock[k]].closed)
  {
    ReachableInv(s);
    var pr := s.procs[p];
    assert p in s.readers && PhaseOf(s) == Whole;
    assert ProcInv(pr, s.subs, s.arrays, s.chans, s.closed);
    assert OfTopic(s.chans, pr.ppc.atLock, pr.topic);
    assert SliceIn(s.arrays, pr.ppc.slice);
    forall k | pr.ppc.n <= k < |pr.ppc.atLock| ensures pr.ppc.atLock[k] in s.chans && !s.chans[pr.ppc.atLock[k]].closed {
      assert pr.ppc.atLock[k] in ListedIn(s.subs, s.arrays, pr.topic);
    }
  }
}
