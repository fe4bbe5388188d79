/**
  The in-process event bus as a state machine over the steps of its goroutines.

  The shared state is what the bus holds: a read-write mutex, the closed flag, the map from
  topic to slice, the backing arrays those slices point into, and the subscriber channels.
  Every step is one action between two scheduling points: taking or releasing the mutex,
  reading the slice header, one send of the publish loop, the in-place splice, one close, one
  receive. Sending on a closed channel and closing a channel twice set `panicked`, as they do
  in Go; nothing in the step function prevents them.
*/
module EventBus {
  import opened Wrappers

  type Pid = nat
  type ChanId = nat
  type ArrId = nat
  type Topic = string
  type Byte = x: int | 0 <= x < 256
  type Bytes = seq<Byte>

  /** Capacity given to every subscriber channel. */
  const CHANNEL_CAPACITY: nat := 64

  /** A Go slice with offset zero: the first `len` cells of a backing array. */
  datatype Slice = Slice(arr: ArrId, len: nat)

  /** The nil slice: what a map read yields for an absent topic. Array 0 has no cells. */
  const NIL_SLICE := Slice(0, 0)

  datatype Entry = Entry(from: Pid, payload: Bytes)

  /** `sent` and `received` are histories; `buffer` is the channel's queue. */
  datatype Channel = Channel(topic: Topic, sent: seq<Entry>, received: seq<Entry>, buffer: seq<Entry>, closed: bool)

  datatype Outcome = Delivered | ContextError | BusClosed

  /** Publisher program counter. `atLock` records the topic's subscribers when the read lock was taken, `n` the sends made. */
  datatype PubPc =
    | PWait
    | PLocked(atLock: seq<ChanId>)
    | PSend(atLock: seq<ChanId>, slice: Slice, n: nat)
    | PReturn(atLock: seq<ChanId>, n: nat, outcome: Outcome)
    | PDone(atLock: seq<ChanId>, n: nat, outcome: Outcome)

  datatype WriteOp = Subscribe(topic: Topic) | Unsubscribe(topic: Topic, ch: ChanId) | Close

  /** Program counter of an operation that takes the exclusive lock. */
  datatype WritePc =
    | WWait
    | WAnnounced
    | WLocked
    | WSpliced
    | WClosing(todo: set<Topic>, cur: Option<Topic>, slice: Slice, i: nat)
    | WReturn(got: Option<ChanId>)
    | WDone(got: Option<ChanId>)

  datatype Proc =
    | Pub(topic: Topic, data: Bytes, ppc: PubPc)
    | Wr(op: WriteOp, wpc: WritePc)

  datatype Bus = Bus(
    procs: map<Pid, Proc>,
    cancelled: set<Pid>,
    readers: set<Pid>,
    pending: Option<Pid>,
    writer: Option<Pid>,
    closed: bool,
    subs: map<Topic, Slice>,
    arrays: map<ArrId, seq<ChanId>>,
    chans: map<ChanId, Channel>,
    panicked: bool)

  const INITIAL := Bus(map[], {}, {}, None, None, false, map[], map[0 := []], map[], false)

  datatype Step =
    | SpawnPublish(p: Pid, topic: Topic, data: Bytes)
    | SpawnSubscribe(p: Pid, topic: Topic)
    | SpawnUnsubscribe(p: Pid, origin: Pid)
    | SpawnClose(p: Pid)
    | Cancel(p: Pid)
    | RLock(p: Pid)
    | ReadHeader(p: Pid)
    | Send(p: Pid)
    | GiveUp(p: Pid)
    | Finish(p: Pid)
    | RUnlock(p: Pid)
    | Announce(p: Pid)
    | Acquire(p: Pid)
    | Register(p: Pid, ch: ChanId, arr: ArrId, spare: seq<ChanId>)
    | Splice(p: Pid)
    | CloseOne(p: Pid)
    | BeginClose(p: Pid)
    | PickTopic(p: Pid, t: Topic)
    | CloseNext(p: Pid)
    | EndClose(p: Pid)
    | Unlock(p: Pid)
    | Receive(c: ChanId)

  // ----- reading the shared state

  function HeaderIn(subs: map<Topic, Slice>, t: Topic): Slice {
    if t in subs then subs[t] else NIL_SLICE
  }

  predicate SliceIn(arrays: map<ArrId, seq<ChanId>>, sl: Slice) {
    sl.arr in arrays && sl.len <= |arrays[sl.arr]|
  }

  /** The channels a slice denotes. */
  function ViewIn(arrays: map<ArrId, seq<ChanId>>, sl: Slice): seq<ChanId> {
    if SliceIn(arrays, sl) then arrays[sl.arr][..sl.len] else []
  }

  function ListedIn(subs: map<Topic, Slice>, arrays: map<ArrId, seq<ChanId>>, t: Topic): seq<ChanId> {
    ViewIn(arrays, HeaderIn(subs, t))
  }

  function Header(s: Bus, t: Topic): Slice {
    HeaderIn(s.subs, t)
  }

  /** The channels registered for a topic, in subscription order. */
  function Listed(s: Bus, t: Topic): seq<ChanId> {
    ListedIn(s.subs, s.arrays, t)
  }

  predicate IsPub(s: Bus, p: Pid) {
    p in s.procs && s.procs[p].Pub?
  }

  predicate IsWr(s: Bus, p: Pid) {
    p in s.procs && s.procs[p].Wr?
  }

  /** The channel the publish loop is about to send on. */
  function Target(s: Bus, p: Pid): (c: ChanId)
    requires IsPub(s, p) && s.procs[p].ppc.PSend? && SliceIn(s.arrays, s.procs[p].ppc.slice) && s.procs[p].ppc.n < s.procs[p].ppc.slice.len
  {
    s.arrays[s.procs[p].ppc.slice.arr][s.procs[p].ppc.n]
  }

  predicate AtSend(s: Bus, p: Pid) {
    && IsPub(s, p) && s.procs[p].ppc.PSend?
    && SliceIn(s.arrays, s.procs[p].ppc.slice) && s.procs[p].ppc.n < s.procs[p].ppc.slice.len
    && Target(s, p) in s.chans
  }

  predicate AtClose(s: Bus, p: Pid) {
    && IsWr(s, p) && s.procs[p].wpc.WClosing?
    && SliceIn(s.arrays, s.procs[p].wpc.slice) && s.procs[p].wpc.i < s.procs[p].wpc.slice.len
    && s.arrays[s.procs[p].wpc.slice.arr][s.procs[p].wpc.i] in s.chans
  }

  predicate Full(c: Channel) {
    |c.buffer| >= CHANNEL_CAPACITY
  }

  /** First position of `x`, or the length of `q`: the unsubscribe search loop. */
  function IndexOf(q: seq<ChanId>, x: ChanId): (i: nat)
    ensures i <= |q|
    ensures i < |q| ==> q[i] == x
    ensures forall k :: 0 <= k < i ==> q[k] != x
  {
    if q == [] then 0 else if q[0] == x then 0 else 1 + IndexOf(q[1..], x)
  }

  /** `append(a[:i], a[i+1:n]...)`: cells i+1..n move down by one, the last cell keeps its old value. */
  function SplicedOut(a: seq<ChanId>, n: nat, i: nat): (r: seq<ChanId>)
    requires i < n <= |a|
    ensures |r| == |a|
  {
    a[..i] + a[i + 1..n] + a[n - 1..]
  }

  // ----- steps

  /** When a step can be taken. A send on a closed channel is enabled: it panics. */
  predicate Enabled(s: Bus, step: Step) {
    match step
    case SpawnPublish(p, _, _) => p !in s.procs
    case SpawnSubscribe(p, _) => p !in s.procs
    case SpawnUnsubscribe(p, o) =>
      p !in s.procs && IsWr(s, o) && s.procs[o].op.Subscribe? && s.procs[o].wpc.WDone? && s.procs[o].wpc.got.Some?
    case SpawnClose(p) => p !in s.procs
    case Cancel(p) => IsPub(s, p)
    case RLock(p) => IsPub(s, p) && s.procs[p].ppc.PWait? && s.pending.None? && s.writer.None?
    case ReadHeader(p) => IsPub(s, p) && s.procs[p].ppc.PLocked?
    case Send(p) => AtSend(s, p) && (s.chans[Target(s, p)].closed || !Full(s.chans[Target(s, p)]))
    case GiveUp(p) => AtSend(s, p) && p in s.cancelled
    case Finish(p) => IsPub(s, p) && s.procs[p].ppc.PSend? && s.procs[p].ppc.n >= s.procs[p].ppc.slice.len
    case RUnlock(p) => IsPub(s, p) && s.procs[p].ppc.PReturn?
    case Announce(p) => IsWr(s, p) && s.procs[p].wpc.WWait? && s.pending.None? && s.writer.None?
    case Acquire(p) => IsWr(s, p) && s.procs[p].wpc.WAnnounced? && s.readers == {}
    case Register(p, ch, arr, _) =>
      IsWr(s, p) && s.procs[p].op.Subscribe? && s.procs[p].wpc.WLocked? && ch !in s.chans && arr !in s.arrays
    case Splice(p) => IsWr(s, p) && s.procs[p].op.Unsubscribe? && s.procs[p].wpc.WLocked?
    case CloseOne(p) => IsWr(s, p) && s.procs[p].op.Unsubscribe? && s.procs[p].wpc.WSpliced? && s.procs[p].op.ch in s.chans
    case BeginClose(p) => IsWr(s, p) && s.procs[p].op.Close? && s.procs[p].wpc.WLocked?
    case PickTopic(p, t) =>
      IsWr(s, p) && s.procs[p].wpc.WClosing? && s.procs[p].wpc.i >= s.procs[p].wpc.slice.len && t in s.procs[p].wpc.todo
    case CloseNext(p) => AtClose(s, p)
    case EndClose(p) =>
      IsWr(s, p) && s.procs[p].wpc.WClosing? && s.procs[p].wpc.i >= s.procs[p].wpc.slice.len && s.procs[p].wpc.todo == {}
    case Unlock(p) => IsWr(s, p) && s.procs[p].wpc.WReturn?
    case Receive(c) => c in s.chans && s.chans[c].buffer != []
  }

  function SetPub(s: Bus, p: Pid, pc: PubPc): Bus
    requires IsPub(s, p)
  {
    s.(procs := s.procs[p := s.procs[p].(ppc := pc)])
  }

  function SetWr(s: Bus, p: Pid, pc: WritePc): Bus
    requires IsWr(s, p)
  {
    s.(procs := s.procs[p := s.procs[p].(wpc := pc)])
  }

  function DoReadHeader(s: Bus, p: Pid): Bus
    requires Enabled(s, ReadHeader(p))
  {
    var pr := s.procs[p];
    if s.closed then SetPub(s, p, PReturn(pr.ppc.atLock, 0, BusClosed))
    else SetPub(s, p, PSend(pr.ppc.atLock, Header(s, pr.topic), 0))
  }

  /** One iteration of the publish loop: the send case of the select. */
  function DoSend(s: Bus, p: Pid): Bus
    requires Enabled(s, Send(p))
  {
    var pr := s.procs[p];
    var c := Target(s, p);
    if s.chans[c].closed then s.(panicked := true)
    else
      var e := Entry(p, pr.data);
      var ch := s.chans[c];
      SetPub(s, p, PSend(pr.ppc.atLock, pr.ppc.slice, pr.ppc.n + 1)).(chans := s.chans[c := ch.(sent := ch.sent + [e], buffer := ch.buffer + [e])])
  }

  /** The critical section of Subscribe: `append` writes into spare capacity or moves to a larger array. */
  function DoRegister(s: Bus, p: Pid, ch: ChanId, arr: ArrId, spare: seq<ChanId>): Bus
    requires Enabled(s, Register(p, ch, arr, spare))
  {
    if s.closed then SetWr(s, p, WReturn(None))
    else
      var t := s.procs[p].op.topic;
      var cur := Header(s, t);
      var s1 := SetWr(s, p, WReturn(Some(ch))).(chans := s.chans[ch := Channel(t, [], [], [], false)]);
      if SliceIn(s.arrays, cur) && cur.len < |s.arrays[cur.arr]| then
        var cells: seq<ChanId> := s.arrays[cur.arr][cur.len := ch];
        s1.(arrays := s.arrays[cur.arr := cells],
            subs := s.subs[t := Slice(cur.arr, cur.len + 1)])
      else
        s1.(arrays := s.arrays[arr := ViewIn(s.arrays, cur) + [ch] + spare],
            subs := s.subs[t := Slice(arr, |ViewIn(s.arrays, cur)| + 1)])
  }

  /** The search and in-place splice of the close function. */
  function DoSplice(s: Bus, p: Pid): Bus
    requires Enabled(s, Splice(p))
  {
    var t := s.procs[p].op.topic;
    var sl := Header(s, t);
    var i := IndexOf(ViewIn(s.arrays, sl), s.procs[p].op.ch);
    if s.closed || i >= |ViewIn(s.arrays, sl)| then SetWr(s, p, WReturn(None))
    else
      SetWr(s, p, WSpliced).(arrays := s.arrays[sl.arr := SplicedOut(s.arrays[sl.arr], sl.len, i)],
                             subs := s.subs[t := Slice(sl.arr, sl.len - 1)])
  }

  /** `close(ch)`: panics when the channel is closed already. */
  function CloseChannel(s: Bus, c: ChanId): Bus
    requires c in s.chans
  {
    if s.chans[c].closed then s.(panicked := true)
    else s.(chans := s.chans[c := s.chans[c].(closed := true)])
  }

  function DoBeginClose(s: Bus, p: Pid): Bus
    requires Enabled(s, BeginClose(p))
  {
    if s.closed then SetWr(s, p, WReturn(None))
    else SetWr(s, p, WClosing(s.subs.Keys, None, NIL_SLICE, 0)).(closed := true)
  }

  function DoPickTopic(s: Bus, p: Pid, t: Topic): Bus
    requires Enabled(s, PickTopic(p, t))
  {
    SetWr(s, p, WClosing(s.procs[p].wpc.todo - {t}, Some(t), Header(s, t), 0))
  }

  function DoCloseNext(s: Bus, p: Pid): Bus
    requires Enabled(s, CloseNext(p))
  {
    var pc := s.procs[p].wpc;
    CloseChannel(SetWr(s, p, pc.(i := pc.i + 1)), s.arrays[pc.slice.arr][pc.i])
  }

  function DoReceive(s: Bus, c: ChanId): Bus
    requires Enabled(s, Receive(c))
  {
    var ch := s.chans[c];
    s.(chans := s.chans[c := ch.(received := ch.received + [ch.buffer[0]], buffer := ch.buffer[1..])])
  }

  function Do(s: Bus, step: Step): Bus
    requires Enabled(s, step)
  {
    match step
    case SpawnPublish(p, t, data) => s.(procs := s.procs[p := Pub(t, data, PWait)])
    case SpawnSubscribe(p, t) => s.(procs := s.procs[p := Wr(Subscribe(t), WWait)])
    case SpawnUnsubscribe(p, o) =>
      s.(procs := s.procs[p := Wr(Unsubscribe(s.procs[o].op.topic, s.procs[o].wpc.got.value), WWait)])
    case SpawnClose(p) => s.(procs := s.procs[p := Wr(Close, WWait)])
    case Cancel(p) => s.(cancelled := s.cancelled + {p})
    case RLock(p) => SetPub(s, p, PLocked(Listed(s, s.procs[p].topic))).(readers := s.readers + {p})
    case ReadHeader(p) => DoReadHeader(s, p)
    case Send(p) => DoSend(s, p)
    case GiveUp(p) => SetPub(s, p, PReturn(s.procs[p].ppc.atLock, s.procs[p].ppc.n, ContextError))
    case Finish(p) => SetPub(s, p, PReturn(s.procs[p].ppc.atLock, s.procs[p].ppc.n, Delivered))
    case RUnlock(p) =>
      SetPub(s, p, PDone(s.procs[p].ppc.atLock, s.procs[p].ppc.n, s.procs[p].ppc.outcome)).(readers := s.readers - {p})
    case Announce(p) => SetWr(s, p, WAnnounced).(pending := Some(p))
    case Acquire(p) => SetWr(s, p, WLocked).(pending := None, writer := Some(p))
    case Register(p, ch, arr, spare) => DoRegister(s, p, ch, arr, spare)
    case Splice(p) => DoSplice(s, p)
    case CloseOne(p) => CloseChannel(SetWr(s, p, WReturn(None)), s.procs[p].op.ch)
    case BeginClose(p) => DoBeginClose(s, p)
    case PickTopic(p, t) => DoPickTopic(s, p, t)
    case CloseNext(p) => DoCloseNext(s, p)
    case EndClose(p) => SetWr(s, p, WReturn(None)).(subs := map[])
    case Unlock(p) => SetWr(s, p, WDone(s.procs[p].wpc.got)).(writer := None)
    case Receive(c) => DoReceive(s, c)
  }

  /** A new call enters, a context is cancelled, or a subscriber receives. */
  predicate EnvironmentStep(step: Step) {
    step.SpawnPublish? || step.SpawnSubscribe? || step.SpawnUnsubscribe? || step.SpawnClose? || step.Cancel? || step.Receive?
  }

  predicate PublisherStep(step: Step) {
    step.RLock? || step.ReadHeader? || step.Send? || step.GiveUp? || step.Finish? || step.RUnlock?
  }

  /** Taking or releasing the exclusive lock. */
  predicate LockStep(step: Step) {
    step.Announce? || step.Acquire? || step.Unlock?
  }

  /** A step inside the exclusive critical section. */
  predicate CriticalStep(step: Step) {
    step.Register? || step.Splice? || step.CloseOne? || step.BeginClose? || step.PickTopic? || step.CloseNext? || step.EndClose?
  }

  /** `steps` can be taken one after the other from `s`. */
  predicate CanRun(s: Bus, steps: seq<Step>)
    decreases |steps|
  {
    steps == [] || (Enabled(s, steps[0]) && CanRun(Do(s, steps[0]), steps[1..]))
  }

  function Run(s: Bus, steps: seq<Step>): Bus
    requires CanRun(s, steps)
    decreases |steps|
  {
    if steps == [] then s else Run(Do(s, steps[0]), steps[1..])
  }

  ghost predicate Reachable(s: Bus) {
    exists steps :: CanRun(INITIAL, steps) && Run(INITIAL, steps) == s
  }

  lemma {:induction false} RunAppend(s: Bus, a: seq<Step>, b: seq<Step>)
    requires CanRun(s, a)
    ensures CanRun(s, a + b) <==> CanRun(Run(s, a), b)
    ensures CanRun(s, a + b) ==> Run(s, a + b) == Run(Run(s, a), b)
    decreases |a|
  {
    if a == [] {
      assert a + b == b;
    } else {
      assert (a + b)[1..] == a[1..] + b;
      RunAppend(Do(s, a[0]), a[1..], b);
    }
  }
}
