/**
  The exclusive critical sections of the bus as methods on the object itself: subscribers appended
  to and spliced out of real backing arrays, channels closed once. Each changes the subscriber lists
  as the corresponding steps of the state machine do.
*/
module InmemBus {
  import opened Wrappers
  import opened EventBusDelivery
  import opened EventBusSafety
  import G = GoSlices
  import B = EventBus

  type ChanId = B.ChanId
  type Topic = B.Topic
  type Lists = map<Topic, seq<ChanId>>

  function ListOf(lists: Lists, t: Topic): seq<ChanId> {
    if t in lists then lists[t] else []
  }

  /** Every listed channel is open, and listed once. */
  ghost predicate AllOpen(lists: Lists, shut: set<ChanId>) {
    && (forall t, i :: t in lists && 0 <= i < |lists[t]| ==> lists[t][i] !in shut)
    && (forall t, u, i, j :: t in lists && u in lists && 0 <= i < |lists[t]| && 0 <= j < |lists[u]| && lists[t][i] == lists[u][j] ==> t == u && i == j)
  }

  ghost function AllListed(lists: Lists): set<ChanId> {
    set t, c | t in lists && c in lists[t] :: c
  }

  class Inmem {
    var closed: bool
    var subs: map<Topic, G.Slice<ChanId>>
    /** The channels `close` has been called on. */
    var shut: set<ChanId>
    ghost var lists: Lists
    ghost var arrays: set<object>

    ghost predicate Shows(t: Topic)
      reads `subs, `lists, `arrays, arrays
      requires t in subs
    {
      G.Ok(subs[t]) && G.Backing(subs[t]) <= arrays && t in lists && G.View(subs[t]) == lists[t]
    }

    /** Topics never share a backing array. */
    ghost predicate Apart()
      reads `subs
    {
      forall t, u :: t in subs && u in subs && t != u ==> G.Backing(subs[t]) !! G.Backing(subs[u])
    }

    ghost predicate Valid()
      reads `subs, `lists, `arrays, arrays
    {
      && this !in arrays && lists.Keys == subs.Keys && Apart()
      && (forall t :: t in subs ==> Shows(t))
    }

    /** Everything is in order but for `topic`, whose slice is about to be replaced by `sl`. */
    ghost predicate ValidBut(topic: Topic, sl: G.Slice<ChanId>)
      reads `subs, `lists, `arrays, arrays
    {
      && this !in arrays && this !in G.Backing(sl) && lists.Keys == subs.Keys && Apart()
      && (forall t :: t in subs && t != topic ==> Shows(t) && G.Backing(subs[t]) !! G.Backing(sl))
    }

    constructor ()
      ensures Valid() && !closed && lists == map[] && shut == {} && arrays == {}
    {
      closed, subs, shut := false, map[], {};
      lists, arrays := map[], {};
    }

    /** A map read; an absent topic has the nil slice. */
    method SliceFor(topic: Topic) returns (sl: G.Slice<ChanId>)
      requires Valid()
      ensures G.Ok(sl) && G.Backing(sl) <= arrays && G.View(sl) == ListOf(lists, topic)
      ensures sl == if topic in subs then subs[topic] else G.Slice.Nil
    {
      if topic in subs {
        assert Shows(topic);
        return subs[topic];
      }
      return G.Slice.Nil;
    }

    /** Writes a topic's slice back, after at most its own array was changed. */
    method SetSlice(topic: Topic, sl: G.Slice<ChanId>, ghost listed: seq<ChanId>)
      requires ValidBut(topic, sl) && G.Ok(sl) && G.View(sl) == listed
      modifies `subs, `lists, `arrays
      ensures Valid()
      ensures arrays == old(arrays) + G.Backing(sl) && lists == old(lists)[topic := listed]
    {
      arrays := arrays + G.Backing(sl);
      subs := subs[topic := sl];
      lists := lists[topic := listed];
      forall t | t in subs ensures Shows(t) {
        assert t != topic ==> old(Shows(t));
      }
    }

    /** `close(ch)`. Go panics on a second close, so the caller must show there was no first. */
    method CloseChannel(ch: ChanId)
      requires ch !in shut
      modifies this`shut
      ensures shut == old(shut) + {ch}
    {
      shut := shut + {ch};
    }

    /** `append` to the topic's slice, in place or in a new array. */
    method AppendTo(topic: Topic, ch: ChanId, growth: nat) returns (sl: G.Slice<ChanId>)
      requires Valid()
      modifies arrays
      ensures G.Ok(sl) && G.View(sl) == ListOf(lists, topic) + [ch]
      ensures ValidBut(topic, sl) && fresh(G.Backing(sl) - old(arrays))
    {
      var cur := SliceFor(topic);
      sl := G.Append(cur, [ch], growth);
      forall t | t in subs && t != topic ensures Shows(t) && G.Backing(subs[t]) !! G.Backing(sl) {
        assert old(Shows(t));
      }
    }

    /** The locked part of Subscribe. `ch` is the channel just made. */
    method Subscribe(topic: Topic, ch: ChanId, growth: nat) returns (ok: bool)
      requires Valid()
      modifies this, arrays
      ensures Valid() && fresh(arrays - old(arrays))
      ensures ok == !old(closed) && closed == old(closed) && shut == old(shut)
      ensures lists == if ok then old(lists)[topic := ListOf(old(lists), topic) + [ch]] else old(lists)
    {
      if closed {
        return false;
      }
      var sl := AppendTo(topic, ch, growth);
      SetSlice(topic, sl, ListOf(lists, topic) + [ch]);
      return true;
    }

    /** The splice in place, in the topic's own array. */
    method SpliceAt(topic: Topic, sl: G.Slice<ChanId>, i: nat) returns (shorter: G.Slice<ChanId>)
      requires Valid() && topic in subs && sl == subs[topic] && i < G.Len(sl)
      modifies G.Backing(sl)
      ensures ValidBut(topic, shorter) && G.Ok(shorter) && G.Backing(shorter) == G.Backing(sl)
      ensures G.View(shorter) == G.Without(old(lists[topic]), i)
    {
      assert Shows(topic);
      shorter := G.RemoveAt(sl, i);
      forall t | t in subs && t != topic ensures Shows(t) {
        assert old(Shows(t));
      }
    }

    /** The search loop over the topic's slice and the splice in place. */
    method SpliceOut(topic: Topic, ch: ChanId, ghost q: seq<ChanId>) returns (r: Option<G.Slice<ChanId>>)
      requires Valid() && q == ListOf(lists, topic)
      modifies arrays
      ensures r.None? ==> ch !in q && Valid()
      ensures r.Some? ==>
        && ch in q && ValidBut(topic, r.value) && G.Ok(r.value) && G.Backing(r.value) <= arrays
        && G.View(r.value) == G.Without(q, B.IndexOf(q, ch))
    {
      var sl := SliceFor(topic);
      for i := 0 to G.Len(sl)
        invariant Valid() && G.View(sl) == q && i <= B.IndexOf(q, ch)
      {
        assert sl.arr[sl.off + i] == q[i];
        if sl.arr[sl.off + i] == ch {
          var shorter := SpliceAt(topic, sl, i);
          return Some(shorter);
        }
      }
      return None;
    }

    /** The splice under the lock, with the shorter slice stored. */
    method Unlist(topic: Topic, ch: ChanId, ghost q: seq<ChanId>) returns (found: bool)
      requires Valid() && q == ListOf(lists, topic)
      modifies `subs, `lists, `arrays, arrays
      ensures Valid() && arrays == old(arrays)
      ensures found <==> ch in q
      ensures lists == if found then old(lists)[topic := G.Without(q, B.IndexOf(q, ch))] else old(lists)
    {
      ghost var kept := arrays;
      var sl := SpliceOut(topic, ch, q);
      if sl.None? {
        return false;
      }
      assert kept + G.Backing(sl.value) == kept;
      SetSlice(topic, sl.value, G.Without(q, B.IndexOf(q, ch)));
      return true;
    }

    /** The close function of a subscription: does nothing once the bus is closed or the channel is gone. */
    method CloseFn(topic: Topic, ch: ChanId)
      requires Valid() && AllOpen(lists, shut)
      modifies this, arrays
      ensures Valid() && arrays == old(arrays) && closed == old(closed)
      ensures var q := ListOf(old(lists), topic);
        if old(closed) || ch !in q then lists == old(lists) && shut == old(shut)
        else lists == old(lists)[topic := G.Without(q, B.IndexOf(q, ch))] && shut == old(shut) + {ch}
    {
      if closed {
        return;
      }
      ghost var q := ListOf(lists, topic);
      ListedAreNotShut(lists, shut, topic);
      var found := Unlist(topic, ch, q);
      if found {
        CloseChannel(ch);
      }
    }

    /** Closes the channels of one topic. */
    method CloseTopic(topic: Topic, ghost q: seq<ChanId>)
      requires topic in subs && Shows(topic) && lists[topic] == q
      requires (forall i :: 0 <= i < |q| ==> q[i] !in shut) && forall i, j :: 0 <= i < j < |q| ==> q[i] != q[j]
      modifies this`shut
      ensures shut == old(shut) + set c | c in q
    {
      var sl := subs[topic];
      for i := 0 to G.Len(sl)
        invariant G.View(sl) == q && shut == old(shut) + set c | c in q[..i]
      {
        assert sl.arr[sl.off + i] == q[i];
        assert q[..i + 1] == q[..i] + [q[i]];
        CloseChannel(sl.arr[sl.off + i]);
      }
      assert q[..|q|] == q;
    }

    method CloseNextTopic(topic: Topic, ghost before: set<ChanId>, ghost rest: set<Topic>)
      requires Valid() && AllOpen(lists, before) && topic in subs && topic in rest
      requires shut == before + ListedBut(lists, rest)
      modifies this`shut
      ensures shut == before + ListedBut(lists, rest - {topic})
    {
      assert Shows(topic);
      OpenYet(lists, before, topic, rest);
      OneTopicMore(lists, rest, topic);
      CloseTopic(topic, lists[topic]);
    }

    /** The loop of Close over the topics of the map, in whatever order they come. */
    method CloseAll()
      requires Valid() && AllOpen(lists, shut)
      modifies this`shut
      ensures shut == old(shut) + AllListed(lists)
    {
      var rest := subs.Keys;
      ghost var before, all := shut, lists;
      assert ListedBut(all, rest) == {};
      while rest != {}
        invariant lists == all && rest <= subs.Keys
        invariant shut == before + ListedBut(all, rest)
        decreases rest
      {
        var topic :| topic in rest;
        CloseNextTopic(topic, before, rest);
        rest := rest - {topic};
      }
      assert ListedBut(all, rest) == AllListed(all);
    }

    method Forget()
      requires this !in arrays
      modifies this`subs, this`lists
      ensures Valid() && lists == map[]
    {
      subs := map[];
      lists := map[];
    }

    /** Closes every subscriber channel, once, and forgets them. A second Close does nothing. */
    method Close()
      requires Valid() && AllOpen(lists, shut)
      modifies this
      ensures Valid() && closed
      ensures old(closed) ==> lists == old(lists) && shut == old(shut)
      ensures !old(closed) ==> lists == map[] && shut == old(shut) + AllListed(old(lists))
    {
      if closed {
        return;
      }
      closed := true;
      CloseAll();
      Forget();
    }
  }

  /** The channels of the topics no longer in `rest`. */
  ghost function ListedBut(lists: Lists, rest: set<Topic>): set<ChanId> {
    set t, c | t in lists && t !in rest && c in lists[t] :: c
  }

  lemma ListedAreNotShut(lists: Lists, shut: set<ChanId>, topic: Topic)
    requires AllOpen(lists, shut)
    ensures forall c :: c in ListOf(lists, topic) ==> c !in shut
  {
  }

  lemma OneTopicMore(lists: Lists, rest: set<Topic>, topic: Topic)
    requires topic in lists && topic in rest
    ensures ListedBut(lists, rest - {topic}) == ListedBut(lists, rest) + set c | c in lists[topic]
  {
  }

  /** Closing other topics has not closed this one's channels. */
  lemma OpenYet(lists: Lists, shut: set<ChanId>, topic: Topic, rest: set<Topic>)
    requires AllOpen(lists, shut) && topic in lists && topic in rest
    ensures forall i :: 0 <= i < |lists[topic]| ==> lists[topic][i] !in shut + ListedBut(lists, rest)
    ensures forall i, j :: 0 <= i < j < |lists[topic]| ==> lists[topic][i] != lists[topic][j]
  {
    forall t, i | t in lists && t !in rest && 0 <= i < |lists[topic]| ensures lists[topic][i] !in lists[t] {
    }
  }

  // ----- the methods and the machine's steps agree

  /** The object is in the state the machine shows between critical sections. */
  ghost predicate Agrees(lists: Lists, shut: set<ChanId>, closed: bool, s: B.Bus) {
    && closed == s.closed
    && (forall t :: ListOf(lists, t) == B.Listed(s, t))
    && (forall c :: c in s.chans ==> (c in shut <==> s.chans[c].closed))
  }

  lemma SubscribeAgrees(lists: Lists, shut: set<ChanId>, s: B.Bus, p: B.Pid, ch: ChanId, arr: B.ArrId, spare: seq<ChanId>)
    requires Inv(s) && B.Enabled(s, B.Register(p, ch, arr, spare)) && Agrees(lists, shut, s.closed, s) && ch !in shut
    ensures var topic := s.procs[p].op.topic;
      Agrees(if s.closed then lists else lists[topic := ListOf(lists, topic) + [ch]], shut, s.closed, B.Do(s, B.Register(p, ch, arr, spare)))
  {
    if !s.closed {
      ListedAfterRegister(s, p, ch, arr, spare);
    }
  }

  lemma SpliceTouchesOnlyTheList(s: B.Bus, p: B.Pid)
    requires Inv(s) && B.Enabled(s, B.Splice(p)) && !s.closed && s.procs[p].op.ch in B.Listed(s, s.procs[p].op.topic)
    ensures var s1 := B.DoSplice(s, p);
      && p in s1.procs && s1.procs[p] == s.procs[p].(wpc := B.WSpliced)
      && s1.chans == s.chans && !s1.closed && s.procs[p].op.ch in s1.chans
  {
    var topic := s.procs[p].op.topic;
    assert OfTopic(s.chans, B.ListedIn(s.subs, s.arrays, topic), topic);
  }

  lemma AgreesWithNewList(lists: Lists, shut: set<ChanId>, s: B.Bus, s1: B.Bus, topic: Topic)
    requires Agrees(lists, shut, s.closed, s) && s1.chans == s.chans && s1.closed == s.closed
    requires forall t :: t != topic ==> B.Listed(s1, t) == B.Listed(s, t)
    ensures Agrees(lists[topic := B.Listed(s1, topic)], shut, s.closed, s1)
  {
  }

  lemma SpliceAgrees(lists: Lists, shut: set<ChanId>, s: B.Bus, p: B.Pid)
    requires Inv(s) && B.Enabled(s, B.Splice(p)) && Agrees(lists, shut, s.closed, s)
    requires !s.closed && s.procs[p].op.ch in ListOf(lists, s.procs[p].op.topic)
    ensures var topic, ch, s1 := s.procs[p].op.topic, s.procs[p].op.ch, B.Do(s, B.Splice(p));
      var q := ListOf(lists, topic);
      && p in s1.procs && s1.procs[p] == s.procs[p].(wpc := B.WSpliced) && ch in s1.chans && !s1.closed
      && Agrees(lists[topic := G.Without(q, B.IndexOf(q, ch))], shut, false, s1)
  {
    var topic := s.procs[p].op.topic;
    assert ListOf(lists, topic) == B.Listed(s, topic);
    SpliceTouchesOnlyTheList(s, p);
    ListedAfterSplice(s, p);
    AgreesWithNewList(lists, shut, s, B.DoSplice(s, p), topic);
  }

  lemma CloseOneShuts(s: B.Bus, p: B.Pid)
    requires B.Enabled(s, B.CloseOne(p)) && !B.Do(s, B.CloseOne(p)).panicked
    ensures var s1, ch := B.Do(s, B.CloseOne(p)), s.procs[p].op.ch;
      && s1.subs == s.subs && s1.arrays == s.arrays && s1.closed == s.closed
      && s1.chans == s.chans[ch := s.chans[ch].(closed := true)]
  {
  }

  lemma CloseOneAgrees(lists: Lists, shut: set<ChanId>, s: B.Bus, p: B.Pid)
    requires Inv(s) && B.Enabled(s, B.CloseOne(p)) && Agrees(lists, shut, s.closed, s)
    ensures Agrees(lists, shut + {s.procs[p].op.ch}, s.closed, B.Do(s, B.CloseOne(p)))
  {
    StepKeeps(s, B.CloseOne(p));
    CloseOneShuts(s, p);
    var s1 := B.Do(s, B.CloseOne(p));
    assert forall t :: B.Listed(s1, t) == B.Listed(s, t);
  }

  /** The splice and the close that follows it, as one method call. */
  lemma CloseFnAgrees(lists: Lists, shut: set<ChanId>, s: B.Bus, p: B.Pid)
    requires Inv(s) && B.Enabled(s, B.Splice(p)) && Agrees(lists, shut, s.closed, s)
    requires !s.closed && s.procs[p].op.ch in ListOf(lists, s.procs[p].op.topic)
    ensures var topic, ch, s1 := s.procs[p].op.topic, s.procs[p].op.ch, B.Do(s, B.Splice(p));
      var q := ListOf(lists, topic);
      && B.Enabled(s1, B.CloseOne(p))
      && Agrees(lists[topic := G.Without(q, B.IndexOf(q, ch))], shut + {ch}, false, B.Do(s1, B.CloseOne(p)))
  {
    var topic, ch := s.procs[p].op.topic, s.procs[p].op.ch;
    var q := ListOf(lists, topic);
    SpliceAgrees(lists, shut, s, p);
    StepKeeps(s, B.Splice(p));
    CloseOneAgrees(lists[topic := G.Without(q, B.IndexOf(q, ch))], shut, B.Do(s, B.Splice(p)), p);
  }

  /** A close function that finds the bus closed or its channel gone changes nothing, in both. */
  lemma IdleCloseFnAgrees(lists: Lists, shut: set<ChanId>, s: B.Bus, p: B.Pid)
    requires Inv(s) && B.Enabled(s, B.Splice(p)) && Agrees(lists, shut, s.closed, s)
    requires s.closed || s.procs[p].op.ch !in ListOf(lists, s.procs[p].op.topic)
    ensures Agrees(lists, shut, s.closed, B.Do(s, B.Splice(p)))
  {
    var topic, ch := s.procs[p].op.topic, s.procs[p].op.ch;
    assert ListOf(lists, topic) == B.Listed(s, topic);
    var s1 := B.Do(s, B.Splice(p));
    assert s1.subs == s.subs && s1.arrays == s.arrays && s1.chans == s.chans && s1.closed == s.closed;
  }

  // ----- Close and the steps it stands for

  predicate IsClosing(s: B.Bus, p: B.Pid) {
    B.IsWr(s, p) && s.procs[p].wpc.WClosing?
  }

  predicate IsPastClosing(s: B.Bus, p: B.Pid) {
    B.IsWr(s, p) && (s.procs[p].wpc.WReturn? || s.procs[p].wpc.WDone?)
  }

  /** Until it ends, a Close keeps out whoever would make a channel. */
  lemma ClosingStep(s: B.Bus, step: B.Step, p: B.Pid)
    requires Inv(s) && B.Enabled(s, step) && IsClosing(s, p) && step != B.EndClose(p)
    ensures IsClosing(B.Do(s, step), p) && B.Do(s, step).chans.Keys == s.chans.Keys
  {
    ClosingMovesOn(s, step, p);
    ChannelsStay(s, step, p);
  }

  lemma ClosingMovesOn(s: B.Bus, step: B.Step, p: B.Pid)
    requires B.Enabled(s, step) && IsClosing(s, p) && step != B.EndClose(p)
    ensures IsClosing(B.Do(s, step), p)
  {
    if step.Receive? || step.Cancel? || step.p != p {
      OthersKept(s, step, p);
    }
  }

  lemma NobodySubscribes(s: B.Bus, step: B.Step, p: B.Pid)
    requires LockOk(s) && B.Enabled(s, step) && IsClosing(s, p)
    ensures !step.Register?
  {
    assert s.writer == Some(p);
    assert step.Register? ==> HoldsWrite(s.procs[step.p]);
  }

  lemma ChannelsStay(s: B.Bus, step: B.Step, p: B.Pid)
    requires LockOk(s) && B.Enabled(s, step) && IsClosing(s, p)
    ensures B.Do(s, step).chans.Keys == s.chans.Keys
  {
    NobodySubscribes(s, step, p);
    if !step.Send? && !step.Receive? {
      QueuesStand(s, step);
    }
  }

  lemma PastClosingStep(s: B.Bus, step: B.Step, p: B.Pid)
    requires B.Enabled(s, step) && IsPastClosing(s, p)
    ensures IsPastClosing(B.Do(s, step), p)
  {
    if step.Receive? || step.Cancel? || step.p != p {
      OthersKept(s, step, p);
    }
  }

  lemma {:induction false} PastClosingStays(s: B.Bus, steps: seq<B.Step>, p: B.Pid)
    requires B.CanRun(s, steps) && IsPastClosing(s, p)
    ensures IsPastClosing(B.Run(s, steps), p)
    decreases |steps|
  {
    if steps != [] {
      PastClosingStep(s, steps[0], p);
      PastClosingStays(B.Do(s, steps[0]), steps[1..], p);
    }
  }

  lemma {:induction false} ClosingRun(s: B.Bus, steps: seq<B.Step>, p: B.Pid)
    requires Inv(s) && B.CanRun(s, steps) && IsClosing(s, p) && IsClosing(B.Run(s, steps), p)
    ensures Inv(B.Run(s, steps)) && B.Run(s, steps).chans.Keys == s.chans.Keys
    decreases |steps|
  {
    if steps != [] {
      var s1 := B.Do(s, steps[0]);
      StepKeeps(s, steps[0]);
      if steps[0] == B.EndClose(p) {
        PastClosingStays(s1, steps[1..], p);
      } else {
        ClosingStep(s, steps[0], p);
        ClosingRun(s1, steps[1..], p);
      }
    }
  }

  /** When the last topic is done nothing is left open, and ending the Close unlists everything. */
  lemma EndCloseShuts(e: B.Bus, p: B.Pid)
    requires Inv(e) && B.Enabled(e, B.EndClose(p))
    ensures var s' := B.Do(e, B.EndClose(p));
      && s'.closed && s'.chans == e.chans && (forall c :: c in s'.chans ==> s'.chans[c].closed)
      && forall t :: B.Listed(s', t) == []
  {
    InCritical(e, p);
    var pc := e.procs[p].wpc;
    assert PhaseOf(e) == Closing(pc.todo, pc.cur, pc.i);
    assert OpenInv(PhaseOf(e), e.subs, e.arrays, e.chans);
    forall c | c in e.chans ensures e.chans[c].closed {
      assert !Owned(PhaseOf(e), e.subs, e.arrays, e.chans[c].topic, c);
    }
    forall t ensures B.Listed(B.Do(e, B.EndClose(p)), t) == [] {
      EndCloseUnlists(e, p, t);
    }
  }

  /** Every channel there is when a Close has the lock is shut already or listed. */
  lemma ShutOrListed(lists: Lists, shut: set<ChanId>, s: B.Bus, p: B.Pid)
    requires Inv(s) && Agrees(lists, shut, s.closed, s) && B.Enabled(s, B.BeginClose(p))
    ensures s.chans.Keys <= shut + AllListed(lists)
  {
    InCritical(s, p);
    forall c | c in s.chans ensures c in shut + AllListed(lists) {
      assert !s.chans[c].closed <==> Owned(Whole, s.subs, s.arrays, s.chans[c].topic, c);
      assert ListOf(lists, s.chans[c].topic) == B.Listed(s, s.chans[c].topic);
    }
  }

  /**
    A Close as one method call: from its first step under the lock to its last, whatever order it
    takes the topics in and whatever the others do meanwhile, it shuts every listed channel and
    forgets all lists.
  */
  lemma CloseAgrees(lists: Lists, shut: set<ChanId>, s: B.Bus, p: B.Pid, middle: seq<B.Step>)
    requires Inv(s) && B.Enabled(s, B.BeginClose(p)) && !s.closed && Agrees(lists, shut, false, s)
    requires B.CanRun(B.Do(s, B.BeginClose(p)), middle) && B.Enabled(B.Run(B.Do(s, B.BeginClose(p)), middle), B.EndClose(p))
    ensures Agrees(map[], shut + AllListed(lists), true, B.Do(B.Run(B.Do(s, B.BeginClose(p)), middle), B.EndClose(p)))
  {
    var s1 := B.Do(s, B.BeginClose(p));
    var e := B.Run(s1, middle);
    StepKeeps(s, B.BeginClose(p));
    ClosingRun(s1, middle, p);
    EndCloseShuts(e, p);
    ShutOrListed(lists, shut, s, p);
    assert e.chans.Keys == s.chans.Keys;
  }

  /** A Close of a closed bus changes nothing, in both. */
  lemma IdleCloseAgrees(lists: Lists, shut: set<ChanId>, s: B.Bus, p: B.Pid)
    requires Inv(s) && B.Enabled(s, B.BeginClose(p)) && s.closed && Agrees(lists, shut, true, s)
    ensures Agrees(lists, shut, true, B.Do(s, B.BeginClose(p)))
  {
    var s1 := B.Do(s, B.BeginClose(p));
    assert s1.subs == s.subs && s1.arrays == s.arrays && s1.chans == s.chans && s1.closed == s.closed;
  }

  /** Whoever holds the exclusive lock before touching the lists finds every listed channel open and listed once. */
  lemma LockedListsAreOpen(lists: Lists, shut: set<ChanId>, s: B.Bus, p: B.Pid)
    requires Inv(s) && Agrees(lists, shut, s.closed, s)
    requires B.Enabled(s, B.Splice(p)) || B.Enabled(s, B.BeginClose(p))
    ensures AllOpen(lists, shut)
  {
    forall t | t in lists ensures OfTopic(s.chans, lists[t], t) && Distinct(lists[t]) && forall i :: 0 <= i < |lists[t]| ==> lists[t][i] !in shut {
      assert ListOf(lists, t) == B.Listed(s, t);
      ListedAreOpen(s, p, t);
    }
  }

  lemma ListedAreOpen(s: B.Bus, p: B.Pid, t: Topic)
    requires Inv(s) && (B.Enabled(s, B.Splice(p)) || B.Enabled(s, B.BeginClose(p)))
    ensures var q := B.Listed(s, t); OfTopic(s.chans, q, t) && Distinct(q) && forall i :: 0 <= i < |q| ==> !s.chans[q[i]].closed
  {
    assert OfTopic(s.chans, B.ListedIn(s.subs, s.arrays, t), t);
  }
}
