/**
  The executor that serves an agent over the A2A protocol: it turns the agent's event stream into
  task events for a consumer that may stop at any yield. The target is the task life cycle of the
  A2A Protocol Specification v1.0, section 4.1.3 (TaskState), and its artifact updates, section
  4.2.2 (TaskArtifactUpdateEvent).
*/
module A2AExecutor {
  import opened Selections
  import opened Wrappers

  datatype AgentEvent = TextDelta(delta: string) | RunFinished | RunError(message: string) | OtherEvent

  datatype TaskState = Working | Completed | Failed

  datatype Output =
    | SubmittedTask
    | Status(state: TaskState, message: Option<string>)
    | NewArtifact(id: string, part: string)
    | AppendToArtifact(id: string, part: string)
    | Reply(text: string)

  /** Outcome of starting a run or stream and then waiting for its result or subscribing to it. */
  datatype Outcome<T> = NotStarted(err: string) | NotDelivered(err: string) | Delivered(value: T)

  /** The served agent. A stream that delivers is the list of events up to the closing of its channel. */
  datatype Served = Served(streams: bool, run: string -> Outcome<string>, stream: string -> Outcome<seq<AgentEvent>>)

  type Consumer = seq<Output> -> bool

  /** The `yield` callback. Its consumer answers from all it has seen; after a no, Go forbids another call. */
  class Yielder {
    const consumer: Consumer
    var emitted: seq<Output>
    var stopped: bool

    constructor (consumer: Consumer)
      ensures this.consumer == consumer && emitted == [] && !stopped
    {
      this.consumer := consumer;
      emitted := [];
      stopped := false;
    }

    method Yield(o: Output) returns (more: bool)
      requires !stopped
      modifies this
      ensures emitted == old(emitted) + [o]
      ensures more == consumer(emitted) && stopped == !more
    {
      emitted := emitted + [o];
      more := consumer(emitted);
      stopped := !more;
    }
  }

  // ----- what the whole output is

  predicate IsEnd(e: AgentEvent) {
    e.RunFinished? || e.RunError?
  }

  /** The events before the first finished or error event. */
  function BeforeEnd(events: seq<AgentEvent>): seq<AgentEvent> {
    if events == [] || IsEnd(events[0]) then [] else [events[0]] + BeforeEnd(events[1..])
  }

  lemma {:induction false} BeforeEndStopsAtFirstEnd(events: seq<AgentEvent>)
    ensures var r := BeforeEnd(events);
      && r <= events
      && (forall i :: 0 <= i < |r| ==> !IsEnd(events[i]))
      && (|r| < |events| ==> IsEnd(events[|r|]))
  {
    if events != [] && !IsEnd(events[0]) {
      BeforeEndStopsAtFirstEnd(events[1..]);
    }
  }

  function Ending(events: seq<AgentEvent>): Output {
    var k := |BeforeEnd(events)|;
    if k < |events| && events[k].RunError? then Status(Failed, Some(events[k].message)) else Status(Completed, None)
  }

  /** The non-empty deltas, in order. */
  function Deltas(events: seq<AgentEvent>): seq<string> {
    if events == [] then []
    else Deltas(events[..|events| - 1]) + DeltaOf(events[|events| - 1])
  }

  function DeltaOf(e: AgentEvent): seq<string> {
    if e.TextDelta? && e.delta != "" then [e.delta] else []
  }

  /** The first delta creates the artifact, the others append to it. */
  function Updates(id: string, parts: seq<string>): (r: seq<Output>)
    ensures |r| == |parts|
  {
    if parts == [] then []
    else
      var last := parts[|parts| - 1];
      Updates(id, parts[..|parts| - 1]) + [if |parts| == 1 then NewArtifact(id, last) else AppendToArtifact(id, last)]
  }

  const Prologue: seq<Output> := [SubmittedTask, Status(Working, None)]

  /** What the first `i` events have made the executor yield, when none of them ends the stream. */
  function SoFar(id: string, events: seq<AgentEvent>, i: nat): seq<Output>
    requires i <= |events|
  {
    Prologue + Updates(id, Deltas(events[..i]))
  }

  function Progress(id: string, events: seq<AgentEvent>): seq<Output> {
    Prologue + Updates(id, Deltas(BeforeEnd(events)))
  }

  function StreamOutput(id: string, events: seq<AgentEvent>): seq<Output> {
    Progress(id, events) + [Ending(events)]
  }

  function FailedWith(err: string): Output {
    Status(Failed, Some(err))
  }

  /** All that a consumer who never stops is given; `id` is the first artifact id minted. */
  function FullOutput(a: Served, input: string, id: string): seq<Output> {
    if a.streams then
      match a.stream(input)
      case NotStarted(err) => Prologue + [FailedWith(err)]
      case NotDelivered(err) => Prologue + [FailedWith(err)]
      case Delivered(events) => StreamOutput(id, events)
    else
      match a.run(input)
      case NotStarted(err) => [FailedWith(err)]
      case NotDelivered(err) => [FailedWith(err)]
      case Delivered(text) => [Reply(text)]
  }

  /** `out` follows `full` for as long as the consumer asks for more, and no longer. */
  ghost predicate IsCut(full: seq<Output>, c: Consumer, out: seq<Output>) {
    && out <= full
    && (forall j :: 0 < j < |out| ==> c(out[..j]))
    && (out == full || (out != [] && !c(out)))
  }

  lemma ShorterCutIsSame(full: seq<Output>, c: Consumer, out: seq<Output>, other: seq<Output>)
    requires IsCut(full, c, out) && IsCut(full, c, other) && |out| <= |other|
    ensures out == other
  {
    assert out == other[..|out|];
  }

  /** So the output is determined by the full output and the consumer. */
  lemma CutIsUnique(full: seq<Output>, c: Consumer, out: seq<Output>, other: seq<Output>)
    requires IsCut(full, c, out) && IsCut(full, c, other)
    ensures out == other
  {
    if |out| <= |other| {
      ShorterCutIsSame(full, c, out, other);
    } else {
      ShorterCutIsSame(full, c, other, out);
    }
  }

  // ----- the executor

  /** `out` is so far all of a prefix of `full`, and the consumer wants more. */
  ghost predicate Wanted(full: seq<Output>, c: Consumer, out: seq<Output>) {
    out <= full && forall j :: 0 < j <= |out| ==> c(out[..j])
  }

  /** Yielding the next element of the full output keeps to it, or ends the cut. */
  lemma YieldNext(full: seq<Output>, c: Consumer, out: seq<Output>, o: Output)
    requires Wanted(full, c, out) && out + [o] <= full
    ensures c(out + [o]) ==> Wanted(full, c, out + [o])
    ensures !c(out + [o]) || out + [o] == full ==> IsCut(full, c, out + [o])
  {
    forall j | 0 < j <= |out| ensures (out + [o])[..j] == out[..j] {
    }
    assert (out + [o])[..|out| + 1] == out + [o];
  }

  lemma BeforeEndSplit(events: seq<AgentEvent>, i: nat)
    requires i < |events| && i <= |BeforeEnd(events)|
    ensures if IsEnd(events[i]) then i == |BeforeEnd(events)| else i + 1 <= |BeforeEnd(events)|
  {
    BeforeEndStopsAtFirstEnd(events);
  }

  lemma {:induction false} DeltasPrefix(events: seq<AgentEvent>, i: nat)
    requires i <= |events|
    ensures Deltas(events[..i]) <= Deltas(events)
    decreases |events|
  {
    if i == |events| {
      assert events[..i] == events;
    } else {
      var rest := events[..|events| - 1];
      assert rest[..i] == events[..i];
      DeltasPrefix(rest, i);
    }
  }

  lemma {:induction false} UpdatesPrefix(id: string, parts: seq<string>, k: nat)
    requires k <= |parts|
    ensures Updates(id, parts[..k]) <= Updates(id, parts)
    decreases |parts|
  {
    if k == |parts| {
      assert parts[..k] == parts;
    } else {
      var rest := parts[..|parts| - 1];
      assert rest[..k] == parts[..k];
      UpdatesPrefix(id, rest, k);
    }
  }

  /** Output before the end grows with the stream, and reads no event at or after the first end. */
  lemma ProgressGrows(id: string, events: seq<AgentEvent>, i: nat)
    requires i <= |events| && i <= |BeforeEnd(events)|
    ensures Prologue + Updates(id, Deltas(events[..i])) <= Progress(id, events)
  {
    var r := BeforeEnd(events);
    BeforeEndStopsAtFirstEnd(events);
    assert r[..i] == events[..i];
    DeltasPrefix(r, i);
    var all, some := Deltas(r), Deltas(r[..i]);
    assert all[..|some|] == some;
    UpdatesPrefix(id, all, |some|);
  }

  lemma DeltasSnoc(events: seq<AgentEvent>, i: nat)
    requires i < |events|
    ensures Deltas(events[..i + 1]) == Deltas(events[..i]) + DeltaOf(events[i])
  {
    assert events[..i + 1][..i] == events[..i];
  }

  lemma UpdatesSnoc(id: string, parts: seq<string>, part: string)
    ensures Updates(id, parts + [part]) == Updates(id, parts) + [if parts == [] then NewArtifact(id, part) else AppendToArtifact(id, part)]
  {
    assert (parts + [part])[..|parts|] == parts;
  }

  function UpdateFor(id: string, events: seq<AgentEvent>, i: nat, delta: string): Output
    requires i <= |events|
  {
    if Deltas(events[..i]) == [] then NewArtifact(id, delta) else AppendToArtifact(id, delta)
  }

  lemma SoFarIsInStream(id: string, events: seq<AgentEvent>, i: nat)
    requires i <= |events| && i <= |BeforeEnd(events)|
    ensures SoFar(id, events, i) <= StreamOutput(id, events)
  {
    ProgressGrows(id, events, i);
  }

  /** An event that does not end the stream makes one more output, or none. */
  lemma NextUpdate(id: string, events: seq<AgentEvent>, i: nat)
    requires i < |events|
    ensures DeltaOf(events[i]) == [] ==> SoFar(id, events, i + 1) == SoFar(id, events, i) && Deltas(events[..i + 1]) == Deltas(events[..i])
    ensures DeltaOf(events[i]) != [] ==>
      && Deltas(events[..i + 1]) != []
      && SoFar(id, events, i + 1) == SoFar(id, events, i) + [UpdateFor(id, events, i, events[i].delta)]
  {
    DeltasSnoc(events, i);
    var before := Deltas(events[..i]);
    if DeltaOf(events[i]) == [] {
      assert Deltas(events[..i + 1]) == before;
    } else {
      UpdatesSnoc(id, before, events[i].delta);
      assert Prologue + Updates(id, before + [events[i].delta]) == Prologue + Updates(id, before) + [UpdateFor(id, events, i, events[i].delta)];
    }
  }

  /** At the end event, or when the channel closes, everything but the ending has been yielded. */
  lemma AtTheEnd(id: string, events: seq<AgentEvent>, i: nat)
    requires i <= |BeforeEnd(events)| && i <= |events| && (i < |events| ==> IsEnd(events[i]))
    ensures SoFar(id, events, i) + [Ending(events)] == StreamOutput(id, events)
    ensures Ending(events) == if i < |events| && events[i].RunError? then FailedWith(events[i].message) else Status(Completed, None)
  {
    BeforeEndStopsAtFirstEnd(events);
    assert |BeforeEnd(events)| == i;
    assert BeforeEnd(events) == events[..i];
  }

  /** Yields the next element of the full output. */
  method Emit(y: Yielder, o: Output, ghost full: seq<Output>) returns (more: bool)
    requires !y.stopped && Wanted(full, y.consumer, y.emitted) && y.emitted + [o] <= full
    modifies y
    ensures y.emitted == old(y.emitted) + [o]
    ensures more ==> !y.stopped && Wanted(full, y.consumer, y.emitted)
    ensures !more || y.emitted == full ==> IsCut(full, y.consumer, y.emitted)
  {
    YieldNext(full, y.consumer, y.emitted, o);
    more := y.Yield(o);
  }

  /** The loop over the event channel. `mint(k)` is the id of the k-th artifact event made. */
  method Forward(events: seq<AgentEvent>, mint: nat -> string, y: Yielder)
    requires forall k: nat :: mint(k) != ""
    requires !y.stopped && y.emitted == Prologue && Wanted(StreamOutput(mint(0), events), y.consumer, Prologue)
    modifies y
    ensures IsCut(StreamOutput(mint(0), events), y.consumer, y.emitted)
  {
    ghost var id := mint(0);
    ghost var full := StreamOutput(id, events);
    var artifactId := "";
    var minted: nat := 0;
    assert SoFar(id, events, 0) == Prologue;
    for i := 0 to |events|
      invariant i <= |BeforeEnd(events)|
      invariant !y.stopped && Wanted(full, y.consumer, y.emitted)
      invariant y.emitted == SoFar(id, events, i)
      invariant if Deltas(events[..i]) == [] then artifactId == "" && minted == 0 else artifactId == id
    {
      BeforeEndSplit(events, i);
      NextUpdate(id, events, i);
      match events[i]
      case TextDelta(delta) =>
        if delta == "" {
          continue;
        }
        SoFarIsInStream(id, events, i + 1);
        ghost var update := UpdateFor(id, events, i, delta);
        assert y.emitted + [update] <= full;
        var more;
        if artifactId == "" {
          artifactId := mint(minted);
          minted := minted + 1;
          more := Emit(y, NewArtifact(artifactId, delta), full);
        } else {
          more := Emit(y, AppendToArtifact(artifactId, delta), full);
        }
        if !more {
          return;
        }
      case RunFinished =>
        AtTheEnd(id, events, i);
        var _ := Emit(y, Status(Completed, None), full);
        return;
      case RunError(message) =>
        AtTheEnd(id, events, i);
        var _ := Emit(y, FailedWith(message), full);
        return;
      case OtherEvent =>
    }
    AtTheEnd(id, events, |events|);
    var _ := Emit(y, Status(Completed, None), full);
  }

  /** Never yields after a no, and gives the consumer exactly the full output cut where it stops. */
  method Execute(a: Served, parts: Option<seq<Option<string>>>, mint: nat -> string, y: Yielder)
    requires forall k: nat :: mint(k) != ""
    requires !y.stopped && y.emitted == []
    modifies y
    ensures IsCut(FullOutput(a, MessageText(parts), mint(0)), y.consumer, y.emitted)
    ensures !a.streams && a.run(MessageText(parts)).Delivered? ==> y.emitted == [Reply(a.run(MessageText(parts)).value)]
    ensures !a.streams && !a.run(MessageText(parts)).Delivered? ==> y.emitted == [Status(Failed, Some(a.run(MessageText(parts)).err))]
  {
    var input := CollectMessageText(parts);
    ghost var full := FullOutput(a, input, mint(0));
    if !a.streams {
      var reply := match a.run(input)
        case NotStarted(err) => FailedWith(err)
        case NotDelivered(err) => FailedWith(err)
        case Delivered(text) => Reply(text);
      var _ := Emit(y, reply, full);
      return;
    }
    var more := Emit(y, SubmittedTask, full);
    if !more {
      return;
    }
    more := Emit(y, Status(Working, None), full);
    if !more {
      return;
    }
    var stream := a.stream(input);
    if !stream.Delivered? {
      var _ := Emit(y, FailedWith(stream.err), full);
      return;
    }
    Forward(stream.value, mint, y);
  }

  // ----- the input text

  function NonEmpty(parts: seq<Option<string>>): seq<string> {
    if parts == [] then []
    else NonEmpty(parts[..|parts| - 1]) + match parts[|parts| - 1] case Some(t) => (if t == "" then [] else [t]) case None => []
  }

  function JoinLines(texts: seq<string>): string {
    if texts == [] then ""
    else if |texts| == 1 then texts[0]
    else JoinLines(texts[..|texts| - 1]) + "\n" + texts[|texts| - 1]
  }

  function MessageText(parts: Option<seq<Option<string>>>): string {
    match parts case None => "" case Some(q) => JoinLines(NonEmpty(q))
  }

  lemma JoinedIsEmptyIff(texts: seq<string>)
    requires forall t :: t in texts ==> t != ""
    ensures JoinLines(texts) == "" <==> texts == []
  {
    if |texts| == 1 {
      assert texts[0] in texts;
    }
  }

  lemma {:induction false} NonEmptyOnly(parts: seq<Option<string>>)
    ensures forall t :: t in NonEmpty(parts) ==> t != ""
  {
    if parts != [] {
      NonEmptyOnly(parts[..|parts| - 1]);
    }
  }

  /** Adding a text to a joined list puts a separator exactly when there is text already. */
  lemma JoinSnoc(texts: seq<string>, t: string)
    requires forall u :: u in texts ==> u != ""
    ensures JoinLines(texts + [t]) == (if JoinLines(texts) == "" then t else JoinLines(texts) + "\n" + t)
  {
    JoinedIsEmptyIff(texts);
    assert (texts + [t])[..|texts|] == texts;
  }

  /** A missing part or a part without text adds nothing, not even a separator. */
  method CollectMessageText(parts: Option<seq<Option<string>>>) returns (text: string)
    ensures text == MessageText(parts)
  {
    if parts.None? {
      return "";
    }
    var q := parts.value;
    text := "";
    for i := 0 to |q|
      invariant text == JoinLines(NonEmpty(q[..i]))
    {
      assert q[..i + 1][..i] == q[..i];
      if q[i].None? || q[i].value == "" {
        assert NonEmpty(q[..i + 1]) == NonEmpty(q[..i]);
        continue;
      }
      NonEmptyOnly(q[..i]);
      JoinSnoc(NonEmpty(q[..i]), q[i].value);
      if |text| > 0 {
        text := text + "\n";
      }
      text := text + q[i].value;
    }
    assert q[..|q|] == q;
  }

  /** A part that is there and not empty. */
  predicate HasText(part: Option<string>) {
    part.Some? && part.value != ""
  }

  lemma {:induction false} NonEmptyAt(parts: seq<Option<string>>, k: nat)
    ensures |NonEmpty(parts)| == |Where(parts, HasText)|
    ensures k < |NonEmpty(parts)| ==> parts[Where(parts, HasText)[k]] == Some(NonEmpty(parts)[k])
  {
    if parts != [] {
      NonEmptyAt(parts[..|parts| - 1], k);
    }
  }

  /** The texts taken from the parts are those at the positions `at`, in order: the parts that are there and not empty. */
  lemma TextsAreParts(parts: seq<Option<string>>) returns (at: seq<nat>)
    ensures |at| == |NonEmpty(parts)| && (forall j, k :: 0 <= j < k < |at| ==> at[j] < at[k])
    ensures forall k :: 0 <= k < |at| ==> at[k] < |parts| && parts[at[k]] == Some(NonEmpty(parts)[k])
    ensures forall i: nat :: i in at <==> i < |parts| && parts[i].Some? && parts[i].value != ""
  {
    at := Where(parts, HasText);
    NonEmptyAt(parts, 0);
    forall k | 0 <= k < |at| ensures parts[at[k]] == Some(NonEmpty(parts)[k]) {
      NonEmptyAt(parts, k);
    }
    forall i: nat ensures i in at <==> i < |parts| && HasText(parts[i]) {
      WhereKept(parts, HasText, i);
    }
  }

  /** Splitting a text at its newlines. */
  function Lines(s: string): (r: seq<string>)
    ensures r != []
  {
    if s == "" then [""]
    else
      var rest := Lines(s[1..]);
      if s[0] == '\n' then [""] + rest else [[s[0]] + rest[0]] + rest[1..]
  }

  lemma {:induction false} LinesSnoc(a: string, t: string)
    requires '\n' !in t
    ensures Lines(a + "\n" + t) == Lines(a) + [t]
  {
    if a == "" {
      OneLine(t);
      assert (a + "\n" + t)[1..] == t;
    } else {
      assert (a + "\n" + t)[1..] == a[1..] + "\n" + t;
      LinesSnoc(a[1..], t);
    }
  }

  lemma {:induction false} OneLine(t: string)
    requires '\n' !in t
    ensures Lines(t) == [t]
  {
    if t != "" {
      OneLine(t[1..]);
      assert t == [t[0]] + t[1..];
    }
  }

  /** When no text has a newline of its own, splitting the joined text at newlines gives the texts back. */
  lemma {:induction false} LinesOfJoined(texts: seq<string>)
    requires texts != [] && forall k :: 0 <= k < |texts| ==> '\n' !in texts[k]
    ensures Lines(JoinLines(texts)) == texts
    decreases |texts|
  {
    var n := |texts| - 1;
    if n == 0 {
      OneLine(texts[0]);
    } else {
      LinesOfJoined(texts[..n]);
      LinesSnoc(JoinLines(texts[..n]), texts[n]);
      assert texts == texts[..n] + [texts[n]];
    }
  }

  // ----- without streaming

  /** An agent that does not stream answers once, whatever the consumer: the text of its run, or a failed status with the run's error. */
  lemma AnswerWithoutStreaming(a: Served, input: string, id: string, c: Consumer, out: seq<Output>)
    requires !a.streams && IsCut(FullOutput(a, input, id), c, out)
    ensures |out| == 1
    ensures a.run(input).Delivered? ==> out == [Reply(a.run(input).value)]
    ensures !a.run(input).Delivered? ==> out == [Status(Failed, Some(a.run(input).err))]
  {
    assert out <= FullOutput(a, input, id) && out != [];
  }

  // ----- the task life cycle

  datatype Phase = Start | Accepted | Running | Streaming(id: string) | Final(state: TaskState) | Broken

  /** The life cycle of a task, one event at a time; anything else is `Broken`. */
  function Next(p: Phase, o: Output): Phase {
    match (p, o)
    case (Start, SubmittedTask) => Accepted
    case (Accepted, Status(Working, _)) => Running
    case (Running, NewArtifact(id, _)) => Streaming(id)
    case (Streaming(id), AppendToArtifact(also, _)) => if id == also then p else Broken
    case (Running, Status(Completed, _)) => Final(Completed)
    case (Running, Status(Failed, _)) => Final(Failed)
    case (Streaming(_), Status(Completed, _)) => Final(Completed)
    case (Streaming(_), Status(Failed, _)) => Final(Failed)
    case _ => Broken
  }

  function PhaseAfter(out: seq<Output>): Phase {
    if out == [] then Start else Next(PhaseAfter(out[..|out| - 1]), out[|out| - 1])
  }

  lemma PhaseSnoc(out: seq<Output>, o: Output)
    ensures PhaseAfter(out + [o]) == Next(PhaseAfter(out), o)
  {
    assert (out + [o])[..|out|] == out;
  }

  lemma {:induction false} PhaseAfterProgress(id: string, parts: seq<string>)
    ensures PhaseAfter(Prologue + Updates(id, parts)) == if parts == [] then Running else Streaming(id)
  {
    if parts == [] {
      assert Prologue + Updates(id, []) == [SubmittedTask] + [Status(Working, None)];
      assert [] + [SubmittedTask] == [SubmittedTask];
      PhaseSnoc([], SubmittedTask);
      PhaseSnoc([SubmittedTask], Status(Working, None));
    } else {
      var front := parts[..|parts| - 1];
      var all := Updates(id, parts);
      PhaseAfterProgress(id, front);
      PhaseSnoc(Prologue + Updates(id, front), all[|all| - 1]);
      assert Prologue + all == Prologue + Updates(id, front) + [all[|all| - 1]];
    }
  }

  /** When the stream ends in an error, or never gave any events. */
  predicate StreamFails(s: Outcome<seq<AgentEvent>>) {
    s.Delivered? ==>
      var k := |BeforeEnd(s.value)|;
      k < |s.value| && s.value[k].RunError?
  }

  lemma FullOutputEnds(a: Served, input: string, id: string)
    requires a.streams
    ensures var full := FullOutput(a, input, id);
      full != [] && PhaseAfter(full) == Final(if StreamFails(a.stream(input)) then Failed else Completed)
  {
    var s := a.stream(input);
    if s.Delivered? {
      PhaseAfterProgress(id, Deltas(BeforeEnd(s.value)));
      PhaseSnoc(Progress(id, s.value), Ending(s.value));
    } else {
      PhaseAfterProgress(id, []);
      assert Prologue + Updates(id, []) == Prologue;
      PhaseSnoc(Prologue, FailedWith(s.err));
    }
  }

  lemma {:induction false} PrefixOfUnbroken(full: seq<Output>, k: nat)
    requires k <= |full| && PhaseAfter(full) != Broken
    ensures PhaseAfter(full[..k]) != Broken && (k < |full| ==> !PhaseAfter(full[..k]).Final?)
    decreases |full|
  {
    if k == |full| {
      assert full[..k] == full;
    } else {
      var rest := full[..|full| - 1];
      assert rest[..k] == full[..k];
      PrefixOfUnbroken(rest, k);
      if k == |full| - 1 {
        assert full[..k] == rest;
      }
    }
  }

  /**
    For every stream and every consumer, what is yielded is a run of the task life cycle that
    reaches a final state exactly when nothing was cut off; that state is Failed exactly when the
    stream could not be opened or its first ending event is an error.
  */
  lemma OutputFollowsLifeCycle(a: Served, input: string, id: string, c: Consumer, out: seq<Output>)
    requires a.streams && IsCut(FullOutput(a, input, id), c, out)
    ensures PhaseAfter(out) != Broken
    ensures PhaseAfter(out).Final? <==> out == FullOutput(a, input, id)
    ensures PhaseAfter(out).Final? ==> (PhaseAfter(out).state == Failed <==> StreamFails(a.stream(input)))
  {
    var full := FullOutput(a, input, id);
    FullOutputEnds(a, input, id);
    PrefixOfUnbroken(full, |out|);
    assert full[..|out|] == out;
  }

  /** Event number `k` is the first that ends the stream. */
  predicate FirstEnd(events: seq<AgentEvent>, k: nat) {
    && k < |events| && (events[k].RunFinished? || events[k].RunError?)
    && forall j :: 0 <= j < k ==> !events[j].RunFinished? && !events[j].RunError?
  }

  lemma FirstEndIsUnique(events: seq<AgentEvent>, k: nat)
    ensures FirstEnd(events, k) <==> k == |BeforeEnd(events)| < |events|
  {
    BeforeEndStopsAtFirstEnd(events);
  }

  /**
    What the final status of a stream tells: it is Failed exactly when the stream could not be
    opened or subscribed to, with that error, or its first ending event is an error, with that
    event's message; otherwise it is Completed and carries no message.
  */
  lemma FinalStatusTells(a: Served, input: string, id: string, c: Consumer, out: seq<Output>)
    requires a.streams && IsCut(FullOutput(a, input, id), c, out) && PhaseAfter(out).Final?
    ensures out != []
    ensures !a.stream(input).Delivered? ==> out[|out| - 1] == Status(Failed, Some(a.stream(input).err))
    ensures a.stream(input).Delivered? ==>
      var events := a.stream(input).value;
      && (forall k: nat :: FirstEnd(events, k) && events[k].RunError? ==> out[|out| - 1] == Status(Failed, Some(events[k].message)))
      && ((forall k: nat :: FirstEnd(events, k) ==> events[k].RunFinished?) ==> out[|out| - 1] == Status(Completed, None))
  {
    OutputFollowsLifeCycle(a, input, id, c, out);
    if a.stream(input).Delivered? {
      var events := a.stream(input).value;
      assert out[|out| - 1] == Ending(events);
      EndingTells(events);
    }
  }

  lemma EndingTells(events: seq<AgentEvent>)
    ensures forall k: nat :: FirstEnd(events, k) && events[k].RunError? ==> Ending(events) == Status(Failed, Some(events[k].message))
    ensures (forall k: nat :: FirstEnd(events, k) ==> events[k].RunFinished?) ==> Ending(events) == Status(Completed, None)
  {
    forall k: nat ensures FirstEnd(events, k) <==> k == |BeforeEnd(events)| < |events| {
      FirstEndIsUnique(events, k);
    }
    assert FirstEnd(events, |BeforeEnd(events)|) <==> |BeforeEnd(events)| < |events|;
  }

  predicate HasDelta(e: AgentEvent) {
    e.TextDelta? && e.delta != ""
  }

  lemma {:induction false} DeltasAt(events: seq<AgentEvent>, k: nat)
    ensures |Deltas(events)| == |Where(events, HasDelta)|
    ensures k < |Deltas(events)| ==> events[Where(events, HasDelta)[k]] == TextDelta(Deltas(events)[k])
  {
    if events != [] {
      DeltasAt(events[..|events| - 1], k);
    }
  }

  lemma {:induction false} UpdateAt(id: string, parts: seq<string>, k: nat)
    requires k < |parts|
    ensures Updates(id, parts)[k] == if k == 0 then NewArtifact(id, parts[0]) else AppendToArtifact(id, parts[k])
  {
    if k < |parts| - 1 {
      UpdateAt(id, parts[..|parts| - 1], k);
    }
  }

  lemma UpdateIsDelta(id: string, events: seq<AgentEvent>, k: nat)
    requires k < |Updates(id, Deltas(events))|
    ensures |Where(events, HasDelta)| == |Updates(id, Deltas(events))|
    ensures var u, e := Updates(id, Deltas(events))[k], events[Where(events, HasDelta)[k]];
      e.TextDelta? && u == if k == 0 then NewArtifact(id, e.delta) else AppendToArtifact(id, e.delta)
  {
    DeltasAt(events, k);
    UpdateAt(id, Deltas(events), k);
  }

  /** Each artifact update is one non-empty delta before the first ending event: those at the positions `at`, in order, none twice. */
  lemma UpdatesAreDeltas(id: string, events: seq<AgentEvent>) returns (at: seq<nat>)
    ensures var updates := Updates(id, Deltas(BeforeEnd(events)));
      && |at| == |updates| && (forall j, k :: 0 <= j < k < |at| ==> at[j] < at[k])
      && (forall k :: 0 <= k < |at| ==>
          && at[k] < |events| && events[at[k]].TextDelta?
          && updates[k] == if k == 0 then NewArtifact(id, events[at[k]].delta) else AppendToArtifact(id, events[at[k]].delta))
    ensures forall i: nat :: i in at <==>
      i < |events| && events[i].TextDelta? && events[i].delta != "" && forall j :: 0 <= j <= i ==> !IsEnd(events[j])
  {
    var r := BeforeEnd(events);
    BeforeEndStopsAtFirstEnd(events);
    at := Where(r, HasDelta);
    DeltasAt(r, 0);
    forall k | 0 <= k < |at|
      ensures events[at[k]].TextDelta?
      ensures Updates(id, Deltas(r))[k] == if k == 0 then NewArtifact(id, events[at[k]].delta) else AppendToArtifact(id, events[at[k]].delta)
    {
      UpdateIsDelta(id, r, k);
    }
    forall i: nat ensures i in at <==> i < |r| && HasDelta(r[i]) {
      WhereKept(r, HasDelta, i);
    }
  }

  // ----- the artifact text

  function PartOf(o: Output): string {
    if o.NewArtifact? || o.AppendToArtifact? then o.part else ""
  }

  /** The text a client assembles from the artifact events. */
  function ArtifactText(out: seq<Output>): string {
    if out == [] then "" else ArtifactText(out[..|out| - 1]) + PartOf(out[|out| - 1])
  }

  /** The text the agent streamed. */
  function StreamedText(events: seq<AgentEvent>): string {
    if events == [] then "" else StreamedText(events[..|events| - 1]) + match events[|events| - 1] case TextDelta(d) => d case _ => ""
  }

  lemma ArtifactTextSnoc(out: seq<Output>, o: Output)
    ensures ArtifactText(out + [o]) == ArtifactText(out) + PartOf(o)
  {
    assert (out + [o])[..|out|] == out;
  }

  lemma PrologueHasNoText(id: string)
    ensures ArtifactText(Prologue + Updates(id, [])) == ""
  {
    assert Prologue + Updates(id, []) == [SubmittedTask] + [Status(Working, None)];
    ArtifactTextSnoc([SubmittedTask], Status(Working, None));
    assert [SubmittedTask][..0] == [];
  }

  lemma ProgressTextSnoc(id: string, parts: seq<string>, part: string)
    ensures ArtifactText(Prologue + Updates(id, parts + [part])) == ArtifactText(Prologue + Updates(id, parts)) + part
  {
    UpdatesSnoc(id, parts, part);
    var o := if parts == [] then NewArtifact(id, part) else AppendToArtifact(id, part);
    assert Prologue + Updates(id, parts + [part]) == Prologue + Updates(id, parts) + [o];
    ArtifactTextSnoc(Prologue + Updates(id, parts), o);
  }

  lemma {:induction false} ProgressText(id: string, events: seq<AgentEvent>)
    ensures ArtifactText(Prologue + Updates(id, Deltas(events))) == StreamedText(events)
  {
    if events == [] {
      PrologueHasNoText(id);
    } else {
      var n := |events| - 1;
      ProgressText(id, events[..n]);
      if DeltaOf(events[n]) == [] {
        assert Deltas(events) == Deltas(events[..n]);
      } else {
        ProgressTextSnoc(id, Deltas(events[..n]), events[n].delta);
      }
    }
  }

  lemma {:induction false} TextOfPrefix(full: seq<Output>, k: nat)
    requires k <= |full|
    ensures ArtifactText(full[..k]) <= ArtifactText(full)
    decreases |full|
  {
    if k == |full| {
      assert full[..k] == full;
    } else {
      var rest := full[..|full| - 1];
      assert rest[..k] == full[..k];
      TextOfPrefix(rest, k);
    }
  }

  lemma StreamOutputText(id: string, events: seq<AgentEvent>)
    ensures ArtifactText(StreamOutput(id, events)) == StreamedText(BeforeEnd(events))
  {
    ProgressText(id, BeforeEnd(events));
    ArtifactTextSnoc(Progress(id, events), Ending(events));
  }

  /**
    No text is lost, repeated or reordered: a consumer that never stops assembles all the text
    before the first ending event, and one that stops has a prefix of it.
  */
  lemma ArtifactTextIsStreamedText(a: Served, input: string, id: string, c: Consumer, out: seq<Output>)
    requires a.streams && a.stream(input).Delivered? && IsCut(FullOutput(a, input, id), c, out)
    ensures ArtifactText(out) <= StreamedText(BeforeEnd(a.stream(input).value))
    ensures (forall q :: c(q)) ==> ArtifactText(out) == StreamedText(BeforeEnd(a.stream(input).value))
  {
    var events := a.stream(input).value;
    var full := FullOutput(a, input, id);
    StreamOutputText(id, events);
    TextOfPrefix(full, |out|);
    assert full[..|out|] == out;
    if forall q :: c(q) {
      assert c(out);
    }
  }
}
