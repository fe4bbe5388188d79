/** Tool-call counters and their per-tool breakdowns. */
module Telemetry {
  import opened FiniteSums
  import opened Selections

  datatype Call = Call(name: string, failed: bool)

  /** How often `name` was called, or failed, in a history. */
  function Times(calls: seq<Call>, name: string, failedOnly: bool): nat {
    if calls == [] then 0
    else
      var c := calls[|calls| - 1];
      Times(calls[..|calls| - 1], name, failedOnly) + if c.name == name && (c.failed || !failedOnly) then 1 else 0
  }

  /** The calls that have a name, or those of them that failed. */
  function NamedCalls(calls: seq<Call>, failedOnly: bool): nat {
    if calls == [] then 0
    else
      var c := calls[|calls| - 1];
      NamedCalls(calls[..|calls| - 1], failedOnly) + if c.name != "" && (c.failed || !failedOnly) then 1 else 0
  }

  function Failures(calls: seq<Call>): nat {
    if calls == [] then 0 else Failures(calls[..|calls| - 1]) + if calls[|calls| - 1].failed then 1 else 0
  }

  /** What the counts are: the calls of that name, and those of them, or of all, that failed. */
  lemma {:induction false} TimesCount(calls: seq<Call>, name: string)
    ensures Times(calls, name, false) == |Where(calls, (c: Call) => c.name == name)|
    ensures Times(calls, name, true) == |Where(calls, (c: Call) => c.name == name && c.failed)|
    ensures Failures(calls) == |Where(calls, (c: Call) => c.failed)|
    ensures NamedCalls(calls, false) == |Where(calls, (c: Call) => c.name != "")|
    ensures NamedCalls(calls, true) == |Where(calls, (c: Call) => c.name != "" && c.failed)|
  {
    if calls != [] {
      TimesCount(calls[..|calls| - 1], name);
    }
  }

  /** The breakdown holds, for every name that occurs, how often. */
  ghost predicate Breaks(breakdown: map<string, nat>, calls: seq<Call>, failedOnly: bool) {
    && "" !in breakdown
    && forall n :: n != "" ==> (n in breakdown <==> Times(calls, n, failedOnly) > 0) && (n in breakdown ==> breakdown[n] == Times(calls, n, failedOnly))
  }

  function Bumped(m: map<string, nat>, name: string): map<string, nat> {
    if name == "" then m else m[name := (if name in m then m[name] else 0) + 1]
  }

  lemma TimesSnoc(calls: seq<Call>, c: Call, n: string, failedOnly: bool)
    ensures Times(calls + [c], n, failedOnly) == Times(calls, n, failedOnly) + if c.name == n && (c.failed || !failedOnly) then 1 else 0
  {
    assert (calls + [c])[..|calls|] == calls;
  }

  lemma BumpedBreaks(m: map<string, nat>, calls: seq<Call>, c: Call, failedOnly: bool)
    requires Breaks(m, calls, failedOnly)
    ensures Breaks(if c.failed || !failedOnly then Bumped(m, c.name) else m, calls + [c], failedOnly)
  {
    forall n ensures Times(calls + [c], n, failedOnly) == Times(calls, n, failedOnly) + if c.name == n && (c.failed || !failedOnly) then 1 else 0 {
      TimesSnoc(calls, c, n, failedOnly);
    }
  }

  class ToolTelemetry {
    var totalCalls: nat
    var failedCalls: nat
    var breakdown: map<string, nat>
    var failedBreakdown: map<string, nat>
    ghost var history: seq<Call>

    ghost predicate Valid()
      reads this
    {
      && totalCalls == |history| && failedCalls == Failures(history)
      && Breaks(breakdown, history, false) && Breaks(failedBreakdown, history, true)
    }

    constructor ()
      ensures Valid() && history == []
    {
      totalCalls, failedCalls := 0, 0;
      breakdown, failedBreakdown := map[], map[];
      history := [];
    }

    method Record(name: string, failed: bool)
      requires Valid()
      modifies this
      ensures Valid() && history == old(history) + [Call(name, failed)]
      ensures totalCalls == old(totalCalls) + 1 && failedCalls == old(failedCalls) + if failed then 1 else 0
    {
      ghost var c := Call(name, failed);
      BumpedBreaks(breakdown, history, c, false);
      BumpedBreaks(failedBreakdown, history, c, true);
      assert (history + [c])[..|history|] == history;
      history := history + [c];
      totalCalls := totalCalls + 1;
      if name != "" {
        breakdown := breakdown[name := (if name in breakdown then breakdown[name] else 0) + 1];
      }
      if !failed {
        return;
      }
      failedCalls := failedCalls + 1;
      if name != "" {
        failedBreakdown := failedBreakdown[name := (if name in failedBreakdown then failedBreakdown[name] else 0) + 1];
      }
    }
  }

  // ----- conservation

  function At(m: map<string, nat>): string -> nat {
    n => if n in m then m[n] else 0
  }

  lemma {:induction false} SumSame<T>(s: set<T>, f: T -> nat, g: T -> nat)
    requires forall x :: x in s ==> f(x) == g(x)
    ensures Sum(s, f) == Sum(s, g)
  {
    SumAtMost(s, f, g);
    SumAtMost(s, g, f);
  }

  lemma SumBumped(m: map<string, nat>, name: string)
    requires name != ""
    ensures Sum(Bumped(m, name).Keys, At(Bumped(m, name))) == Sum(m.Keys, At(m)) + 1
  {
    var b := Bumped(m, name);
    SumRemove(b.Keys, At(b), name);
    assert b.Keys - {name} == m.Keys - {name};
    SumSame(m.Keys - {name}, At(b), At(m));
    if name in m {
      SumRemove(m.Keys, At(m), name);
    } else {
      assert m.Keys - {name} == m.Keys;
    }
  }

  lemma BreaksIsUnique(m: map<string, nat>, n: map<string, nat>, calls: seq<Call>, failedOnly: bool)
    requires Breaks(m, calls, failedOnly) && Breaks(n, calls, failedOnly)
    ensures m == n
  {
  }

  lemma {:induction false} BreakdownOf(calls: seq<Call>, failedOnly: bool) returns (m: map<string, nat>)
    ensures Breaks(m, calls, failedOnly) && Sum(m.Keys, At(m)) == NamedCalls(calls, failedOnly)
  {
    if calls == [] {
      m := map[];
    } else {
      var front, c := calls[..|calls| - 1], calls[|calls| - 1];
      var before := BreakdownOf(front, failedOnly);
      BumpedBreaks(before, front, c, failedOnly);
      assert front + [c] == calls;
      m := if c.failed || !failedOnly then Bumped(before, c.name) else before;
      if c.name != "" {
        SumBumped(before, c.name);
      }
    }
  }

  /** The breakdown values add up to the calls that had a name, and the failed ones to the failures that had one. */
  lemma BreakdownsAddUp(m: map<string, nat>, calls: seq<Call>, failedOnly: bool)
    requires Breaks(m, calls, failedOnly)
    ensures Sum(m.Keys, At(m)) == NamedCalls(calls, failedOnly)
  {
    var n := BreakdownOf(calls, failedOnly);
    BreaksIsUnique(m, n, calls, failedOnly);
  }

  lemma {:induction false} FailuresAreCalls(calls: seq<Call>, name: string)
    ensures Failures(calls) <= |calls| && Times(calls, name, true) <= Times(calls, name, false)
    ensures NamedCalls(calls, true) <= Failures(calls)
  {
    if calls != [] {
      FailuresAreCalls(calls[..|calls| - 1], name);
    }
  }

  /** No tool has more failures than calls, and no tool fails without having been called. */
  lemma FailedAtMostCalled(m: map<string, nat>, f: map<string, nat>, calls: seq<Call>, name: string)
    requires Breaks(m, calls, false) && Breaks(f, calls, true)
    ensures Failures(calls) <= |calls|
    ensures name in f ==> name in m && f[name] <= m[name]
  {
    FailuresAreCalls(calls, name);
  }
}
