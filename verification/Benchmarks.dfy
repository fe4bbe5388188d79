/** The benchmark runner's batching and the aggregation of its outcomes; floats are reals here. */
module Benchmarks {
  import opened GoSlices
  import opened Insertion
  import opened Selections

  datatype RunOutcome = RunOutcome(latencyMs: real, success: bool, recalls: int, stores: int)

  datatype Metrics = Metrics(p50: real, p95: real, p99: real, avg: real, totalRuns: nat, successRate: real, recalls: int, stores: int)

  // ----- percentiles

  ghost predicate Ascending(q: seq<real>) {
    forall i, j :: 0 <= i < j < |q| ==> q[i] <= q[j]
  }

  function Ceil(x: real): int {
    -(-x).Floor
  }

  function Rank(n: nat, p: real): real {
    (p / 100.0) * (n as real - 1.0)
  }

  function Percentile(sorted: seq<real>, p: real): real
    requires 0.0 <= p <= 100.0
  {
    if |sorted| == 0 then 0.0
    else if |sorted| == 1 then sorted[0]
    else
      RankInRange(|sorted|, p);
      var rank := Rank(|sorted|, p);
      var lower, upper := rank.Floor, Ceil(rank);
      if lower == upper then sorted[lower]
      else
        var weight := rank - lower as real;
        sorted[lower] * (1.0 - weight) + sorted[upper] * weight
  }

  lemma RankInRange(n: nat, p: real)
    requires n > 1 && 0.0 <= p <= 100.0
    ensures 0.0 <= Rank(n, p) <= n as real - 1.0
    ensures 0 <= Rank(n, p).Floor <= Ceil(Rank(n, p)) <= n - 1 && Ceil(Rank(n, p)) <= Rank(n, p).Floor + 1
  {
    var f, m := p / 100.0, n as real - 1.0;
    assert 0.0 <= f <= 1.0;
    MulBetween(f, m);
  }

  lemma Scale(x: real, y: real)
    requires x >= 0.0 && y >= 0.0
    ensures x * y >= 0.0
  {
  }

  lemma MulBetween(f: real, m: real)
    requires 0.0 <= f <= 1.0 && m >= 0.0
    ensures 0.0 <= f * m <= m
  {
    Scale(f, m);
    Scale(1.0 - f, m);
    assert (1.0 - f) * m == m - f * m;
  }

  lemma MulMonotone(f: real, g: real, m: real)
    requires f <= g && m >= 0.0
    ensures f * m <= g * m
  {
    Scale(g - f, m);
    assert (g - f) * m == g * m - f * m;
  }

  lemma Distribute(x: real, a: real, b: real)
    ensures x * (b - a) == x * b - x * a
  {
  }

  lemma Between(a: real, b: real, w: real)
    requires a <= b && 0.0 <= w <= 1.0
    ensures a <= a * (1.0 - w) + b * w <= b
  {
    Scale(w, b - a);
    Distribute(w, a, b);
    Scale(1.0 - w, b - a);
    Distribute(1.0 - w, a, b);
    assert a * (1.0 - w) == a - a * w;
    assert (1.0 - w) * b == b - w * b;
  }

  lemma FurtherAlong(a: real, b: real, v: real, w: real)
    requires a <= b && v <= w
    ensures a * (1.0 - v) + b * v <= a * (1.0 - w) + b * w
  {
    Scale(w - v, b - a);
    Distribute(w - v, a, b);
    assert a * (1.0 - v) == a - a * v;
    assert a * (1.0 - w) == a - a * w;
    assert (w - v) * b == w * b - v * b;
    assert (w - v) * a == w * a - v * a;
  }

  /** A percentile lies between the two values its rank falls between, so between the smallest and the largest. */
  lemma PercentileIsBounded(sorted: seq<real>, p: real)
    requires 0.0 <= p <= 100.0 && Ascending(sorted) && |sorted| > 1
    ensures var rank := Rank(|sorted|, p);
      && 0 <= rank.Floor <= Ceil(rank) < |sorted|
      && sorted[0] <= sorted[rank.Floor] <= Percentile(sorted, p) <= sorted[Ceil(rank)] <= sorted[|sorted| - 1]
  {
    RankInRange(|sorted|, p);
    var rank := Rank(|sorted|, p);
    var lower, upper := rank.Floor, Ceil(rank);
    assert sorted[0] <= sorted[lower] <= sorted[upper] <= sorted[|sorted| - 1];
    if lower != upper {
      var weight := rank - lower as real;
      assert Percentile(sorted, p) == sorted[lower] * (1.0 - weight) + sorted[upper] * weight;
      Between(sorted[lower], sorted[upper], weight);
    }
  }

  lemma RankIsMonotone(n: nat, p: real, q: real)
    requires n > 0 && p <= q
    ensures Rank(n, p) <= Rank(n, q)
  {
    MulMonotone(p / 100.0, q / 100.0, n as real - 1.0);
  }

  /** Two percentages whose ranks fall between the same two samples. */
  lemma BetweenSameSamples(sorted: seq<real>, p: real, q: real)
    requires 0.0 <= p <= q <= 100.0 && Ascending(sorted) && |sorted| > 1 && Rank(|sorted|, p) <= Rank(|sorted|, q)
    requires Rank(|sorted|, p).Floor == Rank(|sorted|, q).Floor != Ceil(Rank(|sorted|, p))
    ensures Percentile(sorted, p) <= Percentile(sorted, q)
  {
    PercentileAt(sorted, p);
    PercentileAt(sorted, q);
    var r, t := Rank(|sorted|, p), Rank(|sorted|, q);
    FurtherAlong(sorted[r.Floor], sorted[Ceil(r)], r - r.Floor as real, t - t.Floor as real);
  }

  /** So P50 <= P95 <= P99. */
  lemma PercentileIsMonotone(sorted: seq<real>, p: real, q: real)
    requires 0.0 <= p <= q <= 100.0 && Ascending(sorted)
    ensures Percentile(sorted, p) <= Percentile(sorted, q)
  {
    if |sorted| > 1 {
      RankIsMonotone(|sorted|, p, q);
      var r, t := Rank(|sorted|, p), Rank(|sorted|, q);
      if r.Floor == t.Floor && r.Floor != Ceil(r) {
        BetweenSameSamples(sorted, p, q);
      } else {
        PercentileIsBounded(sorted, p);
        PercentileIsBounded(sorted, q);
        assert r.Floor < t.Floor ==> Ceil(r) <= t.Floor;
      }
    }
  }

  lemma WholeRank(rank: real)
    requires rank.Floor == Ceil(rank)
    ensures rank == rank.Floor as real
  {
  }

  lemma OneStepOn(a: real, step: real, w: real)
    ensures a * (1.0 - w) + (a + step) * w == a + step * w
  {
    assert a * (1.0 - w) == a - a * w;
    assert (a + step) * w == a * w + step * w;
  }

  /** Between sample `l` and the next of an equally spaced list. */
  lemma Interpolated(x: real, y: real, first: real, step: real, l: real, rank: real)
    requires x == first + step * l && y == first + step * (l + 1.0)
    ensures x * (1.0 - (rank - l)) + y * (rank - l) == first + step * rank
  {
    assert step * (l + 1.0) == step * l + step;
    OneStepOn(x, step, rank - l);
    assert step * (rank - l) == step * rank - step * l;
  }

  lemma PercentileAt(sorted: seq<real>, p: real)
    requires 0.0 <= p <= 100.0 && |sorted| > 1
    ensures var rank := Rank(|sorted|, p);
      && 0 <= rank.Floor <= Ceil(rank) < |sorted| && (rank.Floor != Ceil(rank) ==> Ceil(rank) == rank.Floor + 1)
      && Percentile(sorted, p) ==
        if rank.Floor == Ceil(rank) then sorted[rank.Floor]
        else sorted[rank.Floor] * (1.0 - (rank - rank.Floor as real)) + sorted[Ceil(rank)] * (rank - rank.Floor as real)
  {
    RankInRange(|sorted|, p);
  }

  /** The exact value where it is known: among equally spaced samples the percentile is linear in the percentage, from the smallest at 0 to the largest at 100. */
  lemma PercentileOfEquallySpaced(sorted: seq<real>, p: real, first: real, step: real)
    requires 0.0 <= p <= 100.0 && |sorted| > 1 && forall i :: 0 <= i < |sorted| ==> sorted[i] == first + step * i as real
    ensures Percentile(sorted, p) == first + step * (p / 100.0 * (|sorted| as real - 1.0))
  {
    PercentileAt(sorted, p);
    var rank := p / 100.0 * (|sorted| as real - 1.0);
    assert rank == Rank(|sorted|, p);
    var lower, upper := rank.Floor, Ceil(rank);
    if lower == upper {
      WholeRank(rank);
    } else {
      Interpolated(sorted[lower], sorted[upper], first, step, lower as real, rank);
    }
  }

  // ----- aggregation

  function Count(outcomes: seq<RunOutcome>, of: RunOutcome -> int): int {
    if outcomes == [] then 0 else Count(outcomes[..|outcomes| - 1], of) + of(outcomes[|outcomes| - 1])
  }

  function Latencies(outcomes: seq<RunOutcome>): seq<real> {
    if outcomes == [] then [] else Latencies(outcomes[..|outcomes| - 1]) + [outcomes[|outcomes| - 1].latencyMs]
  }

  function Total(values: seq<real>): real {
    if values == [] then 0.0 else Total(values[..|values| - 1]) + values[|values| - 1]
  }

  function Average(values: seq<real>): real {
    if values == [] then 0.0 else Total(values) / (|values| as real)
  }

  function Rate(successes: int, runs: nat): real {
    if runs > 0 then successes as real / runs as real * 100.0 else 0.0
  }

  const SUCCESSES := (o: RunOutcome) => if o.success then 1 else 0
  const RECALLS := (o: RunOutcome) => o.recalls
  const STORES := (o: RunOutcome) => o.stores

  /** The metrics of outcomes whose latencies, sorted, are `sorted`. */
  ghost predicate AreMetrics(m: Metrics, outcomes: seq<RunOutcome>, sorted: seq<real>) {
    && Ascending(sorted) && multiset(sorted) == multiset(Latencies(outcomes))
    && m == Metrics(Percentile(sorted, 50.0), Percentile(sorted, 95.0), Percentile(sorted, 99.0), Average(sorted), |outcomes|,
      Rate(Count(outcomes, SUCCESSES), |outcomes|), Count(outcomes, RECALLS), Count(outcomes, STORES))
  }

  lemma DropLast<T>(q: seq<T>)
    requires q != []
    ensures multiset(q) == multiset(q[..|q| - 1]) + multiset{q[|q| - 1]}
  {
    assert q == q[..|q| - 1] + [q[|q| - 1]];
  }

  lemma LastIsGreatest(q: seq<real>, x: real)
    requires Ascending(q) && x in multiset(q)
    ensures q != [] && x <= q[|q| - 1]
  {
    var i :| 0 <= i < |q| && q[i] == x;
  }

  lemma SameLength<T>(a: seq<T>, b: seq<T>)
    requires multiset(a) == multiset(b)
    ensures |a| == |b|
  {
    assert |multiset(a)| == |multiset(b)|;
  }

  lemma DropSameLast<T>(a: seq<T>, b: seq<T>)
    requires a != [] && b != [] && a[|a| - 1] == b[|b| - 1] && multiset(a) == multiset(b)
    ensures multiset(a[..|a| - 1]) == multiset(b[..|b| - 1])
  {
    DropLast(a);
    DropLast(b);
    assert multiset(a[..|a| - 1]) == multiset(a) - multiset{a[|a| - 1]};
  }

  lemma SameFrontAndLast<T>(a: seq<T>, b: seq<T>)
    requires a != [] && |a| == |b| && a[..|a| - 1] == b[..|b| - 1] && a[|a| - 1] == b[|b| - 1]
    ensures a == b
  {
    assert a == a[..|a| - 1] + [a[|a| - 1]] && b == b[..|b| - 1] + [b[|b| - 1]];
  }

  lemma {:induction false} AscendingIsUnique(a: seq<real>, b: seq<real>)
    requires Ascending(a) && Ascending(b) && multiset(a) == multiset(b)
    ensures a == b
  {
    SameLength(a, b);
    if a != [] {
      var k := |a| - 1;
      LastIsGreatest(a, b[k]);
      LastIsGreatest(b, a[k]);
      DropSameLast(a, b);
      AscendingIsUnique(a[..k], b[..k]);
      SameFrontAndLast(a, b);
    }
  }

  lemma WithoutElements(q: seq<RunOutcome>, i: nat)
    requires i < |q|
    ensures multiset(Without(q, i)) == multiset(q) - multiset{q[i]}
  {
    assert q == q[..i] + [q[i]] + q[i + 1..];
  }

  lemma {:induction false} CountConcat(a: seq<RunOutcome>, b: seq<RunOutcome>, of: RunOutcome -> int)
    ensures Count(a + b, of) == Count(a, of) + Count(b, of)
  {
    if b == [] {
      assert a + b == a;
    } else {
      assert (a + b)[..|a + b| - 1] == a + b[..|b| - 1];
      CountConcat(a, b[..|b| - 1], of);
    }
  }

  lemma {:induction false} LatenciesConcat(a: seq<RunOutcome>, b: seq<RunOutcome>)
    ensures Latencies(a + b) == Latencies(a) + Latencies(b)
  {
    if b == [] {
      assert a + b == a;
    } else {
      var front := b[..|b| - 1];
      assert (a + b)[..|a + b| - 1] == a + front;
      LatenciesConcat(a, front);
      LatenciesSnoc(a + b);
      LatenciesSnoc(b);
    }
  }

  lemma LatenciesSnoc(q: seq<RunOutcome>)
    requires q != []
    ensures Latencies(q) == Latencies(q[..|q| - 1]) + [q[|q| - 1].latencyMs]
  {
  }

  lemma TakenApart(q: seq<RunOutcome>, i: nat)
    requires i < |q|
    ensures q == q[..i] + ([q[i]] + q[i + 1..]) && Without(q, i) == q[..i] + q[i + 1..]
  {
  }

  lemma OfOne(o: RunOutcome, of: RunOutcome -> int)
    ensures Count([o], of) == of(o) && Latencies([o]) == [o.latencyMs]
  {
    assert [o][..0] == [];
    assert Latencies([o]) == [] + [o.latencyMs];
  }

  lemma CountTakenOut(q: seq<RunOutcome>, i: nat, of: RunOutcome -> int)
    requires i < |q|
    ensures Count(q, of) == Count(Without(q, i), of) + of(q[i])
  {
    var a, b := q[..i], q[i + 1..];
    TakenApart(q, i);
    CountConcat(a, [q[i]] + b, of);
    CountConcat([q[i]], b, of);
    CountConcat(a, b, of);
    OfOne(q[i], of);
  }

  lemma LatencyTakenOut(q: seq<RunOutcome>, i: nat)
    requires i < |q|
    ensures multiset(Latencies(q)) == multiset(Latencies(Without(q, i))) + multiset{q[i].latencyMs}
  {
    var a, b := q[..i], q[i + 1..];
    TakenApart(q, i);
    LatenciesConcat(a, [q[i]] + b);
    LatenciesConcat([q[i]], b);
    LatenciesConcat(a, b);
    OfOne(q[i], SUCCESSES);
    MiddleTakenOut(Latencies(a), q[i].latencyMs, Latencies(b));
  }

  lemma MiddleTakenOut(a: seq<real>, x: real, b: seq<real>)
    ensures multiset(a + ([x] + b)) == multiset(a + b) + multiset{x}
  {
  }

  lemma {:induction false} SumsIgnoreOrder(a: seq<RunOutcome>, b: seq<RunOutcome>, of: RunOutcome -> int)
    requires multiset(a) == multiset(b)
    ensures |a| == |b| && Count(a, of) == Count(b, of) && multiset(Latencies(a)) == multiset(Latencies(b))
  {
    SameLength(a, b);
    if a != [] {
      var k := |a| - 1;
      assert a[k] in multiset(b);
      var i :| 0 <= i < |b| && b[i] == a[k];
      CountTakenOut(a, k, of);
      CountTakenOut(b, i, of);
      LatencyTakenOut(a, k);
      LatencyTakenOut(b, i);
      WithoutElements(a, k);
      WithoutElements(b, i);
      SumsIgnoreOrder(Without(a, k), Without(b, i), of);
    }
  }

  predicate Succeeded(o: RunOutcome) {
    o.success
  }

  lemma {:induction false} SuccessesAreCounted(outcomes: seq<RunOutcome>)
    ensures Count(outcomes, SUCCESSES) == |Where(outcomes, Succeeded)| <= |outcomes|
  {
    if outcomes != [] {
      SuccessesAreCounted(outcomes[..|outcomes| - 1]);
    }
  }

  lemma {:induction false} NoSuccess(outcomes: seq<RunOutcome>)
    ensures Count(outcomes, SUCCESSES) == 0 <==> forall i :: 0 <= i < |outcomes| ==> !outcomes[i].success
  {
    if outcomes != [] {
      var n := |outcomes| - 1;
      var front := outcomes[..n];
      NoSuccess(front);
      SuccessesAreCounted(front);
      assert (forall i :: 0 <= i < |outcomes| ==> !outcomes[i].success) <==> !outcomes[n].success && forall i :: 0 <= i < n ==> !front[i].success;
    }
  }

  lemma {:induction false} AllSuccesses(outcomes: seq<RunOutcome>)
    ensures Count(outcomes, SUCCESSES) == |outcomes| <==> forall i :: 0 <= i < |outcomes| ==> outcomes[i].success
  {
    if outcomes != [] {
      var n := |outcomes| - 1;
      var front := outcomes[..n];
      AllSuccesses(front);
      SuccessesAreCounted(front);
      assert (forall i :: 0 <= i < |outcomes| ==> outcomes[i].success) <==> outcomes[n].success && forall i :: 0 <= i < n ==> front[i].success;
    }
  }

  lemma Quotient(x: real, r: real)
    requires r > 0.0
    ensures x / r * r == x
  {
  }

  lemma RateScales(k: int, runs: nat)
    requires runs > 0
    ensures Rate(k, runs) == k as real / runs as real * 100.0
    ensures Rate(k, runs) * runs as real == 100.0 * k as real
  {
    var x, r := k as real, runs as real;
    Quotient(x, r);
    Reordered(x / r, 100.0, r);
  }

  lemma Reordered(a: real, b: real, c: real)
    ensures a * b * c == a * c * b
  {
  }

  lemma Times(x: real, r: real)
    requires x > 0.0 && r > 0.0
    ensures x * r > 0.0
  {
  }

  lemma SameOrder(a: real, b: real, r: real)
    requires r > 0.0
    ensures (a * r < b * r <==> a < b) && (a * r == b * r <==> a == b)
  {
    Distribute(r, a, b);
    if a < b {
      Times(b - a, r);
      assert (b - a) * r == r * (b - a);
    } else if b < a {
      Times(a - b, r);
      Distribute(r, b, a);
      assert (a - b) * r == r * (a - b);
    }
  }

  /** A rate is less than another exactly when it counts fewer; it is 100 exactly for all and 0 exactly for none. */
  lemma RateGrows(j: int, k: int, runs: nat)
    requires runs > 0
    ensures Rate(j, runs) < Rate(k, runs) <==> j < k
  {
    RateScales(j, runs);
    RateScales(k, runs);
    SameOrder(Rate(j, runs), Rate(k, runs), runs as real);
  }

  lemma RateEnds(runs: nat)
    requires runs > 0
    ensures Rate(runs, runs) == 100.0 && Rate(0, runs) == 0.0
  {
    var r := runs as real;
    RateScales(runs, runs);
    RateScales(0, runs);
    SameOrder(Rate(runs, runs), 100.0, r);
    SameOrder(Rate(0, runs), 0.0, r);
  }

  lemma MetricsCount(m: Metrics, outcomes: seq<RunOutcome>, sorted: seq<real>)
    requires AreMetrics(m, outcomes, sorted)
    ensures m.successRate == Rate(Count(outcomes, SUCCESSES), |outcomes|) && m.totalRuns == |outcomes|
    ensures m.recalls == Count(outcomes, RECALLS) && m.stores == Count(outcomes, STORES)
  {
  }

  /** The success rate is a percentage: 100 exactly when every run succeeded, 0 exactly when none did, and growing with the runs that did. */
  lemma SuccessRateTells(m: Metrics, outcomes: seq<RunOutcome>, n: Metrics, others: seq<RunOutcome>, q: seq<real>, r: seq<real>)
    requires AreMetrics(m, outcomes, q) && AreMetrics(n, others, r) && outcomes != [] && |others| == |outcomes|
    ensures m.successRate == 100.0 <==> forall i :: 0 <= i < |outcomes| ==> outcomes[i].success
    ensures m.successRate == 0.0 <==> forall i :: 0 <= i < |outcomes| ==> !outcomes[i].success
    ensures m.successRate < n.successRate <==> |Where(outcomes, Succeeded)| < |Where(others, Succeeded)|
  {
    MetricsCount(m, outcomes, q);
    MetricsCount(n, others, r);
    RatesTell(m.successRate, outcomes, n.successRate, others);
  }

  lemma RatesTell(x: real, outcomes: seq<RunOutcome>, y: real, others: seq<RunOutcome>)
    requires outcomes != [] && |others| == |outcomes|
    requires x == Rate(Count(outcomes, SUCCESSES), |outcomes|) && y == Rate(Count(others, SUCCESSES), |others|)
    ensures x == 100.0 <==> forall i :: 0 <= i < |outcomes| ==> outcomes[i].success
    ensures x == 0.0 <==> forall i :: 0 <= i < |outcomes| ==> !outcomes[i].success
    ensures x < y <==> |Where(outcomes, Succeeded)| < |Where(others, Succeeded)|
  {
    var j, k, runs := Count(outcomes, SUCCESSES), Count(others, SUCCESSES), |outcomes|;
    SuccessesAreCounted(outcomes);
    SuccessesAreCounted(others);
    NoSuccess(outcomes);
    AllSuccesses(outcomes);
    RateGrows(j, k, runs);
    RateEnds(runs);
    RateGrows(j, runs, runs);
    RateGrows(0, j, runs);
  }

  lemma {:induction false} TotalConcat(a: seq<real>, b: seq<real>)
    ensures Total(a + b) == Total(a) + Total(b)
  {
    if b == [] {
      assert a + b == a;
    } else {
      assert (a + b)[..|a + b| - 1] == a + b[..|b| - 1];
      TotalConcat(a, b[..|b| - 1]);
    }
  }

  /** The average times the number of values is their sum. */
  lemma AverageTells(values: seq<real>)
    requires values != []
    ensures Average(values) * |values| as real == Total(values)
  {
    Quotient(Total(values), |values| as real);
  }

  lemma TotalOfOne(x: real)
    ensures Total([x]) == x
  {
    assert [x][..0] == [];
  }

  lemma {:induction false} LatenciesAt(outcomes: seq<RunOutcome>, i: nat)
    requires i < |outcomes|
    ensures |Latencies(outcomes)| == |outcomes| && Latencies(outcomes)[i] == outcomes[i].latencyMs
  {
    if |outcomes| > 1 {
      LatenciesAt(outcomes[..|outcomes| - 1], if i < |outcomes| - 1 then i else 0);
    }
  }

  /** Recalls, stores and runs add up over parts of a benchmark, and a single run counts its own. */
  lemma CountersAddUp(a: seq<RunOutcome>, b: seq<RunOutcome>, m: Metrics, ma: Metrics, mb: Metrics,
                      q: seq<real>, qa: seq<real>, qb: seq<real>)
    requires AreMetrics(m, a + b, q) && AreMetrics(ma, a, qa) && AreMetrics(mb, b, qb)
    ensures m.recalls == ma.recalls + mb.recalls && m.stores == ma.stores + mb.stores && m.totalRuns == ma.totalRuns + mb.totalRuns
    ensures |a| == 1 ==> ma.recalls == a[0].recalls && ma.stores == a[0].stores && ma.totalRuns == 1
  {
    MetricsCount(m, a + b, q);
    MetricsCount(ma, a, qa);
    MetricsCount(mb, b, qb);
    CountConcat(a, b, RECALLS);
    CountConcat(a, b, STORES);
    if |a| == 1 {
      assert a[..0] == [];
      assert Count(a, RECALLS) == 0 + RECALLS(a[0]) && Count(a, STORES) == 0 + STORES(a[0]);
    }
  }

  /** The order in which runs finished does not show in the metrics, not even in the average of the sorted latencies. */
  lemma MetricsIgnoreOrder(a: seq<RunOutcome>, b: seq<RunOutcome>, m: Metrics, n: Metrics)
    requires multiset(a) == multiset(b)
    requires (exists q :: AreMetrics(m, a, q)) && exists q :: AreMetrics(n, b, q)
    ensures m == n && m.p50 <= m.p95 <= m.p99
  {
    var la :| AreMetrics(m, a, la);
    var lb :| AreMetrics(n, b, lb);
    SumsIgnoreOrder(a, b, SUCCESSES);
    SumsIgnoreOrder(a, b, RECALLS);
    SumsIgnoreOrder(a, b, STORES);
    AscendingIsUnique(la, lb);
    PercentileIsMonotone(la, 50.0, 95.0);
    PercentileIsMonotone(la, 95.0, 99.0);
  }

  lemma InsertAscending(q: seq<real>, at: nat, x: real)
    requires Ascending(q) && at <= |q|
    requires (forall j :: 0 <= j < at ==> q[j] <= x) && (at < |q| ==> x <= q[at])
    ensures Ascending(InsertedAt(q, at, x))
  {
    forall i, j | 0 <= i < j < |InsertedAt(q, at, x)| ensures InsertedAt(q, at, x)[i] <= InsertedAt(q, at, x)[j] {
      InsertedAtIndex(q, at, x, i);
      InsertedAtIndex(q, at, x, j);
    }
  }

  /** The library sort. */
  method SortReals(values: seq<real>) returns (r: seq<real>)
    ensures Ascending(r) && multiset(r) == multiset(values)
  {
    r := [];
    for i := 0 to |values|
      invariant Ascending(r) && multiset(r) == multiset(values[..i])
    {
      var at := 0;
      while at < |r| && r[at] <= values[i]
        invariant at <= |r| && forall j :: 0 <= j < at ==> r[j] <= values[i]
      {
        at := at + 1;
      }
      InsertAscending(r, at, values[i]);
      InsertedElements(r, at, values[i]);
      assert values[..i + 1] == values[..i] + [values[i]];
      r := InsertedAt(r, at, values[i]);
    }
    assert values[..|values|] == values;
  }

  method AggregateMetrics(outcomes: seq<RunOutcome>) returns (m: Metrics, ghost sorted: seq<real>)
    ensures AreMetrics(m, outcomes, sorted)
    ensures Ascending(sorted) && multiset(sorted) == multiset(Latencies(outcomes))
    ensures m.p50 == Percentile(sorted, 50.0) && m.p95 == Percentile(sorted, 95.0) && m.p99 == Percentile(sorted, 99.0)
    ensures m.avg == Average(sorted) && m.totalRuns == |outcomes|
  {
    var latencies: seq<real> := [];
    var successes, recalls, stores := 0, 0, 0;
    for i := 0 to |outcomes|
      invariant latencies == Latencies(outcomes[..i]) && successes == Count(outcomes[..i], SUCCESSES)
      invariant recalls == Count(outcomes[..i], RECALLS) && stores == Count(outcomes[..i], STORES)
    {
      assert outcomes[..i + 1][..i] == outcomes[..i];
      var o := outcomes[i];
      latencies := latencies + [o.latencyMs];
      if o.success {
        successes := successes + 1;
      }
      recalls := recalls + o.recalls;
      stores := stores + o.stores;
    }
    assert outcomes[..|outcomes|] == outcomes;
    var q := SortReals(latencies);
    m := Metrics(Percentile(q, 50.0), Percentile(q, 95.0), Percentile(q, 99.0), Average(q), |outcomes|, Rate(successes, |outcomes|), recalls, stores);
    sorted := q;
  }

  // ----- batching

  /** A pool entry used in a batch, and what became of its run. */
  type Runner = (nat, nat) -> RunOutcome

  ghost predicate NoneTwice(q: seq<nat>) {
    forall i, j :: 0 <= i < j < |q| ==> q[i] != q[j]
  }

  /** What batch number `b` records when its pool entries finish in the order `entries`. */
  function BatchOutcomes(b: nat, entries: seq<nat>, run: Runner): (r: seq<RunOutcome>)
    ensures |r| == |entries|
  {
    if entries == [] then [] else BatchOutcomes(b, entries[..|entries| - 1], run) + [run(b, entries[|entries| - 1])]
  }

  /** What the batches record one after the other. */
  function AllOutcomes(batches: seq<seq<nat>>, run: Runner): seq<RunOutcome> {
    if batches == [] then []
    else AllOutcomes(batches[..|batches| - 1], run) + BatchOutcomes(|batches| - 1, batches[|batches| - 1], run)
  }

  /** The batch's entries, in some order: each of the first ones of the pool, once. */
  ghost predicate IsBatch(entries: seq<nat>, pool: nat) {
    && 0 < |entries| <= pool && NoneTwice(entries)
    && forall i :: 0 <= i < |entries| ==> entries[i] < |entries|
  }

  function Min(a: int, b: int): int {
    if a < b then a else b
  }

  lemma BatchSnoc(b: nat, entries: seq<nat>, e: nat, run: Runner)
    ensures BatchOutcomes(b, entries + [e], run) == BatchOutcomes(b, entries, run) + [run(b, e)]
  {
    assert (entries + [e])[..|entries|] == entries;
  }

  lemma AllSnoc(batches: seq<seq<nat>>, entries: seq<nat>, run: Runner)
    ensures AllOutcomes(batches + [entries], run) == AllOutcomes(batches, run) + BatchOutcomes(|batches|, entries, run)
  {
    assert (batches + [entries])[..|batches|] == batches;
  }

  /**
    The batches of a benchmark, for every order in which the goroutines of a batch finish: `run(b, e)`
    is what pool entry `e` gave in batch `b`. The outcomes are exactly those of the runs made, one
    for each; no pool entry runs twice in a batch; every batch but the last is full.
  */
  method RunBenchmark(runs: int, concurrent: bool, concurrentCount: int, run: Runner)
      returns (outcomes: seq<RunOutcome>, ghost batches: seq<seq<nat>>)
    requires concurrent ==> concurrentCount > 0
    ensures outcomes == AllOutcomes(batches, run)
    ensures |outcomes| == if runs > 0 then runs else 0
    ensures var pool := if concurrent then concurrentCount else 1;
      && (forall b :: 0 <= b < |batches| ==> IsBatch(batches[b], pool))
      && (forall b :: 0 <= b < |batches| - 1 ==> |batches[b]| == pool)
  {
    var pool: nat := if concurrent then concurrentCount else 1;
    outcomes := [];
    batches := [];
    var batchNo: nat := 0;
    var remaining := runs;
    while remaining > 0
      invariant batchNo == |batches| && outcomes == AllOutcomes(batches, run)
      invariant |outcomes| == if runs > 0 then runs - remaining else 0
      invariant runs > 0 ==> remaining >= 0
      invariant forall b :: 0 <= b < |batches| ==> IsBatch(batches[b], pool)
      invariant forall b :: 0 <= b < |batches| - 1 || (b == |batches| - 1 && b >= 0 && remaining > 0) ==> |batches[b]| == pool
    {
      var batchSize: nat := if concurrent then Min(concurrentCount, remaining) else 1;
      var recorded;
      ghost var entries;
      recorded, entries := RunBatch(batchNo, batchSize, pool, run);
      AllSnoc(batches, entries, run);
      outcomes := outcomes + recorded;
      batches := batches + [entries];
      batchNo := batchNo + 1;
      remaining := remaining - batchSize;
    }
  }

  method RunBatch(b: nat, batchSize: nat, pool: nat, run: Runner) returns (recorded: seq<RunOutcome>, ghost entries: seq<nat>)
    requires 0 < batchSize <= pool
    ensures recorded == BatchOutcomes(b, entries, run) && |entries| == batchSize && IsBatch(entries, pool)
  {
    var running := Launch(batchSize, pool);
    recorded, entries := Finish(b, running, run);
  }

  /** With no more goroutines than pool entries, each gets the entry of its own number. */
  lemma OwnEntry(running: map<nat, nat>, i: nat, pool: nat)
    requires i < pool && i !in running
    ensures i % pool == i && |running[i := i]| == |running| + 1
  {
    assert running[i := i].Keys == running.Keys + {i};
  }

  /** Starts one goroutine per run of the batch, each with its pool entry. */
  method Launch(batchSize: nat, pool: nat) returns (running: map<nat, nat>)
    requires 0 < batchSize <= pool
    ensures |running| == batchSize && forall i :: i in running ==> i < batchSize && running[i] == i
  {
    running := map[];
    for i := 0 to batchSize
      invariant |running| == i && forall k :: k in running ==> k < i && running[k] == k
    {
      var agentIdx := i % pool;
      OwnEntry(running, i, pool);
      running := running[i := agentIdx];
    }
  }

  /** Waits for all of them; whichever holds the lock next appends its outcome. */
  method Finish(b: nat, started: map<nat, nat>, run: Runner) returns (recorded: seq<RunOutcome>, ghost entries: seq<nat>)
    requires forall i :: i in started ==> i < |started| && started[i] == i
    ensures recorded == BatchOutcomes(b, entries, run) && |entries| == |started| && NoneTwice(entries)
    ensures forall k :: 0 <= k < |entries| ==> entries[k] < |started|
  {
    recorded := [];
    entries := [];
    var running := started;
    while |running| > 0
      invariant recorded == BatchOutcomes(b, entries, run) && |entries| + |running| == |started|
      invariant forall i :: i in running ==> i in started && running[i] == i
      invariant NoneTwice(entries) && forall k :: 0 <= k < |entries| ==> entries[k] < |started| && entries[k] !in running
      decreases |running|
    {
      assert running.Keys != {};
      var i :| i in running;
      BatchSnoc(b, entries, running[i], run);
      recorded := recorded + [run(b, running[i])];
      entries := entries + [running[i]];
      assert |running - {i}| == |running| - 1 by {
        assert (running - {i}).Keys == running.Keys - {i};
      }
      running := running - {i};
    }
  }
}
