/** The reliability report: the ended requests of a time range, counted over all, per provider and
    per time bucket. */
module Reliability {
  import opened Wrappers
  import Percentile

  type Time = int
  type Key = string

  datatype Status = Success | Timeout | Overloaded | Unmatched | Fatal | StartFailed | Stopped

  /** An ended request; the duration is there when a valid one was recorded. */
  datatype Sample = Sample(at: Time, provider: Key, status: Status, duration: Option<nat>)

  // ---------- loading the events ----------

  const PAGE := 1000

  /** What the store returns of a list from `offset` on: never more than a thousand. */
  function ListPage<T>(all: seq<T>, limit: nat, offset: nat): (page: seq<T>) {
    var from := if offset < |all| then offset else |all|;
    var most := if limit < 1000 then limit else 1000;
    all[from..if from + most < |all| then from + most else |all|]
  }

  /** `loadEvents`: page by page until one is not full. */
  method LoadEvents<T>(all: seq<T>) returns (result: seq<T>)
    ensures result == all
  {
    result := [];
    var offset := 0;
    while true
      invariant offset <= |all| && result == all[..offset]
      decreases |all| - offset
    {
      var values := ListPage(all, PAGE, offset);
      result := result + values;
      if |values| < PAGE { return; }
      offset := offset + PAGE;
    }
  }

  // ---------- counting ----------

  /** What is counted: all requests, those that ended in one way, or the failures. */
  datatype Measure = Requests | Ended(status: Status) | Failures

  predicate IsFailure(status: Status) {
    status != Success && status != Stopped
  }

  predicate Matches(x: Sample, m: Measure) {
    match m
    case Requests => true
    case Ended(status) => x.status == status
    case Failures => IsFailure(x.status)
  }

  function Count(samples: seq<Sample>, m: Measure): (n: nat)
    ensures n <= |samples|
  {
    if samples == [] then 0
    else Count(samples[..|samples| - 1], m) + if Matches(samples[|samples| - 1], m) then 1 else 0
  }

  /** The durations of the requests that were not stopped, in order. */
  function Durations(samples: seq<Sample>): seq<int> {
    if samples == [] then []
    else
      var x := samples[|samples| - 1];
      Durations(samples[..|samples| - 1]) + if x.duration.Some? && x.status != Stopped then [x.duration.value] else []
  }

  datatype Counts = Counts(
    success: nat, timeout: nat, overloaded: nat, unmatched: nat, fatal: nat, startFailed: nat, stopped: nat)
  {
    function Completed(): nat { success + timeout + overloaded + unmatched + fatal + startFailed }
  }

  datatype Accumulator = Accumulator(counts: Counts, durations: seq<int>, samples: seq<Sample>)

  const NOTHING := Accumulator(Counts(0, 0, 0, 0, 0, 0, 0), [], [])

  /** The accumulator has accumulated just these samples. */
  predicate Accumulates(acc: Accumulator, samples: seq<Sample>) {
    && acc.samples == samples && acc.durations == Durations(samples)
    && acc.counts.success == Count(samples, Ended(Success)) && acc.counts.timeout == Count(samples, Ended(Timeout))
    && acc.counts.overloaded == Count(samples, Ended(Overloaded))
    && acc.counts.unmatched == Count(samples, Ended(Unmatched))
    && acc.counts.fatal == Count(samples, Ended(Fatal)) && acc.counts.startFailed == Count(samples, Ended(StartFailed))
    && acc.counts.stopped == Count(samples, Ended(Stopped))
  }

  datatype Bucket = Bucket(start: Time, requests: nat, successes: nat, failures: nat, stopped: nat)

  predicate FillsBucket(b: Bucket, start: Time, samples: seq<Sample>) {
    b == Bucket(start, Count(samples, Requests), Count(samples, Ended(Success)), Count(samples, Failures),
      Count(samples, Ended(Stopped)))
  }

  predicate Fills(b: Bucket, durations: seq<int>, start: Time, samples: seq<Sample>) {
    FillsBucket(b, start, samples) && durations == Durations(samples)
  }

  lemma CountNext(samples: seq<Sample>, x: Sample, m: Measure)
    ensures Count(samples + [x], m) == Count(samples, m) + if Matches(x, m) then 1 else 0
  {
    assert (samples + [x])[..|samples|] == samples;
  }

  lemma DurationsNext(samples: seq<Sample>, x: Sample)
    ensures Durations(samples + [x])
            == Durations(samples) + if x.duration.Some? && x.status != Stopped then [x.duration.value] else []
  {
    assert (samples + [x])[..|samples|] == samples;
  }

  method AddSample(acc: Accumulator, x: Sample) returns (acc': Accumulator)
    requires Accumulates(acc, acc.samples)
    ensures Accumulates(acc', acc.samples + [x])
  {
    forall m { CountNext(acc.samples, x, m); }
    DurationsNext(acc.samples, x);
    hide Count, Durations;
    var c := acc.counts;
    match x.status {
      case Success => c := c.(success := c.success + 1);
      case Timeout => c := c.(timeout := c.timeout + 1);
      case Overloaded => c := c.(overloaded := c.overloaded + 1);
      case Unmatched => c := c.(unmatched := c.unmatched + 1);
      case Fatal => c := c.(fatal := c.fatal + 1);
      case StartFailed => c := c.(startFailed := c.startFailed + 1);
      case Stopped => c := c.(stopped := c.stopped + 1);
    }
    acc' := Accumulator(c, acc.durations, acc.samples + [x]);
    if x.duration.Some? && x.status != Stopped {
      acc' := acc'.(durations := acc.durations + [x.duration.value]);
    }
  }

  method AddBucket(b: Bucket, durations: seq<int>, x: Sample, ghost samples: seq<Sample>)
    returns (b': Bucket, durations': seq<int>)
    requires Fills(b, durations, b.start, samples)
    ensures Fills(b', durations', b.start, samples + [x])
  {
    forall m { CountNext(samples, x, m); }
    DurationsNext(samples, x);
    hide Count, Durations;
    b', durations' := b.(requests := b.requests + 1), durations;
    if x.status == Success {
      b' := b'.(successes := b'.successes + 1);
    } else if x.status == Stopped {
      b' := b'.(stopped := b'.stopped + 1);
    } else if IsFailure(x.status) {
      b' := b'.(failures := b'.failures + 1);
    }
    if x.duration.Some? && x.status != Stopped {
      durations' := durations + [x.duration.value];
    }
  }

  // ---------- the time buckets ----------

  datatype Range = Day | Week | Month

  const HOUR := 3600 * 1000000000

  /** The range that ends now, cut into buckets of equal width. */
  datatype Grid = Grid(start: Time, width: Positive, count: Positive)

  function Duration(r: Range): int {
    match r
    case Day => 24 * HOUR
    case Week => 7 * 24 * HOUR
    case Month => 30 * 24 * HOUR
  }

  function GridOf(r: Range, now: Time): (g: Grid)
    ensures Edge(g, g.count) == now && g.start == now - Duration(r)
  {
    match r
    case Day => Grid(now - 24 * HOUR, HOUR, 24)
    case Week => Grid(now - 7 * 24 * HOUR, 6 * HOUR, 28)
    case Month => Grid(now - 30 * 24 * HOUR, 24 * HOUR, 30)
  }

  /** The buckets of a day are hours, those of a week quarter days, and those of a month days. */
  lemma BucketWidths(now: Time)
    ensures GridOf(Day, now).count == 24 && GridOf(Month, now).width == 24 * GridOf(Day, now).width
    ensures 4 * GridOf(Week, now).width == GridOf(Month, now).width == 86_400_000_000_000
  {
  }

  /** Where a bucket starts. */
  function Edge(g: Grid, i: nat): Time {
    g.start + i * g.width
  }

  /** Division that truncates toward zero. */
  function Quotient(a: int, b: Positive): int {
    if a >= 0 then a / b else -((-a) / b)
  }

  const OUTSIDE := -1

  /** The bucket of an instant; what comes after the last bucket is counted in it. */
  function Slot(g: Grid, at: Time): (i: int)
    ensures OUTSIDE <= i < g.count
  {
    var index := Quotient(at - g.start, g.width);
    if index < 0 then OUTSIDE else if index >= g.count then g.count - 1 else index
  }

  function Slotter(g: Grid): Sample -> int {
    (x: Sample) => Slot(g, x.at)
  }

  function ProviderOf(x: Sample): Key { x.provider }

  lemma Division(a: nat, b: int)
    requires b > 0
    ensures a / b * b <= a < (a / b + 1) * b
    ensures a / b > 0 <==> a >= b
  {
    var q, r := a / b, a % b;
    assert a == q * b + r && 0 <= r < b;
    assert (q + 1) * b == q * b + b;
    if q == 0 { assert a < b; } else { MultiplyMonotone(1, q, b); }
  }

  lemma MultiplyMonotone(a: int, b: int, w: int)
    requires a <= b && w > 0
    ensures a * w <= b * w
  {
  }

  /** A sample of the range lies in the bucket that covers its time, the last bucket being closed. */
  lemma SlotCovers(g: Grid, at: Time)
    requires g.start <= at <= Edge(g, g.count)
    ensures var i := Slot(g, at);
            && 0 <= i < g.count && Edge(g, i) <= at
            && (at < Edge(g, i + 1) || (i == g.count - 1 && at == Edge(g, g.count)))
  {
    var q := Quotient(at - g.start, g.width);
    Division(at - g.start, g.width);
    if q >= g.count { MultiplyMonotone(g.count, q, g.width); }
  }

  /** Only samples a whole bucket or more before the range are left out of all buckets. */
  lemma OutsideIff(g: Grid, at: Time)
    ensures Slot(g, at) == OUTSIDE <==> g.start - at >= g.width
  {
    if at < g.start { Division(g.start - at, g.width); }
  }

  // ---------- parts ----------

  /** The samples of one class, in order. */
  function Part<K(==)>(samples: seq<Sample>, classOf: Sample -> K, k: K): (part: seq<Sample>) {
    if samples == [] then []
    else
      var x := samples[|samples| - 1];
      Part(samples[..|samples| - 1], classOf, k) + if classOf(x) == k then [x] else []
  }

  lemma PartNext<K>(samples: seq<Sample>, x: Sample, classOf: Sample -> K, k: K)
    ensures Part(samples + [x], classOf, k) == Part(samples, classOf, k) + if classOf(x) == k then [x] else []
  {
    assert (samples + [x])[..|samples|] == samples;
  }

  ghost function Sum<K(!new)>(f: map<K, nat>): nat
    decreases |f|
  {
    if f == map[] then 0
    else
      var k :| k in f;
      f[k] + Sum(f - {k})
  }

  lemma {:induction false} SumWithout<K(!new)>(f: map<K, nat>, k: K)
    requires k in f
    ensures Sum(f) == f[k] + Sum(f - {k})
    decreases |f|
  {
    var j :| j in f && Sum(f) == f[j] + Sum(f - {j});
    if j != k {
      SumWithout(f - {j}, k);
      SumWithout(f - {k}, j);
      assert f - {j} - {k} == f - {k} - {j};
    }
  }

  lemma SumBump<K(!new)>(f: map<K, nat>, k: K)
    requires k in f
    ensures Sum(f[k := f[k] + 1]) == Sum(f) + 1
  {
    SumWithout(f, k);
    SumWithout(f[k := f[k] + 1], k);
    assert f[k := f[k] + 1] - {k} == f - {k};
  }

  lemma {:induction false} SumOfZeros<K(!new)>(f: map<K, nat>)
    requires forall k :: k in f ==> f[k] == 0
    ensures Sum(f) == 0
    decreases |f|
  {
    if f != map[] {
      var k :| k in f;
      SumWithout(f, k);
      SumOfZeros(f - {k});
    }
  }

  /** How much of a measure each of some parts has. */
  ghost function Shares<K(!new)>(samples: seq<Sample>, classOf: Sample -> K, keys: set<K>, m: Measure): map<K, nat> {
    map k | k in keys :: Count(Part(samples, classOf, k), m)
  }

  lemma ShareNext<K>(samples: seq<Sample>, x: Sample, classOf: Sample -> K, k: K, m: Measure)
    ensures Count(Part(samples + [x], classOf, k), m)
            == Count(Part(samples, classOf, k), m) + if classOf(x) == k && Matches(x, m) then 1 else 0
  {
    PartNext(samples, x, classOf, k);
    CountNext(Part(samples, classOf, k), x, m);
    assert Part(samples, classOf, k) + [] == Part(samples, classOf, k);
    hide Part, Count;
  }

  lemma SharesNext<K(!new)>(samples: seq<Sample>, x: Sample, classOf: Sample -> K, keys: set<K>, m: Measure)
    requires classOf(x) in keys
    ensures var before := Shares(samples, classOf, keys, m);
            Shares(samples + [x], classOf, keys, m)
            == if Matches(x, m) then before[classOf(x) := before[classOf(x)] + 1] else before
  {
    forall k { ShareNext(samples, x, classOf, k, m); }
    hide Part, Count, Matches;
  }

  lemma NothingShared<K(!new)>(classOf: Sample -> K, keys: set<K>, m: Measure)
    ensures Sum(Shares([], classOf, keys, m)) == 0
  {
    var shares := Shares([], classOf, keys, m);
    forall k | k in shares ensures shares[k] == 0 { assert Part([], classOf, k) == []; }
    SumOfZeros(shares);
  }

  /** Whatever is counted, the parts together have what the whole has of their classes. */
  lemma {:induction false} PartsMakeTheWhole<K(!new)>(samples: seq<Sample>, classOf: Sample -> K, keys: set<K>,
        m: Measure)
    requires forall i :: 0 <= i < |samples| ==> classOf(samples[i]) in keys
    ensures Sum(Shares(samples, classOf, keys, m)) == Count(samples, m)
  {
    hide Sum, Part, Shares;
    if samples == [] {
      NothingShared(classOf, keys, m);
    } else {
      var n := |samples| - 1;
      var front, x := samples[..n], samples[n];
      PartsMakeTheWhole(front, classOf, keys, m);
      SharesNext(front, x, classOf, keys, m);
      Bump(front, classOf, keys, m, classOf(x));
      assert samples == front + [x];
    }
  }

  lemma Bump<K(!new)>(samples: seq<Sample>, classOf: Sample -> K, keys: set<K>, m: Measure, k: K)
    requires k in keys
    ensures var shares := Shares(samples, classOf, keys, m);
            k in shares && Sum(shares[k := shares[k] + 1]) == Sum(shares) + 1
  {
    SumBump(Shares(samples, classOf, keys, m), k);
  }

  // ---------- building the report ----------

  function Providers(samples: seq<Sample>): set<Key> {
    set x | x in samples :: x.provider
  }

  datatype Report = Report(overall: Accumulator, byProvider: map<Key, Accumulator>, buckets: seq<Bucket>)

  /** The buckets hold just the samples of their time. */
  ghost predicate Filled(buckets: seq<Bucket>, durations: seq<seq<int>>, samples: seq<Sample>, g: Grid) {
    && |buckets| == |durations| == g.count
    && forall i :: 0 <= i < |buckets| ==> Fills(buckets[i], durations[i], Edge(g, i), Part(samples, Slotter(g), i))
  }

  ghost predicate Grouped(byProvider: map<Key, Accumulator>, samples: seq<Sample>) {
    && byProvider.Keys == Providers(samples)
    && forall k :: k in byProvider ==> Accumulates(byProvider[k], Part(samples, ProviderOf, k))
  }

  /** The report counts the samples over all, by provider and by bucket. */
  ghost predicate Reports(r: Report, samples: seq<Sample>, g: Grid) {
    && Accumulates(r.overall, samples) && Grouped(r.byProvider, samples)
    && |r.buckets| == g.count
    && forall i :: 0 <= i < |r.buckets| ==> FillsBucket(r.buckets[i], Edge(g, i), Part(samples, Slotter(g), i))
  }

  lemma ProvidersNext(samples: seq<Sample>, x: Sample)
    ensures Providers(samples + [x]) == Providers(samples) + {x.provider}
    ensures x.provider !in Providers(samples) ==> Part(samples, ProviderOf, x.provider) == []
  {
    if x.provider !in Providers(samples) {
      forall y | y in samples ensures ProviderOf(y) != x.provider { assert y.provider in Providers(samples); }
      NoPart(samples, ProviderOf, x.provider);
    }
  }

  lemma {:induction false} NoPart<K>(samples: seq<Sample>, classOf: Sample -> K, k: K)
    requires forall y :: y in samples ==> classOf(y) != k
    ensures Part(samples, classOf, k) == []
  {
    if samples != [] { NoPart(samples[..|samples| - 1], classOf, k); }
  }

  lemma GroupedNext(byProvider: map<Key, Accumulator>, x: Sample, seen: seq<Sample>, acc: Accumulator)
    requires Grouped(byProvider, seen) && Accumulates(acc, Part(seen, ProviderOf, x.provider) + [x])
    ensures Grouped(byProvider[x.provider := acc], seen + [x])
  {
    var byProvider' := byProvider[x.provider := acc];
    ProvidersNext(seen, x);
    hide Part, Providers, Accumulates;
    forall k | k in byProvider' ensures Accumulates(byProvider'[k], Part(seen + [x], ProviderOf, k)) {
      PartNext(seen, x, ProviderOf, k);
      assert Part(seen, ProviderOf, k) + [] == Part(seen, ProviderOf, k);
    }
  }

  lemma GroupOf(byProvider: map<Key, Accumulator>, k: Key, seen: seq<Sample>)
    requires Grouped(byProvider, seen)
    ensures Accumulates(if k in byProvider then byProvider[k] else NOTHING, Part(seen, ProviderOf, k))
  {
    ProvidersNext(seen, Sample(0, k, Success, None));
  }

  /** The provider's accumulator, made when its first sample comes. */
  method AddToProvider(byProvider: map<Key, Accumulator>, x: Sample, ghost seen: seq<Sample>)
    returns (byProvider': map<Key, Accumulator>)
    requires Grouped(byProvider, seen)
    ensures Grouped(byProvider', seen + [x])
  {
    hide Part, Grouped, Accumulates;
    GroupOf(byProvider, x.provider, seen);
    var acc := if x.provider in byProvider then byProvider[x.provider] else NOTHING;
    SamplesOf(acc, Part(seen, ProviderOf, x.provider));
    acc := AddSample(acc, x);
    GroupedNext(byProvider, x, seen, acc);
    byProvider' := byProvider[x.provider := acc];
  }

  lemma SamplesOf(acc: Accumulator, samples: seq<Sample>)
    requires Accumulates(acc, samples)
    ensures acc.samples == samples
  {
  }

  lemma FilledNext(buckets: seq<Bucket>, durations: seq<seq<int>>, seen: seq<Sample>, x: Sample, g: Grid)
    requires Filled(buckets, durations, seen, g)
    ensures forall i :: 0 <= i < g.count && i != Slot(g, x.at) ==>
              Fills(buckets[i], durations[i], Edge(g, i), Part(seen + [x], Slotter(g), i))
    ensures Slot(g, x.at) != OUTSIDE ==>
              Part(seen + [x], Slotter(g), Slot(g, x.at)) == Part(seen, Slotter(g), Slot(g, x.at)) + [x]
  {
    forall i: int { PartNext(seen, x, Slotter(g), i); }
    hide Part, Fills, Slot;
    forall i | 0 <= i < g.count && i != Slot(g, x.at)
      ensures Fills(buckets[i], durations[i], Edge(g, i), Part(seen + [x], Slotter(g), i))
    {
      assert Part(seen, Slotter(g), i) + [] == Part(seen, Slotter(g), i);
    }
  }

  /** One bucket and its durations replaced, the others as they were. */
  lemma FilledWith(buckets: seq<Bucket>, durations: seq<seq<int>>, seen: seq<Sample>, x: Sample, g: Grid, b: Bucket,
        d: seq<int>)
    requires Filled(buckets, durations, seen, g)
    requires var i := Slot(g, x.at); i != OUTSIDE && Fills(b, d, Edge(g, i), Part(seen, Slotter(g), i) + [x])
    ensures var i := Slot(g, x.at); Filled(buckets[i := b], durations[i := d], seen + [x], g)
  {
    FilledNext(buckets, durations, seen, x, g);
    hide Part, Fills, Slot, Edge;
  }

  lemma FilledWithout(buckets: seq<Bucket>, durations: seq<seq<int>>, seen: seq<Sample>, x: Sample, g: Grid)
    requires Filled(buckets, durations, seen, g) && Slot(g, x.at) == OUTSIDE
    ensures Filled(buckets, durations, seen + [x], g)
  {
    FilledNext(buckets, durations, seen, x, g);
    hide Part, Fills, Slot, Edge;
  }

  lemma FilledAt(buckets: seq<Bucket>, durations: seq<seq<int>>, seen: seq<Sample>, g: Grid, i: nat)
    requires Filled(buckets, durations, seen, g) && i < g.count
    ensures |buckets| == |durations| == g.count && buckets[i].start == Edge(g, i)
    ensures Fills(buckets[i], durations[i], Edge(g, i), Part(seen, Slotter(g), i))
  {
    StartOf(buckets[i], durations[i], Edge(g, i), Part(seen, Slotter(g), i));
    hide Part, Fills, Edge;
  }

  /** Counts a sample in its bucket, in place. */
  method AddToBucket(buckets: array<Bucket>, durations: array<seq<int>>, x: Sample, g: Grid, ghost seen: seq<Sample>)
    requires Filled(buckets[..], durations[..], seen, g)
    modifies buckets, durations
    ensures Filled(buckets[..], durations[..], seen + [x], g)
  {
    ghost var was, lasted := buckets[..], durations[..];
    var index := Quotient(x.at - g.start, g.width);
    if index < 0 {
      FilledWithout(was, lasted, seen, x, g);
      return;
    }
    if index >= buckets.Length { index := buckets.Length - 1; }
    assert index == Slot(g, x.at);
    FilledAt(was, lasted, seen, g, index);
    hide Fills, Part, Filled, Slot, Edge;
    var b, d := AddBucket(buckets[index], durations[index], x, Part(seen, Slotter(g), index));
    FilledWith(was, lasted, seen, x, g, b, d);
    buckets[index], durations[index] := b, d;
    assert buckets[..] == was[index := b] && durations[..] == lasted[index := d];
  }

  lemma StartOf(b: Bucket, durations: seq<int>, start: Time, samples: seq<Sample>)
    requires Fills(b, durations, start, samples)
    ensures b.start == start
  {
  }

  /** `Build`, given the samples of the loaded events. */
  method Build(samples: seq<Sample>, range: Range, now: Time) returns (report: Report)
    ensures Reports(report, samples, GridOf(range, now))
  {
    var g := GridOf(range, now);
    var buckets := new Bucket[g.count](i requires 0 <= i => Bucket(Edge(g, i), 0, 0, 0, 0));
    var durations := new seq<int>[g.count](_ => []);
    var overall, byProvider := NOTHING, map[];
    assert samples[..0] == [];
    for i := 0 to |samples|
      invariant Accumulates(overall, samples[..i])
      invariant Grouped(byProvider, samples[..i])
      invariant Filled(buckets[..], durations[..], samples[..i], g)
    {
      hide Accumulates, Grouped, Filled;
      assert samples[..i + 1] == samples[..i] + [samples[i]];
      SamplesOf(overall, samples[..i]);
      overall := AddSample(overall, samples[i]);
      byProvider := AddToProvider(byProvider, samples[i], samples[..i]);
      AddToBucket(buckets, durations, samples[i], g, samples[..i]);
    }
    assert samples[..|samples|] == samples;
    report := Report(overall, byProvider, buckets[..]);
  }

  // ---------- main results ----------

  /** What an accumulator says of a measure. */
  function Total(acc: Accumulator, m: Measure): int {
    match m
    case Requests => |acc.samples|
    case Failures => acc.counts.Completed() - acc.counts.success
    case Ended(Success) => acc.counts.success
    case Ended(Timeout) => acc.counts.timeout
    case Ended(Overloaded) => acc.counts.overloaded
    case Ended(Unmatched) => acc.counts.unmatched
    case Ended(Fatal) => acc.counts.fatal
    case Ended(StartFailed) => acc.counts.startFailed
    case Ended(Stopped) => acc.counts.stopped
  }

  lemma {:induction false} Failing(samples: seq<Sample>)
    ensures Count(samples, Failures)
            == Count(samples, Ended(Timeout)) + Count(samples, Ended(Overloaded)) + Count(samples, Ended(Unmatched))
               + Count(samples, Ended(Fatal)) + Count(samples, Ended(StartFailed))
    ensures Count(samples, Requests) == |samples|
  {
    if samples != [] {
      var front, x := samples[..|samples| - 1], samples[|samples| - 1];
      Failing(front);
      assert samples == front + [x];
      CountNext(front, x, Failures);
      CountNext(front, x, Requests);
      CountNext(front, x, Ended(Timeout));
      CountNext(front, x, Ended(Overloaded));
      CountNext(front, x, Ended(Unmatched));
      CountNext(front, x, Ended(Fatal));
      CountNext(front, x, Ended(StartFailed));
      hide Count;
    }
  }

  lemma TotalIsCount(acc: Accumulator, samples: seq<Sample>, m: Measure)
    requires Accumulates(acc, samples)
    ensures Total(acc, m) == Count(samples, m)
  {
    Failing(samples);
    hide Count;
  }

  lemma ProviderTotals(byProvider: map<Key, Accumulator>, samples: seq<Sample>, m: Measure)
    requires Grouped(byProvider, samples)
    ensures forall k :: k in byProvider ==> Total(byProvider[k], m) == Count(Part(samples, ProviderOf, k), m)
  {
    forall k | k in byProvider ensures Total(byProvider[k], m) == Count(Part(samples, ProviderOf, k), m) {
      TotalIsCount(byProvider[k], Part(samples, ProviderOf, k), m);
    }
  }

  ghost function TotalOver(byProvider: map<Key, Accumulator>, m: Measure): nat
    requires forall k :: k in byProvider ==> Total(byProvider[k], m) >= 0
  {
    Sum(map k | k in byProvider :: Total(byProvider[k], m) as nat)
  }

  /** Of every measure, the providers of a report together have exactly what it has over all. */
  lemma ProvidersConserve(r: Report, samples: seq<Sample>, g: Grid, m: Measure)
    requires Reports(r, samples, g)
    ensures forall k :: k in r.byProvider ==> Total(r.byProvider[k], m) >= 0
    ensures TotalOver(r.byProvider, m) == Total(r.overall, m)
  {
    TotalIsCount(r.overall, samples, m);
    ProviderTotals(r.byProvider, samples, m);
    hide Reports, Total, Accumulates, Part, Count, Sum;
    ProviderKeys(r.byProvider, samples);
    PartsMakeTheWhole(samples, ProviderOf, r.byProvider.Keys, m);
    TotalsAreShares(r.byProvider, samples, m);
  }

  lemma TotalsAreShares(byProvider: map<Key, Accumulator>, samples: seq<Sample>, m: Measure)
    requires forall k :: k in byProvider ==> Total(byProvider[k], m) == Count(Part(samples, ProviderOf, k), m)
    ensures TotalOver(byProvider, m) == Sum(Shares(samples, ProviderOf, byProvider.Keys, m))
  {
    hide Total, Count, Part, Sum;
    assert (map k | k in byProvider :: Total(byProvider[k], m) as nat)
      == Shares(samples, ProviderOf, byProvider.Keys, m);
  }

  lemma ProviderKeys(byProvider: map<Key, Accumulator>, samples: seq<Sample>)
    requires Grouped(byProvider, samples)
    ensures forall i :: 0 <= i < |samples| ==> ProviderOf(samples[i]) in byProvider.Keys
  {
  }

  /** The four numbers of a bucket. */
  datatype Figure = InAll | Succeeded | Failed | WereStopped

  function FigureOf(b: Bucket, f: Figure): nat {
    match f
    case InAll => b.requests
    case Succeeded => b.successes
    case Failed => b.failures
    case WereStopped => b.stopped
  }

  function MeasureOf(f: Figure): Measure {
    match f
    case InAll => Requests
    case Succeeded => Ended(Success)
    case Failed => Failures
    case WereStopped => Ended(Stopped)
  }

  ghost function BucketSum(buckets: seq<Bucket>, f: Figure): nat {
    Sum(map i: int | 0 <= i < |buckets| :: FigureOf(buckets[i], f))
  }

  function Slots(g: Grid): set<int> {
    set i | OUTSIDE <= i < g.count && IsSlot(g, i)
  }

  predicate IsSlot(g: Grid, i: int) {
    OUTSIDE <= i < g.count
  }

  lemma BucketFigures(buckets: seq<Bucket>, samples: seq<Sample>, g: Grid, f: Figure)
    requires |buckets| == g.count
    requires forall i :: 0 <= i < |buckets| ==> FillsBucket(buckets[i], Edge(g, i), Part(samples, Slotter(g), i))
    ensures forall i :: 0 <= i < |buckets| ==>
              FigureOf(buckets[i], f) == Count(Part(samples, Slotter(g), i), MeasureOf(f))
  {
    hide Part, Count, Edge;
  }

  lemma FiguresAreShares(buckets: seq<Bucket>, samples: seq<Sample>, g: Grid, f: Figure)
    requires |buckets| == g.count
    requires forall i :: 0 <= i < |buckets| ==>
               FigureOf(buckets[i], f) == Count(Part(samples, Slotter(g), i), MeasureOf(f))
    ensures var shares := Shares(samples, Slotter(g), Slots(g), MeasureOf(f));
            && OUTSIDE in shares && shares[OUTSIDE] == Count(Part(samples, Slotter(g), OUTSIDE), MeasureOf(f))
            && BucketSum(buckets, f) == Sum(shares - {OUTSIDE})
  {
    hide Part, Count, Sum, FigureOf, MeasureOf;
    var shares := Shares(samples, Slotter(g), Slots(g), MeasureOf(f));
    assert (map i: int | 0 <= i < |buckets| :: FigureOf(buckets[i], f)) == shares - {OUTSIDE};
  }

  /** Of each number of the buckets, they together have exactly what the report has over all, less
      what happened a whole bucket or more before the range. */
  lemma BucketsConserve(r: Report, samples: seq<Sample>, g: Grid, f: Figure)
    requires Reports(r, samples, g)
    ensures BucketSum(r.buckets, f) + Count(Part(samples, Slotter(g), OUTSIDE), MeasureOf(f))
            == Total(r.overall, MeasureOf(f))
  {
    TotalIsCount(r.overall, samples, MeasureOf(f));
    BucketFigures(r.buckets, samples, g, f);
    hide Reports, Part, Count, Sum, Total, BucketSum, Shares, MeasureOf;
    PartsMakeTheWhole(samples, Slotter(g), Slots(g), MeasureOf(f));
    FiguresAreShares(r.buckets, samples, g, f);
    SumWithout(Shares(samples, Slotter(g), Slots(g), MeasureOf(f)), OUTSIDE);
  }

  /** Loaded events lie in the range, so nothing is lost: each lies in the bucket that covers its
      time, and the buckets have it all. */
  lemma InRangeConserve(r: Report, samples: seq<Sample>, range: Range, now: Time, f: Figure)
    requires Reports(r, samples, GridOf(range, now))
    requires forall x :: x in samples ==> now - Duration(range) <= x.at <= now
    ensures BucketSum(r.buckets, f) == Total(r.overall, MeasureOf(f))
  {
    var g := GridOf(range, now);
    BucketsConserve(r, samples, g, f);
    forall x | x in samples ensures Slotter(g)(x) != OUTSIDE { SlotCovers(g, x.at); }
    NoPart(samples, Slotter(g), OUTSIDE);
  }

  // ---------- the metrics ----------

  datatype Metrics = Metrics(
    requests: nat, completed: nat, successRate: Option<real>, averageDuration: Option<real>, p95: Option<int>,
    consecutiveFailures: nat, maxConsecutiveFailures: nat)

  /** Failures since the last success, stopped requests not counting. */
  function Streak(samples: seq<Sample>): nat {
    if samples == [] then 0
    else
      var x := samples[|samples| - 1];
      if x.status == Success then 0
      else Streak(samples[..|samples| - 1]) + if IsFailure(x.status) then 1 else 0
  }

  function SumOf(values: seq<int>): int {
    if values == [] then 0 else SumOf(values[..|values| - 1]) + values[|values| - 1]
  }

  /** The longest streak any prefix ends in. */
  predicate IsLongest(samples: seq<Sample>, longest: nat) {
    && (forall k :: 0 <= k <= |samples| ==> Streak(samples[..k]) <= longest)
    && exists k :: 0 <= k <= |samples| && Streak(samples[..k]) == longest
  }

  function Ratio(a: int, b: int): real
    requires b > 0
  {
    a as real / b as real
  }

  /** `finishMetrics`: rates, the nearest-rank percentile, and the streaks. */
  method FinishMetrics(acc: Accumulator) returns (r: Metrics)
    requires Accumulates(acc, acc.samples)
    ensures r.requests == |acc.samples|
    ensures r.completed == Count(acc.samples, Requests) - Count(acc.samples, Ended(Stopped))
    ensures r.successRate.Some? <==> r.completed > 0
    ensures r.successRate.Some? ==> r.successRate.value == Ratio(Count(acc.samples, Ended(Success)), r.completed)
    ensures r.averageDuration.Some? <==> acc.durations != []
    ensures r.averageDuration.Some? ==> r.averageDuration.value == Ratio(SumOf(acc.durations), |acc.durations|)
    ensures r.p95.Some? <==> |acc.durations| >= Percentile.ENOUGH
    ensures r.p95.Some? ==> Percentile.IsP95(acc.durations, r.p95.value)
    ensures r.consecutiveFailures == Streak(acc.samples) && IsLongest(acc.samples, r.maxConsecutiveFailures)
  {
    Completed(acc);
    hide Count, Percentile.IsP95, Accumulates, IsLongest, Streak, SumOf;
    var completed := acc.counts.Completed();
    var successRate, average := None, None;
    if completed > 0 {
      successRate := Some(Ratio(acc.counts.success, completed));
    }
    if |acc.durations| > 0 {
      var total := TotalDuration(acc.durations);
      average := Some(Ratio(total, |acc.durations|));
    }
    var p95 := Percentile.P95(acc.durations);
    var current, longest := Streaks(acc.samples);
    r := Metrics(|acc.samples|, completed, successRate, average, p95, current, longest);
  }

  lemma Completed(acc: Accumulator)
    requires Accumulates(acc, acc.samples)
    ensures acc.counts.Completed() == Count(acc.samples, Requests) - Count(acc.samples, Ended(Stopped))
    ensures acc.counts.success == Count(acc.samples, Ended(Success))
  {
    AllEnd(acc.samples);
    Failing(acc.samples);
  }

  lemma {:induction false} AllEnd(samples: seq<Sample>)
    ensures |samples| == Count(samples, Ended(Success)) + Count(samples, Failures) + Count(samples, Ended(Stopped))
  {
    if samples != [] { AllEnd(samples[..|samples| - 1]); }
  }

  method TotalDuration(values: seq<int>) returns (total: int)
    ensures total == SumOf(values)
  {
    total := 0;
    for i := 0 to |values|
      invariant total == SumOf(values[..i])
    {
      assert values[..i + 1][..i] == values[..i];
      total := total + values[i];
    }
    assert values[..|values|] == values;
  }

  method Streaks(samples: seq<Sample>) returns (current: nat, longest: nat)
    ensures current == Streak(samples) && IsLongest(samples, longest)
  {
    current, longest := 0, 0;
    ghost var at := 0;
    for i := 0 to |samples|
      invariant current == Streak(samples[..i])
      invariant forall k :: 0 <= k <= i ==> Streak(samples[..k]) <= longest
      invariant at <= i && Streak(samples[..at]) == longest
    {
      assert samples[..i + 1][..i] == samples[..i];
      if samples[i].status == Success {
        current := 0;
      } else if IsFailure(samples[i].status) {
        current := current + 1;
        if current > longest { longest, at := current, i + 1; }
      }
    }
    assert samples[..|samples|] == samples;
  }
}
