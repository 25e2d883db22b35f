/** The service level of a provider group: its error budget over a window of ended requests. Rates
    are exact reals, rounded as the view rounds them. */
module Slo {
  import opened Wrappers
  import Reliability

  datatype Status = Disabled | Insufficient | Exhausted | Critical | Burning | Healthy

  /** The order in which groups are listed, the worst first. */
  function Rank(s: Status): nat {
    match s
    case Exhausted => 0
    case Critical => 1
    case Burning => 2
    case Healthy => 3
    case Insufficient => 4
    case Disabled => 5
  }

  /** From the worst to the best, and then those that are not judged. */
  lemma RankOrder()
    ensures Rank(Exhausted) < Rank(Critical) < Rank(Burning) < Rank(Healthy) < Rank(Insufficient) < Rank(Disabled)
  {
  }

  /** A `request_end` event, with its status in lower case. */
  datatype Event = Event(group: string, maintenance: bool, status: string)

  datatype View = View(
    enabled: bool, samples: nat, successes: nat, failures: nat, excluded: nat,
    remainingBudget: real, consumedPercent: real, burnRate: real)

  // ---------- rounding ----------

  /** The nearest integer, halves away from zero. */
  function Nearest(z: real): int {
    if z >= 0.0 then (z + 0.5).Floor else -((-z + 0.5).Floor)
  }

  function Steps(x: real, power: Positive): int {
    Nearest(x * power as real)
  }

  /** Rounds to multiples of one over `power`. */
  function Round(x: real, power: Positive): real {
    Steps(x, power) as real / power as real
  }

  lemma NearestMonotone(a: real, b: real)
    requires a <= b
    ensures Nearest(a) <= Nearest(b)
  {
  }

  lemma NearestReachesIff(z: real, k: Positive)
    ensures Nearest(z) >= k <==> z >= k as real - 0.5
  {
  }

  lemma ScaleMonotone(a: real, b: real, c: real)
    requires a <= b && c > 0.0
    ensures a * c <= b * c
  {
  }

  lemma DivideMonotone(a: real, b: real, c: real)
    requires a <= b && c > 0.0
    ensures a / c <= b / c
  {
  }

  lemma StrictDivide(a: real, b: real, c: real)
    requires a < b && c > 0.0
    ensures a / c < b / c
  {
  }

  lemma StepsMonotone(x: real, y: real, power: Positive)
    requires x <= y
    ensures Steps(x, power) <= Steps(y, power)
  {
    ScaleMonotone(x, y, power as real);
    NearestMonotone(x * power as real, y * power as real);
    hide Nearest;
  }

  lemma RoundMonotone(x: real, y: real, power: Positive)
    requires x <= y
    ensures Round(x, power) <= Round(y, power)
  {
    StepsMonotone(x, y, power);
    hide Steps;
    DivideMonotone(Steps(x, power) as real, Steps(y, power) as real, power as real);
  }

  /** A rounded value reaches a multiple exactly when the value comes within half a step of it. */
  lemma RoundReachesIff(x: real, power: Positive, k: Positive)
    ensures Round(x, power) >= k as real / power as real <==> x * power as real >= k as real - 0.5
  {
    NearestReachesIff(x * power as real, k);
    assert Steps(x, power) >= k <==> x * power as real >= k as real - 0.5;
    hide Steps, Nearest;
    StepsReachIff(Steps(x, power), power, k);
  }

  lemma StepsReachIff(n: int, power: Positive, k: Positive)
    ensures n as real / power as real >= k as real / power as real <==> n >= k
  {
    if n >= k {
      DivideMonotone(k as real, n as real, power as real);
    } else {
      StrictDivide(n as real, k as real, power as real);
    }
  }

  // ---------- the budget ----------

  function Allowed(samples: nat, target: real): real {
    samples as real * (1.0 - target / 100.0)
  }

  function Remaining(samples: nat, failures: nat, target: real): real {
    Round(Allowed(samples, target) - failures as real, 10000)
  }

  function Consumed(samples: nat, failures: nat, target: real): real {
    if Allowed(samples, target) > 0.0 then Round(failures as real / Allowed(samples, target) * 100.0, 100) else 0.0
  }

  function Burn(samples: nat, failures: nat, target: real): real {
    var rate := 1.0 - target / 100.0;
    if samples > 0 && rate > 0.0 then Round(failures as real / samples as real / rate, 100) else 0.0
  }

  function StatusOf(v: View, minimum: int): Status {
    if !v.enabled then Disabled
    else if v.samples < minimum then Insufficient
    else if v.remainingBudget <= 0.0 then Exhausted
    else if v.consumedPercent >= 90.0 || v.burnRate >= 10.0 then Critical
    else if v.consumedPercent >= 50.0 || v.burnRate >= 2.0 then Burning
    else Healthy
  }

  function ViewOf(samples: nat, failures: nat, excluded: nat, target: real): View
    requires failures <= samples
  {
    View(true, samples, samples - failures, failures, excluded,
         Remaining(samples, failures, target), Consumed(samples, failures, target), Burn(samples, failures, target))
  }

  lemma NearestWithin(z: real)
    ensures z - 0.5 <= Nearest(z) as real <= z + 0.5
  {
  }

  /** A rounded value is within half a step of the value. */
  lemma RoundWithin(x: real, power: Positive)
    ensures (x - Round(x, power)) * power as real <= 0.5 && (Round(x, power) - x) * power as real <= 0.5
  {
    NearestWithin(x * power as real);
    var r := Round(x, power);
    assert r * power as real == Steps(x, power) as real;
    assert (x - r) * power as real == x * power as real - r * power as real;
    hide Nearest;
  }

  /** What the view shows: the failures still allowed, the share of them used up, and how fast they are
      used up, to four and two decimals. */
  lemma BudgetIs(samples: nat, failures: nat, target: real)
    requires samples > 0 && target < 100.0
    ensures var allowed := samples as real * ((100.0 - target) / 100.0);
            && allowed > 0.0
            && allowed - failures as real - 0.00005 <= Remaining(samples, failures, target)
               <= allowed - failures as real + 0.00005
            && 100.0 * (failures as real / allowed) - 0.005 <= Consumed(samples, failures, target)
               <= 100.0 * (failures as real / allowed) + 0.005
            && failures as real / allowed - 0.005 <= Burn(samples, failures, target)
               <= failures as real / allowed + 0.005
  {
    assert 1.0 - target / 100.0 == (100.0 - target) / 100.0;
    BurnIsShare(samples, failures, target);
    RoundWithin(Allowed(samples, target) - failures as real, 10000);
    RoundWithin(failures as real / Allowed(samples, target) * 100.0, 100);
    RoundWithin(failures as real / Allowed(samples, target), 100);
    hide Round;
  }

  // ---------- counting the events ----------

  predicate Counted(e: Event, group: string) {
    e.group == group && !e.maintenance && e.status != "stopped" && e.status != "running" && e.status != ""
  }

  predicate Failed(e: Event, group: string) {
    Counted(e, group) && e.status != "success"
  }

  predicate Excluded(e: Event, group: string) {
    e.group == group && e.maintenance
  }

  predicate Succeeded(e: Event, group: string) {
    e == Event(group, false, "success")
  }

  predicate Unended(e: Event, group: string) {
    e.group == group && !e.maintenance && e.status in {"stopped", "running", ""}
  }

  predicate OfGroup(e: Event, group: string) {
    e.group == group
  }

  /** Every event of the group counts as a success, as a failure, as excluded for maintenance, or as not
      ended, and as one of them only; no other event counts. */
  lemma {:induction false} EventsAreSorted(events: seq<Event>, group: string)
    ensures Count(events, group, OfGroup)
            == Count(events, group, Succeeded) + Count(events, group, Failed)
               + Count(events, group, Excluded) + Count(events, group, Unended)
    ensures Count(events, group, Counted) == Count(events, group, Succeeded) + Count(events, group, Failed)
  {
    if events != [] { EventsAreSorted(events[..|events| - 1], group); }
  }

  function Count(events: seq<Event>, group: string, p: (Event, string) -> bool): (n: nat)
    ensures n <= |events|
  {
    if events == [] then 0
    else Count(events[..|events| - 1], group, p) + if p(events[|events| - 1], group) then 1 else 0
  }

  lemma {:induction false} CountSum(a: seq<Event>, b: seq<Event>, group: string, p: (Event, string) -> bool)
    ensures Count(a + b, group, p) == Count(a, group, p) + Count(b, group, p)
  {
    if b == [] {
      assert a + b == a;
    } else {
      assert (a + b)[..|a + b| - 1] == a + b[..|b| - 1];
      CountSum(a, b[..|b| - 1], group, p);
    }
  }

  datatype Tally = Tally(samples: nat, successes: nat, failures: nat, excluded: nat)

  predicate Tallies(t: Tally, events: seq<Event>, group: string) {
    && t.samples == Count(events, group, Counted) && t.failures == Count(events, group, Failed)
    && t.excluded == Count(events, group, Excluded) && t.successes + t.failures == t.samples
  }

  /** The inner loop: one page of events. */
  method CountPage(t: Tally, page: seq<Event>, group: string, ghost before: seq<Event>) returns (t': Tally)
    requires Tallies(t, before, group)
    ensures Tallies(t', before + page, group)
  {
    t' := t;
    assert before + page[..0] == before;
    for i := 0 to |page|
      invariant Tallies(t', before + page[..i], group)
    {
      assert (before + page[..i + 1])[..|before| + i] == before + page[..i];
      if page[i].group != group { continue; }
      if page[i].maintenance {
        t' := t'.(excluded := t'.excluded + 1);
        continue;
      }
      if page[i].status == "stopped" || page[i].status == "running" || page[i].status == "" { continue; }
      t' := t'.(samples := t'.samples + 1);
      if page[i].status == "success" {
        t' := t'.(successes := t'.successes + 1);
      } else {
        t' := t'.(failures := t'.failures + 1);
      }
    }
    assert page[..|page|] == page;
  }

  /** `calculateSLO` for an enabled group: every event of the window counts, whatever the pages. */
  method Calculate(all: seq<Event>, group: string, target: real, minimum: int) returns (v: View, status: Status)
    ensures v.enabled && v.samples == Count(all, group, Counted) && v.failures == Count(all, group, Failed)
    ensures v.excluded == Count(all, group, Excluded) && v.successes + v.failures == v.samples
    ensures v == ViewOf(v.samples, v.failures, v.excluded, target) && status == StatusOf(v, minimum)
  {
    var t, offset := Tally(0, 0, 0, 0), 0;
    while true
      invariant offset <= |all| && Tallies(t, all[..offset], group)
      decreases |all| - offset
    {
      var page := Reliability.ListPage(all, 1000, offset);
      t := CountPage(t, page, group, all[..offset]);
      assert all[..offset] + page == all[..offset + |page|];
      if |page| < 1000 {
        assert all[..offset + |page|] == all;
        break;
      }
      offset := offset + 1000;
    }
    assert Tallies(t, all, group);
    v := ViewOf(t.samples, t.failures, t.excluded, target);
    status := StatusOf(v, minimum);
  }

  // ---------- main results ----------

  lemma BudgetLeft(samples: nat, failures: nat, target: real)
    requires Remaining(samples, failures, target) > 0.0
    ensures failures as real < Allowed(samples, target)
  {
    if failures as real >= Allowed(samples, target) {
      RoundMonotone(Allowed(samples, target) - failures as real, 0.0, 10000);
    }
  }

  lemma PositiveFactor(n: real, rate: real)
    requires n >= 0.0 && n * rate > 0.0
    ensures n > 0.0 && rate > 0.0
  {
  }

  lemma BurnIsShare(samples: nat, failures: nat, target: real)
    requires Allowed(samples, target) > 0.0
    ensures samples > 0 && 1.0 - target / 100.0 > 0.0
    ensures failures as real / samples as real / (1.0 - target / 100.0) == failures as real / Allowed(samples, target)
  {
    var rate := 1.0 - target / 100.0;
    var n, f := samples as real, failures as real;
    assert n * rate > 0.0;
    PositiveFactor(n, rate);
    var q := f / n / rate;
    assert q * rate == f / n;
    assert q * (n * rate) == q * rate * n == f;
  }

  /** While budget is left, the rounded burn rate is at most one: the burn-rate clauses of the status
      never decide. */
  lemma BurnNeverDecides(samples: nat, failures: nat, excluded: nat, target: real, minimum: int)
    requires failures <= samples
    ensures var v := ViewOf(samples, failures, excluded, target);
            && (v.remainingBudget > 0.0 ==> v.burnRate <= 1.0)
            && StatusOf(v, minimum) == StatusOf(v.(burnRate := 0.0), minimum)
  {
    if Remaining(samples, failures, target) > 0.0 {
      BudgetLeft(samples, failures, target);
      BurnIsShare(samples, failures, target);
      var allowed := Allowed(samples, target);
      DivideMonotone(failures as real, allowed, allowed);
      RoundMonotone(failures as real / allowed, 1.0, 100);
      RoundOne();
      hide Round, Allowed;
    }
  }

  lemma RoundOne()
    ensures Round(1.0, 100) == 1.0
  {
  }

  /** With samples and target fixed, more failures never make a group healthier. */
  lemma MoreFailuresNeverHelp(samples: nat, fewer: nat, more: nat, excluded: nat, target: real, minimum: int)
    requires fewer <= more <= samples
    ensures Rank(StatusOf(ViewOf(samples, more, excluded, target), minimum))
            <= Rank(StatusOf(ViewOf(samples, fewer, excluded, target), minimum))
  {
    BurnNeverDecides(samples, fewer, excluded, target, minimum);
    BurnNeverDecides(samples, more, excluded, target, minimum);
    var allowed := Allowed(samples, target);
    RoundMonotone(allowed - more as real, allowed - fewer as real, 10000);
    if allowed > 0.0 {
      DivideMonotone(fewer as real, more as real, allowed);
      RoundMonotone(fewer as real / allowed * 100.0, more as real / allowed * 100.0, 100);
    }
    hide Round, Allowed, Burn;
  }

  /** A group that is switched off is disabled, and fewer samples than asked for are too few to judge,
      whatever the budget; every enabled group with enough samples is judged. */
  lemma UnjudgedIff(v: View, minimum: int)
    ensures StatusOf(v, minimum) == Disabled <==> !v.enabled
    ensures StatusOf(v, minimum) == Insufficient <==> v.enabled && v.samples < minimum
  {
  }

  /** What rounding makes of the thresholds: the budget counts as exhausted from half a step before
      its end, and as critical or burning from half a hundredth of a percent early. */
  lemma StatusIff(samples: nat, failures: nat, excluded: nat, target: real, minimum: int)
    requires failures <= samples && samples >= minimum
    ensures var s := StatusOf(ViewOf(samples, failures, excluded, target), minimum);
            var left := Allowed(samples, target) - failures as real;
            && (s == Exhausted <==> left < 0.00005)
            && (s == Critical <==> left >= 0.00005 && failures as real / Allowed(samples, target) >= 0.89995)
            && (s == Burning <==> left >= 0.00005 && 0.49995 <= failures as real / Allowed(samples, target) < 0.89995)
            && (s == Healthy <==> left >= 0.00005 && failures as real / Allowed(samples, target) < 0.49995)
  {
    BurnNeverDecides(samples, failures, excluded, target, minimum);
    BudgetIff(Allowed(samples, target) - failures as real);
    if Remaining(samples, failures, target) > 0.0 { BudgetLeft(samples, failures, target); }
    ShareIff(failures as real / if Allowed(samples, target) > 0.0 then Allowed(samples, target) else 1.0);
    hide Round, Allowed, Burn;
  }

  lemma BudgetIff(left: real)
    ensures Round(left, 10000) > 0.0 <==> left >= 0.00005
  {
    RoundReachesIff(left, 10000, 1);
    assert Nearest(left * 10000.0) >= 1 <==> Round(left, 10000) > 0.0;
    NearestReachesIff(left * 10000.0, 1);
    hide Nearest;
  }

  lemma ShareIff(share: real)
    ensures Round(share * 100.0, 100) >= 90.0 <==> share >= 0.89995
    ensures Round(share * 100.0, 100) >= 50.0 <==> share >= 0.49995
  {
    RoundReachesIff(share * 100.0, 100, 9000);
    RoundReachesIff(share * 100.0, 100, 5000);
    hide Round;
  }
}
