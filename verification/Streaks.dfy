/** The bounded scans that decide on failover and recovery: they look at the newest events of a
    provider and count the run of failures, or of successes, that the history ends in. */
module Streaks {
  import opened Wrappers
  import Reliability

  /** How a request stands: still running, or ended as the reliability report classifies it. */
  datatype Status = Running | Ended(how: Reliability.Status)

  /** A `request_end` event of the provider. */
  datatype Event = Event(status: Status, validation: bool)

  /** What an event means to a scan. */
  datatype Role = Counts | Skips | Breaks

  function FailureRole(e: Event): Role {
    if e.validation then Skips
    else match e.status
      case Running => Counts
      case Ended(how) =>
        if how == Reliability.Success then Breaks else if how == Reliability.Stopped then Skips else Counts
  }

  function SuccessRole(e: Event): Role {
    match e.status
    case Running => Skips
    case Ended(how) =>
      if how == Reliability.Success then Counts else if how == Reliability.Stopped then Skips else Breaks
  }

  /** To the scan for failures a success ends the run, and validations and stopped requests do not matter;
      to the scan for successes a failure ends it, and unfinished and stopped requests do not matter. */
  lemma RolesIff(e: Event)
    ensures FailureRole(e) == Breaks <==> !e.validation && e.status == Ended(Reliability.Success)
    ensures FailureRole(e) == Skips <==> e.validation || e.status == Ended(Reliability.Stopped)
    ensures SuccessRole(e) == Counts <==> e.status == Ended(Reliability.Success)
    ensures SuccessRole(e) == Skips <==> e.status in {Running, Ended(Reliability.Stopped)}
  {
  }

  function Min(a: nat, b: nat): nat { if a < b then a else b }

  /** The run a history, oldest event first, ends in. */
  function Trail(log: seq<Event>, role: Event -> Role): (n: nat)
    ensures n <= |log|
  {
    if log == [] then 0
    else match role(log[|log| - 1])
      case Counts => Trail(log[..|log| - 1], role) + 1
      case Skips => Trail(log[..|log| - 1], role)
      case Breaks => 0
  }

  // ---------- the events a scan fetches ----------

  function Window(limit: Positive): nat {
    if 2 * limit > 20 then 2 * limit else 20
  }

  /** Twenty events are fetched, or twice as many as are counted, if that is more. */
  lemma WindowIff(limit: Positive)
    ensures Window(limit) == 20 <==> limit <= 10
    ensures limit >= 10 ==> Window(limit) == limit + limit
  {
  }

  /** The events beyond those fetched, and those fetched, oldest first. */
  function Older(log: seq<Event>, limit: Positive): seq<Event> {
    log[..|log| - Min(|log|, Window(limit))]
  }

  function Newest(log: seq<Event>, limit: Positive): (newest: seq<Event>)
    ensures log == Older(log, limit) + newest && |newest| == Min(|log|, Window(limit))
  {
    log[|log| - Min(|log|, Window(limit))..]
  }

  /** What the store lists: the newest events, newest first. */
  function Listed(log: seq<Event>, limit: Positive): (events: seq<Event>)
    ensures |events| == |Newest(log, limit)|
  {
    var newest := Newest(log, limit);
    seq(|newest|, i requires 0 <= i < |newest| => newest[|newest| - 1 - i])
  }

  // ---------- the scans ----------

  /** The run that the first `n` of the fetched events, oldest first, end in. */
  function TrailOf(log: seq<Event>, limit: Positive, n: nat, role: Event -> Role): nat
    requires n <= |Newest(log, limit)|
  {
    Trail(Newest(log, limit)[..n], role)
  }

  lemma TrailEnds(log: seq<Event>, limit: Positive, role: Event -> Role)
    ensures TrailOf(log, limit, |Newest(log, limit)|, role) == Trail(Newest(log, limit), role)
    ensures TrailOf(log, limit, 0, role) == 0
  {
    var newest := Newest(log, limit);
    assert newest[..|newest|] == newest;
  }

  /** What one listed event adds to the run. */
  lemma TrailStep(log: seq<Event>, limit: Positive, i: nat, role: Event -> Role)
    requires i < |Listed(log, limit)|
    ensures var n := |Listed(log, limit)| - i; var before := TrailOf(log, limit, n - 1, role);
            TrailOf(log, limit, n, role) == match role(Listed(log, limit)[i])
              case Counts => before + 1
              case Skips => before
              case Breaks => 0
  {
    var newest := Newest(log, limit);
    var rest := newest[..|newest| - i];
    assert rest[..|rest| - 1] == newest[..|rest| - 1];
    assert Listed(log, limit)[i] == rest[|rest| - 1];
  }

  /** `consecutiveProviderFailures`. */
  method ConsecutiveFailures(log: seq<Event>, limit: Positive) returns (count: nat)
    ensures count == Min(limit, Trail(Newest(log, limit), FailureRole))
  {
    var events := Listed(log, limit);
    TrailEnds(log, limit, FailureRole);
    hide Trail, TrailOf, Newest, Listed;
    count := 0;
    for i := 0 to |events|
      invariant count < limit
      invariant Trail(Newest(log, limit), FailureRole) == count + TrailOf(log, limit, |events| - i, FailureRole)
    {
      TrailStep(log, limit, i, FailureRole);
      if events[i].validation { continue; }
      if events[i].status == Ended(Reliability.Success) { return count; }
      if events[i].status == Ended(Reliability.Stopped) { continue; }
      count := count + 1;
      if count >= limit { return count; }
    }
  }

  /** `consecutiveProviderSuccesses`. */
  method ConsecutiveSuccesses(log: seq<Event>, limit: Positive) returns (count: nat)
    ensures count == Min(limit, Trail(Newest(log, limit), SuccessRole))
  {
    var events := Listed(log, limit);
    TrailEnds(log, limit, SuccessRole);
    hide Trail, TrailOf, Newest, Listed;
    count := 0;
    for i := 0 to |events|
      invariant count < limit
      invariant Trail(Newest(log, limit), SuccessRole) == count + TrailOf(log, limit, |events| - i, SuccessRole)
    {
      TrailStep(log, limit, i, SuccessRole);
      if events[i].status == Running || events[i].status == Ended(Reliability.Stopped) { continue; }
      if events[i].status != Ended(Reliability.Success) { return count; }
      count := count + 1;
      if count >= limit { return count; }
    }
  }

  // ---------- the window against the whole history ----------

  /** How many of the events play a part. */
  function Tally(log: seq<Event>, role: Event -> Role, part: Role): (n: nat)
    ensures n <= |log|
  {
    if log == [] then 0
    else Tally(log[..|log| - 1], role, part) + if role(log[|log| - 1]) == part then 1 else 0
  }

  lemma {:induction false} TallySum(log: seq<Event>, role: Event -> Role)
    ensures Tally(log, role, Counts) + Tally(log, role, Skips) + Tally(log, role, Breaks) == |log|
  {
    if log != [] { TallySum(log[..|log| - 1], role); }
  }

  /** The run of a history continues into its older part only past a newer part without a breaker. */
  lemma {:induction false} TrailSplit(older: seq<Event>, newer: seq<Event>, role: Event -> Role)
    ensures Trail(older + newer, role)
            == if Tally(newer, role, Breaks) > 0 then Trail(newer, role)
              else Tally(newer, role, Counts) + Trail(older, role)
    ensures Tally(newer, role, Breaks) == 0 ==> Trail(newer, role) == Tally(newer, role, Counts)
    ensures Trail(newer, role) <= Tally(newer, role, Counts)
  {
    if newer == [] {
      assert older + newer == older;
    } else {
      var front := newer[..|newer| - 1];
      assert (older + newer)[..|older + newer| - 1] == older + front;
      TrailSplit(older, front, role);
    }
  }

  /** What a scan finds in the events it fetched. */
  function Found(log: seq<Event>, limit: Positive, role: Event -> Role): nat {
    Min(limit, Trail(Newest(log, limit), role))
  }

  /** A scan never finds more than the true run. It finds less exactly when nothing in the fetched
      events breaks the run, fewer than `limit` of them count, and the run goes on in older events. */
  lemma ScanIsExactIff(log: seq<Event>, limit: Positive, role: Event -> Role)
    ensures Found(log, limit, role) <= Min(limit, Trail(log, role))
    ensures Found(log, limit, role) == Min(limit, Trail(log, role)) <==>
            !(Tally(Newest(log, limit), role, Breaks) == 0 && Tally(Newest(log, limit), role, Counts) < limit
              && Trail(Older(log, limit), role) > 0)
  {
    TrailSplit(Older(log, limit), Newest(log, limit), role);
  }

  /** It is exact whenever the fetched events hold few enough that are skipped. */
  lemma FewSkippedSuffice(log: seq<Event>, limit: Positive, role: Event -> Role)
    requires Tally(Newest(log, limit), role, Skips) <= Window(limit) - limit
    ensures Found(log, limit, role) == Min(limit, Trail(log, role))
  {
    TallySum(Newest(log, limit), role);
    ScanIsExactIff(log, limit, role);
  }

  function Repeat(e: Event, n: nat): (log: seq<Event>)
    ensures |log| == n && forall i :: 0 <= i < n ==> log[i] == e
  {
    seq(n, _ => e)
  }

  lemma {:induction false} RepeatTrail(e: Event, n: nat, role: Event -> Role)
    ensures Trail(Repeat(e, n), role) == if role(e) == Counts then n else 0
    ensures Tally(Repeat(e, n), role, Counts) == if role(e) == Counts then n else 0
    ensures Tally(Repeat(e, n), role, Breaks) == if role(e) == Breaks then n else 0
  {
    if n > 0 {
      assert Repeat(e, n)[..n - 1] == Repeat(e, n - 1);
      RepeatTrail(e, n - 1, role);
    }
  }

  /** For every limit there is a history in which stopped requests hide all the failures. */
  lemma StopsHideFailures(limit: Positive)
    ensures var log := Repeat(Event(Ended(Reliability.Timeout), false), limit)
            + Repeat(Event(Ended(Reliability.Stopped), false), Window(limit));
            Found(log, limit, FailureRole) == 0 && Trail(log, FailureRole) == limit
  {
    var failures, stops := Repeat(Event(Ended(Reliability.Timeout), false), limit),
      Repeat(Event(Ended(Reliability.Stopped), false), Window(limit));
    var log := failures + stops;
    assert Older(log, limit) == failures && Newest(log, limit) == stops;
    RepeatTrail(Event(Ended(Reliability.Timeout), false), limit, FailureRole);
    RepeatTrail(Event(Ended(Reliability.Stopped), false), Window(limit), FailureRole);
    TrailSplit(failures, stops, FailureRole);
  }

  // ---------- the scan against the reliability report ----------

  /** The samples that the reliability report makes of the events: one for every ended request that
      no validation job triggered. */
  function Samples(log: seq<Event>): seq<Reliability.Sample> {
    if log == [] then []
    else
      var e := log[|log| - 1];
      Samples(log[..|log| - 1])
      + if e.validation || e.status.Running? then [] else [Reliability.Sample(0, "", e.status.how, None)]
  }

  /** The unfinished requests since the last success, validation apart. */
  function Unfinished(log: seq<Event>): nat {
    if log == [] then 0
    else
      var e, before := log[|log| - 1], Unfinished(log[..|log| - 1]);
      if e.validation then before
      else if e.status == Running then before + 1
      else if e.status == Ended(Reliability.Success) then 0
      else before
  }

  lemma SamplesNext(log: seq<Event>, e: Event)
    ensures Samples(log + [e])
            == if e.validation || e.status.Running? then Samples(log)
              else Samples(log) + [Reliability.Sample(0, "", e.status.how, None)]
  {
    assert (log + [e])[..|log|] == log;
    assert Samples(log) + [] == Samples(log);
  }

  lemma StreakNext(samples: seq<Reliability.Sample>, x: Reliability.Sample)
    ensures Reliability.Streak(samples + [x])
            == if x.status == Reliability.Success then 0
               else Reliability.Streak(samples) + if Reliability.IsFailure(x.status) then 1 else 0
  {
    assert (samples + [x])[..|samples|] == samples;
  }

  /** The run of failures that the scan looks for is the streak of the reliability report over the
      requests no validation job triggered, except that the scan also counts unfinished ones. */
  lemma {:induction false} TrailIsStreak(log: seq<Event>)
    ensures Trail(log, FailureRole) == Reliability.Streak(Samples(log)) + Unfinished(log)
  {
    if log != [] {
      var front, e := log[..|log| - 1], log[|log| - 1];
      TrailIsStreak(front);
      OneMore(front, e);
      assert log == front + [e];
    }
    hide Trail, Samples, Unfinished, Reliability.Streak;
  }

  /** One event more changes both sides alike. */
  lemma OneMore(log: seq<Event>, e: Event)
    requires Trail(log, FailureRole) == Reliability.Streak(Samples(log)) + Unfinished(log)
    ensures Trail(log + [e], FailureRole) == Reliability.Streak(Samples(log + [e])) + Unfinished(log + [e])
  {
    TrailNext(log, e);
    SamplesNext(log, e);
    if e.status.Ended? { StreakNext(Samples(log), Reliability.Sample(0, "", e.status.how, None)); }
    hide Trail, Samples, Unfinished, Reliability.Streak;
  }

  lemma TrailNext(log: seq<Event>, e: Event)
    ensures Trail(log + [e], FailureRole) == match FailureRole(e)
              case Counts => Trail(log, FailureRole) + 1
              case Skips => Trail(log, FailureRole)
              case Breaks => 0
    ensures Unfinished(log + [e])
            == if e.validation then Unfinished(log)
               else if e.status == Running then Unfinished(log) + 1
               else if e.status == Ended(Reliability.Success) then 0
               else Unfinished(log)
  {
    assert (log + [e])[..|log|] == log;
  }

  /** With few skipped events, the failure scan agrees with the report's streak exactly when no
      request since the last success is unfinished, or the limit hides it. */
  lemma ScanIsStreakIff(log: seq<Event>, limit: Positive)
    requires Tally(Newest(log, limit), FailureRole, Skips) <= Window(limit) - limit
    ensures var streak := Reliability.Streak(Samples(log));
            Found(log, limit, FailureRole) == Min(limit, streak) <==> Unfinished(log) == 0 || streak >= limit
  {
    FewSkippedSuffice(log, limit, FailureRole);
    TrailIsStreak(log);
    hide Trail, Unfinished, Samples, Tally;
  }
}
