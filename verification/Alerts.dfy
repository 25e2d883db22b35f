/** The cadence of reliability alerts of a provider: which request ends fire an alert, which one a
    recovery, and what a restart does to that. */
module Alerts {
  import opened Wrappers

  type ProviderKey = string

  datatype Outcome = Success | Stopped | Failure

  /** The thresholds of the settings; the failure and recovery counts are validated to be positive. */
  datatype Settings = Settings(failures: Positive, recoveries: Positive, minSamples: int, successRate: real,
    p95Millis: int)

  /** The 24-hour metrics that an evaluation looks at. */
  datatype Metrics = Metrics(consecutive: nat, completed: nat, successes: nat, p95: Option<int>)

  /** An auxiliary reason: the success rate is too low or the 95th percentile too high. */
  predicate Auxiliary(m: Metrics, s: Settings) {
    m.completed >= s.minSamples
    && ((m.completed > 0 && m.successes as real / m.completed as real * 100.0 < s.successRate)
        || (s.p95Millis > 0 && m.p95.Some? && m.p95.value > s.p95Millis))
  }

  /** Enough requests have completed, and a rate below the limit or a percentile above its own is each a
      reason by itself; a limit of zero switches the percentile off. */
  lemma AuxiliaryIff(m: Metrics, s: Settings)
    requires m.successes <= m.completed
    ensures var few := m.completed < s.minSamples;
            var low := m.completed > 0 && 100.0 * m.successes as real < s.successRate * m.completed as real;
            var slow := m.p95.Some? && 0 < s.p95Millis < m.p95.value;
            && (few || (!low && !slow) ==> !Auxiliary(m, s))
            && (!few && low ==> Auxiliary(m, s))
            && (!few && slow ==> Auxiliary(m, s))
  {
    if m.completed > 0 {
      var n, k := m.completed as real, m.successes as real;
      assert k / n * n == k;
      ScaledBelowIff(k / n * 100.0, s.successRate, n);
      assert k / n * 100.0 * n == 100.0 * k;
    }
  }

  lemma ScaledBelowIff(a: real, b: real, n: real)
    requires n > 0.0
    ensures a < b <==> a * n < b * n
  {
  }

  datatype State = State(alerted: bool, lastCount: nat, recoverySuccesses: nat)

  const CALM := State(false, 0, 0)

  /** One evaluated request end: how it ended and whether an auxiliary reason held then. */
  datatype Observation = Observation(outcome: Outcome, auxiliary: bool)

  type History = seq<Observation>

  // ---------- when an alert and a recovery are due ----------

  function Last(h: History): Observation
    requires h != []
  {
    h[|h| - 1]
  }

  function Front(h: History): History
    requires h != []
  {
    h[..|h| - 1]
  }

  /** Failures since the last success; stopped requests do not count. */
  function Streak(h: History): nat {
    if h == [] then 0
    else match Last(h).outcome
      case Success => 0
      case Stopped => Streak(Front(h))
      case Failure => Streak(Front(h)) + 1
  }

  /** Successes since the last failure; stopped requests do not count. */
  function Successes(h: History): nat {
    if h == [] then 0
    else match Last(h).outcome
      case Success => Successes(Front(h)) + 1
      case Stopped => Successes(Front(h))
      case Failure => 0
  }

  function Occurrences(h: History, outcome: Outcome): nat {
    if h == [] then 0 else Occurrences(Front(h), outcome) + if Last(h).outcome == outcome then 1 else 0
  }

  lemma OccurrencesNext(h: History, i: nat, outcome: Outcome)
    requires i < |h|
    ensures Occurrences(h[i..], outcome)
            == Occurrences(Front(h)[i..], outcome) + if Last(h).outcome == outcome then 1 else 0
  {
    assert Front(h[i..]) == Front(h)[i..];
  }

  lemma NoOccurrences(h: History, outcome: Outcome)
    ensures Occurrences(h[|h|..], outcome) == 0
  {
    assert h[|h|..] == [];
  }

  /** The streak counts the failures since the last success. */
  lemma {:induction false} StreakRunsBack(h: History) returns (i: nat)
    ensures i <= |h| && Streak(h) == Occurrences(h[i..], Failure) && Occurrences(h[i..], Success) == 0
    ensures i > 0 ==> h[i - 1].outcome == Success
  {
    hide Occurrences;
    if h == [] || Last(h).outcome == Success {
      i := |h|;
      NoOccurrences(h, Failure);
      NoOccurrences(h, Success);
    } else {
      i := StreakRunsBack(Front(h));
      OccurrencesNext(h, i, Failure);
      OccurrencesNext(h, i, Success);
    }
  }

  /** And the recovery count the successes since the last failure. */
  lemma {:induction false} SuccessesRunBack(h: History) returns (i: nat)
    ensures i <= |h| && Successes(h) == Occurrences(h[i..], Success) && Occurrences(h[i..], Failure) == 0
    ensures i > 0 ==> h[i - 1].outcome == Failure
  {
    hide Occurrences;
    if h == [] || Last(h).outcome == Failure {
      i := |h|;
      NoOccurrences(h, Failure);
      NoOccurrences(h, Success);
    } else {
      i := SuccessesRunBack(Front(h));
      OccurrencesNext(h, i, Failure);
      OccurrencesNext(h, i, Success);
    }
  }

  /** The streak is a multiple of the threshold and an auxiliary reason holds. */
  predicate Alertable(h: History, s: Settings) {
    h != [] && Streak(h) > 0 && Streak(h) % s.failures == 0 && Last(h).auxiliary
  }

  /** Only stopped requests have followed the first `j` ones. */
  predicate OnlyStops(h: History, j: nat)
    requires j <= |h|
  {
    forall i :: j <= i < |h| ==> h[i].outcome == Stopped
  }

  /** An alert was due before, at this very count of this streak. */
  predicate Repeated(h: History, s: Settings)
    requires h != []
  {
    exists j :: 0 < j < |h| && OnlyStops(h, j) && Alertable(h[..j], s)
  }

  /** The newest observation fires an alert. */
  predicate Fires(h: History, s: Settings) {
    Alertable(h, s) && !Repeated(h, s)
  }

  /** An alert has fired, and since then there have never been enough successes in a row. */
  predicate Alerted(h: History, s: Settings) {
    exists j :: 0 < j <= |h| && Fires(h[..j], s) && Unrecovered(h, j, s)
  }

  predicate Unrecovered(h: History, j: nat, s: Settings)
    requires j <= |h|
  {
    forall k :: j < k <= |h| ==> Successes(h[..k]) < s.recoveries
  }

  /** The newest observation completes the successes an alert waits for. */
  predicate Recovers(h: History, s: Settings) {
    h != [] && Alerted(Front(h), s) && Successes(h) >= s.recoveries
  }

  // ---------- what the state remembers of the history ----------

  /** The count of the last alert of the streak that is still going on, or zero. */
  function LastAlert(h: History, s: Settings): nat {
    if h == [] then 0
    else if Fires(h, s) then Streak(h)
    else if Last(h).outcome == Success then 0
    else LastAlert(Front(h), s)
  }

  predicate Remembers(state: State, h: History, s: Settings) {
    && state.alerted == Alerted(h, s)
    && (state.alerted ==> state.lastCount == LastAlert(h, s) && state.recoverySuccesses == Successes(h))
    && (!state.alerted ==> state == CALM && LastAlert(h, s) == 0)
  }

  lemma {:induction false} StreakOrSuccesses(h: History)
    ensures Streak(h) == 0 || Successes(h) == 0
  {
    if h != [] { StreakOrSuccesses(Front(h)); }
  }

  lemma {:induction false} LastAlertInStreak(h: History, s: Settings)
    ensures LastAlert(h, s) <= Streak(h)
  {
    if h != [] && !Fires(h, s) { LastAlertInStreak(Front(h), s); }
  }

  lemma RepeatedNext(h: History, s: Settings)
    requires h != []
    ensures Repeated(h, s)
            <==> Last(h).outcome == Stopped && Front(h) != [] && (Alertable(Front(h), s) || Repeated(Front(h), s))
  {
    hide Alertable;
    var p := Front(h);
    if Repeated(h, s) {
      var j :| 0 < j < |h| && OnlyStops(h, j) && Alertable(h[..j], s);
      assert h[|h| - 1].outcome == Stopped;
      assert h[..j] == p[..j];
      if j == |p| { assert p[..j] == p; } else { assert OnlyStops(p, j); }
    }
    if Last(h).outcome == Stopped && p != [] {
      if Alertable(p, s) {
        assert h[..|p|] == p && OnlyStops(h, |p|);
      } else if Repeated(p, s) {
        var j :| 0 < j < |p| && OnlyStops(p, j) && Alertable(p[..j], s);
        assert h[..j] == p[..j] && OnlyStops(h, j);
      }
    }
  }

  /** The remembered count equals the streak exactly when this count has been alerted. */
  lemma {:induction false} CountIsRemembered(h: History, s: Settings)
    requires h != [] && Streak(h) > 0
    ensures LastAlert(h, s) == Streak(h) <==> Alertable(h, s) || Repeated(h, s)
  {
    RepeatedNext(h, s);
    LastAlertInStreak(Front(h), s);
    if Last(h).outcome == Stopped { CountIsRemembered(Front(h), s); }
  }

  /** The remembered count, dropped once the streak has fallen below it. */
  function Current(lastCount: nat, consecutive: nat): nat {
    if consecutive < lastCount then 0 else lastCount
  }

  /** The trigger condition, comparing the streak with the remembered count. */
  predicate Triggers(consecutive: nat, lastCount: nat, auxiliary: bool, s: Settings) {
    consecutive >= s.failures && consecutive % s.failures == 0 && consecutive > Current(lastCount, consecutive)
      && auxiliary
  }

  /** The comparison with the remembered count decides exactly whether an alert is due. */
  lemma FiresIff(h: History, s: Settings)
    requires h != []
    ensures Fires(h, s) <==> Triggers(Streak(h), LastAlert(Front(h), s), Last(h).auxiliary, s)
  {
    RepeatedNext(h, s);
    LastAlertInStreak(Front(h), s);
    MultipleIsAtLeast(Streak(h), s.failures);
    if Last(h).outcome == Stopped && Streak(h) > 0 { CountIsRemembered(Front(h), s); }
  }

  lemma MultipleIsAtLeast(streak: nat, n: Positive)
    ensures streak > 0 && streak % n == 0 <==> streak >= n && streak % n == 0
  {
    if 0 < streak < n { assert streak % n == streak; }
  }

  lemma AlertedNext(h: History, s: Settings)
    requires h != []
    ensures Alerted(h, s) <==> Fires(h, s) || (Alerted(Front(h), s) && !Recovers(h, s))
  {
    hide Fires;
    var p := Front(h);
    assert h[..|h|] == h;
    if Alerted(h, s) {
      var j :| 0 < j <= |h| && Fires(h[..j], s) && Unrecovered(h, j, s);
      if j < |h| {
        assert h[..j] == p[..j];
        forall k | j < k <= |p| ensures Successes(p[..k]) < s.recoveries { assert p[..k] == h[..k]; }
        assert Unrecovered(p, j, s);
        assert Successes(h[..|h|]) < s.recoveries;
      }
    }
    if Fires(h, s) { assert Unrecovered(h, |h|, s); }
    if Alerted(p, s) && !Recovers(h, s) {
      var j :| 0 < j <= |p| && Fires(p[..j], s) && Unrecovered(p, j, s);
      assert h[..j] == p[..j];
      forall k | j < k <= |h| ensures Successes(h[..k]) < s.recoveries { if k < |h| { assert p[..k] == h[..k]; } }
      assert Unrecovered(h, j, s);
    }
  }

  /** Everything an evaluation needs to know, from what the state remembers. */
  lemma RememberedStep(state: State, h: History, s: Settings)
    requires h != [] && Remembers(state, Front(h), s)
    ensures Fires(h, s) <==> Triggers(Streak(h), state.lastCount, Last(h).auxiliary, s)
    ensures LastAlert(h, s) == if Fires(h, s) then Streak(h) else Current(state.lastCount, Streak(h))
    ensures Recovers(h, s) <==> state.alerted && Successes(h) >= s.recoveries
    ensures Alerted(h, s) <==> Fires(h, s) || (state.alerted && !Recovers(h, s))
    ensures Streak(h) > 0 ==> Successes(h) == 0
    ensures !Alerted(h, s) ==> LastAlert(h, s) == 0
  {
    hide Fires, Alerted;
    FiresIff(h, s);
    AlertedNext(h, s);
    StreakOrSuccesses(h);
    LastAlertInStreak(Front(h), s);
    LastAlertInStreak(h, s);
  }

  // ---------- the evaluation ----------

  datatype AlertEvent =
    | Triggered(key: ProviderKey, count: nat)
    | DeliveryFailed(key: ProviderKey, count: nat)
    | Recovered(key: ProviderKey)

  datatype Verdict = Quiet | Alert | Recovery

  function VerdictOf(h: History, s: Settings): Verdict {
    if Fires(h, s) then Alert else if Recovers(h, s) then Recovery else Quiet
  }

  /** The newest saved event of the key. */
  function Newest(events: seq<AlertEvent>, key: ProviderKey): Option<AlertEvent> {
    if events == [] then None
    else if events[|events| - 1].key == key then Some(events[|events| - 1])
    else Newest(events[..|events| - 1], key)
  }

  /** What `reliabilityState` makes of the saved events. */
  function Loaded(newest: Option<AlertEvent>): State {
    match newest
    case None => CALM
    case Some(Triggered(_, count)) => State(true, count, 0)
    case Some(DeliveryFailed(_, count)) => State(true, count, 0)
    case Some(Recovered(_)) => CALM
  }

  /** The count of the last alert ever. */
  function LastFired(h: History, s: Settings): nat {
    if h == [] then 0 else if Fires(h, s) then Streak(h) else LastFired(Front(h), s)
  }

  /** The newest saved event tells whether the provider is alerted, and since which count. */
  predicate Records(newest: Option<AlertEvent>, h: History, s: Settings) {
    Loaded(newest) == if Alerted(h, s) then State(true, LastFired(h, s), 0) else CALM
  }

  lemma RecordNext(newest: Option<AlertEvent>, h: History, s: Settings, key: ProviderKey, delivered: bool)
    requires h != [] && Records(newest, Front(h), s)
    ensures Records(match VerdictOf(h, s)
                    case Quiet => newest
                    case Recovery => Some(Recovered(key))
                    case Alert => Some(if delivered then Triggered(key, Streak(h))
                      else DeliveryFailed(key, Streak(h))), h, s)
  {
    hide Fires, Alerted, Recovers;
    AlertedNext(h, s);
    if Fires(h, s) && Recovers(h, s) { NeverBoth(h, s); }
  }

  lemma NeverBoth(h: History, s: Settings)
    ensures !(Fires(h, s) && Recovers(h, s))
  {
    StreakOrSuccesses(h);
  }

  class Evaluator {
    const settings: Settings
    var states: map<ProviderKey, State>
    var events: seq<AlertEvent>
    ghost var histories: map<ProviderKey, History>

    static ghost function HistoryOf(histories: map<ProviderKey, History>, key: ProviderKey): History {
      if key in histories then histories[key] else []
    }

    static function StateOf(states: map<ProviderKey, State>, key: ProviderKey): State {
      if key in states then states[key] else CALM
    }

    ghost predicate Valid()
      reads this
    {
      && (forall key :: Records(Newest(events, key), HistoryOf(histories, key), settings))
      && (forall key :: Remembers(StateOf(states, key), HistoryOf(histories, key), settings))
    }

    constructor (settings: Settings)
      ensures Valid() && this.settings == settings && events == [] && histories == map[]
    {
      this.settings, states, events, histories := settings, map[], [], map[];
    }

    /** `evaluateReliabilityAlert` for the provider's next request end. It fires an alert, or a
        recovery, exactly when one is due, whatever happened to other providers in between. */
    method Evaluate(key: ProviderKey, outcome: Outcome, metrics: Metrics, delivered: bool) returns (verdict: Verdict)
      requires Valid()
      requires metrics.consecutive
               == Streak(HistoryOf(histories, key) + [Observation(outcome, Auxiliary(metrics, settings))])
      modifies this
      ensures Valid()
      ensures histories == old(histories)[key :=
                HistoryOf(old(histories), key) + [Observation(outcome, Auxiliary(metrics, settings))]]
      ensures verdict == VerdictOf(histories[key], settings)
      ensures events == old(events) + match verdict
                case Quiet => []
                case Recovery => [Recovered(key)]
                case Alert => [if delivered then Triggered(key, metrics.consecutive)
                  else DeliveryFailed(key, metrics.consecutive)]
    {
      ghost var h := HistoryOf(histories, key) + [Observation(outcome, Auxiliary(metrics, settings))];
      assert Front(h) == HistoryOf(histories, key);
      var state := StateOf(states, key);
      RememberedStep(state, h, settings);
      RecordNext(Newest(events, key), h, settings, key, delivered);
      hide Fires, Alerted, Recovers, Auxiliary;
      var auxiliary := Auxiliary(metrics, settings);
      if metrics.consecutive < state.lastCount { state := state.(lastCount := 0); }
      var reached := metrics.consecutive >= settings.failures
                     && metrics.consecutive % settings.failures == 0 && metrics.consecutive > state.lastCount;
      if metrics.consecutive >= settings.failures && auxiliary {
        state := state.(recoverySuccesses := 0);
        if !reached {
          Store(key, state, [], h);
          return Quiet;
        }
        state := state.(lastCount := metrics.consecutive, alerted := true);
        Store(key, state, [if delivered then Triggered(key, metrics.consecutive)
          else DeliveryFailed(key, metrics.consecutive)], h);
        return Alert;
      }
      if !state.alerted {
        Store(key, CALM, [], h);
        return Quiet;
      }
      match outcome {
        case Success => state := state.(recoverySuccesses := state.recoverySuccesses + 1);
        case Stopped =>
        case Failure => state := state.(recoverySuccesses := 0);
      }
      if state.recoverySuccesses < settings.recoveries {
        Store(key, state, [], h);
        return Quiet;
      }
      Store(key, CALM, [Recovered(key)], h);
      return Recovery;
    }

    /** Saves the key's event, if any, and its state. */
    method Store(key: ProviderKey, state: State, saved: seq<AlertEvent>, ghost h: History)
      requires Valid() && Remembers(state, h, settings)
      requires |saved| <= 1 && (saved != [] ==> saved[0].key == key)
      requires Records(if saved == [] then Newest(events, key) else Some(saved[0]), h, settings)
      modifies this
      ensures Valid() && events == old(events) + saved && histories == old(histories)[key := h]
    {
      hide Records, Remembers;
      forall k ensures Newest(events + saved, k) == if saved != [] && k == key then Some(saved[0])
        else Newest(events, k) {
        if saved == [] { assert events + saved == events; } else { assert (events + saved)[..|events|] == events; }
      }
      states, events, histories := states[key := state], events + saved, histories[key := h];
    }
  }

  // ---------- a restart ----------

  predicate NoSuccess(h: History, j: nat)
    requires j <= |h|
  {
    forall i :: j <= i < |h| ==> h[i].outcome != Success
  }

  /** An alert has fired and no request has succeeded since. */
  predicate StillFailing(h: History, s: Settings) {
    exists j :: 0 < j <= |h| && Fires(h[..j], s) && NoSuccess(h, j)
  }

  lemma StillFailingNext(h: History, s: Settings)
    requires h != []
    ensures StillFailing(h, s) <==> Fires(h, s) || (Last(h).outcome != Success && StillFailing(Front(h), s))
  {
    hide Fires;
    var p := Front(h);
    assert h[..|h|] == h;
    if StillFailing(h, s) {
      var j :| 0 < j <= |h| && Fires(h[..j], s) && NoSuccess(h, j);
      if j < |h| {
        assert h[|h| - 1].outcome != Success;
        assert h[..j] == p[..j] && NoSuccess(p, j);
      }
    }
    if Fires(h, s) { assert NoSuccess(h, |h|); }
    if Last(h).outcome != Success && StillFailing(p, s) {
      var j :| 0 < j <= |p| && Fires(p[..j], s) && NoSuccess(p, j);
      assert h[..j] == p[..j] && NoSuccess(h, j);
    }
  }

  lemma {:induction false} StillFailingRemembers(h: History, s: Settings)
    ensures StillFailing(h, s) ==> LastAlert(h, s) == LastFired(h, s) > 0 && Successes(h) == 0
    ensures !StillFailing(h, s) ==> LastAlert(h, s) == 0
    ensures Alerted(h, s) ==> LastFired(h, s) > 0
  {
    if h != [] {
      StillFailingRemembers(Front(h), s);
      StillFailingNext(h, s);
      AlertedNext(h, s);
      StreakOrSuccesses(h);
    }
  }

  /** After a restart the state is read back from the saved events. It is what it was exactly when
      the provider is not alerted, or no request has succeeded since its last alert. */
  lemma RestartKeepsStateIff(state: State, newest: Option<AlertEvent>, h: History, s: Settings)
    requires Remembers(state, h, s) && Records(newest, h, s)
    ensures Loaded(newest) == state <==> !Alerted(h, s) || StillFailing(h, s)
  {
    StillFailingRemembers(h, s);
    hide StillFailing, Alerted;
  }

  /** With the state read back at a restart, the next alert that is due is missed exactly when the
      provider is alerted and the streak has just reached the count of its last alert again. No
      alert fires that is not due. */
  lemma RestartMissesAlertIff(newest: Option<AlertEvent>, h: History, next: Observation, s: Settings)
    requires Records(newest, h, s)
    ensures var h' := h + [next];
            Triggers(Streak(h'), Loaded(newest).lastCount, next.auxiliary, s)
            <==> Fires(h', s) && !(Alerted(h, s) && Streak(h') == LastFired(h, s))
  {
    var h' := h + [next];
    assert Front(h') == h;
    FiresIff(h', s);
    StillFailingRemembers(h, s);
    StillFailingNext(h', s);
    LastAlertInStreak(h, s);
    NotAlertedForgets(h, s);
    hide StillFailing, Alerted, Fires;
  }

  lemma {:induction false} NotAlertedForgets(h: History, s: Settings)
    ensures !Alerted(h, s) ==> LastAlert(h, s) == 0
  {
    if h != [] {
      NotAlertedForgets(Front(h), s);
      AlertedNext(h, s);
      StreakOrSuccesses(h);
      LastAlertInStreak(h, s);
      LastAlertInStreak(Front(h), s);
      hide Fires, Alerted;
    }
  }

  /** A run in which that happens: two failures, a success, a failure, a restart, a failure. */
  lemma RestartSilencesAlert()
    ensures var s := Settings(2, 2, 1, 90.0, 0);
            var fail := Observation(Failure, true);
            var h := [fail, fail, Observation(Success, true), fail];
            && VerdictOf(h + [fail], s) == Alert
            && forall newest :: Records(newest, h, s) ==>
                 !Triggers(Streak(h + [fail]), Loaded(newest).lastCount, true, s)
  {
    var s := Settings(2, 2, 1, 90.0, 0);
    var fail := Observation(Failure, true);
    var h1 := [fail];
    var h2 := h1 + [fail];
    var h3 := h2 + [Observation(Success, true)];
    var h := h3 + [fail];
    assert h == [fail, fail, Observation(Success, true), fail];
    assert Front(h1) == [] && Front(h2) == h1 && Front(h3) == h2 && Front(h) == h3 && Front(h + [fail]) == h;
    assert Streak(h1) == 1 && Streak(h2) == 2 && Streak(h3) == 0 && Streak(h) == 1 && Streak(h + [fail]) == 2;
    RepeatedNext(h2, s);
    RepeatedNext(h + [fail], s);
    assert Fires(h2, s);
    assert Successes(h2) == 0 && Successes(h3) == 1 && Successes(h) == 0;
    hide Fires, Alerted, Alertable, Repeated;
    AlertedNext(h2, s);
    AlertedNext(h3, s);
    AlertedNext(h, s);
    assert Alerted(h, s);
    assert !Fires(h3, s) && !Fires(h, s) by {
      FiresIff(h3, s);
      FiresIff(h, s);
    }
    assert LastFired(h2, s) == 2 && LastFired(h3, s) == 2 && LastFired(h, s) == 2;
    forall newest | Records(newest, h, s) ensures !Triggers(Streak(h + [fail]), Loaded(newest).lastCount, true, s) {
      RestartMissesAlertIff(newest, h, fail, s);
    }
  }

  /** A recovery comes with exactly the last of the successes an alert waits for. */
  lemma RecoveryIsPrompt(h: History, s: Settings)
    requires Recovers(h, s)
    ensures Last(h).outcome == Success && Successes(h) == s.recoveries
  {
    var p := Front(h);
    var j :| 0 < j <= |p| && Fires(p[..j], s) && Unrecovered(p, j, s);
    assert p[..|p|] == p;
    if j == |p| { StreakOrSuccesses(p); }
  }
}
