/** The notification aggregates: keepalive successes and probe attempts are counted per target until
    they are reported or cleared, and recoveries are merged until a timer reports them. */
module Notifications {
  import opened Wrappers

  type Key = string
  type Time = int

  const MAX_TARGETS := 200

  datatype Job = Job(cli: string, provider: string, name: string, target: string, attempts: nat, maskedKey: string)

  datatype Target = Target(job: Job, count: nat)

  /** A target is a provider of a CLI, or an address when there is no provider. */
  function KeyOf(job: Job): Key {
    job.cli + "|" + if job.provider == "" then job.target else job.provider
  }

  /** Two jobs share a target exactly when they run the same CLI for the same provider, or, without a
      provider, against the same address; an address that spells a provider's id counts as the same. */
  lemma SameTargetIff(a: Job, b: Job)
    requires '|' !in a.cli && '|' !in b.cli
    ensures KeyOf(a) == KeyOf(b) <==>
              && a.cli == b.cli
              && if a.provider != "" && b.provider != "" then a.provider == b.provider
                 else if a.provider != "" then a.provider == b.target
                 else if b.provider != "" then a.target == b.provider
                 else a.target == b.target
  {
    var x, y := if a.provider == "" then a.target else a.provider, if b.provider == "" then b.target else b.provider;
    if KeyOf(a) == KeyOf(b) {
      SplitsOnce(a.cli, x, b.cli, y);
    }
  }

  lemma SplitsOnce(a: string, x: string, b: string, y: string)
    requires '|' !in a && '|' !in b && a + "|" + x == b + "|" + y
    ensures a == b && x == y
  {
    var s := a + "|" + x;
    assert forall k :: 0 <= k < |a| ==> s[k] == a[k] && s[k] != '|';
    assert forall k :: 0 <= k < |b| ==> s[k] == b[k] && s[k] != '|';
    assert s[|a|] == '|' == s[|b|];
    assert s[..|a|] == a && s[..|b|] == b && s[|a| + 1..] == x && s[|b| + 1..] == y;
  }

  // ---------- targets and their counts ----------

  type Targets = map<Key, Target>

  /** The sum of the counts of all targets. */
  ghost function Total(targets: Targets): (n: nat)
    decreases |targets|
  {
    if targets == map[] then 0
    else
      var k :| k in targets;
      targets[k].count + Total(targets - {k})
  }

  lemma {:induction false} TotalWithout(targets: Targets, k: Key)
    requires k in targets
    ensures Total(targets) == targets[k].count + Total(targets - {k})
    decreases |targets|
  {
    var j :| j in targets && Total(targets) == targets[j].count + Total(targets - {j});
    if j != k {
      TotalWithout(targets - {j}, k);
      TotalWithout(targets - {k}, j);
      assert targets - {j} - {k} == targets - {k} - {j};
    }
  }

  lemma TotalWith(targets: Targets, k: Key, t: Target)
    ensures Total(targets[k := t]) == Total(targets - {k}) + t.count
  {
    TotalWithout(targets[k := t], k);
    assert targets[k := t] - {k} == targets - {k};
  }

  lemma TotalAdd(targets: Targets, k: Key, t: Target)
    requires t.count == 1 + if k in targets then targets[k].count else 0
    ensures Total(targets[k := t]) == Total(targets) + 1
  {
    TotalWith(targets, k, t);
    if k in targets { TotalWithout(targets, k); } else { assert targets - {k} == targets; }
  }

  /** A table of targets is never over its capacity, and counts only what happened. */
  ghost predicate IsTable(targets: Targets) {
    |targets| <= MAX_TARGETS && forall k :: k in targets ==> targets[k].count > 0 && targets[k].job.maskedKey == ""
  }

  /** Counts are only dropped while there are targets. */
  ghost predicate Balanced(count: int, targets: Targets, dropped: int) {
    && IsTable(targets) && dropped >= 0
    && count == Total(targets) + dropped
    && (targets == map[] ==> dropped == 0)
  }

  /** A known target, or a new one while there is room, counts once more; anything else is dropped. */
  predicate Adds(targets: Targets, dropped: int, job: Job, sanitized: string, targets': Targets, dropped': int) {
    var key := KeyOf(job);
    if key in targets || |targets| < MAX_TARGETS
    then dropped' == dropped && key in targets' && targets' == targets[key := targets'[key]]
         && targets'[key].job == job.(maskedKey := "", target := sanitized)
         && targets'[key].count == 1 + if key in targets then targets[key].count else 0
    else targets' == targets && dropped' == dropped + 1
  }

  /** `addNotificationTarget`: a new target over the capacity is only counted as dropped. */
  method AddTarget(targets: Targets, dropped: int, job: Job, sanitized: string, ghost count: int)
    returns (targets': Targets, dropped': int)
    requires Balanced(count, targets, dropped)
    ensures Balanced(count + 1, targets', dropped') && targets' != map[]
    ensures Adds(targets, dropped, job, sanitized, targets', dropped')
  {
    var key := KeyOf(job);
    if key !in targets && |targets| >= MAX_TARGETS {
      return targets, dropped + 1;
    }
    var before := if key in targets then targets[key].count else 0;
    targets', dropped' := targets[key := Target(job.(maskedKey := "", target := sanitized), before + 1)], dropped;
    TotalAdd(targets, key, targets'[key]);
    assert targets'.Keys == targets.Keys + {key};
    if key in targets { assert targets'.Keys == targets.Keys; }
    assert |targets'| == |targets'.Keys| && |targets| == |targets.Keys|;
  }

  // ---------- the aggregates ----------

  datatype Settings = Settings(
    keepaliveSeconds: int, keepaliveSuccesses: int, probeSeconds: int, mergeSeconds: int)

  datatype Report = Report(elapsed: Time, count: int, targets: Targets, dropped: int)

  /** What has become of the events of one kind since the start. */
  datatype Ledger = Ledger(recorded: int, reported: int, cleared: int)

  /** The running aggregate of one kind of event. */
  datatype Tally = Tally(startedAt: Option<Time>, count: int, targets: Targets, dropped: int)

  const EMPTY := Tally(None, 0, map[], 0)

  /** The count is the sum of its parts and the part of the ledger not settled yet; a period is
      running exactly while there are targets. */
  ghost predicate Agrees(t: Tally, ledger: Ledger) {
    && Balanced(t.count, t.targets, t.dropped)
    && (t.startedAt.Some? <==> t.targets != map[])
    && t.count == ledger.recorded - ledger.reported - ledger.cleared
  }

  lemma EmptyAgrees(ledger: Ledger)
    requires ledger.recorded == ledger.reported + ledger.cleared
    ensures Agrees(EMPTY, ledger)
  {
  }

  /** `t` with one event more of `job`, in a period that starts now if none is running. */
  ghost predicate Grown(t: Tally, job: Job, sanitized: string, now: Time, t': Tally) {
    && t'.startedAt == Some(if t.startedAt.Some? then t.startedAt.value else now)
    && t'.count == t.count + 1
    && Adds(t.targets, t.dropped, job, sanitized, t'.targets, t'.dropped)
  }

  method Record(t: Tally, job: Job, sanitized: string, now: Time, ghost ledger: Ledger) returns (t': Tally)
    requires Agrees(t, ledger)
    ensures Agrees(t', ledger.(recorded := ledger.recorded + 1)) && Grown(t, job, sanitized, now, t')
  {
    hide Balanced, Adds;
    var startedAt := if t.startedAt.None? then Some(now) else t.startedAt;
    var targets, dropped := AddTarget(t.targets, t.dropped, job, sanitized, t.count);
    t' := Tally(startedAt, t.count + 1, targets, dropped);
  }

  /** `t` without the attempts of one target; nothing is left when it was the last one. */
  ghost predicate Cleared(t: Tally, key: Key, t': Tally) {
    && t'.targets == t.targets - {key}
    && if t'.targets == map[] then t' == EMPTY
       else t'.startedAt == t.startedAt && t'.dropped == t.dropped
            && t'.count == t.count - (if key in t.targets then t.targets[key].count else 0)
  }

  /** `clearProbeProgressLocked`. The count can never become negative. */
  method ClearTarget(t: Tally, job: Job, ghost ledger: Ledger) returns (t': Tally)
    requires Agrees(t, ledger)
    ensures Agrees(t', ledger.(cleared := ledger.cleared + t.count - t'.count)) && Cleared(t, KeyOf(job), t')
  {
    var key := KeyOf(job);
    t' := t;
    if key in t.targets {
      TotalWithout(t.targets, key);
      t' := t'.(count := t.count - t.targets[key].count);
      if t'.count < 0 { assert false; }
    } else {
      assert t.targets - {key} == t.targets;
    }
    t' := t'.(targets := t.targets - {key});
    if |t'.targets| == 0 {
      t' := EMPTY;
      EmptyAgrees(ledger.(cleared := ledger.cleared + t.count));
    }
  }

  class Aggregates {
    var settings: Settings
    var closing: bool
    var keepalive: Tally
    var probe: Tally
    /** The merged recoveries; their period is the time at which the timer fires. */
    var recovery: Tally

    ghost var keepalives: Ledger
    ghost var probes: Ledger
    ghost var recoveries: Ledger

    ghost predicate Valid()
      reads this
    {
      Agrees(keepalive, keepalives) && Agrees(probe, probes) && Agrees(recovery, recoveries)
    }

    constructor (settings: Settings)
      ensures Valid() && this.settings == settings && !closing
      ensures keepalives == Ledger(0, 0, 0) && probes == keepalives && recoveries == keepalives
    {
      this.settings, closing, keepalive, probe, recovery := settings, false, EMPTY, EMPTY, EMPTY;
      keepalives, probes, recoveries := Ledger(0, 0, 0), Ledger(0, 0, 0), Ledger(0, 0, 0);
      new;
      hide Agrees;
      EmptyAgrees(keepalives);
    }

    /** `recordKeepaliveSuccess`: a report, due by time or by count, has every success recorded since
        the last one. */
    method RecordKeepaliveSuccess(job: Job, sanitized: string, now: Time) returns (report: Option<Report>)
      requires Valid()
      modifies this`keepalive, this`keepalives
      ensures Valid()
      ensures settings.keepaliveSeconds <= 0 && settings.keepaliveSuccesses <= 0 ==>
                report.None? && keepalive == EMPTY
                && keepalives == old(keepalives).(cleared := old(keepalives).cleared + old(keepalive).count)
      ensures settings.keepaliveSeconds > 0 || settings.keepaliveSuccesses > 0 ==>
                exists t :: Grown(old(keepalive), job, sanitized, now, t)
                  && report == (if (settings.keepaliveSeconds > 0
                       && now - t.startedAt.value >= settings.keepaliveSeconds)
                                   || (settings.keepaliveSuccesses > 0 && t.count >= settings.keepaliveSuccesses)
                                then Some(Report(now - t.startedAt.value, t.count, t.targets, t.dropped)) else None)
                  && keepalive == (if report.Some? then EMPTY else t)
                  && keepalives == old(keepalives).(recorded := old(keepalives).recorded + 1,
                       reported := old(keepalives).reported + if report.Some? then t.count else 0)
    {
      hide Agrees, Grown;
      Pending(keepalive, keepalives);
      if settings.keepaliveSeconds <= 0 && settings.keepaliveSuccesses <= 0 {
        keepalives := keepalives.(cleared := keepalives.cleared + keepalive.count);
        EmptyAgrees(keepalives);
        keepalive := EMPTY;
        return None;
      }
      var t := Record(keepalive, job, sanitized, now, keepalives);
      GrownPeriod(keepalive, job, sanitized, now, t);
      keepalives := keepalives.(recorded := keepalives.recorded + 1);
      Pending(t, keepalives);
      keepalive := t;
      var elapsed := now - t.startedAt.value;
      var dueByTime := settings.keepaliveSeconds > 0 && elapsed >= settings.keepaliveSeconds;
      var dueByCount := settings.keepaliveSuccesses > 0 && t.count >= settings.keepaliveSuccesses;
      if !dueByTime && !dueByCount { return None; }
      keepalives := keepalives.(reported := keepalives.reported + t.count);
      EmptyAgrees(keepalives);
      keepalive := EMPTY;
      return Some(Report(elapsed, t.count, t.targets, t.dropped));
    }

    /** `recordProbeProgress`. */
    method RecordProbeProgress(job: Job, sanitized: string, now: Time) returns (report: Option<Report>)
      requires Valid()
      modifies this`probe, this`probes
      ensures Valid()
      ensures settings.probeSeconds <= 0 ==>
                report.None? && Cleared(old(probe), KeyOf(job), probe)
                && probes == old(probes).(cleared := old(probes).cleared + old(probe).count - probe.count)
      ensures settings.probeSeconds > 0 ==>
                exists t :: Grown(old(probe), job, sanitized, now, t)
                  && report == (if now - t.startedAt.value >= settings.probeSeconds
                                then Some(Report(now - t.startedAt.value, t.count, t.targets, t.dropped)) else None)
                  && probe == (if report.Some? then EMPTY else t)
                  && probes == old(probes).(recorded := old(probes).recorded + 1,
                       reported := old(probes).reported + if report.Some? then t.count else 0)
    {
      hide Agrees, Grown, Cleared;
      if settings.probeSeconds <= 0 {
        ClearProbeProgress(job);
        return None;
      }
      var t := Record(probe, job, sanitized, now, probes);
      GrownPeriod(probe, job, sanitized, now, t);
      probes := probes.(recorded := probes.recorded + 1);
      Pending(t, probes);
      probe := t;
      var elapsed := now - t.startedAt.value;
      if elapsed < settings.probeSeconds { return None; }
      probes := probes.(reported := probes.reported + t.count);
      EmptyAgrees(probes);
      probe := EMPTY;
      return Some(Report(elapsed, t.count, t.targets, t.dropped));
    }

    method ClearProbeProgress(job: Job)
      requires Valid()
      modifies this`probe, this`probes
      ensures Valid() && Cleared(old(probe), KeyOf(job), probe)
      ensures probes == old(probes).(cleared := old(probes).cleared + old(probe).count - probe.count)
    {
      hide Agrees, Cleared;
      var t := ClearTarget(probe, job, probes);
      probes := probes.(cleared := probes.cleared + probe.count - t.count);
      probe := t;
    }

    /** `queueRecovery`: reported at once, or merged with others until the timer fires. */
    method QueueRecovery(job: Job, sanitized: string, mergeable: bool, now: Time) returns (atOnce: bool)
      requires Valid()
      modifies this`recovery, this`recoveries, this`probe, this`probes
      ensures Valid()
      ensures atOnce <==> settings.mergeSeconds <= 0 || !mergeable
      ensures if atOnce then recovery == old(recovery) && recoveries == old(recoveries)
              else Grown(old(recovery), job, sanitized, now + settings.mergeSeconds, recovery)
                   && recoveries == old(recoveries).(recorded := old(recoveries).recorded + 1)
      ensures if settings.mergeSeconds <= 0 || mergeable then Cleared(old(probe), KeyOf(job), probe)
              else probe == old(probe)
    {
      hide Agrees, Grown, Cleared;
      if settings.mergeSeconds <= 0 {
        ClearProbeProgress(job);
        return true;
      }
      if !mergeable { return true; }
      recovery := Record(recovery, job, sanitized, now + settings.mergeSeconds, recoveries);
      recoveries := recoveries.(recorded := recoveries.recorded + 1);
      ClearProbeProgress(job);
      return false;
    }

    /** `flushRecoveryNotifications`: the timer fires. */
    method FlushRecoveries() returns (report: Option<Report>)
      requires Valid()
      modifies this`recovery, this`recoveries
      ensures Valid() && recovery == EMPTY
      ensures report == if closing || old(recovery).targets == map[] then None
                        else Some(Report(settings.mergeSeconds, |old(recovery).targets|, old(recovery).targets,
                          old(recovery).dropped))
      ensures recoveries == if closing then old(recoveries).(cleared := old(recoveries).cleared + old(recovery).count)
                            else old(recoveries).(reported := old(recoveries).reported + old(recovery).count)
    {
      hide Agrees;
      Pending(recovery, recoveries);
      var before := recovery;
      recovery := EMPTY;
      if closing {
        recoveries := recoveries.(cleared := recoveries.cleared + before.count);
        EmptyAgrees(recoveries);
        return None;
      }
      recoveries := recoveries.(reported := recoveries.reported + before.count);
      EmptyAgrees(recoveries);
      if |before.targets| == 0 { return None; }
      return Some(Report(settings.mergeSeconds, |before.targets|, before.targets, before.dropped));
    }

    /** The part of `Shutdown` that drops all aggregates: nothing pending is reported any more. */
    method Shutdown()
      requires Valid()
      modifies this
      ensures Valid() && closing && settings == old(settings)
      ensures keepalive == EMPTY && probe == EMPTY && recovery == EMPTY
      ensures keepalives == old(keepalives).(cleared := old(keepalives).cleared + old(keepalive).count)
      ensures probes == old(probes).(cleared := old(probes).cleared + old(probe).count)
      ensures recoveries == old(recoveries).(cleared := old(recoveries).cleared + old(recovery).count)
    {
      Pending(keepalive, keepalives);
      Pending(probe, probes);
      Pending(recovery, recoveries);
      hide Agrees;
      closing := true;
      keepalives := keepalives.(cleared := keepalives.cleared + keepalive.count);
      probes := probes.(cleared := probes.cleared + probe.count);
      recoveries := recoveries.(cleared := recoveries.cleared + recovery.count);
      keepalive, probe, recovery := EMPTY, EMPTY, EMPTY;
      EmptyAgrees(keepalives);
      EmptyAgrees(probes);
      EmptyAgrees(recoveries);
    }
  }

  lemma Pending(t: Tally, ledger: Ledger)
    requires Agrees(t, ledger)
    ensures t.count == ledger.recorded - ledger.reported - ledger.cleared
  {
  }

  lemma GrownPeriod(t: Tally, job: Job, sanitized: string, now: Time, t': Tally)
    requires Grown(t, job, sanitized, now, t')
    ensures t'.startedAt.Some?
  {
  }

  // ---------- main results ----------

  /** What has been recorded is what has been reported, what has been taken back, the counts of the
      targets still kept and what was dropped for want of room. */
  lemma Conservation(a: Aggregates)
    requires a.Valid()
    ensures a.keepalives.recorded
            == a.keepalives.reported + a.keepalives.cleared + Total(a.keepalive.targets) + a.keepalive.dropped
    ensures a.probes.recorded == a.probes.reported + a.probes.cleared + Total(a.probe.targets) + a.probe.dropped
    ensures a.recoveries.recorded
            == a.recoveries.reported + a.recoveries.cleared + Total(a.recovery.targets) + a.recovery.dropped
    ensures |a.keepalive.targets| <= MAX_TARGETS && |a.probe.targets| <= MAX_TARGETS
            && |a.recovery.targets| <= MAX_TARGETS
  {
  }

  /** No target counts more than what was kept, and one counts it all only when it is alone. */
  lemma {:induction false} CountsMakeUpAll(t: Tally, ledger: Ledger, key: Key)
    requires Agrees(t, ledger) && key in t.targets
    ensures 0 < t.targets[key].count <= t.count - t.dropped
    ensures t.targets[key].count == t.count - t.dropped <==> t.targets.Keys == {key}
  {
    TotalWithout(t.targets, key);
    if t.targets.Keys == {key} {
      assert t.targets - {key} == map[];
    } else {
      var other :| other in t.targets && other != key;
      TotalWithout(t.targets - {key}, other);
    }
  }
}
