/** The failover code in place: each method is what one goroutine does to the stored groups and the
    table of running failovers between two points where another goroutine can run. */
module FailoverManager {
  import opened Wrappers
  import opened Failover
  import opened FailoverSafety
  import opened FailoverLocks
  import opened FailoverEffects
  import FailoverStanding

  // ---------- the store's checks ----------

  /** The members of a group, unless one is empty or appears twice. */
  method Members(primary: ProviderId, backups: seq<ProviderId>) returns (seen: Option<set<ProviderId>>)
    ensures seen.Some? <==> "" !in backups && Distinct([primary] + backups)
    ensures seen.Some? ==> forall p :: p in seen.value <==> p == primary || p in backups
  {
    var s := {primary};
    ghost var members := [primary] + backups;
    for i := 0 to |backups|
      invariant s == {primary} + set k | 0 <= k < i :: backups[k]
      invariant forall k :: 0 <= k < i ==> backups[k] != "" && backups[k] != primary
      invariant forall j, k :: 0 <= j < k < i ==> backups[j] != backups[k]
    {
      assert members[i + 1] == backups[i];
      if backups[i] == "" || backups[i] in s {
        if backups[i] != "" { DuplicateMember(primary, backups, i, s); }
        return None;
      }
      s := s + {backups[i]};
    }
    return Some(s);
  }

  lemma DuplicateMember(primary: ProviderId, backups: seq<ProviderId>, i: nat, s: set<ProviderId>)
    requires i < |backups| && backups[i] in s && s == {primary} + set k | 0 <= k < i :: backups[k]
    ensures !Distinct([primary] + backups)
  {
    var members := [primary] + backups;
    assert members[i + 1] == backups[i];
    if backups[i] == primary {
      assert members[0] == members[i + 1];
    } else {
      var k :| 0 <= k < i && backups[k] == backups[i];
      assert members[k + 1] == members[i + 1];
    }
  }

  /** `normalizeProviderGroup`: defaults and checks. */
  method NormalizeGroup(group: Group) returns (r: Option<Group>)
    ensures r == Normalize(group)
  {
    hide Distinct;
    var g := group;
    if g.primary == "" || |g.backups| < 1 || |g.backups| > 19 { return None; }
    var seen := Members(g.primary, g.backups);
    if seen.None? { return None; }
    if g.active == "" { g := g.(active := g.primary); }
    if g.active !in seen.value { return None; }
    if g.recoveryThreshold == 0 { g := g.(recoveryThreshold := 2); }
    if g.recoveryThreshold < 1 || g.recoveryThreshold > 100 { return None; }
    if g.probeInterval == 0 { g := g.(probeInterval := 300); }
    if g.probeInterval < 30 || g.probeInterval > 86400 { return None; }
    if g.failureThreshold == 0 { g := g.(failureThreshold := 3); }
    if g.cooldown == 0 { g := g.(cooldown := 300); }
    if g.failureThreshold < 1 || g.failureThreshold > 100 || g.cooldown < 0 || g.cooldown > 86400 { return None; }
    if g.maintenanceStartsAt.Some? && g.maintenanceUntil.None? { return None; }
    if g.maintenanceStartsAt.Some? && g.maintenanceUntil.value <= g.maintenanceStartsAt.value { return None; }
    return Some(g);
  }

  // ---------- the manager ----------

  lemma StepKeeps(s: State, step: Step)
    requires Safe(s) && Exclusive(s)
    ensures Safe(Next(s, step)) && Exclusive(Next(s, step))
  {
    NextSafe(s, step);
    NextExclusive(s, step);
  }

  class Manager {
    var groups: map<GroupId, Group>
    var jobs: map<JobId, Job>
    var running: set<GroupId>
    var threads: map<ThreadId, Thread>

    ghost function View(): State
      reads this
    {
      State(groups, jobs, running, threads)
    }

    /** What every interleaving keeps. */
    ghost predicate Valid()
      reads this
    {
      Safe(View()) && Exclusive(View())
    }

    constructor ()
      ensures Valid() && View() == State(map[], map[], {}, map[])
    {
      groups, jobs, running, threads := map[], map[], {}, map[];
    }

    // ---------- the store, the lock table and the jobs ----------

    /** `UpsertProviderGroup`: a write without advice keeps the advice of the stored row. */
    method Upsert(group: Group, ok: bool) returns (saved: bool)
      modifies this`groups
      ensures saved == Saved(old(View()), group, ok) && View() == Save(old(View()), group, ok)
    {
      hide Normalize;
      var n := NormalizeGroup(group);
      if !ok || n.None? { return false; }
      var g := n.value;
      if g.id in groups {
        if g.advice.None? { g := g.(advice := groups[g.id].advice); }
      } else if |groups| >= MAX_GROUPS {
        return false;
      }
      groups := groups[g.id := g];
      return true;
    }

    method Acquire(gid: GroupId) returns (taken: bool)
      modifies this`running
      ensures taken == (gid !in old(running)) && running == old(running) + {gid}
    {
      if gid in running { return false; }
      running := running + {gid};
      return true;
    }

    method ReleaseLock(gid: GroupId)
      modifies this`running
      ensures View() == Release(old(View()), gid)
    {
      running := running - {gid};
    }

    /** Starting a job: it may fail, and a new id is never one in use. */
    method StartJob(started: Option<JobId>, provider: ProviderId, source: Source, gid: GroupId) returns (ok: bool)
      modifies this`jobs
      ensures ok == (started.Some? && Fresh(old(View()), started.value))
      ensures View() == if ok then AddJob(old(View()), started.value, provider, source, gid) else old(View())
    {
      if started.None? || started.value == "" || started.value in jobs { return false; }
      jobs := jobs[started.value := Job(provider, source, Running, gid)];
      return true;
    }

    method Goto(t: ThreadId, thread: Thread)
      modifies this`threads
      ensures View() == Put(old(View()), t, thread)
    {
      threads := threads[t := thread];
    }

    method Exit(t: ThreadId)
      modifies this`threads
      ensures View() == Drop(old(View()), t)
    {
      threads := threads - {t};
    }

    /** Returns from a nested call to whatever the goroutine does next. */
    method Return(t: ThreadId, cont: Cont)
      modifies this`threads, this`running
      ensures View() == Resume(old(View()), t, cont)
    {
      match cont {
        case Finish => Exit(t);
        case ResumeEval(event, rest) => Goto(t, EvalLoop(event, rest));
        case Unlock(gid) =>
          Exit(t);
          ReleaseLock(gid);
        case UnlockAndResume(gid, event, rest) =>
          ReleaseLock(gid);
          Goto(t, EvalLoop(event, rest));
      }
    }

    // ---------- applying advice by hand ----------

    /** The rest of `ApplyProviderGroupAdvice` once the group has been read. */
    method ApplyCommit(t: ThreadId, now: Time, ok: bool) returns (answer: SwitchAnswer)
      requires Valid() && t in threads && threads[t].ApplyHolding?
      modifies this
      ensures Valid() && Switches(old(View()), View(), t, now, ok)
      ensures var held := old(threads)[t];
              Tells(old(View()), held.group, held.suggested, held.stamp, now, ok, answer)
      ensures View() == ApplyCommitStep(old(View()), t, now, ok)
    {
      hide Safe, Exclusive, Switches;
      StepKeeps(View(), Serves(t, Request.ApplyCommit(now, ok)));
      ApplySwitches(View(), t, now, ok);
      var ApplyHolding(g, suggested, stamp) := threads[t];
      Exit(t);
      ReleaseLock(g.id);
      if g.advice.Some? && g.advice.value.status == Applied && g.active == suggested
        && g.advice.value.suggested == suggested {
        return ServedBy(g.active, g.active);
      }
      if !g.enabled || g.mode != Advisory || g.advice.None? || g.advice.value.status != Open
         || g.advice.value.job == "" || g.advice.value.request == "" {
        return Unavailable;
      }
      if InMaintenance(g, now) { return InWindow; }
      if suggested == "" || suggested != g.advice.value.suggested || suggested !in g.backups { return Stale; }
      if g.advice.value.updatedAt != stamp { return Stale; }
      if g.active == "" { g := g.(active := g.primary); }
      var before := g.active;
      g := g.(active := suggested);
      g := g.(lastProbeAt := None, lastProbeStatus := "");
      g := g.(advice := Some(g.advice.value.(status := Applied, updatedAt := now)));
      assert g == Switched(old(threads)[t].group, suggested, now);
      FailoverStanding.SameRows(old(View()), View(), g, ok);
      var saved := Upsert(g, ok);
      return if saved then ServedBy(before, suggested) else NotStored;
    }

    // ---------- evaluating a failure ----------

    /** One round of the loop of `evaluateFailover`. */
    method EvaluateNext(t: ThreadId, now: Time, failures: int, ok: bool)
      requires Valid() && t in threads && threads[t].EvalLoop?
      modifies this
      ensures Valid() && Proceeds(old(View()), View(), t, now, failures)
      ensures View() == EvalNextStep(old(View()), t, now, failures, ok)
    {
      hide Safe, Exclusive, Proceeds;
      StepKeeps(View(), Evaluates(t, EvalNext(now, failures, ok)));
      EvalNextEvaluates(View(), t, now, failures, ok);
      var EvalLoop(event, rest) := threads[t];
      if rest == [] {
        Exit(t);
        return;
      }
      var g := rest[0];
      var next := EvalLoop(event, rest[1..]);
      hide InMaintenance, Saved, Stored;
      if g.advice.Some? && g.advice.value.status == Validating && g.advice.value.job == event.job {
        var a := g.advice.value.(updatedAt := now, request := event.request);
        a := a.(status := if event.status == "success" then Open else ValidationFailed);
        g := g.(advice := Some(a));
        var _ := Upsert(g, ok);
        if event.status == "success" && Activates(g, a.suggested, now) {
          Goto(t, Activating(g, a.suggested, ResumeEval(event, rest[1..])));
        } else {
          Goto(t, next);
        }
        return;
      }
      if !g.enabled || g.primary != event.provider || InMaintenance(g, now) {
        Goto(t, next);
        return;
      }
      if event.status == "success" {
        Goto(t, Recovering(g, ResumeEval(event, rest[1..])));
        return;
      }
      if event.status == "stopped" || event.status == "running"
         || (g.advice.Some? && g.advice.value.status == Open)
         || (g.advice.Some? && g.cooldown > 0 && now - g.advice.value.updatedAt < g.cooldown)
         || failures < g.failureThreshold {
        Goto(t, next);
        return;
      }
      var taken := Acquire(g.id);
      if taken {
        Goto(t, ValidateAt(g, 0, event, rest[1..]));
      } else {
        assert running == old(running);
        Goto(t, next);
      }
    }

    /** `validateFailoverGroup`: starting the next standby's job, or giving up behind the last one. */
    method ValidateNext(t: ThreadId, started: Option<JobId>, now: Time, ok: bool)
      requires Valid() && t in threads && threads[t].ValidateAt?
      modifies this
      ensures Valid() && TriesNext(old(View()), View(), t, started, now, ok)
      ensures View() == ValidateStartStep(old(View()), t, started, now, ok)
    {
      hide Safe, Exclusive, TriesNext;
      StepKeeps(View(), Evaluates(t, ValidateStart(started, now, ok)));
      ValidateStartTries(View(), t, started, now, ok);
      var ValidateAt(g, i, event, rest) := threads[t];
      hide Stored;
      if i >= |g.backups| {
        g := g.(advice := Some(Advice(ValidationFailed, "", "", "", now)));
        var _ := Upsert(g, ok);
        ReleaseLock(g.id);
        Goto(t, EvalLoop(event, rest));
        return;
      }
      var starts := StartJob(started, g.backups[i], ValidationSource, g.id);
      if starts {
        Goto(t, ValidateWait(g, i, started.value, event, rest));
      } else {
        Goto(t, ValidateAt(g, i + 1, event, rest));
      }
    }

    /** The wait for a standby's job is over. */
    method ValidateDone(t: ThreadId, seen: bool, request: string, now: Time, ok: bool)
      requires Valid() && t in threads && threads[t].ValidateWait?
      modifies this
      ensures Valid() && Advises(old(View()), View(), t, seen, request, now, ok)
      ensures View() == ValidateEndStep(old(View()), t, seen, request, now, ok)
    {
      hide Safe, Exclusive, Advises;
      StepKeeps(View(), Evaluates(t, ValidateEnd(seen, request, now, ok)));
      ValidateEndAdvises(View(), t, seen, request, now, ok);
      var ValidateWait(g, i, job, event, rest) := threads[t];
      hide Stored, InMaintenance;
      if !seen || job !in jobs || jobs[job].outcome != Succeeded || i >= |g.backups| {
        Goto(t, ValidateAt(g, i + 1, event, rest));
        return;
      }
      var p := g.backups[i];
      g := g.(advice := Some(Advice(Open, p, job, request, now)));
      var saved := Upsert(g, ok);
      if saved && Activates(g, p, now) {
        Goto(t, Activating(g, p, UnlockAndResume(g.id, event, rest)));
      } else {
        Return(t, UnlockAndResume(g.id, event, rest));
      }
    }

    /** The write of `activateAutomaticProviderGroup`. */
    method Activate(t: ThreadId, ok: bool)
      requires Valid() && t in threads && threads[t].Activating?
      modifies this
      ensures Valid() && SwitchesOver(old(View()), View(), t, ok)
      ensures View() == ActivateStep(old(View()), t, ok)
    {
      hide Safe, Exclusive, SwitchesOver;
      StepKeeps(View(), Evaluates(t, Evaluation.Activate(ok)));
      ActivateSwitchesOver(View(), t, ok);
      var Activating(g, p, cont) := threads[t];
      hide Saved, Stored;
      g := g.(active := p);
      var _ := Upsert(g, ok);
      Return(t, cont);
    }

    // ---------- evaluating a standby on request ----------

    /** `evaluateProviderGroup` and the start of `startProviderGroupEvaluation`. */
    method ManualStart(t: ThreadId, started: Option<JobId>, now: Time)
      requires Valid() && t in threads && threads[t].ManualHolding?
      modifies this
      ensures Valid() && StartsRequest(old(View()), View(), t, started, now)
      ensures View() == ManualStartStep(old(View()), t, started, now)
    {
      hide Safe, Exclusive, StartsRequest;
      ManualStartStarts(View(), t, started, now);
      StepKeeps(View(), Serves(t, Request.ManualStart(started, now)));
      var g := threads[t].group;
      if !g.enabled || g.primary == "" || |g.backups| == 0 || InMaintenance(g, now) {
        Exit(t);
        return;
      }
      var starts := StartJob(started, g.backups[0], ValidationSource, g.id);
      if starts { Goto(t, ManualStarted(g, started.value)); } else { Exit(t); }
    }

    /** The rest of `startProviderGroupEvaluation`. */
    method ManualSave(t: ThreadId, now: Time, ok: bool)
      requires Valid() && t in threads && threads[t].ManualStarted?
      modifies this
      ensures Valid() && Requests(old(View()), View(), t, now, ok)
      ensures View() == ManualSaveStep(old(View()), t, now, ok)
    {
      hide Safe, Exclusive, Requests;
      ManualStartedOk(View(), t);
      StepKeeps(View(), Serves(t, Request.ManualSave(now, ok)));
      ManualSaveRequests(View(), t, now, ok);
      var ManualStarted(g, job) := threads[t];
      hide Stored;
      g := g.(advice := Some(Advice(Validating, g.backups[0], job, "", now)));
      var saved := Upsert(g, ok);
      if saved { Goto(t, CompleteWait(g.id, job)); } else { Exit(t); }
    }

    /** `CompleteProviderGroupEvaluation` when its wait is over: the group is read afresh. */
    method CompleteRead(t: ThreadId, seen: bool, request: string, now: Time)
      requires Valid() && t in threads && threads[t].CompleteWait?
      modifies this
      ensures Valid() && Judges(old(View()), View(), t, seen, request, now)
      ensures View() == CompleteReadStep(old(View()), t, seen, request, now)
    {
      hide Safe, Exclusive, Judges;
      StepKeeps(View(), Serves(t, Request.CompleteRead(seen, request, now)));
      CompleteReadJudges(View(), t, seen, request, now);
      var CompleteWait(gid, job) := threads[t];
      if gid !in groups {
        Exit(t);
        return;
      }
      var g := groups[gid];
      if g.advice.None? || g.advice.value.job != job || g.advice.value.status != Validating {
        Exit(t);
        return;
      }
      var a := g.advice.value.(updatedAt := now, request := request);
      var success := seen && job in jobs && jobs[job].outcome == Succeeded;
      a := a.(status := if success then Open else ValidationFailed);
      Goto(t, CompleteHolding(g.(advice := Some(a)), success));
    }

    method CompleteWrite(t: ThreadId, now: Time, ok: bool)
      requires Valid() && t in threads && threads[t].CompleteHolding?
      modifies this
      ensures Valid() && Concludes(old(View()), View(), t, now, ok)
      ensures View() == CompleteWriteStep(old(View()), t, now, ok)
    {
      hide Safe, Exclusive, Concludes;
      StepKeeps(View(), Serves(t, Request.CompleteWrite(now, ok)));
      CompleteWriteConcludes(View(), t, now, ok);
      var CompleteHolding(g, success) := threads[t];
      hide Stored, InMaintenance;
      var saved := Upsert(g, ok);
      if success && saved && g.advice.Some? && Activates(g, g.advice.value.suggested, now) {
        Goto(t, Activating(g, g.advice.value.suggested, Finish));
      } else {
        Exit(t);
      }
    }

    // ---------- watching for recovery ----------

    /** `recoverFailoverAdvice` reads the group afresh and keeps the probe marks of the caller's copy. */
    method RecoverRead(t: ThreadId)
      requires Valid() && t in threads && threads[t].Recovering?
      modifies this
      ensures Valid() && Rereads(old(View()), View(), t)
      ensures View() == RecoverReadStep(old(View()), t)
    {
      hide Safe, Exclusive, Rereads;
      StepKeeps(View(), Watches(t, Recovery.RecoverRead));
      RecoverReadRereads(View(), t);
      var Recovering(g, cont) := threads[t];
      if g.id !in groups {
        Return(t, cont);
        return;
      }
      var latest := groups[g.id];
      if g.lastProbeStatus != "" {
        latest := latest.(lastProbeAt := g.lastProbeAt, lastProbeStatus := g.lastProbeStatus);
      }
      Goto(t, RecoverHolding(latest, cont));
    }

    method RecoverWrite(t: ThreadId, successes: int, now: Time, ok: bool)
      requires Valid() && t in threads && threads[t].RecoverHolding?
      modifies this
      ensures Valid() && Recovers(old(View()), View(), t, successes, now, ok)
      ensures View() == RecoverWriteStep(old(View()), t, successes, now, ok)
    {
      hide Safe, Exclusive, Recovers;
      StepKeeps(View(), Watches(t, Recovery.RecoverWrite(successes, now, ok)));
      RecoverWriteRecovers(View(), t, successes, now, ok);
      var RecoverHolding(g, cont) := threads[t];
      hide Saved, Stored;
      if g.advice.Some? && (g.advice.value.status == Open || g.advice.value.status == Applied) {
        var manualApplied := g.advice.value.status == Applied;
        var threshold := g.recoveryThreshold;
        if threshold < 1 { threshold := 2; }
        if successes >= threshold {
          g := g.(advice := Some(g.advice.value.(status := Recovered, updatedAt := now)));
          if (g.mode == Automatic || manualApplied) && g.active != g.primary { g := g.(active := g.primary); }
        }
      }
      assert g == RecoveredGroup(old(threads)[t].group, successes, now);
      hide RecoveredGroup;
      var _ := Upsert(g, ok);
      Return(t, cont);
    }

    /** One round of the loop of `reconcileProviderGroupRecovery`, up to its first write. */
    method ProbeNext(t: ThreadId, now: Time, ok: bool)
      requires Valid() && t in threads && threads[t].ProbeLoop?
      modifies this
      ensures Valid() && Schedules(old(View()), View(), t, now, ok)
      ensures View() == ProbeNextStep(old(View()), t, now, ok)
    {
      hide Safe, Exclusive, Schedules;
      StepKeeps(View(), Watches(t, Recovery.ProbeNext(now, ok)));
      ProbeNextSchedules(View(), t, now, ok);
      var rest := threads[t].rest;
      if rest == [] {
        Exit(t);
        return;
      }
      var g := rest[0];
      hide Stored, InMaintenance, AwaitsRecovery;
      var interval := g.probeInterval;
      if interval < 30 { interval := 300; }
      if !g.enabled || g.active == "" || !AwaitsRecovery(g) || InMaintenance(g, now)
         || (g.lastProbeAt.Some? && now - g.lastProbeAt.value < interval) {
        Goto(t, ProbeLoop(rest[1..]));
        return;
      }
      var taken := Acquire(g.id);
      if !taken {
        assert running == old(running);
        Goto(t, ProbeLoop(rest[1..]));
        return;
      }
      g := g.(lastProbeAt := Some(now), lastProbeStatus := "running");
      var saved := Upsert(g, ok);
      if !saved {
        ReleaseLock(g.id);
        assert running == old(running);
        Goto(t, ProbeLoop(rest[1..]));
        return;
      }
      Goto(t, ProbeMarked(g, rest[1..]));
    }

    /** The probe's job is started and handed, with the lock, to a goroutine of its own. */
    method ProbeStart(t: ThreadId, worker: ThreadId, started: Option<JobId>)
      requires Valid() && t in threads && threads[t].ProbeMarked?
      modifies this
      ensures Valid() && Probes(old(View()), View(), t, worker, started)
      ensures View() == ProbeStartStep(old(View()), t, worker, started)
    {
      hide Safe, Exclusive, Probes;
      StepKeeps(View(), Watches(t, Recovery.ProbeStart(worker, started)));
      ProbeStartProbes(View(), t, worker, started);
      var ProbeMarked(g, rest) := threads[t];
      var starts := StartJob(if worker in threads then None else started, g.primary, RecoverySource, g.id);
      if starts {
        Goto(t, ProbeLoop(rest));
        Goto(worker, ProbeWait(g.id, started.value));
      } else if g.id in groups {
        Goto(t, ProbeDeferring(g.id, groups[g.id], rest));
      } else {
        ReleaseLock(g.id);
        Goto(t, ProbeLoop(rest));
      }
    }

    method ProbeDefer(t: ThreadId, ok: bool)
      requires Valid() && t in threads && threads[t].ProbeDeferring?
      modifies this
      ensures Valid() && TakesBack(old(View()), View(), t, ok)
      ensures View() == ProbeDeferStep(old(View()), t, ok)
    {
      hide Safe, Exclusive, TakesBack;
      ProbeDeferTakesBack(View(), t, ok);
      StepKeeps(View(), Watches(t, Recovery.ProbeDefer(ok)));
      var ProbeDeferring(gid, g, rest) := threads[t];
      hide Saved, Stored;
      g := g.(lastProbeAt := None);
      g := g.(lastProbeStatus := "deferred");
      var _ := Upsert(g, ok);
      ReleaseLock(gid);
      Goto(t, ProbeLoop(rest));
    }

    /** `completeProviderGroupRecoveryProbe` when its wait is over. */
    method ProbeRead(t: ThreadId, seen: bool)
      requires Valid() && t in threads && threads[t].ProbeWait?
      modifies this
      ensures Valid() && Resumes(old(View()), View(), t, seen)
      ensures View() == ProbeReadStep(old(View()), t, seen)
    {
      hide Safe, Exclusive, Resumes;
      StepKeeps(View(), Watches(t, Recovery.ProbeRead(seen)));
      ProbeReadResumes(View(), t, seen);
      var ProbeWait(gid, job) := threads[t];
      if gid !in groups || !AwaitsRecovery(groups[gid]) {
        Exit(t);
        ReleaseLock(gid);
        return;
      }
      Goto(t, ProbeHolding(gid, groups[gid], seen && job in jobs && jobs[job].outcome == Succeeded));
    }

    method ProbeWrite(t: ThreadId, ok: bool)
      requires Valid() && t in threads && threads[t].ProbeHolding?
      modifies this
      ensures Valid() && Records(old(View()), View(), t, ok)
      ensures View() == ProbeWriteStep(old(View()), t, ok)
    {
      hide Safe, Exclusive, Records;
      StepKeeps(View(), Watches(t, Recovery.ProbeWrite(ok)));
      ProbeWriteRecords(View(), t, ok);
      var ProbeHolding(gid, g, success) := threads[t];
      hide Stored;
      if success {
        g := g.(lastProbeStatus := "success");
        var saved := Upsert(g, ok);
        if saved {
          Goto(t, Recovering(g, Unlock(gid)));
          return;
        }
      } else {
        g := g.(lastProbeStatus := "failed");
        var _ := Upsert(g, ok);
      }
      Exit(t);
      ReleaseLock(gid);
    }

    // ---------- entering the protocol, and what happens outside of it ----------

    method ListGroups(order: seq<GroupId>) returns (values: seq<Group>)
      ensures values == Snapshots(View(), order)
    {
      values := [];
      assert order[0..] == order;
      for i := 0 to |order|
        invariant Snapshots(View(), order) == values + Snapshots(View(), order[i..])
      {
        assert order[i..][1..] == order[i + 1..];
        if order[i] in groups { values := values + [groups[order[i]]]; }
      }
    }

    /** A goroutine begins with the copies that it reads. */
    method Enter(t: ThreadId, entry: Entry)
      requires t !in threads
      modifies this
      ensures View() == EntryStep(old(View()), t, entry) && Begins(old(View()), View(), t, entry)
    {
      EntryBegins(View(), t, entry);
      hide Begins;
      match entry {
        case ApplyBegin(gid, suggested, stamp) =>
          if gid in groups && gid !in running {
            var _ := Acquire(gid);
            Goto(t, ApplyHolding(groups[gid], suggested, stamp));
          }
        case EvalBegin(job, status, request, order) =>
          if job in jobs && jobs[job].provider != "" && jobs[job].source == OtherSource {
            var values := ListGroups(order);
            Goto(t, EvalLoop(Event(jobs[job].provider, job, status, request), values));
          }
        case ManualBegin(gid) => if gid in groups { Goto(t, ManualHolding(groups[gid])); }
        case ProbeBegin(order) =>
          var values := ListGroups(order);
          Goto(t, ProbeLoop(values));
        case EditBegin(gid) => if gid in groups { Goto(t, EditHolding(groups[gid])); }
      }
    }

    /** The write of a maintenance window. */
    method EditSave(t: ThreadId, startsAt: Option<Time>, until: Option<Time>, ok: bool)
      requires t in threads && threads[t].EditHolding?
      modifies this
      ensures View() == RequestStep(old(View()), t, Request.EditSave(startsAt, until, ok))
      ensures Edits(old(View()), View(), t, startsAt, until, ok)
    {
      EditSaveEdits(View(), t, startsAt, until, ok);
      hide Edits;
      var g := threads[t].group;
      hide Saved, Stored;
      var _ := Upsert(g.(maintenanceStartsAt := startsAt, maintenanceUntil := until), ok);
      Exit(t);
    }

    method Happen(o: Outside)
      modifies this
      ensures View() == OutsideStep(old(View()), o) && HappensOutside(old(View()), View(), o)
    {
      OutsideHappens(View(), o);
      hide HappensOutside;
      match o {
        case StartOther(job, provider) => var _ := StartJob(Some(job), provider, OtherSource, "");
        case EndJob(job, success) =>
          if job in jobs && jobs[job].outcome == Running {
            jobs := jobs[job := jobs[job].(outcome := if success then Succeeded else Failed)];
          }
        case DeleteGroup(gid) => groups := groups - {gid};
      }
    }

    // ---------- any interleaving ----------

    method Evaluate(t: ThreadId, e: Evaluation)
      requires Valid() && t in threads
      modifies this
      ensures View() == EvaluationStep(old(View()), t, e)
    {
      hide EvalNextStep, ValidateStartStep, ValidateEndStep, ActivateStep;
      var thread := threads[t];
      match e {
        case EvalNext(now, failures, ok) => if thread.EvalLoop? { EvaluateNext(t, now, failures, ok); }
        case ValidateStart(started, now, ok) => if thread.ValidateAt? { ValidateNext(t, started, now, ok); }
        case ValidateEnd(seen, request, now, ok) => if thread.ValidateWait? { ValidateDone(t, seen, request, now, ok); }
        case ValidateAbort =>
          if thread.ValidateAt? { Return(t, UnlockAndResume(thread.group.id, thread.event, thread.rest)); }
        case Activate(ok) => if thread.Activating? { Activate(t, ok); }
      }
    }

    method Serve(t: ThreadId, r: Request)
      requires Valid() && t in threads
      modifies this
      ensures View() == RequestStep(old(View()), t, r)
    {
      hide ApplyCommitStep, ManualStartStep, ManualSaveStep, CompleteReadStep, CompleteWriteStep;
      var thread := threads[t];
      match r {
        case ApplyCommit(now, ok) => if thread.ApplyHolding? { var _ := ApplyCommit(t, now, ok); }
        case ManualStart(started, now) => if thread.ManualHolding? { ManualStart(t, started, now); }
        case ManualSave(now, ok) => if thread.ManualStarted? { ManualSave(t, now, ok); }
        case CompleteRead(seen, request, now) => if thread.CompleteWait? { CompleteRead(t, seen, request, now); }
        case CompleteWrite(now, ok) => if thread.CompleteHolding? { CompleteWrite(t, now, ok); }
        case EditSave(startsAt, until, ok) => if thread.EditHolding? { EditSave(t, startsAt, until, ok); }
      }
    }

    method Watch(t: ThreadId, r: Recovery)
      requires Valid() && t in threads
      modifies this
      ensures View() == RecoveryStep(old(View()), t, r)
    {
      hide RecoverReadStep, RecoverWriteStep, ProbeNextStep, ProbeStartStep, ProbeDeferStep, ProbeReadStep,
        ProbeWriteStep;
      var thread := threads[t];
      match r {
        case RecoverRead => if thread.Recovering? { RecoverRead(t); }
        case RecoverWrite(successes, now, ok) => if thread.RecoverHolding? { RecoverWrite(t, successes, now, ok); }
        case ProbeNext(now, ok) => if thread.ProbeLoop? { ProbeNext(t, now, ok); }
        case ProbeStart(worker, started) => if thread.ProbeMarked? { ProbeStart(t, worker, started); }
        case ProbeDefer(ok) => if thread.ProbeDeferring? { ProbeDefer(t, ok); }
        case ProbeRead(seen) => if thread.ProbeWait? { ProbeRead(t, seen); }
        case ProbeWrite(ok) => if thread.ProbeHolding? { ProbeWrite(t, ok); }
      }
    }

    /** Any goroutine may take the next step: the state in place follows the protocol and keeps what
        every interleaving keeps. */
    method Take(step: Step)
      requires Valid()
      modifies this
      ensures Valid() && View() == Next(old(View()), step)
    {
      hide Safe, Exclusive;
      StepKeeps(View(), step);
      match step {
        case Happens(o) => Happen(o);
        case Enters(t, e) => if t !in threads { Enter(t, e); }
        case Evaluates(t, e) => if t in threads { Evaluate(t, e); }
        case Serves(t, r) =>
          if t in threads { Serve(t, r); }
        case Watches(t, r) => if t in threads { Watch(t, r); }
      }
    }
  }
}
