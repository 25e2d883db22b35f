/** What each piece of the failover code means for the stored groups, the jobs and the locks. */
module FailoverEffects {
  import opened Wrappers
  import opened Failover
  import opened FailoverSafety
  import opened FailoverLocks
  import opened FailoverStanding

  /** Only this group's row and these goroutines may differ, and jobs are only added. */
  ghost predicate Local(s: State, s': State, gid: GroupId, ts: set<ThreadId>) {
    && s'.groups - {gid} == s.groups - {gid}
    && s'.threads - ts == s.threads - ts
    && Extends(s.jobs, s'.jobs)
  }

  /** No row, job or lock differs. */
  predicate OnlyReads(s: State, s': State, t: ThreadId) {
    s'.groups == s.groups && s'.jobs == s.jobs && s'.running == s.running && s'.threads - {t} == s.threads - {t}
  }

  /** The locks after a goroutine has given back the one it had. */
  function LocksWithout(running: set<GroupId>, thread: Thread): set<GroupId> {
    if Lock(thread).Some? then running - {Lock(thread).value} else running
  }

  /** The row serves this provider and carries this advice. */
  predicate RowIs(s: State, gid: GroupId, active: ProviderId, advice: Advice) {
    gid in s.groups && s.groups[gid].active == active && s.groups[gid].advice == Some(advice)
  }

  /** What the goroutine does after a nested call: it ends, or goes on with its evaluation. */
  predicate ContinuesAs(threads: map<ThreadId, Thread>, t: ThreadId, cont: Cont) {
    match cont
    case Finish => t !in threads
    case ResumeEval(event, rest) => t in threads && threads[t] == EvalLoop(event, rest)
    case Unlock(_) => t !in threads
    case UnlockAndResume(_, event, rest) => t in threads && threads[t] == EvalLoop(event, rest)
  }

  /** A standby serves the group on advice that stands. */
  predicate OnStandby(g: Group) {
    && g.active != g.primary && g.advice.Some?
    && (g.advice.value.status == Applied || (g.advice.value.status == Open && g.mode == Automatic))
  }

  lemma SaveIsLocal(s: State, w: Group, ok: bool)
    ensures var s' := Save(s, w, ok);
            && s'.groups - {w.id} == s.groups - {w.id}
            && s'.threads == s.threads && s'.jobs == s.jobs && s'.running == s.running
            && (!Saved(s, w, ok) ==> s' == s)
            && (Saved(s, w, ok) && w.advice.Some? ==> RowIs(s', w.id, Serving(w), w.advice.value))
            && (Saved(s, w, ok) ==>
                  && w.id in s'.groups && s'.groups[w.id].active == Serving(w)
                  && s'.groups[w.id].lastProbeStatus == w.lastProbeStatus
                  && s'.groups[w.id].lastProbeAt == w.lastProbeAt)
  {
  }

  /** One goroutine writes a group and goes on, or ends. */
  lemma WriteIsLocal(s: State, w: Group, ok: bool, s': State, t: ThreadId)
    requires s'.groups == Save(s, w, ok).groups && s'.jobs == s.jobs
    requires s'.threads == s.threads - {t} || (t in s'.threads && s'.threads == s.threads[t := s'.threads[t]])
    ensures Local(s, s', w.id, {t})
  {
    SaveIsLocal(s, w, ok);
    ExtendsItself(s.jobs);
    hide Save, Saved, RowIs, Extends;
  }

  lemma ExtendsItself(jobs: map<JobId, Job>)
    ensures Extends(jobs, jobs)
  {
  }

  // ---------- a switch by hand ----------

  /** The copy passes every check of a switch by hand: enabled, on manual approval, outside maintenance,
      with open advice of a validation that is on record, for the suggested backup and unchanged since
      the operator saw it. */
  predicate PassesChecks(g: Group, suggested: ProviderId, stamp: Time, now: Time) {
    && g.enabled && g.mode != Automatic && !InMaintenance(g, now)
    && suggested != "" && suggested in g.backups
    && g.advice.Some?
    && var a := g.advice.value;
       a == Advice(Open, suggested, a.job, a.request, stamp) && a.job != "" && a.request != ""
  }

  /** A switch happens exactly when the held copy passes every check and the write is accepted; then
      the row serves a standby that a job of this very group has validated, which the advice names.
      The lock is given back in any case. */
  ghost predicate Switches(s: State, s': State, t: ThreadId, now: Time, ok: bool)
    requires t in s.threads && s.threads[t].ApplyHolding?
  {
    var ApplyHolding(g, suggested, stamp) := s.threads[t];
    && Local(s, s', g.id, {t}) && t !in s'.threads && s'.jobs == s.jobs && s'.running == s.running - {g.id}
    && if PassesChecks(g, suggested, stamp, now) && Saved(s, Switched(g, suggested, now), ok)
       then RowIs(s', g.id, suggested, Advice(Applied, suggested, g.advice.value.job, g.advice.value.request, now))
            && s'.groups[g.id].lastProbeStatus == "" && s'.groups[g.id].lastProbeAt == None
            && ValidatedBy(s.jobs, g.id, suggested, g.advice.value.job)
       else s'.groups == s.groups
  }

  /** The group switched to the suggested provider: its advice is applied, and nothing is probed yet. */
  function Switched(g: Group, suggested: ProviderId, now: Time): Group
    requires g.advice.Some?
  {
    g.(active := suggested, lastProbeAt := None, lastProbeStatus := "",
       advice := Some(Advice(Applied, suggested, g.advice.value.job, g.advice.value.request, now)))
  }

  /** What the operator is told of a switch: the provider before and after, or why there is none. */
  datatype SwitchAnswer = ServedBy(before: ProviderId, after: ProviderId) | Unavailable | InWindow | Stale | NotStored

  /** The copy has been switched to this provider before. */
  predicate SwitchedAlready(g: Group, suggested: ProviderId) {
    g.active == suggested && g.advice.Some? && (g.advice.value.status, g.advice.value.suggested) == (Applied, suggested)
  }

  /** The copy is one that may be switched by hand at all. */
  predicate AwaitsOperator(g: Group) {
    && g.enabled && g.mode == Advisory && g.advice.Some? && g.advice.value.status == Open
    && "" !in {g.advice.value.job, g.advice.value.request}
  }

  /** The operator is told of a switch exactly when it happens, and that nothing changed exactly when it had
      happened before; of refusals, that no advice is available comes before maintenance, and that before
      advice that is not the one the operator saw. */
  predicate Tells(s: State, g: Group, suggested: ProviderId, stamp: Time, now: Time, ok: bool, answer: SwitchAnswer) {
    var switches := PassesChecks(g, suggested, stamp, now);
    var stored := switches && Saved(s, Switched(g, suggested, now), ok);
    && (stored ==> answer == ServedBy(if g.active == "" then g.primary else g.active, suggested))
    && (SwitchedAlready(g, suggested) ==> answer == ServedBy(suggested, suggested))
    && (answer.ServedBy? ==> stored || SwitchedAlready(g, suggested))
    && (answer == NotStored <==> switches && !stored)
    && (answer == Unavailable <==> !SwitchedAlready(g, suggested) && !AwaitsOperator(g))
    && (answer == InWindow <==> AwaitsOperator(g) && InMaintenance(g, now))
  }

  lemma ApplySwitches(s: State, t: ThreadId, now: Time, ok: bool)
    requires Safe(s) && t in s.threads && s.threads[t].ApplyHolding?
    ensures Switches(s, ApplyCommitStep(s, t, now, ok), t, now, ok)
  {
    var ApplyHolding(g, suggested, stamp) := s.threads[t];
    HeldOk(s, t, 0);
    var done := Release(Drop(s, t), g.id);
    assert MayApply(g, suggested, stamp, now) <==> PassesChecks(g, suggested, stamp, now);
    hide Safe, InMaintenance, Save, Saved;
    if MayApply(g, suggested, stamp, now) {
      assert AppliedGroup(g, suggested, now) == Switched(g, suggested, now);
      SaveIsLocal(done, AppliedGroup(g, suggested, now), ok);
      SameRows(s, done, AppliedGroup(g, suggested, now), ok);
    }
  }

  // ---------- evaluating a failure ----------

  /** The event concerns the group: it is enabled, outside maintenance, and its primary has ended. */
  predicate Concerned(g: Group, event: Event, now: Time) {
    g.enabled && g.primary == event.provider && !InMaintenance(g, now)
  }

  /** The failure asks for a standby: the primary has failed often enough, no advice is open, none is
      younger than the cooldown, if there is one, and nobody else works on the group. */
  predicate NeedsStandby(g: Group, event: Event, failures: int, running: set<GroupId>, now: Time) {
    && event.status !in {"success", "stopped", "running"}
    && failures >= g.failureThreshold && g.id !in running
    && (g.advice.Some? ==>
          g.advice.value.status != Open && (g.cooldown <= 0 || now >= g.advice.value.updatedAt + g.cooldown))
  }

  /** A round of the evaluation writes nothing. Exactly when the failure concerns the group and asks for
      a standby, the lock is taken and validation begins with the first one; exactly when a success
      concerns it, recovery is watched; otherwise the next group is up, or the evaluation ends. */
  predicate Proceeds(s: State, s': State, t: ThreadId, now: Time, failures: int)
    requires t in s.threads && s.threads[t].EvalLoop?
  {
    var EvalLoop(event, rest) := s.threads[t];
    && s'.groups == s.groups && s'.jobs == s.jobs && s'.threads - {t} == s.threads - {t}
    && (t !in s'.threads <==> rest == [])
    && if rest == [] then s'.running == s.running
       else
         var g, later := rest[0], rest[1..];
         var begins := Concerned(g, event, now) && NeedsStandby(g, event, failures, s.running, now);
         && s'.running == (if begins then s.running + {g.id} else s.running)
         && (s'.threads[t] == ValidateAt(g, 0, event, later) <==> begins)
         && (s'.threads[t] == Recovering(g, ResumeEval(event, later))
             <==> Concerned(g, event, now) && event.status == "success")
         && (s'.threads[t].ValidateAt? || s'.threads[t].Recovering? || s'.threads[t] == EvalLoop(event, later))
  }

  lemma EvalNextEvaluates(s: State, t: ThreadId, now: Time, failures: int, ok: bool)
    requires Safe(s) && t in s.threads && s.threads[t].EvalLoop?
    ensures Proceeds(s, EvalNextStep(s, t, now, failures, ok), t, now, failures)
  {
    if s.threads[t].rest != [] { ValidatingBranchUnreachable(s, t); }
    hide Safe, InMaintenance, Save, Activates;
  }

  /** Starting the next standby adds the one job that validates it for this group, if it starts; then
      its end is awaited, and otherwise the one after it is up. Behind the last one the lock is given
      back, and what is written says that none passed. */
  predicate TriesNext(s: State, s': State, t: ThreadId, started: Option<JobId>, now: Time, ok: bool)
    requires t in s.threads && s.threads[t].ValidateAt?
  {
    var ValidateAt(g, i, event, rest) := s.threads[t];
    && s'.groups - {g.id} == s.groups - {g.id} && s'.threads - {t} == s.threads - {t} && t in s'.threads
    && if i < |g.backups| then
         && s'.groups == s.groups && s'.running == s.running
         && if started.Some? && started.value != "" && started.value !in s.jobs
            then s'.jobs == s.jobs[started.value := Job(g.backups[i], ValidationSource, Running, g.id)]
                 && s'.threads[t] == ValidateWait(g, i, started.value, event, rest)
            else s'.jobs == s.jobs && s'.threads[t] == ValidateAt(g, i + 1, event, rest)
       else
         && s'.jobs == s.jobs && s'.running == s.running - {g.id} && s'.threads[t] == EvalLoop(event, rest)
         && var failed := Advice(ValidationFailed, "", "", "", now);
            if Saved(s, g.(advice := Some(failed)), ok) then RowIs(s', g.id, Serving(g), failed)
            else s'.groups == s.groups
  }

  lemma ValidateStartTries(s: State, t: ThreadId, started: Option<JobId>, now: Time, ok: bool)
    requires t in s.threads && s.threads[t].ValidateAt?
    ensures TriesNext(s, ValidateStartStep(s, t, started, now, ok), t, started, now, ok)
  {
    var ValidateAt(g, i, event, rest) := s.threads[t];
    if i >= |g.backups| { NoneLeft(s, t, started, now, ok); }
    hide Save, Saved;
  }

  lemma RowHas(s: State, gid: GroupId)
    ensures forall p, a :: RowIs(s, gid, p, a) ==>
              gid in s.groups && s.groups[gid].active == p && s.groups[gid].advice == Some(a)
  {
  }

  lemma NoneLeft(s: State, t: ThreadId, started: Option<JobId>, now: Time, ok: bool)
    requires t in s.threads && s.threads[t].ValidateAt? && s.threads[t].index >= |s.threads[t].group.backups|
    ensures TriesNext(s, ValidateStartStep(s, t, started, now, ok), t, started, now, ok)
  {
    var ValidateAt(g, i, event, rest) := s.threads[t];
    var failed := g.(advice := Some(Advice(ValidationFailed, "", "", "", now)));
    hide Save, Saved, Local, RowIs, Serving, Extends;
    SaveIsLocal(s, failed, ok);
    ServingOf(g);
    WriteIsLocal(s, failed, ok, ValidateStartStep(s, t, started, now, ok), t);
    RowHas(Save(s, failed, ok), g.id);
  }

  /** If the job was not seen to succeed, the next standby is up. If it was, it has validated the
      standby for this group: advice for it is written, beside the active provider of the copy, and a
      stored one leads to the switch exactly when the group switches on its own, is outside maintenance
      and does not serve it already. Otherwise the lock is given back. */
  ghost predicate Advises(s: State, s': State, t: ThreadId, seen: bool, request: string, now: Time, ok: bool)
    requires t in s.threads && s.threads[t].ValidateWait?
  {
    var ValidateWait(g, i, job, event, rest) := s.threads[t];
    && Local(s, s', g.id, {t}) && s'.jobs == s.jobs && t in s'.threads
    && if seen && job in s.jobs && s.jobs[job].outcome == Succeeded then
         && i < |g.backups| && ValidatedBy(s.jobs, g.id, g.backups[i], job)
         && var advice := Advice(Open, g.backups[i], job, request, now);
            var stored := Saved(s, g.(advice := Some(advice)), ok);
            var switches := stored && g.mode == Automatic && !InMaintenance(g, now)
                            && g.backups[i] != "" && g.backups[i] != g.active;
            && (if stored then RowIs(s', g.id, Serving(g), advice) else s'.groups == s.groups)
            && s'.running == (if switches then s.running else s.running - {g.id})
            && s'.threads[t] == if switches
                                then Activating(g.(advice := Some(advice)), g.backups[i],
                                                UnlockAndResume(g.id, event, rest))
                                else EvalLoop(event, rest)
       else s'.groups == s.groups && s'.running == s.running && s'.threads[t] == ValidateAt(g, i + 1, event, rest)
  }

  lemma ValidateEndAdvises(s: State, t: ThreadId, seen: bool, request: string, now: Time, ok: bool)
    requires Safe(s) && t in s.threads && s.threads[t].ValidateWait?
    ensures Advises(s, ValidateEndStep(s, t, seen, request, now, ok), t, seen, request, now, ok)
  {
    var ValidateWait(g, i, job, event, rest) := s.threads[t];
    ValidateWaitOk(s, t);
    var s' := ValidateEndStep(s, t, seen, request, now, ok);
    var advised := g.(advice := Some(Advice(Open, g.backups[i], job, request, now)));
    MaintenanceOf(g);
    hide Safe, Save, Saved, InMaintenance, Local, RowIs, Serving, Extends, Validates;
    SaveIsLocal(s, advised, ok);
    ServingOf(g);
    if SeenSuccess(s, job, seen) {
      WriteIsLocal(s, advised, ok, s', t);
    } else {
      GoOnIsLocal(s, s', g.id, t);
    }
  }

  lemma MaintenanceOf(g: Group)
    ensures forall a, now :: InMaintenance(g.(advice := a), now) == InMaintenance(g, now)
  {
  }

  lemma ValidateWaitOk(s: State, t: ThreadId)
    requires Safe(s) && t in s.threads && s.threads[t].ValidateWait?
    ensures var ValidateWait(g, i, job, event, rest) := s.threads[t];
            i < |g.backups| && Validates(s.jobs, g.id, g.backups[i], job)
            && (s.jobs[job].outcome == Succeeded ==> ValidatedBy(s.jobs, g.id, g.backups[i], job))
  {
    assert ThreadOk(s.jobs, s.threads[t]);
  }

  lemma GoOnIsLocal(s: State, s': State, gid: GroupId, t: ThreadId)
    requires s'.groups == s.groups && s'.jobs == s.jobs && t in s'.threads
             && s'.threads == s.threads[t := s'.threads[t]]
    ensures Local(s, s', gid, {t})
  {
    ExtendsItself(s.jobs);
    hide Extends;
  }

  /** An accepted automatic switch makes a standby active that a job of this group has validated;
      otherwise nothing is written. The goroutine gives back the lock it may have. */
  ghost predicate SwitchesOver(s: State, s': State, t: ThreadId, ok: bool)
    requires t in s.threads && s.threads[t].Activating?
  {
    var Activating(g, p, cont) := s.threads[t];
    && Local(s, s', g.id, {t}) && s'.jobs == s.jobs && s'.running == LocksWithout(s.running, s.threads[t])
    && Validated(s.jobs, g.id, p)
    && (if Saved(s, g.(active := p), ok) then g.id in s'.groups && s'.groups[g.id].active == Serving(g.(active := p))
        else s'.groups == s.groups)
    && ContinuesAs(s'.threads, t, cont)
  }

  lemma ActivateSwitchesOver(s: State, t: ThreadId, ok: bool)
    requires Safe(s) && t in s.threads && s.threads[t].Activating?
    ensures SwitchesOver(s, ActivateStep(s, t, ok), t, ok)
  {
    var Activating(g, p, cont) := s.threads[t];
    assert ThreadOk(s.jobs, s.threads[t]);
    hide Safe, Save, Saved, Validated, Resume, Extends, RowIs, Local, ThreadOk;
    SaveIsLocal(s, g.(active := p), ok);
    ResumeIs(Save(s, g.(active := p), ok), t, cont);
    WriteIsLocal(s, g.(active := p), ok, ActivateStep(s, t, ok), t);
  }

  lemma ResumeIs(s: State, t: ThreadId, cont: Cont)
    ensures var s' := Resume(s, t, cont);
            && s'.groups == s.groups && s'.jobs == s.jobs && s'.threads - {t} == s.threads - {t}
            && (s'.threads == s.threads - {t} || (t in s'.threads && s'.threads == s.threads[t := s'.threads[t]]))
            && s'.running == (if ContLock(cont).Some? then s.running - {ContLock(cont).value} else s.running)
            && ContinuesAs(s'.threads, t, cont)
  {
  }

  // ---------- evaluating a standby on request ----------

  /** The first backup's job is started exactly for an enabled group outside maintenance, if it starts at
      all; otherwise the request is over. Nothing is written. */
  predicate StartsRequest(s: State, s': State, t: ThreadId, started: Option<JobId>, now: Time)
    requires t in s.threads && s.threads[t].ManualHolding?
  {
    var g := s.threads[t].group;
    && s'.groups == s.groups && s'.running == s.running && s'.threads - {t} == s.threads - {t}
    && if g.enabled && g.primary != "" && g.backups != [] && !InMaintenance(g, now)
          && started.Some? && started.value != "" && started.value !in s.jobs
       then s'.jobs == s.jobs[started.value := Job(g.backups[0], ValidationSource, Running, g.id)]
            && t in s'.threads && s'.threads[t] == ManualStarted(g, started.value)
       else s'.jobs == s.jobs && t !in s'.threads
  }

  lemma ManualStartStarts(s: State, t: ThreadId, started: Option<JobId>, now: Time)
    requires t in s.threads && s.threads[t].ManualHolding?
    ensures StartsRequest(s, ManualStartStep(s, t, started, now), t, started, now)
  {
    hide InMaintenance;
  }

  /** Storing the request writes advice that names the standby this group's job validates, beside
      the active provider of the copy; the goroutine goes on exactly when it was stored. */
  ghost predicate Requests(s: State, s': State, t: ThreadId, now: Time, ok: bool)
    requires t in s.threads && s.threads[t].ManualStarted?
  {
    var ManualStarted(g, job) := s.threads[t];
    && Local(s, s', g.id, {t}) && s'.jobs == s.jobs && s'.running == s.running
    && g.backups != [] && Validates(s.jobs, g.id, g.backups[0], job)
    && (t in s'.threads <==> Saved(s, g.(advice := Some(Advice(Validating, g.backups[0], job, "", now))), ok))
    && (t in s'.threads ==>
          && s'.threads[t] == CompleteWait(g.id, job)
          && RowIs(s', g.id, Serving(g), Advice(Validating, g.backups[0], job, "", now)))
    && (t !in s'.threads ==> s'.groups == s.groups)
  }

  lemma ManualSaveRequests(s: State, t: ThreadId, now: Time, ok: bool)
    requires Safe(s) && t in s.threads && s.threads[t].ManualStarted?
    ensures Requests(s, ManualSaveStep(s, t, now, ok), t, now, ok)
  {
    var ManualStarted(g, job) := s.threads[t];
    ManualStartedOk(s, t);
    var w := g.(advice := Some(Advice(Validating, g.backups[0], job, "", now)));
    hide Safe, Save, Saved, Extends, RowIs, Validates, Serving, Local;
    SaveIsLocal(s, w, ok);
    WriteIsLocal(s, w, ok, ManualSaveStep(s, t, now, ok), t);
    ServingOf(g);
  }

  lemma ManualStartedOk(s: State, t: ThreadId)
    requires Safe(s) && t in s.threads && s.threads[t].ManualStarted?
    ensures var ManualStarted(g, job) := s.threads[t]; g.backups != [] && Validates(s.jobs, g.id, g.backups[0], job)
  {
    assert ThreadOk(s.jobs, s.threads[t]);
  }

  lemma ServingOf(g: Group)
    ensures forall a :: Serving(g.(advice := a)) == Serving(g)
    ensures forall at, status :: Serving(g.(lastProbeAt := at, lastProbeStatus := status)) == Serving(g)
    ensures forall status :: Serving(g.(lastProbeStatus := status)) == Serving(g)
  {
  }

  /** The result is judged on the row as it is now, and only while its advice still waits for this
      very job: with a success seen, the suggested standby is validated. */
  predicate Judges(s: State, s': State, t: ThreadId, seen: bool, request: string, now: Time)
    requires t in s.threads && s.threads[t].CompleteWait?
  {
    var CompleteWait(gid, job) := s.threads[t];
    && OnlyReads(s, s', t)
    && (t in s'.threads <==> gid in s.groups && s.groups[gid].advice.Some?
                             && s.groups[gid].advice.value.job == job
                             && s.groups[gid].advice.value.status == Validating)
    && (t in s'.threads ==>
          && s'.threads[t].CompleteHolding?
          && var copy := s'.threads[t].group;
             && copy == s.groups[gid].(advice := copy.advice) && copy.advice.Some?
             && copy.advice.value == Advice(if s'.threads[t].succeeded then Open else ValidationFailed,
                                            s.groups[gid].advice.value.suggested, job, request, now)
             && (s'.threads[t].succeeded <==> seen && ValidatedBy(s.jobs, gid, copy.advice.value.suggested, job)))
  }

  lemma CompleteReadJudges(s: State, t: ThreadId, seen: bool, request: string, now: Time)
    requires Safe(s) && t in s.threads && s.threads[t].CompleteWait?
    ensures Judges(s, CompleteReadStep(s, t, seen, request, now), t, seen, request, now)
  {
    if s.threads[t].gid in s.groups { StoredOk(s, s.threads[t].gid); }
    assert s.threads[t].gid in s.groups ==> s.groups[s.threads[t].gid].id == s.threads[t].gid;
    hide Safe;
  }

  /** The judged copy is written as it is or not at all; a switch follows only on a stored success. */
  ghost predicate Concludes(s: State, s': State, t: ThreadId, now: Time, ok: bool)
    requires t in s.threads && s.threads[t].CompleteHolding?
  {
    var CompleteHolding(g, succeeded) := s.threads[t];
    && Local(s, s', g.id, {t}) && s'.jobs == s.jobs && s'.running == s.running && g.advice.Some?
    && (if Saved(s, g, ok) then RowIs(s', g.id, Serving(g), g.advice.value) else s'.groups == s.groups)
    && (t in s'.threads <==>
          && succeeded && Saved(s, g, ok) && g.mode == Automatic && !InMaintenance(g, now)
          && g.advice.value.suggested != "" && g.advice.value.suggested != g.active)
    && (t in s'.threads ==>
          && ValidatedBy(s.jobs, g.id, g.advice.value.suggested, g.advice.value.job)
          && s'.threads[t] == Activating(g, g.advice.value.suggested, Finish))
  }

  lemma CompleteWriteConcludes(s: State, t: ThreadId, now: Time, ok: bool)
    requires Safe(s) && t in s.threads && s.threads[t].CompleteHolding?
    ensures Concludes(s, CompleteWriteStep(s, t, now, ok), t, now, ok)
  {
    var CompleteHolding(g, succeeded) := s.threads[t];
    CompleteHoldingOk(s, t);
    hide Safe, Save, Saved, InMaintenance, ValidatedBy, Extends, RowIs, Serving, Local;
    SaveIsLocal(s, g, ok);
    WriteIsLocal(s, g, ok, CompleteWriteStep(s, t, now, ok), t);
  }

  lemma CompleteHoldingOk(s: State, t: ThreadId)
    requires Safe(s) && t in s.threads && s.threads[t].CompleteHolding?
    ensures var CompleteHolding(g, succeeded) := s.threads[t];
            && g.advice.Some?
            && (succeeded ==> ValidatedBy(s.jobs, g.id, g.advice.value.suggested, g.advice.value.job))
  {
    assert ThreadOk(s.jobs, s.threads[t]);
    HeldOk(s, t, 0);
  }

  // ---------- watching for recovery ----------

  /** What is written later is the row as it is now, with at most its probe marks from the older
      copy; without a row there is nothing to do, and the lock is given back. */
  predicate Rereads(s: State, s': State, t: ThreadId)
    requires t in s.threads && s.threads[t].Recovering?
  {
    var Recovering(g, cont) := s.threads[t];
    && s'.groups == s.groups && s'.jobs == s.jobs && s'.threads - {t} == s.threads - {t}
    && if g.id in s.groups then
         && s'.running == s.running && t in s'.threads && s'.threads[t].RecoverHolding? && s'.threads[t].cont == cont
         && var copy, latest := s'.threads[t].group, s.groups[g.id];
            && copy == latest.(lastProbeAt := copy.lastProbeAt, lastProbeStatus := copy.lastProbeStatus)
            && (copy.lastProbeAt, copy.lastProbeStatus)
               == if g.lastProbeStatus == "" then (latest.lastProbeAt, latest.lastProbeStatus)
                  else (g.lastProbeAt, g.lastProbeStatus)
       else s'.running == LocksWithout(s.running, s.threads[t]) && ContinuesAs(s'.threads, t, cont)
  }

  lemma RecoverReadRereads(s: State, t: ThreadId)
    requires t in s.threads && s.threads[t].Recovering?
    ensures Rereads(s, RecoverReadStep(s, t), t)
  {
    ResumeIs(s, t, s.threads[t].cont);
  }

  /** Advice that stands may be closed: the primary has succeeded often enough in a row. */
  predicate Closes(g: Group, successes: int): (closes: bool)
    ensures closes ==> g.advice.Some?
  {
    && g.advice.Some? && g.advice.value.status in {Open, Applied}
    && successes >= if g.recoveryThreshold >= 1 then g.recoveryThreshold else 2
  }

  /** The group with its advice closed: back on its primary if it switches on its own or was switched by
      hand. */
  function BackOnPrimary(g: Group, now: Time): Group
    requires g.advice.Some?
  {
    g.(active := if g.mode == Automatic || g.advice.value.status == Applied then g.primary else g.active,
       advice := Some(g.advice.value.(status := Recovered, updatedAt := now)))
  }

  /** The group goes back to its primary exactly when advice that stands may be closed and the group
      switches on its own or was switched by hand; then the advice is closed with it. */
  ghost predicate Recovers(s: State, s': State, t: ThreadId, successes: int, now: Time, ok: bool)
    requires t in s.threads && s.threads[t].RecoverHolding?
  {
    var RecoverHolding(g, cont) := s.threads[t];
    var w := if Closes(g, successes) then BackOnPrimary(g, now) else g;
    && Local(s, s', g.id, {t}) && s'.jobs == s.jobs && s'.running == LocksWithout(s.running, s.threads[t])
    && ContinuesAs(s'.threads, t, cont)
    && (!Saved(s, w, ok) ==> s'.groups == s.groups)
    && (Saved(s, w, ok) ==> g.id in s'.groups && s'.groups[g.id].active == Serving(w))
    && (Saved(s, w, ok) && Closes(g, successes) ==> RowIs(s', g.id, Serving(w), w.advice.value))
    && (Closes(g, successes) ==>
          w.active == if g.mode == Automatic || g.advice.value.status == Applied then g.primary else g.active)
  }

  lemma RecoveredIs(g: Group, successes: int, now: Time)
    ensures RecoveredGroup(g, successes, now) == if Closes(g, successes) then BackOnPrimary(g, now) else g
  {
  }

  lemma LocksAre(running: set<GroupId>, thread: Thread)
    requires thread.RecoverHolding?
    ensures LocksWithout(running, thread)
            == if ContLock(thread.cont).Some? then running - {ContLock(thread.cont).value} else running
  {
  }

  lemma RecoverWriteRecovers(s: State, t: ThreadId, successes: int, now: Time, ok: bool)
    requires t in s.threads && s.threads[t].RecoverHolding?
    ensures Recovers(s, RecoverWriteStep(s, t, successes, now, ok), t, successes, now, ok)
  {
    hide Save, Saved, Resume, RecoveredGroup, Closes, Serving, Extends, Local, ContinuesAs, LocksWithout;
    var RecoverHolding(g, cont) := s.threads[t];
    var w := RecoveredGroup(g, successes, now);
    RecoveredIs(g, successes, now);
    LocksAre(s.running, s.threads[t]);
    SaveIsLocal(s, w, ok);
    ResumeIs(Save(s, w, ok), t, cont);
    WriteIsLocal(s, w, ok, RecoverWriteStep(s, t, successes, now, ok), t);
  }

  /** The group marked as probed now. */
  function ProbedNow(g: Group, now: Time): Group {
    g.(lastProbeAt := Some(now), lastProbeStatus := "running")
  }

  /** The group is due for a probe of its primary: enabled, served by a standby on standing advice,
      outside maintenance, not probed within its interval, and with nobody working on it. */
  predicate DueForProbe(g: Group, running: set<GroupId>, now: Time) {
    && g.enabled && g.active != "" && OnStandby(g) && !InMaintenance(g, now) && g.id !in running
    && (g.lastProbeAt.None? || now >= g.lastProbeAt.value + if g.probeInterval >= 30 then g.probeInterval else 300)
  }

  /** A probe is begun exactly when the group is due and the mark is accepted; only then is the lock
      taken. The active provider is that of the copy. */
  ghost predicate Schedules(s: State, s': State, t: ThreadId, now: Time, ok: bool)
    requires t in s.threads && s.threads[t].ProbeLoop?
  {
    var rest := s.threads[t].rest;
    && s'.jobs == s.jobs && s'.threads - {t} == s.threads - {t} && (t !in s'.threads <==> rest == [])
    && if rest != [] && DueForProbe(rest[0], s.running, now) && Saved(s, ProbedNow(rest[0], now), ok) then
         var g := rest[0];
         && Local(s, s', g.id, {t}) && s'.running == s.running + {g.id}
         && g.id in s'.groups && s'.groups[g.id].active == Serving(g) && s'.groups[g.id].lastProbeStatus == "running"
         && s'.groups[g.id].lastProbeAt == Some(now)
         && s'.threads[t] == ProbeMarked(ProbedNow(g, now), rest[1..])
       else s'.groups == s.groups && s'.running == s.running && (rest != [] ==> s'.threads[t] == ProbeLoop(rest[1..]))
  }

  lemma DueIff(g: Group, running: set<GroupId>, now: Time)
    ensures ProbeDue(g, running, now) <==> DueForProbe(g, running, now)
  {
    hide InMaintenance;
  }

  lemma ProbeNextSchedules(s: State, t: ThreadId, now: Time, ok: bool)
    requires t in s.threads && s.threads[t].ProbeLoop?
    ensures Schedules(s, ProbeNextStep(s, t, now, ok), t, now, ok)
  {
    var rest := s.threads[t].rest;
    if rest != [] { DueIff(rest[0], s.running, now); }
    hide Save, Saved, InMaintenance, AwaitsRecovery, Extends, RowIs, DueForProbe;
    if rest != [] && ProbeDue(rest[0], s.running, now) { DueSchedules(s, t, rest[0], rest[1..], now, ok); }
  }

  lemma DueSchedules(s: State, t: ThreadId, g: Group, rest: seq<Group>, now: Time, ok: bool)
    requires t in s.threads && s.threads[t] == ProbeLoop([g] + rest) && ProbeDue(g, s.running, now)
    ensures Schedules(s, ProbeNextStep(s, t, now, ok), t, now, ok)
  {
    var marked := ProbedNow(g, now);
    var locked := s.(running := s.running + {g.id});
    DueIff(g, s.running, now);
    hide DueForProbe, Save, Saved, InMaintenance, AwaitsRecovery, Extends, RowIs;
    SaveIsLocal(locked, marked, ok);
    SameRows(s, locked, marked, ok);
    ExtendsItself(s.jobs);
    assert ([g] + rest)[1..] == rest;
    assert Serving(marked) == Serving(g);
  }

  /** If the probe of the primary starts, the lock goes to the goroutine that waits for it; if not, it is
      kept while the start is taken back, and given back when there is no row left. */
  predicate Probes(s: State, s': State, t: ThreadId, worker: ThreadId, started: Option<JobId>)
    requires t in s.threads && s.threads[t].ProbeMarked?
  {
    var ProbeMarked(g, rest) := s.threads[t];
    && s'.groups == s.groups && s'.threads - {t, worker} == s.threads - {t, worker} && t in s'.threads
    && if started.Some? && started.value != "" && started.value !in s.jobs && worker !in s.threads then
         && s'.running == s.running && s'.threads[t] == ProbeLoop(rest)
         && s'.jobs == s.jobs[started.value := Job(g.primary, RecoverySource, Running, g.id)]
         && worker in s'.threads && s'.threads[worker] == ProbeWait(g.id, started.value)
       else
         && s'.jobs == s.jobs && s'.threads - {t} == s.threads - {t}
         && if g.id in s.groups
            then s'.running == s.running && s'.threads[t] == ProbeDeferring(g.id, s.groups[g.id], rest)
            else s'.running == s.running - {g.id} && s'.threads[t] == ProbeLoop(rest)
  }

  lemma ProbeStartProbes(s: State, t: ThreadId, worker: ThreadId, started: Option<JobId>)
    requires t in s.threads && s.threads[t].ProbeMarked?
    ensures Probes(s, ProbeStartStep(s, t, worker, started), t, worker, started)
  {
  }

  /** A probe that did not start is taken back: the mark is cleared, beside the active provider of the
      copy, and the lock is given back. */
  ghost predicate TakesBack(s: State, s': State, t: ThreadId, ok: bool)
    requires t in s.threads && s.threads[t].ProbeDeferring?
  {
    var ProbeDeferring(gid, g, rest) := s.threads[t];
    var w := g.(lastProbeAt := None, lastProbeStatus := "deferred");
    && Local(s, s', g.id, {t}) && s'.jobs == s.jobs && s'.running == s.running - {gid}
    && t in s'.threads && s'.threads[t] == ProbeLoop(rest)
    && if Saved(s, w, ok)
       then g.id in s'.groups && s'.groups[g.id].active == Serving(g) && s'.groups[g.id].lastProbeAt == None
            && s'.groups[g.id].lastProbeStatus == "deferred"
       else s'.groups == s.groups
  }

  lemma ProbeDeferTakesBack(s: State, t: ThreadId, ok: bool)
    requires t in s.threads && s.threads[t].ProbeDeferring?
    ensures TakesBack(s, ProbeDeferStep(s, t, ok), t, ok)
  {
    var ProbeDeferring(gid, g, rest) := s.threads[t];
    var w := g.(lastProbeAt := None, lastProbeStatus := "deferred");
    hide Save, Saved, Extends, RowIs, Serving, Local;
    SaveIsLocal(s, w, ok);
    WriteIsLocal(s, w, ok, ProbeDeferStep(s, t, ok), t);
    ServingOf(g);
  }

  /** The waiting goroutine goes on with the row as it is now while a standby still serves on standing
      advice, and otherwise gives its lock back. */
  predicate Resumes(s: State, s': State, t: ThreadId, seen: bool)
    requires t in s.threads && s.threads[t].ProbeWait?
  {
    var ProbeWait(gid, job) := s.threads[t];
    && s'.groups == s.groups && s'.jobs == s.jobs && s'.threads - {t} == s.threads - {t}
    && (t in s'.threads <==> gid in s.groups && OnStandby(s.groups[gid]))
    && (if t in s'.threads
        then s'.running == s.running
             && s'.threads[t]
                == ProbeHolding(gid, s.groups[gid], seen && job in s.jobs && s.jobs[job].outcome == Succeeded)
        else s'.running == s.running - {gid})
  }

  lemma ProbeReadResumes(s: State, t: ThreadId, seen: bool)
    requires t in s.threads && s.threads[t].ProbeWait?
    ensures Resumes(s, ProbeReadStep(s, t, seen), t, seen)
  {
  }

  /** The outcome of the probe is recorded beside the active provider of the copy; the lock is kept
      exactly when a recorded success leads on to the recovery. */
  ghost predicate Records(s: State, s': State, t: ThreadId, ok: bool)
    requires t in s.threads && s.threads[t].ProbeHolding?
  {
    var ProbeHolding(gid, g, succeeded) := s.threads[t];
    var w := g.(lastProbeStatus := if succeeded then "success" else "failed");
    && Local(s, s', g.id, {t}) && s'.jobs == s.jobs
    && s'.running == (if t in s'.threads then s.running else s.running - {gid})
    && (t in s'.threads <==> succeeded && Saved(s, w, ok))
    && (t in s'.threads ==> s'.threads[t] == Recovering(w, Unlock(gid)))
    && if Saved(s, w, ok)
       then g.id in s'.groups && s'.groups[g.id].active == Serving(g)
         && s'.groups[g.id].lastProbeStatus == w.lastProbeStatus
       else s'.groups == s.groups
  }

  lemma ProbeWriteRecords(s: State, t: ThreadId, ok: bool)
    requires t in s.threads && s.threads[t].ProbeHolding?
    ensures Records(s, ProbeWriteStep(s, t, ok), t, ok)
  {
    var ProbeHolding(gid, g, succeeded) := s.threads[t];
    var w := g.(lastProbeStatus := if succeeded then "success" else "failed");
    hide Save, Saved, Extends, RowIs, Serving, Local;
    SaveIsLocal(s, w, ok);
    WriteIsLocal(s, w, ok, ProbeWriteStep(s, t, ok), t);
    ServingOf(g);
  }

  // ---------- entering the protocol, editing, and what happens outside ----------

  /** The write of a maintenance window leaves the active provider of the copy. */
  ghost predicate Edits(s: State, s': State, t: ThreadId, startsAt: Option<Time>, until: Option<Time>, ok: bool)
    requires t in s.threads && s.threads[t].EditHolding?
  {
    var g := s.threads[t].group;
    var w := g.(maintenanceStartsAt := startsAt, maintenanceUntil := until);
    && Local(s, s', g.id, {t}) && s'.jobs == s.jobs && s'.running == s.running && t !in s'.threads
    && if Saved(s, w, ok)
       then g.id in s'.groups && s'.groups[g.id].active == Serving(g)
            && s'.groups[g.id].maintenanceStartsAt == startsAt && s'.groups[g.id].maintenanceUntil == until
       else s'.groups == s.groups
  }

  lemma EditSaveEdits(s: State, t: ThreadId, startsAt: Option<Time>, until: Option<Time>, ok: bool)
    requires t in s.threads && s.threads[t].EditHolding?
    ensures Edits(s, RequestStep(s, t, Request.EditSave(startsAt, until, ok)), t, startsAt, until, ok)
  {
    var g := s.threads[t].group;
    var w := g.(maintenanceStartsAt := startsAt, maintenanceUntil := until);
    var s' := RequestStep(s, t, Request.EditSave(startsAt, until, ok));
    if Saved(s, w, ok) { EditedRow(s, w, ok); }
    hide Save, Saved, Extends, RowIs, Local;
    SaveIsLocal(s, w, ok);
    WriteIsLocal(s, w, ok, s', t);
  }

  lemma EditedRow(s: State, w: Group, ok: bool)
    requires Saved(s, w, ok)
    ensures w.id in Save(s, w, ok).groups
            && Save(s, w, ok).groups[w.id].maintenanceStartsAt == w.maintenanceStartsAt
            && Save(s, w, ok).groups[w.id].maintenanceUntil == w.maintenanceUntil
  {
  }

  /** Whoever enters holds the rows as they are, all of those asked for that exist. Only a switch by hand
      needs the lock of its group, and takes it; evaluations answer to the end of jobs that neither
      failover nor recovery has started. */
  predicate Begins(s: State, s': State, t: ThreadId, e: Entry)
    requires t !in s.threads
  {
    && s'.groups == s.groups && s'.jobs == s.jobs && s'.threads - {t} == s.threads
    && match e
       case ApplyBegin(gid, suggested, stamp) =>
         if gid in s.groups && gid !in s.running
         then s'.running == s.running + {gid} && t in s'.threads
              && s'.threads[t] == ApplyHolding(s.groups[gid], suggested, stamp)
         else s' == s
       case EvalBegin(job, status, request, order) =>
         && s'.running == s.running
         && (t in s'.threads <==> job in s.jobs && s.jobs[job].source == OtherSource && s.jobs[job].provider != "")
         && (t in s'.threads ==>
               s'.threads[t] == EvalLoop(Event(s.jobs[job].provider, job, status, request), Snapshots(s, order)))
       case ManualBegin(gid) =>
         && s'.running == s.running && (t in s'.threads <==> gid in s.groups)
         && (t in s'.threads ==> s'.threads[t] == ManualHolding(s.groups[gid]))
       case ProbeBegin(order) =>
         s'.running == s.running && t in s'.threads && s'.threads[t] == ProbeLoop(Snapshots(s, order))
       case EditBegin(gid) =>
         && s'.running == s.running && (t in s'.threads <==> gid in s.groups)
         && (t in s'.threads ==> s'.threads[t] == EditHolding(s.groups[gid]))
  }

  lemma EntryBegins(s: State, t: ThreadId, e: Entry)
    requires t !in s.threads
    ensures Begins(s, EntryStep(s, t, e), t, e)
  {
  }

  /** Jobs of others start under new ids, running jobs end once, and rows may go: nothing else happens. */
  predicate HappensOutside(s: State, s': State, o: Outside) {
    && s'.running == s.running && s'.threads == s.threads
    && match o
       case StartOther(job, provider) =>
         && s'.groups == s.groups
         && s'.jobs == if job != "" && job !in s.jobs then s.jobs[job := Job(provider, OtherSource, Running, "")]
                       else s.jobs
       case EndJob(job, success) =>
         && s'.groups == s.groups && s'.jobs.Keys == s.jobs.Keys
         && (forall j :: j in s.jobs ==>
               s'.jobs[j] == if j == job && s.jobs[j].outcome == Running
                             then s.jobs[j].(outcome := if success then Succeeded else Failed) else s.jobs[j])
       case DeleteGroup(gid) => s'.jobs == s.jobs && s'.groups == s.groups - {gid}
  }

  lemma OutsideHappens(s: State, o: Outside)
    ensures HappensOutside(s, OutsideStep(s, o), o)
  {
  }
}
