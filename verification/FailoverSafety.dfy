/** What every interleaving of the failover steps keeps. */
module FailoverSafety {
  import opened Wrappers
  import opened Failover

  // ---------- the invariant ----------

  /** A validation job of the group that ran the provider and succeeded. */
  predicate ValidatedBy(jobs: map<JobId, Job>, gid: GroupId, p: ProviderId, job: JobId) {
    job in jobs && jobs[job] == Job(p, ValidationSource, Succeeded, gid)
  }

  ghost predicate Validated(jobs: map<JobId, Job>, gid: GroupId, p: ProviderId) {
    exists job :: ValidatedBy(jobs, gid, p, job)
  }

  /** A validation job of the group that runs the provider. */
  predicate Validates(jobs: map<JobId, Job>, gid: GroupId, p: ProviderId, job: JobId) {
    job in jobs && jobs[job].provider == p && jobs[job].source == ValidationSource && jobs[job].group == gid
  }

  ghost predicate ActiveOk(jobs: map<JobId, Job>, g: Group) {
    g.active == "" || g.active == g.primary || Validated(jobs, g.id, g.active)
  }

  ghost predicate AdviceOk(jobs: map<JobId, Job>, gid: GroupId, advice: Option<Advice>) {
    match advice
    case None => true
    case Some(a) =>
      && (a.status == Open || a.status == Applied ==> ValidatedBy(jobs, gid, a.suggested, a.job))
      && (a.status == Validating ==> Validates(jobs, gid, a.suggested, a.job))
  }

  ghost predicate GroupOk(jobs: map<JobId, Job>, g: Group) {
    ActiveOk(jobs, g) && AdviceOk(jobs, g.id, g.advice)
  }

  /** The copies a goroutine holds. */
  function ContHeld(cont: Cont): seq<Group> {
    match cont
    case Finish => []
    case ResumeEval(_, rest) => rest
    case Unlock(_) => []
    case UnlockAndResume(_, _, rest) => rest
  }

  function Held(thread: Thread): seq<Group> {
    match thread
    case ApplyHolding(g, _, _) => [g]
    case EvalLoop(_, rest) => rest
    case ValidateAt(g, _, _, rest) => [g] + rest
    case ValidateWait(g, _, _, _, rest) => [g] + rest
    case Activating(g, _, cont) => [g] + ContHeld(cont)
    case ManualHolding(g) => [g]
    case ManualStarted(g, _) => [g]
    case CompleteWait(_, _) => []
    case CompleteHolding(g, _) => [g]
    case Recovering(g, cont) => [g] + ContHeld(cont)
    case RecoverHolding(g, cont) => [g] + ContHeld(cont)
    case ProbeLoop(rest) => rest
    case ProbeMarked(g, rest) => [g] + rest
    case ProbeDeferring(_, g, rest) => [g] + rest
    case ProbeWait(_, _) => []
    case ProbeHolding(_, g, _) => [g]
    case EditHolding(g) => [g]
  }

  predicate EventOk(jobs: map<JobId, Job>, event: Event) {
    event.job in jobs && jobs[event.job].source == OtherSource
  }

  predicate ContOk(jobs: map<JobId, Job>, cont: Cont) {
    match cont
    case ResumeEval(event, _) => EventOk(jobs, event)
    case UnlockAndResume(_, event, _) => EventOk(jobs, event)
    case _ => true
  }

  /** What a goroutine knows beside the copies it holds. */
  ghost predicate ThreadOk(jobs: map<JobId, Job>, thread: Thread) {
    && (forall i :: 0 <= i < |Held(thread)| ==> GroupOk(jobs, Held(thread)[i]))
    && match thread {
         case EvalLoop(event, _) => EventOk(jobs, event)
         case ValidateAt(_, _, event, _) => EventOk(jobs, event)
         case ValidateWait(g, i, job, event, _) =>
           EventOk(jobs, event) && i < |g.backups|
           && Validates(jobs, g.id, g.backups[i], job)
         case Activating(g, p, cont) => ContOk(jobs, cont) && Validated(jobs, g.id, p)
         case ManualStarted(g, job) =>
           g.backups != [] && Validates(jobs, g.id, g.backups[0], job)
         case CompleteHolding(g, success) => g.advice.Some? && (success ==> g.advice.value.status == Open)
         case Recovering(_, cont) => ContOk(jobs, cont)
         case RecoverHolding(_, cont) => ContOk(jobs, cont)
         case _ => true
       }
  }

  ghost predicate Safe(s: State) {
    && (forall gid :: gid in s.groups ==> s.groups[gid].id == gid && GroupOk(s.jobs, s.groups[gid]))
    && (forall t :: t in s.threads ==> ThreadOk(s.jobs, s.threads[t]))
  }

  // ---------- the history of jobs only grows ----------

  ghost predicate Extends(jobs: map<JobId, Job>, later: map<JobId, Job>) {
    forall j :: j in jobs ==>
      j in later && later[j].provider == jobs[j].provider && later[j].source == jobs[j].source
        && later[j].group == jobs[j].group
      && (jobs[j].outcome != Running ==> later[j].outcome == jobs[j].outcome)
  }

  lemma GroupOkExtends(jobs: map<JobId, Job>, later: map<JobId, Job>, g: Group)
    requires Extends(jobs, later) && GroupOk(jobs, g)
    ensures GroupOk(later, g)
  {
    if Validated(jobs, g.id, g.active) {
      var job :| ValidatedBy(jobs, g.id, g.active, job);
      assert ValidatedBy(later, g.id, g.active, job);
    }
  }

  lemma ThreadOkExtends(jobs: map<JobId, Job>, later: map<JobId, Job>, thread: Thread)
    requires Extends(jobs, later) && ThreadOk(jobs, thread)
    ensures ThreadOk(later, thread)
  {
    forall i | 0 <= i < |Held(thread)| ensures GroupOk(later, Held(thread)[i]) {
      GroupOkExtends(jobs, later, Held(thread)[i]);
    }
    if thread.Activating? {
      var job :| ValidatedBy(jobs, thread.group.id, thread.provider, job);
      assert ValidatedBy(later, thread.group.id, thread.provider, job);
    }
  }

  lemma JobsGrow(s: State, later: map<JobId, Job>)
    requires Safe(s) && Extends(s.jobs, later)
    ensures Safe(s.(jobs := later))
  {
    forall gid | gid in s.groups ensures GroupOk(later, s.groups[gid]) {
      GroupOkExtends(s.jobs, later, s.groups[gid]);
    }
    forall t | t in s.threads ensures ThreadOk(later, s.threads[t]) {
      ThreadOkExtends(s.jobs, later, s.threads[t]);
    }
  }

  // ---------- building blocks: a write, a goroutine moving on ----------

  /** Writing any good copy, however stale, keeps the store good: the parts of a group the
      invariant speaks of never mix with the row being replaced except for the advice, and the
      advice of that row is good by itself. */
  lemma SaveSafe(s: State, g: Group, ok: bool)
    requires Safe(s) && GroupOk(s.jobs, g)
    ensures Safe(Save(s, g, ok)) && Save(s, g, ok).threads == s.threads && Save(s, g, ok).jobs == s.jobs
  {
  }

  lemma PutSafe(s: State, t: ThreadId, thread: Thread)
    requires Safe(s) && ThreadOk(s.jobs, thread)
    ensures Safe(Put(s, t, thread))
  {
  }

  lemma ResumeSafe(s: State, t: ThreadId, cont: Cont)
    requires Safe(s) && ContOk(s.jobs, cont)
    requires forall i :: 0 <= i < |ContHeld(cont)| ==> GroupOk(s.jobs, ContHeld(cont)[i])
    ensures Safe(Resume(s, t, cont))
  {
    match cont
    case Finish =>
    case Unlock(_) =>
    case ResumeEval(event, rest) =>
      assert Held(EvalLoop(event, rest)) == ContHeld(cont);
      PutSafe(s, t, EvalLoop(event, rest));
    case UnlockAndResume(gid, event, rest) =>
      assert Held(EvalLoop(event, rest)) == ContHeld(cont);
      PutSafe(Release(s, gid), t, EvalLoop(event, rest));
  }

  lemma SnapshotsOk(s: State, order: seq<GroupId>)
    requires Safe(s)
    ensures forall i :: 0 <= i < |Snapshots(s, order)| ==> GroupOk(s.jobs, Snapshots(s, order)[i])
  {
  }

  lemma AddJobSafe(s: State, job: JobId, p: ProviderId, source: Source, gid: GroupId)
    requires Safe(s) && job !in s.jobs
    ensures Safe(AddJob(s, job, p, source, gid)) && Extends(s.jobs, AddJob(s, job, p, source, gid).jobs)
  {
    JobsGrow(s, s.jobs[job := Job(p, source, Running, gid)]);
  }

  // ---------- the steps ----------

  lemma {:induction false} AdviceChangeOk(jobs: map<JobId, Job>, g: Group, advice: Advice)
    requires GroupOk(jobs, g) && AdviceOk(jobs, g.id, Some(advice))
    ensures GroupOk(jobs, g.(advice := Some(advice)))
  {
  }

  lemma HeldOk(s: State, t: ThreadId, i: nat)
    requires Safe(s) && t in s.threads && i < |Held(s.threads[t])|
    ensures GroupOk(s.jobs, Held(s.threads[t])[i])
  {
  }

  lemma ApplyCommitSafe(s: State, t: ThreadId, now: Time, ok: bool)
    requires Safe(s) && t in s.threads && s.threads[t].ApplyHolding?
    ensures Safe(ApplyCommitStep(s, t, now, ok))
  {
    var h := s.threads[t];
    HeldOk(s, t, 0);
    var done := Release(Drop(s, t), h.group.id);
    if MayApply(h.group, h.suggested, h.stamp, now) {
      assert ValidatedBy(s.jobs, h.group.id, h.suggested, h.group.advice.value.job);
      SaveSafe(done, AppliedGroup(h.group, h.suggested, now), ok);
    }
  }

  /** The branch of `evaluateFailover` for groups under validation is never taken: the events that
      reach it come from jobs that are not validation jobs, and `validating` advice names one. */
  lemma ValidatingBranchUnreachable(s: State, t: ThreadId)
    requires Safe(s) && t in s.threads && s.threads[t].EvalLoop? && s.threads[t].rest != []
    ensures var g := s.threads[t].rest[0];
            !(g.advice.Some? && g.advice.value.status == Validating && g.advice.value.job == s.threads[t].event.job)
  {
    HeldOk(s, t, 0);
  }

  lemma EvalNextSafe(s: State, t: ThreadId, now: Time, failures: int, ok: bool)
    requires Safe(s) && t in s.threads && s.threads[t].EvalLoop?
    ensures Safe(EvalNextStep(s, t, now, failures, ok))
  {
    var EvalLoop(event, rest) := s.threads[t];
    assert ThreadOk(s.jobs, s.threads[t]);
    if rest != [] {
      ValidatingBranchUnreachable(s, t);
      var g := rest[0];
      HeldOk(s, t, 0);
      assert forall i :: 0 <= i < |rest[1..]| ==> rest[1..][i] == Held(s.threads[t])[i + 1];
      assert rest == [g] + rest[1..];
      PutSafe(s, t, EvalLoop(event, rest[1..]));
      PutSafe(s, t, Recovering(g, ResumeEval(event, rest[1..])));
      PutSafe(s.(running := s.running + {g.id}), t, ValidateAt(g, 0, event, rest[1..]));
    }
  }

  lemma ValidateStartSafe(s: State, t: ThreadId, started: Option<JobId>, now: Time, ok: bool)
    requires Safe(s) && t in s.threads && s.threads[t].ValidateAt?
    ensures Safe(ValidateStartStep(s, t, started, now, ok))
  {
    var ValidateAt(g, i, event, rest) := s.threads[t];
    HeldOk(s, t, 0);
    assert forall k :: 0 <= k < |rest| ==> rest[k] == Held(s.threads[t])[k + 1];
    if i >= |g.backups| {
      var failed := g.(advice := Some(Advice(ValidationFailed, "", "", "", now)));
      SaveSafe(s, failed, ok);
      PutSafe(Release(Save(s, failed, ok), g.id), t, EvalLoop(event, rest));
    } else if started.Some? && Fresh(s, started.value) {
      AddJobSafe(s, started.value, g.backups[i], ValidationSource, g.id);
      var s' := AddJob(s, started.value, g.backups[i], ValidationSource, g.id);
      ThreadOkExtends(s.jobs, s'.jobs, s.threads[t]);
      var next := ValidateWait(g, i, started.value, event, rest);
      assert Held(next) == Held(s.threads[t]);
      PutSafe(s', t, next);
    } else {
      var next := ValidateAt(g, i + 1, event, rest);
      assert Held(next) == Held(s.threads[t]);
      PutSafe(s, t, next);
    }
  }

  /** A job seen to succeed validates the provider it was started for. */
  lemma ValidationAdvises(jobs: map<JobId, Job>, g: Group, p: ProviderId, job: JobId, request: string, now: Time)
    requires GroupOk(jobs, g) && ValidatedBy(jobs, g.id, p, job)
    ensures GroupOk(jobs, g.(advice := Some(Advice(Open, p, job, request, now))))
    ensures Validated(jobs, g.id, p)
  {
  }

  lemma HoldOk(jobs: map<JobId, Job>, g: Group, rest: seq<Group>, thread: Thread)
    requires GroupOk(jobs, g) && (forall k :: 0 <= k < |rest| ==> GroupOk(jobs, rest[k])) && Held(thread) == [g] + rest
    ensures forall k :: 0 <= k < |Held(thread)| ==> GroupOk(jobs, Held(thread)[k])
  {
  }

  lemma ValidateEndSafe(s: State, t: ThreadId, seen: bool, request: string, now: Time, ok: bool)
    requires Safe(s) && t in s.threads && s.threads[t].ValidateWait?
    ensures Safe(ValidateEndStep(s, t, seen, request, now, ok))
  {
    var ValidateWait(g, i, job, event, rest) := s.threads[t];
    assert ThreadOk(s.jobs, s.threads[t]);
    RestOk(s, t, g, rest);
    assert forall k :: 0 <= k < |rest| ==> rest[k] == Held(ProbeLoop(rest))[k];
    hide Safe, GroupOk, Normalize, InMaintenance;
    if !SeenSuccess(s, job, seen) {
      var next := ValidateAt(g, i + 1, event, rest);
      HoldOk(s.jobs, g, rest, next);
      PutSafe(s, t, next);
    } else {
      var p := g.backups[i];
      var advised := g.(advice := Some(Advice(Open, p, job, request, now)));
      ValidationAdvises(s.jobs, g, p, job, request, now);
      SaveSafe(s, advised, ok);
      var cont := UnlockAndResume(g.id, event, rest);
      var next := Activating(advised, p, cont);
      HoldOk(s.jobs, advised, rest, next);
      PutSafe(Save(s, advised, ok), t, next);
      ResumeSafe(Save(s, advised, ok), t, cont);
    }
  }

  lemma ContHeldOk(s: State, t: ThreadId, cont: Cont, g: Group)
    requires Safe(s) && t in s.threads && Held(s.threads[t]) == [g] + ContHeld(cont)
    ensures GroupOk(s.jobs, g)
    ensures forall i :: 0 <= i < |ContHeld(cont)| ==> GroupOk(s.jobs, ContHeld(cont)[i])
  {
    hide Safe, GroupOk, ContHeld, Held;
    HeldOk(s, t, 0);
    forall i | 0 <= i < |ContHeld(cont)| ensures GroupOk(s.jobs, ContHeld(cont)[i]) { HeldOk(s, t, i + 1); }
  }

  lemma ActivateSafe(s: State, t: ThreadId, ok: bool)
    requires Safe(s) && t in s.threads && s.threads[t].Activating?
    ensures Safe(ActivateStep(s, t, ok))
  {
    var Activating(g, p, cont) := s.threads[t];
    assert ThreadOk(s.jobs, s.threads[t]);
    ContHeldOk(s, t, cont, g);
    SaveSafe(s, g.(active := p), ok);
    ResumeSafe(Save(s, g.(active := p), ok), t, cont);
  }

  lemma ManualSafe(s: State, t: ThreadId, started: Option<JobId>, now: Time, ok: bool)
    requires Safe(s) && t in s.threads
    ensures s.threads[t].ManualHolding? ==> Safe(ManualStartStep(s, t, started, now))
    ensures s.threads[t].ManualStarted? ==> Safe(ManualSaveStep(s, t, now, ok))
  {
    assert ThreadOk(s.jobs, s.threads[t]);
    match s.threads[t] {
      case ManualHolding(g) =>
        HeldOk(s, t, 0);
        if g.backups != [] && started.Some? && Fresh(s, started.value) {
          AddJobSafe(s, started.value, g.backups[0], ValidationSource, g.id);
          var s' := AddJob(s, started.value, g.backups[0], ValidationSource, g.id);
          GroupOkExtends(s.jobs, s'.jobs, g);
          PutSafe(s', t, ManualStarted(g, started.value));
        }
      case ManualStarted(g, job) =>
        HeldOk(s, t, 0);
        var w := g.(advice := Some(Advice(Validating, g.backups[0], job, "", now)));
        SaveSafe(s, w, ok);
        PutSafe(Save(s, w, ok), t, CompleteWait(g.id, job));
      case _ =>
    }
  }

  lemma CompleteSafe(s: State, t: ThreadId, seen: bool, request: string, now: Time, ok: bool)
    requires Safe(s) && t in s.threads
    ensures s.threads[t].CompleteWait? ==> Safe(CompleteReadStep(s, t, seen, request, now))
    ensures s.threads[t].CompleteHolding? ==> Safe(CompleteWriteStep(s, t, now, ok))
  {
    assert ThreadOk(s.jobs, s.threads[t]);
    match s.threads[t] {
      case CompleteWait(gid, job) =>
        if gid in s.groups && s.groups[gid].advice.Some? && s.groups[gid].advice.value.job == job
           && s.groups[gid].advice.value.status == Validating {
          var g := s.groups[gid];
          var success := SeenSuccess(s, job, seen);
          var status := if success then Open else ValidationFailed;
          var a := g.advice.value.(status := status, updatedAt := now, request := request);
          AdviceChangeOk(s.jobs, g, a);
          PutSafe(s, t, CompleteHolding(g.(advice := Some(a)), success));
        }
      case CompleteHolding(g, success) =>
        HeldOk(s, t, 0);
        SaveSafe(s, g, ok);
        if success {
          assert ValidatedBy(s.jobs, g.id, g.advice.value.suggested, g.advice.value.job);
          PutSafe(Save(s, g, ok), t, Activating(g, g.advice.value.suggested, Finish));
        }
      case _ =>
    }
  }

  lemma RecoverSafe(s: State, t: ThreadId, successes: int, now: Time, ok: bool)
    requires Safe(s) && t in s.threads
    ensures s.threads[t].Recovering? ==> Safe(RecoverReadStep(s, t))
    ensures s.threads[t].RecoverHolding? ==> Safe(RecoverWriteStep(s, t, successes, now, ok))
  {
    assert ThreadOk(s.jobs, s.threads[t]);
    match s.threads[t] {
      case Recovering(g, cont) =>
        ContHeldOk(s, t, cont, g);
        ResumeSafe(s, t, cont);
        if g.id in s.groups {
          var merged := if g.lastProbeStatus != ""
                        then s.groups[g.id].(lastProbeAt := g.lastProbeAt, lastProbeStatus := g.lastProbeStatus)
                        else s.groups[g.id];
          assert GroupOk(s.jobs, merged);
          PutSafe(s, t, RecoverHolding(merged, cont));
        }
      case RecoverHolding(g, cont) =>
        ContHeldOk(s, t, cont, g);
        SaveSafe(s, RecoveredGroup(g, successes, now), ok);
        ResumeSafe(Save(s, RecoveredGroup(g, successes, now), ok), t, cont);
      case _ =>
    }
  }

  lemma ProbeLoopSafe(s: State, t: ThreadId, now: Time, ok: bool)
    requires Safe(s) && t in s.threads && s.threads[t].ProbeLoop?
    ensures Safe(ProbeNextStep(s, t, now, ok))
  {
    var rest := s.threads[t].rest;
    if rest != [] {
      var g := rest[0];
      HeldOk(s, t, 0);
      assert forall i :: 0 <= i < |rest[1..]| ==> rest[1..][i] == Held(s.threads[t])[i + 1];
      PutSafe(s, t, ProbeLoop(rest[1..]));
      var marked := g.(lastProbeAt := Some(now), lastProbeStatus := "running");
      assert GroupOk(s.jobs, marked);
      var s' := s.(running := s.running + {g.id});
      SaveSafe(s', marked, ok);
      PutSafe(Save(s', marked, ok), t, ProbeMarked(marked, rest[1..]));
    }
  }

  /** The probe's job is handed to a goroutine of its own. */
  lemma HandedOverSafe(s: State, t: ThreadId, worker: ThreadId, g: Group, rest: seq<Group>, job: JobId)
    requires Safe(s) && ThreadOk(s.jobs, ProbeLoop(rest)) && job !in s.jobs
    ensures Safe(Put(Put(AddJob(s, job, g.primary, RecoverySource, g.id), t, ProbeLoop(rest)),
                     worker, ProbeWait(g.id, job)))
  {
    AddJobSafe(s, job, g.primary, RecoverySource, g.id);
    var s' := AddJob(s, job, g.primary, RecoverySource, g.id);
    ThreadOkExtends(s.jobs, s'.jobs, ProbeLoop(rest));
    hide Safe, GroupOk, Extends;
    PutSafe(s', t, ProbeLoop(rest));
    PutSafe(Put(s', t, ProbeLoop(rest)), worker, ProbeWait(g.id, job));
  }

  lemma ProbeStartSafe(s: State, t: ThreadId, worker: ThreadId, started: Option<JobId>)
    requires Safe(s) && t in s.threads && s.threads[t].ProbeMarked?
    ensures Safe(ProbeStartStep(s, t, worker, started))
  {
    hide Safe, GroupOk, Extends;
    var ProbeMarked(g, rest) := s.threads[t];
    RestOk(s, t, g, rest);
    if started.Some? && Fresh(s, started.value) && worker !in s.threads {
      HandedOverSafe(s, t, worker, g, rest, started.value);
    } else if g.id in s.groups {
      StoredOk(s, g.id);
      DeferringOk(s.jobs, g.id, s.groups[g.id], rest);
      PutSafe(s, t, ProbeDeferring(g.id, s.groups[g.id], rest));
    } else {
      ReleaseSafe(s, g.id);
      PutSafe(Release(s, g.id), t, ProbeLoop(rest));
    }
  }

  lemma DeferringOk(jobs: map<JobId, Job>, gid: GroupId, g: Group, rest: seq<Group>)
    requires GroupOk(jobs, g) && ThreadOk(jobs, ProbeLoop(rest))
    ensures ThreadOk(jobs, ProbeDeferring(gid, g, rest))
  {
    hide GroupOk;
    assert forall k :: 0 <= k < |rest| ==> rest[k] == Held(ProbeLoop(rest))[k];
    HoldOk(jobs, g, rest, ProbeDeferring(gid, g, rest));
  }

  lemma StoredOk(s: State, gid: GroupId)
    requires Safe(s) && gid in s.groups
    ensures GroupOk(s.jobs, s.groups[gid])
  {
  }

  lemma ReleaseSafe(s: State, gid: GroupId)
    requires Safe(s)
    ensures Safe(Release(s, gid))
  {
  }

  lemma RestOk(s: State, t: ThreadId, g: Group, rest: seq<Group>)
    requires Safe(s) && t in s.threads && Held(s.threads[t]) == [g] + rest
    ensures GroupOk(s.jobs, g) && ThreadOk(s.jobs, ProbeLoop(rest))
  {
    HeldOk(s, t, 0);
    forall k | 0 <= k < |rest| ensures GroupOk(s.jobs, rest[k]) { HeldOk(s, t, k + 1); }
    hide Safe, GroupOk;
  }

  lemma ProbeDeferSafe(s: State, t: ThreadId, ok: bool)
    requires Safe(s) && t in s.threads && s.threads[t].ProbeDeferring?
    ensures Safe(ProbeDeferStep(s, t, ok))
  {
    var ProbeDeferring(gid, g, rest) := s.threads[t];
    RestOk(s, t, g, rest);
    var w := g.(lastProbeAt := None, lastProbeStatus := "deferred");
    SaveSafe(s, w, ok);
    PutSafe(Release(Save(s, w, ok), gid), t, ProbeLoop(rest));
  }

  lemma ProbeWriteSafe(s: State, t: ThreadId, ok: bool)
    requires Safe(s) && t in s.threads && s.threads[t].ProbeHolding?
    ensures Safe(ProbeWriteStep(s, t, ok))
  {
    var ProbeHolding(gid, g, success) := s.threads[t];
    HeldOk(s, t, 0);
    var w := g.(lastProbeStatus := if success then "success" else "failed");
    SaveSafe(s, w, ok);
    PutSafe(Save(s, w, ok), t, Recovering(w, Unlock(gid)));
  }

  lemma OutsideSafe(s: State, o: Outside)
    requires Safe(s)
    ensures Safe(OutsideStep(s, o))
  {
    match o
    case StartOther(job, provider) => if Fresh(s, job) { AddJobSafe(s, job, provider, OtherSource, ""); }
    case EndJob(job, success) =>
      if job in s.jobs && s.jobs[job].outcome == Running {
        JobsGrow(s, s.jobs[job := s.jobs[job].(outcome := if success then Succeeded else Failed)]);
      }
    case DeleteGroup(_) =>
  }

  lemma EntrySafe(s: State, t: ThreadId, e: Entry)
    requires Safe(s) && t !in s.threads
    ensures Safe(EntryStep(s, t, e))
  {
    match e
    case ApplyBegin(gid, suggested, stamp) =>
      if gid in s.groups {
        PutSafe(s.(running := s.running + {gid}), t, ApplyHolding(s.groups[gid], suggested, stamp));
      }
    case EvalBegin(job, status, request, order) =>
      SnapshotsOk(s, order);
      if job in s.jobs && s.jobs[job].source == OtherSource {
        PutSafe(s, t, EvalLoop(Event(s.jobs[job].provider, job, status, request), Snapshots(s, order)));
      }
    case ManualBegin(gid) =>
      if gid in s.groups { PutSafe(s, t, ManualHolding(s.groups[gid])); }
    case ProbeBegin(order) =>
      SnapshotsOk(s, order);
      PutSafe(s, t, ProbeLoop(Snapshots(s, order)));
    case EditBegin(gid) =>
      if gid in s.groups { PutSafe(s, t, EditHolding(s.groups[gid])); }
  }

  lemma EvaluationSafe(s: State, t: ThreadId, e: Evaluation)
    requires Safe(s) && t in s.threads
    ensures Safe(EvaluationStep(s, t, e))
  {
    var thread := s.threads[t];
    match e
    case EvalNext(now, failures, ok) => if thread.EvalLoop? { EvalNextSafe(s, t, now, failures, ok); }
    case ValidateStart(started, now, ok) => if thread.ValidateAt? { ValidateStartSafe(s, t, started, now, ok); }
    case ValidateEnd(seen, request, now, ok) =>
      if thread.ValidateWait? { ValidateEndSafe(s, t, seen, request, now, ok); }
    case ValidateAbort =>
      if thread.ValidateAt? {
        assert ThreadOk(s.jobs, thread);
        var cont := UnlockAndResume(thread.group.id, thread.event, thread.rest);
        ContHeldOk(s, t, cont, thread.group);
        ResumeSafe(s, t, cont);
      }
    case Activate(ok) => if thread.Activating? { ActivateSafe(s, t, ok); }
  }

  lemma RequestSafe(s: State, t: ThreadId, r: Request)
    requires Safe(s) && t in s.threads
    ensures Safe(RequestStep(s, t, r))
  {
    var thread := s.threads[t];
    match r
    case ApplyCommit(now, ok) => if thread.ApplyHolding? { ApplyCommitSafe(s, t, now, ok); }
    case ManualStart(started, now) => if thread.ManualHolding? { ManualSafe(s, t, started, now, true); }
    case ManualSave(now, ok) => if thread.ManualStarted? { ManualSafe(s, t, None, now, ok); }
    case CompleteRead(seen, request, now) => if thread.CompleteWait? { CompleteSafe(s, t, seen, request, now, true); }
    case CompleteWrite(now, ok) => if thread.CompleteHolding? { CompleteSafe(s, t, false, "", now, ok); }
    case EditSave(startsAt, until, ok) =>
      if thread.EditHolding? {
        HeldOk(s, t, 0);
        SaveSafe(s, thread.group.(maintenanceStartsAt := startsAt, maintenanceUntil := until), ok);
      }
  }

  lemma RecoveryStepSafe(s: State, t: ThreadId, r: Recovery)
    requires Safe(s) && t in s.threads
    ensures Safe(RecoveryStep(s, t, r))
  {
    var thread := s.threads[t];
    match r
    case RecoverRead => if thread.Recovering? { RecoverSafe(s, t, 0, 0, true); }
    case RecoverWrite(successes, now, ok) => if thread.RecoverHolding? { RecoverSafe(s, t, successes, now, ok); }
    case ProbeNext(now, ok) => if thread.ProbeLoop? { ProbeLoopSafe(s, t, now, ok); }
    case ProbeStart(worker, started) => if thread.ProbeMarked? { ProbeStartSafe(s, t, worker, started); }
    case ProbeDefer(ok) => if thread.ProbeDeferring? { ProbeDeferSafe(s, t, ok); }
    case ProbeRead(seen) =>
    case ProbeWrite(ok) => if thread.ProbeHolding? { ProbeWriteSafe(s, t, ok); }
  }

  lemma NextSafe(s: State, step: Step)
    requires Safe(s)
    ensures Safe(Next(s, step))
  {
    match step
    case Happens(o) => OutsideSafe(s, o);
    case Enters(t, e) => if t !in s.threads { EntrySafe(s, t, e); }
    case Evaluates(t, e) => if t in s.threads { EvaluationSafe(s, t, e); }
    case Serves(t, r) => if t in s.threads { RequestSafe(s, t, r); }
    case Watches(t, r) => if t in s.threads { RecoveryStepSafe(s, t, r); }
  }

  // ---------- main results ----------

  /** Nothing has been validated, every group serves from its primary and carries no advice. */
  predicate Initial(s: State) {
    && s.jobs == map[] && s.threads == map[] && s.running == {}
    && forall gid :: gid in s.groups ==>
         s.groups[gid].id == gid && s.groups[gid].advice.None?
         && (s.groups[gid].active == "" || s.groups[gid].active == s.groups[gid].primary)
  }

  lemma {:induction false} RunSafe(s: State, steps: seq<Step>)
    requires Safe(s)
    ensures Safe(Run(s, steps))
    decreases |steps|
  {
    if steps != [] {
      NextSafe(s, steps[0]);
      RunSafe(Next(s, steps[0]), steps[1..]);
    }
  }

  /** In every interleaving, whatever writes go through and however stale the copies they write,
      a stored group serves from its primary or from a standby that a validation job of the group
      protocol ran with success; standing advice names such a standby and that very job. */
  lemma OnlyValidatedStandbysServe(init: State, steps: seq<Step>, gid: GroupId)
    requires Initial(init)
    requires gid in Run(init, steps).groups
    ensures var s := Run(init, steps); var g := s.groups[gid];
            && (g.active == "" || g.active == g.primary
                || exists job :: job in s.jobs && s.jobs[job] == Job(g.active, ValidationSource, Succeeded, gid))
            && (g.advice.Some? && (g.advice.value.status == Open || g.advice.value.status == Applied) ==>
                  g.advice.value.job in s.jobs
                  && s.jobs[g.advice.value.job] == Job(g.advice.value.suggested, ValidationSource, Succeeded, gid))
            && (g.advice.Some? && g.advice.value.status == Validating ==>
                  g.advice.value.job in s.jobs && s.jobs[g.advice.value.job].provider == g.advice.value.suggested
                  && s.jobs[g.advice.value.job].group == gid)
  {
    RunSafe(init, steps);
    var s := Run(init, steps);
    var g := s.groups[gid];
    assert GroupOk(s.jobs, g);
    if Validated(s.jobs, gid, g.active) {
      var job :| ValidatedBy(s.jobs, gid, g.active, job);
      assert job in s.jobs && s.jobs[job] == Job(g.active, ValidationSource, Succeeded, gid);
    }
  }

  /** The same for every copy a goroutine holds, at any moment of any interleaving. */
  lemma HeldCopiesAreSafe(init: State, steps: seq<Step>, t: ThreadId, i: nat)
    requires Initial(init)
    requires t in Run(init, steps).threads && i < |Held(Run(init, steps).threads[t])|
    ensures GroupOk(Run(init, steps).jobs, Held(Run(init, steps).threads[t])[i])
  {
    RunSafe(init, steps);
    HeldOk(Run(init, steps), t, i);
  }

  // ---------- what no lock covers ----------

  /** Two goroutines: one reads the group to evaluate a standby, the other switches by hand, and
      then the first one writes its copy back. */
  function Overtaking(gid: GroupId, t: ThreadId, u: ThreadId, suggested: ProviderId, stamp: Time, job: JobId,
        now: Time): seq<Step> {
    [Enters(t, ManualBegin(gid)), Enters(u, ApplyBegin(gid, suggested, stamp)), Serves(u, ApplyCommit(now, true)),
     Serves(t, ManualStart(Some(job), now)), Serves(t, ManualSave(now, true))]
  }

  /** The switch is there after the third step and gone after the fifth: evaluating a standby on
      request holds no lock, so its stale copy undoes a switch that was applied in between. */
  lemma StaleCopyUndoesSwitch(s: State, gid: GroupId, t: ThreadId, u: ThreadId, suggested: ProviderId, stamp: Time,
        job: JobId, now: Time)
    requires gid in s.groups && s.groups[gid].id == gid && Normalize(s.groups[gid]) == Some(s.groups[gid])
    requires MayApply(s.groups[gid], suggested, stamp, now) && gid !in s.running
    requires t != u && t !in s.threads && u !in s.threads && Fresh(s, job)
    requires s.groups[gid].active != suggested
    ensures var steps := Overtaking(gid, t, u, suggested, stamp, job, now);
            && gid in Run(s, steps[..3]).groups && Run(s, steps[..3]).groups[gid].active == suggested
            && gid in Run(s, steps).groups && Run(s, steps).groups[gid].active == s.groups[gid].active
            && Run(s, steps).groups[gid].advice.Some? && Run(s, steps).groups[gid].advice.value.status == Validating
  {
    var steps := Overtaking(gid, t, u, suggested, stamp, job, now);
    var g := s.groups[gid];
    NormalSwitch(g, suggested, now);
    var s2 := BothRead(s, gid, t, u, suggested, stamp);
    var s3 := SwitchCommits(s2, g, t, u, suggested, stamp, now);
    var s5 := EvaluationOverwrites(s3, g, t, job, now);
    hide Next, Normalize, MayApply, AppliedGroup;
    RunOfThree(s, steps[0], steps[1], steps[2]);
    RunOfThree(s2, steps[2], steps[3], steps[4]);
    assert steps[..3] == [steps[0], steps[1], steps[2]];
    assert steps[1..][1..] == [steps[2], steps[3], steps[4]];
    assert Run(s, steps) == Run(s2, steps[1..][1..]);
  }

  lemma BothRead(s: State, gid: GroupId, t: ThreadId, u: ThreadId, suggested: ProviderId, stamp: Time)
    returns (s': State)
    requires gid in s.groups && s.groups[gid].id == gid && gid !in s.running && t != u && t !in s.threads
             && u !in s.threads
    ensures s' == Next(Next(s, Enters(t, ManualBegin(gid))), Enters(u, ApplyBegin(gid, suggested, stamp)))
    ensures s'.groups == s.groups && s'.jobs == s.jobs && t in s'.threads && u in s'.threads
    ensures s'.threads[t] == ManualHolding(s.groups[gid])
            && s'.threads[u] == ApplyHolding(s.groups[gid], suggested, stamp)
  {
    var s1 := Next(s, Enters(t, ManualBegin(gid)));
    assert s1 == Put(s, t, ManualHolding(s.groups[gid]));
    s' := Next(s1, Enters(u, ApplyBegin(gid, suggested, stamp)));
  }

  lemma SwitchCommits(s: State, g: Group, t: ThreadId, u: ThreadId, suggested: ProviderId, stamp: Time, now: Time)
    returns (s': State)
    requires t != u && t in s.threads && u in s.threads && s.threads[u] == ApplyHolding(g, suggested, stamp)
    requires g.id in s.groups && MayApply(g, suggested, stamp, now)
    requires Normalize(AppliedGroup(g, suggested, now)) == Some(AppliedGroup(g, suggested, now))
    ensures s' == Next(s, Serves(u, ApplyCommit(now, true)))
    ensures s'.groups == s.groups[g.id := AppliedGroup(g, suggested, now)] && s'.jobs == s.jobs
    ensures t in s'.threads && s'.threads[t] == s.threads[t]
  {
    hide Normalize;
    s' := ApplyCommitStep(s, u, now, true);
  }

  lemma EvaluationOverwrites(s: State, g: Group, t: ThreadId, job: JobId, now: Time) returns (s': State)
    requires t in s.threads && s.threads[t] == ManualHolding(g) && g.id in s.groups && Fresh(s, job)
    requires g.enabled && g.primary != "" && g.backups != [] && !InMaintenance(g, now)
    requires forall a :: Normalize(g.(advice := Some(a))) == Some(g.(advice := Some(a)))
    ensures s' == Next(Next(s, Serves(t, ManualStart(Some(job), now))), Serves(t, ManualSave(now, true)))
    ensures g.id in s'.groups && s'.groups[g.id] == g.(advice := Some(Advice(Validating, g.backups[0], job, "", now)))
  {
    hide Normalize, InMaintenance;
    var s1 := ManualStartStep(s, t, Some(job), now);
    assert s1 == Next(s, Serves(t, ManualStart(Some(job), now)));
    assert s1.threads[t] == ManualStarted(g, job) && s1.groups == s.groups;
    s' := ManualSaveStep(s1, t, now, true);
  }

  lemma NormalSwitch(g: Group, suggested: ProviderId, now: Time)
    requires Normalize(g) == Some(g) && g.advice.Some? && suggested in g.backups
    ensures g.primary != "" && g.backups != []
    ensures Normalize(AppliedGroup(g, suggested, now)) == Some(AppliedGroup(g, suggested, now))
    ensures forall a :: Normalize(g.(advice := Some(a))) == Some(g.(advice := Some(a)))
  {
  }

  lemma RunOfThree(s: State, a: Step, b: Step, c: Step)
    ensures Run(s, [a, b, c]) == Next(Next(Next(s, a), b), c)
  {
    hide Next;
    assert [a, b, c][1..] == [b, c] && [b, c][1..] == [c] && [c][1..] == [];
    assert Run(Next(Next(s, a), b), [c]) == Run(Next(Next(Next(s, a), b), c), []);
  }
}
