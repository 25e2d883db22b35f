/** The failover protocol: several goroutines read a provider group, wait up to an hour for a
    validation job, and then write the whole group back. Every step below is what one goroutine
    does between two points where another one can run, so a copy it holds may be arbitrarily stale
    when it is written. */
module Failover {
  import opened Wrappers

  type GroupId = string
  type ProviderId = string
  type JobId = string
  type ThreadId = nat
  type Time = int

  datatype Mode = Advisory | Automatic

  datatype AdviceStatus = Validating | Open | Applied | Recovered | ValidationFailed

  datatype Advice = Advice(status: AdviceStatus, suggested: ProviderId, job: JobId, request: string, updatedAt: Time)

  datatype Group = Group(
    id: GroupId, enabled: bool, mode: Mode,
    primary: ProviderId, backups: seq<ProviderId>, active: ProviderId,
    advice: Option<Advice>,
    failureThreshold: int, recoveryThreshold: int, cooldown: int, probeInterval: int,
    maintenanceStartsAt: Option<Time>, maintenanceUntil: Option<Time>,
    lastProbeAt: Option<Time>, lastProbeStatus: string)

  datatype Source = ValidationSource | RecoverySource | OtherSource

  datatype Outcome = Running | Succeeded | Failed

  /** A job, with the group whose failover started it. */
  datatype Job = Job(provider: ProviderId, source: Source, outcome: Outcome, group: GroupId)

  /** A `request_end` event as `evaluateFailover` receives it. */
  datatype Event = Event(provider: ProviderId, job: JobId, status: string, request: string)

  /** What a goroutine does after the nested call it is in returns. */
  datatype Cont =
    | Finish
    | ResumeEval(event: Event, rest: seq<Group>)
    | Unlock(gid: GroupId)
    | UnlockAndResume(gid: GroupId, event: Event, rest: seq<Group>)

  /** A goroutine at one of its interruption points, with the group copies it holds. */
  datatype Thread =
    | ApplyHolding(group: Group, suggested: ProviderId, stamp: Time)
    | EvalLoop(event: Event, rest: seq<Group>)
    | ValidateAt(group: Group, index: nat, event: Event, rest: seq<Group>)
    | ValidateWait(group: Group, index: nat, job: JobId, event: Event, rest: seq<Group>)
    | Activating(group: Group, provider: ProviderId, cont: Cont)
    | ManualHolding(group: Group)
    | ManualStarted(group: Group, job: JobId)
    | CompleteWait(gid: GroupId, job: JobId)
    | CompleteHolding(group: Group, succeeded: bool)
    | Recovering(group: Group, cont: Cont)
    | RecoverHolding(group: Group, cont: Cont)
    | ProbeLoop(rest: seq<Group>)
    | ProbeMarked(group: Group, rest: seq<Group>)
    | ProbeDeferring(gid: GroupId, group: Group, rest: seq<Group>)
    | ProbeWait(gid: GroupId, job: JobId)
    | ProbeHolding(gid: GroupId, group: Group, succeeded: bool)
    | EditHolding(group: Group)

  datatype State = State(
    groups: map<GroupId, Group>,
    jobs: map<JobId, Job>,
    running: set<GroupId>,
    threads: map<ThreadId, Thread>)

  // ---------- the group store ----------

  const MAX_GROUPS := 50

  predicate Distinct(members: seq<ProviderId>) {
    forall i, j :: 0 <= i < j < |members| ==> members[i] != members[j]
  }

  /** The store's validation and defaulting of the fields the protocol uses. */
  function Normalize(g: Group): Option<Group> {
    if g.primary == "" || |g.backups| < 1 || |g.backups| > 19 then None
    else if "" in g.backups || !Distinct([g.primary] + g.backups) then None
    else
      var n := g.(
        active := if g.active == "" then g.primary else g.active,
        recoveryThreshold := if g.recoveryThreshold == 0 then 2 else g.recoveryThreshold,
        probeInterval := if g.probeInterval == 0 then 300 else g.probeInterval,
        failureThreshold := if g.failureThreshold == 0 then 3 else g.failureThreshold,
        cooldown := if g.cooldown == 0 then 300 else g.cooldown);
      if n.active != n.primary && n.active !in n.backups then None
      else if !(1 <= n.recoveryThreshold <= 100) || !(30 <= n.probeInterval <= 86400) then None
      else if !(1 <= n.failureThreshold <= 100) || !(0 <= n.cooldown <= 86400) then None
      else if n.maintenanceStartsAt.Some? && n.maintenanceUntil.None? then None
      else if n.maintenanceStartsAt.Some? && n.maintenanceUntil.value <= n.maintenanceStartsAt.value then None
      else Some(n)
  }

  /** The whole-group write. A write without advice keeps the advice of the row it replaces. */
  function Stored(groups: map<GroupId, Group>, g: Group): Option<Group> {
    match Normalize(g)
    case None => None
    case Some(n) =>
      if n.id in groups then
        Some(if n.advice.None? then n.(advice := groups[n.id].advice) else n)
      else if |groups| >= MAX_GROUPS then None
      else Some(n)
  }

  function Saved(s: State, g: Group, ok: bool): bool {
    ok && Stored(s.groups, g).Some?
  }

  function Save(s: State, g: Group, ok: bool): State {
    if Saved(s, g, ok) then
      var n := Stored(s.groups, g).value;
      s.(groups := s.groups[n.id := n])
    else s
  }

  // ---------- small helpers of the source ----------

  predicate InMaintenance(g: Group, now: Time) {
    g.maintenanceUntil.Some? && now < g.maintenanceUntil.value
    && (g.maintenanceStartsAt.None? || g.maintenanceStartsAt.value <= now)
  }

  /** Recovery is watched only while a standby serves the group on standing advice. */
  predicate AwaitsRecovery(g: Group) {
    g.active != g.primary && g.advice.Some?
    && ((g.mode == Automatic && g.advice.value.status == Open) || g.advice.value.status == Applied)
  }

  function WithAdvice(g: Group, status: AdviceStatus, now: Time): Group
    requires g.advice.Some?
  {
    g.(advice := Some(g.advice.value.(status := status, updatedAt := now)))
  }

  function Put(s: State, t: ThreadId, thread: Thread): State {
    s.(threads := s.threads[t := thread])
  }

  function Drop(s: State, t: ThreadId): State {
    s.(threads := s.threads - {t})
  }

  function Release(s: State, gid: GroupId): State {
    s.(running := s.running - {gid})
  }

  function Resume(s: State, t: ThreadId, cont: Cont): State {
    match cont
    case Finish => Drop(s, t)
    case ResumeEval(event, rest) => Put(s, t, EvalLoop(event, rest))
    case Unlock(gid) => Release(Drop(s, t), gid)
    case UnlockAndResume(gid, event, rest) => Put(Release(s, gid), t, EvalLoop(event, rest))
  }

  /** The guard at the head of `activateAutomaticProviderGroup`. */
  predicate Activates(g: Group, provider: ProviderId, now: Time) {
    g.mode == Automatic && provider != "" && g.active != provider && !InMaintenance(g, now)
  }

  function Snapshots(s: State, order: seq<GroupId>): seq<Group> {
    if order == [] then []
    else if order[0] in s.groups then [s.groups[order[0]]] + Snapshots(s, order[1..])
    else Snapshots(s, order[1..])
  }

  // ---------- the steps ----------

  // In every step `ok` says whether the store accepts the write, `seen` whether the waiter saw the
  // job end before it gave up, and `started` is None when the job did not start.

  /** What happens outside the protocol. */
  datatype Outside =
    | StartOther(job: JobId, provider: ProviderId)
    | EndJob(job: JobId, success: bool)
    | DeleteGroup(gid: GroupId)

  /** A goroutine enters the protocol with the copies it reads. */
  datatype Entry =
    | ApplyBegin(gid: GroupId, suggested: ProviderId, stamp: Time)
    | EvalBegin(job: JobId, status: string, request: string, order: seq<GroupId>)
    | ManualBegin(gid: GroupId)
    | ProbeBegin(order: seq<GroupId>)
    | EditBegin(gid: GroupId)

  /** Evaluating a failure and validating the standbys. */
  datatype Evaluation =
    | EvalNext(now: Time, failures: int, ok: bool)
    | ValidateStart(started: Option<JobId>, now: Time, ok: bool)
    | ValidateEnd(seen: bool, request: string, now: Time, ok: bool)
    | ValidateAbort
    | Activate(ok: bool)

  /** Operator requests: applying advice, evaluating a standby, editing a maintenance window. */
  datatype Request =
    | ApplyCommit(now: Time, ok: bool)
    | ManualStart(started: Option<JobId>, now: Time)
    | ManualSave(now: Time, ok: bool)
    | CompleteRead(seen: bool, request: string, now: Time)
    | CompleteWrite(now: Time, ok: bool)
    | EditSave(startsAt: Option<Time>, until: Option<Time>, ok: bool)

  /** Watching for the primary's recovery. */
  datatype Recovery =
    | RecoverRead
    | RecoverWrite(successes: int, now: Time, ok: bool)
    | ProbeNext(now: Time, ok: bool)
    | ProbeStart(worker: ThreadId, started: Option<JobId>)
    | ProbeDefer(ok: bool)
    | ProbeRead(seen: bool)
    | ProbeWrite(ok: bool)

  datatype Step =
    | Happens(outside: Outside)
    | Enters(t: ThreadId, entry: Entry)
    | Evaluates(t: ThreadId, evaluation: Evaluation)
    | Serves(t: ThreadId, request: Request)
    | Watches(t: ThreadId, recovery: Recovery)

  predicate Fresh(s: State, job: JobId) {
    job != "" && job !in s.jobs
  }

  function AddJob(s: State, job: JobId, provider: ProviderId, source: Source, gid: GroupId): State {
    s.(jobs := s.jobs[job := Job(provider, source, Running, gid)])
  }

  /** The waiter's view: the job ended with success and the waiter saw it. */
  predicate SeenSuccess(s: State, job: JobId, seen: bool) {
    seen && job in s.jobs && s.jobs[job].outcome == Succeeded
  }

  /** Whether a held group passes every check of a manual switch. */
  predicate MayApply(g: Group, suggested: ProviderId, stamp: Time, now: Time) {
    && g.enabled && g.mode == Advisory
    && g.advice.Some? && g.advice.value.status == Open
    && g.advice.value.job != "" && g.advice.value.request != ""
    && !InMaintenance(g, now)
    && suggested != "" && suggested == g.advice.value.suggested && suggested in g.backups
    && g.advice.value.updatedAt == stamp
  }

  function AppliedGroup(g: Group, suggested: ProviderId, now: Time): Group
    requires g.advice.Some?
  {
    WithAdvice(g, Applied, now).(active := suggested, lastProbeAt := None, lastProbeStatus := "")
  }

  function ApplyCommitStep(s: State, t: ThreadId, now: Time, ok: bool): State
    requires t in s.threads && s.threads[t].ApplyHolding?
  {
    var h := s.threads[t];
    var done := Release(Drop(s, t), h.group.id);
    if h.group.advice.Some? && h.group.advice.value.status == Applied && h.group.active == h.suggested
       && h.group.advice.value.suggested == h.suggested then done
    else if !MayApply(h.group, h.suggested, h.stamp, now) then done
    else Save(done, AppliedGroup(h.group, h.suggested, now), ok)
  }

  /** One iteration of the loop of `evaluateFailover`. */
  function EvalNextStep(s: State, t: ThreadId, now: Time, failures: int, ok: bool): State
    requires t in s.threads && s.threads[t].EvalLoop?
  {
    var EvalLoop(event, rest) := s.threads[t];
    if rest == [] then Drop(s, t)
    else
      var g := rest[0];
      var next := EvalLoop(event, rest[1..]);
      if g.advice.Some? && g.advice.value.status == Validating && g.advice.value.job == event.job then
        var w := WithAdvice(g, if event.status == "success" then Open else ValidationFailed, now);
        var w' := w.(advice := Some(w.advice.value.(request := event.request)));
        if event.status == "success" && Activates(w', w'.advice.value.suggested, now)
        then Put(Save(s, w', ok), t, Activating(w', w'.advice.value.suggested, ResumeEval(event, rest[1..])))
        else Put(Save(s, w', ok), t, next)
      else if !g.enabled || g.primary != event.provider || InMaintenance(g, now) then Put(s, t, next)
      else if event.status == "success" then Put(s, t, Recovering(g, ResumeEval(event, rest[1..])))
      else if event.status == "stopped" || event.status == "running" then Put(s, t, next)
      else if g.advice.Some? && g.advice.value.status == Open then Put(s, t, next)
      else if g.advice.Some? && g.cooldown > 0 && now - g.advice.value.updatedAt < g.cooldown then Put(s, t, next)
      else if failures < g.failureThreshold || g.id in s.running then Put(s, t, next)
      else Put(s.(running := s.running + {g.id}), t, ValidateAt(g, 0, event, rest[1..]))
  }

  /** Starting the next candidate, or giving up once every standby was tried. */
  function ValidateStartStep(s: State, t: ThreadId, started: Option<JobId>, now: Time, ok: bool): State
    requires t in s.threads && s.threads[t].ValidateAt?
  {
    var ValidateAt(g, i, event, rest) := s.threads[t];
    if i >= |g.backups| then
      var failed := g.(advice := Some(Advice(ValidationFailed, "", "", "", now)));
      Put(Release(Save(s, failed, ok), g.id), t, EvalLoop(event, rest))
    else if started.Some? && Fresh(s, started.value) then
      Put(AddJob(s, started.value, g.backups[i], ValidationSource, g.id), t,
        ValidateWait(g, i, started.value, event, rest))
    else Put(s, t, ValidateAt(g, i + 1, event, rest))
  }

  function ValidateEndStep(s: State, t: ThreadId, seen: bool, request: string, now: Time, ok: bool): State
    requires t in s.threads && s.threads[t].ValidateWait?
  {
    var ValidateWait(g, i, job, event, rest) := s.threads[t];
    if !SeenSuccess(s, job, seen) || i >= |g.backups| then Put(s, t, ValidateAt(g, i + 1, event, rest))
    else
      var p := g.backups[i];
      var advised := g.(advice := Some(Advice(Open, p, job, request, now)));
      if Saved(s, advised, ok) && Activates(advised, p, now)
      then Put(Save(s, advised, ok), t, Activating(advised, p, UnlockAndResume(g.id, event, rest)))
      else Resume(Save(s, advised, ok), t, UnlockAndResume(g.id, event, rest))
  }

  function ActivateStep(s: State, t: ThreadId, ok: bool): State
    requires t in s.threads && s.threads[t].Activating?
  {
    var Activating(g, p, cont) := s.threads[t];
    Resume(Save(s, g.(active := p), ok), t, cont)
  }

  function ManualStartStep(s: State, t: ThreadId, started: Option<JobId>, now: Time): State
    requires t in s.threads && s.threads[t].ManualHolding?
  {
    var g := s.threads[t].group;
    if !g.enabled || g.primary == "" || g.backups == [] || InMaintenance(g, now) then Drop(s, t)
    else if started.Some? && Fresh(s, started.value)
    then Put(AddJob(s, started.value, g.backups[0], ValidationSource, g.id), t, ManualStarted(g, started.value))
    else Drop(s, t)
  }

  function ManualSaveStep(s: State, t: ThreadId, now: Time, ok: bool): State
    requires t in s.threads && s.threads[t].ManualStarted?
  {
    var ManualStarted(g, job) := s.threads[t];
    if g.backups == [] then Drop(s, t)
    else
      var w := g.(advice := Some(Advice(Validating, g.backups[0], job, "", now)));
      if Saved(s, w, ok) then Put(Save(s, w, ok), t, CompleteWait(g.id, job)) else Drop(s, t)
  }

  function CompleteReadStep(s: State, t: ThreadId, seen: bool, request: string, now: Time): State
    requires t in s.threads && s.threads[t].CompleteWait?
  {
    var CompleteWait(gid, job) := s.threads[t];
    if gid !in s.groups then Drop(s, t)
    else
      var g := s.groups[gid];
      if g.advice.None? || g.advice.value.job != job || g.advice.value.status != Validating then Drop(s, t)
      else
        var success := SeenSuccess(s, job, seen);
        var w := WithAdvice(g, if success then Open else ValidationFailed, now);
        Put(s, t, CompleteHolding(w.(advice := Some(w.advice.value.(request := request))), success))
  }

  function CompleteWriteStep(s: State, t: ThreadId, now: Time, ok: bool): State
    requires t in s.threads && s.threads[t].CompleteHolding?
  {
    var CompleteHolding(g, success) := s.threads[t];
    if success && Saved(s, g, ok) && g.advice.Some? && Activates(g, g.advice.value.suggested, now)
    then Put(Save(s, g, ok), t, Activating(g, g.advice.value.suggested, Finish))
    else Drop(Save(s, g, ok), t)
  }

  function RecoverReadStep(s: State, t: ThreadId): State
    requires t in s.threads && s.threads[t].Recovering?
  {
    var Recovering(g, cont) := s.threads[t];
    if g.id !in s.groups then Resume(s, t, cont)
    else
      var latest := s.groups[g.id];
      var merged := if g.lastProbeStatus != ""
                    then latest.(lastProbeAt := g.lastProbeAt, lastProbeStatus := g.lastProbeStatus)
                    else latest;
      Put(s, t, RecoverHolding(merged, cont))
  }

  /** What `recoverFailoverAdvice` writes back, given the number of successes its scan counted. */
  function RecoveredGroup(g: Group, successes: int, now: Time): Group {
    var threshold := if g.recoveryThreshold < 1 then 2 else g.recoveryThreshold;
    if g.advice.None? || (g.advice.value.status != Open && g.advice.value.status != Applied) then g
    else if successes < threshold then g
    else
      var closed := WithAdvice(g, Recovered, now);
      if (g.mode == Automatic || g.advice.value.status == Applied) && g.active != g.primary
      then closed.(active := g.primary)
      else closed
  }

  function RecoverWriteStep(s: State, t: ThreadId, successes: int, now: Time, ok: bool): State
    requires t in s.threads && s.threads[t].RecoverHolding?
  {
    var RecoverHolding(g, cont) := s.threads[t];
    Resume(Save(s, RecoveredGroup(g, successes, now), ok), t, cont)
  }

  /** One iteration of the loop of `reconcileProviderGroupRecovery`, up to its first write. */
  function ProbeNextStep(s: State, t: ThreadId, now: Time, ok: bool): State
    requires t in s.threads && s.threads[t].ProbeLoop?
  {
    var rest := s.threads[t].rest;
    if rest == [] then Drop(s, t)
    else
      var g := rest[0];
      var next := Put(s, t, ProbeLoop(rest[1..]));
      var interval := if g.probeInterval < 30 then 300 else g.probeInterval;
      if !g.enabled || g.active == "" || !AwaitsRecovery(g) || InMaintenance(g, now) then next
      else if g.lastProbeAt.Some? && now - g.lastProbeAt.value < interval then next
      else if g.id in s.running then next
      else
        var marked := g.(lastProbeAt := Some(now), lastProbeStatus := "running");
        if Saved(s, marked, ok)
        then Put(Save(s.(running := s.running + {g.id}), marked, ok), t, ProbeMarked(marked, rest[1..]))
        else next
  }

  function ProbeStartStep(s: State, t: ThreadId, worker: ThreadId, started: Option<JobId>): State
    requires t in s.threads && s.threads[t].ProbeMarked?
  {
    var ProbeMarked(g, rest) := s.threads[t];
    if started.Some? && Fresh(s, started.value) && worker !in s.threads then
      Put(Put(AddJob(s, started.value, g.primary, RecoverySource, g.id), t, ProbeLoop(rest)),
          worker, ProbeWait(g.id, started.value))
    else if g.id in s.groups then Put(s, t, ProbeDeferring(g.id, s.groups[g.id], rest))
    else Put(Release(s, g.id), t, ProbeLoop(rest))
  }

  function ProbeDeferStep(s: State, t: ThreadId, ok: bool): State
    requires t in s.threads && s.threads[t].ProbeDeferring?
  {
    var ProbeDeferring(gid, g, rest) := s.threads[t];
    Put(Release(Save(s, g.(lastProbeAt := None, lastProbeStatus := "deferred"), ok), gid), t, ProbeLoop(rest))
  }

  function ProbeReadStep(s: State, t: ThreadId, seen: bool): State
    requires t in s.threads && s.threads[t].ProbeWait?
  {
    var ProbeWait(gid, job) := s.threads[t];
    if gid !in s.groups || !AwaitsRecovery(s.groups[gid]) then Release(Drop(s, t), gid)
    else Put(s, t, ProbeHolding(gid, s.groups[gid], SeenSuccess(s, job, seen)))
  }

  function ProbeWriteStep(s: State, t: ThreadId, ok: bool): State
    requires t in s.threads && s.threads[t].ProbeHolding?
  {
    var ProbeHolding(gid, g, success) := s.threads[t];
    var w := g.(lastProbeStatus := if success then "success" else "failed");
    if success && Saved(s, w, ok)
    then Put(Save(s, w, ok), t, Recovering(w, Unlock(gid)))
    else Release(Drop(Save(s, w, ok), t), gid)
  }

  // A step that is not enabled leaves the state as it is.

  function OutsideStep(s: State, o: Outside): State {
    match o
    case StartOther(job, provider) => if Fresh(s, job) then AddJob(s, job, provider, OtherSource, "") else s
    case EndJob(job, success) =>
      if job in s.jobs && s.jobs[job].outcome == Running
      then s.(jobs := s.jobs[job := s.jobs[job].(outcome := if success then Succeeded else Failed)])
      else s
    case DeleteGroup(gid) => s.(groups := s.groups - {gid})
  }

  function EntryStep(s: State, t: ThreadId, e: Entry): State
    requires t !in s.threads
  {
    match e
    case ApplyBegin(gid, suggested, stamp) =>
      if gid !in s.running && gid in s.groups
      then Put(s.(running := s.running + {gid}), t, ApplyHolding(s.groups[gid], suggested, stamp))
      else s
    case EvalBegin(job, status, request, order) =>
      if job in s.jobs && s.jobs[job].source == OtherSource && s.jobs[job].provider != ""
      then Put(s, t, EvalLoop(Event(s.jobs[job].provider, job, status, request), Snapshots(s, order)))
      else s
    case ManualBegin(gid) => if gid in s.groups then Put(s, t, ManualHolding(s.groups[gid])) else s
    case ProbeBegin(order) => Put(s, t, ProbeLoop(Snapshots(s, order)))
    case EditBegin(gid) => if gid in s.groups then Put(s, t, EditHolding(s.groups[gid])) else s
  }

  function EvaluationStep(s: State, t: ThreadId, e: Evaluation): State
    requires t in s.threads
  {
    var thread := s.threads[t];
    match e
    case EvalNext(now, failures, ok) => if thread.EvalLoop? then EvalNextStep(s, t, now, failures, ok) else s
    case ValidateStart(started, now, ok) =>
      if thread.ValidateAt? then ValidateStartStep(s, t, started, now, ok) else s
    case ValidateEnd(seen, request, now, ok) =>
      if thread.ValidateWait? then ValidateEndStep(s, t, seen, request, now, ok) else s
    case ValidateAbort =>
      if thread.ValidateAt?
      then Resume(s, t, UnlockAndResume(thread.group.id, thread.event, thread.rest))
      else s
    case Activate(ok) => if thread.Activating? then ActivateStep(s, t, ok) else s
  }

  function RequestStep(s: State, t: ThreadId, r: Request): State
    requires t in s.threads
  {
    var thread := s.threads[t];
    match r
    case ApplyCommit(now, ok) => if thread.ApplyHolding? then ApplyCommitStep(s, t, now, ok) else s
    case ManualStart(started, now) => if thread.ManualHolding? then ManualStartStep(s, t, started, now) else s
    case ManualSave(now, ok) => if thread.ManualStarted? then ManualSaveStep(s, t, now, ok) else s
    case CompleteRead(seen, request, now) =>
      if thread.CompleteWait? then CompleteReadStep(s, t, seen, request, now) else s
    case CompleteWrite(now, ok) => if thread.CompleteHolding? then CompleteWriteStep(s, t, now, ok) else s
    case EditSave(startsAt, until, ok) =>
      if thread.EditHolding?
      then Drop(Save(s, thread.group.(maintenanceStartsAt := startsAt, maintenanceUntil := until), ok), t)
      else s
  }

  function RecoveryStep(s: State, t: ThreadId, r: Recovery): State
    requires t in s.threads
  {
    var thread := s.threads[t];
    match r
    case RecoverRead => if thread.Recovering? then RecoverReadStep(s, t) else s
    case RecoverWrite(successes, now, ok) =>
      if thread.RecoverHolding? then RecoverWriteStep(s, t, successes, now, ok) else s
    case ProbeNext(now, ok) => if thread.ProbeLoop? then ProbeNextStep(s, t, now, ok) else s
    case ProbeStart(worker, started) => if thread.ProbeMarked? then ProbeStartStep(s, t, worker, started) else s
    case ProbeDefer(ok) => if thread.ProbeDeferring? then ProbeDeferStep(s, t, ok) else s
    case ProbeRead(seen) => if thread.ProbeWait? then ProbeReadStep(s, t, seen) else s
    case ProbeWrite(ok) => if thread.ProbeHolding? then ProbeWriteStep(s, t, ok) else s
  }

  function Next(s: State, step: Step): State {
    match step
    case Happens(o) => OutsideStep(s, o)
    case Enters(t, e) => if t in s.threads then s else EntryStep(s, t, e)
    case Evaluates(t, e) => if t in s.threads then EvaluationStep(s, t, e) else s
    case Serves(t, r) => if t in s.threads then RequestStep(s, t, r) else s
    case Watches(t, r) => if t in s.threads then RecoveryStep(s, t, r) else s
  }

  function Run(s: State, steps: seq<Step>): State
    decreases |steps|
  {
    if steps == [] then s else Run(Next(s, steps[0]), steps[1..])
  }
}
