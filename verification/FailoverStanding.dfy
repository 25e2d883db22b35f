/** How long a switch stands: which steps can change the active provider of a stored group, and what
    keeps a provider active over whole runs. */
module FailoverStanding {
  import opened Wrappers
  import opened Failover
  import opened FailoverSafety

  // ---------- what a step writes ----------

  function EvaluationWrite(thread: Thread, jobs: map<JobId, Job>, e: Evaluation): Option<Group> {
    match e
    case EvalNext(_, _, _) => None
    case ValidateStart(_, now, _) =>
      if thread.ValidateAt? && thread.index >= |thread.group.backups|
      then Some(thread.group.(advice := Some(Advice(ValidationFailed, "", "", "", now))))
      else None
    case ValidateEnd(seen, request, now, _) =>
      if thread.ValidateWait? && seen && thread.job in jobs && jobs[thread.job].outcome == Succeeded
         && thread.index < |thread.group.backups|
      then Some(thread.group.(advice := Some(
                  Advice(Open, thread.group.backups[thread.index], thread.job, request, now))))
      else None
    case ValidateAbort => None
    case Activate(_) => if thread.Activating? then Some(thread.group.(active := thread.provider)) else None
  }

  function RequestWrite(thread: Thread, r: Request): Option<Group> {
    match r
    case ApplyCommit(now, _) =>
      if thread.ApplyHolding? && MayApply(thread.group, thread.suggested, thread.stamp, now)
      then Some(AppliedGroup(thread.group, thread.suggested, now))
      else None
    case ManualStart(_, _) => None
    case ManualSave(now, _) =>
      if thread.ManualStarted? && thread.group.backups != []
      then Some(thread.group.(advice := Some(Advice(Validating, thread.group.backups[0], thread.job, "", now))))
      else None
    case CompleteRead(_, _, _) => None
    case CompleteWrite(_, _) => if thread.CompleteHolding? then Some(thread.group) else None
    case EditSave(startsAt, until, _) =>
      if thread.EditHolding?
      then Some(thread.group.(maintenanceStartsAt := startsAt, maintenanceUntil := until)) else None
  }

  /** The group is due for a recovery probe. */
  predicate ProbeDue(g: Group, running: set<GroupId>, now: Time) {
    && g.enabled && g.active != "" && AwaitsRecovery(g) && !InMaintenance(g, now)
    && (g.lastProbeAt.Some? ==> now - g.lastProbeAt.value >= if g.probeInterval < 30 then 300 else g.probeInterval)
    && g.id !in running
  }

  function RecoveryWrite(thread: Thread, running: set<GroupId>, r: Recovery): Option<Group> {
    match r
    case RecoverRead => None
    case RecoverWrite(successes, now, _) =>
      if thread.RecoverHolding? then Some(RecoveredGroup(thread.group, successes, now)) else None
    case ProbeNext(now, _) =>
      if thread.ProbeLoop? && thread.rest != [] && ProbeDue(thread.rest[0], running, now)
      then Some(thread.rest[0].(lastProbeAt := Some(now), lastProbeStatus := "running"))
      else None
    case ProbeStart(_, _) => None
    case ProbeDefer(_) =>
      if thread.ProbeDeferring? then Some(thread.group.(lastProbeAt := None, lastProbeStatus := "deferred")) else None
    case ProbeRead(_) => None
    case ProbeWrite(_) =>
      if thread.ProbeHolding?
      then Some(thread.group.(lastProbeStatus := if thread.succeeded then "success" else "failed"))
      else None
  }

  /** The group that a step hands to the store, if it hands it any. */
  function Written(s: State, step: Step): Option<Group> {
    match step
    case Happens(_) => None
    case Enters(_, _) => None
    case Evaluates(t, e) => if t in s.threads then EvaluationWrite(s.threads[t], s.jobs, e) else None
    case Serves(t, r) => if t in s.threads then RequestWrite(s.threads[t], r) else None
    case Watches(t, r) => if t in s.threads then RecoveryWrite(s.threads[t], s.running, r) else None
  }

  /** Whether the store accepts what the step hands to it. */
  predicate Accepts(step: Step) {
    match step
    case Happens(_) => false
    case Enters(_, _) => false
    case Evaluates(_, e) =>
      (e.ValidateStart? && e.ok) || (e.ValidateEnd? && e.ok) || (e.Activate? && e.ok)
    case Serves(_, r) =>
      (r.ApplyCommit? && r.ok) || (r.ManualSave? && r.ok) || (r.CompleteWrite? && r.ok) || (r.EditSave? && r.ok)
    case Watches(_, r) =>
      (r.RecoverWrite? && r.ok) || (r.ProbeNext? && r.ok) || (r.ProbeDefer? && r.ok) || (r.ProbeWrite? && r.ok)
  }

  /** The rows after a step: one row is written at most. */
  function RowsAfter(s: State, w: Option<Group>, ok: bool): map<GroupId, Group> {
    if w.Some? then Save(s, w.value, ok).groups else s.groups
  }

  lemma EvaluationRows(s: State, t: ThreadId, e: Evaluation)
    requires Safe(s) && t in s.threads
    ensures EvaluationStep(s, t, e).groups
            == RowsAfter(s, EvaluationWrite(s.threads[t], s.jobs, e), Accepts(Evaluates(t, e)))
  {
    var thread := s.threads[t];
    hide Safe, Save, EvalNextStep, ValidateStartStep, ValidateEndStep, ActivateStep;
    match e
    case EvalNext(now, failures, ok) => if thread.EvalLoop? { EvalNextRows(s, t, now, failures, ok); }
    case ValidateStart(started, now, ok) => if thread.ValidateAt? { ValidateStartRows(s, t, started, now, ok); }
    case ValidateEnd(seen, request, now, ok) =>
      if thread.ValidateWait? { ValidateEndRows(s, t, seen, request, now, ok); }
    case ValidateAbort =>
    case Activate(ok) => if thread.Activating? { ActivateRows(s, t, ok); }
  }

  lemma ValidateStartRows(s: State, t: ThreadId, started: Option<JobId>, now: Time, ok: bool)
    requires t in s.threads && s.threads[t].ValidateAt?
    ensures ValidateStartStep(s, t, started, now, ok).groups
            == RowsAfter(s, EvaluationWrite(s.threads[t], s.jobs, ValidateStart(started, now, ok)), ok)
  {
    hide Save;
  }

  lemma ValidateEndRows(s: State, t: ThreadId, seen: bool, request: string, now: Time, ok: bool)
    requires t in s.threads && s.threads[t].ValidateWait?
    ensures ValidateEndStep(s, t, seen, request, now, ok).groups
            == RowsAfter(s, EvaluationWrite(s.threads[t], s.jobs, ValidateEnd(seen, request, now, ok)), ok)
  {
    hide Save, Saved, Activates;
  }

  lemma ActivateRows(s: State, t: ThreadId, ok: bool)
    requires t in s.threads && s.threads[t].Activating?
    ensures ActivateStep(s, t, ok).groups == RowsAfter(s, EvaluationWrite(s.threads[t], s.jobs, Activate(ok)), ok)
  {
    hide Save;
  }

  /** A round of the evaluation loop writes nothing. */
  lemma EvalNextRows(s: State, t: ThreadId, now: Time, failures: int, ok: bool)
    requires Safe(s) && t in s.threads && s.threads[t].EvalLoop?
    ensures EvalNextStep(s, t, now, failures, ok).groups == s.groups
  {
    if s.threads[t].rest != [] { ValidatingBranchUnreachable(s, t); }
    hide Safe, InMaintenance, Save, Activates;
  }

  /** A write depends on the stored rows alone. */
  lemma SameRows(s: State, s': State, w: Group, ok: bool)
    requires s'.groups == s.groups
    ensures Save(s', w, ok).groups == Save(s, w, ok).groups && Saved(s', w, ok) == Saved(s, w, ok)
  {
    hide Stored;
  }

  lemma RequestRows(s: State, t: ThreadId, r: Request)
    requires t in s.threads
    ensures RequestStep(s, t, r).groups == RowsAfter(s, RequestWrite(s.threads[t], r), Accepts(Serves(t, r)))
  {
    hide InMaintenance, Save, Saved, Activates, AppliedGroup;
    match r
    case ApplyCommit(_, ok) =>
      if RequestWrite(s.threads[t], r).Some? {
        SameRows(s, Release(Drop(s, t), s.threads[t].group.id), RequestWrite(s.threads[t], r).value, ok);
      }
    case ManualStart(_, _) =>
    case ManualSave(_, ok) =>
      if RequestWrite(s.threads[t], r).Some? { SavedRow(s, RequestWrite(s.threads[t], r).value, ok, ""); }
    case CompleteRead(_, _, _) =>
    case CompleteWrite(_, _) =>
    case EditSave(_, _, _) =>
  }

  lemma RecoveryRows(s: State, t: ThreadId, r: Recovery)
    requires t in s.threads
    ensures RecoveryStep(s, t, r).groups
            == RowsAfter(s, RecoveryWrite(s.threads[t], s.running, r), Accepts(Watches(t, r)))
  {
    hide InMaintenance, Save, Saved, AwaitsRecovery, RecoveredGroup;
    match r
    case RecoverRead =>
    case RecoverWrite(_, _, _) =>
    case ProbeNext(_, ok) =>
      if RecoveryWrite(s.threads[t], s.running, r).Some? {
        var w := RecoveryWrite(s.threads[t], s.running, r).value;
        SavedRow(s, w, ok, "");
        SameRows(s, s.(running := s.running + {w.id}), w, ok);
      }
    case ProbeStart(_, _) =>
    case ProbeDefer(_) =>
    case ProbeRead(_) =>
    case ProbeWrite(ok) =>
      if RecoveryWrite(s.threads[t], s.running, r).Some? {
        SavedRow(s, RecoveryWrite(s.threads[t], s.running, r).value, ok, "");
      }
  }

  /** Every step leaves the rows alone, deletes one, or writes the one group it hands to the store. */
  lemma StepRows(s: State, step: Step)
    requires Safe(s)
    ensures Next(s, step).groups == if step.Happens? && step.outside.DeleteGroup? then s.groups - {step.outside.gid}
                                    else RowsAfter(s, Written(s, step), Accepts(step))
  {
    hide Save;
    match step
    case Happens(o) =>
    case Enters(t, e) =>
    case Evaluates(t, e) => if t in s.threads { EvaluationRows(s, t, e); }
    case Serves(t, r) => if t in s.threads { RequestRows(s, t, r); }
    case Watches(t, r) => if t in s.threads { RecoveryRows(s, t, r); }
  }

  // ---------- which steps change the active provider ----------

  /** The copy a write is made from. */
  function Copy(thread: Thread): Option<Group> {
    if Held(thread) == [] then None else Some(Held(thread)[0])
  }

  /** The provider a stored copy makes active. */
  function Serving(g: Group): ProviderId {
    if g.active == "" then g.primary else g.active
  }

  /** The step changes the active provider on purpose: a switch by hand, an automatic switch, or the
      return to the primary after enough successes. */
  predicate Reassigns(s: State, step: Step) {
    && Written(s, step).Some?
    && match step
       case Happens(_) => false
       case Enters(_, _) => false
       case Evaluates(_, e) => e.Activate?
       case Serves(_, r) => r.ApplyCommit?
       case Watches(t, r) => r.RecoverWrite? && Returns(s.threads[t].group, r.successes)
  }

  /** Recovery closes standing advice and goes back to the primary. */
  predicate Returns(g: Group, successes: int) {
    && g.advice.Some? && (g.advice.value.status == Open || g.advice.value.status == Applied)
    && successes >= (if g.recoveryThreshold < 1 then 2 else g.recoveryThreshold)
    && (g.mode == Automatic || g.advice.value.status == Applied) && g.active != g.primary
  }

  /** The thread that takes the step. */
  function Taker(step: Step): ThreadId {
    match step
    case Happens(_) => 0
    case Enters(t, _) => t
    case Evaluates(t, _) => t
    case Serves(t, _) => t
    case Watches(t, _) => t
  }

  /** What is written has the id of the copy it is made from, and its active provider unless the step
      reassigns it: to the validated standby, or to the primary. */
  lemma WrittenFrom(s: State, step: Step)
    requires Written(s, step).Some?
    ensures Taker(step) in s.threads && Copy(s.threads[Taker(step)]).Some?
    ensures var thread := s.threads[Taker(step)]; var copy := Copy(thread).value; var w := Written(s, step).value;
            && w.id == copy.id && w.primary == copy.primary
            && (!Reassigns(s, step) ==> w.active == copy.active)
            && (step.Evaluates? && step.evaluation.Activate? ==> thread.Activating? && w.active == thread.provider)
            && (step.Serves? && step.request.ApplyCommit? ==> thread.ApplyHolding? && w.active == thread.suggested)
            && (step.Watches? && Reassigns(s, step) ==> w.active == copy.primary)
  {
    hide MayApply, InMaintenance, ProbeDue;
    match step
    case Evaluates(t, e) =>
    case Serves(t, r) =>
    case Watches(t, r) =>
  }

  predicate Saves(s: State, step: Step, gid: GroupId) {
    Written(s, step).Some? && Written(s, step).value.id == gid && Saved(s, Written(s, step).value, Accepts(step))
  }

  /** The row of the group has gone or serves another provider. */
  predicate Changes(s: State, s': State, gid: GroupId)
    requires gid in s.groups
  {
    gid !in s'.groups || s'.groups[gid].active != s.groups[gid].active
  }

  lemma SavedRow(s: State, w: Group, ok: bool, gid: GroupId)
    ensures w.id != gid ==> (gid in Save(s, w, ok).groups <==> gid in s.groups)
    ensures w.id != gid && gid in s.groups ==> Save(s, w, ok).groups[gid] == s.groups[gid]
    ensures w.id == gid && Saved(s, w, ok) ==>
              gid in Save(s, w, ok).groups && Save(s, w, ok).groups[gid].active == Serving(w)
    ensures !Saved(s, w, ok) ==> Save(s, w, ok).groups == s.groups
  {
  }

  /** In every safe state, exactly which steps change the active provider of a stored group: its
      deletion, a reassignment to another provider that is saved, and a saved write of a copy that
      has another provider active. */
  lemma ActiveChangesIff(s: State, step: Step, gid: GroupId)
    requires Safe(s) && gid in s.groups
    ensures Changes(s, Next(s, step), gid) <==>
              || step == Happens(DeleteGroup(gid))
              || (Saves(s, step, gid) && Reassigns(s, step) && Serving(Written(s, step).value) != s.groups[gid].active)
              || (Saves(s, step, gid) && !Reassigns(s, step)
                  && Serving(Copy(s.threads[Taker(step)]).value) != s.groups[gid].active)
  {
    StepRows(s, step);
    if Written(s, step).Some? {
      SavedRow(s, Written(s, step).value, Accepts(step), gid);
      WrittenFrom(s, step);
    }
    hide Written, Accepts, Save, Saved, Reassigns, Next, Safe, Copy;
  }

  // ---------- the copies that may still be written ----------

  /** The evaluation of the event may come to validate the standbys of this copy. */
  predicate MayValidate(g: Group, event: Event) {
    && g.enabled && g.primary == event.provider
    && event.status != "success" && event.status != "stopped" && event.status != "running"
    && !(g.advice.Some? && g.advice.value.status == Open)
  }

  /** The watch for recovery may come to mark this copy. */
  predicate MayProbe(g: Group) {
    g.enabled && g.active != "" && AwaitsRecovery(g)
  }

  predicate MayEvaluate(g: Group) {
    g.enabled && g.primary != "" && g.backups != []
  }

  function EvalCopies(event: Event, rest: seq<Group>): seq<Group> {
    if rest == [] then []
    else (if MayValidate(rest[0], event) then [rest[0]] else []) + EvalCopies(event, rest[1..])
  }

  function ProbeCopies(rest: seq<Group>): seq<Group> {
    if rest == [] then []
    else (if MayProbe(rest[0]) then [rest[0]] else []) + ProbeCopies(rest[1..])
  }

  function ContCopies(cont: Cont): seq<Group> {
    match cont
    case Finish => []
    case ResumeEval(event, rest) => EvalCopies(event, rest)
    case Unlock(_) => []
    case UnlockAndResume(_, event, rest) => EvalCopies(event, rest)
  }

  /** The copies a goroutine may still write without reading the row again, and without assigning
      another provider on purpose. */
  function Writable(thread: Thread): seq<Group> {
    match thread
    case ApplyHolding(_, _, _) => []
    case EvalLoop(event, rest) => EvalCopies(event, rest)
    case ValidateAt(g, _, event, rest) => [g] + EvalCopies(event, rest)
    case ValidateWait(g, _, _, event, rest) => [g] + EvalCopies(event, rest)
    case Activating(_, _, cont) => ContCopies(cont)
    case ManualHolding(g) => if MayEvaluate(g) then [g] else []
    case ManualStarted(g, _) => [g]
    case CompleteWait(_, _) => []
    case CompleteHolding(g, _) => [g]
    case Recovering(_, cont) => ContCopies(cont)
    case RecoverHolding(g, cont) => [g] + ContCopies(cont)
    case ProbeLoop(rest) => ProbeCopies(rest)
    case ProbeMarked(_, rest) => ProbeCopies(rest)
    case ProbeDeferring(_, g, rest) => [g] + ProbeCopies(rest)
    case ProbeWait(_, _) => []
    case ProbeHolding(_, g, _) => [g]
    case EditHolding(g) => [Unplanned(g)]
  }

  /** The copy without a maintenance window: the store accepts it with some window if at all. */
  function Unplanned(g: Group): Group {
    g.(maintenanceStartsAt := None, maintenanceUntil := None)
  }

  // ---------- how long a provider stays active ----------

  /** If it is a copy of the group, it serves the provider, or the store would not accept it. */
  predicate Keeps(g: Group, gid: GroupId, p: ProviderId) {
    g.id == gid ==> Serving(g) == p || Normalize(g).None?
  }

  /** The two are the same for that. */
  predicate Alike(g: Group, g': Group) {
    g'.id == g.id && Serving(g') == Serving(g) && (Normalize(g').Some? <==> Normalize(g).Some?)
  }

  lemma MarksAlike(g: Group)
    ensures forall a :: Alike(g, g.(advice := a))
    ensures forall at, status :: Alike(g, g.(lastProbeAt := at, lastProbeStatus := status))
    ensures forall status :: Alike(g, g.(lastProbeStatus := status))
    ensures Alike(g, g)
  {
    hide Distinct;
  }

  lemma AlikeKeeps(g: Group, g': Group, gid: GroupId, p: ProviderId)
    requires Alike(g, g') && Keeps(g, gid, p)
    ensures Keeps(g', gid, p)
  {
    hide Normalize;
  }

  ghost predicate AllKeep(copies: seq<Group>, gid: GroupId, p: ProviderId) {
    forall i :: 0 <= i < |copies| ==> Keeps(copies[i], gid, p)
  }

  ghost predicate CopiesKeep(threads: map<ThreadId, Thread>, gid: GroupId, p: ProviderId) {
    forall t :: t in threads ==> AllKeep(Writable(threads[t]), gid, p)
  }

  /** The row of the group serves the provider. */
  ghost predicate RowsKeep(groups: map<GroupId, Group>, gid: GroupId, p: ProviderId) {
    p != "" && forall k :: k in groups && groups[k].id == gid ==> groups[k].active == p
  }

  /** The provider is active in the stored row and in every copy that may still be written. */
  ghost predicate Established(s: State, gid: GroupId, p: ProviderId) {
    p != "" && gid in s.groups && s.groups[gid].active == p && CopiesKeep(s.threads, gid, p)
  }

  lemma AllKeepParts(a: seq<Group>, b: seq<Group>, gid: GroupId, p: ProviderId)
    ensures AllKeep(a + b, gid, p) <==> AllKeep(a, gid, p) && AllKeep(b, gid, p)
  {
    hide Keeps;
    if AllKeep(a + b, gid, p) {
      forall i | 0 <= i < |a| ensures Keeps(a[i], gid, p) { assert (a + b)[i] == a[i]; }
      forall i | 0 <= i < |b| ensures Keeps(b[i], gid, p) { assert (a + b)[|a| + i] == b[i]; }
    }
  }

  lemma SaveThreads(s: State, w: Group, ok: bool)
    ensures Save(s, w, ok).threads == s.threads
  {
    hide Stored;
  }

  lemma ResumeCopies(s: State, t: ThreadId, cont: Cont, gid: GroupId, p: ProviderId)
    requires CopiesKeep(s.threads, gid, p) && AllKeep(ContCopies(cont), gid, p)
    ensures CopiesKeep(Resume(s, t, cont).threads, gid, p)
  {
    hide AllKeep, EvalCopies, ProbeCopies;
    match cont
    case Finish =>
    case ResumeEval(event, rest) =>
    case Unlock(_) =>
    case UnlockAndResume(_, event, rest) =>
  }

  lemma PutCopies(s: State, t: ThreadId, thread: Thread, gid: GroupId, p: ProviderId)
    requires CopiesKeep(s.threads, gid, p) && AllKeep(Writable(thread), gid, p)
    ensures CopiesKeep(Put(s, t, thread).threads, gid, p)
  {
    hide AllKeep, Writable;
  }

  lemma WritableKeep(s: State, t: ThreadId, gid: GroupId, p: ProviderId)
    requires CopiesKeep(s.threads, gid, p) && t in s.threads
    ensures AllKeep(Writable(s.threads[t]), gid, p)
  {
  }

  lemma OneKeeps(g: Group, gid: GroupId, p: ProviderId)
    ensures AllKeep([g], gid, p) <==> Keeps(g, gid, p)
  {
    hide Keeps;
    assert [g][0] == g;
  }

  /** A goroutine goes on with a copy that is like the one before. */
  lemma CopyKeeps(s: State, t: ThreadId, g: Group, rest: seq<Group>, g': Group, gid: GroupId, p: ProviderId)
    requires CopiesKeep(s.threads, gid, p) && t in s.threads && Writable(s.threads[t]) == [g] + rest && Alike(g, g')
    ensures AllKeep([g'] + rest, gid, p) && AllKeep(rest, gid, p) && AllKeep([g'], gid, p)
  {
    hide Keeps, Alike, Writable;
    WritableKeep(s, t, gid, p);
    AllKeepParts([g], rest, gid, p);
    AllKeepParts([g'], rest, gid, p);
    OneKeeps(g, gid, p);
    OneKeeps(g', gid, p);
    AlikeKeeps(g, g', gid, p);
  }

  /** Where a round of the evaluation leads. */
  lemma EvalNextThreads(s: State, t: ThreadId, now: Time, failures: int, ok: bool)
    requires Safe(s) && t in s.threads && s.threads[t].EvalLoop? && s.threads[t].rest != []
    ensures var EvalLoop(event, rest) := s.threads[t]; var threads := EvalNextStep(s, t, now, failures, ok).threads;
            || threads == Put(s, t, EvalLoop(event, rest[1..])).threads
            || threads == Put(s, t, Recovering(rest[0], ResumeEval(event, rest[1..]))).threads
            || (MayValidate(rest[0], event) && threads == Put(s, t, ValidateAt(rest[0], 0, event, rest[1..])).threads)
  {
    ValidatingBranchUnreachable(s, t);
    hide Safe, InMaintenance, Save, Activates;
  }

  lemma EvalNextCopies(s: State, t: ThreadId, now: Time, failures: int, ok: bool, gid: GroupId, p: ProviderId)
    requires Safe(s) && CopiesKeep(s.threads, gid, p) && t in s.threads && s.threads[t].EvalLoop?
    ensures CopiesKeep(EvalNextStep(s, t, now, failures, ok).threads, gid, p)
  {
    var EvalLoop(event, rest) := s.threads[t];
    DropCopies(s, t, gid, p);
    if rest != [] {
      EvalNextThreads(s, t, now, failures, ok);
      hide Safe, AllKeep, EvalNextStep, CopiesKeep, MayValidate;
      var g := rest[0];
      WritableKeep(s, t, gid, p);
      AllKeepParts(if MayValidate(g, event) then [g] else [], EvalCopies(event, rest[1..]), gid, p);
      PutCopies(s, t, EvalLoop(event, rest[1..]), gid, p);
      PutCopies(s, t, Recovering(g, ResumeEval(event, rest[1..])), gid, p);
      if MayValidate(g, event) { PutCopies(s, t, ValidateAt(g, 0, event, rest[1..]), gid, p); }
    }
  }

  lemma DropCopies(s: State, t: ThreadId, gid: GroupId, p: ProviderId)
    requires CopiesKeep(s.threads, gid, p)
    ensures CopiesKeep(Drop(s, t).threads, gid, p)
  {
    hide AllKeep, Writable;
  }

  lemma ValidateStartCopies(s: State, t: ThreadId, started: Option<JobId>, now: Time, ok: bool,
        gid: GroupId, p: ProviderId)
    requires CopiesKeep(s.threads, gid, p) && t in s.threads && s.threads[t].ValidateAt?
    ensures CopiesKeep(ValidateStartStep(s, t, started, now, ok).threads, gid, p)
  {
    hide AllKeep, Save, Saved, CopiesKeep, EvalCopies, Alike;
    var ValidateAt(g, i, event, rest) := s.threads[t];
    MarksAlike(g);
    CopyKeeps(s, t, g, EvalCopies(event, rest), g, gid, p);
    SaveThreads(s, g.(advice := Some(Advice(ValidationFailed, "", "", "", now))), ok);
    PutCopies(s, t, EvalLoop(event, rest), gid, p);
    if started.Some? { PutCopies(s, t, ValidateWait(g, i, started.value, event, rest), gid, p); }
    PutCopies(s, t, ValidateAt(g, i + 1, event, rest), gid, p);
  }

  lemma ValidateEndCopies(s: State, t: ThreadId, seen: bool, request: string, now: Time, ok: bool,
                          gid: GroupId, p: ProviderId)
    requires CopiesKeep(s.threads, gid, p) && t in s.threads && s.threads[t].ValidateWait?
    ensures CopiesKeep(ValidateEndStep(s, t, seen, request, now, ok).threads, gid, p)
  {
    hide AllKeep, Save, Saved, Activates, CopiesKeep, EvalCopies, Alike;
    var ValidateWait(g, i, job, event, rest) := s.threads[t];
    MarksAlike(g);
    CopyKeeps(s, t, g, EvalCopies(event, rest), g, gid, p);
    PutCopies(s, t, ValidateAt(g, i + 1, event, rest), gid, p);
    if i < |g.backups| {
      var advised := g.(advice := Some(Advice(Open, g.backups[i], job, request, now)));
      SaveThreads(s, advised, ok);
      PutCopies(s, t, Activating(advised, g.backups[i], UnlockAndResume(g.id, event, rest)), gid, p);
      SameCopies(s, Save(s, advised, ok), gid, p);
      ResumeCopies(Save(s, advised, ok), t, UnlockAndResume(g.id, event, rest), gid, p);
    }
  }

  lemma SameCopies(s: State, s': State, gid: GroupId, p: ProviderId)
    requires CopiesKeep(s.threads, gid, p) && s'.threads == s.threads
    ensures CopiesKeep(s'.threads, gid, p)
  {
  }

  lemma EvaluationCopies(s: State, t: ThreadId, e: Evaluation, gid: GroupId, p: ProviderId)
    requires Safe(s) && CopiesKeep(s.threads, gid, p) && t in s.threads
    ensures CopiesKeep(EvaluationStep(s, t, e).threads, gid, p)
  {
    var thread := s.threads[t];
    hide Safe, AllKeep, Save, EvalNextStep, ValidateStartStep, ValidateEndStep, CopiesKeep, EvalCopies, Alike;
    match e
    case EvalNext(now, failures, ok) => if thread.EvalLoop? { EvalNextCopies(s, t, now, failures, ok, gid, p); }
    case ValidateStart(started, now, ok) =>
      if thread.ValidateAt? { ValidateStartCopies(s, t, started, now, ok, gid, p); }
    case ValidateEnd(seen, request, now, ok) =>
      if thread.ValidateWait? { ValidateEndCopies(s, t, seen, request, now, ok, gid, p); }
    case ValidateAbort =>
      if thread.ValidateAt? {
        MarksAlike(thread.group);
        CopyKeeps(s, t, thread.group, EvalCopies(thread.event, thread.rest), thread.group, gid, p);
        ResumeCopies(s, t, UnlockAndResume(thread.group.id, thread.event, thread.rest), gid, p);
      }
    case Activate(ok) =>
      if thread.Activating? {
        WritableKeep(s, t, gid, p);
        SaveThreads(s, thread.group.(active := thread.provider), ok);
        SameCopies(s, Save(s, thread.group.(active := thread.provider), ok), gid, p);
        ResumeCopies(Save(s, thread.group.(active := thread.provider), ok), t, thread.cont, gid, p);
      }
  }

  lemma RowKeeps(s: State, k: GroupId, g: Group, gid: GroupId, p: ProviderId)
    requires RowsKeep(s.groups, gid, p) && k in s.groups && g.id == s.groups[k].id && g.active == s.groups[k].active
    ensures AllKeep([g], gid, p) && Keeps(g, gid, p)
  {
    OneKeeps(g, gid, p);
    hide Normalize;
  }

  lemma CompleteReadCopies(
      s: State, t: ThreadId, seen: bool, request: string, now: Time, gid: GroupId, p: ProviderId)
    requires RowsKeep(s.groups, gid, p) && CopiesKeep(s.threads, gid, p) && t in s.threads && s.threads[t].CompleteWait?
    ensures CopiesKeep(CompleteReadStep(s, t, seen, request, now).threads, gid, p)
  {
    hide AllKeep, RowsKeep, CopiesKeep;
    var CompleteWait(k, job) := s.threads[t];
    DropCopies(s, t, gid, p);
    if k in s.groups && s.groups[k].advice.Some? {
      var g := s.groups[k];
      var success := SeenSuccess(s, job, seen);
      var status := if success then Open else ValidationFailed;
      var a := g.advice.value.(status := status, updatedAt := now, request := request);
      RowKeeps(s, k, g.(advice := Some(a)), gid, p);
      PutCopies(s, t, CompleteHolding(g.(advice := Some(a)), success), gid, p);
    }
  }

  lemma RequestCopies(s: State, t: ThreadId, r: Request, gid: GroupId, p: ProviderId)
    requires RowsKeep(s.groups, gid, p) && CopiesKeep(s.threads, gid, p) && t in s.threads
    ensures CopiesKeep(RequestStep(s, t, r).threads, gid, p)
  {
    var thread := s.threads[t];
    hide AllKeep, Save, Saved, Activates, InMaintenance, AppliedGroup, MayApply, RowsKeep, CompleteReadStep, CopiesKeep;
    DropCopies(s, t, gid, p);
    match r
    case ApplyCommit(now, ok) =>
      if thread.ApplyHolding? { ApplyThreads(s, t, now, ok); }
    case ManualStart(started, now) =>
      if thread.ManualHolding? && started.Some? && MayEvaluate(thread.group) {
        WritableKeep(s, t, gid, p);
        PutCopies(s, t, ManualStarted(thread.group, started.value), gid, p);
      }
    case ManualSave(now, ok) =>
      if thread.ManualStarted? {
        NoneKeeps(gid, p);
        PutCopies(s, t, CompleteWait(thread.group.id, thread.job), gid, p);
        ManualThreads(s, t, now, ok);
      }
    case CompleteRead(seen, request, now) =>
      if thread.CompleteWait? { CompleteReadCopies(s, t, seen, request, now, gid, p); }
    case CompleteWrite(now, ok) =>
      if thread.CompleteHolding? {
        SaveThreads(s, thread.group, ok);
        NoneKeeps(gid, p);
        if thread.group.advice.Some? {
          PutCopies(s, t, Activating(thread.group, thread.group.advice.value.suggested, Finish), gid, p);
        }
      }
    case EditSave(startsAt, until, ok) =>
      if thread.EditHolding? {
        SaveThreads(s, thread.group.(maintenanceStartsAt := startsAt, maintenanceUntil := until), ok);
      }
  }

  lemma ApplyThreads(s: State, t: ThreadId, now: Time, ok: bool)
    requires t in s.threads && s.threads[t].ApplyHolding?
    ensures ApplyCommitStep(s, t, now, ok).threads == Drop(s, t).threads
  {
    hide InMaintenance, Stored;
  }

  lemma ManualThreads(s: State, t: ThreadId, now: Time, ok: bool)
    requires t in s.threads && s.threads[t].ManualStarted?
    ensures ManualSaveStep(s, t, now, ok).threads == Drop(s, t).threads
            || ManualSaveStep(s, t, now, ok).threads
               == Put(s, t, CompleteWait(s.threads[t].group.id, s.threads[t].job)).threads
  {
    hide Stored;
  }

  lemma NoneKeeps(gid: GroupId, p: ProviderId)
    ensures AllKeep([], gid, p)
  {
  }

  lemma RecoveryCopies(s: State, t: ThreadId, r: Recovery, gid: GroupId, p: ProviderId)
    requires RowsKeep(s.groups, gid, p) && CopiesKeep(s.threads, gid, p) && t in s.threads && !r.ProbeStart?
    ensures CopiesKeep(RecoveryStep(s, t, r).threads, gid, p)
  {
    var thread := s.threads[t];
    hide AllKeep, Save, Saved, InMaintenance, AwaitsRecovery, RecoveredGroup, RowsKeep, CopiesKeep, ProbeCopies, Alike,
         EvalCopies, ContCopies, ProbeNextStep, ProbeWriteStep, RecoverWriteStep;
    match r
    case RecoverRead =>
      if thread.Recovering? {
        WritableKeep(s, t, gid, p);
        ResumeCopies(s, t, thread.cont, gid, p);
        if thread.group.id in s.groups { RereadCopies(s, t, thread.group, thread.cont, gid, p); }
      }
    case RecoverWrite(successes, now, ok) =>
      if thread.RecoverHolding? {
        RecoverWriteCopies(s, t, successes, now, ok, gid, p);
      }
    case ProbeNext(now, ok) =>
      if thread.ProbeLoop? { ProbeNextCopies(s, t, now, ok, gid, p); }
    case ProbeDefer(ok) =>
      if thread.ProbeDeferring? {
        MarksAlike(thread.group);
        CopyKeeps(s, t, thread.group, ProbeCopies(thread.rest), thread.group, gid, p);
        SaveThreads(s, thread.group.(lastProbeAt := None, lastProbeStatus := "deferred"), ok);
        PutCopies(s, t, ProbeLoop(thread.rest), gid, p);
      }
    case ProbeRead(seen) =>
      DropCopies(s, t, gid, p);
      if thread.ProbeWait? && thread.gid in s.groups {
        RowKeeps(s, thread.gid, s.groups[thread.gid], gid, p);
        PutCopies(s, t, ProbeHolding(thread.gid, s.groups[thread.gid], SeenSuccess(s, thread.job, seen)), gid, p);
      }
    case ProbeWrite(ok) =>
      if thread.ProbeHolding? { ProbeWriteCopies(s, t, ok, gid, p); }
  }

  lemma RecoverWriteCopies(s: State, t: ThreadId, successes: int, now: Time, ok: bool, gid: GroupId, p: ProviderId)
    requires CopiesKeep(s.threads, gid, p) && t in s.threads && s.threads[t].RecoverHolding?
    ensures CopiesKeep(RecoverWriteStep(s, t, successes, now, ok).threads, gid, p)
  {
    var RecoverHolding(g, cont) := s.threads[t];
    var saved := Save(s, RecoveredGroup(g, successes, now), ok);
    hide AllKeep, Save, RecoveredGroup, CopiesKeep, ContCopies, Alike, Resume;
    MarksAlike(g);
    CopyKeeps(s, t, g, ContCopies(cont), g, gid, p);
    SaveThreads(s, RecoveredGroup(g, successes, now), ok);
    SameCopies(s, saved, gid, p);
    ResumeCopies(saved, t, cont, gid, p);
  }

  lemma ProbeNextCopies(s: State, t: ThreadId, now: Time, ok: bool, gid: GroupId, p: ProviderId)
    requires CopiesKeep(s.threads, gid, p) && t in s.threads && s.threads[t].ProbeLoop?
    ensures CopiesKeep(ProbeNextStep(s, t, now, ok).threads, gid, p)
  {
    hide AllKeep, Save, Saved, InMaintenance, AwaitsRecovery, CopiesKeep;
    DropCopies(s, t, gid, p);
    if s.threads[t].rest != [] {
      var g, rest := s.threads[t].rest[0], s.threads[t].rest[1..];
      var marked := g.(lastProbeAt := Some(now), lastProbeStatus := "running");
      WritableKeep(s, t, gid, p);
      AllKeepParts(if MayProbe(g) then [g] else [], ProbeCopies(rest), gid, p);
      SaveThreads(s.(running := s.running + {g.id}), marked, ok);
      PutCopies(s, t, ProbeLoop(rest), gid, p);
      PutCopies(s, t, ProbeMarked(marked, rest), gid, p);
    }
  }

  lemma ProbeWriteCopies(s: State, t: ThreadId, ok: bool, gid: GroupId, p: ProviderId)
    requires CopiesKeep(s.threads, gid, p) && t in s.threads && s.threads[t].ProbeHolding?
    ensures CopiesKeep(ProbeWriteStep(s, t, ok).threads, gid, p)
  {
    var ProbeHolding(k, g, succeeded) := s.threads[t];
    hide AllKeep, Save, Saved, CopiesKeep;
    var w := g.(lastProbeStatus := if succeeded then "success" else "failed");
    DropCopies(s, t, gid, p);
    NoneKeeps(gid, p);
    SaveThreads(s, w, ok);
    PutCopies(s, t, Recovering(w, Unlock(k)), gid, p);
  }

  lemma RereadCopies(s: State, t: ThreadId, g: Group, cont: Cont, gid: GroupId, p: ProviderId)
    requires RowsKeep(s.groups, gid, p) && CopiesKeep(s.threads, gid, p) && g.id in s.groups
             && AllKeep(ContCopies(cont), gid, p)
    ensures var latest := s.groups[g.id];
            var merged := if g.lastProbeStatus != ""
                          then latest.(lastProbeAt := g.lastProbeAt, lastProbeStatus := g.lastProbeStatus) else latest;
            CopiesKeep(Put(s, t, RecoverHolding(merged, cont)).threads, gid, p)
  {
    var latest := s.groups[g.id];
    var merged := if g.lastProbeStatus != ""
                  then latest.(lastProbeAt := g.lastProbeAt, lastProbeStatus := g.lastProbeStatus) else latest;
    hide AllKeep, RowsKeep, ContCopies, CopiesKeep;
    RowKeeps(s, g.id, merged, gid, p);
    AllKeepParts([merged], ContCopies(cont), gid, p);
    PutCopies(s, t, RecoverHolding(merged, cont), gid, p);
  }

  /** Where the start of a probe leads. */
  lemma ProbeStartThreads(s: State, t: ThreadId, worker: ThreadId, started: Option<JobId>)
    requires t in s.threads && s.threads[t].ProbeMarked?
    ensures var ProbeMarked(g, rest) := s.threads[t]; var threads := ProbeStartStep(s, t, worker, started).threads;
            || (started.Some?
                && threads == Put(Put(s, t, ProbeLoop(rest)), worker, ProbeWait(g.id, started.value)).threads)
            || (g.id in s.groups && threads == Put(s, t, ProbeDeferring(g.id, s.groups[g.id], rest)).threads)
            || threads == Put(s, t, ProbeLoop(rest)).threads
  {
  }

  lemma ProbeStartCopies(s: State, t: ThreadId, worker: ThreadId, started: Option<JobId>, gid: GroupId, p: ProviderId)
    requires RowsKeep(s.groups, gid, p) && CopiesKeep(s.threads, gid, p) && t in s.threads && s.threads[t].ProbeMarked?
    ensures CopiesKeep(ProbeStartStep(s, t, worker, started).threads, gid, p)
  {
    var ProbeMarked(g, rest) := s.threads[t];
    ProbeStartThreads(s, t, worker, started);
    hide AllKeep, RowsKeep, CopiesKeep, ProbeCopies, ProbeStartStep, Keeps, EvalCopies;
    WritableKeep(s, t, gid, p);
    PutCopies(s, t, ProbeLoop(rest), gid, p);
    if started.Some? {
      NoneKeeps(gid, p);
      PutCopies(Put(s, t, ProbeLoop(rest)), worker, ProbeWait(g.id, started.value), gid, p);
    }
    if g.id in s.groups {
      RowKeeps(s, g.id, s.groups[g.id], gid, p);
      AllKeepParts([s.groups[g.id]], ProbeCopies(rest), gid, p);
      PutCopies(s, t, ProbeDeferring(g.id, s.groups[g.id], rest), gid, p);
    }
  }

  lemma {:induction false} SnapshotsKeep(s: State, order: seq<GroupId>, gid: GroupId, p: ProviderId)
    requires RowsKeep(s.groups, gid, p)
    ensures AllKeep(Snapshots(s, order), gid, p)
  {
    if order != [] {
      SnapshotsKeep(s, order[1..], gid, p);
      if order[0] in s.groups {
        RowKeeps(s, order[0], s.groups[order[0]], gid, p);
        AllKeepParts([s.groups[order[0]]], Snapshots(s, order[1..]), gid, p);
      }
    }
  }

  lemma {:induction false} EvalCopiesKeep(event: Event, rest: seq<Group>, gid: GroupId, p: ProviderId)
    requires AllKeep(rest, gid, p)
    ensures AllKeep(EvalCopies(event, rest), gid, p)
  {
    hide Keeps, MayValidate;
    if rest != [] {
      AllKeepParts([rest[0]], rest[1..], gid, p);
      assert rest == [rest[0]] + rest[1..];
      EvalCopiesKeep(event, rest[1..], gid, p);
      NoneKeeps(gid, p);
      AllKeepParts(if MayValidate(rest[0], event) then [rest[0]] else [], EvalCopies(event, rest[1..]), gid, p);
    }
  }

  lemma {:induction false} ProbeCopiesKeep(rest: seq<Group>, gid: GroupId, p: ProviderId)
    requires AllKeep(rest, gid, p)
    ensures AllKeep(ProbeCopies(rest), gid, p)
  {
    hide Keeps, MayProbe;
    if rest != [] {
      AllKeepParts([rest[0]], rest[1..], gid, p);
      assert rest == [rest[0]] + rest[1..];
      ProbeCopiesKeep(rest[1..], gid, p);
      NoneKeeps(gid, p);
      AllKeepParts(if MayProbe(rest[0]) then [rest[0]] else [], ProbeCopies(rest[1..]), gid, p);
    }
  }

  lemma EntryCopies(s: State, t: ThreadId, e: Entry, gid: GroupId, p: ProviderId)
    requires RowsKeep(s.groups, gid, p) && CopiesKeep(s.threads, gid, p) && t !in s.threads
    ensures CopiesKeep(EntryStep(s, t, e).threads, gid, p)
  {
    hide AllKeep, RowsKeep, CopiesKeep, EvalCopies, ProbeCopies, Keeps;
    NoneKeeps(gid, p);
    match e
    case ApplyBegin(k, suggested, stamp) =>
      if k in s.groups { PutCopies(s, t, ApplyHolding(s.groups[k], suggested, stamp), gid, p); }
    case EvalBegin(job, status, request, order) =>
      if job in s.jobs {
        SnapshotsKeep(s, order, gid, p);
        EvalCopiesKeep(Event(s.jobs[job].provider, job, status, request), Snapshots(s, order), gid, p);
        PutCopies(s, t, EvalLoop(Event(s.jobs[job].provider, job, status, request), Snapshots(s, order)), gid, p);
      }
    case ManualBegin(k) =>
      if k in s.groups {
        RowKeeps(s, k, s.groups[k], gid, p);
        PutCopies(s, t, ManualHolding(s.groups[k]), gid, p);
      }
    case ProbeBegin(order) =>
      SnapshotsKeep(s, order, gid, p);
      ProbeCopiesKeep(Snapshots(s, order), gid, p);
      PutCopies(s, t, ProbeLoop(Snapshots(s, order)), gid, p);
    case EditBegin(k) =>
      if k in s.groups {
        RowKeeps(s, k, Unplanned(s.groups[k]), gid, p);
        PutCopies(s, t, EditHolding(s.groups[k]), gid, p);
      }
  }

  /** Copies come from rows and from other copies: none with another provider appears. */
  lemma NextCopies(s: State, step: Step, gid: GroupId, p: ProviderId)
    requires Safe(s) && RowsKeep(s.groups, gid, p) && CopiesKeep(s.threads, gid, p)
    ensures CopiesKeep(Next(s, step).threads, gid, p)
  {
    hide Safe, RowsKeep, CopiesKeep, EntryStep, EvaluationStep, RequestStep, ProbeStartStep;
    match step
    case Happens(o) =>
    case Enters(t, e) => if t !in s.threads { EntryCopies(s, t, e, gid, p); }
    case Evaluates(t, e) => if t in s.threads { EvaluationCopies(s, t, e, gid, p); }
    case Serves(t, r) => if t in s.threads { RequestCopies(s, t, r, gid, p); }
    case Watches(t, r) =>
      if t in s.threads {
        if r.ProbeStart? {
          if s.threads[t].ProbeMarked? { ProbeStartCopies(s, t, r.worker, r.started, gid, p); }
        } else {
          RecoveryCopies(s, t, r, gid, p);
        }
      }
  }

  // ---------- main results ----------

  /** The step deletes the group, or reassigns another provider to it and saves that. */
  predicate Disturbs(s: State, step: Step, gid: GroupId, p: ProviderId) {
    || step == Happens(DeleteGroup(gid))
    || (Saves(s, step, gid) && Reassigns(s, step) && Serving(Written(s, step).value) != p)
  }

  lemma RowsOf(s: State, gid: GroupId, p: ProviderId)
    requires Safe(s) && gid in s.groups && s.groups[gid].active == p && p != ""
    ensures RowsKeep(s.groups, gid, p)
  {
  }

  /** While every copy that may still be written serves the provider of the row, exactly the disturbing
      steps take it away. */
  lemma EstablishedIff(s: State, step: Step, gid: GroupId, p: ProviderId)
    requires Safe(s) && Established(s, gid, p)
    ensures Established(Next(s, step), gid, p) <==> !Disturbs(s, step, gid, p)
    ensures Disturbs(s, step, gid, p) <==> Changes(s, Next(s, step), gid)
  {
    RowsOf(s, gid, p);
    NextCopies(s, step, gid, p);
    ActiveChangesIff(s, step, gid);
    if Saves(s, step, gid) && !Reassigns(s, step) {
      WrittenFrom(s, step);
      CopyServes(s, step, gid, p);
    }
    hide Safe, CopiesKeep, RowsKeep, Next, Saves, Reassigns, Written, Copy;
  }

  /** What a step writes without reassigning is like a copy its goroutine might still write. */
  lemma WrittenWritable(s: State, step: Step)
    requires Written(s, step).Some? && !Reassigns(s, step) && Normalize(Written(s, step).value).Some?
    ensures Taker(step) in s.threads && Heads(Writable(s.threads[Taker(step)]), Written(s, step).value)
  {
    hide InMaintenance, Normalize, Heads, Writable, EvaluationWrite, RecoveryWrite;
    match step
    case Evaluates(t, e) => EvaluationWritable(s, t, e);
    case Serves(t, r) => RequestWritable(s, t, r);
    case Watches(t, r) => RecoveryWritable(s, t, r);
  }

  /** The first of the copies is like what is written, and the store would accept it. */
  predicate Heads(copies: seq<Group>, w: Group) {
    copies != [] && copies[0].id == w.id && Serving(copies[0]) == Serving(w) && Normalize(copies[0]).Some?
  }

  lemma EvaluationWritable(s: State, t: ThreadId, e: Evaluation)
    requires t in s.threads && EvaluationWrite(s.threads[t], s.jobs, e).Some? && !e.Activate?
    requires Normalize(EvaluationWrite(s.threads[t], s.jobs, e).value).Some?
    ensures Heads(Writable(s.threads[t]), EvaluationWrite(s.threads[t], s.jobs, e).value)
  {
    hide Distinct;
    MarksAlike(s.threads[t].group);
  }

  lemma RequestWritable(s: State, t: ThreadId, r: Request)
    requires t in s.threads && RequestWrite(s.threads[t], r).Some? && !r.ApplyCommit?
    requires Normalize(RequestWrite(s.threads[t], r).value).Some?
    ensures Heads(Writable(s.threads[t]), RequestWrite(s.threads[t], r).value)
  {
    hide InMaintenance, Normalize;
    MarksAlike(s.threads[t].group);
    if r.EditSave? { UnplannedNormal(s.threads[t].group, r.startsAt, r.until); }
  }

  lemma RecoveryWritable(s: State, t: ThreadId, r: Recovery)
    requires t in s.threads && RecoveryWrite(s.threads[t], s.running, r).Some?
    requires r.RecoverWrite? ==> !Returns(s.threads[t].group, r.successes)
    requires Normalize(RecoveryWrite(s.threads[t], s.running, r).value).Some?
    ensures Heads(Writable(s.threads[t]), RecoveryWrite(s.threads[t], s.running, r).value)
  {
    hide InMaintenance, Normalize, RecoveredGroup, AwaitsRecovery, Returns;
    MarksAlike(Held(s.threads[t])[0]);
    if r.RecoverWrite? { UnreturnedAlike(s.threads[t].group, r.successes, r.now); }
  }

  lemma UnplannedNormal(g: Group, startsAt: Option<Time>, until: Option<Time>)
    requires Normalize(g.(maintenanceStartsAt := startsAt, maintenanceUntil := until)).Some?
    ensures Normalize(Unplanned(g)).Some?
  {
    hide Distinct;
  }

  lemma UnreturnedAlike(g: Group, successes: int, now: Time)
    requires !Returns(g, successes)
    ensures Alike(g, RecoveredGroup(g, successes, now))
  {
    MarksAlike(g);
    hide Normalize, Serving;
  }

  lemma CopyServes(s: State, step: Step, gid: GroupId, p: ProviderId)
    requires CopiesKeep(s.threads, gid, p) && Saves(s, step, gid) && !Reassigns(s, step)
    ensures Serving(Written(s, step).value) == p
  {
    SavedNormal(s, Written(s, step).value, Accepts(step));
    hide Written, Writable, Saved, Normalize, Reassigns;
    WrittenWritable(s, step);
    WritableKeep(s, Taker(step), gid, p);
    assert Keeps(Writable(s.threads[Taker(step)])[0], gid, p);
  }

  lemma SavedNormal(s: State, w: Group, ok: bool)
    requires Saved(s, w, ok)
    ensures Normalize(w).Some?
  {
    hide Normalize;
  }

  predicate IsActive(s: State, gid: GroupId, p: ProviderId) {
    gid in s.groups && s.groups[gid].active == p
  }

  /** The provider is active in every state of the run. */
  ghost predicate Stands(s: State, steps: seq<Step>, gid: GroupId, p: ProviderId)
    decreases |steps|
  {
    IsActive(s, gid, p) && (steps != [] ==> Stands(Next(s, steps[0]), steps[1..], gid, p))
  }

  /** No step of the run disturbs it. */
  ghost predicate Undisturbed(s: State, steps: seq<Step>, gid: GroupId, p: ProviderId)
    decreases |steps|
  {
    steps != [] ==> !Disturbs(s, steps[0], gid, p) && Undisturbed(Next(s, steps[0]), steps[1..], gid, p)
  }

  lemma {:induction false} StandsIff(s: State, steps: seq<Step>, gid: GroupId, p: ProviderId)
    requires Safe(s) && Established(s, gid, p)
    ensures Stands(s, steps, gid, p) <==> Undisturbed(s, steps, gid, p)
    decreases |steps|
  {
    if steps != [] {
      var s' := Next(s, steps[0]);
      EstablishedIff(s, steps[0], gid, p);
      NextSafe(s, steps[0]);
      hide Safe, Next, Disturbs, CopiesKeep;
      if !Disturbs(s, steps[0], gid, p) { StandsIff(s', steps[1..], gid, p); }
    }
  }

  /** A switch by hand that is committed while no goroutine holds a copy that it may still write and
      that serves another provider stands, in every continuation of every run, exactly until the group
      is deleted or another provider is assigned to it by a later switch or by the return to the
      primary. */
  lemma SwitchStandsIff(init: State, before: seq<Step>, t: ThreadId, now: Time, later: seq<Step>)
    requires Initial(init) && Commits(Run(init, before), t, now)
    requires CopiesKeep(Committed(Run(init, before), t, now).threads, Target(Run(init, before), t).0,
                        Target(Run(init, before), t).1)
    ensures var s' := Committed(Run(init, before), t, now); var (gid, p) := Target(Run(init, before), t);
            Stands(s', later, gid, p) <==> Undisturbed(s', later, gid, p)
  {
    RunSafe(init, before);
    var s := Run(init, before);
    NextSafe(s, Serves(t, ApplyCommit(now, true)));
    CommitEstablishes(s, t, now);
    StandsIff(Committed(s, t, now), later, Target(s, t).0, Target(s, t).1);
  }

  /** The goroutine is about to switch a group by hand, and the store will accept it. */
  predicate Commits(s: State, t: ThreadId, now: Time) {
    && t in s.threads && s.threads[t].ApplyHolding?
    && MayApply(s.threads[t].group, s.threads[t].suggested, s.threads[t].stamp, now)
    && Saved(s, AppliedGroup(s.threads[t].group, s.threads[t].suggested, now), true)
  }

  function Committed(s: State, t: ThreadId, now: Time): State {
    Next(s, Serves(t, ApplyCommit(now, true)))
  }

  /** The group that is switched, and the provider it is switched to. */
  function Target(s: State, t: ThreadId): (GroupId, ProviderId)
    requires t in s.threads && s.threads[t].ApplyHolding?
  {
    (s.threads[t].group.id, s.threads[t].suggested)
  }

  lemma CommitEstablishes(s: State, t: ThreadId, now: Time)
    requires Commits(s, t, now)
    ensures var s' := Committed(s, t, now); var (gid, p) := Target(s, t);
            p != "" && IsActive(s', gid, p) && s'.threads == s.threads - {t} && s'.running == s.running - {gid}
  {
    var ApplyHolding(g, suggested, stamp) := s.threads[t];
    var w := AppliedGroup(g, suggested, now);
    RequestRows(s, t, ApplyCommit(now, true));
    SavedRow(s, w, true, g.id);
    hide Stored, InMaintenance;
  }

  // ---------- a switch that a stale copy undoes ----------

  /** A standby is evaluated on request, with success. */
  function Evaluating(gid: GroupId, t: ThreadId, job: JobId, request: string, now: Time): seq<Step> {
    [Enters(t, ManualBegin(gid)), Serves(t, ManualStart(Some(job), now)), Serves(t, ManualSave(now, true)),
     Happens(EndJob(job, true)), Serves(t, CompleteRead(true, request, now)), Serves(t, CompleteWrite(now, true))]
  }

  /** A group that can be switched by hand once its advice is open. */
  predicate Switchable(g: Group, now: Time) {
    Normalize(g) == Some(g) && g.enabled && g.mode == Advisory && !InMaintenance(g, now)
  }

  lemma NormalAdvice(g: Group)
    requires Normalize(g) == Some(g)
    ensures g.primary != "" && g.backups != [] && g.backups[0] != "" && g.backups[0] != g.primary
    ensures forall a :: Normalize(g.(advice := Some(a))) == Some(g.(advice := Some(a)))
  {
    assert g.backups[0] in g.backups;
    var members := [g.primary] + g.backups;
    assert members[0] == g.primary && members[1] == g.backups[0];
  }

  lemma {:induction false} RunConcat(s: State, first: seq<Step>, second: seq<Step>)
    ensures Run(s, first + second) == Run(Run(s, first), second)
    decreases |first|
  {
    if first == [] {
      assert first + second == second;
    } else {
      assert (first + second)[1..] == first[1..] + second;
      RunConcat(Next(s, first[0]), first[1..], second);
    }
  }

  /** Such an evaluation opens advice for the first standby. */
  lemma EvaluationOpens(init: State, gid: GroupId, t: ThreadId, job: JobId, request: string, now: Time)
    requires Initial(init) && gid in init.groups && Switchable(init.groups[gid], now) && job != ""
    ensures var s := Run(init, Evaluating(gid, t, job, request, now)); var g := init.groups[gid];
            && s.groups == init.groups[gid := g.(advice := Some(Advice(Open, g.backups[0], job, request, now)))]
            && s.threads == map[] && s.running == {} && s.jobs.Keys == {job}
  {
    var steps := Evaluating(gid, t, job, request, now);
    var g := init.groups[gid];
    NormalAdvice(g);
    hide Normalize, InMaintenance;
    var s1 := Next(init, steps[0]);
    assert s1 == Put(init, t, ManualHolding(g));
    var s3 := RequestStored(init, s1, g, t, job, now);
    var s := EvaluationEnds(s3, g, t, job, request, now);
    hide Next, Initial;
    RunOfThree(init, steps[0], steps[1], steps[2]);
    RunOfThree(s3, steps[3], steps[4], steps[5]);
    RunConcat(init, [steps[0], steps[1], steps[2]], [steps[3], steps[4], steps[5]]);
    assert [steps[0], steps[1], steps[2]] + [steps[3], steps[4], steps[5]] == steps;
  }

  lemma RequestStored(init: State, s1: State, g: Group, t: ThreadId, job: JobId, now: Time) returns (s: State)
    requires init.jobs == map[] && init.running == {} && init.threads == map[] && s1 == Put(init, t, ManualHolding(g))
    requires g.id in init.groups && g.enabled && g.primary != "" && g.backups != [] && !InMaintenance(g, now)
    requires g.mode == Advisory && job != ""
    requires forall a :: Normalize(g.(advice := Some(a))) == Some(g.(advice := Some(a)))
    ensures s == Next(Next(s1, Serves(t, ManualStart(Some(job), now))), Serves(t, ManualSave(now, true)))
    ensures s.groups == init.groups[g.id := g.(advice := Some(Advice(Validating, g.backups[0], job, "", now)))]
    ensures s.threads == map[t := CompleteWait(g.id, job)] && s.running == {}
    ensures s.jobs == map[job := Job(g.backups[0], ValidationSource, Running, g.id)]
  {
    hide Normalize, InMaintenance;
    var s2 := Next(s1, Serves(t, ManualStart(Some(job), now)));
    assert s2.threads == map[t := ManualStarted(g, job)] && s2.groups == init.groups && s2.running == {};
    s := Next(s2, Serves(t, ManualSave(now, true)));
  }

  lemma EvaluationEnds(s3: State, g: Group, t: ThreadId, job: JobId, request: string, now: Time) returns (s: State)
    requires g.id in s3.groups && g.backups != [] && g.mode == Advisory
    requires s3.groups[g.id] == g.(advice := Some(Advice(Validating, g.backups[0], job, "", now)))
    requires s3.threads == map[t := CompleteWait(g.id, job)] && s3.running == {}
    requires s3.jobs == map[job := Job(g.backups[0], ValidationSource, Running, g.id)]
    requires forall a :: Normalize(g.(advice := Some(a))) == Some(g.(advice := Some(a)))
    ensures var s4 := Next(s3, Happens(EndJob(job, true)));
            s == Next(Next(s4, Serves(t, CompleteRead(true, request, now))), Serves(t, CompleteWrite(now, true)))
    ensures s.groups == s3.groups[g.id := g.(advice := Some(Advice(Open, g.backups[0], job, request, now)))]
    ensures s.threads == map[] && s.running == {} && s.jobs.Keys == {job}
  {
    hide Normalize, InMaintenance;
    var open := g.(advice := Some(Advice(Open, g.backups[0], job, request, now)));
    var s4 := Next(s3, Happens(EndJob(job, true)));
    assert s4.jobs[job].outcome == Succeeded && s4.groups == s3.groups && s4.threads == s3.threads;
    var s5 := Next(s4, Serves(t, CompleteRead(true, request, now)));
    assert s5.threads == map[t := CompleteHolding(open, true)] && s5.groups == s4.groups;
    s := Next(s5, Serves(t, CompleteWrite(now, true)));
  }

  /** The run in full: a standby is evaluated, another evaluation reads the group, the operator
      switches, and the second evaluation writes its copy back. */
  function Undoing(g: Group, t: ThreadId, u: ThreadId, first: JobId, second: JobId, request: string,
        now: Time): seq<Step>
    requires g.backups != []
  {
    Evaluating(g.id, t, first, request, now) + Overtaking(g.id, t, u, g.backups[0], now, second, now)
  }

  /** From every initial state, every group that can be switched by hand at all has a run in which
      the switch is made and then undone without anyone deciding to. */
  lemma SwitchIsUndone(init: State, gid: GroupId, t: ThreadId, u: ThreadId, first: JobId, second: JobId,
        request: string, now: Time)
    requires Initial(init) && gid in init.groups && Switchable(init.groups[gid], now)
    requires t != u && first != "" && second != "" && first != second && request != ""
    ensures var g := init.groups[gid];
            && g.backups != []
            && var steps := Undoing(g, t, u, first, second, request, now);
               && IsActive(Run(init, steps[..9]), gid, g.backups[0])
               && IsActive(Run(init, steps), gid, g.primary) && g.primary != g.backups[0]
  {
    var g := init.groups[gid];
    NormalAdvice(g);
    assert g.active == g.primary by { NormalActive(g); }
    var opening, overtaking := Evaluating(gid, t, first, request, now),
      Overtaking(gid, t, u, g.backups[0], now, second, now);
    EvaluationOpens(init, gid, t, first, request, now);
    var s := Run(init, opening);
    assert g.backups[0] in g.backups;
    hide Normalize, Initial, Run;
    StaleCopyUndoesSwitch(s, gid, t, u, g.backups[0], now, second, now);
    RunConcat(init, opening, overtaking);
    RunConcat(init, opening, overtaking[..3]);
    assert (opening + overtaking)[..9] == opening + overtaking[..3];
  }

  lemma NormalActive(g: Group)
    requires Normalize(g) == Some(g)
    ensures g.active != ""
  {
  }

  /** One such run, in full. */
  lemma SwitchIsUndoneOnce()
    ensures var g := Group("g", true, Advisory, "main", ["standby"], "main", None, 3, 2, 300, 300,
                           None, None, None, "");
            var init := State(map["g" := g], map[], {}, map[]);
            var steps := Undoing(g, 1, 2, "job-1", "job-2", "request-1", 0);
            && Initial(init)
            && IsActive(Run(init, steps[..9]), "g", "standby") && IsActive(Run(init, steps), "g", "main")
  {
    var g := Group("g", true, Advisory, "main", ["standby"], "main", None, 3, 2, 300, 300, None, None, None, "");
    assert Normalize(g) == Some(g);
    SwitchIsUndone(State(map["g" := g], map[], {}, map[]), "g", 1, 2, "job-1", "job-2", "request-1", 0);
  }
}
