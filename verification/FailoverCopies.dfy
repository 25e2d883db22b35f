/** Which held copies can undo a switch: exactly those that serve another provider and that a goroutine
    may still write without reading the row again. */
module FailoverCopies {
  import opened Wrappers
  import opened Failover
  import opened FailoverSafety
  import opened FailoverStanding

  // ---------- runs that lose a provider ----------

  /** A run on which the provider is lost although nobody assigns another one. */
  ghost predicate Loses(s: State, steps: seq<Step>, gid: GroupId, p: ProviderId) {
    Undisturbed(s, steps, gid, p) && !Stands(s, steps, gid, p)
  }

  /** The provider serves, nobody works on the group, and the goroutine may still write a copy with
      another provider. */
  ghost predicate Threatened(s: State, t: ThreadId, gid: GroupId, p: ProviderId) {
    && Safe(s) && IsActive(s, gid, p) && gid !in s.running
    && t in s.threads && !AllKeep(Writable(s.threads[t]), gid, p)
  }

  lemma StepThenLoses(s: State, step: Step, later: seq<Step>, gid: GroupId, p: ProviderId)
    requires !Disturbs(s, step, gid, p) && Loses(Next(s, step), later, gid, p)
    ensures Loses(s, [step] + later, gid, p)
  {
    hide Next, Disturbs, IsActive;
    var steps := [step] + later;
    assert steps[0] == step && steps[1..] == later;
  }

  /** A step that hands nothing to the store, or nothing it accepts, leaves all rows. */
  lemma QuietStep(s: State, step: Step, gid: GroupId, p: ProviderId)
    requires Safe(s) && !step.Happens? && (Written(s, step).None? || !Accepts(step))
    ensures Next(s, step).groups == s.groups && !Disturbs(s, step, gid, p)
  {
    StepRows(s, step);
    hide Written, Next, Reassigns, Safe, Stored, Accepts;
  }

  lemma NormalId(g: Group)
    requires Normalize(g).Some?
    ensures Normalize(g).value.id == g.id
  {
    hide Distinct;
  }

  lemma AcceptedRow(s: State, w: Group)
    requires w.id in s.groups && Normalize(w).Some?
    ensures Saved(s, w, true)
  {
    hide Normalize;
    NormalId(w);
  }

  lemma RefusedRow(s: State, w: Group)
    ensures Save(s, w, false) == s
  {
    hide Stored;
  }

  /** The step writes a copy that serves another provider. */
  lemma WriteLoses(s: State, step: Step, g: Group, gid: GroupId, p: ProviderId)
    requires Safe(s) && IsActive(s, gid, p) && !Keeps(g, gid, p) && Accepts(step)
    requires Written(s, step).Some? && Alike(g, Written(s, step).value) && !Reassigns(s, step)
    ensures Loses(s, [step], gid, p)
  {
    hide Written, Next, Reassigns, Safe, Normalize, Accepts, Keeps, Alike, IsActive;
    WriteReplaces(s, step, g, gid, p);
    assert [step][0] == step && [step][1..] == [];
    assert !Disturbs(s, step, gid, p);
    assert Undisturbed(Next(s, step), [], gid, p) && !Stands(Next(s, step), [], gid, p);
  }

  lemma WriteReplaces(s: State, step: Step, g: Group, gid: GroupId, p: ProviderId)
    requires Safe(s) && IsActive(s, gid, p) && !Keeps(g, gid, p) && Accepts(step)
    requires Written(s, step).Some? && Alike(g, Written(s, step).value)
    ensures !IsActive(Next(s, step), gid, p) && !step.Happens?
  {
    var w := Written(s, step).value;
    AcceptedRow(s, w);
    StepRows(s, step);
    SavedRow(s, w, true, gid);
    hide Written, Next, Reassigns, Safe, Normalize, Save, Saved;
  }

  // ---------- a time and a job ----------

  /** A time at which no window and no wait of the copy is in the way. */
  lemma LateEnough(g: Group) returns (now: Time)
    ensures !InMaintenance(g, now)
    ensures g.advice.Some? ==> now - g.advice.value.updatedAt >= g.cooldown
    ensures g.lastProbeAt.Some? ==> now - g.lastProbeAt.value >= 300 && now - g.lastProbeAt.value >= g.probeInterval
  {
    now := if g.maintenanceUntil.Some? then g.maintenanceUntil.value else 0;
    if g.advice.Some? && now - g.advice.value.updatedAt < g.cooldown { now := g.advice.value.updatedAt + g.cooldown; }
    var wait := if g.probeInterval < 300 then 300 else g.probeInterval;
    if g.lastProbeAt.Some? && now - g.lastProbeAt.value < wait { now := g.lastProbeAt.value + wait; }
  }

  lemma {:induction false} LongerThanAll(ids: set<JobId>) returns (n: nat)
    ensures forall id :: id in ids ==> |id| < n
    decreases ids
  {
    if ids == {} {
      n := 1;
    } else {
      var id :| id in ids;
      var m := LongerThanAll(ids - {id});
      n := if |id| < m then m else |id| + 1;
    }
  }

  lemma FreshJob(s: State) returns (job: JobId)
    ensures Fresh(s, job)
  {
    var n := LongerThanAll(s.jobs.Keys);
    job := seq(n + 1, _ => 'j');
    assert |job| == n + 1;
  }

  // ---------- the goroutine goes on until it writes its copy ----------

  function Remaining(thread: Thread): nat {
    match thread
    case EvalLoop(_, rest) => |rest|
    case ValidateAt(_, _, _, rest) => |rest|
    case ValidateWait(_, _, _, _, rest) => |rest|
    case Activating(_, _, cont) => |Rest(cont)|
    case Recovering(_, cont) => |Rest(cont)|
    case RecoverHolding(_, cont) => |Rest(cont)|
    case ProbeLoop(rest) => |rest|
    case ProbeMarked(_, rest) => |rest|
    case ProbeDeferring(_, _, rest) => |rest|
    case _ => 0
  }

  function Rest(cont: Cont): seq<Group> {
    match cont
    case Finish => []
    case ResumeEval(_, rest) => rest
    case Unlock(_) => []
    case UnlockAndResume(_, _, rest) => rest
  }

  function Stage(thread: Thread): nat {
    match thread
    case EvalLoop(_, _) => 0
    case ProbeLoop(_) => 0
    case ValidateAt(_, _, _, _) => 1
    case RecoverHolding(_, _) => 1
    case ProbeDeferring(_, _, _) => 1
    case ManualStarted(_, _) => 1
    case _ => 2
  }

  function Untried(thread: Thread): nat {
    if thread.ValidateAt? && thread.index < |thread.group.backups| then |thread.group.backups| - thread.index else 0
  }

  /** The goroutine has less to do before it writes. */
  predicate Nearer(after: Thread, before: Thread) {
    || Remaining(after) < Remaining(before)
    || (Remaining(after) == Remaining(before) && Stage(after) < Stage(before))
    || (Remaining(after) == Remaining(before) && Stage(after) == Stage(before) && Untried(after) < Untried(before))
  }

  /** The step leaves the provider threatened by the same goroutine, which has come nearer to its write. */
  ghost predicate GoesOn(s: State, step: Step, t: ThreadId, gid: GroupId, p: ProviderId)
    requires t in s.threads
  {
    var s' := Next(s, step);
    !Disturbs(s, step, gid, p) && Threatened(s', t, gid, p) && Nearer(s'.threads[t], s.threads[t])
  }

  lemma QuietGoesOn(s: State, step: Step, t: ThreadId, thread: Thread, gid: GroupId, p: ProviderId)
    requires Threatened(s, t, gid, p) && !step.Happens? && (Written(s, step).None? || !Accepts(step))
    requires t in Next(s, step).threads && Next(s, step).threads[t] == thread && gid !in Next(s, step).running
    requires !AllKeep(Writable(thread), gid, p) && Nearer(thread, s.threads[t])
    ensures GoesOn(s, step, t, gid, p)
  {
    hide Next, Written, Accepts, Disturbs, Writable, AllKeep, Nearer, Safe;
    QuietStep(s, step, gid, p);
    NextSafe(s, step);
  }

  /** Of a copy and what comes behind it, one serves another provider. */
  lemma HeadOrRest(first: seq<Group>, rest: seq<Group>, gid: GroupId, p: ProviderId)
    requires !AllKeep(first + rest, gid, p) && |first| <= 1
    ensures (first != [] && !Keeps(first[0], gid, p)) || !AllKeep(rest, gid, p)
  {
    hide Keeps;
    AllKeepParts(first, rest, gid, p);
    if first != [] { OneKeeps(first[0], gid, p); assert first == [first[0]]; }
  }

  lemma EvalBegins(s: State, t: ThreadId, gid: GroupId, p: ProviderId) returns (step: Step)
    requires Threatened(s, t, gid, p) && s.threads[t].EvalLoop? && s.threads[t].rest != []
    requires MayValidate(s.threads[t].rest[0], s.threads[t].event) && !Keeps(s.threads[t].rest[0], gid, p)
    ensures !Disturbs(s, step, gid, p)
    ensures Next(s, step) == Put(s.(running := s.running + {gid}), t,
                                 ValidateAt(s.threads[t].rest[0], 0, s.threads[t].event, s.threads[t].rest[1..]))
  {
    var g := s.threads[t].rest[0];
    ValidatingBranchUnreachable(s, t);
    var now := LateEnough(g);
    step := Evaluates(t, EvalNext(now, g.failureThreshold, false));
    QuietStep(s, step, gid, p);
    hide Safe, InMaintenance, Disturbs, AllKeep, Writable, Normalize, Save, Activates;
  }

  lemma EvalPasses(s: State, t: ThreadId, gid: GroupId, p: ProviderId) returns (step: Step)
    requires Threatened(s, t, gid, p) && s.threads[t].EvalLoop? && s.threads[t].rest != []
    requires !MayValidate(s.threads[t].rest[0], s.threads[t].event) || Keeps(s.threads[t].rest[0], gid, p)
    ensures GoesOn(s, step, t, gid, p)
  {
    var EvalLoop(event, rest) := s.threads[t];
    var g := rest[0];
    ValidatingBranchUnreachable(s, t);
    step := Evaluates(t, EvalNext(0, g.failureThreshold - 1, false));
    HeadOrRest(if MayValidate(g, event) then [g] else [], EvalCopies(event, rest[1..]), gid, p);
    hide Safe, InMaintenance, Disturbs, AllKeep, GoesOn, Keeps, MayValidate, Save, Activates;
    QuietGoesOn(s, step, t, Next(s, step).threads[t], gid, p);
  }

  lemma ValidationEnds(s: State, t: ThreadId, gid: GroupId, p: ProviderId) returns (step: Step)
    requires Threatened(s, t, gid, p)
    requires s.threads[t].ValidateAt? ==> Keeps(s.threads[t].group, gid, p)
    requires s.threads[t].ValidateAt? || s.threads[t].ValidateWait? || s.threads[t].Activating?
    ensures GoesOn(s, step, t, gid, p)
  {
    hide Safe, AllKeep, GoesOn, Keeps, Save, EvalCopies;
    NoneKeeps(gid, p);
    match s.threads[t] {
      case ValidateAt(g, _, event, rest) =>
        HeadOrRest([g], EvalCopies(event, rest), gid, p);
        step := Evaluates(t, ValidateAbort);
      case ValidateWait(_, _, _, _, _) =>
        step := Evaluates(t, ValidateEnd(false, "", 0, false));
      case Activating(g, provider, cont) =>
        RefusedRow(s, g.(active := provider));
        step := Evaluates(t, Activate(false));
    }
    QuietGoesOn(s, step, t, Next(s, step).threads[t], gid, p);
  }

  lemma WriteComes(s: State, t: ThreadId, gid: GroupId, p: ProviderId) returns (step: Step)
    requires Threatened(s, t, gid, p)
    requires var thread := s.threads[t];
             thread.ManualStarted? || thread.CompleteHolding? || thread.ProbeHolding? || thread.EditHolding?
    ensures Loses(s, [step], gid, p)
  {
    hide Safe, AllKeep, Keeps, Loses, Alike, Distinct;
    match s.threads[t] {
      case ManualStarted(g, _) =>
        OneKeeps(g, gid, p);
        MarksAlike(g);
        BadIsNormal(g, gid, p);
        step := Serves(t, ManualSave(0, true));
        WriteLoses(s, step, g, gid, p);
      case CompleteHolding(g, _) =>
        OneKeeps(g, gid, p);
        MarksAlike(g);
        step := Serves(t, CompleteWrite(0, true));
        WriteLoses(s, step, g, gid, p);
      case ProbeHolding(_, g, _) =>
        OneKeeps(g, gid, p);
        MarksAlike(g);
        step := Watches(t, ProbeWrite(true));
        WriteLoses(s, step, g, gid, p);
      case EditHolding(g) =>
        OneKeeps(Unplanned(g), gid, p);
        MarksAlike(Unplanned(g));
        step := Serves(t, EditSave(None, None, true));
        WriteLoses(s, step, Unplanned(g), gid, p);
    }
  }

  lemma BadIsNormal(g: Group, gid: GroupId, p: ProviderId)
    requires !Keeps(g, gid, p)
    ensures g.id == gid && g.backups != []
  {
    hide Distinct;
  }

  lemma ManualStarts(s: State, t: ThreadId, gid: GroupId, p: ProviderId) returns (step: Step)
    requires Threatened(s, t, gid, p) && s.threads[t].ManualHolding?
    ensures GoesOn(s, step, t, gid, p)
  {
    var g := s.threads[t].group;
    NoneKeeps(gid, p);
    var now := LateEnough(g);
    var job := FreshJob(s);
    hide Safe, AllKeep, GoesOn, Keeps, InMaintenance, Fresh, IsActive;
    step := Serves(t, ManualStart(Some(job), now));
    QuietGoesOn(s, step, t, ManualStarted(g, job), gid, p);
  }

  lemma RecoveryEnds(s: State, t: ThreadId, gid: GroupId, p: ProviderId) returns (step: Step)
    requires Threatened(s, t, gid, p) && (s.threads[t].Recovering? || s.threads[t].RecoverHolding?)
    ensures Loses(s, [step], gid, p) || GoesOn(s, step, t, gid, p)
  {
    hide Safe, AllKeep, GoesOn, Keeps, Save, EvalCopies, Loses, Alike;
    NoneKeeps(gid, p);
    match s.threads[t] {
      case Recovering(g, cont) =>
        step := Watches(t, RecoverRead);
        if g.id in s.groups {
          var next := Next(s, step).threads[t];
          AllKeepParts([next.group], ContCopies(cont), gid, p);
        }
        QuietGoesOn(s, step, t, Next(s, step).threads[t], gid, p);
      case RecoverHolding(g, cont) =>
        HeadOrRest([g], ContCopies(cont), gid, p);
        if !Keeps(g, gid, p) {
          step := Watches(t, RecoverWrite(0, 0, true));
          UnreturnedAlike(g, 0, 0);
          WriteLoses(s, step, g, gid, p);
        } else {
          step := Watches(t, RecoverWrite(0, 0, false));
          RefusedRow(s, RecoveredGroup(g, 0, 0));
          QuietGoesOn(s, step, t, Next(s, step).threads[t], gid, p);
        }
    }
  }

  lemma ProbeLoopEnds(s: State, t: ThreadId, gid: GroupId, p: ProviderId) returns (step: Step)
    requires Threatened(s, t, gid, p) && s.threads[t].ProbeLoop?
    ensures Loses(s, [step], gid, p) || GoesOn(s, step, t, gid, p)
  {
    NoneKeeps(gid, p);
    var g, rest := s.threads[t].rest[0], s.threads[t].rest[1..];
    HeadOrRest(if MayProbe(g) then [g] else [], ProbeCopies(rest), gid, p);
    hide Safe, AllKeep, GoesOn, Save, Loses, AwaitsRecovery, InMaintenance, Normalize, Keeps, MayProbe, ProbeCopies;
    if MayProbe(g) && !Keeps(g, gid, p) {
      step := ProbeMarks(s, t, gid, p);
    } else {
      step := Watches(t, ProbeNext(0, false));
      QuietGoesOn(s, step, t, ProbeLoop(rest), gid, p);
    }
  }

  lemma ProbeMarks(s: State, t: ThreadId, gid: GroupId, p: ProviderId) returns (step: Step)
    requires Threatened(s, t, gid, p) && s.threads[t].ProbeLoop? && s.threads[t].rest != []
    requires MayProbe(s.threads[t].rest[0]) && !Keeps(s.threads[t].rest[0], gid, p)
    ensures Loses(s, [step], gid, p)
  {
    hide Safe, AllKeep, Loses, AwaitsRecovery, InMaintenance, Normalize, Alike, Writable, IsActive, Serving;
    var g := s.threads[t].rest[0];
    var now := LateEnough(g);
    step := Watches(t, ProbeNext(now, true));
    MarksAlike(g);
    WriteLoses(s, step, g, gid, p);
  }

  lemma ProbeEnds(s: State, t: ThreadId, gid: GroupId, p: ProviderId) returns (step: Step)
    requires Threatened(s, t, gid, p) && (s.threads[t].ProbeMarked? || s.threads[t].ProbeDeferring?)
    ensures Loses(s, [step], gid, p) || GoesOn(s, step, t, gid, p)
  {
    hide Safe, AllKeep, GoesOn, Keeps, Save, Loses, Alike, ProbeCopies;
    match s.threads[t] {
      case ProbeMarked(g, rest) =>
        step := Watches(t, ProbeStart(0, None));
        if g.id in s.groups { AllKeepParts([s.groups[g.id]], ProbeCopies(rest), gid, p); }
        QuietGoesOn(s, step, t, Next(s, step).threads[t], gid, p);
      case ProbeDeferring(_, g, rest) =>
        HeadOrRest([g], ProbeCopies(rest), gid, p);
        if !Keeps(g, gid, p) {
          step := Watches(t, ProbeDefer(true));
          MarksAlike(g);
          WriteLoses(s, step, g, gid, p);
        } else {
          step := Watches(t, ProbeDefer(false));
          RefusedRow(s, g.(lastProbeAt := None, lastProbeStatus := "deferred"));
          QuietGoesOn(s, step, t, ProbeLoop(rest), gid, p);
        }
    }
  }

  /** Validating standbys that do not start comes to an end, and the copy is written. */
  lemma {:induction false} ValidatingLoses(s: State, t: ThreadId, gid: GroupId, p: ProviderId)
    returns (steps: seq<Step>)
    requires Safe(s) && IsActive(s, gid, p) && t in s.threads && s.threads[t].ValidateAt?
    requires !Keeps(s.threads[t].group, gid, p)
    ensures Loses(s, steps, gid, p)
    decreases Untried(s.threads[t])
  {
    var ValidateAt(g, i, event, rest) := s.threads[t];
    var step := Evaluates(t, ValidateStart(None, 0, true));
    if i >= |g.backups| {
      MarksAlike(g);
      hide Safe, IsActive, Keeps, Loses, Alike, Accepts, Reassigns, Written;
      GivesUp(s, t);
      WriteLoses(s, step, g, gid, p);
      return [step];
    }
    assert Next(s, step) == Put(s, t, ValidateAt(g, i + 1, event, rest));
    hide Safe, Keeps, Loses;
    QuietStep(s, step, gid, p);
    NextSafe(s, step);
    hide Next, Disturbs;
    var later := ValidatingLoses(Next(s, step), t, gid, p);
    StepThenLoses(s, step, later, gid, p);
    return [step] + later;
  }

  lemma GivesUp(s: State, t: ThreadId)
    requires t in s.threads && s.threads[t].ValidateAt? && s.threads[t].index >= |s.threads[t].group.backups|
    ensures var step := Evaluates(t, ValidateStart(None, 0, true)); var g := s.threads[t].group;
            Accepts(step) && !Reassigns(s, step)
            && Written(s, step) == Some(g.(advice := Some(Advice(ValidationFailed, "", "", "", 0))))
  {
  }

  /** Every other goroutine writes the copy at once or comes nearer to that. */
  lemma WritesOrGoesOn(s: State, t: ThreadId, gid: GroupId, p: ProviderId) returns (step: Step)
    requires Threatened(s, t, gid, p)
    requires s.threads[t].ValidateAt? ==> Keeps(s.threads[t].group, gid, p)
    requires s.threads[t].EvalLoop? ==>
               s.threads[t].rest != []
               && (!MayValidate(s.threads[t].rest[0], s.threads[t].event) || Keeps(s.threads[t].rest[0], gid, p))
    ensures Loses(s, [step], gid, p) || GoesOn(s, step, t, gid, p)
  {
    NoneKeeps(gid, p);
    hide Safe, Loses, Keeps, AllKeep, IsActive, MayValidate, GoesOn, EvalCopies, ProbeCopies, ContCopies;
    match s.threads[t] {
      case EvalLoop(_, _) => step := EvalPasses(s, t, gid, p);
      case ValidateAt(_, _, _, _) => step := ValidationEnds(s, t, gid, p);
      case ValidateWait(_, _, _, _, _) => step := ValidationEnds(s, t, gid, p);
      case Activating(_, _, _) => step := ValidationEnds(s, t, gid, p);
      case ManualHolding(_) => step := ManualStarts(s, t, gid, p);
      case Recovering(_, _) => step := RecoveryEnds(s, t, gid, p);
      case RecoverHolding(_, _) => step := RecoveryEnds(s, t, gid, p);
      case ProbeLoop(_) => step := ProbeLoopEnds(s, t, gid, p);
      case ProbeMarked(_, _) => step := ProbeEnds(s, t, gid, p);
      case ProbeDeferring(_, _, _) => step := ProbeEnds(s, t, gid, p);
      case _ => step := WriteComes(s, t, gid, p);
    }
  }

  lemma LoopHasCopies(s: State, t: ThreadId, gid: GroupId, p: ProviderId)
    requires Threatened(s, t, gid, p) && s.threads[t].EvalLoop?
    ensures s.threads[t].rest != []
  {
    NoneKeeps(gid, p);
  }

  /** An evaluation that comes to a copy with another provider validates its standbys and writes it. */
  lemma EvalBeginLoses(s: State, t: ThreadId, gid: GroupId, p: ProviderId) returns (steps: seq<Step>)
    requires Threatened(s, t, gid, p) && s.threads[t].EvalLoop? && s.threads[t].rest != []
    requires MayValidate(s.threads[t].rest[0], s.threads[t].event) && !Keeps(s.threads[t].rest[0], gid, p)
    ensures Loses(s, steps, gid, p)
  {
    hide Safe, Loses, Keeps, Next, Disturbs, AllKeep, Writable, MayValidate;
    var step := EvalBegins(s, t, gid, p);
    NextSafe(s, step);
    var later := ValidatingLoses(Next(s, step), t, gid, p);
    StepThenLoses(s, step, later, gid, p);
    steps := [step] + later;
  }

  /** From every state in which a goroutine may still write a copy that serves another provider, some
      continuation loses the provider although nobody assigns another one. */
  lemma {:induction false} BadCopyUndoes(s: State, t: ThreadId, gid: GroupId, p: ProviderId)
    returns (steps: seq<Step>)
    requires Threatened(s, t, gid, p)
    ensures Loses(s, steps, gid, p)
    decreases Remaining(s.threads[t]), Stage(s.threads[t]), Untried(s.threads[t])
  {
    hide Safe, Loses, Keeps, Next, Disturbs, AllKeep, Writable, Remaining, Stage, Untried, IsActive, MayValidate;
    var thread := s.threads[t];
    if thread.EvalLoop? {
      LoopHasCopies(s, t, gid, p);
      if MayValidate(thread.rest[0], thread.event) && !Keeps(thread.rest[0], gid, p) {
        steps := EvalBeginLoses(s, t, gid, p);
        return;
      }
    }
    if thread.ValidateAt? && !Keeps(thread.group, gid, p) {
      steps := ValidatingLoses(s, t, gid, p);
      return;
    }
    var step := WritesOrGoesOn(s, t, gid, p);
    steps := [step];
    if !Loses(s, [step], gid, p) {
      var later := BadCopyUndoes(Next(s, step), t, gid, p);
      StepThenLoses(s, step, later, gid, p);
      steps := [step] + later;
    }
  }

  // ---------- main result ----------

  /** No continuation loses the provider unless someone assigns another one. */
  ghost predicate Lasts(s: State, gid: GroupId, p: ProviderId) {
    forall later :: Undisturbed(s, later, gid, p) ==> Stands(s, later, gid, p)
  }

  /** In every run, a switch by hand lasts until the group is deleted or another provider is assigned to
      it, whatever happens otherwise, exactly when at its commit no goroutine holds a copy of the group
      that serves another provider and that it may still write without reading the row again. */
  lemma SwitchLastsIff(init: State, before: seq<Step>, t: ThreadId, now: Time)
    requires Initial(init) && Commits(Run(init, before), t, now)
    ensures var s' := Committed(Run(init, before), t, now); var (gid, p) := Target(Run(init, before), t);
            Lasts(s', gid, p) <==> CopiesKeep(s'.threads, gid, p)
  {
    RunSafe(init, before);
    var s := Run(init, before);
    NextSafe(s, Serves(t, ApplyCommit(now, true)));
    CommitEstablishes(s, t, now);
    LastsIff(Committed(s, t, now), Target(s, t).0, Target(s, t).1);
  }

  lemma LastsIff(s: State, gid: GroupId, p: ProviderId)
    requires Safe(s) && IsActive(s, gid, p) && p != "" && gid !in s.running
    ensures Lasts(s, gid, p) <==> CopiesKeep(s.threads, gid, p)
  {
    hide Safe, Stands, Undisturbed, AllKeep, Writable;
    if CopiesKeep(s.threads, gid, p) {
      forall later ensures Undisturbed(s, later, gid, p) ==> Stands(s, later, gid, p) {
        StandsIff(s, later, gid, p);
      }
    } else {
      var t :| t in s.threads && !AllKeep(Writable(s.threads[t]), gid, p);
      var later := BadCopyUndoes(s, t, gid, p);
      assert Undisturbed(s, later, gid, p) && !Stands(s, later, gid, p);
    }
  }
}
