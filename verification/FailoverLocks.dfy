/** The per-group failover lock (`failoverRunning`) under every interleaving. */
module FailoverLocks {
  import opened Wrappers
  import opened Failover
  import opened FailoverSafety

  function ContLock(cont: Cont): Option<GroupId> {
    match cont
    case Unlock(gid) => Some(gid)
    case UnlockAndResume(gid, _, _) => Some(gid)
    case _ => None
  }

  /** The lock a goroutine still has to release. */
  function Lock(thread: Thread): Option<GroupId> {
    match thread
    case ApplyHolding(g, _, _) => Some(g.id)
    case ValidateAt(g, _, _, _) => Some(g.id)
    case ValidateWait(g, _, _, _, _) => Some(g.id)
    case Activating(_, _, cont) => ContLock(cont)
    case Recovering(_, cont) => ContLock(cont)
    case RecoverHolding(_, cont) => ContLock(cont)
    case ProbeMarked(g, _) => Some(g.id)
    case ProbeDeferring(gid, _, _) => Some(gid)
    case ProbeWait(gid, _) => Some(gid)
    case ProbeHolding(gid, _, _) => Some(gid)
    case _ => None
  }

  function LockAt(s: State, t: ThreadId): Option<GroupId> {
    if t in s.threads then Lock(s.threads[t]) else None
  }

  /** `failoverRunning` marks exactly the groups some goroutine works on, and no two work on one. */
  ghost predicate Exclusive(s: State) {
    && (forall t :: LockAt(s, t).Some? ==> LockAt(s, t).value in s.running)
    && (forall t, u :: LockAt(s, t).Some? && LockAt(s, t) == LockAt(s, u) ==> t == u)
    && (forall gid :: gid in s.running ==> exists t :: LockAt(s, t) == Some(gid))
  }

  /** One goroutine keeps what it has, takes a free lock, or gives back the one it has. */
  ghost predicate Moves(s: State, s': State, t: ThreadId) {
    && (forall u :: u != t ==> LockAt(s', u) == LockAt(s, u))
    && (   (LockAt(s', t) == LockAt(s, t) && s'.running == s.running)
        || (LockAt(s, t) == None && LockAt(s', t).Some? && LockAt(s', t).value !in s.running
            && s'.running == s.running + {LockAt(s', t).value})
        || (LockAt(s, t).Some? && LockAt(s', t) == None && s'.running == s.running - {LockAt(s, t).value}))
  }

  lemma MovesKeepExclusive(s: State, s': State, t: ThreadId)
    requires Exclusive(s) && Moves(s, s', t)
    ensures Exclusive(s')
  {
    forall gid | gid in s'.running ensures exists u :: LockAt(s', u) == Some(gid) {
      if LockAt(s', t) != Some(gid) {
        var u :| LockAt(s, u) == Some(gid);
        assert LockAt(s', u) == Some(gid);
      }
    }
  }

  // In these, `s'` is `s` after writes to the store or the job table.

  lemma ResumeMoves(s: State, s': State, t: ThreadId, cont: Cont)
    requires LockAt(s, t) == ContLock(cont) && s'.threads == s.threads && s'.running == s.running
    ensures Moves(s, Resume(s', t, cont), t)
  {
  }

  lemma PutMoves(s: State, s': State, t: ThreadId, thread: Thread)
    requires LockAt(s, t) == Lock(thread) && s'.threads == s.threads && s'.running == s.running
    ensures Moves(s, Put(s', t, thread), t)
  {
  }

  lemma TakeMoves(s: State, s': State, t: ThreadId, thread: Thread)
    requires LockAt(s, t) == None && Lock(thread).Some? && Lock(thread).value !in s.running
    requires s'.threads == s.threads && s'.running == s.running + {Lock(thread).value}
    ensures Moves(s, Put(s', t, thread), t)
  {
  }

  lemma GiveBackMoves(s: State, s': State, t: ThreadId, gid: GroupId, thread: Thread)
    requires LockAt(s, t) == Some(gid) && Lock(thread) == None && s'.threads == s.threads && s'.running == s.running
    ensures Moves(s, Put(Release(s', gid), t, thread), t)
    ensures Moves(s, Release(Drop(s', t), gid), t)
  {
  }

  lemma EntryMoves(s: State, t: ThreadId, e: Entry)
    requires t !in s.threads
    requires forall gid :: gid in s.groups ==> s.groups[gid].id == gid
    ensures Moves(s, EntryStep(s, t, e), t)
  {
  }

  lemma EvalNextMoves(s: State, t: ThreadId, now: Time, failures: int, ok: bool)
    requires t in s.threads && s.threads[t].EvalLoop?
    ensures Moves(s, EvalNextStep(s, t, now, failures, ok), t)
  {
    var EvalLoop(event, rest) := s.threads[t];
    hide InMaintenance, Saved, Stored;
    if rest != [] {
      var g := rest[0];
      PutMoves(s, s, t, EvalLoop(event, rest[1..]));
      PutMoves(s, s, t, Recovering(g, ResumeEval(event, rest[1..])));
      if g.id !in s.running {
        TakeMoves(s, s.(running := s.running + {g.id}), t, ValidateAt(g, 0, event, rest[1..]));
      }
    }
  }

  lemma ValidateMoves(s: State, t: ThreadId, seen: bool, request: string, started: Option<JobId>, now: Time, ok: bool)
    requires t in s.threads
    ensures s.threads[t].ValidateAt? ==> Moves(s, ValidateStartStep(s, t, started, now, ok), t)
    ensures s.threads[t].ValidateWait? ==> Moves(s, ValidateEndStep(s, t, seen, request, now, ok), t)
  {
  }

  lemma EvaluationMoves(s: State, t: ThreadId, e: Evaluation)
    requires t in s.threads
    ensures Moves(s, EvaluationStep(s, t, e), t)
  {
    var thread := s.threads[t];
    match e
    case EvalNext(now, failures, ok) => if thread.EvalLoop? { EvalNextMoves(s, t, now, failures, ok); }
    case ValidateStart(started, now, ok) => ValidateMoves(s, t, false, "", started, now, ok);
    case ValidateEnd(seen, request, now, ok) => ValidateMoves(s, t, seen, request, None, now, ok);
    case ValidateAbort =>
      if thread.ValidateAt? { ResumeMoves(s, s, t, UnlockAndResume(thread.group.id, thread.event, thread.rest)); }
    case Activate(ok) =>
      if thread.Activating? { ResumeMoves(s, Save(s, thread.group.(active := thread.provider), ok), t, thread.cont); }
  }

  lemma CompleteMoves(s: State, t: ThreadId, now: Time, ok: bool)
    requires t in s.threads && s.threads[t].CompleteHolding?
    ensures Moves(s, CompleteWriteStep(s, t, now, ok), t)
  {
    var CompleteHolding(g, success) := s.threads[t];
    var s' := Save(s, g, ok);
    if g.advice.Some? { PutMoves(s, s', t, Activating(g, g.advice.value.suggested, Finish)); }
    ResumeMoves(s, s', t, Finish);
  }

  lemma ApplyMoves(s: State, t: ThreadId, now: Time, ok: bool)
    requires t in s.threads && s.threads[t].ApplyHolding?
    ensures Moves(s, ApplyCommitStep(s, t, now, ok), t)
  {
    GiveBackMoves(s, s, t, s.threads[t].group.id, ProbeLoop([]));
  }

  lemma ManualMoves(s: State, t: ThreadId, now: Time, ok: bool)
    requires t in s.threads && s.threads[t].ManualStarted?
    ensures Moves(s, ManualSaveStep(s, t, now, ok), t)
  {
    ResumeMoves(s, s, t, Finish);
  }

  lemma RequestMoves(s: State, t: ThreadId, r: Request)
    requires t in s.threads
    ensures Moves(s, RequestStep(s, t, r), t)
  {
    hide ApplyCommitStep, ManualSaveStep, CompleteWriteStep, InMaintenance, Stored;
    match r
    case ApplyCommit(now, ok) => if s.threads[t].ApplyHolding? { ApplyMoves(s, t, now, ok); }
    case ManualStart(started, now) => if s.threads[t].ManualHolding? { ManualStartMoves(s, t, started, now); }
    case ManualSave(now, ok) => if s.threads[t].ManualStarted? { ManualMoves(s, t, now, ok); }
    case CompleteRead(seen, request, now) =>
      if s.threads[t].CompleteWait? { CompleteReadMoves(s, t, seen, request, now); }
    case CompleteWrite(now, ok) => if s.threads[t].CompleteHolding? { CompleteMoves(s, t, now, ok); }
    case EditSave(startsAt, until, ok) =>
  }

  lemma ManualStartMoves(s: State, t: ThreadId, started: Option<JobId>, now: Time)
    requires t in s.threads && s.threads[t].ManualHolding?
    ensures Moves(s, ManualStartStep(s, t, started, now), t)
  {
    hide InMaintenance;
  }

  lemma CompleteReadMoves(s: State, t: ThreadId, seen: bool, request: string, now: Time)
    requires t in s.threads && s.threads[t].CompleteWait?
    ensures Moves(s, CompleteReadStep(s, t, seen, request, now), t)
  {
  }

  lemma ProbeMoves(s: State, t: ThreadId, now: Time, seen: bool, ok: bool)
    requires t in s.threads
    ensures s.threads[t].ProbeLoop? ==> Moves(s, ProbeNextStep(s, t, now, ok), t)
    ensures s.threads[t].ProbeWait? ==> Moves(s, ProbeReadStep(s, t, seen), t)
  {
    match s.threads[t]
    case ProbeLoop(rest) =>
      if rest != [] {
        var marked := rest[0].(lastProbeAt := Some(now), lastProbeStatus := "running");
        PutMoves(s, s, t, ProbeLoop(rest[1..]));
        if marked.id !in s.running {
          TakeMoves(s, Save(s.(running := s.running + {marked.id}), marked, ok), t, ProbeMarked(marked, rest[1..]));
        }
      }
    case ProbeWait(gid, job) =>
      GiveBackMoves(s, s, t, gid, ProbeLoop([]));
      if gid in s.groups { PutMoves(s, s, t, ProbeHolding(gid, s.groups[gid], SeenSuccess(s, job, seen))); }
    case _ =>
  }

  lemma ProbeWriteMoves(s: State, t: ThreadId, ok: bool)
    requires t in s.threads
    ensures s.threads[t].ProbeDeferring? ==> Moves(s, ProbeDeferStep(s, t, ok), t)
    ensures s.threads[t].ProbeHolding? ==> Moves(s, ProbeWriteStep(s, t, ok), t)
  {
    match s.threads[t]
    case ProbeDeferring(gid, g, rest) =>
      GiveBackMoves(s, Save(s, g.(lastProbeAt := None, lastProbeStatus := "deferred"), ok), t, gid, ProbeLoop(rest));
    case ProbeHolding(gid, g, success) =>
      var w := g.(lastProbeStatus := if success then "success" else "failed");
      GiveBackMoves(s, Save(s, w, ok), t, gid, ProbeLoop([]));
      PutMoves(s, Save(s, w, ok), t, Recovering(w, Unlock(gid)));
    case _ =>
  }

  lemma RecoveryMoves(s: State, t: ThreadId, r: Recovery)
    requires t in s.threads && !r.ProbeStart?
    ensures Moves(s, RecoveryStep(s, t, r), t)
  {
    var thread := s.threads[t];
    match r
    case RecoverRead => if thread.Recovering? { ResumeMoves(s, s, t, thread.cont); }
    case RecoverWrite(successes, now, ok) =>
      if thread.RecoverHolding? {
        ResumeMoves(s, Save(s, RecoveredGroup(thread.group, successes, now), ok), t, thread.cont);
      }
    case ProbeNext(now, ok) => ProbeMoves(s, t, now, true, ok);
    case ProbeRead(seen) => ProbeMoves(s, t, 0, seen, true);
    case ProbeDefer(ok) => ProbeWriteMoves(s, t, ok);
    case ProbeWrite(ok) => ProbeWriteMoves(s, t, ok);
  }

  /** The reconcile loop hands its lock over to the goroutine that waits for the probe. */
  lemma HandOver(s: State, s': State, t: ThreadId, worker: ThreadId, gid: GroupId)
    requires Exclusive(s) && s'.running == s.running && t != worker
    requires LockAt(s, t) == Some(gid) && LockAt(s, worker) == None
    requires LockAt(s', t) == None && LockAt(s', worker) == Some(gid)
    requires forall u :: u != t && u != worker ==> LockAt(s', u) == LockAt(s, u)
    ensures Exclusive(s')
  {
    hide LockAt;
    forall g | g in s'.running ensures exists u :: LockAt(s', u) == Some(g) {
      var u :| LockAt(s, u) == Some(g);
      assert LockAt(s', if u == t then worker else u) == Some(g);
    }
  }

  lemma ProbeStartExclusive(s: State, t: ThreadId, worker: ThreadId, started: Option<JobId>)
    requires Exclusive(s) && t in s.threads && s.threads[t].ProbeMarked?
    ensures Exclusive(ProbeStartStep(s, t, worker, started))
  {
    var ProbeMarked(g, rest) := s.threads[t];
    hide Exclusive;
    var s' := ProbeStartStep(s, t, worker, started);
    if started.Some? && Fresh(s, started.value) && worker !in s.threads {
      HandOver(s, s', t, worker, g.id);
    } else {
      if g.id in s.groups { PutMoves(s, s, t, ProbeDeferring(g.id, s.groups[g.id], rest)); }
      GiveBackMoves(s, s, t, g.id, ProbeLoop(rest));
      MovesKeepExclusive(s, s', t);
    }
  }

  lemma NextExclusive(s: State, step: Step)
    requires Safe(s) && Exclusive(s)
    ensures Exclusive(Next(s, step))
  {
    match step
    case Happens(o) => MovesKeepExclusive(s, OutsideStep(s, o), 0);
    case Enters(t, e) =>
      if t !in s.threads { EntryMoves(s, t, e); MovesKeepExclusive(s, EntryStep(s, t, e), t); }
    case Evaluates(t, e) =>
      if t in s.threads { EvaluationMoves(s, t, e); MovesKeepExclusive(s, EvaluationStep(s, t, e), t); }
    case Serves(t, r) =>
      if t in s.threads { RequestMoves(s, t, r); MovesKeepExclusive(s, RequestStep(s, t, r), t); }
    case Watches(t, r) =>
      if t in s.threads {
        if r.ProbeStart? {
          if s.threads[t].ProbeMarked? { ProbeStartExclusive(s, t, r.worker, r.started); }
        } else {
          RecoveryMoves(s, t, r);
          MovesKeepExclusive(s, RecoveryStep(s, t, r), t);
        }
      }
  }

  lemma {:induction false} RunExclusive(s: State, steps: seq<Step>)
    requires Safe(s) && Exclusive(s)
    ensures Exclusive(Run(s, steps))
    decreases |steps|
  {
    if steps != [] {
      NextSafe(s, steps[0]);
      NextExclusive(s, steps[0]);
      RunExclusive(Next(s, steps[0]), steps[1..]);
    }
  }

  /** No two goroutines ever work on one group under its lock, and a lock is never left behind. */
  lemma LockIsExclusive(init: State, steps: seq<Step>, gid: GroupId)
    requires Initial(init)
    ensures var s := Run(init, steps);
            && (gid in s.running <==> exists t :: LockAt(s, t) == Some(gid))
            && (forall t, u :: LockAt(s, t) == Some(gid) && LockAt(s, u) == Some(gid) ==> t == u)
  {
    RunExclusive(init, steps);
  }
}
