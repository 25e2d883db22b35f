/** The phase of a keepalive job: after enough failures in a row it probes for recovery until an
    attempt succeeds. */
module Keepalive {
  import opened Wrappers

  datatype Phase = Steady | RecoveryProbe

  datatype Event =
    | Entered(failures: nat)
    | Recovered
    | Countdown(phase: Phase)

  datatype Notice = KeepaliveSuccess | MergedRecovery | ProbeProgress | Nothing

  /** The attempts of a job, true for success; every other classification counts as a failure. */
  type Attempts = seq<bool>

  /** Failures since the last success. */
  function Failing(h: Attempts): nat {
    if h == [] || h[|h| - 1] then 0 else Failing(h[..|h| - 1]) + 1
  }

  /** The phase a job should be in. */
  function Due(h: Attempts, threshold: Positive): Phase {
    if Failing(h) >= threshold then RecoveryProbe else Steady
  }

  /** The mark that the newest attempt leaves in the event stream. */
  function MarkAt(h: Attempts, threshold: Positive): seq<Event> {
    if h == [] || Due(h, threshold) == Due(h[..|h| - 1], threshold) then []
    else if h[|h| - 1] then [Recovered]
    else [Entered(threshold)]
  }

  function Marks(h: Attempts, threshold: Positive): seq<Event> {
    if h == [] then [] else Marks(h[..|h| - 1], threshold) + MarkAt(h, threshold)
  }

  /** Everything the attempts publish: a mark when the phase changes, and a countdown each time. */
  function Trace(h: Attempts, threshold: Positive): seq<Event> {
    if h == [] then []
    else Trace(h[..|h| - 1], threshold) + MarkAt(h, threshold) + [Countdown(Due(h, threshold))]
  }

  class Job {
    const threshold: Positive
    const keepaliveInterval: nat
    const retryInterval: nat
    var phase: Phase
    var consecutiveFailures: nat
    var published: seq<Event>
    ghost var attempts: Attempts

    /** The job is in the phase it should be in and has published exactly what it should. */
    ghost predicate Valid()
      reads this
    {
      && consecutiveFailures == Failing(attempts) && phase == Due(attempts, threshold)
      && published == Trace(attempts, threshold)
    }

    constructor (threshold: Positive, keepaliveInterval: nat, retryInterval: nat)
      ensures Valid() && attempts == []
      ensures this.threshold == threshold && this.keepaliveInterval == keepaliveInterval
              && this.retryInterval == retryInterval
    {
      this.threshold, this.keepaliveInterval, this.retryInterval := threshold, keepaliveInterval, retryInterval;
      phase, consecutiveFailures, published, attempts := Steady, 0, [], [];
    }

    /** `continueKeepalive` up to the wait, whose length it returns. A success is a recovery exactly
        after a run of failures that had reached the threshold; a failure is reported as probe
        progress exactly from the threshold on. */
    method Continue(success: bool) returns (notice: Notice, delay: nat)
      requires Valid()
      modifies this
      ensures Valid() && attempts == old(attempts) + [success]
      ensures notice == if success then (if Failing(old(attempts)) >= threshold then MergedRecovery
              else KeepaliveSuccess)
                        else if Failing(attempts) >= threshold then ProbeProgress else Nothing
      ensures delay == if phase == RecoveryProbe then retryInterval else keepaliveInterval
    {
      ghost var h := attempts + [success];
      assert h[..|attempts|] == attempts;
      attempts := h;
      if success {
        var recovered := phase == RecoveryProbe;
        consecutiveFailures := 0;
        if recovered {
          phase := Steady;
          published := published + [Recovered];
        }
        published := published + [Countdown(phase)];
        return if recovered then MergedRecovery else KeepaliveSuccess, keepaliveInterval;
      }
      consecutiveFailures := consecutiveFailures + 1;
      if phase != RecoveryProbe && consecutiveFailures >= threshold {
        phase := RecoveryProbe;
        published := published + [Entered(consecutiveFailures)];
      }
      published := published + [Countdown(phase)];
      if phase == RecoveryProbe {
        return ProbeProgress, retryInterval;
      }
      return Nothing, keepaliveInterval;
    }
  }

  // ---------- main results ----------

  /** The marks alternate, beginning with the entry into recovery probing; the last one tells the
      phase. */
  lemma {:induction false} MarksAlternate(h: Attempts, threshold: Positive)
    ensures var marks := Marks(h, threshold);
            && (forall i :: 0 <= i < |marks| ==> marks[i] == if i % 2 == 0 then Entered(threshold) else Recovered)
            && (|marks| % 2 == 1 <==> Failing(h) >= threshold)
  {
    if h != [] { MarksAlternate(h[..|h| - 1], threshold); }
  }

  function WithoutCountdowns(events: seq<Event>): seq<Event> {
    if events == [] then []
    else WithoutCountdowns(events[..|events| - 1]) + if events[|events| - 1].Countdown? then []
      else [events[|events| - 1]]
  }

  lemma {:induction false} WithoutCountdownsNext(events: seq<Event>, mark: seq<Event>, phase: Phase)
    requires |mark| <= 1 && (mark != [] ==> !mark[0].Countdown?)
    ensures WithoutCountdowns(events + mark + [Countdown(phase)]) == WithoutCountdowns(events) + mark
  {
    var all := events + mark + [Countdown(phase)];
    assert all[..|all| - 1] == events + mark;
    if mark == [] { assert events + mark == events; } else { assert (events + mark)[..|events|] == events; }
  }

  /** The same of what the job has published, countdowns apart. */
  lemma {:induction false} PublishedMarks(h: Attempts, threshold: Positive)
    ensures WithoutCountdowns(Trace(h, threshold)) == Marks(h, threshold)
  {
    if h != [] {
      PublishedMarks(h[..|h| - 1], threshold);
      WithoutCountdownsNext(Trace(h[..|h| - 1], threshold), MarkAt(h, threshold), Due(h, threshold));
    }
  }

  function Countdowns(events: seq<Event>): seq<Event> {
    if events == [] then []
    else Countdowns(events[..|events| - 1]) + if events[|events| - 1].Countdown? then [events[|events| - 1]] else []
  }

  lemma CountdownsNext(events: seq<Event>, mark: seq<Event>, phase: Phase)
    requires |mark| <= 1 && (mark != [] ==> !mark[0].Countdown?)
    ensures Countdowns(events + mark + [Countdown(phase)]) == Countdowns(events) + [Countdown(phase)]
  {
    var all := events + mark + [Countdown(phase)];
    assert all[..|all| - 1] == events + mark;
    if mark == [] { assert events + mark == events; } else { assert (events + mark)[..|events|] == events; }
  }

  /** The n-th attempt ends `threshold` failures in a row, or more. */
  predicate EndsFailures(h: Attempts, n: nat, threshold: Positive)
    requires n < |h|
  {
    n + 1 >= threshold && forall i :: n + 1 - threshold <= i <= n ==> !h[i]
  }

  lemma LastEndsFailures(h: Attempts, threshold: Positive)
    requires h != []
    ensures EndsFailures(h, |h| - 1, threshold) <==> Due(h, threshold) == RecoveryProbe
  {
    ProbingIff(h, threshold);
    hide Due;
  }

  /** Of every attempt one countdown, which tells the phase in force after it. */
  predicate Tells(c: seq<Event>, h: Attempts, threshold: Positive) {
    && |c| == |h|
    && forall n :: 0 <= n < |h| ==>
         c[n] == Countdown(if EndsFailures(h, n, threshold) then RecoveryProbe else Steady)
  }

  lemma TellsNext(c: seq<Event>, h: Attempts, threshold: Positive)
    requires h != [] && Tells(c, h[..|h| - 1], threshold)
    ensures Tells(c + [Countdown(Due(h, threshold))], h, threshold)
  {
    LastEndsFailures(h, threshold);
    var front := h[..|h| - 1];
    hide Due;
    forall n | 0 <= n < |front| ensures EndsFailures(front, n, threshold) == EndsFailures(h, n, threshold) {
      assert forall i :: 0 <= i <= n ==> front[i] == h[i];
    }
    hide EndsFailures;
  }

  /** Every attempt publishes one countdown, last of all, which tells the phase in force after it. */
  lemma {:induction false} CountdownsTellThePhase(h: Attempts, threshold: Positive)
    ensures Tells(Countdowns(Trace(h, threshold)), h, threshold)
    ensures h != [] ==> Trace(h, threshold) != [] && Trace(h, threshold)[|Trace(h, threshold)| - 1].Countdown?
  {
    if h != [] {
      hide Due, MarkAt, Tells;
      MarkIsOne(h, threshold);
      CountdownsTellThePhase(h[..|h| - 1], threshold);
      CountdownsNext(Trace(h[..|h| - 1], threshold), MarkAt(h, threshold), Due(h, threshold));
      TellsNext(Countdowns(Trace(h[..|h| - 1], threshold)), h, threshold);
    }
  }

  lemma MarkIsOne(h: Attempts, threshold: Positive)
    ensures |MarkAt(h, threshold)| <= 1
    ensures MarkAt(h, threshold) != [] ==> !MarkAt(h, threshold)[0].Countdown?
  {
  }

  /** The job is probing for recovery exactly when its last `threshold` attempts, at least, all failed. */
  lemma {:induction false} ProbingIff(h: Attempts, threshold: Positive)
    ensures Due(h, threshold) == RecoveryProbe <==>
            |h| >= threshold && forall i :: |h| - threshold <= i < |h| ==> !h[i]
  {
    FailingIsMaximal(h);
    if |h| >= threshold && Failing(h) < threshold {
      assert h[|h| - Failing(h) - 1];
    }
  }

  lemma {:induction false} FailingIsMaximal(h: Attempts)
    ensures Failing(h) <= |h|
    ensures forall i :: |h| - Failing(h) <= i < |h| ==> !h[i]
    ensures Failing(h) < |h| ==> h[|h| - Failing(h) - 1]
  {
    if h != [] && !h[|h| - 1] { FailingIsMaximal(h[..|h| - 1]); }
  }

  /** Every published mark can be placed: it stands at the attempt that makes the last `threshold`
      ones fail for the first time, or at the first success after that. */
  lemma MarkPlaced(h: Attempts, threshold: Positive)
    requires h != []
    ensures MarkAt(h, threshold) == [Entered(threshold)] <==> Failing(h) == threshold
    ensures MarkAt(h, threshold) == [Recovered] <==> h[|h| - 1] && Failing(h[..|h| - 1]) >= threshold
  {
  }
}
