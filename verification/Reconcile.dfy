/** Reconciling schedules with running jobs. A pass over all schedules is one step; the end of a job
    and the mark it leaves on its schedule are two. The clock never runs backwards and every save of a
    schedule gets a later revision. */
module Reconcile {
  import opened Wrappers
  import opened ScheduleTime

  type ScheduleId = string
  type JobId = string

  datatype Mode = Probe | Keepalive

  datatype Status = NoStatus | Queued | Running | Success | Fatal | Failed | Stopped | Skipped | ResolveFailed

  /** A stored schedule with the single runtime snapshot the store keeps of it. */
  datatype Entry = Entry(spec: Schedule, mode: Mode, lastKey: Option<Key>, lastStatus: Status, lastAt: Option<int>)

  /** A live job that runs an occurrence of a schedule. */
  datatype Job = Job(sid: ScheduleId, key: Key, mode: Mode, lock: string, cancelled: bool)

  /** A job that has ended and has still to mark its schedule. */
  datatype Ending = Ending(sid: ScheduleId, key: Key, status: Status)

  datatype Candidate = Candidate(sid: ScheduleId, entry: Entry, key: Key, lock: string)

  datatype StartOutcome = Started(job: JobId) | LockConflict | OtherFailure

  /** What one pass sees: the provider groups of the schedules that have one, the resolver, the target
      of each schedule, what each start is answered, and the order of schedule ids. */
  datatype Env = Env(
    grouped: ScheduleId -> bool, resolves: ScheduleId -> bool, lock: ScheduleId -> string,
    start: ScheduleId -> StartOutcome, rank: ScheduleId -> int)

  /** The history of the runs of all occurrences. */
  datatype Happening =
    | Begun(key: Key)
    | Ended(key: Key, terminal: bool)

  /** What has happened, which jobs have still to mark their schedules, and the `lost` occurrences:
      those whose finished mark was overwritten while they could still run, and those that were
      started again before it was written. No revision is later than `stamp`. */
  datatype Past = Past(log: seq<Happening>, ending: map<JobId, Ending>, lost: set<Key>, stamp: int)

  predicate Terminal(status: Status) {
    status == Success || status == Fatal || status == Failed
  }

  /** The skip check of a pass. */
  predicate ShouldSkip(entry: Entry, key: Key) {
    entry.lastKey == Some(key) && Terminal(entry.lastStatus)
  }

  const RETRY := 5 * MINUTE

  /** A failed resolution is recorded when it is new or the last mark is old. */
  predicate RecordsFailure(entry: Entry, now: int) {
    entry.lastStatus != ResolveFailed || entry.lastAt.None? || now - entry.lastAt.value >= RETRY
  }

  function Mark(entry: Entry, key: Key, status: Status, at: int): Entry {
    entry.(lastKey := Some(key), lastStatus := status, lastAt := Some(at))
  }

  /** The provider group of the schedule cannot be resolved: the mark is made before any other check,
      and outside of the windows it has no occurrence. */
  function GroupFailed(entry: Entry, now: int): Entry {
    if RecordsFailure(entry, now)
    then entry.(lastKey := ScheduleOccurrence(entry.spec, now), lastStatus := ResolveFailed, lastAt := Some(now))
    else entry
  }

  // ---------- occurrences that can still run ----------

  /** The occurrence belongs to an earlier revision, or its window has opened by now. */
  predicate Behind(k: Key, spec: Schedule, clock: int) {
    k.updatedAt < spec.updatedAt
    || (k.updatedAt == spec.updatedAt && spec.offset.Some? && Opens(spec, k.day) <= clock + spec.offset.value)
  }

  /** The occurrence has the revision of the schedule, and its window has not closed. */
  predicate Open(k: Key, spec: Schedule, clock: int) {
    k.updatedAt == spec.updatedAt && spec.offset.Some? && DayEnabled(spec, k.day)
    && clock + spec.offset.value < Closes(spec, k.day)
  }

  /** An occurrence whose window has opened is the current one exactly while it is open. */
  lemma CurrentIffOpen(k: Key, spec: Schedule, clock: int, now: int)
    requires InRange(spec) && k.id == spec.id && Behind(k, spec, clock) && clock <= now
    ensures ScheduleOccurrence(spec, now) == Some(k) <==> Open(k, spec, now)
  {
    if spec.offset.Some? { OccurrenceIsTheWindow(spec, now, k.day); }
  }

  lemma CurrentIsBehind(spec: Schedule, now: int)
    requires InRange(spec) && Active(spec, now)
    ensures Behind(ScheduleOccurrence(spec, now).value, spec, now) && ScheduleOccurrence(spec, now).value.id == spec.id
  {
    OccurrenceIsTheWindow(spec, now, ScheduleOccurrence(spec, now).value.day);
  }

  // ---------- the invariant ----------

  /** The occurrence can never be started again. */
  predicate Over(k: Key, entry: Entry, clock: int) {
    !Open(k, entry.spec, clock) || ShouldSkip(entry, k)
  }

  /** Some run of the occurrence was terminal, and its mark is still to be written. */
  ghost predicate Unmarked(ending: map<JobId, Ending>, k: Key) {
    exists j :: j in ending && ending[j].key == k && Terminal(ending[j].status)
  }

  ghost predicate EntryOk(sid: ScheduleId, entry: Entry, clock: int, past: Past) {
    && entry.spec.id == sid && InRange(entry.spec) && entry.spec.updatedAt <= past.stamp
    && (entry.lastKey.Some? ==> entry.lastKey.value.id == sid && Behind(entry.lastKey.value, entry.spec, clock))
    && (entry.lastKey.Some? && Terminal(entry.lastStatus) ==> Ended(entry.lastKey.value, true) in past.log)
    && (forall h :: h in past.log && h.key.id == sid && h.Ended? && h.terminal ==>
          Over(h.key, entry, clock) || h.key in past.lost || Unmarked(past.ending, h.key))
  }

  /** The occurrence was started, and its window has opened. */
  ghost predicate RunOk(sid: ScheduleId, key: Key, store: map<ScheduleId, Entry>, clock: int) {
    key.id == sid && (sid in store ==> Behind(key, store[sid].spec, clock))
  }

  ghost predicate JobOk(job: Job, store: map<ScheduleId, Entry>, clock: int, past: Past) {
    && RunOk(job.sid, job.key, store, clock) && Begun(job.key) in past.log
    && (Ended(job.key, true) in past.log ==> job.key in past.lost)
  }

  ghost predicate EndingOk(e: Ending, store: map<ScheduleId, Entry>, clock: int, past: Past) {
    RunOk(e.sid, e.key, store, clock) && Ended(e.key, Terminal(e.status)) in past.log
  }

  /** After an occurrence has had a terminal run, nothing happens to it any more, unless it is lost. */
  ghost predicate OncePerOccurrence(log: seq<Happening>, lost: set<Key>) {
    forall i, j :: 0 <= i < j < |log| && log[i].Ended? && log[i].terminal && log[i].key !in lost ==>
      log[j].key != log[i].key
  }

  ghost predicate Stamped(past: Past) {
    forall h :: h in past.log ==> h.key.updatedAt <= past.stamp
  }

  ghost predicate JobsOk(live: map<JobId, Job>, scheduleJobs: map<ScheduleId, JobId>) {
    && (forall sid :: sid in scheduleJobs ==> scheduleJobs[sid] in live && live[scheduleJobs[sid]].sid == sid)
    && (forall j :: j in live ==> live[j].sid in scheduleJobs && scheduleJobs[live[j].sid] == j)
  }

  ghost predicate AllOk(
    store: map<ScheduleId, Entry>, live: map<JobId, Job>, scheduleJobs: map<ScheduleId, JobId>, clock: int, past: Past)
  {
    && JobsOk(live, scheduleJobs) && live.Keys !! past.ending.Keys
    && (forall sid :: sid in store ==> EntryOk(sid, store[sid], clock, past))
    && (forall j :: j in live ==> JobOk(live[j], store, clock, past))
    && (forall j :: j in past.ending ==> EndingOk(past.ending[j], store, clock, past))
    && OncePerOccurrence(past.log, past.lost) && Stamped(past)
  }

  /** Unless it is lost or its mark is still to come, the current occurrence is skipped exactly when
      it has had a terminal run. */
  lemma SkippedIffFinished(sid: ScheduleId, entry: Entry, clock: int, now: int, past: Past)
    requires EntryOk(sid, entry, clock, past) && clock <= now && Active(entry.spec, now)
    ensures var e := ScheduleOccurrence(entry.spec, now).value;
            && (ShouldSkip(entry, e) ==> Ended(e, true) in past.log)
            && (Ended(e, true) in past.log ==>
                  ShouldSkip(entry, e) || e in past.lost || Unmarked(past.ending, e))
  {
    var e := ScheduleOccurrence(entry.spec, now).value;
    CurrentIsBehind(entry.spec, now);
    CurrentIffOpen(e, entry.spec, now, now);
    assert Open(e, entry.spec, clock);
  }

  // ---------- marks ----------

  /** The occurrence whose finished mark is overwritten while it can still run. */
  function Forgets(entry: Entry, entry': Entry, clock: int): set<Key> {
    if entry.lastKey.Some? && Terminal(entry.lastStatus) && !ShouldSkip(entry', entry.lastKey.value)
       && Open(entry.lastKey.value, entry.spec, clock)
    then {entry.lastKey.value} else {}
  }

  /** A mark for a schedule that has been deleted is lost. */
  function MarkIn(
      store: map<ScheduleId, Entry>, sid: ScheduleId, key: Key, status: Status, at: int): map<ScheduleId, Entry> {
    if sid in store then store[sid := Mark(store[sid], key, status, at)] else store
  }

  function MarkForgets(
      store: map<ScheduleId, Entry>, sid: ScheduleId, key: Key, status: Status, at: int, clock: int): set<Key> {
    if sid in store then Forgets(store[sid], Mark(store[sid], key, status, at), clock) else {}
  }

  /** What may be written to the row of a schedule. */
  ghost predicate Marks(entry: Entry, entry': Entry, clock: int, log: seq<Happening>) {
    && entry'.spec == entry.spec
    && (entry'.lastKey.Some? ==>
          entry'.lastKey.value.id == entry.spec.id && Behind(entry'.lastKey.value, entry.spec, clock))
    && (entry'.lastKey.Some? && Terminal(entry'.lastStatus) ==> Ended(entry'.lastKey.value, true) in log)
  }

  lemma MarkKeepsEntry(sid: ScheduleId, entry: Entry, entry': Entry, clock: int, past: Past)
    requires EntryOk(sid, entry, clock, past) && Marks(entry, entry', clock, past.log)
    ensures EntryOk(sid, entry', clock, past.(lost := past.lost + Forgets(entry, entry', clock)))
  {
    forall h | h in past.log && h.key.id == sid && h.Ended? && h.terminal
      ensures Over(h.key, entry', clock) || h.key in past.lost + Forgets(entry, entry', clock)
              || Unmarked(past.ending, h.key)
    {
      assert Over(h.key, entry, clock) || h.key in past.lost || Unmarked(past.ending, h.key);
    }
  }

  /** Losing more occurrences disturbs nothing. */
  lemma LosingKeepsEntry(sid: ScheduleId, entry: Entry, clock: int, past: Past, more: set<Key>)
    requires EntryOk(sid, entry, clock, past)
    ensures EntryOk(sid, entry, clock, past.(lost := past.lost + more))
  {
  }

  /** Whatever mark is written, by a pass or by a job: at most the occurrence it overwrites is lost. */
  lemma MarkKeepsAll(store: map<ScheduleId, Entry>, live: map<JobId, Job>, scheduleJobs: map<ScheduleId, JobId>,
                     clock: int, past: Past, sid: ScheduleId, entry': Entry)
    requires AllOk(store, live, scheduleJobs, clock, past)
    requires sid in store && Marks(store[sid], entry', clock, past.log)
    ensures AllOk(store[sid := entry'], live, scheduleJobs, clock,
                  past.(lost := past.lost + Forgets(store[sid], entry', clock)))
  {
    var store' := store[sid := entry'];
    var past' := past.(lost := past.lost + Forgets(store[sid], entry', clock));
    forall s | s in store' ensures EntryOk(s, store'[s], clock, past') {
      if s == sid {
        MarkKeepsEntry(sid, store[sid], entry', clock, past);
      } else {
        LosingKeepsEntry(s, store[s], clock, past, Forgets(store[sid], entry', clock));
      }
    }
    forall j | j in live ensures JobOk(live[j], store', clock, past') {
      assert JobOk(live[j], store, clock, past);
    }
    forall j | j in past.ending ensures EndingOk(past.ending[j], store', clock, past') {
      assert EndingOk(past.ending[j], store, clock, past);
    }
  }

  /** Marking the current occurrence forgets nothing, unless that one was finished. */
  lemma CurrentForgetsNothing(sid: ScheduleId, entry: Entry, clock: int, past: Past, status: Status)
    requires EntryOk(sid, entry, clock, past) && Active(entry.spec, clock) && !Terminal(status)
    requires !ShouldSkip(entry, ScheduleOccurrence(entry.spec, clock).value)
    ensures var entry' := Mark(entry, ScheduleOccurrence(entry.spec, clock).value, status, clock);
            Forgets(entry, entry', clock) == {} && Marks(entry, entry', clock, past.log)
  {
    CurrentIsBehind(entry.spec, clock);
    if entry.lastKey.Some? { CurrentIffOpen(entry.lastKey.value, entry.spec, clock, clock); }
  }

  lemma CurrentMarkKeepsAll(store: map<ScheduleId, Entry>, live: map<JobId, Job>,
                            scheduleJobs: map<ScheduleId, JobId>, now: int, past: Past, sid: ScheduleId, status: Status)
    requires AllOk(store, live, scheduleJobs, now, past)
    requires sid in store && Active(store[sid].spec, now) && !Terminal(status)
    requires !ShouldSkip(store[sid], ScheduleOccurrence(store[sid].spec, now).value)
    ensures var key := ScheduleOccurrence(store[sid].spec, now).value;
            AllOk(store[sid := Mark(store[sid], key, status, now)], live, scheduleJobs, now, past)
  {
    CurrentForgetsNothing(sid, store[sid], now, past, status);
    MarkKeepsAll(store, live, scheduleJobs, now, past, sid,
                 Mark(store[sid], ScheduleOccurrence(store[sid].spec, now).value, status, now));
    assert past.(lost := past.lost + {}) == past;
  }

  /** The current occurrence of the schedule has its finished mark. */
  predicate CurrentFinished(entry: Entry, now: int) {
    Active(entry.spec, now) && ShouldSkip(entry, ScheduleOccurrence(entry.spec, now).value)
  }

  /** A group that cannot be resolved makes the store forget exactly a finished current occurrence. */
  lemma GroupForgetsIff(sid: ScheduleId, entry: Entry, clock: int, past: Past)
    requires EntryOk(sid, entry, clock, past)
    ensures Marks(entry, GroupFailed(entry, clock), clock, past.log)
    ensures Forgets(entry, GroupFailed(entry, clock), clock)
            == if CurrentFinished(entry, clock) then {ScheduleOccurrence(entry.spec, clock).value} else {}
  {
    if Active(entry.spec, clock) { CurrentIsBehind(entry.spec, clock); }
    if entry.lastKey.Some? { CurrentIffOpen(entry.lastKey.value, entry.spec, clock, clock); }
  }

  // ---------- the end of a job ----------

  lemma OnceNext(log: seq<Happening>, lost: set<Key>, h: Happening, more: set<Key>)
    requires OncePerOccurrence(log, lost) && (Ended(h.key, true) in log ==> h.key in lost + more)
    ensures OncePerOccurrence(log + [h], lost + more)
  {
  }

  lemma EndKeepsEntry(sid: ScheduleId, entry: Entry, clock: int, past: Past, j: JobId, e: Ending)
    requires EntryOk(sid, entry, clock, past) && j !in past.ending
    ensures EntryOk(sid, entry, clock,
                    past.(log := past.log + [Ended(e.key, Terminal(e.status))], ending := past.ending[j := e]))
  {
    var past' := past.(log := past.log + [Ended(e.key, Terminal(e.status))], ending := past.ending[j := e]);
    forall h | h in past'.log && h.key.id == sid && h.Ended? && h.terminal
      ensures Over(h.key, entry, clock) || h.key in past'.lost || Unmarked(past'.ending, h.key)
    {
      if h in past.log {
        assert Over(h.key, entry, clock) || h.key in past.lost || Unmarked(past.ending, h.key);
        if i :| i in past.ending && past.ending[i].key == h.key && Terminal(past.ending[i].status) {
          assert past'.ending[i] == past.ending[i];
        }
      } else {
        assert past'.ending[j] == e;
      }
    }
  }

  /** The history after the end of a job, whose mark is still to be written. */
  function WithEnd(past: Past, j: JobId, e: Ending): Past {
    past.(log := past.log + [Ended(e.key, Terminal(e.status))], ending := past.ending[j := e])
  }

  lemma EndKeepsEntries(store: map<ScheduleId, Entry>, clock: int, past: Past, j: JobId, e: Ending)
    requires j !in past.ending && forall sid :: sid in store ==> EntryOk(sid, store[sid], clock, past)
    ensures forall sid :: sid in store ==> EntryOk(sid, store[sid], clock, WithEnd(past, j, e))
  {
    hide EntryOk;
    forall sid | sid in store ensures EntryOk(sid, store[sid], clock, WithEnd(past, j, e)) {
      EndKeepsEntry(sid, store[sid], clock, past, j, e);
    }
  }

  lemma EndKeepsJobs(store: map<ScheduleId, Entry>, live: map<JobId, Job>, clock: int, past: Past, j: JobId, e: Ending)
    requires forall k :: k in live ==> JobOk(live[k], store, clock, past) && (k != j ==> live[k].sid != e.sid)
    requires RunOk(e.sid, e.key, store, clock)
    requires forall k :: k in past.ending ==> EndingOk(past.ending[k], store, clock, past)
    ensures forall k :: k in live - {j} ==> JobOk(live[k], store, clock, WithEnd(past, j, e))
    ensures var later := WithEnd(past, j, e);
            forall k :: k in later.ending ==> EndingOk(later.ending[k], store, clock, later)
  {
    var later := WithEnd(past, j, e);
    forall k | k in live - {j} ensures JobOk(live[k], store, clock, later) {
      assert JobOk(live[k], store, clock, past) && live[k].sid != e.sid;
    }
    forall k | k in later.ending ensures EndingOk(later.ending[k], store, clock, later) {
      if k != j { assert EndingOk(past.ending[k], store, clock, past); }
    }
  }

  /** The end of a job: until its mark is written, its occurrence counts as unmarked. */
  lemma EndKeepsAll(store: map<ScheduleId, Entry>, live: map<JobId, Job>, scheduleJobs: map<ScheduleId, JobId>,
                    clock: int, past: Past, j: JobId, status: Status)
    requires AllOk(store, live, scheduleJobs, clock, past) && j in live
    ensures var job := live[j];
            && (Ended(job.key, true) in past.log ==> job.key in past.lost)
            && AllOk(store, live - {j}, scheduleJobs - {job.sid}, clock,
                     WithEnd(past, j, Ending(job.sid, job.key, status)))
  {
    var job := live[j];
    var e := Ending(job.sid, job.key, status);
    assert JobOk(job, store, clock, past);
    OnceNext(past.log, past.lost, Ended(job.key, Terminal(status)), {});
    assert past.lost + {} == past.lost;
    BegunStamped(past, job.key);
    hide OncePerOccurrence, EntryOk, Stamped, JobOk, EndingOk;
    StampedNext(past, WithEnd(past, j, e), Ended(job.key, Terminal(status)));
    EndKeepsEntries(store, clock, past, j, e);
    EndKeepsJobs(store, live, clock, past, j, e);
  }

  /** A job that has written its mark is done. */
  lemma MarkedKeepsAll(store: map<ScheduleId, Entry>, live: map<JobId, Job>, scheduleJobs: map<ScheduleId, JobId>,
                       clock: int, past: Past, j: JobId)
    requires AllOk(store, live, scheduleJobs, clock, past) && j in past.ending
    requires var e := past.ending[j]; e.sid in store && Terminal(e.status) ==> ShouldSkip(store[e.sid], e.key)
    ensures AllOk(store, live, scheduleJobs, clock, past.(ending := past.ending - {j}))
  {
    var e := past.ending[j];
    var past' := past.(ending := past.ending - {j});
    assert EndingOk(e, store, clock, past);
    forall sid | sid in store ensures EntryOk(sid, store[sid], clock, past') {
      forall h | h in past.log && h.key.id == sid && h.Ended? && h.terminal
        ensures Over(h.key, store[sid], clock) || h.key in past.lost || Unmarked(past'.ending, h.key)
      {
        assert Over(h.key, store[sid], clock) || h.key in past.lost || Unmarked(past.ending, h.key);
        if i :| i in past.ending && past.ending[i].key == h.key && Terminal(past.ending[i].status) {
          if i != j { assert past'.ending[i] == past.ending[i]; }
        }
      }
    }
    forall k | k in live ensures JobOk(live[k], store, clock, past') { assert JobOk(live[k], store, clock, past); }
    forall k | k in past'.ending ensures EndingOk(past'.ending[k], store, clock, past') {
      assert EndingOk(past.ending[k], store, clock, past);
    }
  }

  /** The mark of a job, running or ended, may be written. */
  lemma RunMayMark(entry: Entry, key: Key, status: Status, at: int, clock: int, log: seq<Happening>)
    requires key.id == entry.spec.id && Behind(key, entry.spec, clock) && (Terminal(status) ==> Ended(key, true) in log)
    ensures Marks(entry, Mark(entry, key, status, at), clock, log)
  {
  }

  lemma CancelKeepsAll(store: map<ScheduleId, Entry>, live: map<JobId, Job>, scheduleJobs: map<ScheduleId, JobId>,
                       clock: int, past: Past, live': map<JobId, Job>)
    requires AllOk(store, live, scheduleJobs, clock, past) && live'.Keys == live.Keys
    requires forall j :: j in live ==> live'[j] == live[j].(cancelled := live'[j].cancelled)
    ensures AllOk(store, live', scheduleJobs, clock, past)
  {
    forall j | j in live' ensures JobOk(live'[j], store, clock, past) {
      assert JobOk(live[j], store, clock, past);
    }
  }

  lemma ClockKeepsAll(store: map<ScheduleId, Entry>, live: map<JobId, Job>, scheduleJobs: map<ScheduleId, JobId>,
                      clock: int, now: int, past: Past)
    requires AllOk(store, live, scheduleJobs, clock, past) && clock <= now
    ensures AllOk(store, live, scheduleJobs, now, past)
  {
    forall sid | sid in store ensures EntryOk(sid, store[sid], now, past) {
      assert EntryOk(sid, store[sid], clock, past);
      hide Unmarked;
    }
    forall j | j in live ensures JobOk(live[j], store, now, past) { assert JobOk(live[j], store, clock, past); }
    forall j | j in past.ending ensures EndingOk(past.ending[j], store, now, past) {
      assert EndingOk(past.ending[j], store, clock, past);
    }
  }

  lemma StampKeepsAll(store: map<ScheduleId, Entry>, live: map<JobId, Job>, scheduleJobs: map<ScheduleId, JobId>,
                      clock: int, past: Past, stamp: int)
    requires AllOk(store, live, scheduleJobs, clock, past) && past.stamp <= stamp
    ensures AllOk(store, live, scheduleJobs, clock, past.(stamp := stamp))
  {
    var past' := past.(stamp := stamp);
    forall sid | sid in store ensures EntryOk(sid, store[sid], clock, past') {
      assert EntryOk(sid, store[sid], clock, past);
      hide Unmarked;
    }
    forall j | j in live ensures JobOk(live[j], store, clock, past') { assert JobOk(live[j], store, clock, past); }
    forall j | j in past.ending ensures EndingOk(past.ending[j], store, clock, past') {
      assert EndingOk(past.ending[j], store, clock, past);
    }
  }

  /** A later revision: no occurrence that has run is open under it. */
  lemma SaveKeepsAll(store: map<ScheduleId, Entry>, live: map<JobId, Job>, scheduleJobs: map<ScheduleId, JobId>,
                     clock: int, past: Past, entry: Entry)
    requires AllOk(store, live, scheduleJobs, clock, past) && InRange(entry.spec)
    requires past.stamp < entry.spec.updatedAt
    requires if entry.spec.id in store
             then entry == store[entry.spec.id].(spec := entry.spec, mode := entry.mode)
             else entry.lastKey.None?
    ensures AllOk(store[entry.spec.id := entry], live, scheduleJobs, clock,
                  past.(stamp := entry.spec.updatedAt))
  {
    var past' := past.(stamp := entry.spec.updatedAt);
    StampKeepsAll(store, live, scheduleJobs, clock, past, entry.spec.updatedAt);
    var store' := store[entry.spec.id := entry];
    if entry.spec.id in store { assert EntryOk(entry.spec.id, store[entry.spec.id], clock, past); }
    SavedEntryOk(store, clock, past, entry);
    hide EntryOk, OncePerOccurrence, Stamped;
    forall j | j in live ensures JobOk(live[j], store', clock, past') {
      assert JobOk(live[j], store, clock, past);
      BegunStamped(past, live[j].key);
    }
    forall j | j in past.ending ensures EndingOk(past.ending[j], store', clock, past') {
      assert EndingOk(past.ending[j], store, clock, past);
      EndedStamped(past, past.ending[j].key, Terminal(past.ending[j].status));
    }
  }

  lemma SavedEntryOk(store: map<ScheduleId, Entry>, clock: int, past: Past, entry: Entry)
    requires Stamped(past) && InRange(entry.spec) && past.stamp < entry.spec.updatedAt
    requires if entry.spec.id in store
             then EntryOk(entry.spec.id, store[entry.spec.id], clock, past)
                  && entry == store[entry.spec.id].(spec := entry.spec, mode := entry.mode)
             else entry.lastKey.None?
    ensures EntryOk(entry.spec.id, entry, clock, past.(stamp := entry.spec.updatedAt))
  {
    hide Unmarked;
  }

  lemma StampedNext(past: Past, later: Past, h: Happening)
    requires Stamped(past) && later.log == past.log + [h] && later.stamp == past.stamp && h.key.updatedAt <= past.stamp
    ensures Stamped(later)
  {
  }

  lemma BegunStamped(past: Past, key: Key)
    requires Stamped(past) && Begun(key) in past.log
    ensures key.updatedAt <= past.stamp
  {
  }

  lemma EndedStamped(past: Past, key: Key, terminal: bool)
    requires Stamped(past) && Ended(key, terminal) in past.log
    ensures key.updatedAt <= past.stamp
  {
  }

  lemma DeleteKeepsAll(store: map<ScheduleId, Entry>, live: map<JobId, Job>, scheduleJobs: map<ScheduleId, JobId>,
                       clock: int, past: Past, sid: ScheduleId)
    requires AllOk(store, live, scheduleJobs, clock, past)
    ensures AllOk(store - {sid}, live, scheduleJobs, clock, past)
  {
    var store' := store - {sid};
    forall j | j in live ensures JobOk(live[j], store', clock, past) { assert JobOk(live[j], store, clock, past); }
    forall j | j in past.ending ensures EndingOk(past.ending[j], store', clock, past) {
      assert EndingOk(past.ending[j], store, clock, past);
    }
  }

  // ---------- starting the current occurrence ----------

  /** The occurrence is started although its finished mark is still to be written. */
  ghost function Early(ending: map<JobId, Ending>, key: Key): set<Key> {
    if Unmarked(ending, key) then {key} else {}
  }

  lemma BeginKeepsJob(job: Job, store: map<ScheduleId, Entry>, clock: int, past: Past, key: Key, more: set<Key>)
    requires JobOk(job, store, clock, past)
    ensures JobOk(job, store, clock, past.(log := past.log + [Begun(key)], lost := past.lost + more))
  {
  }

  lemma BeginKeepsEntry(sid: ScheduleId, entry: Entry, clock: int, past: Past, key: Key, more: set<Key>)
    requires EntryOk(sid, entry, clock, past)
    ensures EntryOk(sid, entry, clock, past.(log := past.log + [Begun(key)], lost := past.lost + more))
  {
  }

  lemma BeginKeepsAll(store: map<ScheduleId, Entry>, live: map<JobId, Job>, scheduleJobs: map<ScheduleId, JobId>,
                      now: int, past: Past, sid: ScheduleId, j: JobId, key: Key, mode: Mode, lock: string)
    requires AllOk(store, live, scheduleJobs, now, past)
    requires sid !in scheduleJobs && j !in live && j !in past.ending && RunOk(sid, key, store, now)
    requires key.updatedAt <= past.stamp
    requires Ended(key, true) in past.log ==> key in past.lost || Unmarked(past.ending, key)
    ensures AllOk(store, live[j := Job(sid, key, mode, lock, false)], scheduleJobs[sid := j], now,
                  past.(log := past.log + [Begun(key)], lost := past.lost + Early(past.ending, key)))
  {
    var more := Early(past.ending, key);
    var past' := past.(log := past.log + [Begun(key)], lost := past.lost + more);
    OnceNext(past.log, past.lost, Begun(key), more);
    StampedNext(past, past', Begun(key));
    hide OncePerOccurrence, EntryOk, Stamped;
    forall s | s in store ensures EntryOk(s, store[s], now, past') {
      BeginKeepsEntry(s, store[s], now, past, key, more);
    }
    forall k | k in live ensures JobOk(live[k], store, now, past') {
      BeginKeepsJob(live[k], store, now, past, key, more);
    }
    forall k | k in past.ending ensures EndingOk(past.ending[k], store, now, past') {
      assert EndingOk(past.ending[k], store, now, past);
    }
    assert JobOk(Job(sid, key, mode, lock, false), store, now, past');
  }

  /** The current occurrence that is not skipped may be started. */
  lemma DueMayBegin(store: map<ScheduleId, Entry>, live: map<JobId, Job>, scheduleJobs: map<ScheduleId, JobId>,
                    now: int, past: Past, sid: ScheduleId)
    requires AllOk(store, live, scheduleJobs, now, past) && sid in store && Active(store[sid].spec, now)
    requires !ShouldSkip(store[sid], ScheduleOccurrence(store[sid].spec, now).value)
    ensures var key := ScheduleOccurrence(store[sid].spec, now).value;
            && RunOk(sid, key, store, now) && key.updatedAt <= past.stamp
            && (Ended(key, true) in past.log ==> key in past.lost || Unmarked(past.ending, key))
  {
    CurrentIsBehind(store[sid].spec, now);
    SkippedIffFinished(sid, store[sid], now, now, past);
  }

  // ---------- what one pass does to one schedule ----------

  predicate Runnable(entry: Entry, now: int) {
    entry.spec.enabled && Active(entry.spec, now)
  }

  /** The schedule is due for a start: its occurrence is open, has no live job and is not finished. */
  predicate Due(entry: Entry, running: bool, now: int) {
    Runnable(entry, now) && !running && !ShouldSkip(entry, ScheduleOccurrence(entry.spec, now).value)
  }

  function AfterPass(sid: ScheduleId, entry: Entry, running: bool, now: int, env: Env): Entry {
    if !env.grouped(sid) then GroupFailed(entry, now)
    else if !Due(entry, running, now) then entry
    else
      var key := ScheduleOccurrence(entry.spec, now).value;
      if !env.resolves(sid) then
        if RecordsFailure(entry, now) then Mark(entry, key, ResolveFailed, now) else entry
      else match env.start(sid)
        case Started(_) => Mark(entry, key, Queued, now)
        case LockConflict =>
          if entry.lastStatus != Skipped || entry.lastKey != Some(key) then Mark(entry, key, Skipped, now) else entry
        case OtherFailure => entry
  }

  /** The schedule is due, and its group and provider can be resolved: it becomes a candidate. */
  predicate Resolved(sid: ScheduleId, entry: Entry, running: bool, now: int, env: Env) {
    env.grouped(sid) && Due(entry, running, now) && env.resolves(sid)
  }

  function CandidateOf(sid: ScheduleId, entry: Entry, now: int, env: Env): Candidate
    requires Active(entry.spec, now)
  {
    Candidate(sid, entry, ScheduleOccurrence(entry.spec, now).value, env.lock(sid))
  }

  /** What the first half of a pass makes of a schedule. */
  function AfterConsider(sid: ScheduleId, entry: Entry, running: bool, now: int, env: Env): Entry {
    if Resolved(sid, entry, running, now, env) then entry else AfterPass(sid, entry, running, now, env)
  }

  /** The first half of a pass stops the jobs of the schedules that may not run now. */
  function Stopping(live: map<JobId, Job>, store: map<ScheduleId, Entry>, order: seq<ScheduleId>, now: int,
                    grouped: ScheduleId -> bool): map<JobId, Job> {
    map j | j in live ::
      live[j].(cancelled := live[j].cancelled
                 || (live[j].sid in order && live[j].sid in store && Stops(live[j].sid, store, now, grouped)))
  }

  predicate Stops(sid: ScheduleId, store: map<ScheduleId, Entry>, now: int, grouped: ScheduleId -> bool)
    requires sid in store
  {
    grouped(sid) && !Runnable(store[sid], now)
  }

  /** The finished occurrences that a pass over these schedules makes the store forget. */
  function Forgotten(order: seq<ScheduleId>, store: map<ScheduleId, Entry>, now: int,
                     grouped: ScheduleId -> bool): set<Key> {
    set sid | sid in store && sid in order && !grouped(sid) && CurrentFinished(store[sid], now)
      :: ScheduleOccurrence(store[sid].spec, now).value
  }

  lemma ForgottenNext(order: seq<ScheduleId>, sid: ScheduleId, store: map<ScheduleId, Entry>, now: int,
                      grouped: ScheduleId -> bool, lost: set<Key>)
    requires sid in store
    ensures lost + Forgotten(order + [sid], store, now, grouped)
            == lost + Forgotten(order, store, now, grouped)
               + if !grouped(sid) && CurrentFinished(store[sid], now)
                 then {ScheduleOccurrence(store[sid].spec, now).value} else {}
  {
    hide CurrentFinished;
  }

  /** The job of a schedule is asked to stop. */
  function Cancelling(live: map<JobId, Job>, sid: ScheduleId): map<JobId, Job> {
    map j | j in live :: live[j].(cancelled := live[j].cancelled || live[j].sid == sid)
  }

  predicate DistinctIds(order: seq<ScheduleId>) {
    forall i, j :: 0 <= i < j < |order| ==> order[i] != order[j]
  }

  function Considered(order: seq<ScheduleId>, store: map<ScheduleId, Entry>, running: map<ScheduleId, JobId>,
                      now: int, env: Env): map<ScheduleId, Entry> {
    map sid | sid in store :: if sid in order then AfterConsider(sid, store[sid], sid in running, now, env)
      else store[sid]
  }

  /** The candidates of a pass over these schedules, in their order. */
  function Candidates(order: seq<ScheduleId>, store: map<ScheduleId, Entry>, running: map<ScheduleId, JobId>,
                      now: int, env: Env): seq<Candidate> {
    if order == [] then []
    else
      var sid := order[|order| - 1];
      Candidates(order[..|order| - 1], store, running, now, env)
      + if sid in store && Resolved(sid, store[sid], sid in running, now, env)
        then [CandidateOf(sid, store[sid], now, env)] else []
  }

  lemma ConsideredNext(order: seq<ScheduleId>, sid: ScheduleId, store: map<ScheduleId, Entry>,
                       running: map<ScheduleId, JobId>, now: int, env: Env)
    requires sid in store && sid !in order
    ensures Considered(order, store, running, now, env)[sid] == store[sid]
    ensures Considered(order + [sid], store, running, now, env)
            == var before := Considered(order, store, running, now, env);
               before[sid := AfterConsider(sid, store[sid], sid in running, now, env)]
    ensures Candidates(order + [sid], store, running, now, env)
            == Candidates(order, store, running, now, env)
               + if Resolved(sid, store[sid], sid in running, now, env) then [CandidateOf(sid, store[sid], now, env)]
                 else []
  {
    assert (order + [sid])[..|order|] == order;
  }

  lemma TakeNext(order: seq<ScheduleId>, i: nat)
    requires DistinctIds(order) && i < |order|
    ensures order[..i + 1] == order[..i] + [order[i]] && order[i] !in order[..i]
  {
  }

  lemma NothingConsidered(store: map<ScheduleId, Entry>, running: map<ScheduleId, JobId>, live: map<JobId, Job>,
        now: int, env: Env)
    ensures Considered([], store, running, now, env) == store && Stopping(live, store, [], now, env.grouped) == live
    ensures Forgotten([], store, now, env.grouped) == {}
  {
  }

  lemma StoppingNext(live: map<JobId, Job>, store: map<ScheduleId, Entry>, order: seq<ScheduleId>, sid: ScheduleId,
        now: int, grouped: ScheduleId -> bool)
    requires sid in store
    ensures var before := Stopping(live, store, order, now, grouped);
            Stopping(live, store, order + [sid], now, grouped)
            == map j | j in before :: before[j].(cancelled := before[j].cancelled
              || (before[j].sid == sid && Stops(sid, store, now, grouped)))
  {
  }

  function ProbeLocks(candidates: seq<Candidate>): set<string> {
    set c | c in candidates && c.entry.mode == Probe :: c.lock
  }

  function Preempting(live: map<JobId, Job>, probeLocks: set<string>): map<JobId, Job> {
    map j | j in live :: live[j].(cancelled := live[j].cancelled
      || (live[j].mode == Keepalive && live[j].lock in probeLocks))
  }

  function Sids(cs: seq<Candidate>): set<ScheduleId> {
    set c | c in cs :: c.sid
  }

  predicate Ready(c: Candidate, store: map<ScheduleId, Entry>, running: map<ScheduleId, JobId>, now: int, env: Env) {
    c.sid in store && Resolved(c.sid, store[c.sid], false, now, env) && c == CandidateOf(c.sid, store[c.sid], now, env)
    && c.sid !in running
  }

  /** New job ids are random: none is in use, and no two starts of a pass get the same one. */
  ghost predicate FreshJobs(env: Env, used: set<JobId>) {
    && (forall sid :: env.start(sid).Started? ==> env.start(sid).job !in used)
    && (forall a, b :: env.start(a).Started? && env.start(a) == env.start(b) ==> a == b)
  }

  function TriedStore(store: map<ScheduleId, Entry>, sids: set<ScheduleId>, now: int,
        env: Env): map<ScheduleId, Entry> {
    map sid | sid in store :: if sid in sids then AfterPass(sid, store[sid], false, now, env) else store[sid]
  }

  function TriedJobs(running: map<ScheduleId, JobId>, sids: set<ScheduleId>, env: Env): map<ScheduleId, JobId> {
    running + map sid | sid in sids && env.start(sid).Started? :: env.start(sid).job
  }

  lemma NothingTried(store: map<ScheduleId, Entry>, running: map<ScheduleId, JobId>, now: int, env: Env)
    ensures TriedStore(store, Sids([]), now, env) == store && TriedJobs(running, Sids([]), env) == running
  {
  }

  lemma SidsNext(sorted: seq<Candidate>, i: nat)
    requires i < |sorted| && DistinctSids(sorted)
    ensures sorted[..i + 1] == sorted[..i] + [sorted[i]]
    ensures sorted[i].sid !in Sids(sorted[..i]) && Sids(sorted[..i + 1]) == Sids(sorted[..i]) + {sorted[i].sid}
  {
    assert sorted[..i + 1] == sorted[..i] + [sorted[i]];
  }

  lemma TryNextStore(store: map<ScheduleId, Entry>, sids: set<ScheduleId>, sid: ScheduleId, now: int, env: Env)
    requires sid in store && sid !in sids
    ensures TriedStore(store, sids, now, env)[sid] == store[sid]
    ensures TriedStore(store, sids + {sid}, now, env)
            == TriedStore(store, sids, now, env)[sid := AfterPass(sid, store[sid], false, now, env)]
  {
  }

  lemma TryNextJobs(running: map<ScheduleId, JobId>, sids: set<ScheduleId>, sid: ScheduleId, env: Env)
    requires sid !in sids && sid !in running
    ensures sid !in TriedJobs(running, sids, env)
    ensures TriedJobs(running, sids + {sid}, env)
            == if env.start(sid).Started? then TriedJobs(running, sids, env)[sid := env.start(sid).job]
               else TriedJobs(running, sids, env)
  {
  }

  /** The job table and the log after trying the candidates in turn. */
  function JobOf(c: Candidate): Job { Job(c.sid, c.key, c.entry.mode, c.lock, false) }

  function WithStarted(live: map<JobId, Job>, cs: seq<Candidate>, env: Env): map<JobId, Job> {
    if cs == [] then live
    else
      var c := cs[|cs| - 1];
      var before := WithStarted(live, cs[..|cs| - 1], env);
      if env.start(c.sid).Started? then before[env.start(c.sid).job := JobOf(c)] else before
  }

  function StartedLog(cs: seq<Candidate>, env: Env): seq<Happening> {
    if cs == [] then []
    else
      var c := cs[|cs| - 1];
      StartedLog(cs[..|cs| - 1], env) + if env.start(c.sid).Started? then [Begun(c.key)] else []
  }

  /** A job id the environment hands out later in the pass is still unused. */
  lemma {:induction false} StillFresh(
      live: map<JobId, Job>, cs: seq<Candidate>, sid: ScheduleId, env: Env, others: set<JobId>)
    requires FreshJobs(env, live.Keys + others) && sid !in Sids(cs) && env.start(sid).Started?
    ensures env.start(sid).job !in WithStarted(live, cs, env) && env.start(sid).job !in others
  {
    if cs != [] {
      var c := cs[|cs| - 1];
      assert c in cs && c.sid in Sids(cs);
      StillFresh(live, cs[..|cs| - 1], sid, env, others);
    }
  }

  predicate Starts(sid: ScheduleId, entry: Entry, running: bool, now: int, env: Env) {
    env.grouped(sid) && Due(entry, running, now) && env.resolves(sid) && env.start(sid).Started?
  }

  // ---------- ordering the candidates ----------

  predicate Before(a: Candidate, b: Candidate, rank: ScheduleId -> int) {
    if a.entry.mode != b.entry.mode then a.entry.mode == Probe else rank(a.sid) < rank(b.sid)
  }

  /** Inserting behind every candidate that does not come after it keeps equal ones in order. */
  function InsertSorted(c: Candidate, sorted: seq<Candidate>, rank: ScheduleId -> int): (r: seq<Candidate>)
    ensures multiset(r) == multiset(sorted) + multiset{c}
  {
    if sorted == [] then [c]
    else if Before(c, sorted[0], rank) then [c] + sorted
    else
      assert sorted == [sorted[0]] + sorted[1..];
      [sorted[0]] + InsertSorted(c, sorted[1..], rank)
  }

  /** A stable sort: scheduled probes first, then by schedule id. */
  function SortCandidates(cs: seq<Candidate>, rank: ScheduleId -> int): (r: seq<Candidate>)
    ensures multiset(r) == multiset(cs)
  {
    if cs == [] then []
    else
      assert cs == cs[..|cs| - 1] + [cs[|cs| - 1]];
      InsertSorted(cs[|cs| - 1], SortCandidates(cs[..|cs| - 1], rank), rank)
  }

  predicate Ordered(cs: seq<Candidate>, rank: ScheduleId -> int) {
    forall i, j :: 0 <= i < j < |cs| ==> !Before(cs[j], cs[i], rank)
  }

  lemma {:induction false} InsertKeepsOrder(c: Candidate, sorted: seq<Candidate>, rank: ScheduleId -> int)
    requires Ordered(sorted, rank)
    ensures Ordered(InsertSorted(c, sorted, rank), rank)
  {
    if sorted != [] && !Before(c, sorted[0], rank) {
      InsertKeepsOrder(c, sorted[1..], rank);
      var r := InsertSorted(c, sorted[1..], rank);
      forall j | 0 <= j < |r| ensures !Before(r[j], sorted[0], rank) {
        assert r[j] in multiset(r);
        assert r[j] == c || r[j] in sorted[1..];
      }
    }
  }

  /** Every probe is tried before every keepalive, and each group in order of its ids. */
  lemma {:induction false} SortIsOrdered(cs: seq<Candidate>, rank: ScheduleId -> int)
    ensures Ordered(SortCandidates(cs, rank), rank)
  {
    if cs != [] {
      SortIsOrdered(cs[..|cs| - 1], rank);
      InsertKeepsOrder(cs[|cs| - 1], SortCandidates(cs[..|cs| - 1], rank), rank);
    }
  }

  predicate DistinctSids(cs: seq<Candidate>) {
    forall i, j :: 0 <= i < j < |cs| ==> cs[i].sid != cs[j].sid
  }

  /** The schedules that start in a pass, with their new jobs, beside those that were running. */
  function PassJobs(store: map<ScheduleId, Entry>, running: map<ScheduleId, JobId>, now: int,
        env: Env): map<ScheduleId, JobId> {
    running + map sid | sid in store && Starts(sid, store[sid], sid in running, now, env) :: env.start(sid).job
  }

  lemma InsertMembers(c: Candidate, sorted: seq<Candidate>, rank: ScheduleId -> int)
    ensures forall d :: d in InsertSorted(c, sorted, rank) <==> d == c || d in sorted
  {
    hide InsertSorted, Before;
    var r := InsertSorted(c, sorted, rank);
    forall d ensures d in r <==> d == c || d in sorted {
      assert d in r <==> d in multiset(r);
    }
  }

  lemma PrependKeepsSids(c: Candidate, rest: seq<Candidate>)
    requires DistinctSids(rest) && forall d :: d in rest ==> d.sid != c.sid
    ensures DistinctSids([c] + rest)
  {
    forall j | 0 <= j < |rest| ensures rest[j].sid != c.sid {
      assert rest[j] in rest;
    }
  }

  lemma {:induction false} InsertKeepsSids(c: Candidate, sorted: seq<Candidate>, rank: ScheduleId -> int)
    requires DistinctSids(sorted) && forall d :: d in sorted ==> d.sid != c.sid
    ensures DistinctSids(InsertSorted(c, sorted, rank))
  {
    hide Before, DistinctSids;
    if sorted == [] {
      PrependKeepsSids(c, []);
      assert [c] + [] == [c];
    } else if Before(c, sorted[0], rank) {
      PrependKeepsSids(c, sorted);
    } else {
      DropFirst(sorted);
      InsertKeepsSids(c, sorted[1..], rank);
      InsertMembers(c, sorted[1..], rank);
      PrependKeepsSids(sorted[0], InsertSorted(c, sorted[1..], rank));
    }
  }

  lemma DropFirst(cs: seq<Candidate>)
    requires DistinctSids(cs) && cs != []
    ensures DistinctSids(cs[1..]) && forall d :: d in cs[1..] ==> d in cs && d.sid != cs[0].sid
  {
  }

  /** Sorting keeps the candidates and keeps their schedules distinct. */
  lemma {:induction false} SortKeepsSids(cs: seq<Candidate>, rank: ScheduleId -> int)
    ensures forall d :: d in SortCandidates(cs, rank) <==> d in cs
    ensures DistinctSids(cs) ==> DistinctSids(SortCandidates(cs, rank))
  {
    if cs != [] {
      var n := |cs| - 1;
      SortKeepsSids(cs[..n], rank);
      assert cs == cs[..n] + [cs[n]];
      InsertMembers(cs[n], SortCandidates(cs[..n], rank), rank);
      if DistinctSids(cs) { InsertKeepsSids(cs[n], SortCandidates(cs[..n], rank), rank); }
    }
  }

  /** The candidates are exactly the resolved schedules, once each, with their state at the start. */
  lemma {:induction false} CandidatesAreResolved(
      order: seq<ScheduleId>, store: map<ScheduleId, Entry>, running: map<ScheduleId, JobId>, now: int, env: Env)
    requires DistinctIds(order) && forall sid :: sid in order ==> sid in store
    ensures var cs := Candidates(order, store, running, now, env);
            && DistinctSids(cs)
            && (forall c :: c in cs <==> c.sid in order && Resolved(c.sid, store[c.sid], c.sid in running, now, env)
                                         && c == CandidateOf(c.sid, store[c.sid], now, env))
  {
    if order != [] {
      var n := |order| - 1;
      assert order == order[..n] + [order[n]];
      CandidatesAreResolved(order[..n], store, running, now, env);
    }
  }

  /** The first half of a pass leaves the candidates as they were. */
  lemma CandidatesAreReady(
      order: seq<ScheduleId>, store: map<ScheduleId, Entry>, running: map<ScheduleId, JobId>, now: int, env: Env)
    requires DistinctIds(order) && forall sid :: sid in order ==> sid in store
    ensures forall c :: c in Candidates(order, store, running, now, env) ==>
              Ready(c, Considered(order, store, running, now, env), running, now, env)
  {
    CandidatesAreResolved(order, store, running, now, env);
  }

  lemma PassSids(order: seq<ScheduleId>, store: map<ScheduleId, Entry>, running: map<ScheduleId, JobId>, now: int,
        env: Env)
    requires DistinctIds(order) && forall sid :: sid in order <==> sid in store
    ensures Sids(SortCandidates(Candidates(order, store, running, now, env), env.rank))
            == ResolvedSids(store, running, now, env)
  {
    hide ShouldSkip, ScheduleOccurrence, SortCandidates, Candidates;
    var cs := Candidates(order, store, running, now, env);
    CandidatesAreResolved(order, store, running, now, env);
    SortKeepsSids(cs, env.rank);
    forall sid | sid in ResolvedSids(store, running, now, env)
      ensures sid in Sids(SortCandidates(cs, env.rank))
    {
      assert CandidateOf(sid, store[sid], now, env) in cs;
    }
  }

  function ResolvedSids(store: map<ScheduleId, Entry>, running: map<ScheduleId, JobId>, now: int,
        env: Env): set<ScheduleId> {
    set sid | sid in store && Resolved(sid, store[sid], sid in running, now, env)
  }

  /** The two halves of a pass together do to each schedule what one pass does to it. */
  lemma PassIsPointwise(
      order: seq<ScheduleId>, store: map<ScheduleId, Entry>, running: map<ScheduleId, JobId>, now: int, env: Env)
    requires DistinctIds(order) && forall sid :: sid in order <==> sid in store
    ensures var sids := Sids(SortCandidates(Candidates(order, store, running, now, env), env.rank));
            && TriedStore(Considered(order, store, running, now, env), sids, now, env)
               == (map sid | sid in store :: AfterPass(sid, store[sid], sid in running, now, env))
            && TriedJobs(running, sids, env) == PassJobs(store, running, now, env)
  {
    PassSids(order, store, running, now, env);
    hide SortCandidates, Candidates, ScheduleOccurrence, ShouldSkip, Runnable;
    var sids := ResolvedSids(store, running, now, env);
    HalvesMakeOnePass(order, sids, store, running, now, env);
  }

  lemma HalvesMakeOnePass(
      order: seq<ScheduleId>, sids: set<ScheduleId>, store: map<ScheduleId, Entry>, running: map<ScheduleId, JobId>,
      now: int, env: Env)
    requires sids == ResolvedSids(store, running, now, env) && forall sid :: sid in order <==> sid in store
    ensures TriedStore(Considered(order, store, running, now, env), sids, now, env)
            == (map sid | sid in store :: AfterPass(sid, store[sid], sid in running, now, env))
    ensures TriedJobs(running, sids, env) == PassJobs(store, running, now, env)
  {
    hide ScheduleOccurrence, ShouldSkip, Runnable, RecordsFailure, Mark, GroupFailed;
  }

  // ---------- at most one finished run per occurrence ----------

  /** A pass starts an occurrence only if its schedule has no live job, and no run of it has been
      terminal, unless the finished mark was forgotten or is still to be written. */
  lemma StartedIsNew(store: map<ScheduleId, Entry>, live: map<JobId, Job>, scheduleJobs: map<ScheduleId, JobId>,
                     clock: int, past: Past, sid: ScheduleId, now: int, env: Env)
    requires AllOk(store, live, scheduleJobs, clock, past) && clock <= now
    requires sid in store && Starts(sid, store[sid], sid in scheduleJobs, now, env)
    ensures var key := ScheduleOccurrence(store[sid].spec, now).value;
            Ended(key, true) in past.log ==> key in past.lost || Unmarked(past.ending, key)
    ensures forall j :: j in live ==> live[j].sid != sid
  {
    SkippedIffFinished(sid, store[sid], clock, now, past);
  }

  /** A finished occurrence is run again after a pass exactly when that pass could not resolve the
      schedule's provider group: the next pass that can starts it, while its window is open. */
  lemma FinishedRestartsIff(sid: ScheduleId, entry: Entry, now: int, later: int, env: Env, next: Env)
    requires entry.spec.enabled && CurrentFinished(entry, now)
    requires ScheduleOccurrence(entry.spec, later) == ScheduleOccurrence(entry.spec, now)
    requires next.grouped(sid) && next.resolves(sid) && next.start(sid).Started?
    ensures Starts(sid, AfterPass(sid, entry, false, now, env), false, later, next) <==> !env.grouped(sid)
  {
  }

  /** A job has ended, and its schedule is otherwise ready: a pass that comes before the mark starts the
      same occurrence again, and one that comes after it does exactly when the status is not terminal. */
  lemma MarkPreventsIff(sid: ScheduleId, entry: Entry, status: Status, at: int, now: int, env: Env)
    requires Runnable(entry, now) && !CurrentFinished(entry, now)
    requires env.grouped(sid) && env.resolves(sid) && env.start(sid).Started?
    ensures var key := ScheduleOccurrence(entry.spec, now).value;
            && Starts(sid, entry, false, now, env)
            && (Starts(sid, Mark(entry, key, status, at), false, now, env) <==> !Terminal(status))
  {
  }

  /** A mark that a job writes late, for whatever occurrence, lets a finished one run again exactly when
      it is not itself a finished mark of that one. */
  lemma LateMarkRestartsIff(sid: ScheduleId, entry: Entry, key: Key, status: Status, at: int, now: int, env: Env)
    requires entry.spec.enabled && CurrentFinished(entry, now)
    requires env.grouped(sid) && env.resolves(sid) && env.start(sid).Started?
    ensures !Starts(sid, entry, false, now, env)
    ensures Starts(sid, Mark(entry, key, status, at), false, now, env)
            <==> !(Some(key) == ScheduleOccurrence(entry.spec, now) && Terminal(status))
  {
  }

  /** What a late mark makes the store forget is exactly a finished occurrence that is current now and
      that it overwrites. */
  lemma LateMarkForgetsIff(store: map<ScheduleId, Entry>, sid: ScheduleId, key: Key, status: Status, at: int, now: int,
                           past: Past)
    requires sid in store && EntryOk(sid, store[sid], now, past)
    ensures MarkForgets(store, sid, key, status, at, now)
            == if CurrentFinished(store[sid], now)
                  && !(Some(key) == ScheduleOccurrence(store[sid].spec, now) && Terminal(status))
               then {ScheduleOccurrence(store[sid].spec, now).value} else {}
  {
    var entry := store[sid];
    if Active(entry.spec, now) { CurrentIsBehind(entry.spec, now); }
    if entry.lastKey.Some? { CurrentIffOpen(entry.lastKey.value, entry.spec, now, now); }
  }

  /** At any time each schedule has at most one live job, and the occurrence it runs is unfinished,
      unless it is lost. */
  lemma OneLiveJob(store: map<ScheduleId, Entry>, live: map<JobId, Job>, scheduleJobs: map<ScheduleId, JobId>,
                   clock: int, past: Past, i: JobId, j: JobId)
    requires AllOk(store, live, scheduleJobs, clock, past) && i in live && j in live && live[i].sid == live[j].sid
    ensures i == j && Begun(live[i].key) in past.log
    ensures Ended(live[i].key, true) in past.log ==> live[i].key in past.lost
  {
    assert JobOk(live[i], store, clock, past);
  }

  /** The occurrences among these that were started before their finished mark was written. */
  ghost function EarlyKeys(log: seq<Happening>, ending: map<JobId, Ending>): set<Key> {
    set h | h in log && Unmarked(ending, h.key) :: h.key
  }

  lemma EarlyNext(log: seq<Happening>, ending: map<JobId, Ending>, key: Key)
    ensures EarlyKeys(log + [Begun(key)], ending) == EarlyKeys(log, ending) + Early(ending, key)
  {
    hide Unmarked;
    assert Begun(key) in log + [Begun(key)] && Begun(key).key == key;
  }

  lemma EarlyInTurn(cs: seq<Candidate>, i: nat, env: Env, ending: map<JobId, Ending>, lost: set<Key>)
    requires i < |cs|
    ensures lost + EarlyKeys(StartedLog(cs[..i + 1], env), ending)
            == if env.start(cs[i].sid).Started?
               then lost + EarlyKeys(StartedLog(cs[..i], env), ending) + Early(ending, cs[i].key)
               else lost + EarlyKeys(StartedLog(cs[..i], env), ending)
  {
    assert cs[..i + 1][..i] == cs[..i];
    var before := StartedLog(cs[..i], env);
    EarlyNext(before, ending, cs[i].key);
    assert before + [] == before;
    hide EarlyKeys, Early;
  }

  // ---------- starting against the lock table ----------

  /** The checks of a start before the target lock: resolving again, closing and the active limit. */
  datatype Admission = Refused | Admitted(job: JobId)

  /** The environment of a pass; `busy` are the targets that jobs outside of any schedule hold. */
  datatype World = World(
    grouped: ScheduleId -> bool, resolves: ScheduleId -> bool, lock: ScheduleId -> string,
    admit: ScheduleId -> Admission, busy: set<string>, rank: ScheduleId -> int)

  function Locks(live: map<JobId, Job>): set<string> {
    set j | j in live :: live[j].lock
  }

  /** What the lock table answers to the start of a candidate. */
  function Answer(c: Candidate, live: map<JobId, Job>, w: World): StartOutcome {
    match w.admit(c.sid)
    case Refused => OtherFailure
    case Admitted(j) => if c.lock in w.busy || c.lock in Locks(live) then LockConflict else Started(j)
  }

  /** The job table after the candidates have been started in turn. */
  function Trying(live: map<JobId, Job>, cs: seq<Candidate>, w: World): map<JobId, Job> {
    if cs == [] then live
    else
      var c, before := cs[|cs| - 1], Trying(live, cs[..|cs| - 1], w);
      match Answer(c, before, w)
      case Started(j) => before[j := JobOf(c)]
      case LockConflict => before
      case OtherFailure => before
  }

  function Answers(live: map<JobId, Job>, cs: seq<Candidate>, w: World): map<ScheduleId, StartOutcome> {
    if cs == [] then map[]
    else
      var c, front := cs[|cs| - 1], cs[..|cs| - 1];
      Answers(live, front, w)[c.sid := Answer(c, Trying(live, front, w), w)]
  }

  /** The environment before any start is answered, and with the answers to these candidates. */
  function Unanswered(w: World): Env {
    Env(w.grouped, w.resolves, w.lock, _ => OtherFailure, w.rank)
  }

  function Answered(live: map<JobId, Job>, cs: seq<Candidate>, w: World): Env {
    var answers := Answers(live, cs, w);
    Env(w.grouped, w.resolves, w.lock, sid => if sid in answers then answers[sid] else OtherFailure, w.rank)
  }

  /** New job ids are random: none is in use, and no two starts of a pass get the same one. */
  ghost predicate FreshAdmissions(w: World, used: set<JobId>) {
    && (forall sid :: w.admit(sid).Admitted? ==> w.admit(sid).job !in used)
    && (forall a, b :: w.admit(a).Admitted? && w.admit(a) == w.admit(b) ==> a == b)
  }

  lemma {:induction false} StartedIsAdmitted(live: map<JobId, Job>, cs: seq<Candidate>, w: World, sid: ScheduleId)
    requires sid in Answers(live, cs, w) && Answers(live, cs, w)[sid].Started?
    ensures w.admit(sid) == Admitted(Answers(live, cs, w)[sid].job)
  {
    var c, front := cs[|cs| - 1], cs[..|cs| - 1];
    hide Trying;
    if sid != c.sid { StartedIsAdmitted(live, front, w, sid); }
  }

  lemma AnswersAreFresh(live: map<JobId, Job>, cs: seq<Candidate>, w: World, used: set<JobId>)
    requires FreshAdmissions(w, used)
    ensures FreshJobs(Answered(live, cs, w), used)
  {
    var env := Answered(live, cs, w);
    forall sid | env.start(sid).Started? ensures w.admit(sid) == Admitted(env.start(sid).job) {
      StartedIsAdmitted(live, cs, w, sid);
    }
    hide Answers;
  }

  /** The answer to the i-th candidate is the one the lock table gives when its turn comes. */
  lemma {:induction false} AnswerInTurn(live: map<JobId, Job>, cs: seq<Candidate>, w: World, i: nat)
    requires i < |cs| && DistinctSids(cs)
    ensures cs[i].sid in Answers(live, cs, w)
    ensures Answers(live, cs, w)[cs[i].sid] == Answer(cs[i], Trying(live, cs[..i], w), w)
  {
    hide Answer, Trying;
    var n := |cs| - 1;
    if i < n {
      AnswerInTurn(live, cs[..n], w, i);
      assert cs[..n][..i] == cs[..i] && cs[..n][i] == cs[i];
    }
  }

  lemma {:induction false} TryingIsStarted(live: map<JobId, Job>, cs: seq<Candidate>, w: World, i: nat)
    requires i <= |cs| && DistinctSids(cs)
    ensures WithStarted(live, cs[..i], Answered(live, cs, w)) == Trying(live, cs[..i], w)
  {
    if i > 0 {
      TryingIsStarted(live, cs, w, i - 1);
      AnswerInTurn(live, cs, w, i - 1);
      assert cs[..i][..i - 1] == cs[..i - 1] && cs[..i][i - 1] == cs[i - 1];
      hide Answer, Answers;
    }
  }

  /** The jobs there are when the i-th candidate's turn comes. */
  lemma {:induction false} JobsInTurn(live: map<JobId, Job>, cs: seq<Candidate>, w: World, i: nat, j: JobId)
    requires i <= |cs| && j in Trying(live, cs[..i], w)
    ensures j in live || exists k :: 0 <= k < i && w.admit(cs[k].sid) == Admitted(j)
  {
    if i > 0 {
      assert cs[..i][..i - 1] == cs[..i - 1] && cs[..i][i - 1] == cs[i - 1];
      if j in Trying(live, cs[..i - 1], w) { JobsInTurn(live, cs, w, i - 1, j); }
    }
  }

  /** The targets held when the i-th candidate's turn comes: those held before, and those of the
      candidates that have been started. */
  lemma {:induction false} HeldInTurn(live: map<JobId, Job>, cs: seq<Candidate>, w: World, i: nat, lock: string)
    requires i <= |cs| && DistinctSids(cs) && FreshAdmissions(w, live.Keys)
    ensures lock in Locks(Trying(live, cs[..i], w)) <==>
              lock in Locks(live) || exists k :: 0 <= k < i && StartsAt(live, cs, w, k) && cs[k].lock == lock
  {
    if i > 0 {
      HeldInTurn(live, cs, w, i - 1, lock);
      HeldAfter(live, cs, w, i - 1, lock);
      hide Trying, StartsAt, Locks, FreshAdmissions;
    }
  }

  lemma HeldAfter(live: map<JobId, Job>, cs: seq<Candidate>, w: World, i: nat, lock: string)
    requires i < |cs| && DistinctSids(cs) && FreshAdmissions(w, live.Keys)
    ensures lock in Locks(Trying(live, cs[..i + 1], w)) <==>
              lock in Locks(Trying(live, cs[..i], w)) || (StartsAt(live, cs, w, i) && cs[i].lock == lock)
  {
    AnswerInTurn(live, cs, w, i);
    var before, c := Trying(live, cs[..i], w), cs[i];
    assert cs[..i + 1][..i] == cs[..i] && cs[..i + 1][i] == c;
    if Answer(c, before, w).Started? {
      var j := Answer(c, before, w).job;
      if j in before { JobsInTurn(live, cs, w, i, j); }
      LocksAdd(before, j, c, lock);
    }
    hide Locks, Answers;
  }

  lemma LocksAdd(live: map<JobId, Job>, j: JobId, c: Candidate, lock: string)
    requires j !in live
    ensures lock in Locks(live[j := JobOf(c)]) <==> lock in Locks(live) || lock == c.lock
  {
    var live' := live[j := JobOf(c)];
    if lock in Locks(live) {
      var k :| k in live && live[k].lock == lock;
      assert k in live' && live'[k].lock == lock;
    }
    assert j in live' && live'[j].lock == c.lock;
  }

  /** The i-th candidate is started. */
  predicate StartsAt(live: map<JobId, Job>, cs: seq<Candidate>, w: World, i: nat)
    requires i < |cs|
  {
    Answered(live, cs, w).start(cs[i].sid).Started?
  }

  /** Of candidates that share a target only one is ever started: a candidate is started exactly
      when it is admitted, its target was free before the pass, and no earlier candidate took it. */
  lemma StartsIffFirst(live: map<JobId, Job>, cs: seq<Candidate>, w: World, i: nat)
    requires i < |cs| && DistinctSids(cs) && FreshAdmissions(w, live.Keys)
    ensures StartsAt(live, cs, w, i) <==>
              && w.admit(cs[i].sid).Admitted? && cs[i].lock !in w.busy && cs[i].lock !in Locks(live)
              && forall k :: 0 <= k < i && cs[k].lock == cs[i].lock ==> !StartsAt(live, cs, w, k)
  {
    AnswerInTurn(live, cs, w, i);
    HeldInTurn(live, cs, w, i, cs[i].lock);
    hide Trying, Answers;
  }

  /** A scheduled probe owns its target: while one that is admitted is a candidate, no scheduled
      keepalive job on the same target is started in the pass. */
  lemma ProbeOwnsTarget(live: map<JobId, Job>, found: seq<Candidate>, w: World, i: nat, j: nat)
    requires DistinctSids(found) && FreshAdmissions(w, live.Keys)
    requires i < |SortCandidates(found, w.rank)| && j < |SortCandidates(found, w.rank)|
    requires var cs := SortCandidates(found, w.rank);
             cs[i].entry.mode == Probe && cs[j].entry.mode == Keepalive && cs[i].lock == cs[j].lock
               && w.admit(cs[i].sid).Admitted?
    ensures !StartsAt(live, SortCandidates(found, w.rank), w, j)
  {
    var cs := SortCandidates(found, w.rank);
    SortKeepsSids(found, w.rank);
    SortIsOrdered(found, w.rank);
    assert i < j by { ProbesComeFirst(cs, w.rank, i, j); }
    StartsIffFirst(live, cs, w, i);
    StartsIffFirst(live, cs, w, j);
    hide SortCandidates, StartsAt;
  }

  lemma ProbesComeFirst(cs: seq<Candidate>, rank: ScheduleId -> int, i: nat, j: nat)
    requires Ordered(cs, rank) && i < |cs| && j < |cs| && cs[i].entry.mode == Probe && cs[j].entry.mode == Keepalive
    ensures i < j
  {
    if j < i { assert Before(cs[i], cs[j], rank); }
  }

  /** The candidates do not depend on how their starts are answered. */
  lemma {:induction false} CandidatesUnanswered(
      order: seq<ScheduleId>, store: map<ScheduleId, Entry>, running: map<ScheduleId, JobId>, now: int, e: Env, f: Env)
    requires e.grouped == f.grouped && e.resolves == f.resolves && e.lock == f.lock
    ensures Candidates(order, store, running, now, e) == Candidates(order, store, running, now, f)
  {
    if order != [] { CandidatesUnanswered(order[..|order| - 1], store, running, now, e, f); }
  }

  lemma ConsideredUnanswered(
      order: seq<ScheduleId>, store: map<ScheduleId, Entry>, running: map<ScheduleId, JobId>, now: int, e: Env, f: Env)
    requires e.grouped == f.grouped && e.resolves == f.resolves && e.lock == f.lock
    ensures Considered(order, store, running, now, e) == Considered(order, store, running, now, f)
  {
    hide ScheduleOccurrence, ShouldSkip, Runnable, RecordsFailure, Mark, GroupFailed;
  }

  lemma StartedNext(live: map<JobId, Job>, cs: seq<Candidate>, i: nat, env: Env, log: seq<Happening>)
    requires i < |cs|
    ensures WithStarted(live, cs[..i + 1], env)
            == if env.start(cs[i].sid).Started?
              then WithStarted(live, cs[..i], env)[env.start(cs[i].sid).job := JobOf(cs[i])]
               else WithStarted(live, cs[..i], env)
    ensures log + StartedLog(cs[..i + 1], env)
            == if env.start(cs[i].sid).Started? then log + StartedLog(cs[..i], env) + [Begun(cs[i].key)]
               else log + StartedLog(cs[..i], env)
  {
    assert cs[..i + 1][..i] == cs[..i];
    var before := StartedLog(cs[..i], env);
    assert before + [] == before;
    assert log + (before + [Begun(cs[i].key)]) == log + before + [Begun(cs[i].key)];
  }

  lemma AnsweredIs(live: map<JobId, Job>, cs: seq<Candidate>, w: World, sid: ScheduleId)
    ensures sid in Answers(live, cs, w) ==> Answered(live, cs, w).start(sid) == Answers(live, cs, w)[sid]
  {
    hide Answers;
  }

  lemma TriedHas(store: map<ScheduleId, Entry>, sids: set<ScheduleId>, sid: ScheduleId, now: int, env: Env)
    requires sid in store
    ensures sid in TriedStore(store, sids, now, env)
  {
  }

  lemma ReadyIs(c: Candidate, store: map<ScheduleId, Entry>, running: map<ScheduleId, JobId>, now: int, env: Env)
    requires Ready(c, store, running, now, env)
    ensures c.sid in store && store[c.sid] == c.entry && c.sid !in running && Due(c.entry, false, now)
            && env.grouped(c.sid) && env.resolves(c.sid)
    ensures c.key == ScheduleOccurrence(c.entry.spec, now).value
  {
  }

  /** What is known when a candidate's turn comes, and what trying it makes of the store and the jobs. */
  lemma InTurn(sorted: seq<Candidate>, i: nat, now: int, w: World, env: Env, store0: map<ScheduleId, Entry>,
               live0: map<JobId, Job>, running0: map<ScheduleId, JobId>, ending: map<JobId, Ending>)
    requires i < |sorted| && DistinctSids(sorted) && Ready(sorted[i], store0, running0, now, env)
    requires FreshJobs(env, live0.Keys + ending.Keys) && env == Answered(live0, sorted, w)
    ensures var c := sorted[i]; var start := env.start(c.sid);
            var sids, next := Sids(sorted[..i]), Sids(sorted[..i + 1]);
            var store, jobs := TriedStore(store0, sids, now, env), TriedJobs(running0, sids, env);
            var live := WithStarted(live0, sorted[..i], env);
            && c.sid in store && store[c.sid] == c.entry && c.sid !in jobs && start == Answer(c, live, w)
            && Due(c.entry, false, now) && env.grouped(c.sid) && env.resolves(c.sid)
            && c.key == ScheduleOccurrence(c.entry.spec, now).value
            && (start.Started? ==> start.job !in live && start.job !in ending)
            && TriedStore(store0, next, now, env) == store[c.sid := AfterPass(c.sid, c.entry, false, now, env)]
            && TriedJobs(running0, next, env) == (if start.Started? then jobs[c.sid := start.job] else jobs)
            && WithStarted(live0, sorted[..i + 1], env) == if start.Started? then live[start.job := JobOf(c)] else live
  {
    var c := sorted[i];
    hide AfterPass, Due, Ready, FreshJobs, ScheduleOccurrence, Answers, Answer, Trying, Answered, DistinctSids, Sids,
         WithStarted, StartedLog, TriedStore, TriedJobs;
    SidsNext(sorted, i);
    StartedNext(live0, sorted, i, env, []);
    if env.start(c.sid).Started? { StillFresh(live0, sorted[..i], c.sid, env, ending.Keys); }
    AnswerInTurn(live0, sorted, w, i);
    TryingIsStarted(live0, sorted, w, i);
    ReadyIs(c, store0, running0, now, env);
    TryNextStore(store0, Sids(sorted[..i]), c.sid, now, env);
    TryNextJobs(running0, Sids(sorted[..i]), c.sid, env);
    AnsweredIs(live0, sorted, w, c.sid);
    TriedHas(store0, Sids(sorted[..i]), c.sid, now, env);
  }

  /** What trying a candidate makes of the past. */
  lemma InTurnPast(sorted: seq<Candidate>, i: nat, env: Env, past0: Past, ending: map<JobId, Ending>)
    requires i < |sorted|
    ensures var c, front, next := sorted[i], StartedLog(sorted[..i], env), StartedLog(sorted[..i + 1], env);
            var log, lost := past0.log + front, past0.lost + EarlyKeys(front, ending);
            && past0.log + next == (if env.start(c.sid).Started? then log + [Begun(c.key)] else log)
            && past0.lost + EarlyKeys(next, ending)
               == if env.start(c.sid).Started? then lost + Early(ending, c.key) else lost
  {
    StartedNext(map[], sorted, i, env, past0.log);
    EarlyInTurn(sorted, i, env, ending, past0.lost);
    hide StartedLog, EarlyKeys, Early, WithStarted;
  }

  /** What the second half of a pass can rely on. */
  lemma PassReady(order: seq<ScheduleId>, store: map<ScheduleId, Entry>, running: map<ScheduleId, JobId>, now: int,
                  w: World, live: map<JobId, Job>, others: set<JobId>)
    requires DistinctIds(order) && (forall sid :: sid in order <==> sid in store)
    requires FreshAdmissions(w, live.Keys + others)
    ensures var found := Candidates(order, store, running, now, Unanswered(w));
            var sorted := SortCandidates(found, w.rank);
            var env := Answered(live, sorted, w);
            && found == Candidates(order, store, running, now, env)
            && Considered(order, store, running, now, Unanswered(w)) == Considered(order, store, running, now, env)
            && DistinctSids(sorted) && FreshJobs(env, live.Keys + others)
            && forall c :: c in sorted ==> Ready(c, Considered(order, store, running, now, env), running, now, env)
  {
    var found := Candidates(order, store, running, now, Unanswered(w));
    var sorted := SortCandidates(found, w.rank);
    var env := Answered(live, sorted, w);
    CandidatesUnanswered(order, store, running, now, Unanswered(w), env);
    ConsideredUnanswered(order, store, running, now, Unanswered(w), env);
    AnswersAreFresh(live, sorted, w, live.Keys + others);
    SortKeepsSids(found, w.rank);
    CandidatesAreResolved(order, store, running, now, env);
    CandidatesAreReady(order, store, running, now, env);
    hide Candidates, Considered, SortCandidates, Resolved, Ready, Answers, ScheduleOccurrence;
  }

  lemma JobOfSchedule(live: map<JobId, Job>, scheduleJobs: map<ScheduleId, JobId>, sid: ScheduleId)
    requires JobsOk(live, scheduleJobs)
    ensures sid in scheduleJobs ==> scheduleJobs[sid] in live
    ensures Cancelling(live, sid)
            == if sid in scheduleJobs then live[scheduleJobs[sid] := live[scheduleJobs[sid]].(cancelled := true)]
              else live
  {
  }

  // ---------- which jobs a pass cancels ----------

  /** The same jobs, of which some more may have been asked to stop. */
  predicate OnlyCancels(live: map<JobId, Job>, live': map<JobId, Job>) {
    && live'.Keys == live.Keys
    && forall j :: j in live ==>
         && live'[j].sid == live[j].sid && live'[j].key == live[j].key && live'[j].mode == live[j].mode
         && live'[j].lock == live[j].lock && (live[j].cancelled ==> live'[j].cancelled)
  }

  /** Some candidate is a probe of this target. */
  ghost predicate ProbeAmong(candidates: seq<Candidate>, lock: string) {
    exists c :: c in candidates && c.entry.mode == Probe && c.lock == lock
  }

  lemma PreemptingCancels(live: map<JobId, Job>, candidates: seq<Candidate>)
    ensures var live' := Preempting(live, ProbeLocks(candidates));
            && OnlyCancels(live, live')
            && forall j :: j in live ==>
                 (live'[j].cancelled <==>
                    live[j].cancelled || (live[j].mode == Keepalive && ProbeAmong(candidates, live[j].lock)))
  {
    forall lock ensures lock in ProbeLocks(candidates) <==> ProbeAmong(candidates, lock) {}
    hide ProbeLocks, ProbeAmong;
  }

  /** The schedule is enabled and some window of it holds the instant. */
  ghost predicate InItsWindow(entry: Entry, now: int) {
    entry.spec.enabled && exists day :: Holds(entry.spec, day, now)
  }

  /** The occurrence of the window that holds the instant has been marked as finished. */
  ghost predicate WindowDone(entry: Entry, now: int) {
    && entry.lastStatus in {Success, Fatal, Failed}
    && exists day :: Holds(entry.spec, day, now) && entry.lastKey == Some(Key(entry.spec.id, entry.spec.updatedAt, day))
  }

  /** A stored probe of this target waits for its start: its group and its provider are resolved, it is
      in its window, it has no live job, and the window is not done. */
  ghost predicate ProbeWaits(store: map<ScheduleId, Entry>, running: map<ScheduleId, JobId>, now: int, w: World,
                             lock: string) {
    exists sid :: sid in store && store[sid].mode == Probe && w.lock(sid) == lock && w.grouped(sid) && w.resolves(sid)
                  && sid !in running && InItsWindow(store[sid], now) && !WindowDone(store[sid], now)
  }

  /** The pass asks a job to stop exactly when its schedule, its group resolved, is disabled or outside
      its windows, or when it is a keepalive job on the target of a probe that waits. */
  ghost predicate PassCancels(live: map<JobId, Job>, live': map<JobId, Job>, store: map<ScheduleId, Entry>,
                              running: map<ScheduleId, JobId>, now: int, w: World) {
    && live.Keys <= live'.Keys && OnlyCancels(live, map j | j in live :: live'[j])
    && forall j :: j in live ==>
         (live'[j].cancelled <==>
            || live[j].cancelled
            || (live[j].sid in store && w.grouped(live[j].sid) && !InItsWindow(store[live[j].sid], now))
            || (live[j].mode == Keepalive && ProbeWaits(store, running, now, w, live[j].lock)))
  }

  lemma RunnableIff(entry: Entry, now: int)
    requires InRange(entry.spec)
    ensures Runnable(entry, now) <==> InItsWindow(entry, now)
    ensures Active(entry.spec, now) ==>
              (ShouldSkip(entry, ScheduleOccurrence(entry.spec, now).value) <==> WindowDone(entry, now))
  {
    if entry.spec.offset.Some? {
      ActiveIffInWindow(entry.spec, now);
      if Active(entry.spec, now) {
        var key := ScheduleOccurrence(entry.spec, now).value;
        OccurrenceIsTheWindow(entry.spec, now, key.day);
        forall day | Holds(entry.spec, day, now) ensures day == key.day {
          OccurrenceIsTheWindow(entry.spec, now, day);
        }
      }
    }
    hide ScheduleOccurrence;
  }

  lemma ProbeAmongIff(order: seq<ScheduleId>, store: map<ScheduleId, Entry>, running: map<ScheduleId, JobId>,
                      now: int, w: World, lock: string)
    requires DistinctIds(order) && forall sid :: sid in order <==> sid in store
    requires forall sid :: sid in store ==> InRange(store[sid].spec)
    ensures ProbeAmong(Candidates(order, store, running, now, Unanswered(w)), lock)
            <==> ProbeWaits(store, running, now, w, lock)
  {
    var env := Unanswered(w);
    var cs := Candidates(order, store, running, now, env);
    CandidatesAreResolved(order, store, running, now, env);
    forall sid | sid in store { RunnableIff(store[sid], now); }
    hide Candidates, ScheduleOccurrence, ShouldSkip, InItsWindow, WindowDone, DistinctSids;
    if ProbeAmong(cs, lock) {
      var c :| c in cs && c.entry.mode == Probe && c.lock == lock;
      assert c.sid in store && w.grouped(c.sid);
    }
    if ProbeWaits(store, running, now, w, lock) {
      var sid :| sid in store && store[sid].mode == Probe && w.lock(sid) == lock && w.grouped(sid) && w.resolves(sid)
                 && sid !in running && InItsWindow(store[sid], now) && !WindowDone(store[sid], now);
      assert CandidateOf(sid, store[sid], now, env) in cs;
    }
  }

  lemma {:induction false} StartedStay(live: map<JobId, Job>, cs: seq<Candidate>, env: Env)
    requires FreshJobs(env, live.Keys)
    ensures forall j :: j in live ==> j in WithStarted(live, cs, env) && WithStarted(live, cs, env)[j] == live[j]
  {
    if cs != [] { StartedStay(live, cs[..|cs| - 1], env); }
  }

  lemma PassCancelsThese(order: seq<ScheduleId>, store: map<ScheduleId, Entry>, live: map<JobId, Job>,
                         running: map<ScheduleId, JobId>, now: int, w: World)
    requires DistinctIds(order) && forall sid :: sid in order <==> sid in store
    requires forall sid :: sid in store ==> InRange(store[sid].spec)
    requires FreshAdmissions(w, live.Keys)
    ensures var found := Candidates(order, store, running, now, Unanswered(w));
            var sorted := SortCandidates(found, w.rank);
            var kept := Preempting(Stopping(live, store, order, now, w.grouped), ProbeLocks(found));
            PassCancels(live, WithStarted(kept, sorted, Answered(kept, sorted, w)), store, running, now, w)
  {
    hide *;
    var found := Candidates(order, store, running, now, Unanswered(w));
    var sorted := SortCandidates(found, w.rank);
    var stopped := Stopping(live, store, order, now, w.grouped);
    var kept := Preempting(stopped, ProbeLocks(found));
    SameJobs(live, store, order, now, w.grouped, ProbeLocks(found));
    AnswersAreFresh(kept, sorted, w, kept.Keys);
    StartedStay(kept, sorted, Answered(kept, sorted, w));
    PreemptingCancels(stopped, found);
    StoppingCancels(live, store, order, now, w.grouped);
    forall lock ensures ProbeAmong(found, lock) <==> ProbeWaits(store, running, now, w, lock) {
      ProbeAmongIff(order, store, running, now, w, lock);
    }
    CancelsInTurn(live, stopped, kept, WithStarted(kept, sorted, Answered(kept, sorted, w)), found,
                  store, running, now, w);
  }

  lemma CancelsInTurn(live: map<JobId, Job>, stopped: map<JobId, Job>, kept: map<JobId, Job>, live': map<JobId, Job>,
                      found: seq<Candidate>, store: map<ScheduleId, Entry>, running: map<ScheduleId, JobId>,
                      now: int, w: World)
    requires OnlyCancels(live, stopped) && OnlyCancels(stopped, kept)
    requires forall j :: j in kept ==> j in live' && live'[j] == kept[j]
    requires forall lock :: ProbeAmong(found, lock) <==> ProbeWaits(store, running, now, w, lock)
    requires forall j :: j in live ==>
               (stopped[j].cancelled <==>
                  || live[j].cancelled
                  || (live[j].sid in store && w.grouped(live[j].sid) && !InItsWindow(store[live[j].sid], now)))
    requires forall j :: j in stopped ==>
               (kept[j].cancelled <==>
                  stopped[j].cancelled || (stopped[j].mode == Keepalive && ProbeAmong(found, stopped[j].lock)))
    ensures PassCancels(live, live', store, running, now, w)
  {
    hide ProbeAmong, ProbeWaits, InItsWindow;
  }

  lemma RangesOk(store: map<ScheduleId, Entry>, live: map<JobId, Job>, scheduleJobs: map<ScheduleId, JobId>,
                 clock: int, past: Past)
    requires AllOk(store, live, scheduleJobs, clock, past)
    ensures forall sid :: sid in store ==> InRange(store[sid].spec)
  {
    forall sid | sid in store ensures InRange(store[sid].spec) { assert EntryOk(sid, store[sid], clock, past); }
  }

  lemma StoppingCancels(live: map<JobId, Job>, store: map<ScheduleId, Entry>, order: seq<ScheduleId>, now: int,
                        grouped: ScheduleId -> bool)
    requires (forall sid :: sid in order <==> sid in store) && forall sid :: sid in store ==> InRange(store[sid].spec)
    ensures var live' := Stopping(live, store, order, now, grouped);
            && OnlyCancels(live, live')
            && forall j :: j in live ==>
                 (live'[j].cancelled <==>
                    || live[j].cancelled
                    || (live[j].sid in store && grouped(live[j].sid) && !InItsWindow(store[live[j].sid], now)))
  {
    forall sid | sid in store
      ensures Stops(sid, store, now, grouped) <==> grouped(sid) && !InItsWindow(store[sid], now)
    {
      RunnableIff(store[sid], now);
    }
    hide Stops, InItsWindow;
  }

  /** A probe in its window is never cancelled by a pass. */
  lemma ProbesGoOn(live: map<JobId, Job>, live': map<JobId, Job>, store: map<ScheduleId, Entry>,
                   running: map<ScheduleId, JobId>, now: int, w: World, j: JobId)
    requires PassCancels(live, live', store, running, now, w) && j in live && live[j].mode == Probe
    requires live[j].sid in store && InItsWindow(store[live[j].sid], now)
    ensures live'[j].cancelled == live[j].cancelled
  {
  }

  // ---------- what a pass marks ----------

  /** The schedule has this mark, made now, for the window that holds the instant. */
  ghost predicate MarkedNow(entry: Entry, entry': Entry, status: Status, now: int) {
    && entry' == entry.(lastKey := entry'.lastKey, lastStatus := status, lastAt := Some(now))
    && exists day ::
         Holds(entry.spec, day, now) && entry'.lastKey == Some(Key(entry.spec.id, entry.spec.updatedAt, day))
  }

  /** A failure to resolve is marked at most every five minutes in a row. */
  predicate FailureIsNews(entry: Entry, now: int) {
    entry.lastStatus == ResolveFailed && entry.lastAt.Some? ==> now >= entry.lastAt.value + 300_000_000_000
  }

  /** What a pass makes of the row of one schedule. Without its group, a failure is marked, in or out of
      its windows. With it, a schedule that is in its window, idle and not done there is marked as
      failing to resolve, as queued, or as waiting for its target, unless the mark says so already; any
      other row stays as it is. */
  ghost predicate PassMarks(sid: ScheduleId, entry: Entry, entry': Entry, running: bool, now: int, env: Env) {
    if !env.grouped(sid) then
      if !FailureIsNews(entry, now) then entry' == entry
      else if exists day :: Holds(entry.spec, day, now) then MarkedNow(entry, entry', ResolveFailed, now)
      else entry' == entry.(lastKey := None, lastStatus := ResolveFailed, lastAt := Some(now))
    else if running || !InItsWindow(entry, now) || WindowDone(entry, now) then entry' == entry
    else if !env.resolves(sid) then
      if FailureIsNews(entry, now) then MarkedNow(entry, entry', ResolveFailed, now) else entry' == entry
    else
      && (env.start(sid).Started? ==> MarkedNow(entry, entry', Queued, now))
      && (env.start(sid) == OtherFailure ==> entry' == entry)
      && (env.start(sid) == LockConflict ==>
            MarkedNow(entry, entry', Skipped, now)
            || (entry' == entry && MarkedNow(entry, entry.(lastAt := Some(now)), Skipped, now)))
  }

  lemma PassMarksThese(sid: ScheduleId, entry: Entry, running: bool, now: int, env: Env)
    requires InRange(entry.spec)
    ensures PassMarks(sid, entry, AfterPass(sid, entry, running, now, env), running, now, env)
  {
    RunnableIff(entry, now);
    if Active(entry.spec, now) {
      var day := ScheduleOccurrence(entry.spec, now).value.day;
      OccurrenceIsTheWindow(entry.spec, now, day);
      assert Holds(entry.spec, day, now);
    } else if entry.spec.offset.Some? {
      ActiveIffInWindow(entry.spec, now);
    }
    hide ScheduleOccurrence, Holds, InItsWindow, WindowDone;
  }

  // ---------- the scheduler ----------

  class Scheduler {
    var store: map<ScheduleId, Entry>
    var live: map<JobId, Job>
    var scheduleJobs: map<ScheduleId, JobId>
    var ending: map<JobId, Ending>
    var clock: int
    ghost var log: seq<Happening>
    ghost var lost: set<Key>
    ghost var stamp: int

    constructor (now: int)
      ensures Valid() && store == map[] && live == map[] && ending == map[] && log == [] && lost == {}
      ensures clock == now && stamp == now
    {
      store, live, scheduleJobs, ending, clock := map[], map[], map[], map[], now;
      log, lost, stamp := [], {}, now;
    }

    ghost function History(): Past
      reads this`log, this`ending, this`lost, this`stamp
    {
      Past(log, ending, lost, stamp)
    }

    ghost predicate Valid()
      reads this
    {
      AllOk(store, live, scheduleJobs, clock, History())
    }

    /** `stopScheduleJob`: asks the schedule's job to stop. */
    method StopScheduleJob(sid: ScheduleId) returns (stopped: bool)
      requires Valid()
      modifies this`live
      ensures Valid() && stopped == (sid in scheduleJobs)
      ensures live == Cancelling(old(live), sid)
    {
      JobOfSchedule(live, scheduleJobs, sid);
      if sid !in scheduleJobs { return false; }
      var j := scheduleJobs[sid];
      CancelKeepsAll(store, live, scheduleJobs, clock, History(), live[j := live[j].(cancelled := true)]);
      hide AllOk;
      live := live[j := live[j].(cancelled := true)];
      return true;
    }

    /** Saving a schedule stamps it with the time of the save; no two saves happen in the same
        nanosecond. */
    method Save(spec: Schedule, mode: Mode, at: int)
      requires Valid() && InRange(spec) && stamp < at
      modifies this`store, this`live, this`stamp
      ensures Valid() && stamp == at
      ensures var stamped := spec.(updatedAt := at);
              store == old(store)[spec.id :=
                if spec.id in old(store) then old(store)[spec.id].(spec := stamped, mode := mode)
                else Entry(stamped, mode, None, NoStatus, None)]
      ensures live == Cancelling(old(live), spec.id)
    {
      var stamped := spec.(updatedAt := at);
      var entry := if spec.id in store then store[spec.id].(spec := stamped, mode := mode)
                   else Entry(stamped, mode, None, NoStatus, None);
      SaveKeepsAll(store, live, scheduleJobs, clock, History(), entry);
      hide AllOk;
      store := store[spec.id := entry];
      stamp := at;
      var _ := StopScheduleJob(spec.id);
    }

    method Delete(sid: ScheduleId)
      requires Valid()
      modifies this`store, this`live
      ensures Valid() && store == old(store) - {sid} && live == Cancelling(old(live), sid)
    {
      var _ := StopScheduleJob(sid);
      DeleteKeepsAll(store, live, scheduleJobs, clock, History(), sid);
      hide AllOk;
      store := store - {sid};
    }

    /** A job starts to run and marks its schedule. */
    method JobRuns(j: JobId, at: int)
      requires Valid() && j in live
      modifies this`store, this`lost
      ensures Valid() && store == MarkIn(old(store), live[j].sid, live[j].key, Running, at)
      ensures lost == old(lost) + MarkForgets(old(store), live[j].sid, live[j].key, Running, at, clock)
    {
      var job := live[j];
      assert JobOk(job, store, clock, History());
      hide Forgets;
      WriteMark(job.sid, job.key, Running, at);
    }

    /** `finish`: the job leaves the table and the schedule map; its mark is written later. */
    method JobEnds(j: JobId, status: Status)
      requires Valid() && j in live
      modifies this`live, this`scheduleJobs, this`ending, this`log
      ensures Valid()
      ensures Ended(old(live)[j].key, true) in old(log) ==> old(live)[j].key in lost
      ensures live == old(live) - {j} && scheduleJobs == old(scheduleJobs) - {old(live)[j].sid}
      ensures log == old(log) + [Ended(old(live)[j].key, Terminal(status))]
      ensures ending == old(ending)[j := Ending(old(live)[j].sid, old(live)[j].key, status)]
    {
      hide AllOk;
      EndKeepsAll(store, live, scheduleJobs, clock, History(), j, status);
      var job := live[j];
      live := live - {j};
      scheduleJobs := scheduleJobs - {job.sid};
      log := log + [Ended(job.key, Terminal(status))];
      ending := ending[j := Ending(job.sid, job.key, status)];
    }

    /** The end of `finish`: the job marks its schedule, whatever has happened to it since. */
    method JobMarks(j: JobId, at: int)
      requires Valid() && j in ending
      modifies this`store, this`ending, this`lost
      ensures Valid() && ending == old(ending) - {j}
      ensures var e := old(ending)[j];
              && store == MarkIn(old(store), e.sid, e.key, e.status, at)
              && lost == old(lost) + MarkForgets(old(store), e.sid, e.key, e.status, at, clock)
    {
      var e := ending[j];
      assert EndingOk(e, store, clock, History());
      hide Forgets;
      WriteMark(e.sid, e.key, e.status, at);
      MarkedKeepsAll(store, live, scheduleJobs, clock, History(), j);
      hide AllOk;
      ending := ending - {j};
    }

    /** `MarkScheduleRun` for a job. */
    method WriteMark(sid: ScheduleId, key: Key, status: Status, at: int)
      requires Valid() && RunOk(sid, key, store, clock) && (Terminal(status) ==> Ended(key, true) in log)
      modifies this`store, this`lost
      ensures Valid() && store == MarkIn(old(store), sid, key, status, at)
      ensures lost == old(lost) + MarkForgets(old(store), sid, key, status, at, clock)
    {
      if sid in store {
        assert EntryOk(sid, store[sid], clock, History());
        RunMayMark(store[sid], key, status, at, clock, log);
        MarkKeepsAll(store, live, scheduleJobs, clock, History(), sid, Mark(store[sid], key, status, at));
        hide AllOk, Forgets;
        lost := lost + MarkForgets(store, sid, key, status, at, clock);
        store := MarkIn(store, sid, key, status, at);
      }
    }

    /** The first half of a pass, for one schedule: record that its group or its provider cannot be
        resolved, stop it, leave it, or make it a candidate. */
    method Consider(sid: ScheduleId, now: int, env: Env) returns (c: Option<Candidate>)
      requires Valid() && clock == now && sid in store
      modifies this`store, this`live, this`lost
      ensures Valid()
      ensures c == if Resolved(sid, old(store)[sid], sid in scheduleJobs, now, env)
                   then Some(CandidateOf(sid, old(store)[sid], now, env)) else None
      ensures store == old(store)[sid := AfterConsider(sid, old(store)[sid], sid in scheduleJobs, now, env)]
      ensures live == map j | j in old(live) ::
                old(live)[j].(cancelled := old(live)[j].cancelled
                  || (old(live)[j].sid == sid && Stops(sid, old(store), now, env.grouped)))
      ensures lost == old(lost) + if !env.grouped(sid) && CurrentFinished(old(store)[sid], now)
                                  then {ScheduleOccurrence(old(store)[sid].spec, now).value} else {}
    {
      ConsiderStops(live, sid, store, now, env.grouped);
      if !env.grouped(sid) {
        hide AllOk, ScheduleOccurrence, GroupFailed, CurrentFinished;
        RecordGroupFailure(sid, now);
        c := None;
      } else {
        hide CurrentFinished, GroupFailed;
        assert lost + {} == lost;
        c := ConsiderGrouped(sid, now, env);
      }
    }

    /** The same for a schedule that has no group or whose group has been resolved. */
    method ConsiderGrouped(sid: ScheduleId, now: int, env: Env) returns (c: Option<Candidate>)
      requires Valid() && clock == now && sid in store && env.grouped(sid)
      modifies this`store, this`live
      ensures Valid()
      ensures c == if Resolved(sid, old(store)[sid], sid in scheduleJobs, now, env)
                   then Some(CandidateOf(sid, old(store)[sid], now, env)) else None
      ensures store == old(store)[sid := AfterConsider(sid, old(store)[sid], sid in scheduleJobs, now, env)]
      ensures live == if Runnable(old(store)[sid], now) then old(live) else Cancelling(old(live), sid)
    {
      hide AllOk, ScheduleOccurrence, GroupFailed;
      var entry := store[sid];
      if !Runnable(entry, now) {
        var _ := StopScheduleJob(sid);
        return None;
      }
      var key := ScheduleOccurrence(entry.spec, now).value;
      if sid in scheduleJobs || ShouldSkip(entry, key) { return None; }
      if !env.resolves(sid) {
        if RecordsFailure(entry, now) {
          CurrentMarkKeepsAll(store, live, scheduleJobs, now, History(), sid, ResolveFailed);
          store := store[sid := Mark(store[sid], key, ResolveFailed, now)];
        }
        return None;
      }
      return Some(Candidate(sid, entry, key, env.lock(sid)));
    }

    method RecordGroupFailure(sid: ScheduleId, now: int)
      requires Valid() && clock == now && sid in store
      modifies this`store, this`lost
      ensures Valid() && store == old(store)[sid := GroupFailed(old(store)[sid], now)]
      ensures lost == old(lost) + if CurrentFinished(old(store)[sid], now)
                                  then {ScheduleOccurrence(old(store)[sid].spec, now).value} else {}
    {
      var entry := store[sid];
      assert EntryOk(sid, entry, clock, History());
      GroupForgetsIff(sid, entry, now, History());
      MarkKeepsAll(store, live, scheduleJobs, now, History(), sid, GroupFailed(entry, now));
      hide AllOk, Forgets, CurrentFinished;
      lost := lost + Forgets(entry, GroupFailed(entry, now), now);
      if RecordsFailure(entry, now) {
        var occurrence := ScheduleOccurrence(entry.spec, now);
        store := store[sid := entry.(lastKey := occurrence, lastStatus := ResolveFailed, lastAt := Some(now))];
      }
    }

    /** A job for the candidate is accepted: the schedule is marked and points to it. */
    method Begin(c: Candidate, j: JobId, now: int)
      requires Valid() && clock == now && c.sid in store && store[c.sid] == c.entry
      requires Due(c.entry, false, now) && c.key == ScheduleOccurrence(c.entry.spec, now).value
      requires c.sid !in scheduleJobs && j !in live && j !in ending
      modifies this`store, this`live, this`scheduleJobs, this`log, this`lost
      ensures Valid()
      ensures store == old(store)[c.sid := Mark(c.entry, c.key, Queued, now)]
      ensures live == old(live)[j := Job(c.sid, c.key, c.entry.mode, c.lock, false)]
      ensures scheduleJobs == old(scheduleJobs)[c.sid := j]
      ensures log == old(log) + [Begun(c.key)] && lost == old(lost) + Early(ending, c.key)
    {
      hide AllOk, ScheduleOccurrence, Early;
      CurrentMarkKeepsAll(store, live, scheduleJobs, now, History(), c.sid, Queued);
      store := store[c.sid := Mark(store[c.sid], c.key, Queued, now)];
      DueMayBegin(store, live, scheduleJobs, now, History(), c.sid);
      BeginKeepsAll(store, live, scheduleJobs, now, History(), c.sid, j, c.key, c.entry.mode, c.lock);
      live := live[j := Job(c.sid, c.key, c.entry.mode, c.lock, false)];
      scheduleJobs := scheduleJobs[c.sid := j];
      log := log + [Begun(c.key)];
      lost := lost + Early(ending, c.key);
    }

    /** The second half of a pass, for one candidate, against the locks of the live jobs. */
    method TryStart(c: Candidate, now: int, w: World, ghost env: Env)
      requires Valid() && clock == now && c.sid in store && store[c.sid] == c.entry
      requires env.start(c.sid) == Answer(c, live, w)
      requires Due(c.entry, false, now) && env.grouped(c.sid) && env.resolves(c.sid)
      requires c.key == ScheduleOccurrence(c.entry.spec, now).value
      requires env.start(c.sid).Started? ==> env.start(c.sid).job !in live && env.start(c.sid).job !in ending
      modifies this`store, this`live, this`scheduleJobs, this`log, this`lost
      ensures Valid()
      ensures c.sid in old(scheduleJobs) ==>
                && store == old(store) && live == old(live) && scheduleJobs == old(scheduleJobs)
                && log == old(log) && lost == old(lost)
      ensures c.sid !in old(scheduleJobs) ==>
                store == old(store)[c.sid := AfterPass(c.sid, c.entry, false, now, env)]
      ensures c.sid !in old(scheduleJobs) && env.start(c.sid).Started? ==>
                && live == old(live)[env.start(c.sid).job := Job(c.sid, c.key, c.entry.mode, c.lock, false)]
                && scheduleJobs == old(scheduleJobs)[c.sid := env.start(c.sid).job]
                && log == old(log) + [Begun(c.key)] && lost == old(lost) + Early(ending, c.key)
      ensures !env.start(c.sid).Started? ==>
                live == old(live) && scheduleJobs == old(scheduleJobs) && log == old(log) && lost == old(lost)
    {
      if c.sid in scheduleJobs { return; }
      match w.admit(c.sid) {
        case Refused =>
        case Admitted(j) =>
          if c.lock !in w.busy && c.lock !in Locks(live) {
            Begin(c, j, now);
          } else if c.entry.lastStatus != Skipped || c.entry.lastKey != Some(c.key) {
            CurrentMarkKeepsAll(store, live, scheduleJobs, now, History(), c.sid, Skipped);
            store := store[c.sid := Mark(store[c.sid], c.key, Skipped, now)];
          }
      }
    }

    method ConsiderAll(order: seq<ScheduleId>, now: int, env: Env) returns (candidates: seq<Candidate>)
      requires Valid() && clock == now
      requires DistinctIds(order) && forall i :: 0 <= i < |order| ==> order[i] in store
      modifies this`store, this`live, this`lost
      ensures Valid()
      ensures candidates == Candidates(order, old(store), scheduleJobs, now, env)
      ensures store == Considered(order, old(store), scheduleJobs, now, env)
      ensures live == Stopping(old(live), old(store), order, now, env.grouped)
      ensures lost == old(lost) + Forgotten(order, old(store), now, env.grouped)
    {
      hide AllOk, AfterConsider, Resolved, CurrentFinished, Stops, ScheduleOccurrence;
      candidates := [];
      NothingConsidered(store, scheduleJobs, live, now, env);
      for i := 0 to |order|
        invariant Valid() && store.Keys == old(store).Keys
        invariant candidates == Candidates(order[..i], old(store), scheduleJobs, now, env)
        invariant store == Considered(order[..i], old(store), scheduleJobs, now, env)
        invariant live == Stopping(old(live), old(store), order[..i], now, env.grouped)
        invariant lost == old(lost) + Forgotten(order[..i], old(store), now, env.grouped)
      {
        ghost var sid := order[i];
        hide Candidates, Considered, Stopping, Forgotten, CandidateOf, DistinctIds;
        TakeNext(order, i);
        ConsideredNext(order[..i], sid, old(store), scheduleJobs, now, env);
        StoppingNext(old(live), old(store), order[..i], sid, now, env.grouped);
        ForgottenNext(order[..i], sid, old(store), now, env.grouped, old(lost));
        StopsAsBefore(sid, old(store), store, now, env.grouped);
        var c := Consider(order[i], now, env);
        if c.Some? { candidates := candidates + [c.value]; }
      }
      assert order[..|order|] == order;
    }

    /** A scheduled probe owns its target ahead of scheduled keepalive jobs. */
    method Preempt(candidates: seq<Candidate>)
      requires Valid()
      modifies this`live
      ensures Valid()
      ensures live == Preempting(old(live), ProbeLocks(candidates)) && OnlyCancels(old(live), live)
      ensures forall j :: j in live ==>
                (live[j].cancelled <==>
                   old(live)[j].cancelled || (live[j].mode == Keepalive && ProbeAmong(candidates, live[j].lock)))
    {
      PreemptingCancels(live, candidates);
      var probeLocks: set<string> := {};
      for i := 0 to |candidates|
        invariant probeLocks == ProbeLocks(candidates[..i])
      {
        assert candidates[..i + 1] == candidates[..i] + [candidates[i]];
        if candidates[i].entry.mode == Probe { probeLocks := probeLocks + {candidates[i].lock}; }
      }
      assert candidates[..|candidates|] == candidates;
      CancelKeepsAll(store, live, scheduleJobs, clock, History(), Preempting(live, probeLocks));
      live := Preempting(live, probeLocks);
    }

    /** One round of the second half of a pass. */
    method StartOne(sorted: seq<Candidate>, i: nat, now: int, w: World, ghost env: Env,
                    ghost store0: map<ScheduleId, Entry>, ghost live0: map<JobId, Job>,
                    ghost running0: map<ScheduleId, JobId>, ghost past0: Past)
      requires Valid() && clock == now && i < |sorted| && DistinctSids(sorted)
      requires Ready(sorted[i], store0, running0, now, env) && FreshJobs(env, live0.Keys + ending.Keys)
      requires env == Answered(live0, sorted, w)
      requires Tried(sorted[..i], store0, live0, running0, past0, now, env)
      modifies this`store, this`live, this`scheduleJobs, this`log, this`lost
      ensures Valid()
      ensures Tried(sorted[..i + 1], store0, live0, running0, past0, now, env)
    {
      hide AllOk, AfterPass, Due, Ready, FreshJobs, ScheduleOccurrence, Answer, Answered, DistinctSids, Sids,
           WithStarted, StartedLog, TriedStore, TriedJobs, EarlyKeys, Early;
      InTurn(sorted, i, now, w, env, store0, live0, running0, ending);
      InTurnPast(sorted, i, env, past0, ending);
      TryStart(sorted[i], now, w, env);
    }

    /** The state after trying these candidates, from the state before the first of them. */
    ghost predicate Tried(cs: seq<Candidate>, store0: map<ScheduleId, Entry>, live0: map<JobId, Job>,
                          running0: map<ScheduleId, JobId>, past0: Past, now: int, env: Env)
      reads this
    {
      && store == TriedStore(store0, Sids(cs), now, env)
      && scheduleJobs == TriedJobs(running0, Sids(cs), env)
      && live == WithStarted(live0, cs, env)
      && log == past0.log + StartedLog(cs, env)
      && lost == past0.lost + EarlyKeys(StartedLog(cs, env), ending)
    }

    method StartAll(sorted: seq<Candidate>, now: int, w: World, ghost env: Env)
      requires Valid() && clock == now && DistinctSids(sorted)
      requires forall c :: c in sorted ==> Ready(c, store, scheduleJobs, now, env)
      requires FreshJobs(env, live.Keys + ending.Keys) && env == Answered(live, sorted, w)
      modifies this`store, this`live, this`scheduleJobs, this`log, this`lost
      ensures Valid()
      ensures Tried(sorted, old(store), old(live), old(scheduleJobs), old(History()), now, env)
    {
      hide AllOk;
      NothingTried(store, scheduleJobs, now, env);
      assert EarlyKeys([], ending) == {};
      for i := 0 to |sorted|
        invariant Valid()
        invariant Tried(sorted[..i], old(store), old(live), old(scheduleJobs), old(History()), now, env)
      {
        StartOne(sorted, i, now, w, env, old(store), old(live), old(scheduleJobs), old(History()));
      }
      assert sorted[..|sorted|] == sorted;
    }

    /** `reconcileSchedules`: one pass over all the schedules, read in some order. Each schedule is
        affected on its own terms only, given what its start is answered; the answers are those of
        the lock table, candidate by candidate in sorted order. The occurrences it loses are the
        finished ones of schedules without a group, and those it starts before their mark. */
    method Pass(order: seq<ScheduleId>, now: int, w: World)
      requires Valid() && clock <= now
      requires DistinctIds(order) && forall sid :: sid in order <==> sid in store
      requires FreshAdmissions(w, live.Keys + ending.Keys)
      modifies this`store, this`live, this`scheduleJobs, this`clock, this`log, this`lost
      ensures Valid() && clock == now
      ensures var found := Candidates(order, old(store), old(scheduleJobs), now, Unanswered(w));
              var sorted := SortCandidates(found, w.rank);
              var kept := Preempting(Stopping(old(live), old(store), order, now, w.grouped), ProbeLocks(found));
              var env := Answered(kept, sorted, w);
              && store == (map sid | sid in old(store) ::
                   AfterPass(sid, old(store)[sid], sid in old(scheduleJobs), now, env))
              && scheduleJobs == PassJobs(old(store), old(scheduleJobs), now, env)
              && live == WithStarted(kept, sorted, env) && log == old(log) + StartedLog(sorted, env)
              && lost == old(lost) + Forgotten(order, old(store), now, w.grouped)
                         + EarlyKeys(StartedLog(sorted, env), ending)
      ensures PassCancels(old(live), live, old(store), old(scheduleJobs), now, w)
    {
      hide PassCancels;
      RangesOk(store, live, scheduleJobs, clock, History());
      PassCancelsThese(order, store, live, scheduleJobs, now, w);
      ClockKeepsAll(store, live, scheduleJobs, clock, now, History());
      hide AllOk, AfterPass, Resolved, Answered, Candidates, Considered, FreshAdmissions, PassJobs,
           Stopping, Preempting, Forgotten, EarlyKeys;
      clock := now;
      UnansweredGrouped(w);
      hide Unanswered;
      var candidates := ConsiderAll(order, now, Unanswered(w));
      Preempt(candidates);
      SameJobs(old(live), old(store), order, now, w.grouped, ProbeLocks(candidates));
      SecondHalf(order, candidates, now, w, old(store));
    }

    /** The second half of a pass. */
    method SecondHalf(order: seq<ScheduleId>, candidates: seq<Candidate>, now: int, w: World,
                      ghost before: map<ScheduleId, Entry>)
      requires Valid() && clock == now
      requires DistinctIds(order) && forall sid :: sid in order <==> sid in before
      requires store == Considered(order, before, scheduleJobs, now, Unanswered(w))
      requires candidates == Candidates(order, before, scheduleJobs, now, Unanswered(w))
      requires FreshAdmissions(w, live.Keys + ending.Keys)
      modifies this`store, this`live, this`scheduleJobs, this`log, this`lost
      ensures Valid()
      ensures var sorted := SortCandidates(candidates, w.rank); var env := Answered(old(live), sorted, w);
              && store == (map sid | sid in before :: AfterPass(sid, before[sid], sid in old(scheduleJobs), now, env))
              && scheduleJobs == PassJobs(before, old(scheduleJobs), now, env)
              && live == WithStarted(old(live), sorted, env) && log == old(log) + StartedLog(sorted, env)
              && lost == old(lost) + EarlyKeys(StartedLog(sorted, env), ending)
    {
      PassReady(order, before, scheduleJobs, now, w, live, ending.Keys);
      var sorted := SortCandidates(candidates, w.rank);
      ghost var env := Answered(live, sorted, w);
      AnsweredRank(live, sorted, w);
      PassIsPointwise(order, before, scheduleJobs, now, env);
      hide AllOk, AfterPass, Resolved, Answered, Candidates, Considered, FreshAdmissions, Unanswered, PassJobs,
           SortCandidates, Ready, FreshJobs, DistinctSids, TriedStore, TriedJobs, Sids, WithStarted, StartedLog,
           EarlyKeys;
      StartAll(sorted, now, w, env);
    }
  }

  lemma UnansweredGrouped(w: World)
    ensures Unanswered(w).grouped == w.grouped
  {
  }

  lemma AnsweredRank(live: map<JobId, Job>, cs: seq<Candidate>, w: World)
    ensures Answered(live, cs, w).rank == w.rank
  {
  }

  /** Cancelling neither adds nor removes jobs. */
  lemma SameJobs(live: map<JobId, Job>, store: map<ScheduleId, Entry>, order: seq<ScheduleId>, now: int,
                 grouped: ScheduleId -> bool, probeLocks: set<string>)
    ensures Preempting(Stopping(live, store, order, now, grouped), probeLocks).Keys == live.Keys
  {
  }

  lemma ConsiderStops(live: map<JobId, Job>, sid: ScheduleId, store: map<ScheduleId, Entry>, now: int,
                      grouped: ScheduleId -> bool)
    requires sid in store
    ensures (map j | j in live ::
               live[j].(cancelled := live[j].cancelled || (live[j].sid == sid && Stops(sid, store, now, grouped))))
            == if Stops(sid, store, now, grouped) then Cancelling(live, sid) else live
  {
    hide Stops;
  }

  lemma StopsAsBefore(sid: ScheduleId, before: map<ScheduleId, Entry>, store: map<ScheduleId, Entry>, now: int,
                      grouped: ScheduleId -> bool)
    requires sid in before && sid in store && before[sid] == store[sid]
    ensures Stops(sid, before, now, grouped) == Stops(sid, store, now, grouped)
  {
  }
}
