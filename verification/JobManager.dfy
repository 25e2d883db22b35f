/** The job manager: the table of live jobs, the target locks, the schedule map, the history and
    the event streams of the live jobs. Every method is one critical section of the manager's lock,
    so what `Valid` states holds between any two of them, over all runs. */
module JobManager {
  import opened Wrappers
  import opened EventStream

  const MAX_ACTIVE := 8

  type JobId = string

  datatype JobStatus = Queued | RunningJob | SuccessJob | FatalJob | FailedJob | StoppedJob

  datatype Summary = Summary(id: JobId, status: JobStatus)

  datatype StartError = ShuttingDown | ActiveLimit | LockConflict(holder: JobId)

  datatype StopError = NotFound

  // ---------- subscriber channels ----------

  class Channel {
    const job: JobId
    const start: nat               // events published when the subscriber joined
    var queue: seq<Event>
    var closed: bool
    ghost var received: seq<Event> // what the subscriber has taken out
    ghost var fits: seq<bool>      // for every event since `start`, whether the buffer had room

    constructor (job: JobId, start: nat)
      ensures this.job == job && this.start == start && queue == received == [] && !closed && fits == []
      ensures forall all :: |all| == start ==> Stream(all)
    {
      this.job, this.start := job, start;
      queue, closed := [], false;
      received, fits := [], [];
    }

    /** Of all events of the job, exactly those since it joined that fitted were put in, in order. */
    ghost predicate Stream(all: seq<Event>)
      reads this
    {
      start + |fits| == |all| && received + queue == Got(all[start..], fits)
    }

    /** A non-blocking send; sending to a closed channel would panic. */
    method TrySend(e: Event, ghost all: seq<Event>)
      requires !closed && Stream(all)
      modifies this
      ensures !closed && Stream(all + [e])
      ensures Offered(e) && received == old(received)
    {
      GotNext(all[start..], fits, e, |queue| < BUFFER);
      assert (all + [e])[start..] == all[start..] + [e];
      fits := fits + [|queue| < BUFFER];
      if |queue| < BUFFER {
        assert received + (queue + [e]) == received + queue + [e];
        queue := queue + [e];
      }
    }

    /** An event was offered: it is in the buffer unless that was full. */
    twostate predicate Offered(e: Event)
      reads this
    {
      && fits == old(fits) + [|old(queue)| < BUFFER]
      && queue == if |old(queue)| < BUFFER then old(queue) + [e] else old(queue)
    }

    /** The subscriber takes the oldest event it has not seen. */
    method Receive() returns (e: Option<Event>)
      modifies this`queue, this`received
      ensures received + queue == old(received + queue) && forall all :: old(Stream(all)) ==> Stream(all)
      ensures e.None? <==> old(queue) == []
      ensures e.Some? ==> received == old(received) + [e.value]
    {
      if queue == [] { return None; }
      e := Some(queue[0]);
      received := received + [queue[0]];
      queue := queue[1..];
    }

    /** Closing a closed channel would panic. */
    method Close()
      requires !closed
      modifies this`closed
      ensures closed
    {
      closed := true;
    }
  }

  // ---------- one job ----------

  class Runtime {
    const id: JobId
    const lock: string
    const scheduleID: string
    var status: JobStatus
    var closed: bool
    var cancelled: bool
    var events: seq<Event>
    var nextEvent: nat
    var subscribers: set<Channel>
    ghost var published: seq<Event> // every event of the job

    constructor (id: JobId, lock: string, scheduleID: string)
      ensures this.id == id && this.lock == lock && this.scheduleID == scheduleID
      ensures Live() && status == Queued && !cancelled && subscribers == {}
      ensures events == published == [Event(1, JobState)]
    {
      this.id, this.lock, this.scheduleID := id, lock, scheduleID;
      status, closed, cancelled := Queued, false, false;
      events, nextEvent, subscribers, published := [], 0, {}, [];
      new;
      Publish(JobState);
    }

    ghost predicate Live()
      reads this`closed, this`events, this`nextEvent, this`subscribers, this`published, subscribers
    {
      && !closed
      && nextEvent == |published| && IsRing(events, published)
      && (forall ch :: ch in subscribers ==> ch.job == id && !ch.closed && ch.Stream(published))
    }

    /** What happens elsewhere does not disturb a stream. */
    twostate lemma StaysLive()
      requires old(Live()) && unchanged(this) && unchanged(old(subscribers))
      ensures Live()
    {
    }

    /** Appends an event to the ring and offers it to every subscriber. */
    method Publish(kind: Kind)
      requires Live() && kind != Output
      modifies this`events, this`nextEvent, this`published, subscribers
      ensures Live() && published == old(published) + [Event(|old(published)| + 1, kind)]
      ensures events == Append(old(events), Event(nextEvent, kind))
      ensures forall ch :: ch in subscribers ==> ch.Offered(Event(nextEvent, kind))
    {
      hide IsRing, Got, Channel.Stream;
      nextEvent := nextEvent + 1;
      var e := Event(nextEvent, kind);
      AppendKeepsRing(events, published, e);
      events := events + [e];
      if |events| > RING { events := events[|events| - RING..]; }
      assert events == Append(old(events), e);
      ghost var before := published;
      published := before + [e];
      Offer(e, before);
    }

    /** Offers an event to every subscriber. */
    method Offer(e: Event, ghost all: seq<Event>)
      requires forall ch :: ch in subscribers ==> !ch.closed && ch.Stream(all)
      modifies subscribers
      ensures forall ch :: ch in subscribers ==> !ch.closed && ch.Stream(all + [e]) && ch.Offered(e)
    {
      hide Got;
      var rest := subscribers;
      while rest != {}
        invariant rest <= subscribers
        invariant forall ch :: ch in rest ==> unchanged(ch)
        invariant forall ch :: ch in subscribers && ch !in rest ==>
                    !ch.closed && ch.Stream(all + [e]) && ch.Offered(e)
        decreases rest
      {
        var ch :| ch in rest;
        ch.TrySend(e, all);
        rest := rest - {ch};
      }
    }

    /** A subscriber joins: it gets the part of the ring it has not seen and a channel for the rest. */
    method Join(after: nat) returns (replay: seq<Event>, ch: Channel)
      requires Live()
      modifies this`subscribers
      ensures Live() && fresh(ch) && subscribers == old(subscribers) + {ch}
      ensures Replays(replay, events, published, after)
      ensures ch.start == |published| && ch.queue == [] && ch.fits == []
    {
      replay := After(events, after, published);
      ch := new Channel(id, nextEvent);
      subscribers := subscribers + {ch};
    }

    /** A subscriber that is still listening leaves. */
    method Leave(ch: Channel)
      requires Live() && ch in subscribers
      modifies this`subscribers, ch`closed
      ensures Live() && subscribers == old(subscribers) - {ch} && ch.closed
    {
      subscribers := subscribers - {ch};
      ch.Close();
    }

    /** Dropping raw output from the ring never drops anything: no such event is published. */
    method ClearOutput()
      requires Live()
      modifies this`events
      ensures events == old(events)
    {
      var kept: seq<Event> := [];
      for i := 0 to |events|
        invariant kept == events[..i]
      {
        if events[i].kind != Output { kept := kept + [events[i]]; }
      }
      events := kept;
    }

    /** The end of the stream: two last events, then every subscriber's channel is closed, once. */
    method End(status: JobStatus)
      requires Live()
      modifies this`status, this`closed, this`events, this`nextEvent, this`subscribers, this`published, subscribers
      ensures closed && this.status == status && subscribers == {} && events == []
      ensures published == Ended(old(published))
      ensures forall ch :: ch in old(subscribers) ==> ch.closed && ch.Stream(published)
    {
      hide IsRing, Append, Channel.Offered;
      this.status := status;
      ClearOutput();
      Publish(Cleanup);
      Publish(JobState);
      closed := true;
      CloseSubscribers();
      events := [];
      subscribers := {};
    }

    method CloseSubscribers()
      requires forall ch :: ch in subscribers ==> !ch.closed
      modifies subscribers`closed
      ensures forall ch :: ch in subscribers ==> ch.closed
    {
      var rest := subscribers;
      while rest != {}
        invariant rest <= subscribers
        invariant forall ch :: ch in rest ==> !ch.closed
        invariant forall ch :: ch in subscribers - rest ==> ch.closed
        decreases rest
      {
        var ch :| ch in rest;
        ch.Close();
        rest := rest - {ch};
      }
    }
  }

  /** With the last two events of a job. */
  function Ended(all: seq<Event>): seq<Event> {
    all + [Event(|all| + 1, Cleanup)] + [Event(|all| + 2, JobState)]
  }

  /** What a resuming subscriber is replayed: the end of the ring, with exactly its events after
      `after`; of all published events these are the ones after `after` that are still kept. */
  ghost predicate Replays(replay: seq<Event>, ring: seq<Event>, all: seq<Event>, after: nat) {
    && |replay| <= |ring| && replay == ring[|ring| - |replay|..]
    && (forall e :: e in replay <==> e in ring && e.id > after)
    && replay == if after < |all| then all[Max(after, Oldest(|all|))..] else []
  }

  // ---------- the manager ----------

  predicate DistinctIds(log: seq<Summary>) {
    forall i, j :: 0 <= i < j < |log| ==> log[i].id != log[j].id
  }

  function LogIds(log: seq<Summary>): set<JobId> {
    set s | s in log :: s.id
  }

  /** A positive limit keeps that many of the newest. */
  function Trim(history: seq<Summary>, limit: int): (kept: seq<Summary>)
    ensures kept <= history
    ensures |kept| == if 0 < limit <= |history| then limit else |history|
  {
    if 0 < limit < |history| then history[..limit] else history
  }

  /** The target locks are the inverse of the live jobs' locks, and a schedule points to one of its
      live jobs. */
  ghost predicate IsTable(jobs: map<JobId, Runtime>, locks: map<string, JobId>, scheduleJobs: map<string, JobId>) {
    && |jobs| <= MAX_ACTIVE
    && (forall id :: id in jobs ==> jobs[id].id == id && jobs[id].lock in locks && locks[jobs[id].lock] == id)
    && (forall key :: key in locks ==> locks[key] in jobs && jobs[locks[key]].lock == key)
    && (forall sid :: sid in scheduleJobs ==>
          sid != "" && scheduleJobs[sid] in jobs && jobs[scheduleJobs[sid]].scheduleID == sid)
  }

  lemma TableAdds(jobs: map<JobId, Runtime>, locks: map<string, JobId>, scheduleJobs: map<string, JobId>, rt: Runtime)
    requires IsTable(jobs, locks, scheduleJobs)
    requires rt.id !in jobs && rt.lock !in locks && |jobs| < MAX_ACTIVE
    ensures IsTable(jobs[rt.id := rt], locks[rt.lock := rt.id], scheduleJobs)
    ensures rt.scheduleID != "" ==>
              IsTable(jobs[rt.id := rt], locks[rt.lock := rt.id], scheduleJobs[rt.scheduleID := rt.id])
  {
  }

  /** The history is the newest part of the log of finished jobs, none of which is live. */
  ghost predicate IsLog(history: seq<Summary>, finished: seq<Summary>, live: set<JobId>) {
    && history <= finished && DistinctIds(finished)
    && (forall s :: s in finished ==> s.id !in live)
  }

  lemma TableRemoves(jobs: map<JobId, Runtime>, locks: map<string, JobId>, scheduleJobs: map<string, JobId>,
        rt: Runtime)
    requires IsTable(jobs, locks, scheduleJobs) && rt in jobs.Values
    ensures rt.id in jobs && jobs[rt.id] == rt
    ensures var others := jobs - {rt.id};
            && (rt.scheduleID in scheduleJobs && scheduleJobs[rt.scheduleID] == rt.id ==>
                  IsTable(others, locks - {rt.lock}, scheduleJobs - {rt.scheduleID}))
            && (!(rt.scheduleID in scheduleJobs && scheduleJobs[rt.scheduleID] == rt.id) ==>
                  IsTable(others, locks - {rt.lock}, scheduleJobs))
  {
    var others := jobs - {rt.id};
    assert others.Keys == jobs.Keys - {rt.id};
    assert |others| == |others.Keys| == |jobs.Keys| - 1;
  }

  lemma ValuesAdd(jobs: map<JobId, Runtime>, rt: Runtime)
    ensures forall other :: other in jobs[rt.id := rt].Values ==> other == rt || other in jobs.Values
  {
  }

  lemma ValuesRemove(jobs: map<JobId, Runtime>, rt: Runtime)
    requires rt.id in jobs && jobs[rt.id] == rt && forall id :: id in jobs ==> jobs[id].id == id
    ensures forall other :: other in (jobs - {rt.id}).Values ==> other in jobs.Values && other != rt
  {
  }

  lemma LogFinishes(history: seq<Summary>, finished: seq<Summary>, live: set<JobId>, summary: Summary, limit: int)
    requires IsLog(history, finished, live) && summary.id in live
    ensures IsLog(Trim([summary] + history, limit), [summary] + finished, live - {summary.id})
  {
  }

  lemma LogAdds(history: seq<Summary>, finished: seq<Summary>, live: set<JobId>, id: JobId)
    requires IsLog(history, finished, live) && forall s :: s in finished ==> s.id != id
    ensures IsLog(history, finished, live + {id})
  {
  }

  class Manager {
    var jobs: map<JobId, Runtime>
    var locks: map<string, JobId>
    var scheduleJobs: map<string, JobId>
    var history: seq<Summary>
    var historyLimit: int
    var closing: bool
    ghost var finished: seq<Summary> // every job that ever finished, newest first

    constructor (loaded: seq<Summary>, historyLimit: int)
      requires DistinctIds(loaded)
      ensures Valid() && !closing && jobs == map[] && history == loaded == finished && this.historyLimit == historyLimit
    {
      jobs, locks, scheduleJobs := map[], map[], map[];
      history, this.historyLimit, closing := loaded, historyLimit, false;
      finished := loaded;
    }

    ghost predicate Valid()
      reads *
    {
      && IsTable(jobs, locks, scheduleJobs)
      && IsLog(history, finished, jobs.Keys)
      && (forall rt :: rt in jobs.Values ==> rt.Live() && (closing ==> rt.cancelled))
    }

    /** A runtime some goroutine holds: it is live and in the table, or it has finished. */
    ghost predicate Known(rt: Runtime)
      reads this, rt
    {
      rt.closed || (rt.id in jobs && jobs[rt.id] == rt)
    }

    /** A job that is queued but not in the table yet. */
    method Enqueue(id: JobId, lock: string, scheduleID: string) returns (rt: Runtime)
      requires forall other :: other in jobs.Values ==> other.Live()
      ensures forall other :: other in jobs.Values ==> other.Live()
      ensures fresh(rt) && rt.Live() && !rt.cancelled && rt.status == Queued
      ensures rt.id == id && rt.lock == lock && rt.scheduleID == scheduleID && rt.published == [Event(1, JobState)]
    {
      rt := new Runtime(id, lock, scheduleID);
      forall other | other in jobs.Values ensures other.Live() { other.StaysLive(); }
    }

    method Insert(rt: Runtime)
      requires IsTable(jobs, locks, scheduleJobs) && IsLog(history, finished, jobs.Keys)
      requires rt.id !in jobs && rt.lock !in locks && |jobs| < MAX_ACTIVE && forall s :: s in finished ==> s.id != rt.id
      modifies this`jobs, this`locks, this`scheduleJobs
      ensures IsTable(jobs, locks, scheduleJobs) && IsLog(history, finished, jobs.Keys)
      ensures jobs == old(jobs)[rt.id := rt] && locks == old(locks)[rt.lock := rt.id]
      ensures forall other :: other in jobs.Values ==> other == rt || other in old(jobs).Values
      ensures scheduleJobs == if rt.scheduleID != "" then old(scheduleJobs)[rt.scheduleID := rt.id]
              else old(scheduleJobs)
    {
      TableAdds(jobs, locks, scheduleJobs, rt);
      ValuesAdd(jobs, rt);
      LogAdds(history, finished, jobs.Keys, rt.id);
      assert jobs[rt.id := rt].Keys == jobs.Keys + {rt.id};
      locks := locks[rt.lock := rt.id];
      jobs := jobs[rt.id := rt];
      if rt.scheduleID != "" { scheduleJobs := scheduleJobs[rt.scheduleID := rt.id]; }
    }

    /** `id` is a random identifier that no job had before. */
    method Start(id: JobId, lock: string, scheduleID: string) returns (error: Option<StartError>)
      requires Valid() && id !in jobs && forall s :: s in finished ==> s.id != id
      modifies this`jobs, this`locks, this`scheduleJobs
      ensures Valid()
      ensures error == Some(ShuttingDown) <==> closing
      ensures error == Some(ActiveLimit) <==> !closing && |old(jobs)| >= 8
      ensures error.Some? && error.value.LockConflict? <==> !closing && |old(jobs)| < 8 && lock in old(locks)
      ensures error.Some? && error.value.LockConflict? ==> error.value.holder == old(locks)[lock]
      ensures error.Some? ==> jobs == old(jobs) && locks == old(locks) && scheduleJobs == old(scheduleJobs)
      ensures error.None? ==>
                && jobs.Keys == old(jobs).Keys + {id} && fresh(jobs[id])
                && (forall other :: other in old(jobs) ==> jobs[other] == old(jobs)[other])
                && jobs[id].lock == lock && jobs[id].scheduleID == scheduleID && jobs[id].status == Queued
                && jobs[id].published == [Event(1, JobState)]
                && locks == old(locks)[lock := id]
                && scheduleJobs == if scheduleID != "" then old(scheduleJobs)[scheduleID := id] else old(scheduleJobs)
    {
      hide IsTable, IsLog, Runtime.Live;
      if closing { return Some(ShuttingDown); }
      if |jobs| >= MAX_ACTIVE { return Some(ActiveLimit); }
      if lock in locks { return Some(LockConflict(locks[lock])); }
      var rt := Enqueue(id, lock, scheduleID);
      Insert(rt);
      return None;
    }

    /** Ends one job's stream; the streams of the others go on. */
    method Retire(rt: Runtime, status: JobStatus)
      requires forall other :: other in jobs.Values ==> other.Live()
      requires forall other :: other in jobs.Values && other != rt ==> other.id != rt.id
      requires rt in jobs.Values
      modifies rt`status, rt`closed, rt`events, rt`nextEvent, rt`subscribers, rt`published, rt.subscribers
      ensures forall other :: other in jobs.Values && other != rt ==> other.Live()
      ensures rt.closed && rt.status == status && rt.subscribers == {} && rt.events == []
      ensures rt.published == Ended(old(rt.published))
      ensures forall ch :: ch in old(rt.subscribers) ==> ch.closed && ch.Stream(rt.published)
    {
      rt.End(status);
      forall other | other in jobs.Values && other != rt ensures other.Live() { other.StaysLive(); }
    }

    method Remove(rt: Runtime)
      requires IsTable(jobs, locks, scheduleJobs) && rt in jobs.Values
      modifies this`jobs, this`locks, this`scheduleJobs
      ensures IsTable(jobs, locks, scheduleJobs)
      ensures jobs == old(jobs) - {rt.id} && jobs.Keys == old(jobs).Keys - {rt.id} && locks == old(locks) - {rt.lock}
      ensures forall other :: other in jobs.Values ==> other in old(jobs).Values && other != rt
      ensures scheduleJobs == if rt.scheduleID in old(scheduleJobs) && old(scheduleJobs)[rt.scheduleID] == rt.id
                              then old(scheduleJobs) - {rt.scheduleID} else old(scheduleJobs)
    {
      TableRemoves(jobs, locks, scheduleJobs, rt);
      ValuesRemove(jobs, rt);
      locks := locks - {rt.lock};
      jobs := jobs - {rt.id};
      if rt.scheduleID in scheduleJobs && scheduleJobs[rt.scheduleID] == rt.id {
        scheduleJobs := scheduleJobs - {rt.scheduleID};
      }
    }

    method Record(summary: Summary)
      requires IsLog(history, finished, jobs.Keys) && summary.id in jobs
      modifies this`history, this`finished
      ensures IsLog(history, finished, jobs.Keys - {summary.id})
      ensures finished == [summary] + old(finished)
      ensures history == Trim([summary] + old(history), historyLimit)
    {
      LogFinishes(history, finished, jobs.Keys, summary, historyLimit);
      finished := [summary] + finished;
      history := [summary] + history;
      if 0 < historyLimit < |history| { history := history[..historyLimit]; }
    }

    method Settle(rt: Runtime, status: JobStatus)
      requires IsTable(jobs, locks, scheduleJobs) && IsLog(history, finished, jobs.Keys) && rt in jobs.Values
      modifies this`jobs, this`locks, this`scheduleJobs, this`history, this`finished
      ensures IsTable(jobs, locks, scheduleJobs) && IsLog(history, finished, jobs.Keys)
      ensures jobs == old(jobs) - {rt.id} && locks == old(locks) - {rt.lock}
      ensures forall other :: other in jobs.Values ==> other in old(jobs).Values && other != rt
      ensures scheduleJobs == if rt.scheduleID in old(scheduleJobs) && old(scheduleJobs)[rt.scheduleID] == rt.id
                              then old(scheduleJobs) - {rt.scheduleID} else old(scheduleJobs)
      ensures finished == [Summary(rt.id, status)] + old(finished)
      ensures history == Trim([Summary(rt.id, status)] + old(history), historyLimit)
    {
      Record(Summary(rt.id, status));
      Remove(rt);
    }

    /** A job ends: it leaves the table and its locks, enters the history, and its subscribers'
        channels are closed after the last two events. Finishing it again changes nothing. */
    method Finish(rt: Runtime, status: JobStatus)
      requires Valid() && Known(rt)
      modifies this`jobs, this`locks, this`scheduleJobs, this`history, this`finished, rt, rt.subscribers
      ensures Valid() && rt.closed
      ensures old(rt.closed) ==>
                && jobs == old(jobs) && locks == old(locks) && scheduleJobs == old(scheduleJobs)
                && history == old(history) && finished == old(finished) && unchanged(rt)
                && forall ch :: ch in rt.subscribers ==> unchanged(ch)
      ensures !old(rt.closed) ==>
                && jobs == old(jobs) - {rt.id} && locks == old(locks) - {rt.lock}
                && scheduleJobs == (if rt.scheduleID in old(scheduleJobs) && old(scheduleJobs)[rt.scheduleID] == rt.id
                                    then old(scheduleJobs) - {rt.scheduleID} else old(scheduleJobs))
                && finished == [Summary(rt.id, status)] + old(finished)
                && history == Trim([Summary(rt.id, status)] + old(history), historyLimit)
                && rt.published == Ended(old(rt.published)) && rt.status == status
                && forall ch :: ch in old(rt.subscribers) ==> ch.closed && ch.Stream(rt.published)
    {
      if rt.closed { return; }
      Retire(rt, status);
      Settle(rt, status);
    }

    method Publish(rt: Runtime, kind: Kind)
      requires Valid() && Known(rt) && !rt.closed && kind != Output
      modifies rt`events, rt`nextEvent, rt`published, rt.subscribers
      ensures Valid()
      ensures rt.published == old(rt.published) + [Event(|old(rt.published)| + 1, kind)]
      ensures rt.events == Append(old(rt.events), Event(rt.nextEvent, kind))
      ensures forall ch :: ch in rt.subscribers ==> ch.Offered(Event(rt.nextEvent, kind))
    {
      rt.Publish(kind);
    }

    /** The replayed events, and a channel for the ones to come; None when the job is unknown.
        `stored` is what the event store kept of a job that has finished. */
    method Subscribe(id: JobId, after: nat, stored: seq<Event>) returns (result: Option<(seq<Event>, Channel)>)
      requires Valid()
      modifies jobs.Values`subscribers
      ensures Valid()
      ensures result.None? <==> id !in jobs && id !in LogIds(history)
      ensures result.Some? ==> fresh(result.value.1)
      ensures id in jobs ==>
                var (replay, ch) := result.value; var rt := jobs[id];
                && Replays(replay, rt.events, rt.published, after)
                && ch.start == |rt.published| && ch.queue == [] && ch.fits == []
                && rt.subscribers == old(rt.subscribers) + {ch}
      ensures id !in jobs && result.Some? ==> result.value.0 == stored && result.value.1.closed
    {
      if id !in jobs {
        if exists s :: s in history && s.id == id {
          var ended := new Channel(id, 0);
          ended.Close();
          return Some((stored, ended));
        }
        return None;
      }
      var replay, ch := jobs[id].Join(after);
      return Some((replay, ch));
    }

    /** The function a subscriber calls when it leaves, possibly after the job has ended. */
    method Unsubscribe(rt: Runtime, ch: Channel)
      requires Valid() && Known(rt) && (rt.closed ==> rt.subscribers == {})
      modifies rt`subscribers, ch`closed
      ensures Valid()
      ensures rt.subscribers == old(rt.subscribers) - {ch}
      ensures ch.closed <==> old(ch.closed) || ch in old(rt.subscribers)
    {
      if ch in rt.subscribers {
        rt.Leave(ch);
      }
    }

    /** A subscriber takes its next event; no stream is disturbed. */
    method Receive(rt: Runtime, ch: Channel) returns (e: Option<Event>)
      requires Valid() && Known(rt) && (ch in rt.subscribers || ch.closed)
      modifies ch`queue, ch`received
      ensures Valid()
      ensures ch.received + ch.queue == old(ch.received + ch.queue)
      ensures e.None? <==> old(ch.queue) == []
      ensures e.Some? ==> ch.received == old(ch.received) + [e.value]
    {
      e := ch.Receive();
      forall other | other in jobs.Values ensures other.Live() {
        forall c | c in other.subscribers ensures c.job == other.id && !c.closed && c.Stream(other.published) {
          assert old(c.Stream(other.published));
        }
      }
    }

    method Stop(id: JobId) returns (error: Option<StopError>)
      requires Valid()
      modifies jobs.Values`cancelled
      ensures Valid()
      ensures error.Some? <==> id !in jobs && id !in LogIds(history)
      ensures forall other :: other in jobs ==> jobs[other].cancelled == (old(jobs[other].cancelled) || other == id)
    {
      if id !in jobs {
        if exists s :: s in history && s.id == id { return None; }
        return Some(NotFound);
      }
      jobs[id].cancelled := true;
      return None;
    }

    method SetHistoryLimit(limit: int)
      requires Valid() && limit >= 1
      modifies this`history, this`historyLimit
      ensures Valid() && historyLimit == limit && history == Trim(old(history), limit)
    {
      historyLimit := limit;
      if |history| > limit { history := history[..limit]; }
    }

    method Shutdown()
      requires Valid()
      modifies this`closing, jobs.Values`cancelled
      ensures Valid() && closing
      ensures forall id :: id in jobs ==> jobs[id].cancelled
    {
      hide Runtime.Live, IsTable, IsLog;
      closing := true;
      forall id | id in jobs { jobs[id].cancelled := true; }
    }
  }

  /** What a resuming subscriber has been given, replayed and live, is the published run from the
      event after `after` (or the oldest one kept) to the newest, exactly when its buffer never
      filled. */
  lemma SubscriberSeesTheRunIff(ch: Channel, all: seq<Event>, ring: seq<Event>, after: nat, replay: seq<Event>)
    requires ch.Stream(all) && after <= ch.start && Replays(replay, ring, all[..ch.start], after)
    ensures replay + ch.received + ch.queue == all[Max(after, Oldest(ch.start))..]
            <==> forall i :: 0 <= i < |ch.fits| ==> ch.fits[i]
  {
    var n := ch.start;
    assert all[..n][Max(after, Oldest(n))..] == all[Max(after, Oldest(n))..n];
    assert replay == all[Max(after, Oldest(n))..n];
    ResumptionIsContiguousIff(all, after, n, replay, ch.fits);
    assert replay + ch.received + ch.queue == replay + (ch.received + ch.queue);
  }

  lemma RingEnd(all: seq<Event>, lo: nat, m: nat)
    requires lo <= m <= |all|
    ensures all[m..] == all[lo..][m - lo..]
  {
  }

  lemma WholeEnd(ring: seq<Event>)
    ensures ring[|ring|..] == []
  {
  }

  lemma MaxWithin(after: nat, n: nat)
    requires after < n
    ensures Oldest(n) <= Max(after, Oldest(n)) <= n
  {
  }

  lemma RingIs(events: seq<Event>, all: seq<Event>)
    requires IsRing(events, all)
    ensures Numbered(all) && Oldest(|all|) <= |all| && events == all[Oldest(|all|)..]
  {
  }

  lemma ReplaysIf(replay: seq<Event>, ring: seq<Event>, all: seq<Event>, after: nat, k: nat)
    requires k <= |ring| && replay == ring[k..] && forall e :: e in replay <==> e in ring && e.id > after
    requires replay == if after < |all| then all[Max(after, Oldest(|all|))..] else []
    ensures Replays(replay, ring, all, after)
  {
  }

  lemma UnseenReplays(events: seq<Event>, after: nat, all: seq<Event>)
    requires IsRing(events, all)
    ensures Replays(Unseen(events, after), events, all, after)
  {
    hide *;
    RingIs(events, all);
    UnseenIsSuffix(all, after);
    UnseenHas(events, after);
    var lo := Oldest(|all|);
    if after < |all| {
      MaxWithin(after, |all|);
      RingEnd(all, lo, Max(after, lo));
      ReplaysIf(Unseen(events, after), events, all, after, Max(after, lo) - lo);
    } else {
      WholeEnd(events);
      ReplaysIf(Unseen(events, after), events, all, after, |events|);
    }
  }

  /** The part of a ring a resuming subscriber has not seen. */
  method After(events: seq<Event>, after: nat, ghost all: seq<Event>) returns (replay: seq<Event>)
    requires IsRing(events, all)
    ensures Replays(replay, events, all, after)
  {
    hide IsRing, Replays;
    replay := [];
    for i := 0 to |events|
      invariant replay == Unseen(events[..i], after)
    {
      assert events[..i + 1][..i] == events[..i];
      if events[i].id > after { replay := replay + [events[i]]; }
    }
    assert events[..|events|] == events;
    UnseenReplays(events, after, all);
  }
}
