/** The idempotency middleware over its in-memory store: any number of concurrent requests claim a
    key, the owner runs the handler, and the others poll the record and replay it. */
module Idempotency {
  import opened Wrappers

  type Key = string
  type RequestId = nat

  /** What a replay repeats of a response: the status, the content type and the body. */
  datatype Response = Response(status: int, contentType: string, body: string)

  datatype Record = Record(fingerprint: string, pending: bool, response: Response)

  const NoResponse := Response(0, "", "")

  /** What a panicking handler leaves behind. */
  const InternalError :=
    Response(500, "application/json", "{\"error\":{\"code\":\"internal_error\",\"message\":\"request failed\"}}")

  // ---------- the in-memory store ----------

  class MemoryStore {
    var records: map<Key, Record>

    constructor ()
      ensures records == map[]
    {
      records := map[];
    }

    method Claim(key: Key, fingerprint: string) returns (record: Record, owner: bool)
      modifies this
      ensures owner <==> key !in old(records)
      ensures owner ==> record == Record(fingerprint, true, NoResponse) && records == old(records)[key := record]
      ensures !owner ==> records == old(records) && record == old(records)[key]
    {
      if key in records { return records[key], false; }
      record := Record(fingerprint, true, NoResponse);
      records := records[key := record];
      return record, true;
    }

    /** A missing key reads as an empty record: the middleware ignores the error. */
    method Read(key: Key) returns (record: Record)
      ensures record == ReadRecord(records, key)
    {
      if key !in records { return Record("", false, NoResponse); }
      return records[key];
    }

    method Complete(key: Key, record: Record)
      modifies this
      ensures records == old(records)[key := record]
    {
      records := records[key := record];
    }
  }

  // ---------- the capturing response writer ----------

  datatype Call = WriteHeader(status: int) | Write(body: string)

  class CaptureWriter {
    var status: int
    var wrote: bool
    var body: string

    constructor ()
      ensures status == 200 && !wrote && body == ""
    {
      status, wrote, body := 200, false, "";
    }

    method DoWriteHeader(code: int)
      modifies this
      ensures status == (if old(wrote) then old(status) else code) && wrote && body == old(body)
    {
      if !wrote {
        status := code;
        wrote := true;
      }
    }

    method DoWrite(bytes: string)
      modifies this
      ensures status == (if old(wrote) then old(status) else 200) && wrote && body == old(body) + bytes
    {
      if !wrote { DoWriteHeader(200); }
      body := body + bytes;
    }
  }

  /** The status of a handler that makes these calls: the first call decides. */
  function Status(calls: seq<Call>): int {
    if calls != [] && calls[0].WriteHeader? then calls[0].status else 200
  }

  function Body(calls: seq<Call>): string
    decreases |calls|
  {
    if calls == [] then ""
    else
      var last := calls[|calls| - 1];
      Body(calls[..|calls| - 1]) + match last case WriteHeader(_) => "" case Write(b) => b
  }

  /** All bytes that these calls write, in their order. */
  function Written(calls: seq<Call>): string {
    if calls == [] then ""
    else if calls[0].Write? then calls[0].body + Written(calls[1..])
    else Written(calls[1..])
  }

  lemma {:induction false} WrittenLast(calls: seq<Call>)
    requires calls != []
    ensures var n := |calls| - 1;
            Written(calls) == Written(calls[..n]) + if calls[n].Write? then calls[n].body else ""
  {
    var n := |calls| - 1;
    if n > 0 {
      WrittenLast(calls[1..]);
      assert calls[1..][..n - 1] == calls[..n][1..];
    }
  }

  lemma {:induction false} BodyIsWritten(calls: seq<Call>)
    ensures Body(calls) == Written(calls)
  {
    if calls != [] {
      BodyIsWritten(calls[..|calls| - 1]);
      WrittenLast(calls);
    }
  }

  /** Running a handler against the capturing writer. */
  method Capture(calls: seq<Call>) returns (status: int, body: string)
    ensures status == Status(calls) && body == Body(calls) == Written(calls)
  {
    BodyIsWritten(calls);
    var w := new CaptureWriter();
    for i := 0 to |calls|
      invariant fresh(w) && w.wrote == (i > 0)
      invariant w.status == Status(calls[..i]) && w.body == Body(calls[..i])
    {
      assert calls[..i + 1][..i] == calls[..i];
      match calls[i] {
        case WriteHeader(code) => w.DoWriteHeader(code);
        case Write(bytes) => w.DoWrite(bytes);
      }
    }
    assert calls[..|calls|] == calls;
    return w.status, w.body;
  }

  /** The codes the server's response writer accepts; it panics on any other. */
  predicate ValidCode(status: int) {
    100 <= status <= 999
  }

  /** A handler that passes on only valid codes, as every handler of the server does. */
  predicate Proper(calls: seq<Call>) {
    forall i :: 0 <= i < |calls| && calls[i].WriteHeader? ==> ValidCode(calls[i].status)
  }

  /** The codes of three digits. */
  lemma ValidCodeIff(status: int)
    ensures ValidCode(status) <==> 1 <= status / 100 <= 9
  {
  }

  lemma ProperStatus(calls: seq<Call>)
    requires Proper(calls)
    ensures ValidCode(Status(calls))
  {
  }

  // ---------- concurrent requests ----------

  datatype Answer =
    | Own(response: Response)          // the owner's own response
    | Replay(response: Response)
    | Conflict                         // the key belongs to another request
    | InProgress                       // gave up polling
    | Aborted                          // the handler, or sending its response, panicked
    | ReplayFailed(response: Response) // sending the recorded response panicked

  datatype Phase =
    | Arrived
    | Waiting(record: Record)
    | Handling
    | Sending(response: Response)
    | Answered(answer: Answer)

  datatype Request = Request(key: Key, fingerprint: string, phase: Phase)

  /** `handled` has the key of every run of the handler, `completed` every record written for a key
      after its claim, and `owners` the request that claimed each key. */
  datatype State = State(
    records: map<Key, Record>,
    requests: map<RequestId, Request>,
    owners: map<Key, RequestId>,
    handled: seq<Key>,
    completed: seq<(Key, Response)>)

  datatype Step =
    | Arrive(id: RequestId, key: Key, fingerprint: string)
    | Claims(id: RequestId)
    | Polls(id: RequestId)
    | TimesOut(id: RequestId)
    | Settles(id: RequestId)
    | Returns(id: RequestId, calls: seq<Call>, contentType: string)
    | Sends(id: RequestId)
    | Panics(id: RequestId)

  function ReadRecord(records: map<Key, Record>, key: Key): Record {
    if key in records then records[key] else Record("", false, NoResponse)
  }

  function Move(s: State, id: RequestId, phase: Phase): State
    requires id in s.requests
  {
    s.(requests := s.requests[id := s.requests[id].(phase := phase)])
  }

  function ClaimStep(s: State, id: RequestId): State
    requires id in s.requests
  {
    var r := s.requests[id];
    if r.key in s.records then
      var record := s.records[r.key];
      Move(s, id, if record.fingerprint != r.fingerprint then Answered(Conflict) else Waiting(record))
    else
      Move(s, id, Handling).(
        records := s.records[r.key := Record(r.fingerprint, true, NoResponse)],
        owners := s.owners[r.key := id],
        handled := s.handled + [r.key])
  }

  /** After polling: replay a recorded response, or fall through to running the handler. */
  function SettleStep(s: State, id: RequestId): State
    requires id in s.requests && s.requests[id].phase.Waiting?
  {
    var record := s.requests[id].phase.record;
    if record.response.status <= 0 then Move(s, id, Handling).(handled := s.handled + [s.requests[id].key])
    else if ValidCode(record.response.status) then Move(s, id, Answered(Replay(record.response)))
    else Move(s, id, Answered(ReplayFailed(record.response)))
  }

  /** The record of the request's key is completed. */
  function CompleteStep(s: State, id: RequestId, response: Response, phase: Phase): State
    requires id in s.requests
  {
    var r := s.requests[id];
    Move(s, id, phase).(
      records := s.records[r.key := Record(r.fingerprint, false, response)],
      completed := s.completed + [(r.key, response)])
  }

  /** What the capturing writer has recorded when the handler returns. */
  function Captured(calls: seq<Call>, contentType: string): Response {
    Response(Status(calls), contentType, Body(calls))
  }

  /** Sending the response runs under the same recovery as the handler: if it panics, the key is
      completed a second time. */
  function SendStep(s: State, id: RequestId): State
    requires id in s.requests && s.requests[id].phase.Sending?
  {
    var response := s.requests[id].phase.response;
    if ValidCode(response.status) then Move(s, id, Answered(Own(response)))
    else CompleteStep(s, id, InternalError, Answered(Aborted))
  }

  /** A step that is not enabled leaves the state as it is. */
  function Next(s: State, step: Step): State {
    match step
    case Arrive(id, key, fingerprint) =>
      if id in s.requests then s else s.(requests := s.requests[id := Request(key, fingerprint, Arrived)])
    case Claims(id) => if id in s.requests && s.requests[id].phase.Arrived? then ClaimStep(s, id) else s
    case Polls(id) =>
      if id in s.requests && s.requests[id].phase.Waiting? && s.requests[id].phase.record.pending
      then Move(s, id, Waiting(ReadRecord(s.records, s.requests[id].key)))
      else s
    case TimesOut(id) =>
      if id in s.requests && s.requests[id].phase.Waiting? && s.requests[id].phase.record.pending
      then Move(s, id, Answered(InProgress))
      else s
    case Settles(id) =>
      if id in s.requests && s.requests[id].phase.Waiting? && !s.requests[id].phase.record.pending
      then SettleStep(s, id)
      else s
    case Returns(id, calls, contentType) =>
      if id in s.requests && s.requests[id].phase.Handling?
      then CompleteStep(s, id, Captured(calls, contentType), Sending(Captured(calls, contentType)))
      else s
    case Sends(id) => if id in s.requests && s.requests[id].phase.Sending? then SendStep(s, id) else s
    case Panics(id) =>
      if id in s.requests && s.requests[id].phase.Handling?
      then CompleteStep(s, id, InternalError, Answered(Aborted))
      else s
  }

  function Run(s: State, steps: seq<Step>): State {
    if steps == [] then s else Next(Run(s, steps[..|steps| - 1]), steps[|steps| - 1])
  }

  const Start := State(map[], map[], map[], [], [])

  // ---------- the invariant, key by key ----------

  /** How often the handler was run for the key. */
  function Runs(handled: seq<Key>, k: Key): nat {
    if handled == [] then 0
    else Runs(handled[..|handled| - 1], k) + if handled[|handled| - 1] == k then 1 else 0
  }

  /** How often the record of the key was completed. */
  function Completions(completed: seq<(Key, Response)>, k: Key): nat {
    if completed == [] then 0
    else Completions(completed[..|completed| - 1], k) + if completed[|completed| - 1].0 == k then 1 else 0
  }

  lemma RunsNext(handled: seq<Key>, key: Key, k: Key)
    ensures Runs(handled + [key], k) == Runs(handled, k) + if key == k then 1 else 0
  {
    assert (handled + [key])[..|handled|] == handled;
  }

  lemma CompletionsNext(completed: seq<(Key, Response)>, c: (Key, Response), k: Key)
    ensures Completions(completed + [c], k) == Completions(completed, k) + if c.0 == k then 1 else 0
  {
    assert (completed + [c])[..|completed|] == completed;
  }

  /** Some completion of the key had a code that cannot be sent. */
  ghost predicate Unsendable(s: State, k: Key) {
    exists c :: c in s.completed && c.0 == k && !ValidCode(c.1.status)
  }

  ghost predicate OwnerOk(s: State, k: Key)
    requires k in s.owners
  {
    && k in s.records && s.owners[k] in s.requests
    && var r := s.requests[s.owners[k]]; var record := s.records[k]; var n := Completions(s.completed, k);
       && r.key == k && r.fingerprint == record.fingerprint
       && (record.pending ==> r.phase == Handling && n == 0)
       && (!record.pending ==> (k, record.response) in s.completed)
       && (!record.pending ==>
             || (r.phase == Sending(record.response) && n == 1)
             || (r.phase == Answered(Own(record.response)) && ValidCode(record.response.status) && n == 1)
             || (r.phase == Answered(Aborted) && record.response == InternalError && (n == 1 || Unsendable(s, k))))
  }

  ghost predicate RequestOk(s: State, id: RequestId)
    requires id in s.requests
  {
    var r := s.requests[id];
    match r.phase
    case Arrived => true
    case Handling => r.key in s.owners && s.owners[r.key] == id
    case Sending(response) => r.key in s.owners && s.owners[r.key] == id
    case Waiting(record) =>
      && r.key in s.records && s.records[r.key].fingerprint == record.fingerprint == r.fingerprint
      && (!record.pending ==> (r.key, record.response) in s.completed)
      && (!record.pending && ValidCode(record.response.status) ==> record == s.records[r.key])
    case Answered(Replay(response)) =>
      r.key in s.records && s.records[r.key] == Record(r.fingerprint, false, response) && ValidCode(response.status)
    case Answered(Own(response)) => r.key in s.owners && s.owners[r.key] == id
    case Answered(Conflict) => r.key in s.records && s.records[r.key].fingerprint != r.fingerprint
    case Answered(ReplayFailed(response)) => (r.key, response) in s.completed && !ValidCode(response.status)
    case Answered(_) => true
  }

  /** What is known of a key for which the handler has been run at most once. */
  ghost predicate KeyOk(s: State, k: Key) {
    && Runs(s.handled, k) == (if k in s.owners then 1 else 0)
    && (k in s.records <==> k in s.owners)
    && (if k in s.owners then OwnerOk(s, k) else Completions(s.completed, k) == 0)
    && (forall id :: id in s.requests && s.requests[id].key == k ==> RequestOk(s, id))
  }

  /** The next step makes a request that has waited run the handler again. */
  predicate RunsAgain(s: State, step: Step, k: Key) {
    && step.Settles? && step.id in s.requests && s.requests[step.id].key == k
    && s.requests[step.id].phase.Waiting? && !s.requests[step.id].phase.record.pending
    && s.requests[step.id].phase.record.response.status <= 0
  }

  lemma ArriveKeeps(s: State, id: RequestId, key: Key, fingerprint: string, k: Key)
    requires KeyOk(s, k)
    ensures KeyOk(Next(s, Arrive(id, key, fingerprint)), k)
  {
  }

  /** The first claim of a key. */
  lemma FirstClaimKeeps(s: State, id: RequestId)
    requires id in s.requests && s.requests[id].phase == Arrived && s.requests[id].key !in s.records
    requires KeyOk(s, s.requests[id].key)
    ensures KeyOk(ClaimStep(s, id), s.requests[id].key)
  {
    var s', k := ClaimStep(s, id), s.requests[id].key;
    RunsNext(s.handled, k, k);
    hide Runs;
    forall other | other in s'.requests && s'.requests[other].key == k ensures RequestOk(s', other) {
      if other != id { assert RequestOk(s, other); }
    }
  }

  /** A claim of another key. */
  lemma OtherClaimKeeps(s: State, id: RequestId, k: Key)
    requires KeyOk(s, k) && id in s.requests && s.requests[id].phase == Arrived
    requires s.requests[id].key !in s.records && s.requests[id].key != k
    ensures KeyOk(ClaimStep(s, id), k)
  {
    var s' := ClaimStep(s, id);
    RunsNext(s.handled, s.requests[id].key, k);
    hide Runs;
    forall other | other in s'.requests && s'.requests[other].key == k ensures RequestOk(s', other) {
      assert RequestOk(s, other);
    }
  }

  lemma ClaimKeeps(s: State, id: RequestId, k: Key)
    requires KeyOk(s, k) && id in s.requests && s.requests[id].phase == Arrived
    ensures KeyOk(ClaimStep(s, id), k)
  {
    var r := s.requests[id];
    if r.key in s.records {
      var record := s.records[r.key];
      var phase := if record.fingerprint != r.fingerprint then Answered(Conflict) else Waiting(record);
      ClaimedMayMove(s, id, phase, k);
      MoveKeeps(s, id, phase, k);
      hide KeyOk;
    } else {
      hide KeyOk;
      if r.key == k { FirstClaimKeeps(s, id); } else { OtherClaimKeeps(s, id, k); }
    }
  }

  lemma ClaimedMayMove(s: State, id: RequestId, phase: Phase, k: Key)
    requires KeyOk(s, k) && id in s.requests && s.requests[id].phase == Arrived && s.requests[id].key in s.records
    requires var r := s.requests[id]; var record := s.records[r.key];
             phase == if record.fingerprint != r.fingerprint then Answered(Conflict) else Waiting(record)
    ensures s.requests[id].key == k ==> RequestOk(Move(s, id, phase), id)
    ensures s.requests[id].key == k && k in s.owners ==> s.owners[k] != id
  {
    hide Runs;
  }

  lemma MoveKeeps(s: State, id: RequestId, phase: Phase, k: Key)
    requires KeyOk(s, k) && id in s.requests
    requires s.requests[id].key == k ==> RequestOk(Move(s, id, phase), id)
    requires s.requests[id].key == k && k in s.owners ==> s.owners[k] != id || OwnerOk(Move(s, id, phase), k)
    ensures KeyOk(Move(s, id, phase), k)
  {
    var s' := Move(s, id, phase);
    forall other | other in s'.requests && s'.requests[other].key == k ensures RequestOk(s', other) {
      if other != id { assert RequestOk(s, other); }
    }
  }

  lemma SettleKeeps(s: State, id: RequestId, k: Key)
    requires KeyOk(s, k) && id in s.requests && s.requests[id].phase.Waiting? && !s.requests[id].phase.record.pending
    requires !RunsAgain(s, Settles(id), k)
    ensures KeyOk(SettleStep(s, id), k)
  {
    var record := s.requests[id].phase.record;
    if record.response.status > 0 {
      assert s.requests[id].key == k ==> RequestOk(s, id);
      MoveKeeps(s, id, Answered(if ValidCode(record.response.status) then Replay(record.response)
        else ReplayFailed(record.response)), k);
    } else {
      var s' := SettleStep(s, id);
      RunsNext(s.handled, s.requests[id].key, k);
      forall other | other in s'.requests && s'.requests[other].key == k ensures RequestOk(s', other) {
        assert RequestOk(s, other);
      }
    }
  }

  lemma CompleteKeeps(s: State, id: RequestId, response: Response, phase: Phase, k: Key)
    requires KeyOk(s, k) && id in s.requests
    requires s.requests[id].phase == Handling
             && (phase == Sending(response) || (phase == Answered(Aborted) && response == InternalError))
    ensures KeyOk(CompleteStep(s, id, response, phase), k)
  {
    var s' := CompleteStep(s, id, response, phase);
    CompletionsNext(s.completed, (s.requests[id].key, response), k);
    if s.requests[id].key == k { assert RequestOk(s, id) && OwnerOk(s, k) && s.records[k].pending; }
    forall other | other in s'.requests && s'.requests[other].key == k ensures RequestOk(s', other) {
      if other != id { assert RequestOk(s, other); }
    }
  }

  lemma SendKeeps(s: State, id: RequestId, k: Key)
    requires KeyOk(s, k) && id in s.requests && s.requests[id].phase.Sending?
    ensures KeyOk(SendStep(s, id), k)
  {
    var response := s.requests[id].phase.response;
    if ValidCode(response.status) {
      assert s.requests[id].key == k ==> RequestOk(s, id) && OwnerOk(s, k);
      MoveKeeps(s, id, Answered(Own(response)), k);
    } else {
      FailedSendKeeps(s, id, k);
    }
  }

  lemma FailedSendKeeps(s: State, id: RequestId, k: Key)
    requires KeyOk(s, k) && id in s.requests && s.requests[id].phase.Sending?
             && !ValidCode(s.requests[id].phase.response.status)
    ensures KeyOk(SendStep(s, id), k)
  {
    var s' := SendStep(s, id);
    CompletionsNext(s.completed, (s.requests[id].key, InternalError), k);
    if s.requests[id].key == k {
      assert RequestOk(s, id) && OwnerOk(s, k);
      assert (k, s.requests[id].phase.response) in s'.completed;
    }
    forall other | other in s'.requests && s'.requests[other].key == k ensures RequestOk(s', other) {
      if other != id { assert RequestOk(s, other); }
    }
  }

  /** Every step but one that runs the handler again keeps what is known of a key. */
  lemma NextKeepsKey(s: State, step: Step, k: Key)
    requires KeyOk(s, k) && !RunsAgain(s, step, k)
    ensures KeyOk(Next(s, step), k)
  {
    match step
    case Arrive(id, key, fingerprint) => ArriveKeeps(s, id, key, fingerprint, k);
    case Claims(id) => if id in s.requests && s.requests[id].phase.Arrived? { ClaimKeeps(s, id, k); }
    case Polls(id) =>
      if id in s.requests && s.requests[id].phase.Waiting? && s.requests[id].phase.record.pending {
        PollKeeps(s, id, k);
      }
    case TimesOut(id) =>
      if id in s.requests && s.requests[id].phase.Waiting? && s.requests[id].phase.record.pending {
        assert s.requests[id].key == k ==> RequestOk(s, id);
        MoveKeeps(s, id, Answered(InProgress), k);
      }
    case Settles(id) =>
      if id in s.requests && s.requests[id].phase.Waiting? && !s.requests[id].phase.record.pending {
        SettleKeeps(s, id, k);
      }
    case Returns(id, calls, contentType) =>
      if id in s.requests && s.requests[id].phase.Handling? {
        CompleteKeeps(s, id, Captured(calls, contentType), Sending(Captured(calls, contentType)), k);
      }
    case Sends(id) => if id in s.requests && s.requests[id].phase.Sending? { SendKeeps(s, id, k); }
    case Panics(id) =>
      if id in s.requests && s.requests[id].phase.Handling? {
        CompleteKeeps(s, id, InternalError, Answered(Aborted), k);
      }
  }

  lemma PollKeeps(s: State, id: RequestId, k: Key)
    requires KeyOk(s, k) && id in s.requests && s.requests[id].phase.Waiting? && s.requests[id].phase.record.pending
    ensures KeyOk(Move(s, id, Waiting(ReadRecord(s.records, s.requests[id].key))), k)
  {
    if s.requests[id].key == k { assert RequestOk(s, id) && OwnerOk(s, k); }
    MoveKeeps(s, id, Waiting(ReadRecord(s.records, s.requests[id].key)), k);
  }

  /** The handler's runs are never forgotten, and a second one starts only where a request runs it again. */
  lemma RunsGrow(s: State, step: Step, k: Key)
    ensures Runs(Next(s, step).handled, k) >= Runs(s.handled, k)
    ensures RunsAgain(s, step, k) ==> Runs(Next(s, step).handled, k) == Runs(s.handled, k) + 1
  {
    forall key { RunsNext(s.handled, key, k); }
    hide Runs;
  }

  /** As long as the handler has been run at most once for a key, everything known of it holds. */
  lemma {:induction false} RunKeepsKey(steps: seq<Step>, k: Key)
    requires Runs(Run(Start, steps).handled, k) <= 1
    ensures KeyOk(Run(Start, steps), k)
  {
    if steps != [] {
      var before, step := Run(Start, steps[..|steps| - 1]), steps[|steps| - 1];
      RunsGrow(before, step, k);
      hide KeyOk, Next;
      RunKeepsKey(steps[..|steps| - 1], k);
      if RunsAgain(before, step, k) { AgainIsTwice(before, step, k); }
      NextKeepsKey(before, step, k);
    }
  }

  lemma AgainIsTwice(s: State, step: Step, k: Key)
    requires KeyOk(s, k) && RunsAgain(s, step, k)
    ensures Runs(Next(s, step).handled, k) == 2
  {
    RunsGrow(s, step, k);
    assert RequestOk(s, step.id);
  }

  // ---------- exactly when the handler runs twice ----------

  /** In every reachable state in which the handler has been run at most once for a key, the next
      step makes it two exactly when a request settles that has waited for a record and read one
      whose status is not positive. */
  lemma SecondRunIff(steps: seq<Step>, step: Step, k: Key)
    requires Runs(Run(Start, steps).handled, k) <= 1
    ensures Runs(Next(Run(Start, steps), step).handled, k) > 1 <==> RunsAgain(Run(Start, steps), step, k)
    ensures RunsAgain(Run(Start, steps), step, k) ==> Next(Run(Start, steps), step).requests[step.id].phase == Handling
  {
    var s := Run(Start, steps);
    RunKeepsKey(steps, k);
    if RunsAgain(s, step, k) {
      AgainIsTwice(s, step, k);
    } else {
      NextKeepsKey(s, step, k);
      assert KeyOk(Next(s, step), k);
    }
    hide Next, Run, Runs;
  }

  /** Such a record can only be read while its owner is still sending it: between the completion of
      the key with a code that cannot be sent and its second completion. */
  lemma UnsendableOnlyInWindow(steps: seq<Step>, k: Key)
    requires var s := Run(Start, steps);
             Runs(s.handled, k) <= 1 && k in s.records && !s.records[k].pending
               && !ValidCode(s.records[k].response.status)
    ensures var s := Run(Start, steps);
            k in s.owners && s.owners[k] in s.requests
              && s.requests[s.owners[k]].phase == Sending(s.records[k].response)
  {
    RunKeepsKey(steps, k);
  }

  /** All handlers of the run make these calls, when they return. */
  ghost predicate Uniform(steps: seq<Step>, calls: seq<Call>) {
    forall i :: 0 <= i < |steps| && steps[i].Returns? ==> steps[i].calls == calls
  }

  /** All handlers of the run pass on only valid codes, when they return. */
  ghost predicate Conforming(steps: seq<Step>) {
    forall i :: 0 <= i < |steps| && steps[i].Returns? ==> Proper(steps[i].calls)
  }

  /** Every response that was recorded has a status that its handler gave, or is an internal error. */
  lemma {:induction false} CompletedCodes(steps: seq<Step>, p: int -> bool)
    requires p(500) && forall i :: 0 <= i < |steps| && steps[i].Returns? ==> p(Status(steps[i].calls))
    ensures forall c :: c in Run(Start, steps).completed ==> p(c.1.status)
  {
    if steps != [] {
      var n := |steps| - 1;
      CompletedCodes(steps[..n], p);
      assert steps[n].Returns? ==> p(Status(steps[n].calls));
    }
  }

  lemma PositiveNotAgain(s: State, step: Step, k: Key)
    requires KeyOk(s, k) && forall c :: c in s.completed ==> c.1.status > 0
    ensures !RunsAgain(s, step, k)
  {
    assert step.Settles? && step.id in s.requests && s.requests[step.id].key == k ==> RequestOk(s, step.id);
  }

  /** If no recorded status is zero or below, the handler runs at most once. */
  lemma {:induction false} PositiveRunsOnce(steps: seq<Step>, k: Key)
    requires forall i :: 0 <= i < |steps| && steps[i].Returns? ==> Status(steps[i].calls) > 0
    ensures Runs(Run(Start, steps).handled, k) <= 1
  {
    if steps != [] {
      var before, step := Run(Start, steps[..|steps| - 1]), steps[|steps| - 1];
      PositiveRunsOnce(steps[..|steps| - 1], k);
      CompletedCodes(steps[..|steps| - 1], status => status > 0);
      RunKeepsKey(steps[..|steps| - 1], k);
      PositiveNotAgain(before, step, k);
      SecondRunIff(steps[..|steps| - 1], step, k);
    }
  }

  function OneRequest(id: RequestId, key: Key, fingerprint: string, calls: seq<Call>): seq<Step> {
    [Arrive(id, key, fingerprint), Claims(id), Returns(id, calls, "")]
  }

  /** A second request comes while the response of the first is being sent. */
  function InTheWindow(key: Key, fingerprint: string, calls: seq<Call>): seq<Step> {
    OneRequest(0, key, fingerprint, calls) + [Arrive(1, key, fingerprint), Claims(1), Settles(1)]
  }

  lemma RunAppend(steps: seq<Step>, step: Step)
    ensures Run(Start, steps + [step]) == Next(Run(Start, steps), step)
  {
    assert (steps + [step])[..|steps|] == steps;
  }

  lemma AfterOneRequest(key: Key, fingerprint: string, calls: seq<Call>) returns (s: State)
    ensures s == Run(Start, OneRequest(0, key, fingerprint, calls))
    ensures s.records == map[key := Record(fingerprint, false, Captured(calls, ""))] && s.handled == [key]
    ensures s.requests == map[0 := Request(key, fingerprint, Sending(Captured(calls, "")))]
    ensures s.completed == [(key, Captured(calls, ""))]
  {
    var steps := OneRequest(0, key, fingerprint, calls);
    hide Captured;
    assert [] + [steps[0]] == [steps[0]] && [steps[0]] + [steps[1]] == [steps[0], steps[1]];
    assert [steps[0], steps[1]] + [steps[2]] == steps;
    RunAppend([], steps[0]);
    RunAppend([steps[0]], steps[1]);
    RunAppend([steps[0], steps[1]], steps[2]);
    s := Next(Next(Next(Start, steps[0]), steps[1]), steps[2]);
  }

  lemma WindowRunsTwice(key: Key, fingerprint: string, calls: seq<Call>)
    requires Status(calls) <= 0
    ensures Runs(Run(Start, InTheWindow(key, fingerprint, calls)).handled, key) == 2
  {
    var first := OneRequest(0, key, fingerprint, calls);
    var s := AfterOneRequest(key, fingerprint, calls);
    var arrive, claim, settle := Arrive(1, key, fingerprint), Claims(1), Settles(1);
    SecondRequest(s, key, fingerprint, Captured(calls, ""));
    assert first + [arrive] + [claim] + [settle] == InTheWindow(key, fingerprint, calls);
    hide OneRequest, Run, Status, Next, InTheWindow, Captured;
    RunAppend(first, arrive);
    RunAppend(first + [arrive], claim);
    RunAppend(first + [arrive] + [claim], settle);
    TwoRuns(key);
  }

  lemma TwoRuns(key: Key)
    ensures Runs([key], key) == 1 && Runs([key, key], key) == 2
  {
    RunsNext([], key, key);
    RunsNext([key], key, key);
    assert [] + [key] == [key] && [key] + [key] == [key, key];
  }

  /** A request that claims the key in the window reads the record and settles. */
  lemma SecondRequest(s: State, key: Key, fingerprint: string, response: Response)
    requires s.records == map[key := Record(fingerprint, false, response)] && s.handled == [key]
    requires 1 !in s.requests && response.status <= 0
    ensures Next(Next(Next(s, Arrive(1, key, fingerprint)), Claims(1)), Settles(1)).handled == [key, key]
  {
    var s1 := Next(s, Arrive(1, key, fingerprint));
    assert s1.requests[1] == Request(key, fingerprint, Arrived) && s1.records == s.records && s1.handled == s.handled;
    var s2 := Next(s1, Claims(1));
    assert s2.requests[1].phase == Waiting(s.records[key]) && s2.requests[1].key == key && s2.handled == s.handled;
  }

  /** Over all runs in which handlers make given calls, the handler can be run twice for one key
      exactly when these calls set a status that is not positive. */
  lemma RunsTwiceIff(key: Key, fingerprint: string, calls: seq<Call>)
    ensures (exists steps :: Uniform(steps, calls) && Runs(Run(Start, steps).handled, key) > 1) <==> Status(calls) <= 0
  {
    if Status(calls) <= 0 {
      WindowRunsTwice(key, fingerprint, calls);
      assert Uniform(InTheWindow(key, fingerprint, calls), calls);
    } else {
      forall steps | Uniform(steps, calls) ensures Runs(Run(Start, steps).handled, key) <= 1 {
        PositiveRunsOnce(steps, key);
      }
    }
  }

  /** In the same way, a key can be completed twice exactly when the calls set a code that cannot be sent. */
  lemma CompletedTwiceIff(key: Key, fingerprint: string, calls: seq<Call>)
    ensures (exists steps :: Uniform(steps, calls) && Runs(Run(Start, steps).handled, key) <= 1
                             && Completions(Run(Start, steps).completed, key) > 1)
            <==> !ValidCode(Status(calls))
  {
    if ValidCode(Status(calls)) {
      forall steps | Uniform(steps, calls) ensures Completions(Run(Start, steps).completed, key) <= 1 {
        PositiveRunsOnce(steps, key);
        RunKeepsKey(steps, key);
        CompletedCodes(steps, ValidCode);
      }
    } else {
      var first := OneRequest(0, key, fingerprint, calls);
      var s := AfterOneRequest(key, fingerprint, calls);
      RunAppend(first, Sends(0));
      CompletionsNext([], (key, Captured(calls, "")), key);
      CompletionsNext([(key, Captured(calls, ""))], (key, InternalError), key);
      assert [] + [(key, Captured(calls, ""))] == [(key, Captured(calls, ""))];
      TwoRuns(key);
      assert Uniform(first + [Sends(0)], calls);
    }
  }

  // ---------- what the server's handlers get ----------

  /** However many requests with one key run, in whatever order their steps interleave, the handler
      runs at most once, and its record is completed at most once: every handler of the server
      passes on only valid codes. */
  lemma HandlerRunsAtMostOnce(steps: seq<Step>, k: Key)
    requires Conforming(steps)
    ensures Runs(Run(Start, steps).handled, k) <= 1 && Completions(Run(Start, steps).completed, k) <= 1
  {
    forall i | 0 <= i < |steps| && steps[i].Returns? ensures ValidCode(Status(steps[i].calls)) {
      ProperStatus(steps[i].calls);
    }
    PositiveRunsOnce(steps, k);
    RunKeepsKey(steps, k);
    CompletedCodes(steps, ValidCode);
  }

  /** A request that has waited never falls through to the handler, and its replay never fails. */
  lemma FallThroughUnreachable(steps: seq<Step>, id: RequestId)
    requires Conforming(steps) && id in Run(Start, steps).requests
    ensures var r := Run(Start, steps).requests[id];
            && (r.phase.Waiting? && !r.phase.record.pending ==> ValidCode(r.phase.record.response.status))
            && !(r.phase.Answered? && r.phase.answer.ReplayFailed?)
  {
    var s := Run(Start, steps);
    forall i | 0 <= i < |steps| && steps[i].Returns? ensures ValidCode(Status(steps[i].calls)) {
      ProperStatus(steps[i].calls);
    }
    HandlerRunsAtMostOnce(steps, s.requests[id].key);
    RunKeepsKey(steps, s.requests[id].key);
    CompletedCodes(steps, ValidCode);
    assert RequestOk(s, id);
  }

  // ---------- where answers come from ----------

  /** The response of a handler that makes these calls: the code of the first call, or 200 when that
      is a write or there is none, and all the bytes written. */
  predicate IsResponse(r: Response, calls: seq<Call>, contentType: string) {
    && r.contentType == contentType && r.body == Written(calls)
    && (calls != [] && calls[0].WriteHeader? ==> r.status == calls[0].status)
    && (calls == [] || calls[0].Write? ==> r.status == 200)
  }

  /** In this run the handler has returned to the request, with this response. */
  ghost predicate Returned(steps: seq<Step>, id: RequestId, r: Response) {
    exists i :: 0 <= i < |steps| && steps[i].Returns? && steps[i].id == id
                && IsResponse(r, steps[i].calls, steps[i].contentType)
  }

  /** It is the response of the handler to some request for the key, or says that one panicked. */
  ghost predicate ForKey(steps: seq<Step>, s: State, k: Key, r: Response) {
    r == InternalError || exists id :: id in s.requests && s.requests[id].key == k && Returned(steps, id, r)
  }

  ghost predicate PhaseSourced(steps: seq<Step>, s: State, id: RequestId)
    requires id in s.requests
  {
    var r := s.requests[id];
    match r.phase
    case Arrived => true
    case Waiting(record) => r.key in s.records && (!record.pending ==> ForKey(steps, s, r.key, record.response))
    case Handling => true
    case Sending(response) => Returned(steps, id, response)
    case Answered(answer) =>
      && (answer.Own? ==> Returned(steps, id, answer.response))
      && (answer.Replay? || answer.ReplayFailed? ==> ForKey(steps, s, r.key, answer.response))
  }

  ghost predicate Sourced(steps: seq<Step>, s: State) {
    && (forall id :: id in s.requests ==> PhaseSourced(steps, s, id))
    && (forall k :: k in s.records && !s.records[k].pending ==> ForKey(steps, s, k, s.records[k].response))
  }

  lemma ReturnedStays(steps: seq<Step>, step: Step, id: RequestId, r: Response)
    requires Returned(steps, id, r)
    ensures Returned(steps + [step], id, r)
  {
    var i :| 0 <= i < |steps| && steps[i].Returns? && steps[i].id == id
             && IsResponse(r, steps[i].calls, steps[i].contentType);
    hide IsResponse;
    assert (steps + [step])[i] == steps[i];
  }

  lemma NowReturned(steps: seq<Step>, id: RequestId, calls: seq<Call>, contentType: string)
    ensures Returned(steps + [Returns(id, calls, contentType)], id, Captured(calls, contentType))
  {
    BodyIsWritten(calls);
    assert IsResponse(Captured(calls, contentType), calls, contentType);
    hide IsResponse, Captured;
    assert (steps + [Returns(id, calls, contentType)])[|steps|] == Returns(id, calls, contentType);
  }

  lemma KeysStay(s: State, step: Step)
    ensures forall id :: id in s.requests ==>
              id in Next(s, step).requests && Next(s, step).requests[id].key == s.requests[id].key
    ensures forall k :: k in s.records ==> k in Next(s, step).records
  {
  }

  lemma ForKeyStays(steps: seq<Step>, step: Step, s: State, k: Key, r: Response)
    requires ForKey(steps, s, k, r)
    ensures ForKey(steps + [step], Next(s, step), k, r)
  {
    KeysStay(s, step);
    hide Next, Returned;
    if r != InternalError {
      var id :| id in s.requests && s.requests[id].key == k && Returned(steps, id, r);
      ReturnedStays(steps, step, id, r);
    }
  }

  /** A request that the step does not move. */
  lemma OthersSourced(steps: seq<Step>, step: Step, s: State, id: RequestId)
    requires id in s.requests && PhaseSourced(steps, s, id)
    requires id in Next(s, step).requests && Next(s, step).requests[id] == s.requests[id]
    ensures PhaseSourced(steps + [step], Next(s, step), id)
  {
    KeysStay(s, step);
    hide Next, Returned, ForKey;
    match s.requests[id].phase
    case Arrived =>
    case Waiting(record) =>
      if !record.pending { ForKeyStays(steps, step, s, s.requests[id].key, record.response); }
    case Handling =>
    case Sending(response) => ReturnedStays(steps, step, id, response);
    case Answered(answer) =>
      if answer.Own? { ReturnedStays(steps, step, id, answer.response); }
      if answer.Replay? || answer.ReplayFailed? {
        ForKeyStays(steps, step, s, s.requests[id].key, answer.response);
      }
  }

  /** The request that takes the step. */
  lemma MoverSourced(steps: seq<Step>, step: Step, s: State)
    requires Sourced(steps, s) && step.id in Next(s, step).requests
    ensures PhaseSourced(steps + [step], Next(s, step), step.id)
  {
    hide Captured, Returned, ForKey, IsResponse;
    var id := step.id;
    if id in s.requests {
      assert PhaseSourced(steps, s, id);
      if Next(s, step).requests[id] == s.requests[id] {
        OthersSourced(steps, step, s, id);
      } else {
        var key := s.requests[id].key;
        if key in s.records && !s.records[key].pending { ForKeyStays(steps, step, s, key, s.records[key].response); }
        if step.Settles? { ForKeyStays(steps, step, s, key, s.requests[id].phase.record.response); }
        if step.Returns? { NowReturned(steps, id, step.calls, step.contentType); }
        if step.Sends? { ReturnedStays(steps, step, id, s.requests[id].phase.response); }
      }
    }
  }

  lemma RecordSourced(steps: seq<Step>, step: Step, s: State, k: Key)
    requires Sourced(steps, s)
    requires k in Next(s, step).records && !Next(s, step).records[k].pending
    ensures ForKey(steps + [step], Next(s, step), k, Next(s, step).records[k].response)
  {
    hide Returned, Captured;
    if k in s.records && Next(s, step).records[k] == s.records[k] {
      ForKeyStays(steps, step, s, k, s.records[k].response);
    } else if step.Returns? {
      NowReturned(steps, step.id, step.calls, step.contentType);
    }
  }

  lemma {:induction false} RunSourced(steps: seq<Step>)
    ensures Sourced(steps, Run(Start, steps))
  {
    if steps != [] {
      var front, step := steps[..|steps| - 1], steps[|steps| - 1];
      var s := Run(Start, front);
      RunSourced(front);
      assert steps == front + [step];
      var s' := Next(s, step);
      forall id | id in s'.requests ensures PhaseSourced(steps, s', id) {
        if id == step.id { MoverSourced(front, step, s); } else { OthersSourced(front, step, s, id); }
      }
      forall k | k in s'.records && !s'.records[k].pending ensures ForKey(steps, s', k, s'.records[k].response) {
        RecordSourced(front, step, s, k);
      }
    }
  }

  /** In every run, whatever the handlers do: who is answered by its own handler gets the status, the
      content type and all the bytes of a handler that returned to it, and every replay repeats those
      of a handler that returned to a request for the same key, or the internal error of a panic. */
  lemma AnswersAreTheHandlers(steps: seq<Step>, id: RequestId)
    requires id in Run(Start, steps).requests && Run(Start, steps).requests[id].phase.Answered?
    ensures var s := Run(Start, steps); var r := s.requests[id];
            && (r.phase.answer.Own? ==> Returned(steps, id, r.phase.answer.response))
            && (r.phase.answer.Replay? || r.phase.answer.ReplayFailed? ==>
                  ForKey(steps, s, r.key, r.phase.answer.response))
  {
    RunSourced(steps);
    assert PhaseSourced(steps, Run(Start, steps), id);
    hide Returned, ForKey, Run;
  }

  /** Whatever the handlers do, as long as the handler has been run at most once for the key, every
      replay repeats what the owner was answered or is being sent, which is what its handler returned
      or the internal error, and repeats it only to the same request. */
  lemma ReplaysAreTheOwners(steps: seq<Step>, id: RequestId)
    requires var s := Run(Start, steps);
             id in s.requests && s.requests[id].phase.Answered? && s.requests[id].phase.answer.Replay?
             && Runs(s.handled, s.requests[id].key) <= 1
    ensures var s := Run(Start, steps); var r := s.requests[id]; var response := r.phase.answer.response;
            && r.key in s.owners && s.owners[r.key] in s.requests && s.owners[r.key] != id
            && var o := s.requests[s.owners[r.key]];
               && o.key == r.key && o.fingerprint == r.fingerprint
               && (((o.phase == Sending(response) || o.phase == Answered(Own(response)))
                    && Returned(steps, s.owners[r.key], response))
                   || (o.phase == Answered(Aborted) && response == InternalError))
  {
    var s := Run(Start, steps);
    RunSourced(steps);
    RunKeepsKey(steps, s.requests[id].key);
    assert s.requests[id].key in s.owners && s.owners[s.requests[id].key] in s.requests ==>
        PhaseSourced(steps, s, s.owners[s.requests[id].key]);
    hide Returned;
    assert RequestOk(s, id);
    assert OwnerOk(s, s.requests[id].key);
  }

  /** If the request has claimed or read its key, it has the fingerprint recorded for it, or is refused. */
  ghost predicate AgreesWith(s: State, id: RequestId) {
    id in s.requests && !s.requests[id].phase.Arrived? ==>
      && s.requests[id].key in s.records
      && (s.records[s.requests[id].key].fingerprint == s.requests[id].fingerprint
          <==> s.requests[id].phase != Answered(Conflict))
  }

  ghost predicate FingerprintsAgree(s: State) {
    forall id :: AgreesWith(s, id)
  }

  /** Only the request that takes the step moves. */
  lemma OthersStay(s: State, step: Step)
    ensures forall id :: id != step.id ==>
              (id in Next(s, step).requests <==> id in s.requests)
              && (id in s.requests ==> Next(s, step).requests[id] == s.requests[id])
  {
  }

  lemma RecordsKeepFingerprints(s: State, step: Step)
    requires FingerprintsAgree(s)
    ensures forall k :: k in s.records ==>
              k in Next(s, step).records && Next(s, step).records[k].fingerprint == s.records[k].fingerprint
  {
    if step.id in s.requests && !s.requests[step.id].phase.Arrived? {
      assert AgreesWith(s, step.id);
    }
  }

  lemma MoverAgrees(s: State, step: Step)
    requires AgreesWith(s, step.id)
    ensures AgreesWith(Next(s, step), step.id)
  {
  }

  lemma NextFingerprintsAgree(s: State, step: Step)
    requires FingerprintsAgree(s)
    ensures FingerprintsAgree(Next(s, step))
    ensures forall k :: k in s.records ==>
              k in Next(s, step).records && Next(s, step).records[k].fingerprint == s.records[k].fingerprint
  {
    hide Next;
    OthersStay(s, step);
    RecordsKeepFingerprints(s, step);
    MoverAgrees(s, step);
    forall id ensures AgreesWith(Next(s, step), id) {
      assert AgreesWith(s, id);
    }
  }

  lemma {:induction false} RunFingerprintsAgree(steps: seq<Step>)
    ensures FingerprintsAgree(Run(Start, steps))
  {
    if steps != [] {
      RunFingerprintsAgree(steps[..|steps| - 1]);
      NextFingerprintsAgree(Run(Start, steps[..|steps| - 1]), steps[|steps| - 1]);
    }
  }

  /** In every run a request that has been answered was refused as conflicting exactly when the key is
      recorded for another request. */
  lemma ConflictIff(steps: seq<Step>, id: RequestId)
    requires id in Run(Start, steps).requests && Run(Start, steps).requests[id].phase.Answered?
    ensures var s := Run(Start, steps); var r := s.requests[id];
            r.key in s.records
            && (r.phase.answer == Conflict <==> s.records[r.key].fingerprint != r.fingerprint)
  {
    RunFingerprintsAgree(steps);
    assert AgreesWith(Run(Start, steps), id);
  }

  /** A request that waits goes on waiting, with the record as it is now, or gives up, only while the
      record it has read is pending; a completed one is settled, with a replay if its code can be sent,
      and never given up on. Nobody else's step concerns it. */
  lemma WaitingEndsIff(s: State, step: Step, id: RequestId)
    requires id in s.requests && s.requests[id].phase.Waiting? && s.requests[id].key in s.records
    ensures var record := s.requests[id].phase.record; var phase := Next(s, step).requests[id].phase;
            && (phase == Answered(InProgress) <==> step == TimesOut(id) && record.pending)
            && (step == Polls(id) && record.pending ==> phase == Waiting(s.records[s.requests[id].key]))
            && (phase.Answered? && phase.answer.Replay? <==>
                  step == Settles(id) && !record.pending && 100 <= record.response.status <= 999)
            && (phase == Handling <==> step == Settles(id) && !record.pending && record.response.status <= 0)
            && (phase == s.requests[id].phase || step.id == id)
            && (phase.Waiting? && !record.pending ==> phase == Waiting(record))
  {
  }

  /** The fingerprint recorded for a key never changes, whatever the handlers do. */
  lemma {:induction false} FingerprintNeverChanges(steps: seq<Step>, n: nat, k: Key)
    requires n <= |steps| && k in Run(Start, steps[..n]).records
    ensures k in Run(Start, steps).records
            && Run(Start, steps).records[k].fingerprint == Run(Start, steps[..n]).records[k].fingerprint
  {
    if n == |steps| {
      assert steps[..n] == steps;
    } else {
      var front := steps[..|steps| - 1];
      assert front[..n] == steps[..n];
      FingerprintNeverChanges(front, n, k);
      RunFingerprintsAgree(front);
      NextFingerprintsAgree(Run(Start, front), steps[|steps| - 1]);
    }
  }
}
