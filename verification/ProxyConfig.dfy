/** Applying, clearing and restoring the Mihomo subscription: one transaction over three resources
    (the stored URL, the runtime file and the configuration the controller runs) against an
    environment that may fail any call. A failed call leaves its resource as it was. */
module ProxyConfig {
  import opened Wrappers

  /** A generated configuration: the subscription it names and the clock value in its cache path. */
  datatype Config = Config(url: string, stamp: int)

  /** What the controller runs: the base configuration, or the runtime file it last loaded. */
  datatype Running = Base | Loaded(config: Config)

  datatype Error =
    | InvalidSubscriptionURL
    | EncryptionUnavailable
    | MihomoUnavailable
    | SubscriptionUnavailable
    | ProxyTestFailed
    | ConfigApplyFailed
    | RollbackFailed
    | StorageError

  datatype Result = Ok | Err(error: Error)

  datatype Poll = Unreachable | Nodes(count: nat)

  datatype Save = Saved | SaveFailed | SaveFailedEncryption

  /** What the environment does with every call one operation may make. */
  datatype Env = Env(
    load: bool, readFile: bool, write: bool, reload: bool,
    poll: nat -> Poll, cancelled: nat -> bool,
    test: bool, save: Save, remove: bool, clearStore: bool,
    rollbackWrite: bool, rollbackRemove: bool, rollbackReload: bool,
    stamp: int, rollbackStamp: int)

  datatype Resources = Resources(store: string, file: Option<Config>, running: Running)

  datatype Status = Status(configured: string, applied: bool, nodes: nat, failed: bool)

  // ---------- readiness ----------

  predicate Ready(env: Env, i: nat) {
    env.poll(i).Nodes? && env.poll(i).count > 0
  }

  /** One node is enough. */
  lemma ReadyIff(env: Env, i: nat)
    ensures Ready(env, i) <==> env.poll(i) !in {Unreachable, Nodes(0)}
  {
  }

  /** The group becomes ready within the allowed attempts, before the caller gives up. */
  ghost predicate BecomesReady(env: Env, attempts: nat) {
    exists i :: ReadyAt(env, attempts, i)
  }

  predicate ReadyAt(env: Env, attempts: nat, i: nat) {
    i < attempts && Ready(env, i) && forall j :: 0 <= j < i ==> !Ready(env, j) && !env.cancelled(j)
  }

  /** A success names the URL and the nodes of the poll that was ready. */
  ghost predicate ReportsReady(status: Status, url: string, env: Env, attempts: nat) {
    && status == Status(url, true, status.nodes, false)
    && exists i :: ReadyAt(env, attempts, i) && env.poll(i) == Nodes(status.nodes)
  }

  // ---------- what each operation promises ----------

  /** The configuration a rollback goes back to: the file that was there, or one generated afresh
      for the stored URL, or the base configuration when nothing was stored. */
  predicate RolledBack(pre: Resources, post: Resources, env: Env) {
    && post.store == pre.store
    && (pre.store == "" ==> post.running == Base && (env.rollbackRemove ==> post.file == None))
    && (pre.store != "" ==>
          var config := if pre.file.Some? then pre.file.value else Config(pre.store, env.rollbackStamp);
          post.file == Some(config) && post.running == Loaded(config))
  }

  /** The error an Apply reports: the first call that fails decides. */
  ghost function ApplyError(env: Env, attempts: nat): Option<Error> {
    if !env.load || !env.readFile || !env.write then Some(ConfigApplyFailed)
    else if !env.reload then Some(MihomoUnavailable)
    else if !BecomesReady(env, attempts) then Some(SubscriptionUnavailable)
    else if !env.test then Some(ProxyTestFailed)
    else match env.save
      case Saved => None
      case SaveFailed => Some(ConfigApplyFailed)
      case SaveFailedEncryption => Some(EncryptionUnavailable)
  }

  /** The calls an Apply makes before it has changed anything. */
  predicate Untouched(env: Env) {
    !env.load || !env.readFile || !env.write
  }

  /** Whether the rollback itself gets through. */
  predicate RollbackWorks(pre: Resources, env: Env) {
    env.rollbackReload && (pre.store != "" ==> env.rollbackWrite)
  }

  /** What a failed rollback leaves behind: the configuration that was running when it began, and
      the file as far as the rollback got. */
  predicate Stranded(pre: Resources, post: Resources, env: Env, attempted: Running, file: Option<Config>) {
    && post.store == pre.store
    && post.running == attempted
    && post.file == (if pre.store == "" then (if env.rollbackRemove then None else file)
                     else if !env.rollbackWrite then file
                     else if pre.file.Some? then pre.file
                     else Some(Config(pre.store, env.rollbackStamp)))
  }

  ghost predicate Applied(pre: Resources, post: Resources, url: Option<string>, env: Env, attempts: nat,
        result: Result) {
    if url.None? then
      result == Err(InvalidSubscriptionURL) && post == pre
    else if ApplyError(env, attempts).None? then
      result == Ok
      && post == Resources(url.value, Some(Config(url.value, env.stamp)), Loaded(Config(url.value, env.stamp)))
    else if Untouched(env) then
      result == Err(ApplyError(env, attempts).value) && post == pre
    else if RollbackWorks(pre, env) then
      result == Err(ApplyError(env, attempts).value) && RolledBack(pre, post, env)
    else
      var configuration := Config(url.value, env.stamp);
      result == Err(RollbackFailed)
      && Stranded(pre, post, env, if env.reload then Loaded(configuration) else pre.running, Some(configuration))
  }

  ghost function ClearError(env: Env): Option<Error> {
    if !env.load || !env.readFile then Some(ConfigApplyFailed)
    else if !env.reload then Some(MihomoUnavailable)
    else if !env.remove || !env.clearStore then Some(ConfigApplyFailed)
    else None
  }

  ghost predicate Cleared(pre: Resources, post: Resources, env: Env, result: Result) {
    if ClearError(env).None? then result == Ok && post == Resources("", None, Base)
    else if !env.load || !env.readFile || !env.reload then result == Err(ClearError(env).value) && post == pre
    else if RollbackWorks(pre, env) then result == Err(ClearError(env).value) && RolledBack(pre, post, env)
    else result == Err(RollbackFailed) && Stranded(pre, post, env, Base, if env.remove then None else pre.file)
  }

  ghost function RestoreError(env: Env, attempts: nat): Option<Error> {
    if !env.write then Some(ConfigApplyFailed)
    else if !env.reload then Some(MihomoUnavailable)
    else if !BecomesReady(env, attempts) then Some(SubscriptionUnavailable)
    else if !env.test then Some(ProxyTestFailed)
    else None
  }

  /** A startup restore keeps the stored URL in every case; when it fails the base configuration
      runs instead, and the file is gone or holds the configuration of the stored URL. */
  ghost predicate Restored(pre: Resources, post: Resources, env: Env, attempts: nat, result: Result) {
    && post.store == pre.store
    && if !env.load then result == Err(StorageError) && post == pre
       else if pre.store == "" then result == Ok && post == pre
       else if RestoreError(env, attempts).None? then
         result == Ok && post.file == Some(Config(pre.store, env.stamp))
           && post.running == Loaded(Config(pre.store, env.stamp))
       else if !env.write then result == Err(RestoreError(env, attempts).value) && post == pre
       else
         && post.file == (if env.rollbackRemove then None else Some(Config(pre.store, env.stamp)))
         && if env.rollbackReload
            then result == Err(RestoreError(env, attempts).value) && post.running == Base
            else result == Err(RollbackFailed)
                 && post.running == if env.reload then Loaded(Config(pre.store, env.stamp)) else pre.running
  }

  // ---------- the service ----------

  class Service {
    var store: string
    var file: Option<Config>
    var running: Running
    var lastStatus: Status
    const attempts: nat

    constructor (attempts: nat)
      ensures this.attempts == attempts && View() == Resources("", None, Base)
      ensures lastStatus == Status("", false, 0, false)
    {
      this.attempts := attempts;
      store, file, running := "", None, Base;
      lastStatus := Status("", false, 0, false);
    }

    function View(): Resources
      reads this
    {
      Resources(store, file, running)
    }

    method Fail(configured: string, error: Error) returns (result: Result)
      modifies this`lastStatus
      ensures result == Err(error)
      ensures lastStatus == Status(configured, false, 0, true)
    {
      lastStatus := Status(configured, false, 0, true);
      return Err(error);
    }

    method WaitForGroup(env: Env) returns (ready: bool, nodes: nat)
      ensures ready <==> BecomesReady(env, attempts)
      ensures ready ==> nodes > 0 && exists i :: ReadyAt(env, attempts, i) && env.poll(i) == Nodes(nodes)
    {
      var attempt := 0;
      while attempt < attempts
        invariant attempt <= attempts
        invariant forall j :: 0 <= j < attempt ==> !Ready(env, j) && !env.cancelled(j)
      {
        if Ready(env, attempt) {
          assert ReadyAt(env, attempts, attempt);
          return true, env.poll(attempt).count;
        }
        if attempt + 1 == attempts { break; }
        if env.cancelled(attempt) {
          assert forall i: nat :: ReadyAt(env, attempts, i) ==> i <= attempt;
          return false, 0;
        }
        attempt := attempt + 1;
      }
      return false, 0;
    }

    /** Puts the previous configuration back; false when a call of the rollback fails. */
    method RestorePrevious(previous: string, previousFile: Option<Config>, env: Env) returns (ok: bool)
      modifies this`file, this`running
      ensures ok <==> (env.rollbackReload && (previous != "" ==> env.rollbackWrite))
      ensures previous != "" && ok ==>
                var config := if previousFile.Some? then previousFile.value else Config(previous, env.rollbackStamp);
                file == Some(config) && running == Loaded(config)
      ensures previous == "" ==> file == if env.rollbackRemove then None else old(file)
      ensures previous == "" && ok ==> running == Base
      ensures previous != "" && !env.rollbackWrite ==> file == old(file)
      ensures previous != "" && env.rollbackWrite ==>
                file == Some(if previousFile.Some? then previousFile.value else Config(previous, env.rollbackStamp))
      ensures !ok ==> running == old(running)
    {
      if previous != "" {
        var config := if previousFile.Some? then previousFile.value else Config(previous, env.rollbackStamp);
        if !env.rollbackWrite { return false; }
        file := Some(config);
        if !env.rollbackReload { return false; }
        running := Loaded(config);
        return true;
      }
      if env.rollbackRemove { file := None; }
      if !env.rollbackReload { return false; }
      running := Base;
      return true;
    }

    method RollbackFailure(previous: string, previousFile: Option<Config>, env: Env, root: Error)
      returns (result: Result)
      requires store == previous
      modifies this`file, this`running, this`lastStatus
      ensures RollbackWorks(Resources(previous, previousFile, Base), env) ==>
                result == Err(root) && RolledBack(Resources(previous, previousFile, Base), View(), env)
      ensures !RollbackWorks(Resources(previous, previousFile, Base), env) ==>
                result == Err(RollbackFailed)
                && Stranded(Resources(previous, previousFile, Base), View(), env, old(running), old(file))
      ensures lastStatus == Status(previous, false, 0, true)
    {
      var ok := RestorePrevious(previous, previousFile, env);
      if !ok {
        result := Fail(previous, RollbackFailed);
      } else {
        result := Fail(previous, root);
      }
    }

    /** `url` is what URL validation makes of the request: None when it is refused. */
    method Apply(url: Option<string>, env: Env) returns (result: Result)
      modifies this
      ensures Applied(old(View()), View(), url, env, attempts, result)
      ensures result.Ok? ==> ReportsReady(lastStatus, url.value, env, attempts)
      ensures result.Err? ==>
                lastStatus == Status(if url.None? || !env.load then "" else old(store), false, 0, true)
    {
      if url.None? {
        result := Fail("", InvalidSubscriptionURL);
        return;
      }
      if !env.load {
        result := Fail("", ConfigApplyFailed);
        return;
      }
      var previous := store;
      if !env.readFile {
        result := Fail(previous, ConfigApplyFailed);
        return;
      }
      var previousFile := file;
      var configuration := Config(url.value, env.stamp);
      if !env.write {
        result := Fail(previous, ConfigApplyFailed);
        return;
      }
      file := Some(configuration);
      if !env.reload {
        result := RollbackFailure(previous, previousFile, env, MihomoUnavailable);
        return;
      }
      running := Loaded(configuration);
      var ready, nodes := WaitForGroup(env);
      if !ready {
        result := RollbackFailure(previous, previousFile, env, SubscriptionUnavailable);
        return;
      }
      if !env.test {
        result := RollbackFailure(previous, previousFile, env, ProxyTestFailed);
        return;
      }
      if env.save != Saved {
        var root := if env.save == SaveFailedEncryption then EncryptionUnavailable else ConfigApplyFailed;
        result := RollbackFailure(previous, previousFile, env, root);
        return;
      }
      store := url.value;
      lastStatus := Status(url.value, true, nodes, false);
      return Ok;
    }

    method Clear(env: Env) returns (result: Result)
      modifies this
      ensures Cleared(old(View()), View(), env, result)
      ensures lastStatus == Status(if result.Ok? || !env.load then "" else old(store), false, 0, result.Err?)
    {
      if !env.load {
        result := Fail("", ConfigApplyFailed);
        return;
      }
      var previous := store;
      if !env.readFile {
        result := Fail(previous, ConfigApplyFailed);
        return;
      }
      var previousFile := file;
      if !env.reload {
        result := Fail(previous, MihomoUnavailable);
        return;
      }
      running := Base;
      if !env.remove {
        result := RollbackFailure(previous, previousFile, env, ConfigApplyFailed);
        return;
      }
      file := None;
      if !env.clearStore {
        result := RollbackFailure(previous, previousFile, env, ConfigApplyFailed);
        return;
      }
      store := "";
      lastStatus := Status("", false, 0, false);
      return Ok;
    }

    method RestoreStartupFailure(env: Env, root: Error) returns (result: Result)
      modifies this`file, this`running, this`lastStatus
      ensures file == if env.rollbackRemove then None else old(file)
      ensures env.rollbackReload ==> result == Err(root) && running == Base
      ensures !env.rollbackReload ==> result == Err(RollbackFailed) && running == old(running)
      ensures lastStatus == Status(store, false, 0, true)
    {
      var ok := RestorePrevious("", None, env);
      if !ok {
        result := Fail(store, RollbackFailed);
      } else {
        result := Fail(store, root);
      }
    }

    method Restore(env: Env) returns (result: Result)
      modifies this
      ensures Restored(old(View()), View(), env, attempts, result)
      ensures env.load && store != "" ==>
                if result.Ok? then ReportsReady(lastStatus, store, env, attempts)
                else lastStatus == Status(store, false, 0, true)
      ensures !env.load || store == "" ==> lastStatus == old(lastStatus)
    {
      if !env.load { return Err(StorageError); }
      if store == "" { return Ok; }
      var configuration := Config(store, env.stamp);
      if !env.write {
        result := Fail(store, ConfigApplyFailed);
        return;
      }
      file := Some(configuration);
      if !env.reload {
        result := RestoreStartupFailure(env, MihomoUnavailable);
        return;
      }
      running := Loaded(configuration);
      var ready, nodes := WaitForGroup(env);
      if !ready {
        result := RestoreStartupFailure(env, SubscriptionUnavailable);
        return;
      }
      if !env.test {
        result := RestoreStartupFailure(env, ProxyTestFailed);
        return;
      }
      lastStatus := Status(store, true, nodes, false);
      return Ok;
    }
  }

  // ---------- runs ----------

  datatype Operation =
    | Apply(url: Option<string>, env: Env)
    | Clear(env: Env)
    | Restore(env: Env)

  /** One operation takes the resources from `pre` to `post` and reports `result`. */
  ghost predicate Performs(pre: Resources, op: Operation, post: Resources, result: Result, attempts: nat) {
    match op
    case Apply(url, env) => Applied(pre, post, url, env, attempts, result)
    case Clear(env) => Cleared(pre, post, env, result)
    case Restore(env) => Restored(pre, post, env, attempts, result)
  }

  /** A refused URL never reaches the store, and URL validation never yields an empty one. */
  predicate Sensible(op: Operation) {
    op.Apply? && op.url.Some? ==> op.url.value != ""
  }

  /** The running configuration is the base one or was generated from the stored URL; a file
      beside a stored URL was generated from that URL. */
  predicate Consistent(r: Resources) {
    && (r.running.Loaded? ==> r.store != "" && r.running.config.url == r.store)
    && (r.store != "" && r.file.Some? ==> r.file.value.url == r.store)
  }

  /** The three resources agree: all of them name the stored URL, or nothing is stored and the
      base configuration runs. */
  predicate InStep(r: Resources) {
    if r.store == "" then r.running == Base
    else r.file.Some? && r.file.value.url == r.store && r.running == Loaded(r.file.value)
  }

  lemma OperationKeepsConsistent(pre: Resources, op: Operation, post: Resources, result: Result, attempts: nat)
    requires Consistent(pre) && Sensible(op) && Performs(pre, op, post, result, attempts)
    requires result != Err(RollbackFailed)
    ensures Consistent(post)
  {
  }

  /** A run: `states[i+1]` and `results[i]` are what `ops[i]` makes of `states[i]`. */
  ghost predicate IsRun(states: seq<Resources>, ops: seq<Operation>, results: seq<Result>, attempts: nat) {
    && |states| == |ops| + 1 && |results| == |ops|
    && (forall i :: 0 <= i < |ops| ==> Sensible(ops[i]))
    && (forall i :: 0 <= i < |ops| ==> Performs(states[i], ops[i], states[i + 1], results[i], attempts))
  }

  /** Over every run and every pattern of failing calls, the running configuration is base or
      generated from the stored URL for as long as no operation has reported a failed rollback. */
  lemma {:induction false} RunStaysConsistent(states: seq<Resources>, ops: seq<Operation>, results: seq<Result>,
        attempts: nat, n: nat)
    requires IsRun(states, ops, results, attempts) && Consistent(states[0])
    requires n <= |ops| && Err(RollbackFailed) !in results[..n]
    ensures Consistent(states[n])
  {
    if n > 0 {
      assert results[..n][n - 1] == results[n - 1];
      assert forall r :: r in results[..n - 1] ==> r in results[..n];
      RunStaysConsistent(states, ops, results, attempts, n - 1);
      OperationKeepsConsistent(states[n - 1], ops[n - 1], states[n], results[n - 1], attempts);
    }
  }

  /** All or nothing: an Apply that starts in step makes all three resources new or leaves the URL,
      the running configuration and (beside a stored URL) the file exactly as they were. */
  lemma ApplyIsAtomic(pre: Resources, url: Option<string>, env: Env, post: Resources, result: Result, attempts: nat)
    requires InStep(pre) && Applied(pre, post, url, env, attempts, result)
    ensures result == Ok ==>
              url.Some? && post.store == url.value && post.file == Some(Config(url.value, env.stamp))
              && post.running == Loaded(Config(url.value, env.stamp))
    ensures result.Err? && result.error != RollbackFailed ==>
              post.store == pre.store && post.running == pre.running && (pre.store != "" ==> post.file == pre.file)
  {
  }

  /** The same for Clear. */
  lemma ClearIsAtomic(pre: Resources, env: Env, post: Resources, result: Result, attempts: nat)
    requires InStep(pre) && Cleared(pre, post, env, result)
    ensures result == Ok ==> post == Resources("", None, Base)
    ensures result.Err? && result.error != RollbackFailed ==>
              post.store == pre.store && post.running == pre.running && (pre.store != "" ==> post.file == pre.file)
  {
  }

  /** Exactly when a rolled-back Apply restores the running configuration: when what ran before is
      what the rollback goes back to. It fails after a failed startup restore, where the base
      configuration runs beside a stored URL: the rollback then starts the stored subscription. */
  lemma RollbackRestoresRunningIff(pre: Resources, url: Option<string>, env: Env, post: Resources, attempts: nat,
        error: Error)
    requires Consistent(pre) && Applied(pre, post, url, env, attempts, Err(error))
    requires url.Some? && !Untouched(env) && error != RollbackFailed
    ensures post.running == pre.running <==>
              (pre.store == "" || (pre.running.Loaded?
                 && pre.running.config == if pre.file.Some? then pre.file.value
                      else Config(pre.store, env.rollbackStamp)))
  {
  }

  /** Success repairs everything, whatever earlier failed rollbacks left behind. */
  lemma SuccessRestoresStep(pre: Resources, op: Operation, post: Resources, attempts: nat)
    requires Sensible(op) && Performs(pre, op, post, Ok, attempts)
    requires op.Restore? && pre.store == "" ==> pre.running == Base
    ensures InStep(post)
  {
  }

  /** Exactly when a failed rollback of an Apply leaves the resources consistent. */
  lemma FailedRollbackConsistentIff(pre: Resources, url: string, env: Env, post: Resources, attempts: nat)
    requires Consistent(pre) && url != "" && Applied(pre, post, Some(url), env, attempts, Err(RollbackFailed))
    ensures Consistent(post) <==> (url == pre.store || (!env.reload && (pre.store == "" || env.rollbackWrite)))
  {
  }
}
