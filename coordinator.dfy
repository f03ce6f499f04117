/**
 * The coordinator of index.js: loading the configuration list, the
 * `WebpackMultithread` object with its list of worker handles, the event
 * handlers each launched worker is given, and the `runConfigs` retry loop.
 *
 * Worker threads, promises and `Promise.allSettled` are replaced by an
 * oracle: for every attempt, the sequence of events the launched workers
 * deliver, in the order they arrive.
 */
module Coordinator {
  import opened Wrappers
  import opened Configs
  import opened Partition

  /** Constructor defaults (index.js:8-9). */
  const DefaultCpus := 2
  const DefaultRetries := 3
  const DefaultWatchMode := true

  /** The constructor's option object; `None` is a missing (undefined) option. */
  datatype Options = Options(
    cpus: Option<int>,
    retries: Option<int>,
    watchMode: Option<bool>,
    watchOptions: Option<WatchOptions>)

  /** What `require(webpackConfig)` yields for the configuration path. */
  datatype Export =
    | ExportsArray(configs: seq<Config>)
    | ExportsOther
    | Unloadable(code: string)

  /** The three reasons `loadConfig` ends the process. */
  datatype LoadFailure = MissingPath | LoadError(code: string) | NotAnArray

  /**
   * `loadConfig` (index.js:25-54): an empty path is refused before anything
   * is loaded, a module that cannot be resolved or loaded ends the process
   * with its error code, and only an exported array is accepted.
   */
  function LoadConfig(webpackConfig: string, exported: Export): (r: Result<seq<Config>, LoadFailure>)
    ensures r.Success? <==> webpackConfig != "" && exported.ExportsArray?
    ensures r.Success? ==> r.value == exported.configs
    ensures webpackConfig == "" ==> r == Failure(MissingPath)
    ensures webpackConfig != "" && exported.Unloadable? ==> r == Failure(LoadError(exported.code))
    ensures webpackConfig != "" && exported.ExportsOther? ==> r == Failure(NotAnArray)
  {
    if webpackConfig == "" then Failure(MissingPath)
    else match exported
      case ExportsArray(configs) => Success(configs)
      case ExportsOther => Failure(NotAnArray)
      case Unloadable(code) => Failure(LoadError(code))
  }

  /** The state of the promise `executeConfigs` returns for one worker. */
  datatype Status = Pending | Resolved | Rejected

  /** What a launched worker can report, identified by its slot in the attempt. */
  datatype Event = Message(worker: nat) | Error(worker: nat) | Exit(worker: nat, code: int)

  /** Only an exit with code 1 counts as a failure (index.js:148). */
  predicate IsFailureExit(e: Event)
  {
    e.Exit? && e.code == 1
  }

  predicate AnyFailureExit(events: seq<Event>)
  {
    exists i :: 0 <= i < |events| && IsFailureExit(events[i])
  }

  /** Every event comes from one of the `n` workers of the attempt. */
  predicate EventsFrom(events: seq<Event>, n: nat)
  {
    forall i :: 0 <= i < |events| ==> events[i].worker < n
  }

  function AllPending(n: nat): (s: seq<Status>)
    ensures |s| == n && forall i :: 0 <= i < n ==> s[i] == Pending
  {
    seq(n, _ => Pending)
  }

  /**
   * The effect of one event on the promises (index.js:143-153): a message
   * resolves, an exit with code 1 rejects, and a promise that has settled
   * never changes again.
   */
  function Step(statuses: seq<Status>, e: Event): (r: seq<Status>)
    requires e.worker < |statuses|
    ensures |r| == |statuses|
    ensures forall i :: 0 <= i < |r| && i != e.worker ==> r[i] == statuses[i]
    ensures statuses[e.worker] != Pending ==> r == statuses
    ensures e.Error? || (e.Exit? && e.code != 1) ==> r == statuses
  {
    match e
    case Message(w) => if statuses[w] == Pending then statuses[w := Resolved] else statuses
    case Error(_) => statuses
    case Exit(w, code) => if code == 1 && statuses[w] == Pending then statuses[w := Rejected] else statuses
  }

  /** The promises after a sequence of events, applied in arrival order. */
  function Settle(statuses: seq<Status>, events: seq<Event>): (r: seq<Status>)
    requires EventsFrom(events, |statuses|)
    ensures |r| == |statuses|
  {
    if events == [] then statuses
    else Step(Settle(statuses, events[..|events| - 1]), events[|events| - 1])
  }

  /**
   * The reference account of one promise: the first event of its own worker
   * that is a message or an exit with code 1 decides it, for good.
   */
  function Fate(w: nat, events: seq<Event>): Status
  {
    if events == [] then Pending
    else if events[0] == Message(w) then Resolved
    else if events[0] == Exit(w, 1) then Rejected
    else Fate(w, events[1..])
  }

  lemma {:induction false} FateAppend(w: nat, events: seq<Event>, e: Event)
    ensures Fate(w, events + [e]) == if Fate(w, events) != Pending then Fate(w, events) else Fate(w, [e])
  {
    if events != [] {
      assert (events + [e])[0] == events[0];
      assert (events + [e])[1..] == events[1..] + [e];
      FateAppend(w, events[1..], e);
    }
  }

  /** Processing events one by one settles each promise as its `Fate` says. */
  lemma {:induction false} SettleIsFate(statuses: seq<Status>, events: seq<Event>, w: nat)
    requires EventsFrom(events, |statuses|) && w < |statuses|
    ensures Settle(statuses, events)[w] == if statuses[w] != Pending then statuses[w] else Fate(w, events)
  {
    if events != [] {
      var front, e := events[..|events| - 1], events[|events| - 1];
      assert events == front + [e];
      SettleIsFate(statuses, front, w);
      FateAppend(w, front, e);
    }
  }

  /**
   * A promise is still pending exactly when its worker neither sent a message
   * nor exited with code 1; it is rejected only if its worker exited with 1.
   */
  lemma {:induction false} FateCases(w: nat, events: seq<Event>)
    ensures Fate(w, events) == Pending <==> Message(w) !in events && Exit(w, 1) !in events
    ensures Fate(w, events) == Rejected ==> Exit(w, 1) in events
    ensures Fate(w, events) == Resolved ==> Message(w) in events
  {
    if events != [] {
      FateCases(w, events[1..]);
      assert events == [events[0]] + events[1..];
    }
  }

  /** What `Promise.allSettled` makes of an attempt's promises. */
  datatype AttemptOutcome = Stalled | Settled(anyRejected: bool)

  /**
   * `allSettled` waits for every promise, so one pending promise stalls the
   * attempt; otherwise the attempt fails iff some promise was rejected
   * (index.js:100-102).
   */
  function OutcomeOf(statuses: seq<Status>): (o: AttemptOutcome)
    ensures o == Stalled <==> exists i :: 0 <= i < |statuses| && statuses[i] == Pending
    ensures o == Settled(true) <==>
      (forall i :: 0 <= i < |statuses| ==> statuses[i] != Pending) &&
      (exists i :: 0 <= i < |statuses| && statuses[i] == Rejected)
  {
    if Pending in statuses then Stalled else Settled(Rejected in statuses)
  }

  /**
   * A failed attempt always saw some worker exit with code 1, whose handler
   * had already emptied the worker list before index.js:103 empties it again.
   */
  lemma FailedAttemptSawFailureExit(n: nat, events: seq<Event>)
    requires EventsFrom(events, n)
    requires OutcomeOf(Settle(AllPending(n), events)) == Settled(true)
    ensures AnyFailureExit(events)
  {
    var statuses := Settle(AllPending(n), events);
    var w :| 0 <= w < n && statuses[w] == Rejected;
    SettleIsFate(AllPending(n), events, w);
    FateCases(w, events);
    var i :| 0 <= i < |events| && events[i] == Exit(w, 1);
    assert IsFailureExit(events[i]);
  }

  /**
   * An attempt stalls exactly when some worker neither sent a message nor
   * exited with code 1 (a successful exit with code 0, say).
   */
  lemma StalledIffSilentWorker(n: nat, events: seq<Event>)
    requires EventsFrom(events, n)
    ensures OutcomeOf(Settle(AllPending(n), events)) == Stalled <==>
      exists w :: 0 <= w < n && Message(w) !in events && Exit(w, 1) !in events
  {
    var statuses := Settle(AllPending(n), events);
    forall w | 0 <= w < n
      ensures statuses[w] == Pending <==> Message(w) !in events && Exit(w, 1) !in events
    {
      SettleIsFate(AllPending(n), events, w);
      FateCases(w, events);
    }
  }

  /** Console lines of the coordinator, without colour or emoji. */
  datatype Line =
    | UsingCores(count: int)
    | RetryBuilding(retryCount: nat)
    | BuildingComplete
    | FailureEntireBuilding

  /**
   * How `runConfigs` ends: the attempts it started, and whether it finished.
   * `Hung` is an attempt whose `allSettled` never returns, so `runConfigs`
   * never resumes and logs neither final line.
   */
  datatype RunResult = Completed(attempts: nat) | GaveUp(attempts: nat) | Hung(attempts: nat)

  datatype Trace = Trace(result: RunResult, log: seq<Line>)

  /** The retry announcement that opens every attempt after the first (index.js:91-97). */
  function Announce(retryCount: nat): seq<Line>
  {
    if retryCount >= 1 then [RetryBuilding(retryCount)] else []
  }

  /**
   * `runConfigs(retryCount)` (index.js:83-110) as a recursive function of the
   * attempts' outcomes: past the retry budget it logs failure and returns,
   * otherwise it announces a retry (from the second attempt on), runs the
   * attempt, and goes on as `Conclusion` says.
   */
  function RunFrom(retries: int, outcomes: seq<AttemptOutcome>, retryCount: nat): (run: Trace)
    requires retries < |outcomes| && retryCount <= |outcomes|
    ensures retryCount <= run.result.attempts <= Max(retries + 1, retryCount)
    ensures forall j :: 0 <= j < |run.log| && run.log[j].RetryBuilding? ==>
      1 <= run.log[j].retryCount <= retries && retryCount <= run.log[j].retryCount
    decreases |outcomes| - retryCount, 1
  {
    if retryCount > retries then Trace(GaveUp(retryCount), [FailureEntireBuilding])
    else
      var rest := Conclusion(retries, outcomes, retryCount);
      Trace(rest.result, Announce(retryCount) + rest.log)
  }

  /**
   * What `runConfigs` does once `allSettled` returns for attempt `retryCount`
   * (index.js:102-109): a stalled attempt never gets there, a rejection runs
   * the next attempt, and otherwise the build is complete.
   */
  function Conclusion(retries: int, outcomes: seq<AttemptOutcome>, retryCount: nat): (run: Trace)
    requires retryCount <= retries < |outcomes|
    ensures retryCount + 1 <= run.result.attempts <= retries + 1
    ensures forall j :: 0 <= j < |run.log| && run.log[j].RetryBuilding? ==>
      retryCount + 1 <= run.log[j].retryCount <= retries
    decreases |outcomes| - retryCount, 0
  {
    match outcomes[retryCount]
    case Stalled => Trace(Hung(retryCount + 1), [])
    case Settled(rejected) =>
      if rejected then RunFrom(retries, outcomes, retryCount + 1)
      else Trace(Completed(retryCount + 1), [BuildingComplete])
  }

  lemma AppendAssoc<T>(a: seq<T>, b: seq<T>, c: seq<T>)
    ensures a + (b + c) == (a + b) + c
  {
  }

  /** The retry announcements for attempts `lo` through `hi`. */
  function Announcements(lo: nat, hi: int): (lines: seq<Line>)
    ensures |lines| == Max(hi - lo + 1, 0)
    decreases hi - lo
  {
    if lo > hi then [] else [RetryBuilding(lo)] + Announcements(lo + 1, hi)
  }

  /**
   * When every attempt fails, the run makes `retries + 1` attempts, announces
   * each retry, and ends by logging failure without raising.
   */
  lemma {:induction false} AllAttemptsFailFrom(retries: int, outcomes: seq<AttemptOutcome>, k: nat)
    requires retries < |outcomes| && 1 <= k <= retries + 1
    requires forall i :: 0 <= i < |outcomes| ==> outcomes[i] == Settled(true)
    ensures RunFrom(retries, outcomes, k) == Trace(GaveUp(retries + 1), Announcements(k, retries) + [FailureEntireBuilding])
    decreases retries + 1 - k
  {
    if k <= retries {
      AllAttemptsFailFrom(retries, outcomes, k + 1);
      assert Conclusion(retries, outcomes, k) == RunFrom(retries, outcomes, k + 1);
      AppendAssoc([RetryBuilding(k)], Announcements(k + 1, retries), [FailureEntireBuilding]);
    }
  }

  lemma AllAttemptsFail(retries: int, outcomes: seq<AttemptOutcome>)
    requires retries < |outcomes|
    requires forall i :: 0 <= i < |outcomes| ==> outcomes[i] == Settled(true)
    ensures RunFrom(retries, outcomes, 0) ==
      Trace(GaveUp(Max(retries + 1, 0)), Announcements(1, retries) + [FailureEntireBuilding])
  {
    if retries >= 0 {
      AllAttemptsFailFrom(retries, outcomes, 1);
      assert Conclusion(retries, outcomes, 0) == RunFrom(retries, outcomes, 1);
    }
  }

  /**
   * When attempt `k` (within the budget) is the first without a rejection,
   * the run makes exactly `k + 1` attempts, announces retries 1 to `k` and
   * reports completion.
   */
  lemma {:induction false} FirstSuccessFrom(retries: int, outcomes: seq<AttemptOutcome>, j: nat, k: nat)
    requires retries < |outcomes| && 1 <= j <= k <= retries
    requires outcomes[k] == Settled(false)
    requires forall i :: 0 <= i < k ==> outcomes[i] == Settled(true)
    ensures RunFrom(retries, outcomes, j) == Trace(Completed(k + 1), Announcements(j, k) + [BuildingComplete])
    decreases k - j
  {
    if j < k {
      FirstSuccessFrom(retries, outcomes, j + 1, k);
      assert Conclusion(retries, outcomes, j) == RunFrom(retries, outcomes, j + 1);
      AppendAssoc([RetryBuilding(j)], Announcements(j + 1, k), [BuildingComplete]);
    } else {
      assert Announcements(j, k) == [RetryBuilding(k)];
    }
  }

  lemma FirstSuccess(retries: int, outcomes: seq<AttemptOutcome>, k: nat)
    requires retries < |outcomes| && k <= retries
    requires outcomes[k] == Settled(false)
    requires forall i :: 0 <= i < k ==> outcomes[i] == Settled(true)
    ensures RunFrom(retries, outcomes, 0) == Trace(Completed(k + 1), Announcements(1, k) + [BuildingComplete])
  {
    if k >= 1 {
      FirstSuccessFrom(retries, outcomes, 1, k);
      assert Conclusion(retries, outcomes, 0) == RunFrom(retries, outcomes, 1);
    }
  }

  /** With the default budget of three retries and every attempt failing: four attempts. */
  lemma DefaultBudgetAllFail()
    ensures var failing := [Settled(true), Settled(true), Settled(true), Settled(true)];
      RunFrom(DefaultRetries, failing, 0) ==
        Trace(GaveUp(4), [RetryBuilding(1), RetryBuilding(2), RetryBuilding(3), FailureEntireBuilding])
  {
    var failing := [Settled(true), Settled(true), Settled(true), Settled(true)];
    AllAttemptsFail(DefaultRetries, failing);
    assert Announcements(1, 3) == [RetryBuilding(1), RetryBuilding(2), RetryBuilding(3)];
  }

  /**
   * What the workers of a batch attempt report, as worker.js is written:
   * no worker posts a message, and a clean build lets the thread end with
   * exit code 0. That a failed build ends its thread with exit code 1 is an
   * assumption about the bundler: that the throw of worker.js:74 inside a
   * `done` hook escapes as an uncaught exception.
   */
  function AsWrittenEvents(built: seq<bool>): (events: seq<Event>)
    ensures EventsFrom(events, |built|)
    ensures forall w :: 0 <= w < |built| ==> Message(w) !in events
    ensures forall w :: 0 <= w < |built| ==> (Exit(w, 1) in events <==> !built[w])
  {
    var events := seq(|built|, i requires 0 <= i < |built| => Exit(i, if built[i] then 0 else 1));
    assert forall w :: 0 <= w < |built| && !built[w] ==> events[w] == Exit(w, 1);
    events
  }

  /**
   * What the workers report when a clean build posts a completion message
   * before its thread exits, as the coordinator's `"message"` handler expects.
   */
  function SignalledEvents(built: seq<bool>): (events: seq<Event>)
    ensures EventsFrom(events, |built|)
    ensures forall w :: 0 <= w < |built| ==> (Message(w) in events <==> built[w])
    ensures forall w :: 0 <= w < |built| ==> (Exit(w, 1) in events <==> !built[w])
  {
    if built == [] then []
    else
      var last := |built| - 1;
      var front := SignalledEvents(built[..last]);
      var tail := if built[last] then [Message(last), Exit(last, 0)] else [Exit(last, 1)];
      assert forall i :: 0 <= i < |front| ==> front[i].worker < last;
      front + tail
  }

  /** A promise whose worker's events are known settles accordingly. */
  lemma PromiseOfWorker(n: nat, events: seq<Event>, w: nat)
    requires EventsFrom(events, n) && w < n
    ensures Message(w) !in events && Exit(w, 1) !in events ==> Settle(AllPending(n), events)[w] == Pending
    ensures Message(w) in events && Exit(w, 1) !in events ==> Settle(AllPending(n), events)[w] == Resolved
    ensures Message(w) !in events && Exit(w, 1) in events ==> Settle(AllPending(n), events)[w] == Rejected
  {
    SettleIsFate(AllPending(n), events, w);
    FateCases(w, events);
  }

  /** As written, an attempt whose builds are all clean never settles. */
  lemma AsWrittenCleanAttemptStalls(n: nat)
    requires n >= 1
    ensures OutcomeOf(Settle(AllPending(n), AsWrittenEvents(seq(n, _ => true)))) == Stalled
  {
    PromiseOfWorker(n, AsWrittenEvents(seq(n, _ => true)), 0);
  }

  /**
   * With a completion message, an attempt fails exactly when some worker's
   * build failed.
   */
  lemma SignalledAttempt(built: seq<bool>)
    ensures OutcomeOf(Settle(AllPending(|built|), SignalledEvents(built))) ==
      Settled(exists w :: 0 <= w < |built| && !built[w])
  {
    var events := SignalledEvents(built);
    var statuses := Settle(AllPending(|built|), events);
    forall w | 0 <= w < |built|
      ensures statuses[w] == if built[w] then Resolved else Rejected
    {
      PromiseOfWorker(|built|, events, w);
    }
    OutcomeOfBuilt(statuses, built);
  }

  lemma OutcomeOfBuilt(statuses: seq<Status>, built: seq<bool>)
    requires |statuses| == |built|
    requires forall w :: 0 <= w < |built| ==> statuses[w] == if built[w] then Resolved else Rejected
    ensures OutcomeOf(statuses) == Settled(exists w :: 0 <= w < |built| && !built[w])
  {
    assert Pending !in statuses;
    if w :| 0 <= w < |built| && !built[w] {
      assert statuses[w] == Rejected;
    } else {
      assert Rejected !in statuses;
    }
  }

  /**
   * As written, a batch run whose first attempt builds cleanly on one or more
   * workers never resumes after `allSettled` and never logs completion.
   */
  lemma AsWrittenCleanRunHangs(retries: int, outcomes: seq<AttemptOutcome>, n: nat)
    requires 0 <= retries < |outcomes| && n >= 1
    requires outcomes[0] == OutcomeOf(Settle(AllPending(n), AsWrittenEvents(seq(n, _ => true))))
    ensures RunFrom(retries, outcomes, 0) == Trace(Hung(1), [])
  {
    AsWrittenCleanAttemptStalls(n);
  }

  /** With a completion message, a clean first attempt completes the run at once. */
  lemma SignalledCleanRunCompletes(retries: int, outcomes: seq<AttemptOutcome>, n: nat)
    requires 0 <= retries < |outcomes|
    requires outcomes[0] == OutcomeOf(Settle(AllPending(n), SignalledEvents(seq(n, _ => true))))
    ensures RunFrom(retries, outcomes, 0) == Trace(Completed(1), [BuildingComplete])
  {
    SignalledAttempt(seq(n, _ => true));
  }

  /** A live worker: the attempt and slot it was launched in, and its `workerData`. */
  datatype Handle = Handle(attempt: nat, slot: nat, data: WorkerData)

  /** The `WebpackMultithread` object (index.js:6-155). */
  class WebpackMultithread {
    const retries: int
    const watchMode: bool
    const watchOptions: WatchOptions
    const webpackConfig: string
    const configs: seq<Config>
    const configsIds: seq<nat>
    const configsPerCpu: int

    /** `this.workers`: the handles of the live workers. */
    var workers: seq<Handle>
    /** The promises of the attempt in flight, by worker slot. */
    var promises: seq<Status>
    /** The number of the attempt in flight, which tags the handles it launches. */
    var attempt: nat
    /** Every `worker.terminate()` call so far, in order. */
    var terminated: seq<Handle>
    /** The coordinator's console lines so far. */
    var log: seq<Line>

    /**
     * The constructor (index.js:7-23) once `loadConfig` has returned: options
     * take their defaults, the ids are the configurations' positions, and the
     * worker count is the clamped CPU request.
     */
    constructor (webpackConfig: string, configs: seq<Config>, options: Options, systemCpus: nat)
      ensures this.webpackConfig == webpackConfig && this.configs == configs
      ensures retries == options.retries.GetOr(DefaultRetries)
      ensures watchMode == options.watchMode.GetOr(DefaultWatchMode)
      ensures watchOptions == options.watchOptions.GetOr(map[])
      ensures configsIds == ConfigsIds(configs)
      ensures configsPerCpu ==
        CalculateCpus(|configs|, CalculateAvailableCpus(options.cpus.GetOr(DefaultCpus), systemCpus))
      ensures workers == [] && promises == [] && terminated == [] && log == [] && attempt == 0
    {
      this.retries := options.retries.GetOr(DefaultRetries);
      this.watchMode := options.watchMode.GetOr(DefaultWatchMode);
      this.watchOptions := options.watchOptions.GetOr(map[]);
      this.webpackConfig := webpackConfig;
      this.configs := configs;
      this.configsIds := ConfigsIds(configs);
      this.configsPerCpu :=
        CalculateCpus(|configs|, CalculateAvailableCpus(options.cpus.GetOr(DefaultCpus), systemCpus));
      workers, promises, terminated, log, attempt := [], [], [], [], 0;
    }

    /**
     * `new WebpackMultithread(...)`: a failed `loadConfig` ends the process
     * before any object exists, so no worker is ever launched.
     */
    static method Create(webpackConfig: string, exported: Export, options: Options, systemCpus: nat)
      returns (r: Result<WebpackMultithread, LoadFailure>)
      ensures r.Failure? <==> LoadConfig(webpackConfig, exported).Failure?
      ensures r.Failure? ==> r.error == LoadConfig(webpackConfig, exported).error
      ensures r.Success? ==> fresh(r.value) && r.value.configs == exported.configs
      ensures r.Success? ==> r.value.webpackConfig == webpackConfig
      ensures r.Success? ==>
        r.value.retries == options.retries.GetOr(DefaultRetries) &&
        r.value.watchMode == options.watchMode.GetOr(DefaultWatchMode) &&
        r.value.watchOptions == options.watchOptions.GetOr(map[])
      ensures r.Success? ==>
        r.value.configsIds == ConfigsIds(exported.configs) &&
        r.value.configsPerCpu ==
          CalculateCpus(|exported.configs|, CalculateAvailableCpus(options.cpus.GetOr(DefaultCpus), systemCpus))
      ensures r.Success? ==>
        r.value.workers == [] && r.value.promises == [] && r.value.terminated == [] &&
        r.value.log == [] && r.value.attempt == 0
    {
      var loaded := LoadConfig(webpackConfig, exported);
      if loaded.Failure? {
        return Failure(loaded.error);
      }
      var c := new WebpackMultithread(webpackConfig, loaded.value, options, systemCpus);
      return Success(c);
    }

    /** The chunk of ids of each worker of an attempt (index.js:122). */
    function Chunks(): (chunks: seq<seq<nat>>)
      ensures |chunks| == Max(configsPerCpu, 0)
    {
      ChunkIntoN(configsIds, configsPerCpu)
    }

    function WorkerDataFor(ids: seq<nat>): WorkerData
    {
      WorkerData(webpackConfig, ids, watchMode, watchOptions)
    }

    /** The handles one attempt launches: one per chunk, empty chunks included. */
    function Launched(attempt: nat): seq<Handle>
    {
      seq(|Chunks()|, i requires 0 <= i < |Chunks()| => Handle(attempt, i, WorkerDataFor(Chunks()[i])))
    }

    /** The outcome of an attempt whose workers deliver `events`. */
    function AttemptOf(events: seq<Event>): AttemptOutcome
      requires EventsFrom(events, |Chunks()|)
    {
      OutcomeOf(Settle(AllPending(|Chunks()|), events))
    }

    function Outcomes(oracle: seq<seq<Event>>): (outcomes: seq<AttemptOutcome>)
      requires forall k :: 0 <= k < |oracle| ==> EventsFrom(oracle[k], |Chunks()|)
      ensures |outcomes| == |oracle|
    {
      seq(|oracle|, k requires 0 <= k < |oracle| => AttemptOf(oracle[k]))
    }

    /** The launch half of `executeConfigs` (index.js:136-141): a new handle and a pending promise. */
    method ExecuteConfigs(ids: seq<nat>)
      modifies this`workers, this`promises
      ensures workers == old(workers) + [Handle(attempt, |old(promises)|, WorkerDataFor(ids))]
      ensures promises == old(promises) + [Pending]
    {
      workers := workers + [Handle(attempt, |promises|, WorkerDataFor(ids))];
      promises := promises + [Pending];
    }

    /** `createWorkersArray` (index.js:119-134): one launch per chunk, in order. */
    method CreateWorkersArray()
      modifies this`workers, this`promises
      ensures promises == AllPending(|Chunks()|)
      ensures workers == old(workers) + Launched(attempt)
    {
      promises := [];
      var chunks := Chunks();
      for i := 0 to |chunks|
        invariant promises == AllPending(i)
        invariant workers == old(workers) + Launched(attempt)[..i]
      {
        ExecuteConfigs(chunks[i]);
        assert Launched(attempt)[..i + 1] == Launched(attempt)[..i] + [Launched(attempt)[i]];
      }
      assert Launched(attempt)[..|chunks|] == Launched(attempt);
    }

    /** The `"message"` handler (index.js:143): resolve. */
    method OnMessage(slot: nat)
      requires slot < |promises|
      modifies this`promises
      ensures promises == Step(old(promises), Message(slot))
    {
      if promises[slot] == Pending {
        promises := promises[slot := Resolved];
      }
    }

    /**
     * The `"exit"` handler (index.js:147-153): code 1 terminates every live
     * worker, empties the list and rejects; any other code does nothing.
     */
    method OnExit(slot: nat, code: int)
      requires slot < |promises|
      modifies this`workers, this`promises, this`terminated
      ensures promises == Step(old(promises), Exit(slot, code))
      ensures code == 1 ==> workers == [] && terminated == old(terminated) + old(workers)
      ensures code != 1 ==> workers == old(workers) && terminated == old(terminated)
    {
      if code == 1 {
        for k := 0 to |workers|
          invariant workers == old(workers) && promises == old(promises)
          invariant terminated == old(terminated) + workers[..k]
        {
          terminated := terminated + [workers[k]];
        }
        assert workers[..|workers|] == workers;
        workers := [];
        if promises[slot] == Pending {
          promises := promises[slot := Rejected];
        }
      }
    }

    /** Deliver one event to the handlers of its worker; `"error"` only logs (index.js:144-146). */
    method Deliver(e: Event)
      requires e.worker < |promises|
      modifies this`workers, this`promises, this`terminated
      ensures promises == Step(old(promises), e)
      ensures IsFailureExit(e) ==> workers == [] && terminated == old(terminated) + old(workers)
      ensures !IsFailureExit(e) ==> workers == old(workers) && terminated == old(terminated)
    {
      match e
      case Message(w) => OnMessage(w);
      case Error(_) =>
      case Exit(w, code) => OnExit(w, code);
    }

    /**
     * One attempt (index.js:99-100): launch the workers, deliver the events,
     * and settle. The first exit with code 1 terminates every live worker,
     * those of earlier runs included, and leaves the list empty.
     */
    method RunAttempt(events: seq<Event>) returns (outcome: AttemptOutcome)
      requires EventsFrom(events, |Chunks()|)
      modifies this`workers, this`promises, this`terminated
      ensures promises == Settle(AllPending(|Chunks()|), events)
      ensures outcome == AttemptOf(events)
      ensures AnyFailureExit(events) ==>
        workers == [] && terminated == old(terminated) + old(workers) + Launched(attempt)
      ensures !AnyFailureExit(events) ==>
        workers == old(workers) + Launched(attempt) && terminated == old(terminated)
    {
      CreateWorkersArray();
      ghost var launched := old(workers) + Launched(attempt);
      for i := 0 to |events|
        invariant |promises| == |Chunks()|
        invariant promises == Settle(AllPending(|Chunks()|), events[..i])
        invariant AnyFailureExit(events[..i]) ==>
          workers == [] && terminated == old(terminated) + launched
        invariant !AnyFailureExit(events[..i]) ==>
          workers == launched && terminated == old(terminated)
      {
        assert events[..i + 1][..i] == events[..i];
        assert AnyFailureExit(events[..i + 1]) <==> AnyFailureExit(events[..i]) || IsFailureExit(events[i]) by {
          if AnyFailureExit(events[..i + 1]) && !IsFailureExit(events[i]) {
            var j :| 0 <= j < i + 1 && IsFailureExit(events[..i + 1][j]);
            assert events[..i][j] == events[..i + 1][j];
          }
          if AnyFailureExit(events[..i]) {
            var j :| 0 <= j < i && IsFailureExit(events[..i][j]);
            assert events[..i + 1][j] == events[..i][j];
          }
          if IsFailureExit(events[i]) {
            assert events[..i + 1][i] == events[i];
          }
        }
        Deliver(events[i]);
      }
      assert events[..|events|] == events;
      outcome := OutcomeOf(promises);
    }

    /**
     * `runConfigs(retryCount)` (index.js:83-110), recursive as in the source,
     * given the events of every attempt it may start: past the budget it
     * logs failure, otherwise it announces the retry, runs the attempt and
     * concludes it.
     */
    method RunConfigs(oracle: seq<seq<Event>>, retryCount: nat) returns (result: RunResult)
      requires retries < |oracle| && retryCount <= |oracle|
      requires forall k :: 0 <= k < |oracle| ==> EventsFrom(oracle[k], |Chunks()|)
      requires retryCount >= 1 ==> workers == []
      modifies this`workers, this`promises, this`terminated, this`attempt, this`log
      ensures result == RunFrom(retries, Outcomes(oracle), retryCount).result
      ensures log == old(log) + RunFrom(retries, Outcomes(oracle), retryCount).log
      ensures retryCount > retries ==> workers == old(workers)
      ensures result.GaveUp? && retryCount <= retries ==> workers == []
      decreases |oracle| - retryCount, 1
    {
      if retryCount > retries {
        log := log + [FailureEntireBuilding];
        return GaveUp(retryCount);
      }
      if retryCount >= 1 {
        log := log + [RetryBuilding(retryCount)];
      }
      attempt := retryCount;
      var outcome := RunAttempt(oracle[retryCount]);
      result := Conclude(oracle, retryCount, outcome);
      AppendAssoc(old(log), Announce(retryCount), Conclusion(retries, Outcomes(oracle), retryCount).log);
    }

    /**
     * The rest of `runConfigs` once `allSettled` returns (index.js:102-109):
     * on a rejection it empties the worker list and runs the next attempt,
     * otherwise it logs completion.
     */
    method Conclude(oracle: seq<seq<Event>>, retryCount: nat, outcome: AttemptOutcome) returns (result: RunResult)
      requires retryCount <= retries < |oracle|
      requires forall k :: 0 <= k < |oracle| ==> EventsFrom(oracle[k], |Chunks()|)
      requires outcome == AttemptOf(oracle[retryCount])
      modifies this`workers, this`promises, this`terminated, this`attempt, this`log
      ensures result == Conclusion(retries, Outcomes(oracle), retryCount).result
      ensures log == old(log) + Conclusion(retries, Outcomes(oracle), retryCount).log
      ensures result.GaveUp? ==> workers == []
      decreases |oracle| - retryCount, 0
    {
      assert Outcomes(oracle)[retryCount] == outcome;
      if outcome.Stalled? {
        return Hung(retryCount + 1);
      }
      if !outcome.anyRejected {
        log := log + [BuildingComplete];
        return Completed(retryCount + 1);
      }
      workers := [];
      result := RunConfigs(oracle, retryCount + 1);
    }

    /** `run` (index.js:72-81): announce the worker count, then run the attempts from the first. */
    method Run(oracle: seq<seq<Event>>) returns (result: RunResult)
      requires retries < |oracle|
      requires forall k :: 0 <= k < |oracle| ==> EventsFrom(oracle[k], |Chunks()|)
      modifies this`workers, this`promises, this`terminated, this`attempt, this`log
      ensures result == RunFrom(retries, Outcomes(oracle), 0).result
      ensures log == old(log) + [UsingCores(configsPerCpu)] + RunFrom(retries, Outcomes(oracle), 0).log
    {
      log := log + [UsingCores(configsPerCpu)];
      result := RunConfigs(oracle, 0);
    }
  }
}
