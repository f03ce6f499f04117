# webpack-multithread, modelled in Dafny

webpack-multithread builds a list of webpack configurations in parallel. The
coordinator (`index.js`) loads the configuration list. It clamps the requested
CPU count, cuts the configuration indices into one contiguous chunk per
worker, and launches one worker thread per chunk. It then waits for every
worker's promise to settle and reruns the whole attempt while any promise was
rejected and retries remain. The worker script (`worker.js`) picks its assigned
configurations and their display names. It drives either a multi-compiler or a
single compiler, in batch or watch mode, and decides what each finished
compilation means: throw, complete, or only report.

Files:

- `wrappers.dfy`: `Option` (a value that may be `undefined`) and `Result` (a
  value or what was thrown or why the process ended).
- `configs.dfy`: configurations, their `entry` shapes, and the `workerData` a
  worker starts with.
- `partition.dfy`: the coordinator's pure arithmetic: `chunkIntoN`, the two
  CPU clamps, and `configsIds`.
- `coordinator.dfy`: `loadConfig`, and the `WebpackMultithread` class with its
  `workers` list, the event handlers of each launched worker, and the
  recursive `runConfigs` retries. The methods `RunConfigs` and `Conclude` are
  proved against `RunFrom` and `Conclusion`, two functions of the attempts'
  outcomes that recurse the same way.
- `worker.js` is modelled in `worker.dfy`: `getConfigName`,
  `grabConfigurations`, `onCompilationDone`, `runCallback`, and the compiler
  and mode dispatch.

Threads and promises are replaced by an oracle. For each attempt, the model
takes the sequence of events (`message`, `error`, `exit` with a code) that the
launched workers deliver, in arrival order. A promise is settled by the first
event of its own worker that resolves or rejects it. `Promise.allSettled`
never returns while a promise is pending. The model reports that case as
`Hung`: `runConfigs` never resumes past `allSettled`, so neither final line is
logged. In watch mode the live workers keep the process running. In batch
mode Node ends the process, with status 0, once the last worker has exited.

Behaviours of the code worth noting:

- The default `cpus` is 2 (index.js:9).
- Only exit code 1 rejects (index.js:148). An `error` event only logs.
- Empty chunks are launched as workers too (index.js:122).
- An empty configuration array is accepted (index.js:36). It gives zero
  workers (index.js:114) and an immediate "Building complete" (index.js:100-107).
- A negative `cpus` gives zero workers as well, because `Array.from` with a
  negative length yields `[]` (index.js:114).
- In batch mode, the multi-compiler's `done` hooks also ask
  `onCompilationDone` to throw (worker.js:130), just like the single compiler.

## Model

| member | source | states |
|---|---|---|
| Partition.CeilDiv | index.js:113 | the chunk size is the least `q` with `q * n >= total` |
| Partition.Slice | index.js:115 | `slice` clamps both bounds to the length: the result is `arr[start..]` up to `end` or the end, and empty past the end |
| Partition.ChunkIntoN | index.js:112-117 | no chunks for a count of 0 or less; otherwise exactly `n` chunks, each at most `ceil(len/n)` long, with chunk `i` holding the items from position `i * size` on |
| Partition.ChunkExtent | index.js:113-116 | chunk `i` is exactly `arr[i*size .. min((i+1)*size, len)]`, and empty once `i*size` reaches the length |
| Partition.FlattenPrefix | index.js:112-117 | the first `k` chunks concatenate to the first `min(k*size, len)` items |
| Partition.ChunksConcatenate | index.js:112-117 | with `n >= 1`, the chunks concatenated in order give back the input: nothing is lost, duplicated or reordered |
| Partition.ChunkOfItem | index.js:113-116 | item `j` lies in chunk `j / size` at offset `j % size`, and that chunk exists |
| Partition.EmptyChunksTrail | index.js:113-116 | once a chunk is empty, every later chunk is empty |
| Partition.EarlierChunksAreFull | index.js:113-116 | every chunk before a non-empty chunk has the full size |
| Partition.FiveOverFour | index.js:112-117 | 5 items over 4 workers give `[0,1],[2,3],[4],[]` |
| Partition.ConfigsIds | index.js:16 | the ids are exactly `0, 1, …, len-1` |
| Partition.IdsPartition | index.js:112-117 | configuration index `j` is in chunk `c` iff `j` is a valid index and `j / size == c`, so each index is in exactly one chunk |
| Partition.CalculateAvailableCpus | index.js:56-62 | never above the system CPU count; 0 means all system CPUs; any other request is capped at the system count (the minimum of the two) |
| Partition.CalculateCpus | index.js:64-70 | the minimum of the configuration count and the available CPUs |
| Partition.ParallelismBounds | index.js:17-20 | the worker count never exceeds the system CPUs or the configuration count; it is at least 1 when all three inputs are; a negative request passes through |
| Partition.FiveConfigsOnTwoCpus | index.js:9-20 | 5 configurations with the default of 2 CPUs give chunks `[0,1,2]` and `[3,4]` |
| Coordinator.LoadConfig | index.js:25-54 | an empty path ends the process first; a module that cannot be loaded ends it with its error code; a non-array ends it; only an exported array is returned, unchanged |
| Coordinator.Step | index.js:143-153 | an event changes only its own worker's promise; a settled promise never changes; an `error` event or an exit code other than 1 changes nothing |
| Coordinator.Settle | index.js:143-153 | applying the events in arrival order keeps exactly one promise per launched worker; what each promise becomes is stated by SettleIsFate |
| Coordinator.SettleIsFate | index.js:143-153 | after any event sequence, each pending promise is settled by the first `message` (resolve) or exit-1 (reject) event of its own worker |
| Coordinator.FateCases | index.js:143-153 | a promise stays pending iff its worker sent neither a message nor exit code 1; it is rejected only if that worker exited with code 1 |
| Coordinator.OutcomeOf | index.js:100-102 | an attempt stalls iff some promise is pending; otherwise it fails iff some promise was rejected |
| Coordinator.FailedAttemptSawFailureExit | index.js:102-103 | a failed attempt always saw some worker exit with code 1 |
| Coordinator.StalledIffSilentWorker | index.js:100 | an attempt stalls iff some worker neither sent a message nor exited with code 1 |
| Coordinator.RunFrom | index.js:83-110 | the attempts made are at least `retryCount` and at most `max(retries+1, retryCount)`; retries are announced only for counts between 1 and `retries` |
| Coordinator.Conclusion | index.js:102-109 | once attempt `k` settles, the run ends after between `k + 1` and `retries + 1` attempts in all, and any later retry it announces is numbered from `k + 1` to `retries` |
| Coordinator.AllAttemptsFailFrom | index.js:83-110 | if every attempt fails from attempt `k >= 1` on, the run gives up after `retries + 1` attempts, having announced retries `k` to `retries` and then logged failure |
| Coordinator.AllAttemptsFail | index.js:83-110 | if every attempt fails, the run makes exactly `retries + 1` attempts (none for a negative budget), announces retries 1 to `retries`, logs failure and returns without throwing |
| Coordinator.FirstSuccessFrom | index.js:83-110 | from attempt `j >= 1`, a first success at attempt `k` gives `k + 1` attempts, retries `j` to `k` announced, then completion |
| Coordinator.FirstSuccess | index.js:83-110 | if attempt `k <= retries` is the first without a rejection, exactly `k + 1` attempts run, retries 1 to `k` are announced, and completion is logged |
| Coordinator.DefaultBudgetAllFail | index.js:9 | with the default 3 retries and four failing attempts: 4 attempts, 3 retry announcements, then failure |
| Coordinator.AsWrittenEvents | worker.js:169-180 | as written, no worker posts a message; assuming a failed build's throw ends its thread (see "## Left out"), a worker exits with code 1 iff its build failed |
| Coordinator.SignalledEvents | worker.js:169-180 | with a completion message, a worker sends a message iff its build was clean, and exits with code 1 iff it failed |
| Coordinator.PromiseOfWorker | index.js:143-153 | no message and no exit 1 leaves the promise pending; only a message resolves it; only an exit 1 rejects it |
| Coordinator.AsWrittenCleanAttemptStalls | index.js:100 | as written, an attempt whose builds are all clean never settles |
| Coordinator.SignalledAttempt | index.js:100-102 | with completion messages, an attempt fails iff some worker's build failed |
| Coordinator.AsWrittenCleanRunHangs | index.js:99-109 | as written, a batch run whose first attempt builds cleanly never logs completion |
| Coordinator.SignalledCleanRunCompletes | index.js:99-109 | with completion messages, a clean first attempt completes the run after one attempt, logging only completion |
| Coordinator.WebpackMultithread.constructor | index.js:7-23 | options take their defaults (cpus 2, retries 3, watch mode on, empty watch options); the ids are the positions; the worker count is the clamped request; no workers yet |
| Coordinator.WebpackMultithread.Create | index.js:7-23 | if loading fails, the process ends with that failure and no object (and so no worker) exists; otherwise a fresh object holds the path and the exported list, the retries, watch mode and watch options with their defaults (3, `true`, `{}`), the ids `0..len-1`, the clamped worker count (default 2 CPUs), and empty worker, promise, termination and log lists |
| Coordinator.WebpackMultithread.Chunks | index.js:122 | one chunk per worker; none when the worker count is 0 or less |
| Coordinator.WebpackMultithread.ExecuteConfigs | index.js:136-141 | a launch appends one handle carrying the chunk's `workerData` and adds one pending promise; nothing else changes |
| Coordinator.WebpackMultithread.CreateWorkersArray | index.js:119-134 | one worker per chunk, empty chunks included, in chunk order, each with its chunk's ids; every promise starts pending |
| Coordinator.WebpackMultithread.OnMessage | index.js:143 | a message resolves its worker's promise if it is still pending |
| Coordinator.WebpackMultithread.OnExit | index.js:147-153 | exit code 1 terminates every tracked worker in order, empties the list, and rejects that worker's promise; other codes change nothing |
| Coordinator.WebpackMultithread.Deliver | index.js:143-153 | each event goes to its worker's handlers; only an exit with code 1 touches the worker list |
| Coordinator.WebpackMultithread.RunAttempt | index.js:99-100 | the promises end as Settle says; if some worker exited with 1, every tracked worker was terminated and the list is empty, otherwise the list holds the previous handles plus this attempt's |
| Coordinator.WebpackMultithread.RunConfigs | index.js:83-110 | from attempt `retryCount` on, the result and the appended log lines are exactly those of RunFrom; every retry starts with an empty worker list (a precondition that `Conclude` establishes); past the budget it leaves the worker list alone; if it gives up after running an attempt, the worker list is empty |
| Coordinator.WebpackMultithread.Conclude | index.js:102-109 | the result and the appended log lines are exactly those of Conclusion for the settled attempt; giving up leaves the worker list empty |
| Coordinator.WebpackMultithread.Run | index.js:72-81 | logs the worker count, then runs the attempts from the first one as RunFrom says |
| Worker.GetConfigName | worker.js:13 | the name is the entry's first own key: an object's first key, `"0"` for a non-empty string or array entry, `undefined` when there is no key; a missing configuration or entry throws a TypeError |
| Worker.Lookup | worker.js:19-20 | `config[id]` is defined iff `id` is in range |
| Worker.GrabConfigurations | worker.js:15-24 | succeeds iff every id is in range and has an entry; then both lists have one element per id, `configs[i] == config[ids[i]]` in id order, and `names[i]` is that configuration's name; otherwise a TypeError |
| Worker.OnCompilationDone | worker.js:57-79 | completes (calls `onCompleate` once) iff there are no errors; throws iff there are errors and throwing was asked for (or the error list is empty); reports the configuration and the first error's message |
| Worker.RunCallback | worker.js:26-55 | with a fatal error, prints only its stack (or the error itself) and its details, then returns before looking at stats; otherwise closes the compiler on errors and prints one line per warning, in order, each the warning's message if truthy, else the warning itself |
| Worker.Dispatch | worker.js:190-217 | the multi-compiler is used iff there is more than one id, over all the configurations and names; otherwise the single compiler gets the first configuration and name (possibly `undefined`); the mode is kept |
| Worker.DoneHook | worker.js:99-180 | in batch mode a build with errors always throws; in watch mode a reported error never throws; in both modes the completion callback runs iff there are no errors |
| Worker.WatchRunHook | worker.js:103-109 | a rebuild line is produced iff in watch mode, naming that compiler's configuration |
| Worker.StartLines | worker.js:193-214 | one start line per configuration name for the multi-compiler, a single one otherwise, each saying watching or building |
| Worker.WorkerMain | worker.js:184-217 | the worker fails with a TypeError iff some assigned id is out of range or has no entry; otherwise it uses the multi-compiler iff it has more than one id, with the assigned configurations in order, in the requested mode, with one name per id equal to that configuration's `getConfigName`; a single compiler is named after its one configuration, or `undefined` without one; one start line per name |

## Findings

| source | as written | input that shows it | evidently intended | confidence | as-written member | corrected member |
|---|---|---|---|---|---|---|
| worker.js:169-180 | after a clean batch build the worker only logs; it never posts a message before its thread exits with code 0, and index.js:143 resolves a worker's promise only on a message | one configuration, `watchMode: false`, a build without errors: the only promise stays pending, `allSettled` never returns, and "Building complete" is never logged | a worker with a clean build posts a completion message, which resolves its promise | medium, not executed | Coordinator.AsWrittenCleanRunHangs | Coordinator.SignalledCleanRunCompletes |

## Left out

- The webpack calls `webpack(...)`, `run`, `watch`, `close` and hook registration, and the `getWebpack` fallback (worker.js:5-11). These are foreign library calls. Compilation results are `Stats` values with error and warning flags and lists.
- What webpack does with an `undefined` configuration, which an empty chunk hands to the single compiler. This is not part of this model.
- `require` and `require.resolve`: the loaded module is the `Export` parameter, and the worker's own copy of the list is a parameter of `WorkerMain`.
- `process.exit` itself: `LoadConfig` returns a `LoadFailure` instead of ending the process. `MissingPath` and `NotAnArray` stand for the bare `exit()` calls (index.js:30, 45), and `LoadError` carries the load error's `e.code`, the value passed to `process.exit` (index.js:52). How Node turns that code into the process's exit status is not modelled.
- Coordinator.AsWrittenEvents: that a failed build ends its worker thread with exit code 1 is an assumption about webpack, not something worker.js establishes. If webpack's hook runner catches the throw of worker.js:74 and hands it to the `run` callback (worker.js:27-33), which only prints it, the failed worker sends no event that settles its promise either.
- Worker threads, `Promise.allSettled`, `async`/`await`, and termination's own exit events. These are replaced by the per-attempt event oracle. `WebpackMultithread.RunConfigs` needs one event list for each attempt it can start, so `retries + 1` lists. A worker terminated by the exit-1 handler (index.js:149) itself exits with code 1 in Node, so an oracle true to the source delivers an `Exit(w, 1)` for every sibling still running when a failure is handled, which rejects that sibling's promise unless an earlier event already settled it.
- `os.cpus()`: the system CPU count is a parameter.
- `performance.now()` timings and `toFixed(3)` formatting (worker.js:112-126, 165-176). These are wall-clock floats.
- chalk colours, emoji and message text. Console output is the abstract `Line` and `Output` values. The `console.error` of a worker's `error` event and the `closeErr` callback of `compiler.close` are not modelled.
- `Partition.CalculateAvailableCpus`: models `cpus` as an integer, with 0 as the only falsy value. `null`, `NaN` and fractional counts are not modelled, and `Math.ceil` of a float quotient is modelled as exact integer ceiling division.
- `Worker.GetConfigName`: takes an object entry's keys in the order `Object.keys` enumerates them. The model does not reorder integer-like keys.
- Calling `run()` again while a run is in progress is not modelled.
