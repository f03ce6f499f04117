/**
 * Values that cross the boundary between the coordinator (index.js) and the
 * worker script (worker.js): build configurations and the worker's start data.
 */
module Configs {

  /**
   * The `entry` field of a webpack configuration, as far as `Object.keys`
   * can tell the shapes apart: a string or an array enumerates its indices,
   * a plain object its own keys in enumeration order, a function nothing,
   * and `undefined` (or `null`) makes `Object.keys` throw.
   */
  datatype Entry =
    | EntryObject(keys: seq<string>)
    | EntryString(path: string)
    | EntryArray(paths: seq<string>)
    | EntryFunction
    | EntryUndefined

  /** A build configuration: its entry, and the rest of it as opaque settings. */
  datatype Config = Config(entry: Entry, settings: map<string, string>)

  /** The watch options, handed through to the compiler unchanged. */
  type WatchOptions = map<string, string>

  /** The `workerData` each worker thread is started with (index.js:138-140). */
  datatype WorkerData = WorkerData(
    webpackConfig: string,
    configIds: seq<nat>,
    watchMode: bool,
    watchOptions: WatchOptions)
}
