# laravel-mix-prettier, modelled in Dafny

This is a model of the `Prettier` component of laravel-mix-prettier (`src/index.js`).
Laravel Mix drives the component. It formats every file of the source tree in place.
In watch mode it also keeps a cache tree of formatted copies. It does this with two parts:

- the **path translator** (`translate`). It maps a source path to its cache counterpart by
  `path.replace(source, cache)` while Mix is watching. Otherwise it returns the path unchanged.
- the **watch dispatcher** (`enqueue`). It handles each batch of watcher events in order:
  - an `error` event purges the translated path;
  - an event for a path already in the pending queue removes that path and does nothing else;
  - any other event appends the path to the queue and runs the formatter on it.

The model also covers the orchestration around these two parts:
`register` (option defaults, empty queue), `boot` (clean, run every file, subscribe in watch mode),
`webpackConfig` (translated entry points and aliases, ignore list), `run`, `clean` and `purge`.

Modules:

- `JsString` (`jsstring.dfy`) models the two JavaScript string operations `translate` relies on.
  `StringIndexOf` is the first-occurrence search.
  `Replace` is `String.prototype.replace` with string arguments. It replaces the first occurrence only.
  It also expands the `$$`, `$&`, `` $` `` and `$'` patterns of the replacement, as the
  GetSubstitution operation of ECMA-262 does when there are no capture groups.
- `Translator` (`translator.dfy`) holds `Translate` over a `Layout`. A `Layout` is the watch flag plus
  the resolved source and cache roots. The module also holds `MapValue`, the configuration rewrite.
- `Dispatcher` (`dispatcher.dfy`) holds the event and effect datatypes.
  `Step` and `Batch` specify `enqueue` as a function of the queue and the events.
  The lemmas about that specification are here too.
- `Plugin` (`plugin.dfy`) holds the class `Prettier`.
  Its fields are the options, the pending `queue` and an `effects` log.
  The log records each piece of I/O as `Run(path, destination)`, `Purge(target)`, `OnExit(target, logLevel)` or `Subscribe(dir)`.
  Its methods follow the source's methods one for one. Each method's postcondition ties the new
  state to the specification functions.
  `Enqueue` loops over the events, and `Handle` is its per-event callback.
  The class invariant `Valid()` says that the queue holds no path twice.
  `register` establishes it and `enqueue` preserves it.

Inputs from the host become parameters:

- `Host.watching` stands for `Mix.isWatching()`.
- `Host.root` stands for `Mix.paths.root(...)`.
- `Boot` takes the file list that `getAllFilesSync(source)` would return.

## What the code does that a reader may not expect

The model follows `src/index.js` in each case.

- `translate` reads like a prefix rewrite, but `path.replace(source, cache)` replaces the first
  occurrence of the source root wherever it is, and leaves a path without one unchanged.
  It also expands `$` patterns in the cache root.
  So `source + rest` becomes `cache + rest` only when the cache root contains no `$`
  (`TranslatePrefix`). `TranslateExpandsDollarPattern` shows a cache root with `$&` giving a different result.
- The pending queue is an ordered array, not a set: `indexOf` finds the first match, `splice` removes it,
  `push` appends. No path ever appears twice, because every batch keeps the queue that `register`
  empties free of duplicates (`BatchNoDup`). So membership behaves as in a set.
- There is no validation of the directory layout and no `includes` list in `src/index.js`.
  `boot` only cleans, runs the traversed files and subscribes.
- Outside watch mode the destination of every run is the file itself (`BuildOnceRunsOntoItself`),
  so `run` copies each file onto itself.

## Model

| member | source | states |
|---|---|---|
| `JsString.StringIndexOf` | src/index.js:97 | the search finds the first index at or after `from` where the pattern occurs, or -1 exactly when it occurs nowhere from there |
| `JsString.StringIndexOfAtStart` | src/index.js:97 | a string that starts with the pattern has its first occurrence at index 0 |
| `JsString.SubstituteLiteral` | src/index.js:97 | a replacement string without `$` is inserted literally |
| `JsString.ReplaceAbsent` | src/index.js:97 | `replace` returns the string unchanged when the pattern does not occur in it |
| `JsString.ReplaceFirstOccurrence` | src/index.js:97 | with a `$`-free replacement, `replace` swaps only the first occurrence and keeps the text before and after it |
| `Translator.TranslateBuildOnce` | src/index.js:95-101 | outside watch mode `translate(p) == p` for every path |
| `Translator.TranslateFirstOccurrence` | src/index.js:96-98 | in watch mode only the first occurrence of the source root becomes the cache root, and nothing else in the path changes |
| `Translator.TranslateOutsideSource` | src/index.js:95-101 | a path that does not contain the source root is unchanged in either mode |
| `Translator.TranslatePrefix` | src/index.js:96-98 | in watch mode `source + rest` translates to `cache + rest` when the cache root contains no `$` |
| `Translator.TranslateExpandsDollarPattern` | src/index.js:97 | with cache root `/c$&`, the path `/s/a` under source root `/s` becomes `/c/s/a`, not `/c$&/a` |
| `Translator.MapValueBuildOnce` | src/index.js:89-93 | outside watch mode the configuration rewrite returns every value unchanged |
| `Dispatcher.IndexOf` | src/index.js:44 | `indexOf` returns the first index holding the path, and -1 exactly when the path is not queued |
| `Dispatcher.ErrorEvent` | src/index.js:42-50 | an `error` event appends exactly one purge of the translated path, dispatches no run and leaves the queue unchanged |
| `Dispatcher.DuplicateEvent` | src/index.js:44-56 | a non-error event for a queued path removes exactly its first occurrence, keeps the other entries in order (the multiset loses one copy of the path) and dispatches nothing |
| `Dispatcher.NewEvent` | src/index.js:52-58 | a non-error event for an unqueued path appends it and dispatches exactly one `Run(path, translate(path))`; the `push(...) &&` guard never blocks the run |
| `Dispatcher.BatchConcat` | src/index.js:41 | a batch `a + b` is handled as `a`, then `b` from the queue `a` left, with the effects in event order |
| `Dispatcher.StepNoDup` | src/index.js:52-58 | one event keeps a duplicate-free queue duplicate-free |
| `Dispatcher.BatchNoDup` | src/index.js:12 | a batch keeps a duplicate-free queue duplicate-free, so starting from the empty queue of `register` no path is ever queued twice |
| `Dispatcher.StepMembership` | src/index.js:46-58 | one non-error event toggles the membership of its own path, and any event leaves every other path's membership unchanged |
| `Dispatcher.BatchMembership` | src/index.js:52-58 | after a batch a path is queued exactly when it was queued before and an even number of non-error events named it, or was not queued and an odd number did |
| `Dispatcher.BatchAvoiding` | src/index.js:52-58 | events that do not name a path dispatch no run for it and leave its membership unchanged |
| `Dispatcher.Toggle` | src/index.js:52-58 | two non-error events for an unqueued path, with only events for other paths between them, leave it unqueued and dispatch exactly one run for it |
| `Dispatcher.BatchEffects` | src/index.js:40-60 | a batch causes at most as many effects as it has events; every run goes to the translated path; every purge targets the translated path of an error event |
| `Dispatcher.BuildOnceRunsOntoItself` | src/index.js:40-60 | outside watch mode every run a batch dispatches has the file's own path as its destination |
| `Plugin.Runs` | src/index.js:20-24 | the runs of `boot` are one per file, in enumeration order, each to the file's translation |
| `Plugin.Prettier.constructor` | src/index.js:11-15 | the instance Mix uses starts with the default or given options, an empty and duplicate-free queue, and no I/O |
| `Plugin.Prettier.Register` | src/index.js:11-15 | `source` defaults to `src` and `cache` to `.prettier` unless given; the queue becomes empty |
| `Plugin.Prettier.Purge` | src/index.js:82-87 | purging logs one purge of the given path and changes nothing else |
| `Plugin.Prettier.Run` | src/index.js:62-72 | a run logs `Run(filepath, destination)`; a missing or empty destination falls back to `translate(filepath)` |
| `Plugin.Prettier.Clean` | src/index.js:74-80 | cleaning purges the cache root, then registers the same purge for exit, with log level `error` unless one is given |
| `Plugin.Prettier.Boot` | src/index.js:17-30 | boot purges the cache and registers the exit purge, runs every enumerated file in order, and subscribes to the source root only in watch mode |
| `Plugin.Prettier.WebpackConfig` | src/index.js:32-38 | entry points and aliases become their translations, and the ignore list becomes `[source, "**/node_modules"]` |
| `Plugin.Prettier.Enqueue` | src/index.js:40-60 | the new queue and the appended effects are those of `Batch` over the old queue, and the queue stays duplicate-free |
| `Plugin.Prettier.Handle` | src/index.js:41-59 | one event changes the queue and the effect log exactly as `Step` says, and keeps the queue duplicate-free |

## Left out

- The file I/O inside `run` is not modelled: reading the file, resolving options with the config builder's `build`, `prettier.format`, writing back and copying (src/index.js:63-71). These are filesystem calls and libraries that are not part of this model. A run is the logged effect `Run(path, destination)`.
- Plugin.Prettier.Run: the copy outside watch mode is not modelled as failing. There the destination is the file itself, so src/index.js:71 calls `fs.cpSync(file, file)`. Node documents that `cpSync` rejects a source equal to its destination. If so, every build-once `boot` stops after formatting its first file. The model logs the run and goes on.
- A failing run is not modelled. A formatter error would throw and end the rest of the batch (or the `boot` loop); the model always completes.
- `fs.rmSync` in `purge` is filesystem I/O. It is the effect `Purge(target)`.
- `onExit` from gracy is a process-lifecycle library that is not part of this model. It is the effect `OnExit(target, logLevel)`. `Clean` does not model the options other than `logLevel` that `clean` passes to it.
- `watcher.subscribe` is the asynchronous event source. It is the effect `Subscribe(dir)`. Delivering a batch means calling `Enqueue`. The callback's `error` argument is ignored by the source and is not modelled.
- `getAllFilesSync` is directory traversal. Its result is the `files` parameter of `Boot`.
- The traversal of deep-map-object is not part of this model. `MapValue` walks arrays and objects, translates every string leaf, and keeps keys, order and other leaves. Only its behaviour outside watch mode is proved.
- `Mix.isWatching()` and `Mix.paths.root(...)` are host globals. They are the fields of `Host`, fixed for the life of the instance. The source queries them on every call, so a mode change in the middle of a batch is not modelled.
- `mix.extend("prettier", new Prettier())` (src/index.js:116) is framework wiring. The constructor stands for the instance it registers after Mix calls `register`.
- Register: only the `source` and `cache` keys are modelled. Other keys pass through to the config builder, which is not part of this model. A key given with the value `undefined` is not told apart from an absent key.
- WebpackConfig: a configuration without `resolve` or `watchOptions` would make the source throw. The model's `Config` always has the three fields.
- JavaScript strings are UTF-16 code-unit sequences. The model uses `seq<char>` and does no normalisation.
