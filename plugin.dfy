/**
 The `Prettier` component that Laravel Mix drives: `register` fixes the
 options and empties the pending queue, `boot` cleans the cache tree, runs
 every file of the source tree and, in watch mode, subscribes `enqueue` to
 the watcher; `webpackConfig` points the build at the translated paths.
 The host (Mix) is reached through `Host`: whether it is watching and how it
 resolves a directory option to a path. Every piece of I/O is appended to
 `effects` instead of being performed.
 */
module Plugin {
  import opened Translator
  import opened Dispatcher

  datatype Option<T> = None | Some(value: T)

  /** `Mix.isWatching()` and `Mix.paths.root(...)`. */
  datatype Host = Host(watching: bool, root: string -> string)

  /** The options passed to `register`; an absent key is `None`. */
  datatype Given = Given(source: Option<string>, cache: Option<string>)

  /** `this.options` after `register`. */
  datatype Options = Options(source: string, cache: string)

  const DefaultSource: string := "src"
  const DefaultCache: string := ".prettier"
  const DefaultLogLevel: string := "error"
  const NodeModulesGlob: string := "**/node_modules"

  /** The part of the host's build configuration that `webpackConfig` touches. */
  class Config {
    var entry: ConfigValue      // config.entry
    var alias: ConfigValue      // config.resolve.alias
    var ignored: seq<string>    // config.watchOptions.ignored
  }

  class Prettier {
    const host: Host
    var options: Options
    /** Source paths whose run has been dispatched and not yet cancelled. */
    var queue: seq<string>
    /** The I/O performed so far, oldest first. */
    var effects: seq<Effect>

    /** The queue never holds a path twice. */
    ghost predicate Valid()
      reads this
    {
      NoDup(queue)
    }

    /** The `source` getter. */
    function Source(): string
      reads this`options
    {
      host.root(options.source)
    }

    /** The `cache` getter. */
    function Cache(): string
      reads this`options
    {
      host.root(options.cache)
    }

    function HostLayout(): Layout
      reads this`options
    {
      Layout(host.watching, Source(), Cache())
    }

    /** `translate(path)`. */
    function Translate(path: string): string
      reads this`options
    {
      Translator.Translate(HostLayout(), path)
    }

    /** `map(value)`. */
    function Map(value: ConfigValue): ConfigValue
      reads this`options
    {
      MapValue(HostLayout(), value)
    }

    /** `new Prettier()`, then Mix's call of `register(options)`. */
    constructor (host: Host, given: Given)
      ensures this.host == host && effects == []
      ensures Valid() && queue == []
      ensures options.source == (if given.source.Some? then given.source.value else DefaultSource)
      ensures options.cache == (if given.cache.Some? then given.cache.value else DefaultCache)
    {
      this.host := host;
      effects := [];
      new;
      Register(given);
    }

    /** `register(options)`: the defaults, overridden by the given keys, and an empty queue. */
    method Register(given: Given)
      modifies this`queue, this`options
      ensures Valid() && queue == []
      ensures options.source == (if given.source.Some? then given.source.value else DefaultSource)
      ensures options.cache == (if given.cache.Some? then given.cache.value else DefaultCache)
    {
      queue := [];
      options := Options(
        if given.source.Some? then given.source.value else DefaultSource,
        if given.cache.Some? then given.cache.value else DefaultCache);
    }

    /** `purge(path)`: remove `path` recursively, ignoring its absence. */
    method Purge(path: string)
      modifies this`effects
      ensures effects == old(effects) + [Effect.Purge(path)]
    {
      effects := effects + [Effect.Purge(path)];
    }

    /** `run(filepath, destination)`: format `filepath` in place and copy it
        to `destination`, or to its translation when `destination` is
        missing or empty (JavaScript `||`). */
    method Run(filepath: string, destination: Option<string>)
      modifies this`effects
      ensures destination.Some? && destination.value != "" ==>
        effects == old(effects) + [Effect.Run(filepath, destination.value)]
      ensures destination.None? || destination.value == "" ==>
        effects == old(effects) + [Effect.Run(filepath, Translate(filepath))]
    {
      var target := if destination.Some? && destination.value != "" then destination.value else Translate(filepath);
      effects := effects + [Effect.Run(filepath, target)];
    }

    /** `clean({logLevel})`: purge the cache tree now and again at process exit. */
    method Clean(logLevel: Option<string>)
      modifies this`effects
      ensures effects == old(effects) + [Effect.Purge(Cache()),
        OnExit(Cache(), if logLevel.Some? then logLevel.value else DefaultLogLevel)]
    {
      Purge(Cache());
      var level := if logLevel.Some? then logLevel.value else DefaultLogLevel;
      effects := effects + [OnExit(Cache(), level)];
    }

    /** `boot()`: clean, run every file the traversal of the source tree
        returned (`files`), in that order, then subscribe to the watcher when
        watching. */
    method Boot(files: seq<string>)
      modifies this`effects
      ensures effects == old(effects)
        + [Effect.Purge(Cache()), OnExit(Cache(), DefaultLogLevel)]
        + Runs(HostLayout(), files)
        + (if host.watching then [Subscribe(Source())] else [])
    {
      Clean(None);
      ghost var cleaned := effects;
      for i := 0 to |files|
        invariant effects == cleaned + Runs(HostLayout(), files[..i])
      {
        assert files[..i + 1] == files[..i] + [files[i]];
        RunsAppend(HostLayout(), files[..i], files[i]);
        Run(files[i], None);
      }
      assert files[..|files|] == files;
      if host.watching {
        effects := effects + [Subscribe(Source())];
      }
    }

    /** `webpackConfig(config)`: entry points and aliases are translated and
        the watcher of the build ignores the source tree and dependencies. */
    method WebpackConfig(config: Config)
      modifies config
      ensures config.entry == Map(old(config.entry))
      ensures config.alias == Map(old(config.alias))
      ensures config.ignored == [Source(), NodeModulesGlob]
    {
      config.entry := Map(config.entry);
      config.alias := Map(config.alias);
      config.ignored := [Source(), NodeModulesGlob];
    }

    /** `enqueue(events)`: the watcher's handler; the events are handled
        in array order. */
    method Enqueue(events: seq<Event>)
      modifies this`queue, this`effects
      ensures queue == Batch(HostLayout(), old(queue), events).queue
      ensures effects == old(effects) + Batch(HostLayout(), old(queue), events).effects
      ensures old(Valid()) ==> Valid()
    {
      ghost var layout := HostLayout();
      ghost var done := Batch(layout, queue, events);
      assert events[0..] == events;
      var i := 0;
      while i < |events|
        invariant 0 <= i <= |events|
        invariant Batch(layout, queue, events[i..]).queue == done.queue
        invariant effects + Batch(layout, queue, events[i..]).effects == old(effects) + done.effects
      {
        BatchUnfold(layout, queue, events, i);
        Handle(events[i]);
        i := i + 1;
      }
      assert events[i..] == [];
      if old(Valid()) { BatchNoDup(layout, old(queue), events); }
    }

    /** The callback `enqueue` applies to each event `{type, path}`. */
    method Handle(e: Event)
      modifies this`queue, this`effects
      ensures queue == Step(HostLayout(), old(queue), e).queue
      ensures effects == old(effects) + Step(HostLayout(), old(queue), e).effects
      ensures old(Valid()) ==> Valid()
    {
      if Valid() { StepNoDup(HostLayout(), queue, e); }
      var destination := Translate(e.path);
      var enqueued := IndexOf(queue, e.path);
      if e.kind == ErrorKind {
        Purge(destination);
        return;
      }
      if enqueued != -1 {
        queue := queue[..enqueued] + queue[enqueued + 1..];
        return;
      }
      queue := queue + [e.path];
      var length := |queue|;
      if length != 0 {
        Run(e.path, Some(destination));
      }
    }
  }

  /** The runs `boot` dispatches for `files`, in order. */
  function Runs(layout: Layout, files: seq<string>): (r: seq<Effect>)
    ensures |r| == |files|
    ensures forall k :: 0 <= k < |files| ==> r[k] == Effect.Run(files[k], Translator.Translate(layout, files[k]))
  {
    if files == [] then []
    else [Effect.Run(files[0], Translator.Translate(layout, files[0]))] + Runs(layout, files[1..])
  }

  lemma RunsAppend(layout: Layout, files: seq<string>, f: string)
    ensures Runs(layout, files + [f]) == Runs(layout, files) + [Effect.Run(f, Translator.Translate(layout, f))]
  {
  }
}
