/**
 The path translator of the Prettier component: in watch mode a path under
 the source root is sent to its counterpart under the cache root; in a
 one-off build every path is its own counterpart. Also the configuration
 rewrite that applies the translator to every string leaf of a value of the
 host's build configuration.
 */
module Translator {
  import opened JsString

  /** What `translate` reads: whether the host is watching, and the resolved
      source and cache roots. */
  datatype Layout = Layout(watching: bool, source: string, cache: string)

  /** `translate(path)`: `path.replace(source, cache)` while watching, `path` otherwise. */
  function Translate(layout: Layout, path: string): string
  {
    if layout.watching then Replace(path, layout.source, layout.cache) else path
  }

  /** Outside watch mode the translator is the identity. */
  lemma TranslateBuildOnce(layout: Layout, path: string)
    requires !layout.watching
    ensures Translate(layout, path) == path
  {
  }

  /** In watch mode only the first occurrence of the source root is replaced
      by the cache root, and nothing else in the path changes. */
  lemma TranslateFirstOccurrence(layout: Layout, path: string, i: nat)
    requires layout.watching && '$' !in layout.cache
    requires OccursAt(path, layout.source, i)
    requires forall j: nat :: j < i ==> !OccursAt(path, layout.source, j)
    ensures Translate(layout, path) == path[..i] + layout.cache + path[i + |layout.source|..]
  {
    ReplaceFirstOccurrence(path, layout.source, layout.cache, i);
  }

  /** In watch mode a path that does not contain the source root is unchanged. */
  lemma TranslateOutsideSource(layout: Layout, path: string)
    requires forall j: nat :: !OccursAt(path, layout.source, j)
    ensures Translate(layout, path) == path
  {
    ReplaceAbsent(path, layout.source, layout.cache);
  }

  /** In watch mode `source + rest` becomes `cache + rest`. */
  lemma {:induction false} TranslatePrefix(layout: Layout, rest: string)
    requires layout.watching && '$' !in layout.cache
    ensures Translate(layout, layout.source + rest) == layout.cache + rest
  {
    var path := layout.source + rest;
    assert path[0..|layout.source|] == layout.source;
    TranslateFirstOccurrence(layout, path, 0);
    assert path[|layout.source|..] == rest;
  }

  /** `replace` expands `$&` in the cache root into the matched source root,
      so with such a cache root a path under the source root does not become
      "cache root + rest". */
  lemma TranslateExpandsDollarPattern()
    ensures Translate(Layout(true, "/s", "/c$&"), "/s/a") == "/c/s/a"
    ensures "/c/s/a" != "/c$&" + "/a"
  {
    StringIndexOfAtStart("/s/a", "/s");
    assert Substitute("/s", "/s/a", 0, "&") == "&";
    assert Substitute("/s", "/s/a", 0, "$&") == "/s";
    assert Substitute("/s", "/s/a", 0, "/c$&") == "/c/s";
    assert ("/c$&" + "/a")[2] == '$' != "/c/s/a"[2];
  }

  /** A value of the host's build configuration (entry points, aliases):
      string leaves, other leaves (numbers, booleans, ...) kept by their
      literal text, arrays and objects with their keys in order. */
  datatype ConfigValue =
    | Text(text: string)
    | Other(literal: string)
    | List(items: seq<ConfigValue>)
    | Object(entries: seq<Entry>)

  datatype Entry = Entry(key: string, value: ConfigValue)

  /** `map(value)`: the translator applied to every string leaf; keys,
      nesting and other leaves are kept. */
  function MapValue(layout: Layout, v: ConfigValue): ConfigValue
    decreases v
  {
    match v
    case Text(s) => Text(Translate(layout, s))
    case Other(_) => v
    case List(items) =>
      List(seq(|items|, i requires 0 <= i < |items| => MapValue(layout, items[i])))
    case Object(entries) =>
      Object(seq(|entries|, i requires 0 <= i < |entries| =>
        Entry(entries[i].key, MapValue(layout, entries[i].value))))
  }

  /** Outside watch mode rewriting the configuration changes nothing. */
  lemma {:induction false} MapValueBuildOnce(layout: Layout, v: ConfigValue)
    requires !layout.watching
    ensures MapValue(layout, v) == v
    decreases v
  {
    match v
    case Text(_) =>
    case Other(_) =>
    case List(items) =>
      forall i | 0 <= i < |items| ensures MapValue(layout, items[i]) == items[i] {
        MapValueBuildOnce(layout, items[i]);
      }
    case Object(entries) =>
      forall i | 0 <= i < |entries|
        ensures Entry(entries[i].key, MapValue(layout, entries[i].value)) == entries[i]
      {
        MapValueBuildOnce(layout, entries[i].value);
      }
  }
}
