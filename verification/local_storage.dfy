/** The browser's durable store as the settings view model uses it: one item, under the
    key `plugin.tsd`, holding an object that is read whole, updated at one path and written
    back whole. */
module LocalStorage {
  import opened Values

  /** A property path, one segment per dotted component (`ignored.server.error` is
      `["ignored", "server", "error"]`). */
  type Path = seq<string>

  /** The key of the plugin's item in local storage. */
  const PluginKey := "plugin.tsd"

  /** Reading `path` in a stored object, falling back to `default` when nothing is there. */
  function Lookup(obj: map<Path, Value>, path: Path, default: Value): (v: Value)
    ensures path in obj ==> v == obj[path]
    ensures path !in obj ==> v == default
  {
    if path in obj then obj[path] else default
  }

  class Storage {
    /** Every item of local storage, already parsed. A missing item, or one holding the
        empty string, is absent from the map. */
    var items: map<string, map<Path, Value>>

    constructor (items: map<string, map<Path, Value>>)
      ensures this.items == items
    {
      this.items := items;
    }

    /** The plugin's stored object; a missing or empty item reads as `{}`. */
    function Object(): (obj: map<Path, Value>)
      reads this
      ensures PluginKey !in items ==> obj == map[]
      ensures PluginKey in items ==> obj == items[PluginKey]
    {
      if PluginKey in items then items[PluginKey] else map[]
    }

    /** The stored value at `path`, or `default`. */
    function Retrieve(path: Path, default: Value): (v: Value)
      reads this
      ensures PluginKey !in items ==> v == default
      ensures path !in Object() ==> v == default
      ensures path in Object() ==> v == Object()[path]
    {
      Lookup(Object(), path, default)
    }

    /** Read-modify-write of the plugin's object: only `path` in it changes, and no other
        item of local storage. */
    method Save(path: Path, value: Value)
      modifies this
      ensures items == old(items)[PluginKey := old(Object())[path := value]]
      ensures Object() == old(Object())[path := value]
      ensures forall default :: Retrieve(path, default) == value
    {
      var retrieved := Object();
      retrieved := retrieved[path := value];
      items := items[PluginKey := retrieved];
    }
  }
}
