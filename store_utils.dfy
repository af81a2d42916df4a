/**
 * `UserDefaultStore` from Engine/Utils/StoreUtils.swift: one shared
 * dictionary in which each plugin's keys are namespaced by prefixing its
 * bundle identifier and a dot.
 */
module StoreUtils {
  import opened Wrappers
  import opened Types

  /** A property-list value as the defaults database holds it. */
  datatype Value =
    | StringValue(s: string)
    | IntValue(i: int)
    | BoolValue(b: bool)
    | DataValue(bytes: seq<bv8>)

  /** The Swift type a caller of `get<T>` asks for. */
  datatype ValueType = StringType | IntType | BoolType | DataType

  function TypeOf(v: Value): ValueType {
    match v
    case StringValue(_) => StringType
    case IntValue(_) => IntType
    case BoolValue(_) => BoolType
    case DataValue(_) => DataType
  }

  /** `getKeyName(plugin:forKey:)`: the key itself, or "{bundleIdentifier}.{key}" for a plugin. */
  function KeyName(plugin: Option<Plugin>, key: string): string {
    match plugin
    case None => key
    case Some(p) => p.bundleId + "." + key
  }

  /** `value as? T` on the entry stored under `name`: present and of the requested type, or `nil`. */
  function Lookup(store: map<string, Value>, name: string, t: ValueType): (r: Option<Value>)
  {
    if name in store && TypeOf(store[name]) == t then Some(store[name]) else None
  }

  /** A plugin's key never coincides with the same key used without a plugin. */
  lemma PluginKeyDiffersFromGlobal(p: Plugin, key: string)
    ensures KeyName(Some(p), key) != KeyName(None, key)
  {
    assert |KeyName(Some(p), key)| > |key|;
  }

  /** Namespacing is plain concatenation: plugin "a" with key "b" is the global key "a.b". */
  lemma NamespaceCollision(id: Uuid)
    ensures KeyName(Some(Plugin(id, "a")), "b") == KeyName(None, "a.b")
  {
  }

  /** After `set`, `get` with the same key, plugin and the value's type returns the value. */
  lemma GetAfterSet(store: map<string, Value>, plugin: Option<Plugin>, key: string, v: Value)
    ensures Lookup(store[KeyName(plugin, key) := v], KeyName(plugin, key), TypeOf(v)) == Some(v)
  {
  }

  /** After `set`, `get` asking for any other type returns `nil`. */
  lemma GetOtherTypeAfterSet(store: map<string, Value>, plugin: Option<Plugin>, key: string, v: Value, t: ValueType)
    requires t != TypeOf(v)
    ensures Lookup(store[KeyName(plugin, key) := v], KeyName(plugin, key), t) == None
  {
  }

  /** After `removeObject`, `get` with the same key and plugin returns `nil`. */
  lemma GetAfterRemove(store: map<string, Value>, plugin: Option<Plugin>, key: string, t: ValueType)
    ensures Lookup(store - {KeyName(plugin, key)}, KeyName(plugin, key), t) == None
  {
  }

  /** A value set for a plugin does not change what `get` without a plugin sees for that key. */
  lemma PluginValueHiddenFromGlobal(store: map<string, Value>, p: Plugin, key: string, v: Value, t: ValueType)
    ensures Lookup(store[KeyName(Some(p), key) := v], KeyName(None, key), t)
         == Lookup(store, KeyName(None, key), t)
  {
    PluginKeyDiffersFromGlobal(p, key);
  }

  /** The defaults database seen through the namespacing helper. */
  class UserDefaultStore {
    var store: map<string, Value>

    /** Binds to the shared database, whose contents are `initial`. */
    constructor (initial: map<string, Value>)
      ensures store == initial
    {
      store := initial;
    }

    /** `set(_:forKey:from:)`: writes the one entry `KeyName` names. */
    method Set(value: Value, key: string, plugin: Option<Plugin>)
      modifies this
      ensures store == old(store)[KeyName(plugin, key) := value]
      ensures forall name :: name != KeyName(plugin, key) ==>
        (name in store <==> name in old(store)) && (name in store ==> store[name] == old(store)[name])
      ensures Get(key, plugin, TypeOf(value)) == Some(value)
      ensures forall t :: t != TypeOf(value) ==> Get(key, plugin, t) == None
      ensures forall k, p, t :: KeyName(p, k) != KeyName(plugin, key) ==> Get(k, p, t) == old(Get(k, p, t))
      ensures plugin.Some? ==> forall t :: Get(key, None, t) == old(Get(key, None, t))
    {
      if plugin.Some? {
        PluginKeyDiffersFromGlobal(plugin.value, key);
      }
      store := store[KeyName(plugin, key) := value];
    }

    /** `removeObject(forKey:from:)`: deletes the one entry `KeyName` names. */
    method RemoveObject(key: string, plugin: Option<Plugin>)
      modifies this
      ensures store == old(store) - {KeyName(plugin, key)}
      ensures KeyName(plugin, key) !in store
      ensures forall name :: name != KeyName(plugin, key) ==>
        (name in store <==> name in old(store)) && (name in store ==> store[name] == old(store)[name])
      ensures forall t :: Get(key, plugin, t) == None
      ensures forall k, p, t :: KeyName(p, k) != KeyName(plugin, key) ==> Get(k, p, t) == old(Get(k, p, t))
    {
      store := store - {KeyName(plugin, key)};
    }

    /** `get(forKey:from:)`: the namespaced entry when it holds a value of the requested type. */
    function Get(key: string, plugin: Option<Plugin>, t: ValueType): (r: Option<Value>)
      reads this
    {
      Lookup(store, KeyName(plugin, key), t)
    }
  }

  /**
   * A fresh store: a value set for a plugin is read back for that plugin,
   * and the same key without a plugin reads `nil`.
   */
  method PluginScopedValue(p: Plugin, key: string, v: Value) returns (scoped: Option<Value>, global: Option<Value>)
    ensures scoped == Some(v)
    ensures global == None
  {
    var defaults := new UserDefaultStore(map[]);
    defaults.Set(v, key, Some(p));
    scoped := defaults.Get(key, Some(p), TypeOf(v));
    global := defaults.Get(key, None, TypeOf(v));
  }
}
