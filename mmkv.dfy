/** The MMKV layer of `src/utils/mmkv.ts`: an adapter that turns every
    failure of the native store into a neutral answer, and a typed
    storage over it.

    The native store is a map from keys to strings. Whether it fails is a
    property of the instance (a store that cannot be opened or decrypted
    fails on every call); a failing call changes nothing. */
module Mmkv {
  import opened Wrappers
  import AppStorage

  type Value = AppStorage.Value

  /** `MMKVStorageAdapter`. */
  class Adapter {
    var kv: map<string, string>
    const failing: bool
    const name: string

    constructor (kv: map<string, string>, failing: bool, name: string)
      ensures this.kv == kv && this.failing == failing && this.name == name
    {
      this.kv := kv;
      this.failing := failing;
      this.name := name;
    }

    /** What `getItem(key)` answers in the current state. */
    function Read(key: string): (r: Option<string>)
      reads this
      ensures failing ==> r == None
      ensures !failing ==> (r.Some? <==> key in kv)
      ensures r.Some? ==> r.value == kv[key]
    {
      if !failing && key in kv then Some(kv[key]) else None
    }

    /** `getItem`: a failure is logged and reads as null. */
    method GetItem(key: string) returns (r: Option<string>)
      ensures r == Read(key)
    {
      if failing {
        return None;
      }
      r := if key in kv then Some(kv[key]) else None;
    }

    method SetItem(key: string, value: string)
      modifies this`kv
      ensures kv == if failing then old(kv) else old(kv)[key := value]
    {
      if !failing {
        kv := kv[key := value];
      }
    }

    method RemoveItem(key: string)
      modifies this`kv
      ensures kv == if failing then old(kv) else old(kv) - {key}
    {
      if !failing {
        kv := kv - {key};
      }
    }

    method Clear()
      modifies this`kv
      ensures kv == if failing then old(kv) else map[]
    {
      if !failing {
        kv := map[];
      }
    }

    /** `getAllKeys`: a failure reads as no keys. The order the native
        store reports them in is not modelled. */
    method GetAllKeys() returns (keys: set<string>)
      ensures failing ==> keys == {}
      ensures !failing ==> keys == kv.Keys
      ensures forall k :: k in keys <==> Read(k).Some?
    {
      if failing {
        return {};
      }
      keys := kv.Keys;
    }
  }

  /** `value.toString()` for a boolean, and its reading back. */
  function DecodeBoolean(stored: Option<string>): (r: Option<bool>)
    ensures r.None? <==> stored.None?
    ensures r == Some(true) <==> stored == Some("true")
  {
    match stored
    case None => None
    case Some(s) => Some(s == "true")
  }

  lemma BooleanRoundTrip(b: bool)
    ensures DecodeBoolean(Some(AppStorage.BoolText(b))) == Some(b)
  {
  }

  /** `getObject`: an absent entry or one `JSON.parse` rejects reads as null. */
  function DecodeObject(stored: Option<string>, parse: string -> Result<Value, string>): (r: Value)
    ensures stored.None? ==> r == AppStorage.Null
    ensures stored.Some? && parse(stored.value).Failure? ==> r == AppStorage.Null
    ensures stored.Some? && parse(stored.value).Success? ==> r == parse(stored.value).value
  {
    match stored
    case None => AppStorage.Null
    case Some(s) => if parse(s).Success? then parse(s).value else AppStorage.Null
  }

  /** `MMKVStorage` over one adapter. `stringify` yields None where
      `JSON.stringify` throws. */
  class TypedStorage {
    const adapter: Adapter
    const parse: string -> Result<Value, string>
    const stringify: Value -> Option<string>

    constructor (adapter: Adapter, parse: string -> Result<Value, string>, stringify: Value -> Option<string>)
      ensures this.adapter == adapter && this.parse == parse && this.stringify == stringify
    {
      this.adapter := adapter;
      this.parse := parse;
      this.stringify := stringify;
    }

    method GetString(key: string) returns (s: Option<string>)
      ensures s == adapter.Read(key)
    {
      s := adapter.GetItem(key);
    }

    /** Afterwards `key` reads `value` (unless the store fails) and every other key reads as before. */
    method SetString(key: string, value: string)
      modifies adapter`kv
      ensures !adapter.failing ==> adapter.Read(key) == Some(value)
      ensures forall k | k != key :: adapter.Read(k) == old(adapter.Read(k))
    {
      adapter.SetItem(key, value);
    }

    /** Null when absent, otherwise whether the stored string is "true". */
    method GetBoolean(key: string) returns (b: Option<bool>)
      ensures b == DecodeBoolean(adapter.Read(key))
    {
      var value := adapter.GetItem(key);
      if value.None? {
        return None;
      }
      b := Some(value.value == "true");
    }

    method SetBoolean(key: string, b: bool)
      modifies adapter`kv
      ensures !adapter.failing ==> adapter.Read(key) == Some(AppStorage.BoolText(b))
      ensures forall k | k != key :: adapter.Read(k) == old(adapter.Read(k))
    {
      adapter.SetItem(key, AppStorage.BoolText(b));
    }

    method GetObject(key: string) returns (v: Value)
      ensures v == DecodeObject(adapter.Read(key), parse)
    {
      var value := adapter.GetItem(key);
      if value.None? {
        return AppStorage.Null;
      }
      var parsed := parse(value.value);
      if parsed.Failure? {
        return AppStorage.Null;
      }
      v := parsed.value;
    }

    /** A value `JSON.stringify` rejects leaves the store as it was. */
    method SetObject(key: string, v: Value)
      modifies adapter`kv
      ensures stringify(v).None? || adapter.failing ==> adapter.kv == old(adapter.kv)
      ensures stringify(v).Some? && !adapter.failing ==> adapter.kv == old(adapter.kv)[key := stringify(v).value]
    {
      var serialized := stringify(v);
      if serialized.Some? {
        adapter.SetItem(key, serialized.value);
      }
    }

    /** Afterwards `key` is absent, whether or not the store fails. */
    method RemoveItem(key: string)
      modifies adapter`kv
      ensures adapter.Read(key) == None
      ensures forall k | k != key :: adapter.Read(k) == old(adapter.Read(k))
    {
      adapter.RemoveItem(key);
    }

    /** `contains(key)` holds exactly when `getString(key)` is not null. */
    method Contains(key: string) returns (c: bool)
      ensures c <==> adapter.Read(key).Some?
    {
      var value := adapter.GetItem(key);
      c := value.Some?;
    }

    method GetAllKeys() returns (keys: set<string>)
      ensures forall k :: k in keys <==> adapter.Read(k).Some?
    {
      keys := adapter.GetAllKeys();
    }

    /** Afterwards no key reads anything, whether or not the store fails. */
    method Clear()
      modifies adapter`kv
      ensures forall k :: adapter.Read(k) == None
    {
      adapter.Clear();
    }
  }
}
