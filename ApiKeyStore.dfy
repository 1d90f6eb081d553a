/** The API key hook (hooks/useApiKeys.ts): three keys held in component state
    and persisted as one JSON string in the browser's local storage. Each state
    setter is modelled as an assignment that has taken effect. */
module ApiKeyStore {
  import opened Wrappers

  /** The keys the browser holds (types/trip.ts). */
  datatype ApiKeys = ApiKeys(googleMaps: string, anthropic: string, firecrawl: string)

  const EmptyKeys := ApiKeys("", "", "")

  /** The local storage slot the keys are kept under. */
  const StorageKey := "trip_planner_api_keys"

  /** `!!(googleMaps && anthropic && firecrawl)` */
  predicate Complete(k: ApiKeys)
  {
    k.googleMaps != "" && k.anthropic != "" && k.firecrawl != ""
  }

  /** The stored text can be restored: it is present, truthy, and parses. */
  predicate Restorable(items: map<string, string>, parse: string -> Option<ApiKeys>)
  {
    StorageKey in items && items[StorageKey] != "" && parse(items[StorageKey]).Some?
  }

  /** The browser's `localStorage`: string values under string keys. */
  class Storage {
    var items: map<string, string>

    constructor(initial: map<string, string>)
      ensures items == initial
    {
      items := initial;
    }

    /** `getItem`: `null` (here `None`) for a missing key. */
    method GetItem(key: string) returns (value: Option<string>)
      ensures value.Some? <==> key in items
      ensures value.Some? ==> value.value == items[key]
    {
      if key in items {
        value := Some(items[key]);
      } else {
        value := None;
      }
    }

    method SetItem(key: string, value: string)
      modifies this
      ensures items == old(items)[key := value]
    {
      items := items[key := value];
    }

    method RemoveItem(key: string)
      modifies this
      ensures items == old(items) - {key}
    {
      items := items - {key};
    }
  }

  /** One mounted instance of the hook, over the page's storage. */
  class KeyStore {
    var apiKeys: ApiKeys
    var isFirstTime: bool
    var isLoaded: bool
    const storage: Storage

    /** The initial state: empty keys, first visit, not yet loaded. */
    constructor(storage: Storage)
      ensures this.storage == storage
      ensures apiKeys == EmptyKeys && isFirstTime && !isLoaded
    {
      this.storage := storage;
      apiKeys := EmptyKeys;
      isFirstTime := true;
      isLoaded := false;
    }

    /** The mount effect: restore the stored keys when there are any that
        parse; a parse failure is logged and changes nothing. Storage is only read. */
    method Load(parse: string -> Option<ApiKeys>)
      modifies this
      ensures isLoaded
      ensures Restorable(storage.items, parse) ==>
                apiKeys == parse(storage.items[StorageKey]).value && !isFirstTime
      ensures !Restorable(storage.items, parse) ==>
                apiKeys == old(apiKeys) && isFirstTime == old(isFirstTime)
    {
      var stored := storage.GetItem(StorageKey);
      if stored.Some? && stored.value != "" {
        var parsed := parse(stored.value);
        if parsed.Some? {
          apiKeys := parsed.value;
          isFirstTime := false;
        }
      }
      isLoaded := true;
    }

    /** `saveApiKeys`: keep the keys in state and write them to storage. */
    method Save(keys: ApiKeys, stringify: ApiKeys -> string)
      modifies this, storage
      ensures apiKeys == keys && !isFirstTime && isLoaded == old(isLoaded)
      ensures storage.items == old(storage.items)[StorageKey := stringify(keys)]
      ensures HasAllKeys() <==> Complete(keys)
    {
      apiKeys := keys;
      storage.SetItem(StorageKey, stringify(keys));
      isFirstTime := false;
    }

    /** `clearApiKeys`: forget the keys in state and in storage. */
    method Clear()
      modifies this, storage
      ensures apiKeys == EmptyKeys && isFirstTime && isLoaded == old(isLoaded)
      ensures storage.items == old(storage.items) - {StorageKey}
      ensures !HasAllKeys()
    {
      apiKeys := EmptyKeys;
      storage.RemoveItem(StorageKey);
      isFirstTime := true;
    }

    predicate HasAllKeys()
      reads this
    {
      Complete(apiKeys)
    }
  }

  /** Keys saved in one visit come back on the next: a new instance over the
      same storage loads exactly them and is no longer on its first visit,
      whatever the storage held before. */
  method ReloadAfterSave(initial: map<string, string>, keys: ApiKeys,
                         parse: string -> Option<ApiKeys>, stringify: ApiKeys -> string)
    returns (restored: ApiKeys, firstTime: bool, loaded: bool)
    requires stringify(keys) != "" && parse(stringify(keys)) == Some(keys)
    ensures restored == keys && !firstTime && loaded
  {
    var storage := new Storage(initial);
    var first := new KeyStore(storage);
    first.Save(keys, stringify);
    var second := new KeyStore(storage);
    second.Load(parse);
    restored, firstTime, loaded := second.apiKeys, second.isFirstTime, second.isLoaded;
  }

  /** After clearing, the next visit starts over: empty keys, first visit. */
  method ReloadAfterClear(initial: map<string, string>, parse: string -> Option<ApiKeys>)
    returns (restored: ApiKeys, firstTime: bool, loaded: bool)
    ensures restored == EmptyKeys && firstTime && loaded
  {
    var storage := new Storage(initial);
    var first := new KeyStore(storage);
    first.Clear();
    var second := new KeyStore(storage);
    second.Load(parse);
    restored, firstTime, loaded := second.apiKeys, second.isFirstTime, second.isLoaded;
  }
}
