/**
 * The application settings file (`utils/settings.py`): a JSON object kept
 * in the application data directory, read with every missing default key
 * filled in. The file itself is a value of `SettingsFile`; writing it is a
 * step whose success is given, since it is file I/O.
 */
module AppSettingsFile {
  import opened Wrappers
  import opened Values

  /** `DEFAULT_SETTINGS`, in its declaration order. */
  const DefaultSettings: Dict<Value> := [
    ("api_provider", Str("together")),
    ("api_together_model", Str("Qwen/Qwen2.5-Coder-32B-Instruct")),
    ("api_together_temperature", Real(F(0.1, "0.1"))),
    ("api_ollama_model", Str("qwen2.5-coder:7b")),
    ("api_ollama_temperature", Real(F(0.1, "0.1"))),
    ("theme", Str("light")),
    ("last_export_format", Str("CSV")),
    ("last_export_directory", Str(""))]

  /** What the settings file holds: nothing, something `json.load` rejects, or an object. */
  datatype SettingsFile = Missing | Unreadable | Stored(settings: Dict<Value>)

  /** One turn of the loop of `get_settings`: a missing default key is added at the end. */
  function FillOne(d: Dict<Value>, e: (string, Value)): Dict<Value> {
    if HasKey(d, e.0) then d else Set(d, e.0, e.1)
  }

  /** The loop of `get_settings` over the remaining defaults `defs`. */
  function FillDefaults(d: Dict<Value>, defs: Dict<Value>): Dict<Value>
    decreases |defs|
  {
    if |defs| == 0 then d else FillDefaults(FillOne(d, defs[0]), defs[1..])
  }

  /** `get_settings()` as a value: the defaults when the file is missing or unreadable. */
  function Loaded(file: SettingsFile): Dict<Value> {
    match file
    case Missing => DefaultSettings
    case Unreadable => DefaultSettings
    case Stored(d) => FillDefaults(d, DefaultSettings)
  }

  /** `get_settings`: the read object, completed key by key from the defaults. */
  method GetSettings(file: SettingsFile) returns (settings: Dict<Value>)
    ensures settings == Loaded(file)
  {
    if !file.Stored? {
      return DefaultSettings;
    }
    settings := file.settings;
    var k := 0;
    while k < |DefaultSettings|
      invariant 0 <= k <= |DefaultSettings|
      invariant FillDefaults(settings, DefaultSettings[k..]) == Loaded(file)
    {
      var (key, value) := DefaultSettings[k];
      assert DefaultSettings[k..][1..] == DefaultSettings[k + 1..];
      if !HasKey(settings, key) {
        settings := Set(settings, key, value);
      }
      k := k + 1;
    }
  }

  /** A stored key keeps its stored value; any other key takes its default, if it has one. */
  lemma {:induction false} FillDefaultsGet(d: Dict<Value>, defs: Dict<Value>, k: string)
    ensures Get(FillDefaults(d, defs), k) == if Get(d, k).Some? then Get(d, k) else Get(defs, k)
    decreases |defs|
  {
    if |defs| > 0 {
      var e, t := defs[0], defs[1..];
      assert defs == [e] + t;
      GetCons(e, t, k);
      FillDefaultsGet(FillOne(d, e), t, k);
      GetNone(d, e.0);
      if !HasKey(d, e.0) {
        SetProperties(d, e.0, e.1);
      }
    }
  }

  /** Filling in defaults never drops or reorders a stored key: the object grows at its end. */
  lemma {:induction false} FillDefaultsExtends(d: Dict<Value>, defs: Dict<Value>)
    ensures |FillDefaults(d, defs)| >= |d| && FillDefaults(d, defs)[..|d|] == d
    decreases |defs|
  {
    if |defs| > 0 {
      var d' := FillOne(d, defs[0]);
      if !HasKey(d, defs[0].0) {
        SetProperties(d, defs[0].0, defs[0].1);
      }
      FillDefaultsExtends(d', defs[1..]);
      assert d'[..|d|] == d;
    }
  }

  /**
   * Every default key is present in what `get_settings` returns, and the
   * stored value wins over the default.
   */
  lemma LoadedKeepsStoredAndDefaults(file: SettingsFile, k: string)
    ensures Get(DefaultSettings, k).Some? ==> Get(Loaded(file), k).Some?
    ensures file.Stored? && Get(file.settings, k).Some? ==> Get(Loaded(file), k) == Get(file.settings, k)
    ensures file.Stored? && Get(file.settings, k).None? ==> Get(Loaded(file), k) == Get(DefaultSettings, k)
    ensures !file.Stored? ==> Loaded(file) == DefaultSettings
  {
    if file.Stored? {
      FillDefaultsGet(file.settings, DefaultSettings, k);
    }
  }

  /** The first default is the provider. */
  lemma DefaultProviderEntry()
    ensures Get(DefaultSettings, "api_provider") == Some(Str("together"))
  {
    assert DefaultSettings == [DefaultSettings[0]] + DefaultSettings[1..];
    GetCons(DefaultSettings[0], DefaultSettings[1..], "api_provider");
  }

  /** `get_setting(key, default)`. */
  function GetSetting(file: SettingsFile, key: string, default: Value): (r: Value)
    ensures Get(Loaded(file), key).None? ==> r == default
    ensures Get(Loaded(file), key).Some? ==> r == Get(Loaded(file), key).value
  {
    GetOr(Loaded(file), key, default)
  }

  /** `get_api_provider`: the stored provider, `"together"` by default. */
  function GetApiProvider(file: SettingsFile): (r: Value)
    ensures !file.Stored? ==> r == Str("together")
    ensures file.Stored? && Get(file.settings, "api_provider").Some? ==> r == Get(file.settings, "api_provider").value
    ensures file.Stored? && Get(file.settings, "api_provider").None? ==> r == Str("together")
  {
    LoadedKeepsStoredAndDefaults(file, "api_provider");
    DefaultProviderEntry();
    GetSetting(file, "api_provider", Str("together"))
  }

  /** The two providers `set_api_provider` accepts. */
  predicate KnownProvider(p: string) {
    p == "together" || p == "ollama"
  }

  /** `set_api_provider`: `ValueError` for an unknown provider, before anything is written. */
  datatype ProviderUpdate = Rejected(message: string) | Written(saved: bool)

  /** The settings file as a store that the update functions rewrite. */
  class SettingsStore {
    var file: SettingsFile

    constructor (file: SettingsFile)
      ensures this.file == file
    {
      this.file := file;
    }

    /**
     * `update_setting(key, value)`: the loaded settings with `key` set,
     * saved; `saved` is whether the write succeeds, which is returned.
     */
    method UpdateSetting(key: string, value: Value, saved: bool) returns (ok: bool)
      modifies this
      ensures ok == saved
      ensures saved ==> file == Stored(Set(Loaded(old(file)), key, value))
      ensures !saved ==> file == old(file)
    {
      var settings := GetSettings(file);
      settings := Set(settings, key, value);
      if saved {
        file := Stored(settings);
      }
      ok := saved;
    }

    method SetApiProvider(provider: string, saved: bool) returns (r: ProviderUpdate)
      modifies this
      ensures !KnownProvider(provider) ==> r == Rejected("Invalid API provider: " + provider) && file == old(file)
      ensures KnownProvider(provider) ==> r == Written(saved)
      ensures KnownProvider(provider) && saved ==> file == Stored(Set(Loaded(old(file)), "api_provider", Str(provider)))
      ensures KnownProvider(provider) && !saved ==> file == old(file)
    {
      if !KnownProvider(provider) {
        return Rejected("Invalid API provider: " + provider);
      }
      var ok := UpdateSetting("api_provider", Str(provider), saved);
      r := Written(ok);
    }
  }

  /**
   * After a saved `update_setting(key, value)`, reading gives `value` for
   * `key` and the earlier reading for every other key.
   */
  lemma UpdateSettingChangesOnlyKey(before: SettingsFile, key: string, value: Value, k: string)
    ensures Get(Loaded(Stored(Set(Loaded(before), key, value))), key) == Some(value)
    ensures k != key ==> Get(Loaded(Stored(Set(Loaded(before), key, value))), k) == Get(Loaded(before), k)
  {
    var d := Set(Loaded(before), key, value);
    SetProperties(Loaded(before), key, value);
    FillDefaultsGet(d, DefaultSettings, key);
    FillDefaultsGet(d, DefaultSettings, k);
    LoadedKeepsStoredAndDefaults(before, k);
    if Get(d, k).None? {
      GetNone(Loaded(before), k);
      GetNone(d, k);
    }
  }
}
