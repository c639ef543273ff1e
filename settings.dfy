/**
 * The settings store: a JSON object kept in a settings file, read afresh by
 * every `loadSetting` and rewritten by every `saveSetting`.
 */
module Settings {

  /** The settings file as `loadSettings` finds it. */
  datatype SettingsFile = Missing | Undecodable | Saved(values: map<string, string>)

  /** `loadSettings`: a missing or undecodable file reads as the empty map. */
  function LoadSettings(f: SettingsFile): (m: map<string, string>)
    ensures f.Saved? ==> m == f.values
    ensures !f.Saved? ==> m == map[]
  {
    if f.Saved? then f.values else map[]
  }

  /** `loadSetting(key, default)`: the stored value, or the default when the key is absent. */
  function LoadSetting(f: SettingsFile, key: string, default: string): (v: string)
    ensures key in LoadSettings(f) ==> v == LoadSettings(f)[key]
    ensures key !in LoadSettings(f) ==> v == default
  {
    var m := LoadSettings(f);
    if key in m then m[key] else default
  }

  /** The file `saveSetting(key, value)` writes: the loaded settings with `key` set to `value`. */
  function WithSetting(f: SettingsFile, key: string, value: string): (g: SettingsFile)
    ensures g.Saved?
    ensures forall d :: LoadSetting(g, key, d) == value
    ensures forall k, d :: k != key ==> LoadSetting(g, k, d) == LoadSetting(f, k, d)
    ensures LoadSettings(g).Keys == LoadSettings(f).Keys + {key}
  {
    Saved(LoadSettings(f)[key := value])
  }

  /**
   * A missing or undecodable file reads as empty: every lookup yields its
   * default, and the first save writes a file that holds only that setting.
   */
  lemma UnreadableFileStartsEmpty(f: SettingsFile, key: string, value: string)
    requires !f.Saved?
    ensures forall k, d :: LoadSetting(f, k, d) == d
    ensures WithSetting(f, key, value) == Saved(map[key := value])
  {
  }

  /** Saving twice under one key keeps only the second value; saving under two keys commutes. */
  lemma SaveOrder(f: SettingsFile, k1: string, v1: string, k2: string, v2: string)
    ensures WithSetting(WithSetting(f, k1, v1), k1, v2) == WithSetting(f, k1, v2)
    ensures k1 != k2 ==> WithSetting(WithSetting(f, k1, v1), k2, v2) == WithSetting(WithSetting(f, k2, v2), k1, v1)
  {
  }

  /** The settings file and the read-modify-write of `saveSetting`. */
  class Store {
    var file: SettingsFile

    constructor (initial: SettingsFile)
      ensures file == initial
    {
      file := initial;
    }

    function Get(key: string, default: string): string
      reads this
    {
      LoadSetting(file, key, default)
    }

    /** `saveSetting`: load, set one key, write the whole map back. */
    method SaveSetting(key: string, value: string)
      modifies this
      ensures file == WithSetting(old(file), key, value)
      ensures Get(key, "") == value
      ensures forall k, d :: k != key ==> Get(k, d) == old(Get(k, d))
    {
      var settings := LoadSettings(file);
      settings := settings[key := value];
      file := Saved(settings);
    }
  }
}
