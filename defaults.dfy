/**
 * `UsersDefaultHelper`: the persisted key-value store (UserDefaults), keyed by
 * the raw strings of four storage keys. Strings are stored as strings, Codable
 * values as the JSON text JSONEncoder wrote for them.
 */
module Defaults {
  import opened Wrappers
  import opened Foundation

  datatype StorageKey = UserAlternatorPath | Environment | Filters | UserProfile

  function KeyName(k: StorageKey): string
  {
    match k
    case UserAlternatorPath => "CurrentUserAlternatorPath"
    case Environment => "CurrentEnvironment"
    case Filters => "CurrentUserFilters"
    case UserProfile => "UserProfile"
  }

  /** A value in UserDefaults: a string, or `Data` (held as its UTF-8 text). */
  datatype Stored = StoredString(s: string) | StoredData(bytes: string)

  type Store = map<string, Stored>

  /** `string(forKey:)`: only a stored string is returned. */
  function StringAt(m: Store, k: StorageKey): (r: Option<string>)
    ensures r.Some? <==> KeyName(k) in m && m[KeyName(k)].StoredString?
    ensures r.Some? ==> m[KeyName(k)] == StoredString(r.value)
  {
    if KeyName(k) in m && m[KeyName(k)].StoredString? then Some(m[KeyName(k)].s) else None
  }

  /** `object(forKey:) as? Data` decoded with `try?`: nil unless data is stored and decodes. */
  function DecodedAt<T>(m: Store, k: StorageKey, text: JsonText, fromJson: Json -> Result<T, DecodingError>): (r: Option<T>)
    ensures r.Some? ==> KeyName(k) in m && m[KeyName(k)].StoredData?
  {
    if KeyName(k) in m && m[KeyName(k)].StoredData? then
      match text.read(m[KeyName(k)].bytes)
      case None => None
      case Some(j) => fromJson(j).ToOption()
    else None
  }

  /** The store after `set(_:forKey:)`: written only when encoding succeeded. */
  function SetAt(m: Store, k: StorageKey, encoded: Result<string, Error>): (r: Store)
    ensures encoded.Failure? ==> r == m
    ensures encoded.Success? ==> r == m[KeyName(k) := StoredData(encoded.value)]
  {
    if encoded.Success? then m[KeyName(k) := StoredData(encoded.value)] else m
  }

  class UsersDefaultHelper {
    var defaults: Store

    /** The store as persisted from earlier runs. */
    constructor (persisted: Store)
      ensures defaults == persisted
    {
      defaults := persisted;
    }

    /** `save(_:withKey:)` of a string */
    method Save(value: string, key: StorageKey)
      modifies this
      ensures defaults == old(defaults)[KeyName(key) := StoredString(value)]
    {
      defaults := defaults[KeyName(key) := StoredString(value)];
    }

    /** `getString(forKey:)` */
    function GetString(key: StorageKey): (r: Option<string>)
      reads this
      ensures r == StringAt(defaults, key)
    {
      StringAt(defaults, key)
    }

    /** `set(_:forKey:)`: the value is encoded to JSON; a failed encoding writes nothing. */
    method Set<T>(item: T, key: StorageKey, text: JsonText, toJson: T -> Json)
      modifies this
      ensures defaults == SetAt(old(defaults), key, text.write(toJson(item)))
    {
      var encoded := text.write(toJson(item));
      if encoded.Success? {
        defaults := defaults[KeyName(key) := StoredData(encoded.value)];
      }
    }

    /** `get(forKey:)` */
    function Get<T>(key: StorageKey, text: JsonText, fromJson: Json -> Result<T, DecodingError>): (r: Option<T>)
      reads this
      ensures r == DecodedAt(defaults, key, text, fromJson)
    {
      DecodedAt(defaults, key, text, fromJson)
    }

    /** `removeObject(forKey:)` */
    method RemoveObject(key: StorageKey)
      modifies this
      ensures defaults == old(defaults) - {KeyName(key)}
    {
      defaults := defaults - {KeyName(key)};
    }
  }

  /** The four keys are stored under pairwise distinct names. */
  lemma KeyNamesDistinct(a: StorageKey, b: StorageKey)
    ensures KeyName(a) == KeyName(b) ==> a == b
  {
  }

  /** `getString` after `save` returns the saved string. */
  lemma GetStringAfterSave(m: Store, k: StorageKey, s: string)
    ensures StringAt(m[KeyName(k) := StoredString(s)], k) == Some(s)
  {
  }

  /** `get` after `set` returns the object, when encoding succeeded and the JSON reads back and decodes to it. */
  lemma GetAfterSet<T>(m: Store, k: StorageKey, item: T, text: JsonText,
                       toJson: T -> Json, fromJson: Json -> Result<T, DecodingError>)
    requires text.write(toJson(item)).Success?
    requires ReadsBack(text, toJson(item))
    requires fromJson(toJson(item)) == Success(item)
    ensures DecodedAt(SetAt(m, k, text.write(toJson(item))), k, text, fromJson) == Some(item)
  {
  }

  /** `get` finds nothing after `removeObject`, nor where a string was saved with `save`. */
  lemma GetAfterRemoveOrSave<T>(m: Store, k: StorageKey, s: string, text: JsonText, fromJson: Json -> Result<T, DecodingError>)
    ensures DecodedAt(m - {KeyName(k)}, k, text, fromJson) == None
    ensures DecodedAt(m[KeyName(k) := StoredString(s)], k, text, fromJson) == None
    ensures StringAt(m - {KeyName(k)}, k) == None
  {
  }

  /** Writing or removing one key leaves what every other key reads unchanged. */
  lemma OtherKeysUnchanged<T>(m: Store, k: StorageKey, other: StorageKey, v: Stored,
                              text: JsonText, fromJson: Json -> Result<T, DecodingError>)
    requires other != k
    ensures StringAt(m[KeyName(k) := v], other) == StringAt(m, other)
    ensures StringAt(m - {KeyName(k)}, other) == StringAt(m, other)
    ensures DecodedAt(m[KeyName(k) := v], other, text, fromJson) == DecodedAt(m, other, text, fromJson)
    ensures DecodedAt(m - {KeyName(k)}, other, text, fromJson) == DecodedAt(m, other, text, fromJson)
  {
    KeyNamesDistinct(k, other);
  }
}
