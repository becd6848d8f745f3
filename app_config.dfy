/**
 * `AppConfig`: the application's own settings, a mutable dictionary built from
 * keyword arguments and read and written by key.
 */
module AppConfigs {
  import opened Results
  import opened Outcomes

  class AppConfig<V> {
    /** The `_config` dictionary. */
    var config: map<string, V>

    /** `AppConfig(**kwargs)`: the settings are exactly the keyword arguments. */
    constructor (kwargs: map<string, V>)
      ensures config == kwargs
    {
      config := kwargs;
    }

    /** `obj[key]`: the stored value, or `KeyError` for a key never set. */
    function Get(key: string): (r: Result<V, Failure>)
      reads this
      ensures r.Ok? <==> key in config
      ensures r.Ok? ==> r.value == config[key]
      ensures r.Err? ==> r.error == KeyError(key)
    {
      if key in config then Ok(config[key]) else Err(KeyError(key))
    }

    /** `obj[key] = value`: adds or overwrites one key, leaving the others alone. */
    method Set(key: string, value: V)
      modifies this
      ensures config == old(config)[key := value]
      ensures Get(key) == Ok(value)
      ensures forall k :: k != key ==> Get(k) == old(Get(k))
    {
      config := config[key := value];
    }
  }
}
