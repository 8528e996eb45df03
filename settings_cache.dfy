/**
 The module-scoped settings slot of utils/settingsCache.js. The JavaScript
 module's `let settingsCache` is the one field of a `Cache` object; creating
 the object is loading the module. Reads answer null on the server, which the
 source detects with `typeof window === 'undefined'` and which is the
 `isServer` argument here.
 */
module SettingsCache {
  import opened JsValues

  class Cache<T> {
    /** The stored settings; `None` is the source's `null`. */
    var settingsCache: Option<T>

    /** Module load: the slot starts out null. */
    constructor ()
      ensures settingsCache == None
    {
      settingsCache := None;
    }

    /** `getCachedSettings()`: null on the server whatever is stored, the stored
        value on the client; it changes nothing. */
    method GetCachedSettings(isServer: bool) returns (r: Option<T>)
      ensures isServer ==> r == None
      ensures !isServer ==> r == settingsCache
    {
      if isServer {
        return None;
      }
      r := settingsCache;
    }

    /** `setCachedSettings(settings)`: replaces whatever was stored. */
    method SetCachedSettings(settings: T)
      modifies this
      ensures settingsCache == Some(settings)
    {
      settingsCache := Some(settings);
    }

    /** `clearSettingsCache()`: back to null, whatever was stored. */
    method ClearSettingsCache()
      modifies this
      ensures settingsCache == None
    {
      settingsCache := None;
    }
  }

  /** On the client a read right after a write returns what was written, and
      the read leaves the slot as it was. */
  method SetThenGet<T>(c: Cache<T>, first: T, second: T) returns (r: Option<T>)
    modifies c
    ensures r == Some(second)
    ensures c.settingsCache == Some(second)
  {
    c.SetCachedSettings(first);
    c.SetCachedSettings(second);
    r := c.GetCachedSettings(false);
  }

  /** After one or two clears a client read returns null. */
  method ClearThenGet<T>(c: Cache<T>, twice: bool) returns (r: Option<T>)
    modifies c
    ensures r == None
    ensures c.settingsCache == None
  {
    c.ClearSettingsCache();
    if twice {
      c.ClearSettingsCache();
    }
    r := c.GetCachedSettings(false);
  }

  /** On the server reads are null even right after a write. */
  method ServerNeverReads<T>(c: Cache<T>, settings: T) returns (r: Option<T>)
    modifies c
    ensures r == None
    ensures c.settingsCache == Some(settings)
  {
    c.SetCachedSettings(settings);
    r := c.GetCachedSettings(true);
  }
}
