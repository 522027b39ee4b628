/**
 * The API-key store: one string cell in the app's shared preferences,
 * "" until something is saved. A call that throws is given as a fault;
 * a failed save leaves the cell as it was.
 */
module ApiKeyRepository {
  import opened Wrappers
  import opened Exceptions

  class ApiKeyRepository {
    /** The stored key; "" means no key, the free tier. */
    var apiKey: string

    constructor ()
      ensures apiKey == ""
    {
      apiKey := "";
    }

    /** `getApiKey()`: the stored key, or the exception the store threw. */
    method GetApiKey(fault: Option<Exception>) returns (r: Result<string, Exception>)
      ensures fault.Some? ==> r == Failure(fault.value)
      ensures fault.None? ==> r == Success(apiKey)
    {
      r := if fault.Some? then Failure(fault.value) else Success(apiKey);
    }

    /** `saveApiKey(key)`: stores `key` unless the store throws. */
    method SaveApiKey(key: string, fault: Option<Exception>) returns (r: Result<(), Exception>)
      modifies this
      ensures fault.Some? ==> r == Failure(fault.value) && apiKey == old(apiKey)
      ensures fault.None? ==> r == Success(()) && apiKey == key
    {
      if fault.Some? {
        r := Failure(fault.value);
      } else {
        apiKey := key;
        r := Success(());
      }
    }
  }
}
