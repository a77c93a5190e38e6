/**
 * The Redis-style key-value backend the stores write to: a map from key to
 * a JSON value and the expiry (`EX` seconds) it was written with. Expiry
 * itself is driven by the backend and is not simulated; a missing key is an
 * absent or expired record.
 */
module Kv {
  import opened Wrappers
  import opened Json

  datatype Entry = Entry(value: Json, ttl: Option<nat>)

  class KvStore {
    var data: map<string, Entry>

    constructor (initial: map<string, Entry>)
      ensures data == initial
    {
      data := initial;
    }
  }

  /** The `{ ex: ttl }` option as written by `ttl ? { ex: ttl } : undefined`: zero means no expiry. */
  function ExpiryOption(ttl: Option<nat>): (r: Option<nat>)
    ensures r.Some? <==> ttl.Some? && ttl.value > 0
    ensures r.Some? ==> r.value == ttl.value
  {
    if ttl.Some? && ttl.value > 0 then ttl else None
  }
}
