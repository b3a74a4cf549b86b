/** The cache of secrets (src/cache.rs:286-428): one lookup, as a class and as functions on values. */
module SecretsCache {
  import opened Wrappers

  type Bytes = seq<bv8>
  type Data = map<string, Bytes>

  datatype Entry = Entry(data: Data, expiresAt: nat)

  datatype Error = NoData | NoKey | NotUtf8 | ApiError
  datatype Result = Ok(value: string) | Err(error: Error)

  /** The answer of the API: the secret (with an optional `data` part), or an error. */
  datatype Reply = Secret(data: Option<Data>) | Failure

  /** `String::from_utf8` of one value. */
  function Decoded(decode: Bytes -> Option<string>, bytes: Bytes): Result {
    match decode(bytes)
    case Some(s) => Ok(s)
    case None => Err(NotUtf8)
  }

  /** The section under the read lock: an answer, or none if the API has to be asked. */
  function FromCache(cache: map<string, Entry>, hashKey: string, key: string, now: nat, decode: Bytes -> Option<string>)
    : Option<Result>
  {
    if hashKey in cache && cache[hashKey].expiresAt > now && key in cache[hashKey].data
    then Some(Decoded(decode, cache[hashKey].data[key])) else None
  }

  /** The value of a key in a reply of the API. */
  function FromReply(reply: Reply, key: string, decode: Bytes -> Option<string>): Result {
    match reply
    case Failure => Err(ApiError)
    case Secret(None) => Err(NoData)
    case Secret(Some(data)) => if key in data then Decoded(decode, data[key]) else Err(NoKey)
  }

  /** The section under the write lock: the reply is stored only if the value could be taken from it. */
  function Stored(cache: map<string, Entry>, hashKey: string, key: string, reply: Reply, now: nat, timeout: nat,
                  decode: Bytes -> Option<string>): map<string, Entry>
  {
    if FromReply(reply, key, decode).Ok? then cache[hashKey := Entry(reply.data.value, now + timeout)] else cache
  }

  class Cache {
    const timeout: nat
    const decode: Bytes -> Option<string>
    var cache: map<string, Entry>

    constructor (timeout: nat, decode: Bytes -> Option<string>)
      ensures cache == map[] && this.timeout == timeout && this.decode == decode
    {
      this.timeout, this.decode, this.cache := timeout, decode, map[];
    }

    /** `readAt` and `storedAt` are the times of the two readings of the clock, `reply` is what the
        API would answer. */
    method GetKeyValue(ns: string, name: string, key: string, readAt: nat, reply: Reply, storedAt: nat)
      returns (r: Result)
      modifies this`cache
      ensures var id := ns + "/" + name;
        if id in old(cache) && readAt < old(cache)[id].expiresAt && key in old(cache)[id].data then
          var value := decode(old(cache)[id].data[key]);
          cache == old(cache) && r == if value.Some? then Ok(value.value) else Err(NotUtf8)
        else match reply
          case Failure => cache == old(cache) && r == Err(ApiError)
          case Secret(None) => cache == old(cache) && r == Err(NoData)
          case Secret(Some(data)) =>
            if key !in data then cache == old(cache) && r == Err(NoKey)
            else if decode(data[key]).None? then cache == old(cache) && r == Err(NotUtf8)
            else cache == old(cache)[id := Entry(data, storedAt + timeout)] && r == Ok(decode(data[key]).value)
      ensures var hit := FromCache(old(cache), JoinKey(ns, name), key, readAt, decode);
        if hit.Some? then r == hit.value && cache == old(cache)
        else r == FromReply(reply, key, decode)
             && cache == Stored(old(cache), JoinKey(ns, name), key, reply, storedAt, timeout, decode)
    {
      var hashKey := ns + "/" + name;
      if hashKey in cache {
        var secret := cache[hashKey];
        if secret.expiresAt > readAt {
          if key in secret.data {
            var value := decode(secret.data[key]);
            if value.None? {
              return Err(NotUtf8);
            }
            return Ok(value.value);
          }
        }
      }
      if reply.Failure? {
        return Err(ApiError);
      }
      if reply.data.None? {
        return Err(NoData);
      }
      var data := reply.data.value;
      if key !in data {
        return Err(NoKey);
      }
      var value := decode(data[key]);
      if value.None? {
        return Err(NotUtf8);
      }
      cache := cache[hashKey := Entry(data, storedAt + timeout)];
      return Ok(value.value);
    }
  }
}
