/** `internal/cache`: the client of the key/value store, which changes the shared entries in place.
    `fail` says that the command does not get through. */
module Cache {
  import opened Prelude
  import opened Entities
  import opened Store

  class RedisClient {
    var entries: Entries

    constructor ()
      ensures entries == map[]
    {
      entries := map[];
    }

    /** The key holds the value until its time is up, and no other key is affected. */
    method Set(key: string, value: Payload, ttl: nat, now: int, fail: bool) returns (r: Result<()>)
      modifies this
      ensures r == if fail then Err(Infrastructure) else Ok(())
      ensures entries == if fail then old(entries) else Put(old(entries), key, value, ttl, now)
      ensures !fail ==>
                && (forall t :: Find(entries, key, t) == if ttl == 0 || t <= now + ttl then Some(value) else None)
                && (forall other, t :: other != key ==> Find(entries, other, t) == Find(old(entries), other, t))
    {
      if fail {
        return Err(Infrastructure);
      }
      entries := entries[key := Entry(value, if ttl == 0 then None else Some(now + ttl))];
      return Ok(());
    }

    method Get(key: string, now: int, fail: bool) returns (r: Result<Payload>)
      ensures r == if fail then Err(Infrastructure)
                   else match Find(entries, key, now) case Some(value) => Ok(value) case None => Err(KeyNotFound)
    {
      if fail {
        return Err(Infrastructure);
      }
      if key !in entries || !Live(entries[key], now) {
        return Err(KeyNotFound);
      }
      return Ok(entries[key].payload);
    }

    /** What `Get` would have answered; afterwards no command finds the key. */
    method GetDel(key: string, now: int, fail: bool) returns (r: Result<Payload>)
      modifies this
      ensures r == if fail then Err(Infrastructure)
                   else match Find(old(entries), key, now) case Some(value) => Ok(value) case None => Err(KeyNotFound)
      ensures entries == if fail then old(entries) else old(entries) - {key}
      ensures !fail ==> forall t :: Find(entries, key, t).None?
      ensures forall other, t :: other != key ==> Find(entries, other, t) == Find(old(entries), other, t)
    {
      r := Get(key, now, fail);
      if !fail {
        entries := entries - {key};
      }
    }

    /** Missing keys are ignored. */
    method Delete(keys: seq<string>, fail: bool) returns (r: Result<()>)
      modifies this
      ensures r == if fail then Err(Infrastructure) else Ok(())
      ensures entries == if fail then old(entries) else old(entries) - (set key | key in keys)
      ensures !fail ==> forall key, t ::
                          Find(entries, key, t) == if key in keys then None else Find(old(entries), key, t)
    {
      if fail {
        return Err(Infrastructure);
      }
      entries := entries - (set key | key in keys);
      return Ok(());
    }
  }
}
