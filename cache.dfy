/** MemoryCacheService: a string-to-string cache whose entries carry an absolute
    expiration fixed when they are written. Time is a tick count (seconds) passed in. */
module Cache {
  import opened Options

  /** A cached string and the tick at which it stops being visible. */
  datatype Entry = Entry(value: string, expiresAt: int)

  type Entries = map<string, Entry>

  /** IMemoryCache.TryGetValue: an entry is found while the clock is strictly
      before its absolute expiration. */
  function Lookup(entries: Entries, key: string, now: int): (r: Option<string>)
    ensures r.Some? <==> key in entries && now < entries[key].expiresAt
    ensures r.Some? ==> r.value == entries[key].value
  {
    if key in entries && now < entries[key].expiresAt then Some(entries[key].value) else None
  }

  /** IMemoryCache.Set with AbsoluteExpirationRelativeToNow = `ttl`: the key reads as
      `value` until `ttl` ticks have passed and as absent from then on, whatever it
      held before; every other key keeps its entry. */
  function Put(entries: Entries, key: string, value: string, ttl: nat, now: int): (r: Entries)
    ensures forall t :: t < now + ttl ==> Lookup(r, key, t) == Some(value)
    ensures forall t :: t >= now + ttl ==> Lookup(r, key, t) == None
    ensures forall k :: k != key ==> (k in r <==> k in entries)
    ensures forall k :: k != key && k in r ==> r[k] == entries[k]
  {
    entries[key := Entry(value, now + ttl)]
  }

  /** IMemoryCache.Remove: the key reads as absent at every tick; every other key
      keeps its entry. */
  function Delete(entries: Entries, key: string): (r: Entries)
    ensures forall t :: Lookup(r, key, t) == None
    ensures forall k :: k != key ==> (k in r <==> k in entries)
    ensures forall k :: k != key && k in r ==> r[k] == entries[k]
  {
    entries - {key}
  }

  /** The ICacheService implementation over the process-wide IMemoryCache. */
  class MemoryCacheService {
    var entries: Entries

    constructor ()
      ensures entries == map[]
    {
      entries := map[];
    }

    /** GetAsync: the cached string, or null when there is none or it has expired. */
    function GetAsync(key: string, now: int): (r: Option<string>)
      reads this
      ensures r.Some? <==> key in entries && now < entries[key].expiresAt
      ensures r.Some? ==> r.value == entries[key].value
    {
      Lookup(entries, key, now)
    }

    /** SetAsync: MemoryCacheEntryOptions refuses an expiration that is not positive. */
    method SetAsync(key: string, value: string, expiration: nat, now: int)
      requires expiration > 0
      modifies this
      ensures entries == Put(old(entries), key, value, expiration, now)
    {
      entries := entries[key := Entry(value, now + expiration)];
    }

    /** RemoveAsync. */
    method RemoveAsync(key: string)
      modifies this
      ensures entries == Delete(old(entries), key)
    {
      entries := entries - {key};
    }
  }
}
