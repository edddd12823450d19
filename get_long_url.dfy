/** GetLongUrlQueryHandler: resolve a short code to its long URL and count the access.
    The row is looked up whether or not the cache answers, because the row's
    AccessCount is raised on both paths. */
module GetLongUrlQuery {
  import opened Options
  import opened Text
  import opened Numerals
  import opened Results
  import opened Store
  import opened Cache
  import opened Handling

  const LongUrlFromCache := "Long URL retrieved from cache"
  const Retrieved := "Long URL retrieved successfully"

  /** Handle(GetLongUrlQuery) as a function of the store, the cache, the clock and the
      request's ShortUrl. */
  function GetLongUrl(store: Table, cache: Entries, now: int, shortUrl: Option<string>): (o: Outcome<string>)
    // a blank ShortUrl is rejected and nothing changes
    ensures IsNullOrWhiteSpace(shortUrl) ==>
      o == Outcome(Failure(InvalidShortUrl, Status400BadRequest), store, cache)
    // no row: 404 and nothing changes, even when the cache holds a value for the code
    ensures !IsNullOrWhiteSpace(shortUrl) && shortUrl.value !in store ==>
      o == Outcome(Failure(ShortUrlNotFound, Status404NotFound), store, cache)
    // a row: exactly that row's AccessCount goes one step up, on either path
    ensures !IsNullOrWhiteSpace(shortUrl) && shortUrl.value in store ==>
      o.store == IncrementAccess(store, shortUrl.value) && o.result.isSuccess
      && o.result.responseCode == Some(Status200OK)
    // a live cache entry is what is returned, tagged as coming from the cache, and the
    // cache is not rewritten
    ensures !IsNullOrWhiteSpace(shortUrl) && shortUrl.value in store && Lookup(cache, shortUrl.value, now).Some? ==>
      o.result == Success(Lookup(cache, shortUrl.value, now).value, Status200OK, Some(LongUrlFromCache), None)
      && o.cache == cache
    // otherwise the row's LongUrl is returned, tagged as retrieved, and cached under the
    // code for 30 days
    ensures !IsNullOrWhiteSpace(shortUrl) && shortUrl.value in store && Lookup(cache, shortUrl.value, now).None? ==>
      o.result == Success(store[shortUrl.value].longUrl, Status200OK, Some(Retrieved), None)
      && o.cache == Put(cache, shortUrl.value, store[shortUrl.value].longUrl, ThirtyDays, now)
    ensures o.result.isSuccess <==> !HasError(o.result)
    ensures Valid(store) ==> Valid(o.store)
  {
    if IsNullOrWhiteSpace(shortUrl) then
      Outcome(Failure(InvalidShortUrl, Status400BadRequest), store, cache)
    else
      var key := shortUrl.value;
      match Lookup(cache, key, now)
      case Some(cachedLongUrl) =>
        if FirstOrDefault(store, key).None? then
          Outcome(Failure(ShortUrlNotFound, Status404NotFound), store, cache)
        else
          Outcome(Success(cachedLongUrl, Status200OK, Some(LongUrlFromCache), None), IncrementAccess(store, key), cache)
      case None =>
        if FirstOrDefault(store, key).None? then
          Outcome(Failure(ShortUrlNotFound, Status404NotFound), store, cache)
        else
          var urlMapping := FirstOrDefault(store, key).value;
          Outcome(Success(urlMapping.longUrl, Status200OK, Some(Retrieved), None),
                  IncrementAccess(store, key), Put(cache, key, urlMapping.longUrl, ThirtyDays, now))
  }

  class GetLongUrlQueryHandler {
    const context: UrlShortenerDbContext
    const cacheService: MemoryCacheService

    constructor (context: UrlShortenerDbContext, cacheService: MemoryCacheService)
      ensures this.context == context && this.cacheService == cacheService
    {
      this.context := context;
      this.cacheService := cacheService;
    }

    /** Handle: validate, consult the cache, fetch the row, count the access, save,
        and on a cache miss cache the long URL. */
    method Handle(shortUrl: Option<string>, now: int) returns (r: Result<string>)
      requires Valid(context.urlMappings)
      modifies context, cacheService
      ensures Outcome(r, context.urlMappings, cacheService.entries)
           == GetLongUrl(old(context.urlMappings), old(cacheService.entries), now, shortUrl)
    {
      if IsNullOrWhiteSpace(shortUrl) {
        return Failure(InvalidShortUrl, Status400BadRequest);
      }
      var cachedLongUrl := cacheService.GetAsync(shortUrl.value, now);
      if cachedLongUrl.Some? {
        var found := context.FirstOrDefaultAsync(shortUrl.value);
        if found.None? {
          return Failure(ShortUrlNotFound, Status404NotFound);
        }
        var urlMapping := found.value.(accessCount := Increment32(found.value.accessCount));
        context.SaveModified(urlMapping);
        return Success(cachedLongUrl.value, Status200OK, Some(LongUrlFromCache), None);
      }
      var found := context.FirstOrDefaultAsync(shortUrl.value);
      if found.None? {
        return Failure(ShortUrlNotFound, Status404NotFound);
      }
      var urlMapping := found.value.(accessCount := Increment32(found.value.accessCount));
      context.SaveModified(urlMapping);
      cacheService.SetAsync(shortUrl.value, urlMapping.longUrl, ThirtyDays, now);
      return Success(urlMapping.longUrl, Status200OK, Some(Retrieved), None);
    }
  }

  /** Resolving a code once per tick of `times`; the code's row must exist. */
  function ResolveAll(store: Table, cache: Entries, shortUrl: string, times: seq<int>): (Table, Entries)
    decreases |times|
  {
    if times == [] then (store, cache)
    else
      var step := GetLongUrl(store, cache, times[0], Some(shortUrl));
      ResolveAll(step.store, step.cache, shortUrl, times[1..])
  }

  /** N resolutions of a known code raise its AccessCount by N (barring 32-bit
      overflow) and change no other row. */
  lemma {:induction false} ResolveCountsEveryAccess(store: Table, cache: Entries, shortUrl: string, times: seq<int>)
    requires !IsNullOrWhiteSpace(Some(shortUrl)) && shortUrl in store
    requires store[shortUrl].accessCount + |times| <= Int32Max
    ensures var after := ResolveAll(store, cache, shortUrl, times).0;
            && after.Keys == store.Keys
            && after[shortUrl] == store[shortUrl].(accessCount := store[shortUrl].accessCount + |times|)
            && forall s :: s in store && s != shortUrl ==> after[s] == store[s]
    decreases |times|
  {
    if times != [] {
      var step := GetLongUrl(store, cache, times[0], Some(shortUrl));
      ResolveCountsEveryAccess(step.store, step.cache, shortUrl, times[1..]);
    }
  }

  /** A second resolution right after a first one answers from the cache with the same
      long URL and counts a second access. */
  lemma ResolveTwice(store: Table, cache: Entries, t1: int, t2: int, shortUrl: string)
    requires !IsNullOrWhiteSpace(Some(shortUrl)) && shortUrl in store
    requires Lookup(cache, shortUrl, t1).None? && t2 < t1 + ThirtyDays
    requires store[shortUrl].accessCount + 2 <= Int32Max
    ensures var first := GetLongUrl(store, cache, t1, Some(shortUrl));
            var second := GetLongUrl(first.store, first.cache, t2, Some(shortUrl));
            && first.result.data == Some(store[shortUrl].longUrl)
            && second.result == Success(store[shortUrl].longUrl, Status200OK, Some(LongUrlFromCache), None)
            && second.store[shortUrl].accessCount == store[shortUrl].accessCount + 2
  {
  }
}
