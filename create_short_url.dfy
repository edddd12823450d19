/** CreateShortUrlCommandHandler: shorten a long URL, answering from the cache when
    the URL was shortened before and the entry is still live. */
module CreateShortUrlCommand {
  import opened Options
  import opened Text
  import opened Numerals
  import opened Guids
  import opened Results
  import opened Store
  import opened Cache
  import opened Handling

  const InvalidLongUrl := "Invalid LongUrl"
  const ShortUrlFromCache := "Short URL retrieved from cache"
  const Created := "Short URL created successfully"

  /** GenerateShortUrl: the first 8 characters of Guid.ToString("N"), i.e. the Guid's
      first 32 bits as 8 lowercase hex digits; different first fields give different codes. */
  function GenerateShortUrl(source: Guid): (code: string)
    ensures |code| == 8 && AllLowerHex(code)
    ensures HexToNat(code) == source.a
  {
    var n := ToStringN(source);
    assert Pow16(8) == 0x1_0000_0000;
    assert n[..8] == Hex(source.a, 8);
    HexRoundTrip(source.a, 8);
    n[..8]
  }

  /** The code is the Guid's first field written as 8 hex digits. */
  lemma ShortUrlIsFirstField(source: Guid)
    ensures GenerateShortUrl(source) == Hex(source.a, 8)
  {
  }

  /** The row Handle adds on a cache miss. */
  function NewRow(id: Guid, longUrl: string, shortUrl: string, now: int): UrlMap
  {
    UrlMap(id, longUrl, shortUrl, now, 0, None)
  }

  /** Handle(CreateShortUrlCommand) as a function of the store, the cache and its inputs:
      `longUrl` is the request's LongUrl, `now` the clock, `source` the Guid the code
      is cut from and `id` the new row's Id. */
  function CreateShortUrl(store: Table, cache: Entries, now: int, longUrl: Option<string>,
                          source: Guid, id: Guid): (o: Outcome<string>)
    // a blank LongUrl is rejected and nothing changes
    ensures IsNullOrWhiteSpace(longUrl) ==>
      o == Outcome(Failure(InvalidLongUrl, Status400BadRequest), store, cache)
    // a live cache entry for the LongUrl is returned as it is, and nothing changes
    ensures !IsNullOrWhiteSpace(longUrl) && Lookup(cache, longUrl.value, now).Some? ==>
      o == Outcome(Success(Lookup(cache, longUrl.value, now).value, Status200OK, Some(ShortUrlFromCache), None), store, cache)
    // on a miss the generated code is stored and cached, or the save fails with 500
    ensures !IsNullOrWhiteSpace(longUrl) && Lookup(cache, longUrl.value, now).None? ==>
      var code := GenerateShortUrl(source);
      if CanInsert(store, NewRow(id, longUrl.value, code, now)) then
        && o.result == Success(code, Status201Created, Some(Created), None)
        && o.store == Insert(store, NewRow(id, longUrl.value, code, now))
        && o.cache == Put(cache, longUrl.value, code, ThirtyDays, now)
      else
        o == Outcome(Failure(GenericError, Status500InternalServerError), store, cache)
    // the store gains at most one row, under the returned code, with a zero count
    ensures o.store == store || (
      && o.result.responseCode == Some(Status201Created) && o.result.data.Some?
      && var code := o.result.data.value;
      && code !in store && o.store.Keys == store.Keys + {code}
      && o.store[code].longUrl == longUrl.value && o.store[code].accessCount == 0
      && (forall s :: s in store ==> o.store[s] == store[s]))
    // only the LongUrl's cache entry can change, and only together with a new row
    ensures o.cache == cache || (
      && o.store != store
      && forall k, t :: k != longUrl.value ==> Lookup(o.cache, k, t) == Lookup(cache, k, t))
    ensures Valid(store) ==> Valid(o.store)
  {
    if IsNullOrWhiteSpace(longUrl) then
      Outcome(Failure(InvalidLongUrl, Status400BadRequest), store, cache)
    else
      match Lookup(cache, longUrl.value, now)
      case Some(cachedShortUrl) =>
        Outcome(Success(cachedShortUrl, Status200OK, Some(ShortUrlFromCache), None), store, cache)
      case None =>
        var shortUrl := GenerateShortUrl(source);
        var row := NewRow(id, longUrl.value, shortUrl, now);
        if CanInsert(store, row) then
          Outcome(Success(shortUrl, Status201Created, Some(Created), None),
                  Insert(store, row), Put(cache, longUrl.value, shortUrl, ThirtyDays, now))
        else
          Outcome(Failure(GenericError, Status500InternalServerError), store, cache)
  }

  class CreateShortUrlCommandHandler {
    const context: UrlShortenerDbContext
    const cacheService: MemoryCacheService

    constructor (context: UrlShortenerDbContext, cacheService: MemoryCacheService)
      ensures this.context == context && this.cacheService == cacheService
    {
      this.context := context;
      this.cacheService := cacheService;
    }

    /** Handle: validate, consult the cache, add and save the row, then cache it. */
    method Handle(longUrl: Option<string>, now: int, source: Guid, id: Guid) returns (r: Result<string>)
      modifies context, cacheService
      ensures Outcome(r, context.urlMappings, cacheService.entries)
           == CreateShortUrl(old(context.urlMappings), old(cacheService.entries), now, longUrl, source, id)
    {
      if IsNullOrWhiteSpace(longUrl) {
        return Failure(InvalidLongUrl, Status400BadRequest);
      }
      var cachedShortUrl := cacheService.GetAsync(longUrl.value, now);
      if cachedShortUrl.Some? {
        return Success(cachedShortUrl.value, Status200OK, Some(ShortUrlFromCache), None);
      }
      var shortUrl := GenerateShortUrl(source);
      var urlMapping := NewRow(id, longUrl.value, shortUrl, now);
      var saved := context.AddAndSave(urlMapping);
      if !saved {
        return Failure(GenericError, Status500InternalServerError);
      }
      cacheService.SetAsync(longUrl.value, shortUrl, ThirtyDays, now);
      return Success(shortUrl, Status201Created, Some(Created), None);
    }
  }

  /** Shortening the same LongUrl again while the first answer is still cached gives the
      same code with 200 and adds no row. */
  lemma CreateAgainWhileCached(store: Table, cache: Entries, t1: int, t2: int, longUrl: Option<string>,
                               source1: Guid, id1: Guid, source2: Guid, id2: Guid)
    requires t2 < t1 + ThirtyDays
    requires CreateShortUrl(store, cache, t1, longUrl, source1, id1).result.responseCode == Some(Status201Created)
    ensures var first := CreateShortUrl(store, cache, t1, longUrl, source1, id1);
            var second := CreateShortUrl(first.store, first.cache, t2, longUrl, source2, id2);
            && second.result == Success(first.result.data.value, Status200OK, Some(ShortUrlFromCache), None)
            && second.store == first.store && second.cache == first.cache
  {
  }
}
