/** Properties of several requests in a row, across handlers. */
module Scenarios {
  import opened Options
  import opened Text
  import opened Numerals
  import opened Guids
  import opened Results
  import opened Store
  import opened Cache
  import opened Handling
  import opened CreateShortUrlCommand
  import opened GetLongUrlQuery
  import opened GetStatsQuery
  import opened RateLimiting

  /** Shortening L to a new code and then resolving that code, with no cache entry
      under the code, gives back L and leaves the new row's AccessCount at 1. */
  lemma CreateThenResolve(store: Table, cache: Entries, t1: int, t2: int, longUrl: string, source: Guid, id: Guid)
    requires CreateShortUrl(store, cache, t1, Some(longUrl), source, id).result.responseCode == Some(Status201Created)
    requires var created := CreateShortUrl(store, cache, t1, Some(longUrl), source, id);
             Lookup(created.cache, GenerateShortUrl(source), t2).None?
    ensures var created := CreateShortUrl(store, cache, t1, Some(longUrl), source, id);
            var code := created.result.data.value;
            var resolved := GetLongUrl(created.store, created.cache, t2, Some(code));
            && code == GenerateShortUrl(source)
            && resolved.result == Success(longUrl, Status200OK, Some(Retrieved), None)
            && resolved.store[code].accessCount == 1
  {
    var created := CreateShortUrl(store, cache, t1, Some(longUrl), source, id);
    var code := GenerateShortUrl(source);
    var row := NewRow(id, longUrl, code, t1);
    assert !IsNullOrWhiteSpace(Some(longUrl)) && Lookup(cache, longUrl, t1).None? && CanInsert(store, row);
    assert created.store == Insert(store, row) && created.result.data == Some(code);
    assert IsLowerHex(code[0]);
    Text.NotBlank(code, 0);
    var resolved := GetLongUrl(created.store, created.cache, t2, Some(code));
    assert resolved.store == IncrementAccess(created.store, code);
  }

  lemma ExampleCode()
    ensures Hex(0xa1b2c3d4, 8) == "a1b2c3d4"
  {
    assert Hex(0x0, 0) == "";
    assert Hex(0xa, 1) == "a";
    assert Hex(0xa1, 2) == "a1";
    assert Hex(0xa1b, 3) == "a1b";
    assert Hex(0xa1b2, 4) == "a1b2";
    assert Hex(0xa1b2c, 5) == "a1b2c";
    assert Hex(0xa1b2c3, 6) == "a1b2c3";
    assert Hex(0xa1b2c3d, 7) == "a1b2c3d";
  }

  /** Shorten "https://example.com" with the code cut from a Guid whose first field is
      0xa1b2c3d4, resolve it, then read its stats. */
  lemma ShortenResolveStats(source: Guid, id: Guid, t1: int, t2: int)
    requires source.a == 0xa1b2c3d4
    ensures var created := CreateShortUrl(map[], map[], t1, Some("https://example.com"), source, id);
            var resolved := GetLongUrl(created.store, created.cache, t2, Some("a1b2c3d4"));
            && created.result.data == Some("a1b2c3d4")
            && created.result.responseCode == Some(Status201Created)
            && resolved.result.data == Some("https://example.com")
            && GetStats(resolved.store, Some("a1b2c3d4")).data == Some(UrlStats("a1b2c3d4", 1, t1))
  {
    ExampleCode();
    ShortUrlIsFirstField(source);
    var created := CreateShortUrl(map[], map[], t1, Some("https://example.com"), source, id);
    Text.NotBlank("https://example.com", 0);
    Text.NotBlank("a1b2c3d4", 0);
    assert GenerateShortUrl(source) == "a1b2c3d4";
    assert Lookup(created.cache, "a1b2c3d4", t2).None?;
    CreateThenResolve(map[], map[], t1, t2, "https://example.com", source, id);
  }

  /** URL mappings and rate-limit counters share one cache: shortening the long URL
      "requestCount:<ip>" right after a request from that address answers from the
      cache with the counter's text and creates no row. */
  lemma CounterReadsAsCachedShortUrl(store: Table, cache: Entries, now: int, ipAddress: string,
                                     maxRequests: Int32, timeWindow: nat, source: Guid, id: Guid)
    requires timeWindow > 0
    requires Admit(cache, now, Some(ipAddress), maxRequests, timeWindow).outcome == Forwarded
    ensures var admitted := Admit(cache, now, Some(ipAddress), maxRequests, timeWindow);
            var count := StoredCount(cache, CounterKey(ipAddress), now).value;
            var created := CreateShortUrl(store, admitted.cache, now, Some(CounterKey(ipAddress)), source, id);
            && created.result.data == Some(FormatInt32(count + 1))
            && created.result.responseCode == Some(Status200OK)
            && created.store == store
  {
    Text.NotBlank(CounterKey(ipAddress), 0);
  }

  /** In the other direction: once "requestCount:<ip>" has been shortened to a code
      with a letter in it, every request from that address within the next 30 days
      stops at int.Parse. */
  lemma ShortenedCounterKeyFaults(store: Table, cache: Entries, t1: int, t2: int, ipAddress: string,
                                  source: Guid, id: Guid, maxRequests: Int32, timeWindow: nat, i: nat)
    requires CreateShortUrl(store, cache, t1, Some(CounterKey(ipAddress)), source, id).result.responseCode
             == Some(Status201Created)
    requires i < 8 && !IsDigit(GenerateShortUrl(source)[i])
    requires t2 < t1 + ThirtyDays
    ensures var created := CreateShortUrl(store, cache, t1, Some(CounterKey(ipAddress)), source, id);
            Admit(created.cache, t2, Some(ipAddress), maxRequests, timeWindow).outcome == Faulted
  {
    var created := CreateShortUrl(store, cache, t1, Some(CounterKey(ipAddress)), source, id);
    var code := GenerateShortUrl(source);
    var key := CounterKey(ipAddress);
    assert !IsNullOrWhiteSpace(Some(key)) && Lookup(cache, key, t1).None?;
    assert CanInsert(store, NewRow(id, key, code, t1));
    assert created.cache == Put(cache, key, code, ThirtyDays, t1);
    assert Lookup(created.cache, key, t2) == Some(code);
    assert IsLowerHex(code[0]) && IsLowerHex(code[7]);
    TrimLeavesUnpadded(code);
    assert !AllDigits(code);
    assert ParseInt32(code) == None;
    assert StoredCount(created.cache, key, t2) == None;
  }
}
