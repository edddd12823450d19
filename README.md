# UrlShortningService, modelled in Dafny

UrlShortningService is an ASP.NET Core service that shortens long URLs to 8-character
codes, resolves codes back to long URLs while counting every access, and reports the
access statistics of a code. A rate-limiting middleware in front of the handlers
admits at most `maxRequests` requests per client IP in a time window. The handlers
read and write two pieces of shared state: the `UrlMappings` table (one `UrlMap` row
per short code, the code being unique) and an in-memory string cache with absolute
expiry. URL mappings (`longUrl -> shortUrl` and `shortUrl -> longUrl`, 30 days) and the
per-IP counters (`requestCount:<ip>`, one window) live in that same cache.

The model:

- `Results` is the response envelope `Result<T>`: one function per constructor and
  factory, starting from the property initialisers, and `HasError`.
- `Cache` is `MemoryCacheService`: pure `Lookup`/`Put`/`Delete` on a map of entries
  with an absolute expiry tick, and a class whose `SetAsync`/`RemoveAsync` update the
  map in place while `GetAsync` is a pure read.
- `Store` is the `UrlMappings` table as a map keyed by `ShortUrl`, with the unique
  index and the primary key as its invariant, and `UrlShortenerDbContext` as a class
  whose save can fail.
- Each handler file is one module: a function giving the handler's result and the
  store and cache after it (the specification), a class whose `Handle` method performs
  the handler's steps on the shared objects and is proved to end in exactly that
  state, and lemmas about the function. `GetStatsQuery` only reads, so it is a function.
- `RateLimiting` is the middleware: `Admit` is its specification, and
  `RateLimitingMiddleware.InvokeAsync` performs it against the shared cache and calls
  the rest of the pipeline (`RequestDelegate`) exactly when it admits, handing it the
  cache with the counter already written; the pipeline may then write that cache too.
- `Numerals` and `Guids` model the .NET text forms the service relies on:
  `Int32.ToString()`, `int.Parse`, unchecked `int` increment, and `Guid.ToString("N")`.
- `Scenarios` relates several requests across handlers.

Inputs instead of effects: the clock is an integer tick (one second) passed as `now`,
and each `Guid.NewGuid()` is a `Guid` parameter (`source` for the code, `id` for the
row). The defaults installed in `Program.cs` (100 requests per 60 seconds) are
`RateLimiting.DefaultMaxRequests` and `RateLimiting.DefaultTimeWindow`, and
`RateLimiting.DefaultLimitPerMinute` states the burst they allow.

Behaviour of the code worth knowing:

- `AccessCount` is a C# `int` raised with an unchecked `++`, so at `int.MaxValue` it
  wraps to `int.MinValue` (`IncrementAccessCountCommand.AccessCountWrapsAtMax`); it is
  not a non-negative, ever-increasing count. The N-accesses lemmas therefore assume
  no overflow.
- The rate-limit window restarts on every admitted request: each admitted request
  rewrites the counter with a full time-to-live, and a rejected one does not touch it
  (`RateLimiting.BurstFrom`, `RateLimiting.TwoPerMinute`).
- Because both key families share one cache, shortening the long URL
  `requestCount:<ip>` returns that address's counter text as a "cached short URL"
  (`Scenarios.CounterReadsAsCachedShortUrl`). Once that long URL has been shortened to
  a code containing a letter, every request from the address fails in `int.Parse`
  for 30 days (`Scenarios.ShortenedCounterKeyFaults`).

## Model

| member | source | states |
|---|---|---|
| `Results.Success` | UrlShortningService/Dto/Result.cs:15-25 | the factory at line 77: IsSuccess true, Data and ResponseCode as given, description and RequestId as given (null by default), ErrorMessage "" so HasError is false, no Errors |
| `Results.SuccessIgnoringId` | UrlShortningService/Dto/Result.cs:5-13 | the factory at line 79 keeps only the data: IsSuccess true, no ResponseCode, no description, RequestId "", no error, whatever id and v are |
| `Results.Failure` | UrlShortningService/Dto/Result.cs:54-62 | the factory at line 81: IsSuccess false, no Data, ErrorMessage and ResponseCode as given; HasError holds exactly when the message is not "" |
| `Results.FailureWithoutCode` | UrlShortningService/Dto/Result.cs:45-52 | IsSuccess false, ErrorMessage as given, no Data, no ResponseCode, RequestId "", no Errors; HasError iff the message is not "" |
| `Results.FailureMessageOnly` | UrlShortningService/Dto/Result.cs:28 | the one-argument factory at line 87 sets only ErrorMessage, so IsSuccess stays true; no Data, no ResponseCode |
| `Results.FailureWithErrors` | UrlShortningService/Dto/Result.cs:31-39 | IsSuccess false, the errors dictionary stored, no ResponseCode, no Data |
| `Results.HasError` | UrlShortningService/Dto/Result.cs:67 | HasError holds exactly when ErrorMessage is not the empty string |
| `Cache.Lookup` | UrlShortningService/Services/Implementation/MemoryCacheService.cs:29-37 | a key is found, with its stored value, exactly when it is present and the clock is before its absolute expiry; otherwise null |
| `Cache.Put` | UrlShortningService/Services/Implementation/MemoryCacheService.cs:18-26 | after Set the key reads as the new value until the expiration has elapsed and as absent afterwards, replacing value and expiry; every other key keeps its entry |
| `Cache.Delete` | UrlShortningService/Services/Implementation/MemoryCacheService.cs:40-44 | after Remove the key reads as absent at every time; every other key keeps its entry |
| `Cache.MemoryCacheService.GetAsync` | UrlShortningService/Services/Implementation/MemoryCacheService.cs:29-37 | the current map answers `key` at `now` exactly when the key is present and not yet expired, with its stored value; otherwise null |
| `Cache.MemoryCacheService.SetAsync` | UrlShortningService/Services/Implementation/MemoryCacheService.cs:18-26 | the cache's map becomes `Put` of the old map |
| `Cache.MemoryCacheService.RemoveAsync` | UrlShortningService/Services/Implementation/MemoryCacheService.cs:40-44 | the cache's map becomes `Delete` of the old map |
| `Store.FirstOrDefault` | UrlShortningService/Data/UrlShortenerDbContext.cs:17-19 | on a table that keeps the unique index, a row is found exactly when some row has that ShortUrl, and the row found has it |
| `Store.Insert` | UrlShortningService/Application/CreateShortUrl/Command/CreateShortUrlCommand.cs:62-63 | saving a new row adds exactly that row under its code, keeps every old row, and keeps the index and key unique |
| `Store.IncrementAccess` | UrlShortningService/Application/CreateShortUrl/Command/IncrementAccessCountCommand.cs:51-56 | only the named row's AccessCount moves, by one unchecked step; its other fields and all other rows stay |
| `Store.UrlShortenerDbContext.AddAndSave` | UrlShortningService/Application/CreateShortUrl/Command/CreateShortUrlCommand.cs:62-63 | the save succeeds exactly when the code and the Id are both unused; on failure the table is unchanged |
| `Store.UrlShortenerDbContext.SaveModified` | UrlShortningService/Application/CreateShortUrl/Query/GetLongUrlQuery.cs:78-81 | the modified tracked row is written back under its code |
| `Numerals.Increment32` | UrlShortningService/Application/CreateShortUrl/Command/IncrementAccessCountCommand.cs:51 | `AccessCount++` is +1 modulo 2^32: exactly +1 below int.MaxValue |
| `Numerals.FormatInt32` | UrlShortningService/RateLimitingMiddleware.cs:63 | `requestCount.ToString()` is non-empty, starts with '-' exactly for a negative value, and its digits denote the magnitude |
| `Numerals.ParseBlankFails` | UrlShortningService/RateLimitingMiddleware.cs:49 | `int.Parse` of empty or all-white-space text throws |
| `Numerals.ParseNumeral` | UrlShortningService/RateLimitingMiddleware.cs:49 | `int.Parse` of a plain numeral gives its value, and throws above int.MaxValue |
| `Numerals.ParseNegativeNumeral` | UrlShortningService/RateLimitingMiddleware.cs:49 | `int.Parse` of '-' and digits gives the negated value, and throws below int.MinValue |
| `Numerals.TrimStartCuts` | UrlShortningService/RateLimitingMiddleware.cs:49 | the leading white space `int.Parse` skips: what remains is a suffix that does not start with white space, and all that is cut is white space |
| `Numerals.TrimEndCuts` | UrlShortningService/RateLimitingMiddleware.cs:49 | the trailing white space `int.Parse` skips: what remains is a prefix that does not end with white space, and all that is cut is white space |
| `Numerals.ParseFormatRoundTrip` | UrlShortningService/RateLimitingMiddleware.cs:44-63 | int.Parse reads back exactly the counter that `requestCount.ToString()` wrote, for every int |
| `Guids.ToStringN` | UrlShortningService/Application/CreateShortUrl/Command/CreateShortUrlCommand.cs:82 | Guid.ToString("N") is 32 lowercase hex digits |
| `CreateShortUrlCommand.GenerateShortUrl` | UrlShortningService/Application/CreateShortUrl/Command/CreateShortUrlCommand.cs:79-85 | the code has 8 characters, all lowercase hex, and encodes the Guid's first 32 bits (so two codes collide exactly when those bits do) |
| `CreateShortUrlCommand.ShortUrlIsFirstField` | UrlShortningService/Application/CreateShortUrl/Command/CreateShortUrlCommand.cs:82 | the first 8 characters of the "N" form are the first field's hex digits |
| `CreateShortUrlCommand.CreateShortUrl` | UrlShortningService/Application/CreateShortUrl/Command/CreateShortUrlCommand.cs:28-77 | blank LongUrl: 400 "Invalid LongUrl", nothing changes; live cache entry: 200 with the cached code, nothing changes; miss: 201 with the generated code, one row (LongUrl, code, AccessCount 0) added and the LongUrl cached for 30 days, or 500 with store and cache unchanged when the save fails; the store gains at most that one row and only the LongUrl's cache entry can change |
| `CreateShortUrlCommand.CreateShortUrlCommandHandler.Handle` | UrlShortningService/Application/CreateShortUrl/Command/CreateShortUrlCommand.cs:28-77 | the result and the new table and cache are those of `CreateShortUrl` on the old ones |
| `CreateShortUrlCommand.CreateAgainWhileCached` | UrlShortningService/Application/CreateShortUrl/Command/CreateShortUrlCommand.cs:44-49 | a second Create of the same LongUrl within 30 days of a 201 returns the same code with 200 and changes nothing |
| `GetLongUrlQuery.GetLongUrl` | UrlShortningService/Application/CreateShortUrl/Query/GetLongUrlQuery.cs:29-95 | blank ShortUrl: 400, nothing changes; no row: 404 and nothing changes even with a cached value; a row: only that row's AccessCount moves by one on either path; cache hit: 200 with the cached string described "Long URL retrieved from cache", the cache kept; miss: 200 with the row's LongUrl described "Long URL retrieved successfully", cached under the code for 30 days |
| `GetLongUrlQuery.GetLongUrlQueryHandler.Handle` | UrlShortningService/Application/CreateShortUrl/Query/GetLongUrlQuery.cs:29-95 | the result and the new table and cache are those of `GetLongUrl` on the old ones |
| `GetLongUrlQuery.ResolveCountsEveryAccess` | UrlShortningService/Application/CreateShortUrl/Query/GetLongUrlQuery.cs:58-81 | N resolutions of a known code raise its AccessCount by N (no overflow) and leave all other rows alone |
| `GetLongUrlQuery.ResolveTwice` | UrlShortningService/Application/CreateShortUrl/Query/GetLongUrlQuery.cs:45-88 | a miss returns the row's LongUrl; the next resolution within 30 days answers it from the cache; the count has risen by 2 |
| `IncrementAccessCountCommand.IncrementAccessCount` | UrlShortningService/Application/CreateShortUrl/Command/IncrementAccessCountCommand.cs:25-67 | blank: 400, unknown: 404, both with the store unchanged; known: 200 with Unit and only that row's AccessCount up by one step; success exactly when the store changed |
| `IncrementAccessCountCommand.IncrementAccessCountCommandHandler.Handle` | UrlShortningService/Application/CreateShortUrl/Command/IncrementAccessCountCommand.cs:25-67 | the result and the new table are those of `IncrementAccessCount` on the old table |
| `IncrementAccessCountCommand.IncrementTimesAddsN` | UrlShortningService/Application/CreateShortUrl/Command/IncrementAccessCountCommand.cs:51-56 | N increments of one code raise its AccessCount by N (no overflow) and leave all other rows alone |
| `IncrementAccessCountCommand.AccessCountWrapsAtMax` | UrlShortningService/Application/CreateShortUrl/Command/IncrementAccessCountCommand.cs:51 | an increment at int.MaxValue leaves int.MinValue |
| `GetStatsQuery.GetStats` | UrlShortningService/Application/CreateShortUrl/Query/GetStatsQuery.cs:26-67 | blank: 400, unknown: 404; success exactly for a known code, the whole 200 envelope from `Success`: the row's own ShortUrl, AccessCount and CreatedAt, description "URL stats retrieved successfully", ErrorMessage "" (so HasError is false), RequestId null, no Errors; as a function of the store it changes nothing |
| `RateLimiting.CounterKey` | UrlShortningService/RateLimitingMiddleware.cs:40 | the key is "requestCount:" followed by the address |
| `RateLimiting.CounterKeyInjective` | UrlShortningService/RateLimitingMiddleware.cs:40 | two addresses never share a counter |
| `RateLimiting.StoredCount` | UrlShortningService/RateLimitingMiddleware.cs:44-50 | a missing or empty counter reads as 0; anything else is what int.Parse makes of it |
| `RateLimiting.Admit` | UrlShortningService/RateLimitingMiddleware.cs:25-68 | no IP: 400 and the cache untouched; unparsable counter: fault, nothing written; count >= max: 429 and the counter unchanged; count < max: forwarded and the counter rewritten as count + 1 for a full window; only the address's own counter can change, and only when forwarded |
| `RateLimiting.RateLimitingMiddleware.constructor` | UrlShortningService/RateLimitingMiddleware.cs:16-23 | keeps the pipeline, the cache, the limit and the window |
| `RateLimiting.RateLimitingMiddleware.InvokeAsync` | UrlShortningService/RateLimitingMiddleware.cs:25-68 | the outcome is `Admit`'s; when not forwarded the new cache is `Admit`'s and `_next` does not run; when forwarded `_next` runs once and is handed `Admit`'s cache, the counter written before the call |
| `RateLimiting.RequestDelegate.Invoke` | UrlShortningService/RateLimitingMiddleware.cs:66 | each call to `_next` counts once and records the shared cache it was handed; the downstream handlers may change that cache arbitrarily |
| `RateLimiting.AdmittedCounterReadsBack` | UrlShortningService/RateLimitingMiddleware.cs:61-63 | after an admitted request the counter reads count + 1 for the whole window and 0 after it |
| `RateLimiting.CounterStaysWithinLimit` | UrlShortningService/RateLimitingMiddleware.cs:53-63 | a counter at most max before a request is at most max after it |
| `RateLimiting.BurstFrom` | UrlShortningService/RateLimitingMiddleware.cs:53-63 | from count c <= max, with each request inside the window the previous one restarted, the next max - c requests are admitted and the one after is rejected |
| `RateLimiting.DefaultLimitPerMinute` | UrlShortningService/Program.cs:34 | with 100 requests per one-minute window, a fresh address's first 100 requests inside a restarting minute are admitted and the 101st gets 429 |
| `RateLimiting.FirstMaxAdmittedThenRejected` | UrlShortningService/RateLimitingMiddleware.cs:53-63 | from no counter, the first max requests are admitted and request max + 1 is rejected |
| `RateLimiting.TwoPerMinute` | UrlShortningService/RateLimitingMiddleware.cs:53-63 | limit 2 per 60 s: requests at 0, 10, 20, 80 give admit, admit, 429, admit |
| `Scenarios.CreateThenResolve` | UrlShortningService/Application/CreateShortUrl/Query/GetLongUrlQuery.cs:68-88 | Create(L) returning a new code, then resolving the code with nothing cached under it, returns L and leaves AccessCount 1 |
| `Scenarios.ShortenResolveStats` | UrlShortningService/Application/CreateShortUrl/Query/GetStatsQuery.cs:53-58 | "https://example.com" is shortened to "a1b2c3d4", resolves back, and its stats read ("a1b2c3d4", 1, creation time) |
| `Scenarios.CounterReadsAsCachedShortUrl` | UrlShortningService/Application/CreateShortUrl/Command/CreateShortUrlCommand.cs:44-49 | shortening "requestCount:<ip>" right after an admitted request from ip returns the counter's text with 200 and adds no row |
| `Scenarios.ShortenedCounterKeyFaults` | UrlShortningService/RateLimitingMiddleware.cs:47-50 | after "requestCount:<ip>" was shortened to a code with a letter, requests from ip within 30 days fault in int.Parse |

## Left out

- Timing: RequestTime, ResponseTime and ActivityTime of the envelope, and the real clock. Time is an integer tick in seconds passed as `now`, also used as the row's CreatedAt; sub-second precision is not modelled.
- Randomness: `Guid.NewGuid()` is a parameter. ExpiryDate is never set by the handlers and stays null.
- Store failures other than the unique index on ShortUrl and the primary key on Id (a lost connection, a cancelled token) are not modelled; each would give the generic 500.
- Entity Framework change tracking: `AccessCount++` on a tracked row followed by `SaveChangesAsync` is modelled as writing the updated row value back; rows are values, not shared objects.
- The `Handle` methods that read the table require that it keeps its unique index and primary key, which the database guarantees.
- `RateLimiting.RateLimitingMiddleware.constructor`: requires a positive window, because `MemoryCacheEntryOptions` throws on a non-positive AbsoluteExpirationRelativeToNow at the first admitted request; the model does not represent that exception.
- `Numerals.ParseInt32`: int.Parse under the invariant culture only; culture-specific signs and trailing NUL characters are not modelled. FormatException and OverflowException both become the `Faulted` outcome, which stands for the unhandled exception leaving the middleware.
- `Results.Failure`, `Results.FailureWithoutCode`, `Results.FailureWithErrors`, `Results.FailureMessageOnly`: Data is `None`, meaning never assigned. For a reference `T` that is `null`; for `Result<Unit>` (IncrementAccessCountCommand) the source's value is `default(Unit)`, i.e. `Unit.Value`, the same Data as the 200 envelope carries. The model does not identify `None` with `Unit.Value`.
- The downstream pipeline behind `_next` (the controller and handlers) may write the shared cache during `RateLimiting.RateLimitingMiddleware.InvokeAsync`; its writes are not part of that contract, which fixes the cache handed to `_next`. The handlers' own effects on the cache are stated by their own specifications and composed in `Scenarios`.
- The envelope's IsSuccess and ErrorMessage are nullable in C#, but no modelled constructor sets them to null, so they are plain values; the public parameterless constructor and the property setters are not separate members.
- The cache's own removal of expired entries on read, eviction under memory pressure and thread safety are not modelled; an expired entry is simply invisible to `Lookup`.
- Strings are sequences of Unicode scalar values, not UTF-16 code units.
- Concurrency: races between in-flight requests on the counter and on AccessCount are out of scope; every request is one atomic step of the model.
- The controller (`UrlShortenerController`), MediatR dispatch, logging, dependency injection and the Swagger, Serilog and Npgsql setup in Program.cs are plumbing with no logic of their own.
- `IncrementAccessCountCommand`'s handler is not reachable from the controller; it is modelled all the same.
