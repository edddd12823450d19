/** RateLimitingMiddleware: admits a request when the per-IP counter held in the
    shared cache is below the maximum, writing the incremented counter back with a
    fresh time-to-live of one whole window (so every admitted request restarts the
    window); rejects it otherwise, without touching the counter. */
module RateLimiting {
  import opened Options
  import opened Text
  import opened Numerals
  import opened Results
  import opened Cache

  /** The configuration Program.cs installs: 100 requests per minute. */
  const DefaultMaxRequests: Int32 := 100
  const DefaultTimeWindow: nat := 60

  const NoIpAddress := "Unable to get IP address."
  const LimitExceeded := "Rate limit exceeded. Please try again later."

  /** What one request through the middleware comes to: a response written by the
      middleware itself, the request passed on to the rest of the pipeline, or the
      exception int.Parse throws on a counter that is not a number. */
  datatype Admission = Rejected(statusCode: int, body: string) | Forwarded | Faulted

  /** A request's outcome together with the cache after it. */
  datatype Gate = Gate(outcome: Admission, cache: Entries)

  /** The cache key of an IP address's counter. */
  function CounterKey(ipAddress: string): (key: string)
    ensures |key| == |"requestCount:"| + |ipAddress|
    ensures key[..|"requestCount:"|] == "requestCount:" && key[|"requestCount:"|..] == ipAddress
  {
    "requestCount:" + ipAddress
  }

  /** Different IP addresses count in different cache entries. */
  lemma CounterKeyInjective(ip1: string, ip2: string)
    requires CounterKey(ip1) == CounterKey(ip2)
    ensures ip1 == ip2
  {
  }

  /** The count the middleware reads under `key`: 0 for a missing or empty entry, the
      parsed number otherwise; None where int.Parse throws. */
  function StoredCount(cache: Entries, key: string, now: int): (r: Option<Int32>)
    ensures IsNullOrEmpty(Lookup(cache, key, now)) ==> r == Some(0)
    ensures !IsNullOrEmpty(Lookup(cache, key, now)) ==> r == ParseInt32(Lookup(cache, key, now).value)
  {
    var current := Lookup(cache, key, now);
    if IsNullOrEmpty(current) then Some(0) else ParseInt32(current.value)
  }

  /** InvokeAsync for a request from `ipAddress` (None: the connection has no remote
      address) at `now`, with limit `maxRequests` per `timeWindow` ticks. */
  function Admit(cache: Entries, now: int, ipAddress: Option<string>, maxRequests: Int32, timeWindow: nat): (g: Gate)
    // no address: 400, the cache is not touched
    ensures ipAddress.None? ==> g == Gate(Rejected(Status400BadRequest, NoIpAddress), cache)
    // a counter that int.Parse rejects: the request faults and nothing is written
    ensures ipAddress.Some? && StoredCount(cache, CounterKey(ipAddress.value), now).None? ==>
      g == Gate(Faulted, cache)
    // at or over the limit: 429 and the counter stays as it was
    ensures ipAddress.Some? && StoredCount(cache, CounterKey(ipAddress.value), now).Some?
            && StoredCount(cache, CounterKey(ipAddress.value), now).value >= maxRequests ==>
      g == Gate(Rejected(Status429TooManyRequests, LimitExceeded), cache)
    // under the limit: forwarded, and the counter is rewritten as count + 1 for a whole window
    ensures ipAddress.Some? && StoredCount(cache, CounterKey(ipAddress.value), now).Some?
            && StoredCount(cache, CounterKey(ipAddress.value), now).value < maxRequests ==>
      var count := StoredCount(cache, CounterKey(ipAddress.value), now).value;
      g == Gate(Forwarded, Put(cache, CounterKey(ipAddress.value), FormatInt32(count + 1), timeWindow, now))
    // the cache changes only when the request is forwarded, and only under its counter key
    ensures g.cache != cache ==> g.outcome == Forwarded
    ensures forall k, t :: ipAddress.None? || k != CounterKey(ipAddress.value) ==> Lookup(g.cache, k, t) == Lookup(cache, k, t)
  {
    if ipAddress.None? then
      Gate(Rejected(Status400BadRequest, NoIpAddress), cache)
    else
      var key := CounterKey(ipAddress.value);
      match StoredCount(cache, key, now)
      case None => Gate(Faulted, cache)
      case Some(requestCount) =>
        if requestCount >= maxRequests then
          Gate(Rejected(Status429TooManyRequests, LimitExceeded), cache)
        else
          Gate(Forwarded, Put(cache, key, FormatInt32(requestCount + 1), timeWindow, now))
  }

  /** The rest of the request pipeline (`_next`): the controller and the handlers
      behind it, which may read and write the shared cache. The model sees it only
      through how often it runs and through the cache it was handed each time. */
  class RequestDelegate {
    var invocations: nat
    ghost var cachesSeen: seq<Entries>

    constructor ()
      ensures invocations == 0 && cachesSeen == []
    {
      invocations := 0;
      cachesSeen := [];
    }

    /** One run of the pipeline on the shared cache `c`: it records the cache as it
        found it and may leave any contents behind. */
    method Invoke(c: MemoryCacheService)
      modifies this, c
      ensures invocations == old(invocations) + 1
      ensures cachesSeen == old(cachesSeen) + [old(c.entries)]
    {
      invocations := invocations + 1;
      cachesSeen := cachesSeen + [c.entries];
    }
  }

  class RateLimitingMiddleware {
    const next: RequestDelegate
    const cacheService: MemoryCacheService
    const maxRequests: Int32
    const timeWindow: nat

    /** MemoryCacheEntryOptions refuses a non-positive window, so one is required here. */
    constructor (next: RequestDelegate, cacheService: MemoryCacheService, maxRequests: Int32, timeWindow: nat)
      requires timeWindow > 0
      ensures this.next == next && this.cacheService == cacheService
      ensures this.maxRequests == maxRequests && this.timeWindow == timeWindow
    {
      this.next := next;
      this.cacheService := cacheService;
      this.maxRequests := maxRequests;
      this.timeWindow := timeWindow;
    }

    /** InvokeAsync: the outcome is Admit's. A request it does not forward leaves the
        cache as Admit says; a forwarded one hands Admit's cache (the counter already
        written) to `_next`, exactly once, and whatever the pipeline then writes is
        the pipeline's. */
    method InvokeAsync(ipAddress: Option<string>, now: int) returns (outcome: Admission)
      requires timeWindow > 0
      modifies cacheService, next
      ensures outcome == Admit(old(cacheService.entries), now, ipAddress, maxRequests, timeWindow).outcome
      ensures outcome != Forwarded ==>
        cacheService.entries == Admit(old(cacheService.entries), now, ipAddress, maxRequests, timeWindow).cache
        && next.cachesSeen == old(next.cachesSeen)
      ensures outcome == Forwarded ==>
        next.cachesSeen == old(next.cachesSeen) + [Admit(old(cacheService.entries), now, ipAddress, maxRequests, timeWindow).cache]
      ensures next.invocations == old(next.invocations) + if outcome == Forwarded then 1 else 0
    {
      if ipAddress.None? {
        return Rejected(Status400BadRequest, NoIpAddress);
      }
      var key := CounterKey(ipAddress.value);
      var currentRequestCount := cacheService.GetAsync(key, now);
      var requestCount: int := 0;
      if !IsNullOrEmpty(currentRequestCount) {
        var parsed := ParseInt32(currentRequestCount.value);
        if parsed.None? {
          return Faulted;
        }
        requestCount := parsed.value;
      }
      if requestCount >= maxRequests {
        return Rejected(Status429TooManyRequests, LimitExceeded);
      }
      requestCount := requestCount + 1;
      cacheService.SetAsync(key, FormatInt32(requestCount), timeWindow, now);
      next.Invoke(cacheService);
      return Forwarded;
    }
  }

  /** An admitted request's counter reads back as count + 1 for the whole window that
      follows, and as absent (so 0) once the window has passed. */
  lemma AdmittedCounterReadsBack(cache: Entries, now: int, ipAddress: string, maxRequests: Int32, timeWindow: nat, t: int)
    requires Admit(cache, now, Some(ipAddress), maxRequests, timeWindow).outcome == Forwarded
    ensures var count := StoredCount(cache, CounterKey(ipAddress), now).value;
            var after := Admit(cache, now, Some(ipAddress), maxRequests, timeWindow).cache;
            && (t < now + timeWindow ==> StoredCount(after, CounterKey(ipAddress), t) == Some(count + 1))
            && (t >= now + timeWindow ==> StoredCount(after, CounterKey(ipAddress), t) == Some(0))
  {
    var count := StoredCount(cache, CounterKey(ipAddress), now).value;
    ParseFormatRoundTrip(count + 1);
    FormatHasNoParseWhite(count + 1);
  }

  /** A counter at or below the limit stays at or below it. */
  lemma CounterStaysWithinLimit(cache: Entries, now: int, ipAddress: string, maxRequests: Int32, timeWindow: nat, c: Int32)
    requires timeWindow > 0
    requires StoredCount(cache, CounterKey(ipAddress), now) == Some(c) && c <= maxRequests
    ensures var after := Admit(cache, now, Some(ipAddress), maxRequests, timeWindow).cache;
            StoredCount(after, CounterKey(ipAddress), now).Some?
            && StoredCount(after, CounterKey(ipAddress), now).value <= maxRequests
  {
    if Admit(cache, now, Some(ipAddress), maxRequests, timeWindow).outcome == Forwarded {
      AdmittedCounterReadsBack(cache, now, ipAddress, maxRequests, timeWindow, now);
    }
  }

  /** The outcomes of requests from one address at the ticks in `times`. */
  function Outcomes(cache: Entries, ipAddress: string, maxRequests: Int32, timeWindow: nat, times: seq<int>): seq<Admission>
    decreases |times|
  {
    if times == [] then []
    else
      var g := Admit(cache, times[0], Some(ipAddress), maxRequests, timeWindow);
      [g.outcome] + Outcomes(g.cache, ipAddress, maxRequests, timeWindow, times[1..])
  }

  function Repeat(a: Admission, n: nat): (s: seq<Admission>)
    ensures |s| == n && forall i :: 0 <= i < n ==> s[i] == a
  {
    if n == 0 then [] else [a] + Repeat(a, n - 1)
  }

  /** With each request inside the window the previous one restarted, a counter at c
      admits the next max - c requests and rejects the one after. */
  lemma {:induction false} BurstFrom(cache: Entries, ipAddress: string, maxRequests: Int32, timeWindow: nat,
                                     times: seq<int>, c: Int32)
    requires 0 <= c <= maxRequests && |times| == maxRequests - c + 1
    requires StoredCount(cache, CounterKey(ipAddress), times[0]) == Some(c)
    requires forall i :: 0 < i < |times| ==> times[i] < times[i - 1] + timeWindow
    ensures Outcomes(cache, ipAddress, maxRequests, timeWindow, times)
         == Repeat(Forwarded, maxRequests - c) + [Rejected(Status429TooManyRequests, LimitExceeded)]
    decreases maxRequests - c
  {
    var g := Admit(cache, times[0], Some(ipAddress), maxRequests, timeWindow);
    if c == maxRequests {
      assert times[1..] == [];
    } else {
      AdmittedCounterReadsBack(cache, times[0], ipAddress, maxRequests, timeWindow, times[1]);
      assert times[1] < times[0] + timeWindow;
      var rest := times[1..];
      assert forall i :: 0 < i < |rest| ==> rest[i] < rest[i - 1] + timeWindow by {
        forall i | 0 < i < |rest| ensures rest[i] < rest[i - 1] + timeWindow {
          assert rest[i] == times[i + 1] && rest[i - 1] == times[i];
        }
      }
      BurstFrom(g.cache, ipAddress, maxRequests, timeWindow, rest, c + 1);
      assert Repeat(Forwarded, maxRequests - c) == [Forwarded] + Repeat(Forwarded, maxRequests - (c + 1));
    }
  }

  /** From a missing counter, within one (restarting) window, the first max requests
      are admitted and request max + 1 is rejected. */
  lemma FirstMaxAdmittedThenRejected(cache: Entries, ipAddress: string, maxRequests: Int32, timeWindow: nat, times: seq<int>)
    requires 0 <= maxRequests && |times| == maxRequests + 1
    requires Lookup(cache, CounterKey(ipAddress), times[0]).None?
    requires forall i :: 0 < i < |times| ==> times[i] < times[i - 1] + timeWindow
    ensures Outcomes(cache, ipAddress, maxRequests, timeWindow, times)
         == Repeat(Forwarded, maxRequests) + [Rejected(Status429TooManyRequests, LimitExceeded)]
  {
    BurstFrom(cache, ipAddress, maxRequests, timeWindow, times, 0);
  }

  /** Under the configuration Program.cs installs, a fresh address gets 100 requests
      through within a restarting minute and the 101st is rejected. */
  lemma DefaultLimitPerMinute(cache: Entries, ipAddress: string, times: seq<int>)
    requires |times| == 101
    requires Lookup(cache, CounterKey(ipAddress), times[0]).None?
    requires forall i :: 0 < i < |times| ==> times[i] < times[i - 1] + 60
    ensures Outcomes(cache, ipAddress, DefaultMaxRequests, DefaultTimeWindow, times)
         == Repeat(Forwarded, 100) + [Rejected(Status429TooManyRequests, LimitExceeded)]
  {
    FirstMaxAdmittedThenRejected(cache, ipAddress, DefaultMaxRequests, DefaultTimeWindow, times);
  }

  /** Limit 2 per 60 ticks: requests at 0, 10 and 20 are admitted, admitted and
      rejected; at 80 the counter written at 10 has expired and the request is admitted. */
  lemma TwoPerMinute(ipAddress: string)
    ensures Outcomes(map[], ipAddress, 2, 60, [0, 10, 20, 80])
         == [Forwarded, Forwarded, Rejected(Status429TooManyRequests, LimitExceeded), Forwarded]
  {
    var key := CounterKey(ipAddress);
    var g0 := Admit(map[], 0, Some(ipAddress), 2, 60);
    AdmittedCounterReadsBack(map[], 0, ipAddress, 2, 60, 10);
    var g1 := Admit(g0.cache, 10, Some(ipAddress), 2, 60);
    AdmittedCounterReadsBack(g0.cache, 10, ipAddress, 2, 60, 20);
    AdmittedCounterReadsBack(g0.cache, 10, ipAddress, 2, 60, 80);
    var g2 := Admit(g1.cache, 20, Some(ipAddress), 2, 60);
    assert g2.cache == g1.cache;
    var g3 := Admit(g2.cache, 80, Some(ipAddress), 2, 60);
    assert g3.outcome == Forwarded;
    assert [0, 10, 20, 80][1..] == [10, 20, 80];
    assert [10, 20, 80][1..] == [20, 80];
    assert [20, 80][1..] == [80];
    assert [80][1..] == [];
  }
}
