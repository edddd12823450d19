/** IncrementAccessCountCommandHandler: count one access to a short code. */
module IncrementAccessCountCommand {
  import opened Options
  import opened Text
  import opened Numerals
  import opened Results
  import opened Store
  import opened Handling

  /** MediatR's Unit. */
  datatype Unit = Unit

  const Incremented := "Access count incremented successfully"

  /** Handle(IncrementAccessCountCommand) as a function of the store and the request's
      ShortUrl, returning the result and the store after it. */
  function IncrementAccessCount(store: Table, shortUrl: Option<string>): (o: (Result<Unit>, Table))
    ensures IsNullOrWhiteSpace(shortUrl) ==>
      o == (Failure(InvalidShortUrl, Status400BadRequest), store)
    ensures !IsNullOrWhiteSpace(shortUrl) && shortUrl.value !in store ==>
      o == (Failure(ShortUrlNotFound, Status404NotFound), store)
    // a known code: success with Unit, and only that row's AccessCount moves, by one step
    ensures !IsNullOrWhiteSpace(shortUrl) && shortUrl.value in store ==>
      && o.0 == Success(Unit, Status200OK, Some(Incremented), None)
      && o.1.Keys == store.Keys
      && o.1[shortUrl.value] == store[shortUrl.value].(accessCount := Increment32(store[shortUrl.value].accessCount))
      && forall s :: s in store && s != shortUrl.value ==> o.1[s] == store[s]
    ensures o.0.isSuccess <==> o.1 != store
    ensures Valid(store) ==> Valid(o.1)
  {
    if IsNullOrWhiteSpace(shortUrl) then
      (Failure(InvalidShortUrl, Status400BadRequest), store)
    else if FirstOrDefault(store, shortUrl.value).None? then
      (Failure(ShortUrlNotFound, Status404NotFound), store)
    else
      (Success(Unit, Status200OK, Some(Incremented), None), IncrementAccess(store, shortUrl.value))
  }

  class IncrementAccessCountCommandHandler {
    const context: UrlShortenerDbContext

    constructor (context: UrlShortenerDbContext)
      ensures this.context == context
    {
      this.context := context;
    }

    /** Handle: validate, fetch the row, raise its AccessCount, save. */
    method Handle(shortUrl: Option<string>) returns (r: Result<Unit>)
      requires Valid(context.urlMappings)
      modifies context
      ensures (r, context.urlMappings) == IncrementAccessCount(old(context.urlMappings), shortUrl)
    {
      if IsNullOrWhiteSpace(shortUrl) {
        return Failure(InvalidShortUrl, Status400BadRequest);
      }
      var found := context.FirstOrDefaultAsync(shortUrl.value);
      if found.None? {
        return Failure(ShortUrlNotFound, Status404NotFound);
      }
      var urlMapping := found.value.(accessCount := Increment32(found.value.accessCount));
      context.SaveModified(urlMapping);
      return Success(Unit, Status200OK, Some(Incremented), None);
    }
  }

  /** The store after `n` increments of the same code. */
  function IncrementTimes(store: Table, shortUrl: string, n: nat): Table
    decreases n
  {
    if n == 0 then store else IncrementTimes(IncrementAccessCount(store, Some(shortUrl)).1, shortUrl, n - 1)
  }

  /** N successful increments raise the code's AccessCount by N (barring 32-bit
      overflow) and leave every other row alone. */
  lemma {:induction false} IncrementTimesAddsN(store: Table, shortUrl: string, n: nat)
    requires !IsNullOrWhiteSpace(Some(shortUrl)) && shortUrl in store
    requires store[shortUrl].accessCount + n <= Int32Max
    ensures var after := IncrementTimes(store, shortUrl, n);
            && after.Keys == store.Keys
            && after[shortUrl] == store[shortUrl].(accessCount := store[shortUrl].accessCount + n)
            && forall s :: s in store && s != shortUrl ==> after[s] == store[s]
    decreases n
  {
    if n > 0 {
      IncrementTimesAddsN(IncrementAccessCount(store, Some(shortUrl)).1, shortUrl, n - 1);
    }
  }

  /** At int.MaxValue the unchecked increment wraps the count to int.MinValue. */
  lemma AccessCountWrapsAtMax(store: Table, shortUrl: string)
    requires !IsNullOrWhiteSpace(Some(shortUrl)) && shortUrl in store
    requires store[shortUrl].accessCount == Int32Max
    ensures IncrementAccessCount(store, Some(shortUrl)).1[shortUrl].accessCount == Int32Min
  {
  }
}
