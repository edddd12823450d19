/** GetStatsQueryHandler: the access statistics of a short code. A lookup only:
    nothing is saved and the cache is not consulted. */
module GetStatsQuery {
  import opened Options
  import opened Text
  import opened Numerals
  import opened Results
  import opened Store
  import opened Handling

  /** UrlStats. */
  datatype UrlStats = UrlStats(shortUrl: string, accessCount: Int32, createdAt: int)

  const StatsRetrieved := "URL stats retrieved successfully"

  /** Handle(GetStatsQuery) as a function of the store and the request's ShortUrl. */
  function GetStats(store: Table, shortUrl: Option<string>): (r: Result<UrlStats>)
    ensures IsNullOrWhiteSpace(shortUrl) ==> r == Failure(InvalidShortUrl, Status400BadRequest)
    ensures !IsNullOrWhiteSpace(shortUrl) && shortUrl.value !in store ==> r == Failure(ShortUrlNotFound, Status404NotFound)
    ensures r.isSuccess <==> !IsNullOrWhiteSpace(shortUrl) && shortUrl.value in store
    // on success the whole envelope: 200 carrying the row's own ShortUrl, AccessCount and
    // CreatedAt, with no error message, no RequestId and no Errors
    ensures r.isSuccess ==>
      var row := store[shortUrl.value];
      r == Success(UrlStats(row.shortUrl, row.accessCount, row.createdAt), Status200OK, Some(StatsRetrieved), None)
  {
    if IsNullOrWhiteSpace(shortUrl) then
      Failure(InvalidShortUrl, Status400BadRequest)
    else
      match FirstOrDefault(store, shortUrl.value)
      case None => Failure(ShortUrlNotFound, Status404NotFound)
      case Some(urlMapping) =>
        Success(UrlStats(urlMapping.shortUrl, urlMapping.accessCount, urlMapping.createdAt),
                Status200OK, Some(StatsRetrieved), None)
  }
}
