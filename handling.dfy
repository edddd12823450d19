/** What the request handlers share: the state a handler sees and leaves behind,
    and the messages and lifetimes they use. */
module Handling {
  import opened Results
  import opened Store
  import opened Cache

  /** TimeSpan.FromDays(30), in ticks of one second. */
  const ThirtyDays: nat := 30 * 24 * 60 * 60

  const InvalidShortUrl := "Invalid ShortUrl"
  const ShortUrlNotFound := "Short URL not found"
  const GenericError := "An error occurred while processing the request"

  /** A handler's result together with the store and the cache after it. */
  datatype Outcome<T> = Outcome(result: Result<T>, store: Table, cache: Entries)
}
