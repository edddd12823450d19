/** The UrlMappings table: UrlMap rows keyed by their ShortUrl (the unique index of
    UrlShortenerDbContext), with Id as primary key. */
module Store {
  import opened Options
  import opened Numerals
  import opened Guids

  /** A UrlMap row. CreatedAt and ExpiryDate are ticks. */
  datatype UrlMap = UrlMap(
    id: Guid,
    longUrl: string,
    shortUrl: string,
    createdAt: int,
    accessCount: Int32,
    expiryDate: Option<int>)

  /** The table, indexed by ShortUrl. */
  type Table = map<string, UrlMap>

  /** Every row sits under its own ShortUrl (which makes ShortUrl unique) and no two
      rows share an Id. */
  ghost predicate Valid(t: Table)
  {
    && (forall s :: s in t ==> t[s].shortUrl == s)
    && (forall s1, s2 :: s1 in t && s2 in t && t[s1].id == t[s2].id ==> s1 == s2)
  }

  /** FirstOrDefaultAsync(u => u.ShortUrl == shortUrl). */
  function FirstOrDefault(t: Table, shortUrl: string): (r: Option<UrlMap>)
    ensures Valid(t) ==> (r.Some? <==> exists s :: s in t && t[s].shortUrl == shortUrl)
    ensures Valid(t) && r.Some? ==> r.value in t.Values && r.value.shortUrl == shortUrl
    ensures r.Some? <==> shortUrl in t
  {
    if shortUrl in t then Some(t[shortUrl]) else None
  }

  /** What SaveChanges accepts for a new row: its ShortUrl is not yet taken (unique
      index) and its Id is not yet taken (primary key). */
  predicate CanInsert(t: Table, row: UrlMap)
  {
    row.shortUrl !in t && forall s :: s in t ==> t[s].id != row.id
  }

  /** Add + SaveChanges of a new row: exactly one row more, the old rows as they were. */
  function Insert(t: Table, row: UrlMap): (r: Table)
    requires CanInsert(t, row)
    ensures Valid(t) ==> Valid(r)
    ensures r.Keys == t.Keys + {row.shortUrl} && |r| == |t| + 1
    ensures r[row.shortUrl] == row
    ensures forall s :: s in t ==> r[s] == t[s]
  {
    t[row.shortUrl := row]
  }

  /** `AccessCount++` on the tracked row + SaveChanges: that row's AccessCount goes one
      step up (32-bit wrap-around), every other field and every other row stays. */
  function IncrementAccess(t: Table, shortUrl: string): (r: Table)
    requires shortUrl in t
    ensures Valid(t) ==> Valid(r)
    ensures r.Keys == t.Keys
    ensures r[shortUrl] == t[shortUrl].(accessCount := Increment32(t[shortUrl].accessCount))
    ensures forall s :: s in t && s != shortUrl ==> r[s] == t[s]
  {
    t[shortUrl := t[shortUrl].(accessCount := Increment32(t[shortUrl].accessCount))]
  }

  /** The relational store behind UrlShortenerDbContext. */
  class UrlShortenerDbContext {
    var urlMappings: Table

    constructor ()
      ensures urlMappings == map[]
    {
      urlMappings := map[];
    }

    /** UrlMappings.FirstOrDefaultAsync(u => u.ShortUrl == shortUrl). */
    function FirstOrDefaultAsync(shortUrl: string): Option<UrlMap>
      reads this
    {
      FirstOrDefault(urlMappings, shortUrl)
    }

    /** UrlMappings.Add(row) followed by SaveChangesAsync: the save fails (no row is
      added) when the row violates the unique index or the primary key. */
    method AddAndSave(row: UrlMap) returns (saved: bool)
      modifies this
      ensures saved == CanInsert(old(urlMappings), row)
      ensures urlMappings == if saved then Insert(old(urlMappings), row) else old(urlMappings)
    {
      saved := row.shortUrl !in urlMappings && forall s :: s in urlMappings ==> urlMappings[s].id != row.id;
      if saved {
        urlMappings := urlMappings[row.shortUrl := row];
      }
    }

    /** SaveChangesAsync after a tracked row was modified: the row is written back
      under its key. */
    method SaveModified(row: UrlMap)
      requires row.shortUrl in urlMappings && urlMappings[row.shortUrl].id == row.id
      modifies this
      ensures urlMappings == old(urlMappings)[row.shortUrl := row]
    {
      urlMappings := urlMappings[row.shortUrl := row];
    }
  }
}
