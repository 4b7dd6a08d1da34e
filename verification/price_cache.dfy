/** The module-level price cache every revision keeps: the last refreshed
    table and the clock reading taken when it was stored. */
module PriceCache {
  import opened Common
  import opened PriceTable

  /** Time-to-live of a cache entry, in milliseconds. */
  const CACHE_DURATION: int := 10000

  datatype Entry = Entry(prices: Table, timestamp: int)

  /** There is a cache entry and it was stored less than CACHE_DURATION
      before `now`. */
  predicate IsFresh(cache: Option<Entry>, now: int) {
    cache.Some? && now - cache.value.timestamp < CACHE_DURATION
  }

  /** A value computed by a call that may have replaced the cache, together
      with the cache as that call leaves it. */
  datatype Served<T> = Served(value: T, cache: Option<Entry>)
}
