/**
 * The module-level template cache of the transformer (`getCachedFile` in
 * firehoseTransformer.mjs): a dictionary keyed `bucket/key` whose entries
 * hold the fetched file and the time after which the entry is stale.
 *
 * The object store is a parameter: `fetch(bucket, key, now)` is what
 * `getObject` yields at time `now` — the text of the object, `NoSuchKey`
 * (the service wrapper then returns `false`), or any other failure (the
 * wrapper rethrows).
 */
module Cache {
  import opened JsValue

  datatype FetchOutcome = Body(text: string) | NoSuchKey | Failed

  /** A cached file: `Some(text)`, or `None` for the `false` returned when
      the key does not exist. `expiresOn` is None when it is NaN (the
      configured lifetime is not a number). */
  datatype CacheEntry = CacheEntry(file: Option<string>, expiresOn: Option<int>)

  function CacheKey(bucket: string, key: string): string
  {
    bucket + "/" + key
  }

  /** `cache[k] && cache[k].expiresOn > Date.now()`: NaN compares false. */
  predicate Fresh(e: CacheEntry, now: int)
  {
    e.expiresOn.Some? && e.expiresOn.value > now
  }

  /** `Date.now() + parseInt(CACHE_EXPIRATION_SECONDS) * 1000`; NaN when the
      lifetime does not parse. */
  function ExpiryOf(now: int, ttlSeconds: Option<int>): Option<int>
  {
    match ttlSeconds
    case None => None
    case Some(t) => Some(now + t * 1000)
  }

  /** What a fetch stores: the file or `false`; nothing for a failure. */
  function Fetched(o: FetchOutcome): Option<string>
    requires !o.Failed?
  {
    if o.Body? then Some(o.text) else None
  }

  /** One `getCachedFile(bucket, key)` at time `now` against the cache
      `entries`: the file returned (or the rethrown failure) and the new
      cache. */
  function CachedFileStep(entries: map<string, CacheEntry>, bucket: string, key: string, now: int,
                          ttlSeconds: Option<int>, fetch: (string, string, int) -> FetchOutcome)
    : (r: (Completion<Option<string>>, map<string, CacheEntry>))
    ensures var k := CacheKey(bucket, key);
      // a fresh entry is returned as it is, and nothing is fetched or stored
      && (k in entries && Fresh(entries[k], now) ==> r == (Normal(entries[k].file), entries))
      // otherwise the store is asked; a failure propagates and stores nothing
      && (!(k in entries && Fresh(entries[k], now)) ==>
            (fetch(bucket, key, now).Failed? <==> r.0.Throw?)
            && (r.0.Throw? ==> r.1 == entries)
            && (r.0.Normal? ==> r.0.value == Fetched(fetch(bucket, key, now))
                                && k in r.1 && r.1[k] == CacheEntry(r.0.value, ExpiryOf(now, ttlSeconds))))
      // no other entry is touched
      && r.1.Keys <= entries.Keys + {k}
      && (forall j :: j in entries && j != k ==> j in r.1 && r.1[j] == entries[j])
  {
    var k := CacheKey(bucket, key);
    if k in entries && Fresh(entries[k], now) then (Normal(entries[k].file), entries)
    else
      var o := fetch(bucket, key, now);
      if o.Failed? then (Throw, entries)
      else (Normal(Fetched(o)), entries[k := CacheEntry(Fetched(o), ExpiryOf(now, ttlSeconds))])
  }

  /** A successful fetch with a positive lifetime is served from the cache,
      without asking the store, for as long as the lifetime lasts. */
  lemma ServedFromCacheUntilExpiry(entries: map<string, CacheEntry>, bucket: string, key: string, now: int, later: int,
                                   ttlSeconds: Option<int>, fetch: (string, string, int) -> FetchOutcome,
                                   fetch2: (string, string, int) -> FetchOutcome)
    requires CachedFileStep(entries, bucket, key, now, ttlSeconds, fetch).0.Normal?
    requires ttlSeconds.Some? && now <= later < now + ttlSeconds.value * 1000
    requires CacheKey(bucket, key) !in entries || !Fresh(entries[CacheKey(bucket, key)], now)
    ensures var (r1, e1) := CachedFileStep(entries, bucket, key, now, ttlSeconds, fetch);
            CachedFileStep(e1, bucket, key, later, ttlSeconds, fetch2) == (r1, e1)
  {
  }

  /** With a lifetime that is not a number every lookup goes to the store. */
  lemma NaNLifetimeNeverHits(entries: map<string, CacheEntry>, bucket: string, key: string, now: int, later: int,
                             fetch: (string, string, int) -> FetchOutcome, fetch2: (string, string, int) -> FetchOutcome)
    requires forall j :: j in entries ==> entries[j].expiresOn.None?
    ensures var (r1, e1) := CachedFileStep(entries, bucket, key, now, None, fetch);
            && (forall j :: j in e1 ==> e1[j].expiresOn.None?)
            && CachedFileStep(e1, bucket, key, later, None, fetch2).0
               == (if fetch2(bucket, key, later).Failed? then Throw else Normal(Fetched(fetch2(bucket, key, later))))
  {
  }

  /** The cache of a warm function instance. */
  class TemplateCache {
    var entries: map<string, CacheEntry>

    constructor()
      ensures entries == map[]
    {
      entries := map[];
    }

    /** `getCachedFile(bucket, key)`, with `now` standing for the clock. */
    method GetCachedFile(bucket: string, key: string, now: int, ttlSeconds: Option<int>,
                         fetch: (string, string, int) -> FetchOutcome)
      returns (r: Completion<Option<string>>)
      modifies this
      ensures (r, entries) == CachedFileStep(old(entries), bucket, key, now, ttlSeconds, fetch)
    {
      var k := CacheKey(bucket, key);
      if k in entries && entries[k].expiresOn.Some? && entries[k].expiresOn.value > now {
        return Normal(entries[k].file);
      }
      var o := fetch(bucket, key, now);
      if o.Failed? {
        return Throw;
      }
      var file := if o.Body? then Some(o.text) else None;
      entries := entries[k := CacheEntry(file, ExpiryOf(now, ttlSeconds))];
      r := Normal(file);
    }
  }
}
