/** The prefetch store: a cache of page data by page index. The page data
    is a type parameter, since the store never looks inside it. */
module PrefetchStore {
  import opened Optional

  type Cache<D> = map<int, D>

  /** How the fetcher's promise settled. */
  datatype Fetched<D> = Resolved(data: D) | Rejected

  /** `prefetch` before its `await`: whether the fetcher is called at all. */
  function StartsFetch<D>(cache: Cache<D>, pageIndex: int): (r: bool)
    ensures r <==> Get(cache, pageIndex).None?
  {
    pageIndex !in cache
  }

  /** `prefetch` after its `await`, on whatever the cache holds by then: a
      resolved fetch stores its data, a rejected one changes nothing. */
  function Complete<D>(cache: Cache<D>, pageIndex: int, outcome: Fetched<D>): (r: Cache<D>)
    ensures outcome.Rejected? ==> r == cache
    ensures outcome.Resolved? ==> r == Set(cache, pageIndex, outcome.data)
  {
    match outcome
    case Resolved(data) => Set(cache, pageIndex, data)
    case Rejected => cache
  }

  datatype PrefetchResult<D> = PrefetchResult(cache: Cache<D>, fetcherCalled: bool)

  /** A whole `prefetch` with nothing else touching the cache meanwhile. */
  function Prefetch<D>(cache: Cache<D>, pageIndex: int, outcome: Fetched<D>): (r: PrefetchResult<D>)
    ensures pageIndex in cache ==> !r.fetcherCalled && r.cache == cache
    ensures pageIndex !in cache ==> r.fetcherCalled
    ensures pageIndex !in cache && outcome.Resolved? ==> Get(r.cache, pageIndex) == Some(outcome.data)
    ensures outcome.Rejected? ==> r.cache == cache
    ensures forall k :: k != pageIndex ==> Get(r.cache, k) == Get(cache, k)
  {
    if StartsFetch(cache, pageIndex) then PrefetchResult(Complete(cache, pageIndex, outcome), true)
    else PrefetchResult(cache, false)
  }

  /** `set`: writes or overwrites one index. */
  function Set<D>(cache: Cache<D>, pageIndex: int, data: D): (r: Cache<D>)
    ensures Get(r, pageIndex) == Some(data)
    ensures forall k :: k != pageIndex ==> Get(r, k) == Get(cache, k)
    ensures r.Keys == cache.Keys + {pageIndex}
  {
    cache[pageIndex := data]
  }

  /** `get`: the cached page, or `undefined`; the cache is left as it is. */
  function Get<D>(cache: Cache<D>, pageIndex: int): (r: Option<D>)
    ensures r.Some? <==> pageIndex in cache
    ensures r.Some? ==> r.value == cache[pageIndex]
  {
    if pageIndex in cache then Some(cache[pageIndex]) else None
  }

  /** `clear`: whatever the cache held, it is empty afterwards. */
  function Clear<D>(cache: Cache<D>): (r: Cache<D>)
    ensures forall k :: Get(r, k).None?
  {
    map[]
  }

  /** A second `prefetch` of a page the first one stored calls no fetcher
      and changes nothing. */
  lemma PrefetchIsOncePerPage<D>(cache: Cache<D>, pageIndex: int, first: D, second: Fetched<D>)
    requires pageIndex !in cache
    ensures var r1 := Prefetch(cache, pageIndex, Resolved(first));
      var r2 := Prefetch(r1.cache, pageIndex, second);
      !r2.fetcherCalled && r2.cache == r1.cache && Get(r2.cache, pageIndex) == Some(first)
  {
  }

  /** A fetch that settles after `set` wrote the same page overwrites it:
      the check for a cached page happens only before the `await`. */
  lemma LateFetchOverwritesSet<D>(cache: Cache<D>, pageIndex: int, written: D, fetched: D)
    requires StartsFetch(cache, pageIndex)
    ensures Get(Complete(Set(cache, pageIndex, written), pageIndex, Resolved(fetched)), pageIndex) == Some(fetched)
  {
  }
}
