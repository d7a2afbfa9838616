/** The plant catalogue store: one state record, replaced by successive
    `update` calls, in front of a `localStorage` cache with a one-hour
    time-to-live. */
module PianteStore {
  import opened Common
  import opened Filters

  /** A plant record. The store copies these without looking inside; their
      fields are declared outside the files modelled here. */
  datatype Pianta = Pianta(id: string, nome: string)

  datatype Pagination = Pagination(currentPage: int, totalPages: int, total: int, perPage: int)

  /** What `getAll` / `getByCategory` resolve with; also the `data` of a
      cache envelope. */
  datatype PianteResponse = PianteResponse(piante: seq<Pianta>, pagination: Pagination)

  /** `PianteStoreState`; `error` holds the message of the `Error` kept. */
  datatype PianteState = PianteState(
    piante: seq<Pianta>,
    isLoading: bool,
    error: Option<string>,
    pagination: Pagination,
    filters: Filters,
    categorySlug: Option<string>,
    lastFetched: Option<int>)

  const INITIAL_STATE: PianteState :=
    PianteState([], false, None, Pagination(1, 0, 0, 20), [(Page, Num(1)), (Limit, Num(20))], None, None)

  /** One hour, in milliseconds. */
  const CACHE_EXPIRY_TIME: int := 60 * 60 * 1000

  const UNKNOWN_ERROR: string := "Errore sconosciuto"

  /** The `localStorage` entries under the store's keys. */
  type Storage = map<string, Entry<PianteResponse>>

  /** The query record: `page` and `limit` always, the other parameters
      only when set (the flags are sent as 1 or 0). */
  datatype QueryParams = QueryParams(
    page: int,
    limit: int,
    search: Option<string>,
    indoor: Option<int>,
    flowers: Option<int>,
    edible: Option<int>,
    watering: Option<string>)

  /** The remote call issued: `getByCategory(slug, params)` or `getAll(params)`. */
  datatype Request = GetAll(params: QueryParams) | GetByCategory(slug: string, params: QueryParams)

  /** `categorySlug || 'all'`: a missing or empty slug names the category "all". */
  function CategoryName(slug: Option<string>): (c: string)
    ensures slug.Some? && slug.value != "" ==> c == slug.value
    ensures slug.None? || slug.value == "" ==> c == "all"
  {
    if slug.Some? && slug.value != "" then slug.value else "all"
  }

  /** `createCacheKey`. */
  function CacheKey(slug: Option<string>, filters: Filters): (key: string)
    ensures 7 <= |key| && key[..7] == "piante_"
  {
    "piante_" + CategoryName(slug) + "_" + Stringify(filters)
  }

  /** For fixed filters the key tells categories apart exactly as
      `categorySlug || 'all'` does: a missing slug, the empty slug and the
      slug "all" share one key, and any two other slugs get two keys. */
  lemma {:induction false} CacheKeySameFilters(s1: Option<string>, s2: Option<string>, filters: Filters)
    ensures CacheKey(s1, filters) == CacheKey(s2, filters) <==> CategoryName(s1) == CategoryName(s2)
    ensures CacheKey(None, filters) == CacheKey(Some(""), filters) == CacheKey(Some("all"), filters)
  {
    var c1, c2, j := CategoryName(s1), CategoryName(s2), Stringify(filters);
    if CacheKey(s1, filters) == CacheKey(s2, filters) {
      assert |c1| == |c2|;
      CategoryInKey(c1, j);
      CategoryInKey(c2, j);
    }
  }

  lemma CategoryInKey(c: string, j: string)
    ensures ("piante_" + c + "_" + j)[7..7 + |c|] == c
  {
    var k := "piante_" + c + "_" + j;
    assert k[..7 + |c|] == "piante_" + c;
    assert forall i :: 0 <= i < |c| ==> k[7 + i] == c[i];
  }

  /** For a fixed category the key tells filter objects apart exactly as
      their `JSON.stringify` does. */
  lemma {:induction false} CacheKeySameCategory(slug: Option<string>, f1: Filters, f2: Filters)
    ensures CacheKey(slug, f1) == CacheKey(slug, f2) <==> Stringify(f1) == Stringify(f2)
  {
    var prefix := "piante_" + CategoryName(slug) + "_";
    if CacheKey(slug, f1) == CacheKey(slug, f2) {
      assert CacheKey(slug, f1) == prefix + Stringify(f1);
      assert CacheKey(slug, f2) == prefix + Stringify(f2);
      assert Stringify(f1) == CacheKey(slug, f1)[|prefix|..] == CacheKey(slug, f2)[|prefix|..] == Stringify(f2);
    }
  }

  /** For a fixed category the key pins the filters down: two keys are
      equal exactly when the defined filters are the same, with the same
      values, in the same order. So filter objects that read differently on
      any field are cached under different keys. */
  lemma {:induction false} CacheKeyDeterminesFilters(slug: Option<string>, f1: Filters, f2: Filters)
    ensures CacheKey(slug, f1) == CacheKey(slug, f2) <==> Defined(f1) == Defined(f2)
    ensures WellFormed(f1) && WellFormed(f2) && CacheKey(slug, f1) == CacheKey(slug, f2) ==>
              forall k :: Get(f1, k) == Get(f2, k)
  {
    CacheKeySameCategory(slug, f1, f2);
    StringifyInjective(f1, f2);
    if WellFormed(f1) && WellFormed(f2) && CacheKey(slug, f1) == CacheKey(slug, f2) {
      forall k
        ensures Get(f1, k) == Get(f2, k)
      {
        GetDefined(f1, k);
        GetDefined(f2, k);
      }
    }
  }

  /** `x || d` for an optional number: missing, `undefined` and `0` give `d`. */
  function NumberOr(v: Value, d: int): int
  {
    if v.Num? && v.n != 0 then v.n else d
  }

  /** `filters.x ? 1 : 0` for a flag that is present. */
  function FlagParam(v: Value): Option<int>
  {
    if v.Flag? then Some(if v.b then 1 else 0) else None
  }

  /** A search text or watering level is sent only when it is a non-empty
      string. */
  function TextParam(v: Value): Option<string>
  {
    if v.Str? && v.s != "" then Some(v.s) else None
  }

  /** The query parameters `fetchPiante` sends for the filters it was passed. */
  function QueryParamsOf(f: Filters): (q: QueryParams)
    // `page || 1` and `limit || 20`: missing or zero falls back to the default
    ensures Get(f, Page).Num? && Get(f, Page).n != 0 ==> q.page == Get(f, Page).n
    ensures !(Get(f, Page).Num? && Get(f, Page).n != 0) ==> q.page == 1
    ensures Get(f, Limit).Num? && Get(f, Limit).n != 0 ==> q.limit == Get(f, Limit).n
    ensures !(Get(f, Limit).Num? && Get(f, Limit).n != 0) ==> q.limit == 20
    // text filters only when non-empty, flags whenever defined
    ensures q.search.Some? <==> Get(f, Search).Str? && Get(f, Search).s != ""
    ensures q.watering.Some? <==> Get(f, Watering).Str? && Get(f, Watering).s != ""
    ensures q.indoor.Some? <==> Get(f, Indoor).Flag?
    ensures q.flowers.Some? <==> Get(f, Flowers).Flag?
    ensures q.edible.Some? <==> Get(f, Edible).Flag?
    // and with the values read from the filters
    ensures Get(f, Search).Str? && Get(f, Search).s != "" ==> q.search == Some(Get(f, Search).s)
    ensures Get(f, Watering).Str? && Get(f, Watering).s != "" ==> q.watering == Some(Get(f, Watering).s)
    ensures q.indoor == Some(1) <==> Get(f, Indoor) == Flag(true)
    ensures q.indoor == Some(0) <==> Get(f, Indoor) == Flag(false)
    ensures q.flowers == Some(1) <==> Get(f, Flowers) == Flag(true)
    ensures q.flowers == Some(0) <==> Get(f, Flowers) == Flag(false)
    ensures q.edible == Some(1) <==> Get(f, Edible) == Flag(true)
    ensures q.edible == Some(0) <==> Get(f, Edible) == Flag(false)
  {
    QueryParams(NumberOr(Get(f, Page), 1), NumberOr(Get(f, Limit), 20),
                TextParam(Get(f, Search)), FlagParam(Get(f, Indoor)), FlagParam(Get(f, Flowers)),
                FlagParam(Get(f, Edible)), TextParam(Get(f, Watering)))
  }

  /** The query depends only on what each field reads as, not on the order
      of the keys nor on keys set to `undefined`. */
  lemma QueryParamsByValue(f1: Filters, f2: Filters)
    requires forall k :: Get(f1, k) == Get(f2, k)
    ensures QueryParamsOf(f1) == QueryParamsOf(f2)
  {
  }

  /** The cache key, unlike the query, does depend on key order: the same
      filters built in two orders make the same request and are cached
      under two keys. */
  lemma {:induction false} SameQueryTwoKeys()
    ensures var f1, f2 := [(Page, Num(1)), (Limit, Num(20))], [(Limit, Num(20)), (Page, Num(1))];
            && QueryParamsOf(f1) == QueryParamsOf(f2)
            && CacheKey(None, f1) != CacheKey(None, f2)
  {
    var f1, f2 := [(Page, Num(1)), (Limit, Num(20))], [(Limit, Num(20)), (Page, Num(1))];
    assert f1[1..] == [(Limit, Num(20))] && f1[1..][1..] == [];
    assert f2[1..] == [(Page, Num(1))] && f2[1..][1..] == [];
    forall k
      ensures Get(f1, k) == Get(f2, k)
    {
    }
    QueryParamsByValue(f1, f2);
    assert Defined(f1)[0] == f1[0] && Defined(f2)[0] == f2[0];
    CacheKeyDeterminesFilters(None, f1, f2);
  }

  /** `saveToLocalStorage`: a write that `localStorage` refuses is dropped. */
  function SaveToLocalStorage(ls: Storage, key: string, data: PianteResponse, timestamp: int, accepted: bool): (ls': Storage)
    ensures accepted ==> ls' == ls[key := StoredEnvelope(data, timestamp)]
    ensures !accepted ==> ls' == ls
  {
    if accepted then ls[key := StoredEnvelope(data, timestamp)] else ls
  }

  /** The observable result of one store operation: the final record, the
      cache afterwards, the key consulted, the request issued (if any) and
      every record announced to subscribers, in order. */
  datatype Effect = Effect(state: PianteState, storage: Storage, key: string, request: Option<Request>, emitted: seq<PianteState>)

  /** `fetchPiante(categorySlug, filters, forceRefresh)`, run at time `now`.
      `response` is how the remote call would settle, used only if it is
      made; `accepted` says whether `localStorage` takes the write. */
  function FetchPianteEffect(
    s: PianteState, ls: Storage, slug: Option<string>, filters: Filters, forceRefresh: bool,
    now: int, response: Outcome<PianteResponse>, accepted: bool): (e: Effect)
    requires WellFormed(s.filters) && WellFormed(filters)
    // first announcement: loading, error cleared, slug and merged filters recorded
    ensures |e.emitted| == 2 && e.emitted[1] == e.state
    ensures e.emitted[0] == s.(isLoading := true, error := None, categorySlug := slug, filters := Merge(s.filters, filters))
    ensures e.state.categorySlug == slug && e.state.filters == Merge(s.filters, filters) && !e.state.isLoading
    // the key comes from the filters passed, not from the merged record
    ensures e.key == CacheKey(slug, filters)
    // a fresh cached envelope short-circuits: no request, data and timestamp from the cache
    ensures e.request.None? <==> !forceRefresh && IsFresh(ls, e.key, now, CACHE_EXPIRY_TIME)
    ensures e.request.None? ==>
              && e.storage == ls && e.state.error.None?
              && e.state.piante == ls[e.key].data.value.piante
              && e.state.pagination == ls[e.key].data.value.pagination
              && e.state.lastFetched == ls[e.key].timestamp
    // the request: by category exactly when the slug is truthy, query from the filters passed
    ensures e.request.Some? ==> e.request.value.params == QueryParamsOf(filters)
    ensures e.request.Some? ==> (e.request.value.GetByCategory? <==> slug.Some? && slug.value != "")
    ensures e.request.Some? && e.request.value.GetByCategory? ==> e.request.value.slug == slug.value
    // success replaces the data wholesale and writes it through
    ensures e.request.Some? && response.Ok? ==>
              && e.state.piante == response.payload.piante
              && e.state.pagination == response.payload.pagination
              && e.state.lastFetched == Some(now) && e.state.error.None?
              && e.storage == SaveToLocalStorage(ls, e.key, response.payload, now, accepted)
    // failure records the error and keeps the data
    ensures e.request.Some? && response.Err? ==>
              && e.state.piante == s.piante && e.state.pagination == s.pagination
              && e.state.lastFetched == s.lastFetched && e.storage == ls
              && e.state.error == Some(ErrorMessage(response.failure, UNKNOWN_ERROR))
  {
    var loading := s.(isLoading := true, error := None, categorySlug := slug, filters := Merge(s.filters, filters));
    var key := CacheKey(slug, filters);
    var cached := if forceRefresh then None else GetFromLocalStorage(ls, key, now, CACHE_EXPIRY_TIME);
    if cached.Some? then
      CachedEffect(loading, ls, key, cached.value)
    else
      SettleEffect(loading, ls, key, RequestFor(slug, filters), now, response, accepted)
  }

  /** The second half of `fetchPiante` on a cache hit: data, pagination and
      timestamp from the envelope, no request. */
  function CachedEffect(loading: PianteState, ls: Storage, key: string, cached: Cached<PianteResponse>): (e: Effect)
    ensures e.emitted == [loading, e.state]
  {
    var done := loading.(piante := cached.data.piante, pagination := cached.data.pagination,
                         isLoading := false, lastFetched := Some(cached.timestamp));
    Effect(done, ls, key, None, [loading, done])
  }

  /** The remote call `fetchPiante` makes when the cache does not answer. */
  function RequestFor(slug: Option<string>, filters: Filters): Request
  {
    var params := QueryParamsOf(filters);
    if slug.Some? && slug.value != "" then GetByCategory(slug.value, params) else GetAll(params)
  }

  /** The second half of `fetchPiante` once `request` is made: the data and
      the timestamp on success (written through), the error otherwise. */
  function SettleEffect(
    loading: PianteState, ls: Storage, key: string, request: Request,
    now: int, response: Outcome<PianteResponse>, accepted: bool): Effect
  {
    match response
    case Ok(r) =>
      var done := loading.(piante := r.piante, pagination := r.pagination, isLoading := false, lastFetched := Some(now));
      Effect(done, SaveToLocalStorage(ls, key, r, now, accepted), key, Some(request), [loading, done])
    case Err(f) =>
      var done := loading.(error := Some(ErrorMessage(f, UNKNOWN_ERROR)), isLoading := false);
      Effect(done, ls, key, Some(request), [loading, done])
  }

  /** The filters `setFilters` passes on: the current ones, overridden by the
      new ones, with `page` forced to 1. */
  function SetFiltersArgument(current: Filters, filters: Filters): (arg: Filters)
    requires WellFormed(current) && WellFormed(filters)
    ensures WellFormed(arg)
    ensures Get(arg, Page) == Num(1)
    ensures forall k :: k != Page ==> Get(arg, k) == if k in Fields(filters) then Get(filters, k) else Get(current, k)
    ensures Fields(current) <= Fields(arg)
  {
    var m := Merge(current, filters);
    var arg := Merge(m, [(Page, Num(1))]);
    var fc, x, y := Fields(current), NewFields(Fields(current), Fields(filters)), NewFields(Fields(m), Fields([(Page, Num(1))]));
    assert Fields(arg) == (fc + x) + y == fc + (x + y);
    arg
  }

  /** `setFilters(filters)`: a fetch for the current category. */
  function SetFiltersEffect(s: PianteState, ls: Storage, filters: Filters, now: int, response: Outcome<PianteResponse>, accepted: bool): Effect
    requires WellFormed(s.filters) && WellFormed(filters)
  {
    FetchPianteEffect(s, ls, s.categorySlug, SetFiltersArgument(s.filters, filters), false, now, response, accepted)
  }

  /** The filters `goToPage` passes on: the current ones with `page` replaced. */
  function GoToPageArgument(current: Filters, page: int): (arg: Filters)
    requires WellFormed(current)
    ensures WellFormed(arg)
    ensures Get(arg, Page) == Num(page)
    ensures forall k :: k != Page ==> Get(arg, k) == Get(current, k)
    ensures Page in Fields(current) ==> Fields(arg) == Fields(current)
    ensures Fields(current) <= Fields(arg)
  {
    Merge(current, [(Page, Num(page))])
  }

  /** `goToPage(page)`: a fetch for the current category. */
  function GoToPageEffect(s: PianteState, ls: Storage, page: int, now: int, response: Outcome<PianteResponse>, accepted: bool): Effect
    requires WellFormed(s.filters)
  {
    FetchPianteEffect(s, ls, s.categorySlug, GoToPageArgument(s.filters, page), false, now, response, accepted)
  }

  /** After `setFilters` the record holds exactly the filters it fetched
      with: page 1, the new values over the old ones, the category kept; so
      the cache entry it used is the one `invalidateCache(categorySlug,
      filters)` of the new record removes, and a request, if made, asks for
      page 1. */
  lemma {:induction false} SetFiltersConsistent(s: PianteState, ls: Storage, filters: Filters, now: int, response: Outcome<PianteResponse>, accepted: bool)
    requires WellFormed(s.filters) && WellFormed(filters)
    ensures var e := SetFiltersEffect(s, ls, filters, now, response, accepted);
            && e.state.filters == SetFiltersArgument(s.filters, filters)
            && e.state.categorySlug == s.categorySlug
            && Get(e.state.filters, Page) == Num(1)
            && e.key == CacheKey(e.state.categorySlug, e.state.filters)
            && (e.request.Some? ==> e.request.value.params.page == 1)
  {
    var arg := SetFiltersArgument(s.filters, filters);
    MergeUnder(s.filters, arg);
    var e := FetchPianteEffect(s, ls, s.categorySlug, arg, false, now, response, accepted);
    assert e.state.filters == arg;
  }

  /** After `goToPage(page)` the record keeps every filter but `page`, which
      is `page`; the entry used is the one for the new record; a request, if
      made, asks for `page`, or for page 1 when `page` is 0. */
  lemma {:induction false} GoToPageConsistent(s: PianteState, ls: Storage, page: int, now: int, response: Outcome<PianteResponse>, accepted: bool)
    requires WellFormed(s.filters)
    ensures var e := GoToPageEffect(s, ls, page, now, response, accepted);
            && e.state.categorySlug == s.categorySlug
            && Get(e.state.filters, Page) == Num(page)
            && (forall k :: k != Page ==> Get(e.state.filters, k) == Get(s.filters, k))
            && e.key == CacheKey(e.state.categorySlug, e.state.filters)
            && (e.request.Some? ==> e.request.value.params.page == if page != 0 then page else 1)
  {
    MergeUnder(s.filters, GoToPageArgument(s.filters, page));
  }

  /** Write-through: after a successful fetch at a truthy time `t0`, the
      same fetch (not forced) at any time before `t0` plus one hour makes no
      request and shows the same plants, pagination and timestamp. */
  lemma {:induction false} RefetchHitsCache(
    s: PianteState, ls: Storage, slug: Option<string>, filters: Filters, force: bool, t0: int,
    payload: PianteResponse, now: int, response: Outcome<PianteResponse>, accepted: bool)
    requires WellFormed(s.filters) && WellFormed(filters)
    requires t0 != 0 && now < t0 + CACHE_EXPIRY_TIME
    ensures var e1 := FetchPianteEffect(s, ls, slug, filters, force, t0, Ok(payload), true);
            e1.request.Some? ==>
              var e2 := FetchPianteEffect(e1.state, e1.storage, slug, filters, false, now, response, accepted);
              && e2.request.None?
              && e2.state.piante == payload.piante
              && e2.state.pagination == payload.pagination
              && e2.state.lastFetched == Some(t0)
  {
    var e1 := FetchPianteEffect(s, ls, slug, filters, force, t0, Ok(payload), true);
    if e1.request.Some? {
      var key := CacheKey(slug, filters);
      ReadAfterWrite(ls, key, payload, t0, now, CACHE_EXPIRY_TIME, key);
      assert e1.storage == ls[key := StoredEnvelope(payload, t0)];
      assert IsFresh(e1.storage, key, now, CACHE_EXPIRY_TIME);
    }
  }

  /** `invalidateCache(categorySlug, filters)`: the one key removed. */
  function InvalidateCacheEffect(ls: Storage, slug: Option<string>, filters: Filters): (ls': Storage)
    ensures ls'.Keys == ls.Keys - {CacheKey(slug, filters)}
    ensures forall k :: k in ls' ==> ls'[k] == ls[k]
  {
    ls - {CacheKey(slug, filters)}
  }

  /** After `invalidateCache(slug, filters)` the same fetch always goes to
      the server, whatever the cache held. */
  lemma InvalidateThenFetchRequests(
    s: PianteState, ls: Storage, slug: Option<string>, filters: Filters, force: bool,
    now: int, response: Outcome<PianteResponse>, accepted: bool)
    requires WellFormed(s.filters) && WellFormed(filters)
    ensures FetchPianteEffect(s, InvalidateCacheEffect(ls, slug, filters), slug, filters, force, now, response, accepted).request.Some?
  {
  }

  /** The key is taken from the filters passed, not from the merged record:
      when the record's first filter is set and not passed again, and the
      first filter passed is set, the entry is cached under a key that
      `invalidateCache(categorySlug, filters)` of the resulting record does
      not name. A fresh store given `{ indoor: true }` is such a case. */
  lemma {:induction false} KeyFromArgumentNotRecord(
    s: PianteState, ls: Storage, slug: Option<string>, filters: Filters, force: bool,
    now: int, response: Outcome<PianteResponse>, accepted: bool)
    requires WellFormed(s.filters) && WellFormed(filters)
    requires s.filters != [] && s.filters[0].1 != Undefined && s.filters[0].0 !in Fields(filters)
    requires filters != [] && filters[0].1 != Undefined
    ensures var e := FetchPianteEffect(s, ls, slug, filters, force, now, response, accepted);
            e.key != CacheKey(e.state.categorySlug, e.state.filters)
  {
    var merged := Merge(s.filters, filters);
    MergeKeepsFirst(s.filters, filters);
    assert Fields(filters)[0] == filters[0].0;
    assert Defined(filters)[0] == filters[0] && Defined(merged)[0] == merged[0];
    CacheKeyDeterminesFilters(slug, filters, merged);
  }

  /** A fresh store given `fetchPiante(null, { indoor: true })` ends with the
      filters `{ page: 1, limit: 20, indoor: true }` and has cached the
      answer under the key of `{ indoor: true }`, which is not the key of
      its own record. */
  lemma {:induction false} FreshStoreIndoorKey(
    ls: Storage, force: bool, now: int, response: Outcome<PianteResponse>, accepted: bool)
    ensures var e := FetchPianteEffect(INITIAL_STATE, ls, None, [(Indoor, Flag(true))], force, now, response, accepted);
            && Get(e.state.filters, Page) == Num(1)
            && Get(e.state.filters, Limit) == Num(20)
            && Get(e.state.filters, Indoor) == Flag(true)
            && e.key == CacheKey(None, [(Indoor, Flag(true))])
            && e.key != CacheKey(e.state.categorySlug, e.state.filters)
  {
    var f: Filters := [(Indoor, Flag(true))];
    InitialFiltersWithIndoor();
    KeyFromArgumentNotRecord(INITIAL_STATE, ls, None, f, force, now, response, accepted);
  }

  lemma InitialFiltersWithIndoor()
    ensures var f: Filters := [(Indoor, Flag(true))];
            && WellFormed(INITIAL_STATE.filters) && WellFormed(f)
            && INITIAL_STATE.filters != [] && INITIAL_STATE.filters[0].1 != Undefined
            && INITIAL_STATE.filters[0].0 !in Fields(f)
            && Get(Merge(INITIAL_STATE.filters, f), Page) == Num(1)
            && Get(Merge(INITIAL_STATE.filters, f), Limit) == Num(20)
            && Get(Merge(INITIAL_STATE.filters, f), Indoor) == Flag(true)
  {
    var f: Filters := [(Indoor, Flag(true))];
    assert Fields(f) == [Indoor];
  }

  /** The query record as `fetchPiante` builds it, one parameter at a time. */
  method BuildQueryParams(filters: Filters) returns (queryParams: QueryParams)
    ensures queryParams == QueryParamsOf(filters)
  {
    queryParams := QueryParams(NumberOr(Get(filters, Page), 1), NumberOr(Get(filters, Limit), 20), None, None, None, None, None);
    var search := Get(filters, Search);
    if search.Str? && search.s != "" {
      queryParams := queryParams.(search := Some(search.s));
    }
    var indoor := Get(filters, Indoor);
    if indoor.Flag? {
      queryParams := queryParams.(indoor := Some(if indoor.b then 1 else 0));
    }
    var flowers := Get(filters, Flowers);
    if flowers.Flag? {
      queryParams := queryParams.(flowers := Some(if flowers.b then 1 else 0));
    }
    var edible := Get(filters, Edible);
    if edible.Flag? {
      queryParams := queryParams.(edible := Some(if edible.b then 1 else 0));
    }
    var watering := Get(filters, Watering);
    if watering.Str? && watering.s != "" {
      queryParams := queryParams.(watering := Some(watering.s));
    }
  }

  /** The store: its record, the cache entries under its keys, and the
      records announced to subscribers so far. */
  class Store {
    var state: PianteState
    var storage: Storage
    ghost var history: seq<PianteState>

    ghost predicate Valid()
      reads this
    {
      WellFormed(state.filters)
    }

    constructor (ls: Storage)
      ensures Valid() && state == INITIAL_STATE && storage == ls && history == []
    {
      state := INITIAL_STATE;
      storage := ls;
      history := [];
    }

    method FetchPiante(
      slug: Option<string>, filters: Filters, forceRefresh: bool,
      now: int, response: Outcome<PianteResponse>, accepted: bool) returns (request: Option<Request>)
      requires Valid() && WellFormed(filters)
      modifies this
      ensures Valid()
      ensures var e := FetchPianteEffect(old(state), old(storage), slug, filters, forceRefresh, now, response, accepted);
              && state == e.state && storage == e.storage && request == e.request
              && history == old(history) + e.emitted
    {
      ghost var e := FetchPianteEffect(state, storage, slug, filters, forceRefresh, now, response, accepted);
      var loading := state.(isLoading := true, error := None, categorySlug := slug, filters := Merge(state.filters, filters));
      state := loading;
      history := history + [loading];

      var cacheKey := CacheKey(slug, filters);
      if !forceRefresh {
        var cached := GetFromLocalStorage(storage, cacheKey, now, CACHE_EXPIRY_TIME);
        if cached.Some? {
          assert e == CachedEffect(loading, storage, cacheKey, cached.value);
          ServeCached(cacheKey, cached.value);
          PushTwice(old(history), loading, state);
          return None;
        }
      }

      var queryParams := BuildQueryParams(filters);
      var remote;
      if slug.Some? && slug.value != "" {
        remote := GetByCategory(slug.value, queryParams);
      } else {
        remote := GetAll(queryParams);
      }
      assert e == SettleEffect(loading, storage, cacheKey, remote, now, response, accepted);
      Settle(cacheKey, remote, now, response, accepted);
      PushTwice(old(history), loading, state);
      request := Some(remote);
    }

    /** The update on a cache hit, from the loading record. */
    method ServeCached(cacheKey: string, cached: Cached<PianteResponse>)
      modifies this
      ensures var e := CachedEffect(old(state), old(storage), cacheKey, cached);
              && state == e.state && storage == old(storage) && history == old(history) + [e.state]
    {
      var done := state.(piante := cached.data.piante, pagination := cached.data.pagination,
                         isLoading := false, lastFetched := Some(cached.timestamp));
      state := done;
      history := history + [done];
    }

    /** The update after the remote call settles, from the loading record. */
    method Settle(cacheKey: string, remote: Request, now: int, response: Outcome<PianteResponse>, accepted: bool)
      modifies this
      ensures var e := SettleEffect(old(state), old(storage), cacheKey, remote, now, response, accepted);
              && state == e.state && storage == e.storage && history == old(history) + [e.state]
    {
      match response {
        case Ok(r) =>
          var done := state.(piante := r.piante, pagination := r.pagination, isLoading := false, lastFetched := Some(now));
          state := done;
          history := history + [done];
          storage := SaveToLocalStorage(storage, cacheKey, r, now, accepted);
        case Err(f) =>
          var done := state.(error := Some(ErrorMessage(f, UNKNOWN_ERROR)), isLoading := false);
          state := done;
          history := history + [done];
      }
    }

    method SetFilters(filters: Filters, now: int, response: Outcome<PianteResponse>, accepted: bool) returns (request: Option<Request>)
      requires Valid() && WellFormed(filters)
      modifies this
      ensures Valid()
      ensures var e := SetFiltersEffect(old(state), old(storage), filters, now, response, accepted);
              && state == e.state && storage == e.storage && request == e.request
              && history == old(history) + e.emitted
    {
      request := FetchPiante(state.categorySlug, SetFiltersArgument(state.filters, filters), false, now, response, accepted);
    }

    method GoToPage(page: int, now: int, response: Outcome<PianteResponse>, accepted: bool) returns (request: Option<Request>)
      requires Valid()
      modifies this
      ensures Valid()
      ensures var e := GoToPageEffect(old(state), old(storage), page, now, response, accepted);
              && state == e.state && storage == e.storage && request == e.request
              && history == old(history) + e.emitted
    {
      request := FetchPiante(state.categorySlug, GoToPageArgument(state.filters, page), false, now, response, accepted);
    }

    method InvalidateCache(slug: Option<string>, filters: Filters)
      modifies this
      ensures storage == InvalidateCacheEffect(old(storage), slug, filters)
      ensures state == old(state) && history == old(history)
    {
      var cacheKey := CacheKey(slug, filters);
      storage := storage - {cacheKey};
    }

    method Reset()
      modifies this
      ensures Valid() && state == INITIAL_STATE
      ensures storage == old(storage) && history == old(history) + [INITIAL_STATE]
    {
      state := INITIAL_STATE;
      history := history + [state];
    }
  }
}
