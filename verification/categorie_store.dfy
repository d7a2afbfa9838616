/** The category store: one state record in front of two caches, the record
    itself (valid for 24 hours after `lastFetched`) and a `localStorage`
    envelope under the key "categorie". */
module CategorieStore {
  import opened Common
  import opened CategorieApi

  /** `CategorieStoreState`; `error` holds the message of the `Error` kept. */
  datatype CategorieState = CategorieState(
    categorie: seq<Categoria>,
    isLoading: bool,
    error: Option<string>,
    lastFetched: Option<int>)

  const INITIAL_STATE: CategorieState := CategorieState([], false, None, None)

  /** 24 hours, in milliseconds. */
  const CACHE_EXPIRY_TIME: int := 24 * 60 * 60 * 1000

  const STORAGE_KEY: string := "categorie"

  const UNKNOWN_ERROR: string := "Errore sconosciuto"

  /** The `localStorage` entries, as far as this store reads and writes them. */
  type Storage = map<string, Entry<seq<Categoria>>>

  type ListResponse = ApiResponse<PaginatedResponse<CategoriaDto>>

  /** The in-memory test: some categories, a truthy `lastFetched`, and less
      than 24 hours since then. */
  predicate MemoryValid(s: CategorieState, now: int)
  {
    |s.categorie| > 0 && TruthyTimestamp(s.lastFetched) && now - s.lastFetched.value < CACHE_EXPIRY_TIME
  }

  /** The observable result of one store operation: the final record, the
      cache afterwards, whether the server was asked, and every record
      announced to subscribers, in order. */
  datatype Effect = Effect(state: CategorieState, storage: Storage, requested: bool, emitted: seq<CategorieState>)

  /** `fetchCategorie(forceRefresh)`, run at time `now`. `response` is how
      `getAll` would settle and `writeError` what `localStorage.setItem`
      would throw, if anything; each is used only if reached. */
  function FetchCategorieEffect(
    s: CategorieState, ls: Storage, forceRefresh: bool, now: int,
    response: Outcome<ListResponse>, writeError: Option<Failure>): (e: Effect)
    // the server is asked exactly when neither cache may be used
    ensures !e.requested <==> !forceRefresh && (MemoryValid(s, now) || IsFresh(ls, STORAGE_KEY, now, CACHE_EXPIRY_TIME))
    // valid record: nothing happens at all
    ensures !forceRefresh && MemoryValid(s, now) ==> e.state == s && e.storage == ls && e.emitted == []
    // valid envelope: categories and timestamp taken from it, loading flag and error untouched
    ensures !forceRefresh && !MemoryValid(s, now) && IsFresh(ls, STORAGE_KEY, now, CACHE_EXPIRY_TIME) ==>
              && e.state == s.(categorie := ls[STORAGE_KEY].data.value, lastFetched := ls[STORAGE_KEY].timestamp)
              && e.storage == ls && e.emitted == [e.state]
    // otherwise: loading first, loading over at the end
    ensures e.requested ==> 2 <= |e.emitted| && e.emitted[0] == s.(isLoading := true, error := None)
    ensures e.requested ==> e.emitted[|e.emitted| - 1] == e.state && !e.state.isLoading
    // success: the list `getAll` returns, stamped now, written through
    ensures e.requested && response.Ok? ==>
              e.state.categorie == GetAll(response.payload) && e.state.lastFetched == Some(now)
    ensures e.requested && response.Ok? && writeError.None? ==>
              e.state.error.None? && e.storage == ls[STORAGE_KEY := StoredEnvelope(GetAll(response.payload), now)]
    // a write that throws leaves the new list in place but records the error
    ensures e.requested && response.Ok? && writeError.Some? ==>
              e.state.error == Some(ErrorMessage(writeError.value, UNKNOWN_ERROR)) && e.storage == ls
    // failure: the error is recorded, the data and its timestamp kept
    ensures e.requested && response.Err? ==>
              && e.state.categorie == s.categorie && e.state.lastFetched == s.lastFetched
              && e.state.error == Some(ErrorMessage(response.failure, UNKNOWN_ERROR)) && e.storage == ls
  {
    if !forceRefresh && MemoryValid(s, now) then
      Effect(s, ls, false, [])
    else
      var cached := if forceRefresh then None else GetFromLocalStorage(ls, STORAGE_KEY, now, CACHE_EXPIRY_TIME);
      if cached.Some? then
        var done := s.(categorie := cached.value.data, lastFetched := Some(cached.value.timestamp));
        Effect(done, ls, false, [done])
      else
        LoadEffect(s, ls, now, response, writeError)
  }

  /** The part of `fetchCategorie` past both caches: loading announced, then
      the list stamped and written through, or the error recorded. */
  function LoadEffect(s: CategorieState, ls: Storage, now: int, response: Outcome<ListResponse>, writeError: Option<Failure>): Effect
  {
    var loading := s.(isLoading := true, error := None);
    match response
    case Ok(r) =>
      var categorie := GetAll(r);
      var loaded := loading.(categorie := categorie, isLoading := false, lastFetched := Some(now));
      if writeError.None? then
        Effect(loaded, ls[STORAGE_KEY := StoredEnvelope(categorie, now)], true, [loading, loaded])
      else
        var failed := loaded.(error := Some(ErrorMessage(writeError.value, UNKNOWN_ERROR)), isLoading := false);
        Effect(failed, ls, true, [loading, loaded, failed])
    case Err(f) =>
      var failed := loading.(error := Some(ErrorMessage(f, UNKNOWN_ERROR)), isLoading := false);
      Effect(failed, ls, true, [loading, failed])
  }

  /** A list fetched from the server is sorted by `ordine` and holds only
      active categories. */
  lemma {:induction false} FetchedListSortedActive(
    s: CategorieState, ls: Storage, forceRefresh: bool, now: int,
    response: Outcome<ListResponse>, writeError: Option<Failure>)
    ensures var e := FetchCategorieEffect(s, ls, forceRefresh, now, response, writeError);
            e.requested && response.Ok? ==>
              Sorted(e.state.categorie) && forall c :: c in e.state.categorie ==> c.attiva
  {
    var e := FetchCategorieEffect(s, ls, forceRefresh, now, response, writeError);
    if e.requested && response.Ok? {
      GetAllOnlyActive(response.payload);
    }
  }

  /** Write-through: after a successful fetch at a truthy time `t0` whose
      write went through, a fetch (not forced) less than 24 hours later does
      not ask the server and shows the same list, from memory when the list
      is non-empty and from `localStorage` when it is empty. */
  lemma {:induction false} RefetchWithinDayNoRequest(
    s: CategorieState, ls: Storage, force: bool, t0: int, payload: ListResponse,
    now: int, response: Outcome<ListResponse>, writeError: Option<Failure>)
    requires t0 != 0 && now - t0 < CACHE_EXPIRY_TIME
    ensures var e1 := FetchCategorieEffect(s, ls, force, t0, Ok(payload), None);
            e1.requested ==>
              var e2 := FetchCategorieEffect(e1.state, e1.storage, false, now, response, writeError);
              && !e2.requested
              && e2.state.categorie == GetAll(payload)
              && e2.state.lastFetched == Some(t0)
  {
    var e1 := FetchCategorieEffect(s, ls, force, t0, Ok(payload), None);
    if e1.requested {
      assert e1.storage == ls[STORAGE_KEY := StoredEnvelope(GetAll(payload), t0)];
      assert IsFresh(e1.storage, STORAGE_KEY, now, CACHE_EXPIRY_TIME);
    }
  }

  /** When the write-through throws, only the record remembers the list: an
      empty list is then fetched again at once, since neither cache holds
      it (unless an older envelope is still fresh). */
  lemma EmptyListUnsavedRefetches(
    s: CategorieState, ls: Storage, force: bool, t0: int, payload: ListResponse, failure: Failure,
    now: int, response: Outcome<ListResponse>, writeError: Option<Failure>)
    requires GetAll(payload) == []
    requires !IsFresh(ls, STORAGE_KEY, now, CACHE_EXPIRY_TIME)
    ensures var e1 := FetchCategorieEffect(s, ls, force, t0, Ok(payload), Some(failure));
            e1.requested ==> FetchCategorieEffect(e1.state, e1.storage, false, now, response, writeError).requested
  {
  }

  /** `invalidateCache()`: the envelope removed and the record reset. */
  function InvalidateCacheEffect(ls: Storage): (ls': Storage)
    ensures STORAGE_KEY !in ls'
    ensures forall k :: k != STORAGE_KEY ==> (k in ls' <==> k in ls) && (k in ls' ==> ls'[k] == ls[k])
  {
    ls - {STORAGE_KEY}
  }

  /** After `invalidateCache()` the next fetch always goes to the server. */
  lemma {:induction false} InvalidateThenFetchRequests(ls: Storage, force: bool, now: int, response: Outcome<ListResponse>, writeError: Option<Failure>)
    ensures FetchCategorieEffect(INITIAL_STATE, InvalidateCacheEffect(ls), force, now, response, writeError).requested
  {
    assert !MemoryValid(INITIAL_STATE, now);
    assert !IsFresh(InvalidateCacheEffect(ls), STORAGE_KEY, now, CACHE_EXPIRY_TIME);
  }

  /** The store: its record, the `localStorage` entries, and the records
      announced to subscribers so far. */
  class Store {
    var state: CategorieState
    var storage: Storage
    ghost var history: seq<CategorieState>

    constructor (ls: Storage)
      ensures state == INITIAL_STATE && storage == ls && history == []
    {
      state := INITIAL_STATE;
      storage := ls;
      history := [];
    }

    method FetchCategorie(forceRefresh: bool, now: int, response: Outcome<ListResponse>, writeError: Option<Failure>)
      returns (requested: bool)
      modifies this
      ensures var e := FetchCategorieEffect(old(state), old(storage), forceRefresh, now, response, writeError);
              && state == e.state && storage == e.storage && requested == e.requested
              && history == old(history) + e.emitted
    {
      ghost var e := FetchCategorieEffect(state, storage, forceRefresh, now, response, writeError);
      var currentState := state;
      var isCacheValid := !forceRefresh && |currentState.categorie| > 0 && currentState.lastFetched.Some?
                          && currentState.lastFetched.value != 0
                          && now - currentState.lastFetched.value < CACHE_EXPIRY_TIME;
      if isCacheValid {
        return false;
      }

      if !forceRefresh && STORAGE_KEY in storage {
        var cached := storage[STORAGE_KEY];
        if cached.Envelope? && cached.data.Some? && TruthyTimestamp(cached.timestamp)
           && now - cached.timestamp.value < CACHE_EXPIRY_TIME {
          var done := state.(categorie := cached.data.value, lastFetched := cached.timestamp);
          state := done;
          history := history + [done];
          return false;
        }
      }

      Load(now, response, writeError);
      requested := true;
    }

    /** The remote half of `fetchCategorie`, from the record as it stands. */
    method Load(now: int, response: Outcome<ListResponse>, writeError: Option<Failure>)
      modifies this
      ensures var e := LoadEffect(old(state), old(storage), now, response, writeError);
              && state == e.state && storage == e.storage && history == old(history) + e.emitted
    {
      var loading := state.(isLoading := true, error := None);
      state := loading;
      history := history + [loading];

      match response {
        case Ok(r) =>
          var categorie := GetAll(r);
          var loaded := loading.(categorie := categorie, isLoading := false, lastFetched := Some(now));
          state := loaded;
          history := history + [loaded];
          if writeError.None? {
            storage := storage[STORAGE_KEY := StoredEnvelope(categorie, now)];
            PushTwice(old(history), loading, loaded);
          } else {
            var failed := loaded.(error := Some(ErrorMessage(writeError.value, UNKNOWN_ERROR)), isLoading := false);
            state := failed;
            history := history + [failed];
            PushThrice(old(history), loading, loaded, failed);
          }
        case Err(f) =>
          var failed := loading.(error := Some(ErrorMessage(f, UNKNOWN_ERROR)), isLoading := false);
          state := failed;
          history := history + [failed];
          PushTwice(old(history), loading, failed);
      }
    }

    method InvalidateCache()
      modifies this
      ensures storage == InvalidateCacheEffect(old(storage))
      ensures state == INITIAL_STATE && history == old(history) + [INITIAL_STATE]
    {
      storage := storage - {STORAGE_KEY};
      state := INITIAL_STATE;
      history := history + [state];
    }

    method Reset()
      modifies this
      ensures state == INITIAL_STATE
      ensures storage == old(storage) && history == old(history) + [INITIAL_STATE]
    {
      state := INITIAL_STATE;
      history := history + [state];
    }
  }
}
