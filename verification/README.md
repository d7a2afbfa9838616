# Plant catalogue front end: stores, category service and auth state, in Dafny

This project models the client-side state of the *Cura le piante* catalogue
front end:

- **The plant store** (`pianteStore`). It holds one record: `piante`,
  `isLoading`, `error`, `pagination`, `filters`, `categorySlug` and
  `lastFetched`. A `localStorage` cache with a one-hour time-to-live sits in
  front of it. `fetchPiante` does the following, in order:
  - merges the filters into the record;
  - derives a cache key from the category and `JSON.stringify` of the
    filters;
  - serves a fresh cache entry, or else builds the query parameters and
    calls the catalogue API;
  - on success, replaces the data and writes it through to the cache;
  - on failure, records the error.

  `setFilters`, `goToPage`, `invalidateCache` and `reset` are built on top
  of it.
- **The category store** (`categorieStore`). It has a two-level cache in
  front of one API call. The first level is the in-memory record, valid for
  24 hours after `lastFetched`. The second is a `localStorage` envelope
  under the key `categorie`.
- **The category service** (`categorieAPI`). `mapCategoria` maps a DTO to a
  `Categoria`. `getAll` keeps the active categories, maps them and sorts
  them stably by `ordine`. `getById` maps a single DTO.
- **The auth store** (`authStore`). It covers:
  - the role-to-permission table and the `userPermissions`,
    `hasPermission`, `hasRole`, `isAdminUser` and `isAdmin` views of it;
  - the helpers that rewrite `AuthState`;
  - the control flow of `initialize`, `login` and `logout`.

Each stateful store is a class:

- `PianteStore.Store` and `CategorieStore.Store` hold the record and their
  part of `localStorage`.
- `AuthStore.AuthStoreManager` holds `AuthState`.
- In all three, a ghost `history` lists every record announced to
  subscribers, in order. Each `update`/`set` appends one.

Every store method is proved against a pure "effect" function of the old
state and the inputs, for example `FetchPianteEffect` or
`FetchCategorieEffect`. What the source promises is then stated and proved
about those functions.

These things are passed in as parameters rather than performed:

- the clock (`now`);
- how each awaited call settles (`Outcome<T>`: `Ok(payload)` or `Err(failure)`);
- whether `localStorage` accepts a write.

The modules follow the source:

| file | module | models |
|---|---|---|
| common.dfy | Common | `Option`, settled calls, the `localStorage` envelope and `getFromLocalStorage` |
| json.dfy | Json | the part of `JSON.stringify` the cache key needs |
| filters.dfy | Filters | `PianteFilters` as an ordered JavaScript object: property read and write, object spread, `JSON.stringify` |
| piante_store.dfy | PianteStore | `createCacheKey`, `saveToLocalStorage`, the query parameters, `fetchPiante`, `setFilters`, `goToPage`, `invalidateCache`, `reset` |
| api.dfy | CategorieApi | `mapCategoria`, `categorieAPI.getAll`, `categorieAPI.getById` |
| categorie_store.dfy | CategorieStore | `fetchCategorie`, `invalidateCache`, `reset` |
| auth_store.dfy | AuthStore | `ROLE_PERMISSIONS`, the permission views, the state helpers, `initialize`, `login`, `logout` |

Some JavaScript semantics are written out explicitly:

- **Truthiness.** A timestamp of 0 and an empty string are falsy.
- **`x || d`.** Used for `page` and `limit`.
- **Object spread.** Keys keep their first position, the later value wins,
  and new keys go last.
- **`JSON.stringify`.** Keys appear in insertion order, and `undefined`
  values are left out.
- **Sorting.** `Array.prototype.sort` is stable.

## Model

| member | source | states |
|---|---|---|
| Common.GetFromLocalStorage | src/lib/stores/pianteStore.ts:73-93 | It returns an entry exactly when the key exists, parses, and has truthy `data`, a truthy `timestamp` and `now - timestamp < expiry`. It then returns that data and timestamp. A missing, malformed or stale entry is a miss, never an exception. |
| Common.ReadAfterWrite | src/lib/stores/pianteStore.ts:59-93 | An envelope written at a non-zero time `t0` reads back with the same data and timestamp exactly while `now < t0 + expiry`. Other keys read as before the write. |
| Common.ZeroTimestampNeverHits | src/lib/stores/pianteStore.ts:83 | An envelope stamped 0 is never served, because 0 is falsy. |
| Common.ReadAfterRemove | src/lib/stores/pianteStore.ts:206-211 | After `removeItem(key)`, that key is a miss and every other key reads as before. |
| Json.NatToString | src/lib/stores/pianteStore.ts:98 | The digits read back as `n`: at least one decimal digit and no leading zero. |
| Json.Number | src/lib/stores/pianteStore.ts:98 | The text reads back as the number: a leading `-` exactly when it is negative, then decimal digits (plain decimal for every integer; see "## Left out"). |
| Json.NumberDelimits | src/lib/stores/pianteStore.ts:98 | A rendered number followed by a non-digit determines both the number and the text after it. |
| Json.EscapeChar | src/lib/stores/pianteStore.ts:98 | A character is copied unchanged exactly when it is not a quote, a backslash or a control character. Otherwise it is escaped to a longer text. |
| Json.EscapeCharRoundTrip | src/lib/stores/pianteStore.ts:98 | Unescaping an escaped character gives the character back. |
| Json.EscapeCharDelimits | src/lib/stores/pianteStore.ts:98 | An escaped character followed by any text determines both the character and that text. |
| Json.EscapeAllPlain | src/lib/stores/pianteStore.ts:98 | Text without quotes, backslashes or control characters is copied unchanged. |
| Json.ReadEscapedOf | src/lib/stores/pianteStore.ts:98 | Reading escaped text followed by a double quote gives the original text back and stops at that quote. |
| Json.EscapeAllDelimits | src/lib/stores/pianteStore.ts:98 | An escaped text followed by a double quote determines both the text and what follows. |
| Json.QuoteDelimits | src/lib/stores/pianteStore.ts:98 | `Json.Quote` (the string literal `JSON.stringify` writes) followed by any text determines both the string and that text. |
| Filters.Get | src/lib/stores/pianteStore.ts:148-157 | A read gives the value at the first occurrence of the key. An absent key reads as `undefined`. |
| Filters.Set | src/lib/stores/pianteStore.ts:123 | After assigning a property, that key reads the new value and every other key is unchanged. An existing key keeps its place and a new key goes last. A well-formed object stays well-formed. |
| Filters.Merge | src/lib/stores/pianteStore.ts:123 | `{ ...a, ...b }`: a key of `b` reads `b`'s value and any other key reads `a`'s. The keys are `a`'s keys followed by the keys only `b` has, in `b`'s order. Every key appears at most once. |
| Filters.MergeUnder | src/lib/stores/pianteStore.ts:123 | Spreading `a` under an object whose keys already begin with `a`'s keys gives that object back. |
| Filters.MergeAbsorbs | src/lib/stores/pianteStore.ts:123 | `{ ...a, ...{ ...a, ...b } }` equals `{ ...a, ...b }`. |
| Filters.MergeKeepsFirst | src/lib/stores/pianteStore.ts:123 | When `b` lacks `a`'s first key, that property stays first in the spread, with its value. |
| Filters.Defined | src/lib/stores/pianteStore.ts:98 | The properties `JSON.stringify` renders: exactly the input properties whose value is not `undefined`. |
| Filters.GetDefined | src/lib/stores/pianteStore.ts:98 | In an object with distinct keys, leaving out the `undefined` properties changes no read. |
| Filters.MemberText | src/lib/stores/pianteStore.ts:98 | A property renders as its name in double quotes, a colon, then the value. |
| Filters.ValueDelimits | src/lib/stores/pianteStore.ts:98 | A rendered value followed by a comma or a closing brace determines both the value and the text after it. |
| Filters.KeyDelimits | src/lib/stores/pianteStore.ts:98 | A quoted property name followed by any text determines both the key and that text. |
| Filters.MemberDelimits | src/lib/stores/pianteStore.ts:98 | A rendered property followed by a comma or a closing brace determines its key, its value and the text after it. |
| Filters.BodyDelimits | src/lib/stores/pianteStore.ts:98 | The rendering of a list of defined properties determines the list. |
| Filters.StringifyInjective | src/lib/stores/pianteStore.ts:98 | `Filters.Stringify`, the model of `JSON.stringify(filters)`: two filter objects render to the same text exactly when they have the same defined properties, with the same values, in the same order. |
| Filters.StringifyOpensWithFirstKey | src/lib/stores/pianteStore.ts:98 | The text is `{}` when no property is defined, and otherwise begins with `{"` + the first defined key's name + `":`. |
| PianteStore.CacheKey | src/lib/stores/pianteStore.ts:96-100 | Every key starts with `piante_`. |
| PianteStore.CacheKeySameFilters | src/lib/stores/pianteStore.ts:96-100 | With the same filters, two keys are equal exactly when the category names are equal. `null`, `""` and `"all"` share one key. |
| PianteStore.CacheKeySameCategory | src/lib/stores/pianteStore.ts:96-100 | With the same category, two keys are equal exactly when the `JSON.stringify` texts are equal. |
| PianteStore.CacheKeyDeterminesFilters | src/lib/stores/pianteStore.ts:96-100 | With the same category, two keys are equal exactly when the defined filters are the same, in the same order. Objects with distinct keys that share a key read alike on every field. |
| PianteStore.QueryParamsOf | src/lib/stores/pianteStore.ts:147-157 | `page` and `limit` are the filter values, or 1 and 20 when absent or 0. `search` and `watering` are sent, with the filter's text, exactly when it is a non-empty string. `indoor`, `flowers` and `edible` are sent exactly when defined: 1 exactly for true and 0 exactly for false. |
| PianteStore.QueryParamsByValue | src/lib/stores/pianteStore.ts:147-157 | The query depends only on what each field reads as. |
| PianteStore.SameQueryTwoKeys | src/lib/stores/pianteStore.ts:126 | `{page:1, limit:20}` and `{limit:20, page:1}` produce the same query but two different cache keys. |
| PianteStore.BuildQueryParams | src/lib/stores/pianteStore.ts:147-157 | Building the query record one parameter at a time gives exactly `QueryParamsOf(filters)`. |
| PianteStore.SaveToLocalStorage | src/lib/stores/pianteStore.ts:59-70 | An accepted write stores `{ data, timestamp }` under the key. A refused write leaves the cache as it was. |
| PianteStore.FetchPianteEffect | src/lib/stores/pianteStore.ts:110-185 | It announces two records: first loading, with the error cleared, the slug and the merged filters; then the final record. The key comes from the filters passed in. There is no request exactly when the fetch is not forced and the entry is fresh; the data and timestamp then come from the entry. Otherwise the request goes by category exactly when the slug is truthy, with the query built from the filters passed in. Success replaces the data, stamps `now` and writes through. Failure keeps the data and records the error. |
| PianteStore.CachedEffect | src/lib/stores/pianteStore.ts:130-142 | A cache hit announces the loading record and then the served one. |
| PianteStore.SetFiltersArgument | src/lib/stores/pianteStore.ts:188-194 | `{ ...current, ...filters, page: 1 }`: `page` is 1. Every other key reads the new value if one is given, else the current one. The current keys keep their order. |
| PianteStore.GoToPageArgument | src/lib/stores/pianteStore.ts:197-203 | `{ ...current, page }`: only `page` changes, and the key order is kept. |
| PianteStore.SetFiltersConsistent | src/lib/stores/pianteStore.ts:188-194 | After `setFilters`, the record holds exactly the filters fetched with: page 1 and the same category. The key used is the record's own key, and any request asks for page 1. |
| PianteStore.GoToPageConsistent | src/lib/stores/pianteStore.ts:197-203 | After `goToPage(p)`, only `page` changed and the category is kept. The key used is the record's own key. Any request asks for `p`, or for 1 when `p` is 0. |
| PianteStore.RefetchHitsCache | src/lib/stores/pianteStore.ts:126-176 | After a successful fetch at time `t0`, the same fetch within the hour makes no request and shows the same plants, pagination and timestamp. |
| PianteStore.InvalidateCacheEffect | src/lib/stores/pianteStore.ts:206-212 | Exactly the key for `(slug, filters)` is removed, and the other entries are unchanged. |
| PianteStore.InvalidateThenFetchRequests | src/lib/stores/pianteStore.ts:206-212 | After invalidating `(slug, filters)`, the same fetch always makes a request. |
| PianteStore.KeyFromArgumentNotRecord | src/lib/stores/pianteStore.ts:118-126 | Because the key is taken from the filters passed rather than the merged record, a fetch can be cached under a key that `invalidateCache(categorySlug, filters)` of the resulting record does not name. |
| PianteStore.FreshStoreIndoorKey | src/lib/stores/pianteStore.ts:47-50 | A fresh store given `fetchPiante(null, { indoor: true })` ends with `page` 1, `limit` 20 and `indoor` true. It has used the key of `{ indoor: true }`, which is not the key of its own record. |
| PianteStore.Store.constructor | src/lib/stores/pianteStore.ts:37-53 | The store starts from `initialState`. |
| PianteStore.Store.FetchPiante | src/lib/stores/pianteStore.ts:110-185 | The new record, cache, request and announcements are those of `FetchPianteEffect`, and the filters stay well-formed. |
| PianteStore.Store.ServeCached | src/lib/stores/pianteStore.ts:134-140 | A cache hit updates the record as `CachedEffect` says. The cache is untouched. |
| PianteStore.Store.Settle | src/lib/stores/pianteStore.ts:160-184 | The success or failure update, and the write-through, happen as `SettleEffect` says. |
| PianteStore.Store.SetFilters | src/lib/stores/pianteStore.ts:188-194 | The method behaves as `fetchPiante(categorySlug, { ...filters, ...new, page: 1 })`. |
| PianteStore.Store.GoToPage | src/lib/stores/pianteStore.ts:197-203 | The method behaves as `fetchPiante(categorySlug, { ...filters, page })`. |
| PianteStore.Store.InvalidateCache | src/lib/stores/pianteStore.ts:206-212 | One key is removed. The record is unchanged and nothing is announced. |
| PianteStore.Store.Reset | src/lib/stores/pianteStore.ts:215 | The record becomes `initialState`, which is announced. The cache is kept. |
| CategorieApi.MapCategoria | src/lib/services/api.ts:76-85 | `_id`, `nome`, `slug`, `ordine` and `attiva` are copied, and `descrizione` is copied as present. |
| CategorieApi.MapCategoriaForgetsOnlyBookkeeping | src/lib/services/api.ts:76-85 | Two DTOs map alike exactly when they differ at most in `createdAt`, `updatedAt` and `__v`. |
| CategorieApi.ActiveOnly | src/lib/services/api.ts:94 | An element is kept exactly when it is in the input and `attiva`. |
| CategorieApi.ActiveOnlyCounts | src/lib/services/api.ts:94 | Each active DTO is kept as many times as it occurs, and no inactive one is kept. |
| CategorieApi.ActiveOnlyAppend | src/lib/services/api.ts:94 | Filtering a concatenation concatenates the filtered parts, so the kept DTOs keep their input order. |
| CategorieApi.MapAll | src/lib/services/api.ts:95 | The length is preserved, and element `i` is `mapCategoria` of input `i`. |
| CategorieApi.Insert | src/lib/services/api.ts:96 | Insertion into a sorted list gives a sorted list with the new element added. |
| CategorieApi.InsertPermutes | src/lib/services/api.ts:96 | Insertion adds exactly one occurrence of the element. |
| CategorieApi.InsertStable | src/lib/services/api.ts:96 | The element goes ahead of its equal-`ordine` peers, and every other `ordine` group is unchanged. |
| CategorieApi.SortByOrdine | src/lib/services/api.ts:96 | The result is sorted by `ordine`, non-decreasing (`ordine` taken as an integer; see "## Left out"). |
| CategorieApi.SortByOrdineStablePermutation | src/lib/services/api.ts:96 | The sort is a permutation, and it is stable: each `ordine` group keeps its input order. |
| CategorieApi.GetAll | src/lib/services/api.ts:89-97 | The result is sorted, is a permutation of the mapped active DTOs, and is stable within each `ordine`. |
| CategorieApi.MapAllMember | src/lib/services/api.ts:95 | A category is in the mapped list exactly when some DTO maps to it. |
| CategorieApi.GetAllListsActive | src/lib/services/api.ts:93-96 | A category is listed exactly when some active DTO maps to it. |
| CategorieApi.GetAllOnlyActive | src/lib/services/api.ts:94 | Every listed category has `attiva`. |
| CategorieApi.GetAllCountsActive | src/lib/services/api.ts:93-96 | There is one category per active DTO. The list is empty exactly when no DTO is active. |
| CategorieApi.GetById | src/lib/services/api.ts:99-102 | The result is `mapCategoria` of the DTO, so it carries the DTO's `_id` and `attiva`. |
| CategorieApi.GetByIdAgreesWithGetAll | src/lib/services/api.ts:89-102 | For a DTO in the list: `getById`'s category is listed by `getAll` when it is active, and is never listed when it is inactive. |
| CategorieStore.FetchCategorieEffect | src/lib/stores/categorieStore.ts:32-105 | The server is asked exactly when the call is forced or neither cache is valid. A valid record changes nothing. A valid envelope sets `categorie` and `lastFetched` from it, leaving `isLoading` and `error` alone. Otherwise it announces loading first. Success stores the `getAll` list stamped `now` and writes it through. A throwing write records its error but keeps the list. Failure keeps the data and records the error. |
| CategorieStore.FetchedListSortedActive | src/lib/stores/categorieStore.ts:81-87 | A list fetched from the server is sorted by `ordine` and holds only active categories. |
| CategorieStore.RefetchWithinDayNoRequest | src/lib/stores/categorieStore.ts:40-96 | After a successful, saved fetch at time `t0`, a fetch within 24 hours asks nothing and shows the same list and timestamp. |
| CategorieStore.EmptyListUnsavedRefetches | src/lib/stores/categorieStore.ts:40-103 | An empty list whose write threw is fetched again at once, since no cache holds it. |
| CategorieStore.InvalidateCacheEffect | src/lib/stores/categorieStore.ts:108-114 | The `categorie` key is removed and the other entries are unchanged. |
| CategorieStore.InvalidateThenFetchRequests | src/lib/stores/categorieStore.ts:108-114 | After `invalidateCache()`, the next fetch always asks the server. |
| CategorieStore.Store.constructor | src/lib/stores/categorieStore.ts:15-20 | The store starts from `initialState`. |
| CategorieStore.Store.FetchCategorie | src/lib/stores/categorieStore.ts:32-105 | The new record, cache, request flag and announcements are those of `FetchCategorieEffect`. |
| CategorieStore.Store.Load | src/lib/stores/categorieStore.ts:78-104 | The API half of `fetchCategorie`, as `LoadEffect` describes it. |
| CategorieStore.Store.InvalidateCache | src/lib/stores/categorieStore.ts:108-114 | The envelope is removed, and the record becomes `initialState`, which is announced. |
| CategorieStore.Store.Reset | src/lib/stores/categorieStore.ts:116 | The record becomes `initialState`. The cache is kept. |
| AuthStore.AdminHasEveryPermission | src/lib/stores/authStore.ts:45-52 | `AuthStore.RolePermissions` (the `ROLE_PERMISSIONS` table): ADMIN holds all 14 permissions, each listed once. |
| AuthStore.UserReadsOnly | src/lib/stores/authStore.ts:53-57 | `AuthStore.RolePermissions`: USER holds exactly `articles.read`, `plants.read` and `affiliate-products.read`, and all of them are ADMIN's too. |
| AuthStore.UserPermissions | src/lib/stores/authStore.ts:60-63 | The list is empty with no user, and empty for a role missing from the table. |
| AuthStore.HasPermission | src/lib/stores/authStore.ts:180-185 | It is false with no user or an unknown role, always true for ADMIN, and true for USER exactly on the three read permissions. |
| AuthStore.AdminViewsAgree | src/lib/stores/authStore.ts:187-195 | `isAdminUser()`, modelled by `AuthStore.IsAdminUser`, agrees with the derived `isAdmin` value. An admin holds every permission. Promoting a USER to ADMIN loses no permission. |
| AuthStore.Authenticated | src/lib/stores/authStore.ts:202-210 | The user and token are set, the record is authenticated and consistent, the error is cleared, and `isLoading` is untouched. |
| AuthStore.Unauthenticated | src/lib/stores/authStore.ts:212-220 | The user and token are cleared, the record is not authenticated and is consistent, the error is cleared, and `isLoading` is untouched. |
| AuthStore.WithError | src/lib/stores/authStore.ts:222-228 | The error is set and loading ends. The session fields are untouched. |
| AuthStore.InitializeEffect | src/lib/stores/authStore.ts:80-109 | It always ends consistent, not loading, and without throwing. A confirmed stored session is restored with the returned user and token. A rejected one is cleared. No stored session means signed out. A check that throws clears the session. The service calls match each path. |
| AuthStore.InitializeErrorNotKept | src/lib/stores/authStore.ts:102-105 | When the session check throws, its message is announced and then wiped by `clearAuth` before `initialize` returns. |
| AuthStore.InitializeSettles | src/lib/stores/authStore.ts:80-109 | `initialize` ends either signed in with the confirmed user or fully signed out. |
| AuthStore.LoginEffect | src/lib/stores/authStore.ts:112-131 | It announces loading first and always ends not loading. Success signs in with the returned user and token. Any failure records its message, keeps the session and rethrows. Consistency is preserved. |
| AuthStore.LoginRejectionMessage | src/lib/stores/authStore.ts:118-127 | A response without `success` fails with its own message, or with "Login fallito" when that message is empty. |
| AuthStore.LogoutEffect | src/lib/stores/authStore.ts:133-148 | It ends fully signed out and not loading, with the session cleared, whatever the server did. |
| AuthStore.LogoutIgnoresServer | src/lib/stores/authStore.ts:133-148 | The final record does not depend on the prior record or on the server's answer. |
| AuthStore.AuthStoreManager.constructor | src/lib/stores/authStore.ts:18-24 | The store starts loading, signed out and consistent. |
| AuthStore.AuthStoreManager.SetAuthenticated | src/lib/stores/authStore.ts:202-210 | The record becomes `Authenticated(old, user, token)`, which is announced. |
| AuthStore.AuthStoreManager.SetUnauthenticated | src/lib/stores/authStore.ts:212-220 | The record becomes `Unauthenticated(old)`, which is announced. |
| AuthStore.AuthStoreManager.SetError | src/lib/stores/authStore.ts:222-228 | The record becomes `WithError(old, message)`, which is announced. |
| AuthStore.AuthStoreManager.ClearError | src/lib/stores/authStore.ts:197-199 | Only `error` is cleared, and consistency is kept. |
| AuthStore.AuthStoreManager.ClearAuth | src/lib/stores/authStore.ts:230-233 | The service session is cleared, then the record is signed out. |
| AuthStore.AuthStoreManager.SettleLoading | src/lib/stores/authStore.ts:106-109 | The `finally` step: only `isLoading` is cleared. |
| AuthStore.AuthStoreManager.Initialize | src/lib/stores/authStore.ts:80-109 | The record, service calls and announcements are those of `InitializeEffect`. |
| AuthStore.AuthStoreManager.Login | src/lib/stores/authStore.ts:112-131 | The record, calls, rethrown failure and announcements are those of `LoginEffect`. |
| AuthStore.AuthStoreManager.Logout | src/lib/stores/authStore.ts:133-148 | The record, calls and announcements are those of `LogoutEffect`. |

## Left out

- The `typeof window` and `browser` guards are not modelled: the model always runs in a browser. This includes `initialize`'s server-side branch (src/lib/stores/authStore.ts:74-78) and the module-level auto-initialisation.
- Console logging is left out, as is `goto` navigation after login and logout. A `goto` that rejects after a successful login would make `login` record that error and rethrow. The model assumes navigation succeeds.
- `verifyAuth`, `refreshUser`, `requireAuth`, `requirePermission`, `requireAdmin` and the default export of the auth store are not modelled.
- `AuthService` (src/lib/services/auth.ts) is an oracle whose answers are parameters:
  - `isAuthenticated()` may throw;
  - `verifyToken()` settles with a user or a failure;
  - `getToken()` returns a string, and a `null` token after a successful verification is not modelled;
  - `clearAuth()` is assumed not to throw.
- `fetchWithErrorHandling` and the HTTP exchange are not modelled. The API functions start from the decoded response body, and `success`/`statusCode` are not consulted, as in the source.
- `apiService.piante.getAll`/`getByCategory` are not defined in src/lib/services/api.ts. The model records the request they would get and takes their result as a parameter.
- Concurrency is not modelled: each operation runs to completion before the next starts. Interleaved `fetchPiante` calls racing on the record are therefore not modelled.
- Common.GetFromLocalStorage: the plant store's `getFromLocalStorage` reads the clock again (src/lib/stores/pianteStore.ts:80). The model uses the same `now` for both reads.
- PianteStore.Pianta: a plant's fields are declared outside the modelled files. The store only copies plant records, so they are kept abstract.
- Filter values are limited to the declared types plus `undefined`:
  - numbers are integers, so `NaN` and fractional pages are not modelled;
  - a property set to `null` is not modelled;
  - the model of `JSON.stringify` covers integer, boolean and string values only.
- Json.Number: every integer is written in plain decimal. `JSON.stringify` writes a number whose magnitude is 10^21 or more in exponent form (`1e+21`), and a JS number holds integers exactly only up to 2^53, so the model matches the source only for integers of magnitude below 2^53. Pages, limits and the other numeric filters stay far below that bound.
- CategorieApi.SortByOrdine: `ordine` is taken as an integer (src/lib/services/api.ts:58,71 declares it a `number`). A fractional `ordine` is not modelled, and neither is a missing one, which would make the comparator `a.ordine - b.ordine` return `NaN` and leave the order to the engine.
- PianteStore.QueryParamsOf: the query is a record with optional fields, so the insertion order of the keys of `queryParams` is not modelled.
- AuthStore.UserPermissions: a role string that names an `Object.prototype` member (such as `constructor`) would make `ROLE_PERMISSIONS[role]` truthy but not a list. The model treats every role other than ADMIN and USER as having no permissions.
- AuthStore.User: the `ultimoAccesso`, `dataCreazione` and `dataModifica` dates are not modelled.
- In the plant and category stores, `error` is kept as the `Error`'s message rather than as an `Error` object.
