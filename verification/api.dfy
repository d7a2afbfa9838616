/** The category service: the DTOs the backend sends, the mapping to the
    application's `Categoria`, and the post-processing of `getAll`
    (keep the active ones, map, sort by `ordine`). The HTTP exchange itself is
    an input: these functions start from the decoded response body. */
module CategorieApi {
  import opened Common

  /** `ApiResponse<T>`: the envelope every endpoint answers with. */
  datatype ApiResponse<T> = ApiResponse(
    success: bool,
    statusCode: int,
    message: string,
    data: T,
    error: Option<string>,
    timestamp: string,
    path: string)

  datatype PageMeta = PageMeta(total: int, page: int, limit: int, totalPages: int)

  /** `PaginatedResponse<T>`. */
  datatype PaginatedResponse<T> = PaginatedResponse(data: seq<T>, meta: PageMeta)

  /** `CategoriaDTO`; `id` is the backend's `_id` and `version` its `__v`. */
  datatype CategoriaDto = CategoriaDto(
    id: string,
    nome: string,
    slug: string,
    descrizione: string,
    ordine: int,
    attiva: bool,
    createdAt: string,
    updatedAt: string,
    version: int)

  /** `Categoria`, as the application uses it; `descrizione` is optional. */
  datatype Categoria = Categoria(
    id: string,
    nome: string,
    slug: string,
    descrizione: Option<string>,
    ordine: int,
    attiva: bool)

  /** `mapCategoria`: the six application fields are copied, the backend's
      bookkeeping (`createdAt`, `updatedAt`, `__v`) is dropped. */
  function MapCategoria(dto: CategoriaDto): (c: Categoria)
    ensures c.id == dto.id && c.nome == dto.nome && c.slug == dto.slug
    ensures c.descrizione == Some(dto.descrizione)
    ensures c.ordine == dto.ordine && c.attiva == dto.attiva
  {
    Categoria(dto.id, dto.nome, dto.slug, Some(dto.descrizione), dto.ordine, dto.attiva)
  }

  /** Two DTOs map to the same category exactly when they agree on the six
      copied fields: the mapping loses the timestamps and the version and
      nothing else. */
  lemma MapCategoriaForgetsOnlyBookkeeping(d1: CategoriaDto, d2: CategoriaDto)
    ensures MapCategoria(d1) == MapCategoria(d2) <==>
              d1.(createdAt := d2.createdAt, updatedAt := d2.updatedAt, version := d2.version) == d2
  {
  }

  /** `.filter(cat => cat.attiva)`. */
  function ActiveOnly(dtos: seq<CategoriaDto>): (r: seq<CategoriaDto>)
    ensures forall d :: d in r <==> d in dtos && d.attiva
  {
    if dtos == [] then []
    else
      assert forall d :: d in dtos <==> d == dtos[0] || d in dtos[1..];
      (if dtos[0].attiva then [dtos[0]] else []) + ActiveOnly(dtos[1..])
  }

  /** The filter keeps every active DTO as many times as it occurs, and
      no inactive one. */
  lemma {:induction false} ActiveOnlyCounts(dtos: seq<CategoriaDto>)
    ensures forall d :: multiset(ActiveOnly(dtos))[d] == if d.attiva then multiset(dtos)[d] else 0
  {
    if dtos != [] {
      ActiveOnlyCounts(dtos[1..]);
      assert dtos == [dtos[0]] + dtos[1..];
      var head := if dtos[0].attiva then [dtos[0]] else [];
      assert ActiveOnly(dtos) == head + ActiveOnly(dtos[1..]);
    }
  }

  /** The filter works element by element: filtering a concatenation
      concatenates the filtered parts, so the kept DTOs stay in input order. */
  lemma {:induction false} ActiveOnlyAppend(a: seq<CategoriaDto>, b: seq<CategoriaDto>)
    ensures ActiveOnly(a + b) == ActiveOnly(a) + ActiveOnly(b)
  {
    if a == [] {
      assert a + b == b;
    } else {
      var head := if a[0].attiva then [a[0]] else [];
      var x, y := ActiveOnly(a[1..]), ActiveOnly(b);
      ActiveOnlyAppend(a[1..], b);
      ActiveOnlyCons(a[0], a[1..] + b);
      ActiveOnlyCons(a[0], a[1..]);
      ConsAppend(a, b);
      Associative(head, x, y);
    }
  }

  lemma ConsAppend<T>(a: seq<T>, b: seq<T>)
    requires a != []
    ensures a + b == [a[0]] + (a[1..] + b) && a == [a[0]] + a[1..]
  {
  }

  lemma Associative<T>(x: seq<T>, y: seq<T>, z: seq<T>)
    ensures x + (y + z) == (x + y) + z
  {
  }

  lemma ActiveOnlyCons(d: CategoriaDto, rest: seq<CategoriaDto>)
    ensures ActiveOnly([d] + rest) == (if d.attiva then [d] else []) + ActiveOnly(rest)
  {
    assert ([d] + rest)[0] == d && ([d] + rest)[1..] == rest;
  }

  /** `.map(mapCategoria)`. */
  function MapAll(dtos: seq<CategoriaDto>): (r: seq<Categoria>)
    ensures |r| == |dtos|
    ensures forall i :: 0 <= i < |r| ==> r[i] == MapCategoria(dtos[i])
  {
    if dtos == [] then [] else [MapCategoria(dtos[0])] + MapAll(dtos[1..])
  }

  /** Ascending by `ordine`. */
  predicate Sorted(s: seq<Categoria>)
  {
    forall i, j :: 0 <= i < j < |s| ==> s[i].ordine <= s[j].ordine
  }

  /** The categories with the given `ordine`, in their order in `s`. */
  function WithOrdine(s: seq<Categoria>, o: int): seq<Categoria>
  {
    if s == [] then []
    else (if s[0].ordine == o then [s[0]] else []) + WithOrdine(s[1..], o)
  }

  /** One step of a stable insertion sort: `c` goes in front of the first
      element whose `ordine` is not smaller, so ahead of every element of
      equal `ordine` (which came after it in the input). */
  function Insert(c: Categoria, s: seq<Categoria>): (r: seq<Categoria>)
    requires Sorted(s)
    ensures Sorted(r)
    ensures forall x :: x in r <==> x == c || x in s
  {
    if s == [] || c.ordine <= s[0].ordine then [c] + s
    else
      var rest := Insert(c, s[1..]);
      var r := [s[0]] + rest;
      assert forall x :: x in s <==> x == s[0] || x in s[1..];
      assert forall i :: 0 < i < |r| ==> r[i] == rest[i - 1];
      assert forall i :: 0 < i < |r| ==> s[0].ordine <= r[i].ordine by {
        forall i | 0 < i < |r|
          ensures s[0].ordine <= r[i].ordine
        {
          assert rest[i - 1] in rest;
        }
      }
      r
  }

  lemma {:induction false} InsertPermutes(c: Categoria, s: seq<Categoria>)
    requires Sorted(s)
    ensures multiset(Insert(c, s)) == multiset(s) + multiset{c}
  {
    if s != [] && c.ordine > s[0].ordine {
      InsertPermutes(c, s[1..]);
      assert s == [s[0]] + s[1..];
    }
  }

  /** Inserting `c` adds it in front of the categories of its `ordine` and
      leaves every other `ordine` as it was. */
  lemma {:induction false} InsertStable(c: Categoria, s: seq<Categoria>, o: int)
    requires Sorted(s)
    ensures WithOrdine(Insert(c, s), o) == (if c.ordine == o then [c] else []) + WithOrdine(s, o)
  {
    if s == [] || c.ordine <= s[0].ordine {
      var r := [c] + s;
      assert r[0] == c && r[1..] == s;
      assert WithOrdine(r, o) == (if c.ordine == o then [c] else []) + WithOrdine(s, o);
    } else {
      var rest := Insert(c, s[1..]);
      var r := [s[0]] + rest;
      var head := if s[0].ordine == o then [s[0]] else [];
      InsertStable(c, s[1..], o);
      assert r[0] == s[0] && r[1..] == rest;
      assert WithOrdine(r, o) == head + WithOrdine(rest, o);
      assert WithOrdine(s, o) == head + WithOrdine(s[1..], o);
      if c.ordine == o {
        assert head == [];
      }
    }
  }

  /** `.sort((a, b) => a.ordine - b.ordine)`: `Array.prototype.sort` is
      stable, so categories of equal `ordine` keep their relative order. */
  function SortByOrdine(s: seq<Categoria>): (r: seq<Categoria>)
    ensures Sorted(r)
  {
    if s == [] then [] else Insert(s[0], SortByOrdine(s[1..]))
  }

  /** The sort is a permutation that keeps, for every `ordine`, the
      categories carrying it in their input order. */
  lemma {:induction false} SortByOrdineStablePermutation(s: seq<Categoria>)
    ensures multiset(SortByOrdine(s)) == multiset(s)
    ensures forall o :: WithOrdine(SortByOrdine(s), o) == WithOrdine(s, o)
  {
    if s != [] {
      SortByOrdineStablePermutation(s[1..]);
      InsertPermutes(s[0], SortByOrdine(s[1..]));
      assert s == [s[0]] + s[1..];
      forall o
        ensures WithOrdine(SortByOrdine(s), o) == WithOrdine(s, o)
      {
        InsertStable(s[0], SortByOrdine(s[1..]), o);
      }
    }
  }

  /** `categorieAPI.getAll`, from the decoded response body on. The
      `success` and `statusCode` fields are not consulted. */
  function GetAll(response: ApiResponse<PaginatedResponse<CategoriaDto>>): (r: seq<Categoria>)
    ensures Sorted(r)
    ensures multiset(r) == multiset(MapAll(ActiveOnly(response.data.data)))
    ensures forall o :: WithOrdine(r, o) == WithOrdine(MapAll(ActiveOnly(response.data.data)), o)
  {
    SortByOrdineStablePermutation(MapAll(ActiveOnly(response.data.data)));
    SortByOrdine(MapAll(ActiveOnly(response.data.data)))
  }

  /** A category is in the mapped list exactly when some DTO maps to it. */
  lemma {:induction false} MapAllMember(dtos: seq<CategoriaDto>, c: Categoria)
    ensures c in MapAll(dtos) <==> exists d :: d in dtos && c == MapCategoria(d)
  {
    var mapped := MapAll(dtos);
    if c in mapped {
      var i :| 0 <= i < |mapped| && mapped[i] == c;
      assert dtos[i] in dtos;
    }
    if exists d :: d in dtos && c == MapCategoria(d) {
      var d :| d in dtos && c == MapCategoria(d);
      var i :| 0 <= i < |dtos| && dtos[i] == d;
      assert mapped[i] == c;
    }
  }

  /** What `getAll` lists is exactly the mapping of the active DTOs: every
      listed category is active, and every active DTO is listed. */
  lemma {:induction false} GetAllListsActive(response: ApiResponse<PaginatedResponse<CategoriaDto>>, c: Categoria)
    ensures c in GetAll(response) <==> exists d :: d in response.data.data && d.attiva && c == MapCategoria(d)
  {
    var active := ActiveOnly(response.data.data);
    var mapped := MapAll(active);
    assert c in GetAll(response) <==> c in mapped by {
      assert c in multiset(GetAll(response)) <==> c in multiset(mapped);
    }
    MapAllMember(active, c);
  }

  /** Every category `getAll` lists is active. */
  lemma {:induction false} GetAllOnlyActive(response: ApiResponse<PaginatedResponse<CategoriaDto>>)
    ensures forall c :: c in GetAll(response) ==> c.attiva
  {
    forall c | c in GetAll(response)
      ensures c.attiva
    {
      GetAllListsActive(response, c);
    }
  }

  /** `getAll` lists one category per active DTO: nothing at all exactly
      when no DTO is active. */
  lemma {:induction false} GetAllCountsActive(response: ApiResponse<PaginatedResponse<CategoriaDto>>)
    ensures |GetAll(response)| == |ActiveOnly(response.data.data)|
    ensures GetAll(response) == [] <==> forall d :: d in response.data.data ==> !d.attiva
  {
    var active := ActiveOnly(response.data.data);
    assert |GetAll(response)| == |multiset(GetAll(response))| == |multiset(MapAll(active))| == |MapAll(active)|;
    if active != [] {
      assert active[0] in active;
    }
  }

  /** `categorieAPI.getById`, from the decoded response body on. */
  function GetById(response: ApiResponse<CategoriaDto>): (c: Categoria)
    ensures c == MapCategoria(response.data)
    ensures c.id == response.data.id && c.attiva == response.data.attiva
  {
    MapCategoria(response.data)
  }

  /** The two endpoints agree on an active category: what `getById` returns
      for it is listed by `getAll`. An inactive one is returned by `getById`
      all the same, and `getAll` never lists it. */
  lemma {:induction false} GetByIdAgreesWithGetAll(single: ApiResponse<CategoriaDto>, list: ApiResponse<PaginatedResponse<CategoriaDto>>)
    requires single.data in list.data.data
    ensures single.data.attiva ==> GetById(single) in GetAll(list)
    ensures !single.data.attiva ==> !GetById(single).attiva && GetById(single) !in GetAll(list)
  {
    GetAllListsActive(list, GetById(single));
  }
}
