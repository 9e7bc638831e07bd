# Planet residents aggregator — Dafny model

This project models the core of a small Go web service. The service answers
"for every planet that appears in more than N films, who lives there?". It
reads a public, paginated catalog of planets in two stages:

1. **Catalog pagination** (`getPlanetsList`). Start at the fixed root page
   `https://swapi.dev/api/planets/`. Fetch and decode each page, follow its
   `next` link, and append its planets. Stop when `next` is the empty string.
   Any failed page makes the whole call fail, with no planets. Here a
   "failed" page or lookup is one for which the oracle (below) returns `Err`.
2. **Filter and resolve** (`getResidentsOfPlanetsInFilms`). Walk the planets
   in order. Keep those with strictly more film references than `filmsCount`.
   For each kept planet, look up every resident reference in order and record
   the resident's name. Any failed lookup (an oracle `Err`) makes the whole
   call fail, with no entries, including entries already built.

The network is abstracted away. The two upstream requests are total function
parameters:

- `PageFetcher = Uri -> Result<PlanetsResponse, FetchError>`: one GET of a catalog
  page plus JSON decoding.
- `ResidentFetcher = Uri -> Result<Resident, FetchError>`: one GET of a resident
  resource plus JSON decoding.

Request construction, transport, body reading and decoding errors are all
represented by the `Err` results of these oracles, carrying a `FetchError`.
The catalog stage reports a `CatalogError`. That is either `Upstream` of an
oracle's `FetchError`, or `PageLimitExceeded`, which only the page budget
raises.

Files:

- `wrappers.dfy` (module `Wrappers`): the `Result` type and `Prepend`, which
  puts an accumulator in front of a successful result.
- `shapes.dfy` (module `Shapes`): `Planet`, `PlanetsResponse`, `Resident` and
  `PlanetWithResidents`, restricted to the fields the pipeline reads. Also the
  error types `FetchError` and `CatalogError`, the oracle types and the root
  URI.
- `catalog.dfy` (module `Catalog`): the pagination loop `GetPlanetsList`, its
  specification function `Paginate`, and an independent description of a
  page chain (`Walk`, `Flatten`) with lemmas that tie the two together.
- `residency.dfy` (module `Residency`): the two loops as `ResolveResidentNames`
  (the inner loop) and `GetResidentsOfPlanetsInFilms` (the outer loop). Their
  specification functions are `ResolveNames`, `Aggregate` and the lookup
  traces `ResolveTrace` / `Trace`. The reference definitions are `Qualifying`
  (the filter) and `Lookups` (the references the filter implies). Lemmas
  relate them.
- `scenario.dfy` (module `Scenario`): a two-page catalog worked through both
  stages.

Both loops are methods whose `ensures` equate their result with a
specification function. The aggregation methods also return a ghost
`issued` sequence. It records the resident references looked up, in order,
so that "which lookups are made" can be stated.

In the source, the inner loop is written inline in `getResidentsOfPlanetsInFilms`.
On the first failed lookup it returns the error from the whole function. The
model puts that inner loop in its own method, `ResolveResidentNames`. The outer
loop returns that method's error straight away, so the observable behaviour
is the same.

**Deliberate deviation.** The Go loop at `main.go:67` has no termination
guard. A cyclic or endless `next` chain loops forever. The model's
`GetPlanetsList` takes a `maxPages` budget. Once the budget is exhausted while
`next` is still non-empty, it fails closed with `PageLimitExceeded`. For any
chain that ends within the budget, the result is the one the Go code
computes (`PaginateComplete`, `PaginateSound`).

## Model

| member | source | states |
|---|---|---|
| `Catalog.GetPlanetsList` | main.go:63-93 | The loop from the root page returns exactly `Paginate(fetch, RootUri, maxPages)`: the accumulated planets once `next` is empty, the first page error, or `PageLimitExceeded` when the budget runs out. |
| `Catalog.PaginateComplete` | main.go:67-92 | If the `next` chain from a URI successfully yields pages p1..pk and then reaches "", and k is within the budget, pagination returns `Ok` of the concatenation of their `results`, in page order and within-page order. |
| `Catalog.PaginateSound` | main.go:67-92 | Converse: a successful pagination is the concatenation of a chain of successfully fetched pages that ends with an empty `next` and is no longer than the budget. |
| `Catalog.WalkToEndUnique` | main.go:67-91 | The chain pagination follows is unique: two page chains from the same URI that both end at "" are identical. That no request is made for an empty link comes from the definitions, not from this lemma: `Walk` requires every requested URI to be non-empty, and `Paginate` returns at once on "". |
| `Catalog.PaginateFailure` | main.go:68-88 | If the pages up to some non-empty URI were fetched and that URI's fetch returns `Err(e)`, pagination returns exactly `Err(Upstream(e))` and no planets. No partial accumulator is returned. |
| `Catalog.PaginateLimit` | main.go:67 | A chain still non-empty after `maxPages` pages (for example a cycle) yields `Err(PageLimitExceeded)`. This is the model's fail-closed guard. |
| `Catalog.PaginateLimitOnly` | main.go:67 | Converse: `Err(PageLimitExceeded)` arises only when `maxPages` pages were fetched successfully and the link after them is still non-empty. An upstream failure is never reported as budget exhaustion. |
| `Catalog.SinglePage` | main.go:65-92 | A root page with an empty `next` yields exactly that page's planets. |
| `Residency.ResolveResidentNames` | main.go:102-123 | The inner loop returns exactly `ResolveNames(fetch, residents)`. Its ghost `issued` is exactly `ResolveTrace(fetch, residents)`. |
| `Residency.GetResidentsOfPlanetsInFilms` | main.go:95-128 | The nested loops return exactly `Aggregate(fetch, filmsCount, planets)`. Their ghost `issued` is exactly `Trace(fetch, filmsCount, planets)`. |
| `Residency.QualifyingExactly` | main.go:98-99 | The filter keeps a planet iff it is in the input and has strictly more films than `filmsCount`. It never lengthens its input. |
| `Residency.LookupsExactly` | main.go:98-102 | A reference is among the lookups to make iff it is a resident of some qualifying planet. Non-qualifying planets contribute none. |
| `Residency.ResolveNamesOk` | main.go:102-122 | A successful resolution has one name per reference. Name j is the name fetched for reference j, so order and duplicates are preserved. |
| `Residency.ResolveNamesSucceedsIff` | main.go:102-122 | Resolving a planet's residents succeeds iff every single lookup succeeds. |
| `Residency.ResolveTraceSpec` | main.go:102-121 | The inner loop looks up a prefix of the references in order: all of them on success. On failure it stops at the first failed one, and that one's error is the result. |
| `Residency.AggregateOk` | main.go:98-124 | On success, entry i belongs to the i-th qualifying planet, in input order. It carries that planet's `Name` and as many names as the planet has `Residents`, name j being the one fetched for `Residents[j]`. |
| `Residency.AggregateSucceedsIff` | main.go:98-127 | Aggregation succeeds iff every lookup of every qualifying planet succeeds. One failed lookup anywhere makes the whole result an error. |
| `Residency.TraceIsPrefix` | main.go:98-121 | Lookups are issued in the order of `Lookups` and only for qualifying planets. They form a prefix of the qualifying planets' concatenated `Residents`, and all of it on success. |
| `Residency.TraceStopsAtFailure` | main.go:103-121 | On failure, the last lookup issued failed with exactly the aggregation's error and every earlier lookup succeeded. Nothing is looked up after the first failure. |
| `Residency.AggregateLength` | main.go:98-124 | The output never has more entries than there are input planets. |
| `Residency.ZeroResidents` | main.go:99-124 | A qualifying planet with no resident references still gets an entry, with its name and an empty name list. |
| `Scenario.TwoPageCatalog` | main.go:63-128 | A catalog of two pages [A(3 films, residents r1 r2)] and [B(1 film, no residents)] paginates to [A, B], and fails with a budget of one page. With threshold 2 it aggregates to [{A, [name(r1), name(r2)]}], looking up only r1 and r2. |

## Left out

- HTTP transport (`http.NewRequest`, `client.Do`, `io.ReadAll`) and JSON decoding (`json.Unmarshal`): library calls, modelled only as the oracle results. The distinct Go error values are whatever `Err` the oracle returns.
- `defer resp.Body.Close()` inside the loops: resource release is not modelled. In the Go code, bodies stay open until the function returns.
- `residentsInFilmsHandler` (parameter parsing with `strconv.Atoi`, `http.Error` status mapping, `json.Marshal`, and its habit of continuing after an error): HTTP glue around the core, not modelled.
- `main` and server startup: I/O.
- Every planet and resident field other than `Name`, `Residents`, `Films` and `Next`/`Results`, including the `time.Time` fields: inert passthrough. `Films` is kept as a sequence but only its length is used.
- Go's nil-slice versus empty-slice distinction (a planet with no residents serialises its names as `null`): a serialisation artefact. The model uses the empty sequence.
- Non-2xx responses: in Go, `client.Do` returns no error for a non-2xx status (main.go:73-76), so the error body is still decoded. A body such as `{"detail":"Not found"}` decodes to a page with empty `Next` and no `Results`, so `getPlanetsList` returns the planets gathered so far with a nil error. A resident decodes to an empty `Name`. The model can express such a response only as an oracle `Ok` result. Its all-or-nothing lemmas (`PaginateFailure`, `AggregateSucceedsIff`) therefore hold only for failures the oracle reports as `Err`; they do not rule out a silent partial list.
- JSON `null` bodies: `json.Unmarshal` of `null` leaves `planet` or `resident` nil with no error, and `planet.Next` (main.go:89) or `resident.Name` (main.go:122) then dereferences nil and panics. Neither `Ok` nor `Err` represents a panic, so this path is not modelled.
- Repeated requests: the oracles are fixed functions, so two requests for the same URI always get the same answer. This covers a resident shared by several planets, a repeated reference, or a page revisited in a cycle. The Go code repeats the request and the upstream may answer differently. The model does not capture answers that change between requests.
- Catalog.GetPlanetsList: adds a `maxPages` budget that the Go loop lacks. For chains longer than the budget it fails with `PageLimitExceeded` where the Go code would keep fetching, possibly forever.
- Catalog.GetPlanetsList: the root URI is the fixed constant `RootUri`. The URIs requested after it are modelled only through `Walk`, not as a separate trace.
- Go's `int` is 64-bit. `filmsCount` is an unbounded `int` here because `len(planet.Films) > filmsCount` cannot overflow.
