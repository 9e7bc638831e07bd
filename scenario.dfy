/**
 * A worked scenario through both stages: a two-page catalog and a threshold
 * of two films.
 */
module Scenario {
  import opened Wrappers
  import opened Shapes
  import opened Catalog
  import opened Residency

  const Page2Uri: Uri := "https://swapi.dev/api/planets/?page=2"
  const PlanetA := Planet("A", ["r1", "r2"], ["f1", "f2", "f3"])
  const PlanetB := Planet("B", [], ["f1"])

  function Pages(uri: Uri): Result<PlanetsResponse, FetchError>
  {
    if uri == RootUri then Ok(PlanetsResponse(Page2Uri, [PlanetA]))
    else if uri == Page2Uri then Ok(PlanetsResponse("", [PlanetB]))
    else Err(RequestFailed(uri))
  }

  function People(uri: Uri): Result<Resident, FetchError>
  {
    if uri == "r1" then Ok(Resident("Luke"))
    else if uri == "r2" then Ok(Resident("Leia"))
    else Err(DecodeFailed(uri))
  }

  /**
   * Both pages are concatenated in order; with threshold 2 only A (three
   * films) is kept, with its residents' names in reference order; B (one
   * film) is dropped and its lookups are never issued.
   */
  lemma TwoPageCatalog()
    ensures Paginate(Pages, RootUri, 2) == Ok([PlanetA, PlanetB])
    ensures Paginate(Pages, RootUri, 1) == Err(PageLimitExceeded)
    ensures Aggregate(People, 2, [PlanetA, PlanetB]) == Ok([PlanetWithResidents("A", ["Luke", "Leia"])])
    ensures Trace(People, 2, [PlanetA, PlanetB]) == ["r1", "r2"]
  {
    var page1 := PlanetsResponse(Page2Uri, [PlanetA]);
    var page2 := PlanetsResponse("", [PlanetB]);
    assert Page2Uri != RootUri && Pages(RootUri) == Ok(page1) && Pages(Page2Uri) == Ok(page2);
    assert [page1, page2][1..] == [page2] && [page2][1..] == [];
    assert Walk(Pages, RootUri, [page1, page2], "");
    PaginateComplete(Pages, RootUri, [page1, page2], 2);
    assert Flatten([page1, page2]) == [PlanetA] + ([PlanetB] + []) == [PlanetA, PlanetB];
    assert Walk(Pages, RootUri, [page1], Page2Uri);
    PaginateLimit(Pages, RootUri, [page1], Page2Uri, 1);

    assert [PlanetA, PlanetB][1..] == [PlanetB] && [PlanetB][1..] == [];
    assert ["r1", "r2"][1..] == ["r2"] && ["r2"][1..] == [];
    assert People("r1") == Ok(Resident("Luke")) && People("r2") == Ok(Resident("Leia"));
    assert ["Leia"] + [] == ["Leia"] && ["Luke"] + ["Leia"] == ["Luke", "Leia"];
    assert ResolveNames(People, ["r2"]) == Ok(["Leia"]);
    assert ResolveNames(People, ["r1", "r2"]) == Ok(["Luke", "Leia"]);
    assert ResolveTrace(People, ["r1", "r2"]) == ["r1", "r2"];
    assert Aggregate(People, 2, [PlanetB]) == Ok([]);
    assert [PlanetWithResidents("A", ["Luke", "Leia"])] + [] == [PlanetWithResidents("A", ["Luke", "Leia"])];
    assert Trace(People, 2, [PlanetB]) == [];
  }
}
