/**
 * The records exchanged with the upstream planet catalog, restricted to the
 * fields the pipeline reads, and the two upstream requests as oracles.
 */
module Shapes {
  import opened Wrappers

  /** An opaque resource reference. */
  type Uri = string

  /** A planet record: its name, its resident references and its film references. */
  datatype Planet = Planet(name: string, residents: seq<Uri>, films: seq<Uri>)

  /** One catalog page: the link to the next page and its planets. An empty `next` marks the last page. */
  datatype PlanetsResponse = PlanetsResponse(next: Uri, results: seq<Planet>)

  /** A resident record; only its name is used. */
  datatype Resident = Resident(name: string)

  /** One output entry: a planet's name and the names of its residents, in reference order. */
  datatype PlanetWithResidents = PlanetWithResidents(planetName: string, residentsNames: seq<string>)

  /**
   * Why one upstream request failed: request construction, transport and
   * body reading (RequestFailed), or decoding (DecodeFailed).
   */
  datatype FetchError =
    | RequestFailed(uri: Uri)
    | DecodeFailed(uri: Uri)

  /**
   * Why the catalog fetch failed: an upstream request failed, or the page
   * budget of this model ran out. Only the pagination loop raises
   * PageLimitExceeded; the oracles cannot.
   */
  datatype CatalogError =
    | Upstream(cause: FetchError)
    | PageLimitExceeded

  /** GET one catalog page and decode it. */
  type PageFetcher = Uri -> Result<PlanetsResponse, FetchError>

  /** GET one resident resource and decode it. */
  type ResidentFetcher = Uri -> Result<Resident, FetchError>

  /** The first catalog page. */
  const RootUri: Uri := "https://swapi.dev/api/planets/"
}
