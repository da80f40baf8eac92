/** Server: a facade over one building repository. */
module Servers {
  import opened Buildings

  /** A value holding the repository it forwards to (a `let` in the source). */
  datatype Server = Server(buildingRepository: BuildingRepository)
  {
    /** Delivers the repository's list. The serializer parameter is accepted,
        with `SerializeBuilding` as its default, and is never applied. */
    function FetchBuildings(buildingSerializer: Building -> SerializedBuilding := SerializeBuilding):
      (bs: seq<Building>)
      ensures Names(bs) == Names(buildingRepository.Buildings())
      ensures buildingRepository.StubBuildingRepository? ==>
                Names(bs) == ["Empire State Building", "Test Building"]
      ensures buildingRepository.DatabaseBuildingRepository? ==> |bs| == 1
    {
      buildingRepository.Buildings()
    }

    /** A placeholder filter: always the one fixed building, whatever the
        repository holds. */
    function FilterBuildings(): (bs: seq<Building>)
      ensures Names(bs) == ["Within filter"]
    {
      [Building("Within filter")]
    }
  }

  /** Fetching forwards the repository's list unchanged (same elements, same
      order) and no choice of serializer has any effect on it. */
  lemma FetchForwardsRepository(s: Server, f: Building -> SerializedBuilding, g: Building -> SerializedBuilding)
    ensures s.FetchBuildings(f) == s.FetchBuildings(g) == s.FetchBuildings()
    ensures s.FetchBuildings(f) == s.buildingRepository.Buildings()
  {
  }

  /** Filtering delivers exactly one building named "Within filter", and the
      same list for every repository. */
  lemma FilterIsFixed(s: Server, t: Server)
    ensures s.FilterBuildings() == t.FilterBuildings()
    ensures Names(s.FilterBuildings()) == ["Within filter"]
  {
  }
}
