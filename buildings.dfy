/** Buildings: the domain record, its name-only serialization and the two
    fixed-data repositories of the playground.

    The repository protocol of the playground hands its result to a completion
    callback that is invoked synchronously, exactly once; here that result is the
    return value of `Buildings()`. */
module Buildings {

  /** A building record; its only attribute is a display name. */
  datatype Building = Building(name: string)

  /** The names of a list of buildings, in order (the `map { $0.name }` the
      playground's checks compare). */
  function Names(bs: seq<Building>): (ns: seq<string>)
    ensures |ns| == |bs|
    ensures forall i :: 0 <= i < |bs| ==> ns[i] == bs[i].name
  {
    if bs == [] then [] else [bs[0].name] + Names(bs[1..])
  }

  /** Since a building is nothing but its name, comparing the names of two lists
      is the same as comparing the lists. */
  lemma NamesDetermineBuildings(a: seq<Building>, b: seq<Building>)
    ensures Names(a) == Names(b) <==> a == b
  {
  }

  /** The serialized shape of a building: a dictionary whose only key is
      "name". The source's `[String: Any]` only ever holds a string here. */
  type SerializedBuilding = map<string, string>

  function SerializeBuilding(building: Building): (m: SerializedBuilding)
    ensures m.Keys == {"name"}
    ensures m["name"] == building.name
  {
    map["name" := building.name]
  }

  /** Serialization loses nothing: distinct buildings serialize differently. */
  lemma SerializeBuildingInjective(a: Building, b: Building)
    ensures SerializeBuilding(a) == SerializeBuilding(b) <==> a == b
  {
  }

  /** The two implementations of the repository protocol. Neither holds any state;
      each hands back a fixed list. */
  datatype BuildingRepository = StubBuildingRepository | DatabaseBuildingRepository
  {
    /** The list the repository delivers to its completion callback. */
    function Buildings(): (bs: seq<Building>)
      ensures StubBuildingRepository? ==>
                Names(bs) == ["Empire State Building", "Test Building"]
      ensures DatabaseBuildingRepository? ==> Names(bs) == ["Test Building"]
    {
      match this
      case StubBuildingRepository =>
        [Building("Empire State Building"), Building("Test Building")]
      case DatabaseBuildingRepository =>
        [Building("Test Building")]
    }
  }

  /** The integration contract the playground checks of the database
      repository: it delivers exactly one building. */
  lemma DatabaseRepositoryContract()
    ensures |DatabaseBuildingRepository.Buildings()| == 1
  {
  }
}
