/** Whole-client scenarios. DisplayingBuildingList, FilteringBuildings and
    AllBuildingsRepositoryContract are the playground's three checks, each with the
    comparison it prints as its postcondition; DefaultClientStartsEmpty and
    DisplayingBuildingListTwice state the default construction and the
    idempotence of showing the home screen on a real client. */
module Scenarios {
  import opened Buildings
  import opened Servers
  import opened Clients

  /** A client built without a view state starts with nothing shown, and its
      server is the one it was given. */
  method DefaultClientStartsEmpty(server: Server) returns (shown: seq<Building>, held: Server)
    ensures shown == []
    ensures held == server
  {
    var client := new Client(server);
    shown := client.viewState.buildings;
    held := client.server;
  }

  /** When the app starts, the stub repository's two buildings are shown. */
  method DisplayingBuildingList() returns (names: seq<string>)
    ensures names == ["Empire State Building", "Test Building"]
  {
    var server := Server(StubBuildingRepository);
    var client := new Client(server);
    client.ShowHomeScreen();
    names := Names(client.viewState.buildings);
  }

  /** Showing the home screen a second time changes nothing. */
  method DisplayingBuildingListTwice(repository: BuildingRepository) returns (once: ViewState, twice: ViewState)
    ensures once == twice
    ensures once.buildings == repository.Buildings()
  {
    var client := new Client(Server(repository));
    client.ShowHomeScreen();
    once := client.viewState;
    client.ShowHomeScreen();
    twice := client.viewState;
  }

  /** Filtering from a two-building state shows exactly "Within filter". */
  method FilteringBuildings() returns (names: seq<string>)
    ensures names == ["Within filter"]
  {
    var server := Server(StubBuildingRepository);
    var client := new Client(server);
    client.viewState := ViewState([Building("Out of filter"), Building("Within filter")]);
    client.FilterBuildings("Within filter");
    names := Names(client.viewState.buildings);
  }

  /** The database repository delivers exactly one building. */
  method AllBuildingsRepositoryContract() returns (passed: bool)
    ensures passed
  {
    var buildings := DatabaseBuildingRepository.Buildings();
    passed := |buildings| == 1;
  }
}
