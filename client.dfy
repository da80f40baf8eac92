/** Client: owns the view state and replaces it with whatever the server
    delivers. */
module Clients {
  import opened Buildings
  import opened Servers

  /** What the screen shows: an ordered list of buildings, empty by default. */
  datatype ViewState = ViewState(buildings: seq<Building> := [])

  /** The view state after `showHomeScreen`: the list is replaced wholesale by
      the server's fetch result. */
  function AfterShowHomeScreen(server: Server, vs: ViewState): (r: ViewState)
    ensures r.buildings == server.buildingRepository.Buildings()
  {
    vs.(buildings := server.FetchBuildings())
  }

  /** The view state after `filterBuildings(byName:)`: the list is replaced
      wholesale by the server's filter result; `name` is not used. */
  function AfterFilterBuildings(server: Server, vs: ViewState, name: string): (r: ViewState)
    ensures Names(r.buildings) == ["Within filter"]
  {
    vs.(buildings := server.FilterBuildings())
  }

  /** Showing the home screen shows exactly the repository's list, whatever was
      shown before. */
  lemma ShowHomeScreenShowsRepository(server: Server, vs: ViewState)
    ensures AfterShowHomeScreen(server, vs).buildings == server.buildingRepository.Buildings()
    ensures server.buildingRepository.StubBuildingRepository? ==>
              Names(AfterShowHomeScreen(server, vs).buildings) == ["Empire State Building", "Test Building"]
  {
  }

  /** Showing the home screen twice leaves the same view state as once. */
  lemma ShowHomeScreenIdempotent(server: Server, vs: ViewState)
    ensures AfterShowHomeScreen(server, AfterShowHomeScreen(server, vs)) == AfterShowHomeScreen(server, vs)
  {
  }

  /** Filtering ignores both the prior view state and the name asked for: the
      result always holds the single building "Within filter". */
  lemma FilterIgnoresStateAndName(server: Server, vs: ViewState, ws: ViewState, name: string, other: string)
    ensures AfterFilterBuildings(server, vs, name) == AfterFilterBuildings(server, ws, other)
    ensures Names(AfterFilterBuildings(server, vs, name).buildings) == ["Within filter"]
  {
  }

  class Client {
    const server: Server
    var viewState: ViewState

    constructor (server: Server, viewState: ViewState := ViewState())
      ensures this.server == server && this.viewState == viewState
    {
      this.server := server;
      this.viewState := viewState;
    }

    method ShowHomeScreen()
      modifies this
      ensures viewState == AfterShowHomeScreen(server, old(viewState))
      ensures viewState.buildings == server.buildingRepository.Buildings()
    {
      var buildings := server.FetchBuildings();
      viewState := viewState.(buildings := buildings);
    }

    method FilterBuildings(name: string)
      modifies this
      ensures viewState == AfterFilterBuildings(server, old(viewState), name)
      ensures Names(viewState.buildings) == ["Within filter"]
    {
      var buildings := server.FilterBuildings();
      viewState := viewState.(buildings := buildings);
    }
  }
}
