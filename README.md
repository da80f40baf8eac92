# ClientServerDyad in Dafny

A verified model of a toy client/server/repository pipeline written as a Swift
playground. A `Client` holds a mutable view state (an ordered list of
buildings). Its two operations ask a `Server` for a list and replace the view
state's list wholesale with the answer. The server either forwards what its
`BuildingRepository` delivers (`fetchBuildings`) or returns a fixed one-element
placeholder (`filterBuildings`). Two repositories with fixed data exist: a stub
with two buildings and a "database" stand-in with one. A building serializes to
a one-key dictionary.

Every completion callback in the source is invoked synchronously and exactly
once, so each `onComplete` is modelled as a plain return value.

Files:

- `buildings.dfy` (module `Buildings`): `Building`, `Names`, `SerializeBuilding`,
  and `BuildingRepository`. The Swift protocol is a datatype with one constructor
  per implementation, because the two implementations are stateless.
- `server.dfy` (module `Servers`): `Server` as a value holding its repository.
  `FetchBuildings` keeps the unused serializer parameter and its default.
- `client.dfy` (module `Clients`): `ViewState`, whose list is empty by default.
  Also the class `Client`, with a `const server` (a `let` in Swift) and a mutable
  `viewState`. `AfterShowHomeScreen` and `AfterFilterBuildings` are the state
  functions that specify the two methods.
- `scenarios.dfy` (module `Scenarios`): five methods that drive a real client.
  `DisplayingBuildingList`, `FilteringBuildings` and
  `AllBuildingsRepositoryContract` are the playground's three checks; each
  one's postcondition is the comparison that check prints.
  `DefaultClientStartsEmpty` and `DisplayingBuildingListTwice` state the
  default construction and the idempotence of showing the home screen.

`Client.FilterBuildings` ignores its `name` argument and the prior state, as the
source does. The playground's filtering check holds only because the server's
answer is hardcoded.

## Model

| member | source | states |
|---|---|---|
| Buildings.Names | Contents.swift:83 | the names list has the same length as the building list, and its i-th entry is the i-th building's name |
| Buildings.NamesDetermineBuildings | Contents.swift:5-9 | two of the model's building lists have equal names lists exactly when the lists are equal, since a building is only its name |
| Buildings.SerializeBuilding | Contents.swift:15-19 | the serialized dictionary's only key is "name", and it is bound to the building's name |
| Buildings.SerializeBuildingInjective | Contents.swift:15-19 | two buildings serialize to the same dictionary exactly when they are equal |
| Buildings.BuildingRepository.Buildings | Contents.swift:66-74 | the stub delivers buildings named "Empire State Building" then "Test Building"; the database stand-in delivers one named "Test Building" |
| Buildings.DatabaseRepositoryContract | Contents.swift:106-112 | the database repository delivers exactly one building |
| Servers.Server.FetchBuildings | Contents.swift:24-28 | the result has the repository's names in the repository's order; with the stub, the two fixture names; with the database stand-in, one building |
| Servers.Server.FilterBuildings | Contents.swift:30-35 | the result's names are exactly "Within filter" |
| Servers.FetchForwardsRepository | Contents.swift:24-28 | fetching delivers exactly the repository's list, and the result is the same for every serializer passed, including the default |
| Servers.FilterIsFixed | Contents.swift:30-35 | filtering delivers exactly one building named "Within filter", for every repository |
| Clients.AfterShowHomeScreen | Contents.swift:52-54 | the new view state's list is exactly the repository's list, whatever the old state held |
| Clients.AfterFilterBuildings | Contents.swift:58-60 | the new view state's names are exactly "Within filter", whatever the old state or the name |
| Clients.ShowHomeScreenShowsRepository | Contents.swift:51-55 | after showing the home screen the view state holds exactly the repository's list; with the stub, the names are the two fixture names in order |
| Clients.ShowHomeScreenIdempotent | Contents.swift:51-55 | showing the home screen twice gives the same view state as showing it once |
| Clients.FilterIgnoresStateAndName | Contents.swift:57-61 | filtering gives the same view state for every prior state and every name, and its names are exactly "Within filter" |
| Clients.Client.constructor | Contents.swift:46-49 | the client holds the given server and the given view state |
| Clients.Client.ShowHomeScreen | Contents.swift:51-55 | the new view state is the old one with its list replaced by the server's fetch result, which is the repository's list |
| Clients.Client.FilterBuildings | Contents.swift:57-61 | the new view state is the old one with its list replaced by the server's filter result; the names are exactly "Within filter" |
| Scenarios.DefaultClientStartsEmpty | Contents.swift:38-49 | a client built with the default view state starts with an empty list and holds the server it was given |
| Scenarios.DisplayingBuildingList | Contents.swift:76-84 | after the home screen is shown with the stub repository, the names are exactly "Empire State Building", "Test Building" in that order |
| Scenarios.DisplayingBuildingListTwice | Contents.swift:51-55 | showing the home screen twice on one client leaves the same view state as after the first call, which holds the repository's list |
| Scenarios.FilteringBuildings | Contents.swift:88-102 | from the state "Out of filter", "Within filter", filtering by "Within filter" leaves exactly the names "Within filter" |
| Scenarios.AllBuildingsRepositoryContract | Contents.swift:114-126 | the database repository's count check passes |

## Left out

- `import PlaygroundSupport` and the commented-out live view (Contents.swift:3, 132): playground host plumbing with no logic.
- Console output of the checks (Contents.swift:82-83, 100-101, 118-124) and their top-level calls (Contents.swift:128-130). What each check compares is the postcondition of a method in `Scenarios`.
- `Building.description` (Contents.swift:8): it only returns `name`, which the model reads directly.
- Closures as values: every callback fires synchronously and exactly once, so its argument is a return value. Escaping closures and capture are not modelled.
- Swift's `[String: Any]`: the only value ever stored is a string, so the serialized form is `map<string, string>`.
- String comparison: Swift's `String ==` treats canonically equivalent Unicode text as equal, while a Dafny `string` is compared code point by code point. The name comparisons of the checks (Contents.swift:83, 101) therefore agree with Swift only for text without such equivalents; every fixture name is ASCII, so the checks come out the same. No core operation compares strings. Swift's `Building` is not `Equatable`, so equality of building lists exists only in the model.
- The `BuildingRepository` protocol is closed to its two implementations in this file. A repository defined elsewhere cannot be plugged in.
