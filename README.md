# UpcomingMovies: coordinator graph and custom-list detail view model

This project models three small pieces of logic of the UpcomingMovies iOS client
and proves properties about them.

- **Child-coordinator list maintenance.** Every coordinator owns an ordered list of
  child coordinators. `childDidFinish` walks that list and removes the first entry
  that is the same object as the finished child, then stops. Identity (Swift's
  `===`) is Dafny's reference equality on instances of the class
  `Coordinators.Coordinator`. The list edit is specified by `ChildList.RemoveFirst`,
  and the lemmas beside it prove what it does: one removal exactly when the child
  is present, the first occurrence only, order kept, and no effect when the child
  is absent.
- **Launching the custom-list detail flow.** `showDetail(for:)` builds a
  custom-list-detail coordinator on the same navigation controller. It points the
  child's parent at this coordinator's parent and appends the child to that
  parent's children. Only then does it start the child. `Start` requires the
  coordinator to be registered with its parent, so the order "append, then start"
  is checked where `ShowDetail` calls it.
- **The custom-list detail view model.** Its view state starts as `loading`. A
  completed request replaces it with `empty` (no array, or an empty one),
  `populated(movies)` or `error(e)`. The table's cells and `movie(at:)` read the
  current movies. The header and section view models copy the list's fields.

The Swift `Coordinator` protocol and its two concrete classes (`CustomListsCoordinator`,
`CustomListDetailCoordinator`) are one Dafny class. It holds the protocol's state
(`childCoordinators`, `navigationController`) and the stored properties of the
concrete classes (`parentCoordinator`, `customList`). A `kind` constant says which
concrete coordinator an instance is. The list is heterogeneous and must be
compared by identity, and this keeps both of those.

Files: `wrappers.dfy` (Option, Result), `domain.dfy` (Movie, List, FetchError),
`child_list.dfy` (the list edit and its lemmas), `coordinator.dfy` (the coordinator
graph), `custom_list_detail.dfy` (view state and view model).

## Model

| member | source | states |
|---|---|---|
| `ChildList.FirstIndex` | UpcomingMovies/Helpers/Protocols/Coordinator.swift:23-24 | the index the loop stops at holds the child, and no earlier entry is the child |
| `ChildList.RemoveFirst` | UpcomingMovies/Helpers/Protocols/Coordinator.swift:22-29 | the list gets one entry shorter exactly when the child occurs in it, and keeps its length otherwise |
| `ChildList.RemoveFirstSplices` | UpcomingMovies/Helpers/Protocols/Coordinator.swift:23-27 | when the child occurs, the result is the prefix before its first occurrence followed by the suffix after it, so order is preserved |
| `ChildList.RemoveFirstAbsent` | UpcomingMovies/Helpers/Protocols/Coordinator.swift:22-29 | a child that is not in the list leaves the list unchanged |
| `ChildList.RemoveFirstMultiset` | UpcomingMovies/Helpers/Protocols/Coordinator.swift:24-26 | exactly one copy of the child goes when there is one, and every other entry keeps its count |
| `ChildList.RemoveFirstKeepsOthers` | UpcomingMovies/Helpers/Protocols/Coordinator.swift:24 | an entry that is not the same object as the child is never removed, whatever its contents |
| `ChildList.RemoveFirstKeepsLaterDuplicate` | UpcomingMovies/Helpers/Protocols/Coordinator.swift:25-26 | because of the break, a later duplicate of the child stays, one position earlier |
| `ChildList.RemoveFirstUndoesAppend` | UpcomingMovies/Helpers/Protocols/Coordinator.swift:22-29 | removing a child that was appended last restores the list as it was before the append |
| `ChildList.RemoveFirstTwiceIsOnce` | UpcomingMovies/Helpers/Protocols/Coordinator.swift:22-29 | when the child occurs at most once, reporting it finished a second time is a no-op |
| `Coordinators.Coordinator.constructor` | UpcomingMovies/Scenes/Account/CustomLists/CustomListsCoordinator.swift:13-21 | a new coordinator has no children and no parent, and it holds the navigation controller it was given |
| `Coordinators.Coordinator.Start` | UpcomingMovies/Helpers/Protocols/Coordinator.swift:16 | a flow may start only once it sits in its parent's child list |
| `Coordinators.Coordinator.ChildDidFinish` | UpcomingMovies/Helpers/Protocols/Coordinator.swift:22-29 | the new child list is the old one with the first identical entry removed; the navigation controller and parent are untouched |
| `Coordinators.Coordinator.ShowDetail` | UpcomingMovies/Scenes/Account/CustomLists/CustomListsCoordinator.swift:35-43 | a fresh detail coordinator with the given list and this coordinator's navigation controller, whose parent is this coordinator's parent, is appended at the end of that parent's children; it is registered when started; no other child list changes |
| `Coordinators.ShowDetailThenFinish` | UpcomingMovies/Scenes/Account/CustomLists/CustomListsCoordinator.swift:41 | launching a detail flow and then reporting it finished leaves the parent's children as they were |
| `Coordinators.FinishOneOfTwoLookAlikes` | UpcomingMovies/Helpers/Protocols/Coordinator.swift:24 | of two detail coordinators opened on the same list, equal field by field, finishing the first leaves the second in place |
| `CustomListDetail.StateAfterFetch` | UpcomingMovies/Scenes/Account/CustomListDetail/CustomListDetailViewModel.swift:74-90 | a failure gives the error state with that error; no array or an empty one gives empty; a non-empty array gives populated with exactly that array; the result is never loading, and populated never carries an empty array |
| `CustomListDetail.CellsFor` | UpcomingMovies/Scenes/Account/CustomListDetail/CustomListDetailViewModel.swift:36-38 | one cell per movie |
| `CustomListDetail.CellsForShowMovies` | UpcomingMovies/Scenes/Account/CustomListDetail/CustomListDetailViewModel.swift:36-38 | every cell shows the movie at its own position |
| `CustomListDetail.CustomListDetailViewModel.constructor` | UpcomingMovies/Scenes/Account/CustomListDetail/CustomListDetailViewModel.swift:42-53 | the stored fields are the list's, and the view state starts as loading |
| `CustomListDetail.CustomListDetailViewModel.Movies` | UpcomingMovies/Scenes/Account/CustomListDetail/CustomListDetailViewModel.swift:32-34 | the current movies are the ones the view state carries: a populated state's movies, none in every other state |
| `CustomListDetail.CustomListDetailViewModel.MovieCells` | UpcomingMovies/Scenes/Account/CustomListDetail/CustomListDetailViewModel.swift:36-38 | one cell per current movie, in the same order |
| `CustomListDetail.CustomListDetailViewModel.MovieAt` | UpcomingMovies/Scenes/Account/CustomListDetail/CustomListDetailViewModel.swift:67-69 | for a row within the current movies, the movie is the current movie at that position, and it is the one that row's cell shows |
| `CustomListDetail.CustomListDetailViewModel.BuildHeaderViewModel` | UpcomingMovies/Scenes/Account/CustomListDetail/CustomListDetailViewModel.swift:57-61 | the header carries the name, description and backdrop URL of the list given at init |
| `CustomListDetail.CustomListDetailViewModel.BuildSectionViewModel` | UpcomingMovies/Scenes/Account/CustomListDetail/CustomListDetailViewModel.swift:63-65 | the section carries the movie count, rating and runtime of the list given at init |
| `CustomListDetail.CustomListDetailViewModel.GetListMovies` | UpcomingMovies/Scenes/Account/CustomListDetail/CustomListDetailViewModel.swift:73-82 | the request is made for this list's id, and the new state is the one its result calls for |
| `CustomListDetail.CustomListDetailViewModel.CompleteListMovies` | UpcomingMovies/Scenes/Account/CustomListDetail/CustomListDetailViewModel.swift:74-81 | the completion sets the view state to the one its result calls for, and nothing else |
| `CustomListDetail.CustomListDetailViewModel.ProcessListMovies` | UpcomingMovies/Scenes/Account/CustomListDetail/CustomListDetailViewModel.swift:84-90 | no array or an empty one sets empty; otherwise it sets populated with that array |
| `CustomListDetail.OpenAndLoad` | UpcomingMovies/Scenes/Account/CustomListDetail/CustomListDetailViewModel.swift:28-81 | a freshly opened screen has no rows; after one completed request it is no longer loading and its rows show exactly the fetched movies, in order |

## Left out

- The view controllers are not modelled. This covers cell registration, storyboards, animation, and the scroll and header-stretch effects, which use floating point.
- Threading is not modelled. The `DispatchQueue.main.async` hops and the asynchronous delivery of use-case completions become one synchronous call.
- The observable container (`Bindable`) and its observers are not modelled. The view state is a plain field.
- The account use case is the function parameter `getCustomListMovies` of `GetListMovies`. `useCaseProvider` and `accountUseCase` are not stored.
- `CustomListsCoordinator.start()` is not modelled. It does storyboard instantiation, dependency injection and `pushViewController`. `groupOption` is left out with it.
- Coordinators.Coordinator.Start: only records, in the model-only ghost field `started`, that the flow has started, and checks that it is registered. The source of `CustomListDetailCoordinator.start()` is not part of this model, so its navigation is not modelled.
- `unwrappedParentCoordinator` is not part of this model. `ShowDetail` requires the parent to be present, which is what that accessor assumes.
- `ShowDetail` returns the new coordinator so that callers and proofs can name it. The Swift method returns nothing.
- The source of `currentMovies` is not among the modelled files. `CurrentMovies` assumes `populated(ms)` gives `ms` and every other state gives no movies.
- Movie, List and the cell view model are opaque payloads. Movie keeps only an id and a title. A cell holds the movie it was built from. The rating, a `Double` in Swift, is a `real` that is only copied.
- The paginated view state (`SimpleViewState`, `needsPrefetch`, page accumulation) belongs to other screens, and its source is not part of this model.
- `AuthPermissionViewModel` and the use-case and account protocols are not modelled. They are interface declarations or a pass-through with no logic.
