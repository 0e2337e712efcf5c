/**
 * The custom-list detail screen's view model: a view state that starts out
 * loading and is replaced once the list's movies arrive, the read-only views
 * derived from it, and the header and section view models built from the
 * list the screen was opened with.
 */
module CustomListDetail {
  import opened Wrappers
  import opened Domain

  /** What the movie request's completion receives: possibly no array at all. */
  type MoviesResult = Result<Option<seq<Movie>>, FetchError>

  datatype CustomListDetailViewState =
    | Loading
    | Empty
    | Populated(movies: seq<Movie>)
    | Error(error: FetchError)
  {
    /** The movies on screen: those of a populated state, none otherwise. */
    function CurrentMovies(): seq<Movie>
    {
      if Populated? then movies else []
    }

    /** A populated state never carries an empty array. */
    ghost predicate WellFormed()
    {
      Populated? ==> movies != []
    }
  }

  /** One table row; it shows the movie it was made from. */
  datatype MovieCellViewModel = MovieCellViewModel(movie: Movie)

  datatype CustomListDetailHeaderViewModel =
    CustomListDetailHeaderViewModel(name: string, description: Option<string>, posterURL: Option<string>)

  datatype CustomListDetailSectionViewModel =
    CustomListDetailSectionViewModel(movieCount: int, rating: Option<real>, runtime: Option<int>)

  /** The state a completed movie request leaves the screen in. */
  function StateAfterFetch(result: MoviesResult): (state: CustomListDetailViewState)
    ensures state.WellFormed() && !state.Loading?
    ensures state.Error? <==> result.Failure?
    ensures state.Error? ==> state.error == result.error
    ensures state.Empty? <==> result == Success(None) || result == Success(Some([]))
    ensures state.Populated? <==> result.Success? && result.value.Some? && result.value.value != []
    ensures state.CurrentMovies() == if result.Success? && result.value.Some? then result.value.value else []
  {
    match result
    case Failure(error) => Error(error)
    case Success(None) => Empty
    case Success(Some(movies)) => if movies == [] then Empty else Populated(movies)
  }

  /** One cell per movie, in the movies' order. */
  function CellsFor(movies: seq<Movie>): (cells: seq<MovieCellViewModel>)
    ensures |cells| == |movies|
  {
    if movies == [] then [] else [MovieCellViewModel(movies[0])] + CellsFor(movies[1..])
  }

  /** The cells show exactly the movies: the cell in row `i` shows the movie in position `i`. */
  lemma {:induction false} CellsForShowMovies(movies: seq<Movie>)
    ensures forall i :: 0 <= i < |movies| ==> CellsFor(movies)[i].movie == movies[i]
  {
    if movies != [] {
      CellsForShowMovies(movies[1..]);
      assert CellsFor(movies)[1..] == CellsFor(movies[1..]);
    }
  }

  class CustomListDetailViewModel {
    /** The list the screen was opened with. */
    ghost const list: List

    const id: string
    const description: Option<string>
    const movieCount: int
    const rating: Option<real>
    const runtime: Option<int>
    var backdropURL: Option<string>
    const name: string

    /** The current value of the observable view state. */
    var viewState: CustomListDetailViewState

    /** The stored fields are the list's, and the state is well formed. */
    ghost predicate Valid()
      reads this
    {
      && id == list.id
      && name == list.name
      && description == list.description
      && movieCount == list.movieCount
      && rating == list.averageRating
      && runtime == list.runtime
      && backdropURL == list.backdropURL
      && viewState.WellFormed()
    }

    constructor (list: List)
      ensures Valid() && this.list == list
      ensures viewState == Loading
    {
      this.list := list;
      id := list.id;
      name := list.name;
      description := list.description;
      movieCount := list.movieCount;
      rating := list.averageRating;
      runtime := list.runtime;
      backdropURL := list.backdropURL;
      viewState := Loading;
    }

    /** The current movies: the ones the view state carries, none unless it is populated. */
    function Movies(): (movies: seq<Movie>)
      reads this
      ensures viewState.Populated? ==> movies == viewState.movies
      ensures !viewState.Populated? ==> movies == []
    {
      viewState.CurrentMovies()
    }

    /** The table's rows: one cell per current movie, in the same order. */
    function MovieCells(): (cells: seq<MovieCellViewModel>)
      reads this
      ensures |cells| == |Movies()|
      ensures forall i :: 0 <= i < |cells| ==> cells[i].movie == Movies()[i]
    {
      CellsForShowMovies(Movies());
      CellsFor(Movies())
    }

    /** The movie behind row `index`: the one that row's cell shows. */
    function MovieAt(index: int): (movie: Movie)
      reads this
      requires 0 <= index < |Movies()|
      ensures movie == Movies()[index]
      ensures movie == MovieCells()[index].movie
      ensures movie in Movies()
    {
      Movies()[index]
    }

    /** The header shows the list's name, description and backdrop, unchanged. */
    function BuildHeaderViewModel(): (header: CustomListDetailHeaderViewModel)
      reads this
      requires Valid()
      ensures header.name == list.name
      ensures header.description == list.description
      ensures header.posterURL == list.backdropURL
    {
      CustomListDetailHeaderViewModel(name, description, backdropURL)
    }

    /** The section header shows the list's movie count, rating and runtime, unchanged. */
    function BuildSectionViewModel(): (section: CustomListDetailSectionViewModel)
      reads this
      requires Valid()
      ensures section.movieCount == list.movieCount
      ensures section.rating == list.averageRating
      ensures section.runtime == list.runtime
    {
      CustomListDetailSectionViewModel(movieCount, rating, runtime)
    }

    /**
     * Requests the list's movies and handles the completion. The account
     * use case is the parameter `getCustomListMovies`, called with this
     * list's id; its asynchronous delivery is collapsed into the call.
     */
    method GetListMovies(getCustomListMovies: string -> MoviesResult)
      requires Valid()
      modifies this`viewState
      ensures Valid()
      ensures viewState == StateAfterFetch(getCustomListMovies(list.id))
    {
      var result := getCustomListMovies(id);
      CompleteListMovies(result);
    }

    /** The completion closure: a failure becomes the error state, a success is processed. */
    method CompleteListMovies(result: MoviesResult)
      requires Valid()
      modifies this`viewState
      ensures Valid()
      ensures viewState == StateAfterFetch(result)
    {
      match result {
        case Success(movies) =>
          ProcessListMovies(movies);
        case Failure(error) =>
          viewState := Error(error);
      }
    }

    /** No array or an empty one leaves the screen empty; otherwise it shows those movies. */
    method ProcessListMovies(movies: Option<seq<Movie>>)
      requires Valid()
      modifies this`viewState
      ensures Valid()
      ensures viewState == StateAfterFetch(Success(movies))
    {
      if movies.None? || movies.value == [] {
        viewState := Empty;
        return;
      }
      viewState := Populated(movies.value);
    }
  }

  /**
   * A freshly opened screen shows no rows; after one completed request it
   * shows exactly the fetched movies, in order, and is no longer loading.
   */
  method OpenAndLoad(list: List, result: MoviesResult)
    returns (rowsBefore: nat, stateAfter: CustomListDetailViewState, cellsAfter: seq<MovieCellViewModel>)
    ensures rowsBefore == 0
    ensures stateAfter == StateAfterFetch(result) && !stateAfter.Loading?
    ensures |cellsAfter| == |StateAfterFetch(result).CurrentMovies()|
    ensures forall i :: 0 <= i < |cellsAfter| ==> cellsAfter[i].movie == result.value.value[i]
  {
    var viewModel := new CustomListDetailViewModel(list);
    rowsBefore := |viewModel.MovieCells()|;
    viewModel.CompleteListMovies(result);
    stateAfter := viewModel.viewState;
    cellsAfter := viewModel.MovieCells();
  }
}
