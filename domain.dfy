/**
 * The domain records the core receives from its use cases. They are opaque
 * payloads here: only the fields the core reads or copies are kept.
 */
module Domain {
  import opened Wrappers

  /** A movie of a custom list; the core never looks inside it. */
  datatype Movie = Movie(id: int, title: string)

  /** A user's custom list, as the account use case returns it. */
  datatype List = List(
    id: string,
    name: string,
    description: Option<string>,
    movieCount: int,
    averageRating: Option<real>,
    runtime: Option<int>,
    backdropURL: Option<string>)

  /** The error a failed request reports. */
  datatype FetchError = FetchError(localizedDescription: string)
}
