/** The per-project loader record. Only the parts the selector handler reads
    or writes are kept: the load status, the progress pair and the list of
    sanity UUIDs, of which only emptiness matters here. */
module Loader {
  import opened Wrappers

  /** `Unset` is the status of a loader nobody has started yet. */
  datatype LoaderStatus = Unset | Loading | Loaded | Empty

  /** The two-element progress list `[current, total]`. */
  datatype Progress = Progress(current: int, total: int)

  datatype ProjectLoader = ProjectLoader(
    status: LoaderStatus,
    progress: Option<Progress>,
    sanityUuids: seq<int>)

  /** The loader created by `new ProjectLoader()` on registration. */
  function FreshLoader(): ProjectLoader
  {
    ProjectLoader(Unset, None, [])
  }

}
