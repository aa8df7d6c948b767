/** The states of the file/folder selector window. */
module FileSystem {

  datatype SelectorStatus =
    | WindowOpen
    | WindowCloseDatabaseNotUpdated
    | WindowCloseLoadingFiles
    | WindowCloseDatabaseUpdating
    | WindowCloseDatabaseUpdated
    | DidNotInitiate

}
