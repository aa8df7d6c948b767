/** The selector handler: a process-wide directory of projects (ID to name,
    name to ID, name to loader), a project ID generator, and the flags of the
    single file/folder selector session and of the database load it starts.

    The Java class keeps all of this in static fields; here it is one
    immutable value, and every static method is a function from the old
    value to the new one (paired with the return value where there is one).
    A method that dereferences a loader without checking it exists would
    throw a NullPointerException; it gets a precondition instead. */
module Selector {
  import opened Wrappers
  import opened Int32
  import opened Loader
  import opened FileSystem

  /** The two selector kinds the handler accepts. */
  const File: string := "file"
  const Folder: string := "folder"

  datatype SelectorState = SelectorState(
    idToName: map<i32, string>,
    nameToId: map<string, i32>,
    loaders: map<string, ProjectLoader>,
    idCounter: i32,
    /** The "current project"; `None` until first set. */
    nameBuffer: Option<string>,
    windowOpen: bool,
    loaderProcessing: bool,
    selectorStatus: Option<SelectorStatus>,
    windowSelection: Option<string>)

  /** The state after the class's static initialiser. */
  function Init(): SelectorState
  {
    SelectorState(map[], map[], map[], 0, None, false, false, None, None)
  }

  // ---------------------------------------------------------------- directory

  /** Registers `name` under `id`: both map directions and a fresh loader.
      An existing entry for `name` is overwritten, and the entry of the ID
      it had before is left in place. */
  function SetProjectNameNID(s: SelectorState, name: string, id: i32): (r: SelectorState)
    ensures r.nameToId.Keys == s.nameToId.Keys + {name}
    ensures r.idToName.Keys == s.idToName.Keys + {id}
    ensures r.loaders.Keys == s.loaders.Keys + {name}
    ensures r.nameToId[name] == id && r.idToName[id] == name
    ensures r.loaders[name] == FreshLoader()
    ensures forall n :: n in s.nameToId && n != name ==> r.nameToId[n] == s.nameToId[n]
    ensures forall i :: i in s.idToName && i != id ==> r.idToName[i] == s.idToName[i]
    ensures forall n :: n in s.loaders && n != name ==> r.loaders[n] == s.loaders[n]
    ensures r.(idToName := s.idToName, nameToId := s.nameToId, loaders := s.loaders) == s
  {
    s.(nameToId := s.nameToId[name := id],
       idToName := s.idToName[id := name],
       loaders := s.loaders[name := FreshLoader()])
  }

  /** `null` when the name is unknown, the stored ID otherwise. */
  function GetProjectID(s: SelectorState, name: string): (r: Option<i32>)
    ensures r.None? <==> name !in s.nameToId
    ensures r.Some? ==> s.nameToId[name] == r.value
  {
    if name in s.nameToId then Some(s.nameToId[name]) else None
  }

  function IsProjectNameRegistered(s: SelectorState, name: string): (r: bool)
    ensures r <==> GetProjectID(s, name).Some?
  {
    name in s.nameToId
  }

  /** `null` when no loader is stored under the name, the loader otherwise. */
  function GetProjectLoader(s: SelectorState, name: string): (r: Option<ProjectLoader>)
    ensures r.None? <==> name !in s.loaders
    ensures r.Some? ==> s.loaders[name] == r.value
  {
    if name in s.loaders then Some(s.loaders[name]) else None
  }

  /** The loader of the buffered project; a `null` buffer finds nothing,
      since no project is registered under `null`. */
  function GetCurrentProjectLoader(s: SelectorState): (r: Option<ProjectLoader>)
    ensures s.nameBuffer.None? ==> r.None?
    ensures s.nameBuffer.Some? ==> r == GetProjectLoader(s, s.nameBuffer.value)
  {
    match s.nameBuffer
    case None => None
    case Some(name) => GetProjectLoader(s, name)
  }

  function GetProjectIDFromBuffer(s: SelectorState): (r: Option<i32>)
    ensures s.nameBuffer.None? ==> r.None?
    ensures s.nameBuffer.Some? ==> r == GetProjectID(s, s.nameBuffer.value)
  {
    match s.nameBuffer
    case None => None
    case Some(name) => GetProjectID(s, name)
  }

  function SetProjectNameBuffer(s: SelectorState, name: string): (r: SelectorState)
    ensures r.nameBuffer == Some(name)
    ensures GetCurrentProjectLoader(r) == GetProjectLoader(s, name)
    ensures r.(nameBuffer := s.nameBuffer) == s
  {
    s.(nameBuffer := Some(name))
  }

  // ------------------------------------------------------------------ session

  /** Accepts only "file" or "folder" as the selector kind; any other string
      is rejected with `false` and changes nothing. */
  function InitSelector(s: SelectorState, selection: string): (r: (bool, SelectorState))
    ensures r.0 <==> selection == File || selection == Folder
    ensures r.0 ==> r.1.windowSelection == Some(selection)
    ensures !r.0 ==> r.1 == s
    ensures r.1.(windowSelection := s.windowSelection) == s
  {
    if selection == File || selection == Folder then
      (true, s.(windowSelection := Some(selection)))
    else
      (false, s)
  }

  /** Seeds the project's progress with `[0, n]`, `[0, 1]` when `n` is 0,
      and marks the selector window open. */
  function ConfigureOpenWindow(s: SelectorState, name: string, n: i32): (r: SelectorState)
    requires name in s.loaders
    ensures r.loaders.Keys == s.loaders.Keys
    ensures r.loaders[name].progress.Some?
    ensures r.loaders[name].progress.value.current == 0
    ensures r.loaders[name].progress.value.total != 0
    ensures n != 0 ==> r.loaders[name].progress.value.total == n
    ensures n == 0 ==> r.loaders[name].progress.value.total == 1
    ensures r.loaders[name].(progress := s.loaders[name].progress) == s.loaders[name]
    ensures forall m :: m in s.loaders && m != name ==> r.loaders[m] == s.loaders[m]
    ensures r.windowOpen
    ensures r.(loaders := s.loaders, windowOpen := s.windowOpen) == s
  {
    var total := if n == 0 then 1 else n;
    var loader := s.loaders[name];
    s.(loaders := s.loaders[name := loader.(progress := Some(Progress(0, total)))],
       windowOpen := true)
  }

  function GetProgressUpdate(s: SelectorState, name: string): (r: Option<Progress>)
    requires name in s.loaders
    ensures GetProjectLoader(s, name) == Some(s.loaders[name])
    ensures r == GetProjectLoader(s, name).value.progress
  {
    s.loaders[name].progress
  }

  /** Buffers the project, marks the selector closed and loading, and sets
      the project's loader to LOADING. */
  function StartDatabaseUpdate(s: SelectorState, name: string): (r: SelectorState)
    requires name in s.loaders
    ensures r.nameBuffer == Some(name)
    ensures r.selectorStatus == Some(WindowCloseLoadingFiles)
    ensures r.loaders.Keys == s.loaders.Keys
    ensures r.loaders[name].status == Loading
    ensures r.loaders[name].(status := s.loaders[name].status) == s.loaders[name]
    ensures forall m :: m in s.loaders && m != name ==> r.loaders[m] == s.loaders[m]
    ensures r.loaderProcessing && !r.windowOpen
    ensures GetCurrentProjectLoader(r).Some?
    ensures r.(nameBuffer := s.nameBuffer, selectorStatus := s.selectorStatus, loaders := s.loaders,
               loaderProcessing := s.loaderProcessing, windowOpen := s.windowOpen) == s
  {
    var s1 := s.(nameBuffer := Some(name), selectorStatus := Some(WindowCloseLoadingFiles));
    var loader := GetCurrentProjectLoader(s1).value;
    s1.(loaders := s1.loaders[name := loader.(status := Loading)],
        loaderProcessing := true,
        windowOpen := false)
  }

  /** Finishes the load of the buffered project: EMPTY when its sanity list
      is empty and LOADED otherwise; then clears the processing flag and
      sets the buffer to "". The window flag is left as it was. */
  function StopDatabaseUpdate(s: SelectorState): (r: SelectorState)
    requires s.nameBuffer.Some? && s.nameBuffer.value in s.loaders
    ensures var name := s.nameBuffer.value;
      && r.loaders.Keys == s.loaders.Keys
      && (|s.loaders[name].sanityUuids| == 0 <==> r.loaders[name].status == Empty)
      && (|s.loaders[name].sanityUuids| != 0 <==> r.loaders[name].status == Loaded)
      && r.loaders[name].(status := s.loaders[name].status) == s.loaders[name]
      && (forall m :: m in s.loaders && m != name ==> r.loaders[m] == s.loaders[m])
    ensures !r.loaderProcessing && r.nameBuffer == Some("")
    ensures r.(loaders := s.loaders, loaderProcessing := s.loaderProcessing, nameBuffer := s.nameBuffer) == s
  {
    var name := s.nameBuffer.value;
    var loader := GetCurrentProjectLoader(s).value;
    var status := if |loader.sanityUuids| == 0 then Empty else Loaded;
    s.(loaders := s.loaders[name := loader.(status := status)],
       loaderProcessing := false,
       nameBuffer := Some(""))
  }

  /** `true` opens the selector window, `false` closes it. */
  function SetWindowState(s: SelectorState, open: bool): (r: SelectorState)
    ensures r.windowOpen == open
    ensures r.(windowOpen := s.windowOpen) == s
  {
    s.(windowOpen := open)
  }

  function SetSelectorStatus(s: SelectorState, status: SelectorStatus): (r: SelectorState)
    ensures r.selectorStatus == Some(status)
    ensures r.(selectorStatus := s.selectorStatus) == s
  {
    s.(selectorStatus := Some(status))
  }

  // ------------------------------------------------------------ ID generator

  /** `incrementAndGet`: the counter plus one, which becomes the new counter;
      at the top of the 32-bit range it wraps to the bottom. */
  function GenerateProjectID(s: SelectorState): (r: (i32, SelectorState))
    ensures r.1.idCounter == r.0
    ensures s.idCounter < MaxInt ==> r.0 == s.idCounter + 1
    ensures s.idCounter == MaxInt ==> r.0 == MinInt
    ensures r.1.(idCounter := s.idCounter) == s
  {
    var next := Increment(s.idCounter);
    (next, s.(idCounter := next))
  }

  /** Replaces the generator by one starting at `seed`. */
  function SetProjectIDGenerator(s: SelectorState, seed: i32): (r: SelectorState)
    ensures r.idCounter == seed
    ensures seed < MaxInt ==> GenerateProjectID(r).0 == seed + 1
    ensures seed == MaxInt ==> GenerateProjectID(r).0 == MinInt
    ensures r.(idCounter := s.idCounter) == s
  {
    s.(idCounter := seed)
  }

  /** `k` successive calls of the generator and the IDs they return, in order.
      As long as the counter does not reach the top of the 32-bit range they
      are the `k` integers just above the old counter, strictly increasing. */
  function GenerateProjectIDs(s: SelectorState, k: nat): (r: (seq<i32>, SelectorState))
    ensures |r.0| == k
    ensures r.1.(idCounter := s.idCounter) == s
    ensures s.idCounter + k <= MaxInt ==> r.1.idCounter == s.idCounter + k
    ensures s.idCounter + k <= MaxInt ==>
      forall j :: 0 <= j < k ==> s.idCounter < r.0[j] <= r.1.idCounter
    ensures s.idCounter + k <= MaxInt ==>
      forall i, j :: 0 <= i < j < k ==> r.0[i] < r.0[j]
    decreases k
  {
    if k == 0 then ([], s)
    else
      var (id, s1) := GenerateProjectID(s);
      var (ids, s2) := GenerateProjectIDs(s1, k - 1);
      ([id] + ids, s2)
  }

}
