# Selector handler of classifai, in Dafny

This project models the selector handler of the classifai labelling tool
(`SelectorHandler.java`). That class is a process-wide registry and session holder with these parts:

- a project directory, made of an ID→name map, a name→ID map and a name→loader map;
- a project ID generator (a counter that is incremented and can be reseeded);
- the flags of the single file/folder selector window, and of the database load that the window starts: `isWindowOpen`, `isLoaderProcessing`, the "current project" buffer, the selector kind and the selector status.

In Java all of this is static mutable state. Here it is one immutable datatype, `Selector.SelectorState`. Each static method becomes a pure function from the old state to the new one. Methods that return a value return it paired with the new state.

Modelling decisions:

- Java `null` is modelled as `Wrappers.Option`. This covers the lookups that return `null`, and the fields that start out `null`: the project-name buffer, the selector status and the window selection.
- Project IDs and the generator are Java 32-bit integers, written `Int32.i32`. `incrementAndGet` wraps from 2^31-1 to -2^31. `Int32.Increment` models that wrap explicitly.
- A path that dereferences a loader without a check would throw a `NullPointerException` in Java. Such paths get a precondition instead: the name must be in the loader map. For `stopDatabaseUpdate`, the buffered name must be set and registered. For `startDatabaseUpdate` on an unregistered name, Java has already assigned the buffer and the selector status before the exception; that partial update is not modelled, because the precondition excludes the call.
- `ProjectLoader` is not part of this model. It is abstracted as a record that holds only what the handler reads or writes: a status (`Unset | Loading | Loaded | Empty`), an optional progress pair `(current, total)`, and the list of sanity UUIDs, of which only emptiness matters. A freshly constructed loader is `Unset`, has no progress and has an empty list.
- The `SelectorStatus` enum is not part of this model. The handler uses only its `WINDOW_CLOSE_LOADING_FILES` value. As a modelling choice, its values are taken from `FileSystemStatus`, which declares a constant of that name among others.
- Registration overwrites silently, as in the code. Re-registering a name replaces its ID and its loader. The old ID's ID→name entry stays behind (`DirectoryLemmas.ReRegistrationLeavesStaleId`). The mutual-inverse relation between the two maps that the source comment intends is proved only for registrations that use new names and unused IDs.
- The code has no duplicate-name rejection, no typed error for an unknown name, and no operation that advances progress.
- The generator can hand out an ID again. The 32-bit counter wraps: after a reseed, the call that passes 2^31-1 returns -2^31, below every ID of that run (`SessionLemmas.GeneratorWrapsAfterReseed`). A reseed also repeats IDs: reseeding to 5 twice yields 6 both times (`SessionLemmas.ReseedRepeatsIds`). Distinctness is proved while the counter stays below 2^31-1 and no reseed happens in between.
- The comment at `SelectorHandler.java:53` says only one file/folder selector can be open at one time, and the handler keeps the flags `isWindowOpen` and `isLoaderProcessing` for that. The code does not enforce it: `configureOpenWindow` and `setWindowState(true)` set the window flag during a load (`SessionLemmas.OpenWindowDuringLoad`). `SessionLemmas.ExclusionKeptBy` proves which operations keep "window not open while processing".

## Model

| member | source | states |
|---|---|---|
| Selector.SetProjectNameNID | classifai-core/src/main/java/ai/classifai/selector/SelectorHandler.java:89-94 | After registration, name→ID maps the name to the ID and ID→name maps the ID to the name. The name has a fresh loader. Every other name's ID and loader, and every other ID's name, are unchanged, and so are the session fields. |
| Selector.GetProjectID | classifai-core/src/main/java/ai/classifai/selector/SelectorHandler.java:120-123 | Absent (null) exactly when the name is not a key of name→ID; otherwise the stored ID. |
| Selector.IsProjectNameRegistered | classifai-core/src/main/java/ai/classifai/selector/SelectorHandler.java:110-113 | True exactly when getProjectID finds an ID for the name. |
| Selector.GetProjectLoader | classifai-core/src/main/java/ai/classifai/selector/SelectorHandler.java:74-83 | Absent (null) for a name without a loader; otherwise the stored loader. |
| Selector.GetCurrentProjectLoader | classifai-core/src/main/java/ai/classifai/selector/SelectorHandler.java:115-118 | The loader lookup applied to the buffered project name. A null buffer finds nothing. |
| Selector.GetProjectIDFromBuffer | classifai-core/src/main/java/ai/classifai/selector/SelectorHandler.java:125-128 | The ID lookup applied to the buffered project name. A null buffer finds nothing. |
| Selector.SetProjectNameBuffer | classifai-core/src/main/java/ai/classifai/selector/SelectorHandler.java:130-133 | The buffer names the project, so the current loader becomes that project's loader. Nothing else changes. |
| Selector.InitSelector | classifai-core/src/main/java/ai/classifai/selector/SelectorHandler.java:96-108 | Returns true exactly for "file" or "folder", and then records the selection. For any other string it returns false and leaves the whole state unchanged. |
| Selector.ConfigureOpenWindow | classifai-core/src/main/java/ai/classifai/selector/SelectorHandler.java:140-156 | The project's progress becomes [0, n], or [0, 1] when n is 0, so the stored total is never 0. The window is marked open. No other loader and no other field changes. |
| Selector.GetProgressUpdate | classifai-core/src/main/java/ai/classifai/selector/SelectorHandler.java:158-163 | The progress of the loader that getProjectLoader finds for the name. |
| Selector.StartDatabaseUpdate | classifai-core/src/main/java/ai/classifai/selector/SelectorHandler.java:165-171 | The buffer names the project, the selector status is WINDOW_CLOSE_LOADING_FILES, and the project's loader is LOADING. The loader is processing and the window is not open. Other loaders are unchanged. |
| Selector.StopDatabaseUpdate | classifai-core/src/main/java/ai/classifai/selector/SelectorHandler.java:173-187 | The buffered project's loader becomes EMPTY exactly when its sanity list is empty, and LOADED exactly when it is not. Processing is cleared and the buffer becomes "". The window flag and all other loaders are unchanged. |
| Selector.SetWindowState | classifai-core/src/main/java/ai/classifai/selector/SelectorHandler.java:188-194 | The window flag takes the given value; nothing else changes. |
| Selector.SetSelectorStatus | classifai-core/src/main/java/ai/classifai/selector/SelectorHandler.java:54 | The selector status takes the given value; nothing else changes. |
| Selector.GenerateProjectID | classifai-core/src/main/java/ai/classifai/selector/SelectorHandler.java:196-199 | Returns the previous counter plus one and stores it as the counter. At 2^31-1 it wraps to -2^31. |
| Selector.SetProjectIDGenerator | classifai-core/src/main/java/ai/classifai/selector/SelectorHandler.java:201-204 | Reseeding with n stores n as the counter, so the next generated ID is n + 1, or -2^31 when n is 2^31-1. Nothing but the counter changes. |
| Selector.GenerateProjectIDs | classifai-core/src/main/java/ai/classifai/selector/SelectorHandler.java:196-199 | k successive generator calls return k IDs, all above the old counter and strictly increasing, and advance the counter by k, as long as no wrap occurs. |
| Int32.Increment | classifai-core/src/main/java/ai/classifai/selector/SelectorHandler.java:198 | The 32-bit increment of AtomicInteger: adds one below the maximum and wraps to the minimum at it. |
| DirectoryLemmas.InitSatisfiesInvariant | classifai-core/src/main/java/ai/classifai/selector/SelectorHandler.java:50-72 | The state `Selector.Init` built by the static initialiser: the empty directory satisfies the mutual-inverse invariant and registers no name. The counter is 0, so the first ID is 1. The buffer, selector status and selection are null, so the buffer lookups find nothing. Both flags are off. |
| DirectoryLemmas.RegisterThenLookup | classifai-core/src/main/java/ai/classifai/selector/SelectorHandler.java:89-128 | After registering a name, it is registered and getProjectID returns its ID. getProjectLoader returns a fresh loader. Once the name is buffered, the buffer lookups return the same ID and loader. |
| DirectoryLemmas.RegisterKeepsOthers | classifai-core/src/main/java/ai/classifai/selector/SelectorHandler.java:89-94 | Registering one name leaves every other name's registration, ID and loader as they were. |
| DirectoryLemmas.RegisteredIffLoader | classifai-core/src/main/java/ai/classifai/selector/SelectorHandler.java:74-83 | Under the directory invariant, a name is registered exactly when it has a loader. |
| DirectoryLemmas.DistinctNamesDistinctIds | classifai-core/src/main/java/ai/classifai/selector/SelectorHandler.java:37-44 | Under the mutual-inverse invariant, two different registered names have different IDs. |
| DirectoryLemmas.RegisterFreshPreservesInvariant | classifai-core/src/main/java/ai/classifai/selector/SelectorHandler.java:89-94 | Registering a new name under an unused ID keeps the two maps mutual inverses, with a loader for every name. |
| DirectoryLemmas.RegisterNewPreservesInvariant | classifai-core/src/main/java/ai/classifai/selector/SelectorHandler.java:89-94 | Registering a new name under a freshly generated ID keeps the invariant. The ID is counter + 1 and was not in use before. |
| DirectoryLemmas.RegisterAllPreservesInvariant | classifai-core/src/main/java/ai/classifai/selector/SelectorHandler.java:89-94 | Registering pairwise distinct new names one after another, each under a generated ID, keeps the maps mutual inverses and registers exactly those names. |
| DirectoryLemmas.ReRegistrationLeavesStaleId | classifai-core/src/main/java/ai/classifai/selector/SelectorHandler.java:90-91 | Re-registering a name under a second ID leaves the first ID mapped back to the name, so the maps stop being inverses. |
| SessionLemmas.StartThenStop | classifai-core/src/main/java/ai/classifai/selector/SelectorHandler.java:165-187 | After a start and a stop, the project is EMPTY exactly when its sanity list is empty and LOADED otherwise. Its progress is untouched, nothing is processing, the window is closed and the buffer is "". |
| SessionLemmas.StopClearsCurrentProject | classifai-core/src/main/java/ai/classifai/selector/SelectorHandler.java:173-187 | After a stop, getCurrentProjectLoader finds nothing unless a project is registered under "". |
| SessionLemmas.ConfigureThenProgress | classifai-core/src/main/java/ai/classifai/selector/SelectorHandler.java:140-163 | getProgressUpdate after configureOpenWindow(n) reads [0, n], or [0, 1] for n = 0; the total is never 0. |
| SessionLemmas.ExclusionKeptBy | classifai-core/src/main/java/ai/classifai/selector/SelectorHandler.java:52-53 | Starting a load or closing the window establishes "window not open while processing". Registration, selector choice, the generator and its reseed, setting the buffer or the selector status, and stopping a load preserve it. |
| SessionLemmas.OpenWindowDuringLoad | classifai-core/src/main/java/ai/classifai/selector/SelectorHandler.java:140-156 | configureOpenWindow or setWindowState(true) during a load leaves the window open while the loader is processing. |
| SessionLemmas.GeneratedIdsDistinct | classifai-core/src/main/java/ai/classifai/selector/SelectorHandler.java:196-204 | After reseeding with n, the first generated ID is n + 1. Successive IDs are pairwise distinct while no wrap occurs. |
| SessionLemmas.GenerateProjectIDsSnoc | classifai-core/src/main/java/ai/classifai/selector/SelectorHandler.java:196-199 | k + 1 successive generator calls are k successive calls followed by one more call from the state they leave. |
| SessionLemmas.GeneratorWrapsAfterReseed | classifai-core/src/main/java/ai/classifai/selector/SelectorHandler.java:196-204 | After reseeding with n, the first 2^31-1-n calls return n+1 up to 2^31-1. The next call returns -2^31, below every ID generated earlier in that run, so the IDs stop increasing. |
| SessionLemmas.ReseedRepeatsIds | classifai-core/src/main/java/ai/classifai/selector/SelectorHandler.java:196-204 | Reseeding to the same value twice makes the generator hand out the same ID twice, n + 1 below the maximum. |
| SessionLemmas.CatsScenario | classifai-core/src/main/java/ai/classifai/selector/SelectorHandler.java:89-187 | A concrete session: register "cats" under ID 1, choose "folder", configure 25 items, start, stop. Progress is [0, 25] while loading, and the project ends EMPTY because its sanity list is empty. |

## Left out

- Concurrency. The atomicity of `AtomicInteger` and races on the unsynchronised static maps are not modelled; the model is a single-threaded sequence of calls.
- Logging (`log.error` in `getProjectLoader` and `initSelector`) is a side effect only; the return values are modelled.
- `rootSearchPath` reads a system property and the file system.
- The trivial getters (`isWindowOpen`, `isLoaderProcessing`, `getProjectNameBuffer`, `getSelectorStatus`, `getCurrentWindowSelection`) are reads of the state's fields, with no function of their own.
- `ProjectLoader`, `LoaderStatus` and `SelectorStatus` are not part of this model. Only what the handler reads or writes of them is kept. How the sanity list gets filled, by the external loading code, is not modelled.
- Null arguments (`@NonNull` violations, a null `Integer` unboxed) are not modelled; every argument is a value.
- `PortfolioDbQuery.java` (constant SQL text) and `DateTime.java` (wall-clock formatting) have no behaviour to verify. `FileSystemStatus.java` is used only for its constants.
- Selector.GenerateProjectIDs: distinctness and ordering are stated only while the counter stays below 2^31-1, because the 32-bit counter wraps past that and IDs then repeat.
