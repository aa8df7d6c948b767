/** Properties of the selector session and of the load lifecycle that
    `StartDatabaseUpdate` and `StopDatabaseUpdate` drive, and of the ID
    generator across calls. */
module SessionLemmas {
  import opened Wrappers
  import opened Int32
  import opened Loader
  import opened FileSystem
  import opened Selector

  /** The selector window is not open while a load is in progress. */
  predicate SessionExclusive(s: SelectorState)
  {
    !(s.windowOpen && s.loaderProcessing)
  }

  /** A full load: once stopped, the project is EMPTY or LOADED according to
      its sanity list, nothing is processing, the window is closed, and the
      buffer no longer names the project. */
  lemma StartThenStop(s: SelectorState, name: string)
    requires name in s.loaders
    ensures var r := StopDatabaseUpdate(StartDatabaseUpdate(s, name));
      && GetProjectLoader(r, name).Some?
      && (GetProjectLoader(r, name).value.status == Empty <==> |s.loaders[name].sanityUuids| == 0)
      && (GetProjectLoader(r, name).value.status == Loaded <==> |s.loaders[name].sanityUuids| != 0)
      && GetProgressUpdate(r, name) == GetProgressUpdate(s, name)
      && !r.loaderProcessing && !r.windowOpen
      && r.nameBuffer == Some("")
      && r.selectorStatus == Some(WindowCloseLoadingFiles)
      && SessionExclusive(r)
  {
  }

  /** After a load is stopped, the current loader is gone unless a project
      happens to be registered under the empty name. */
  lemma StopClearsCurrentProject(s: SelectorState)
    requires s.nameBuffer.Some? && s.nameBuffer.value in s.loaders
    requires "" !in s.loaders
    ensures GetCurrentProjectLoader(StopDatabaseUpdate(s)).None?
    ensures GetProjectIDFromBuffer(StopDatabaseUpdate(s)) == GetProjectID(s, "")
  {
  }

  /** The progress read back after configuring the window: `[0, n]`, or
      `[0, 1]` for an empty selection, so the total never divides by zero. */
  lemma ConfigureThenProgress(s: SelectorState, name: string, n: i32)
    requires name in s.loaders
    ensures var p := GetProgressUpdate(ConfigureOpenWindow(s, name, n), name);
      && p.Some? && p.value.current == 0 && p.value.total != 0
      && (n == 0 ==> p.value.total == 1)
      && (n != 0 ==> p.value.total == n)
  {
  }

  /** Starting a load establishes the session exclusion, and the operations
      that do not touch the window flag, or close the window, keep it. */
  lemma ExclusionKeptBy(s: SelectorState, name: string, id: i32, selection: string, seed: i32,
                        status: SelectorStatus)
    ensures SessionExclusive(Init())
    ensures name in s.loaders ==> SessionExclusive(StartDatabaseUpdate(s, name))
    ensures SessionExclusive(SetWindowState(s, false))
    ensures SessionExclusive(s) ==>
      && SessionExclusive(SetProjectNameNID(s, name, id))
      && SessionExclusive(InitSelector(s, selection).1)
      && SessionExclusive(GenerateProjectID(s).1)
      && SessionExclusive(SetProjectIDGenerator(s, seed))
      && SessionExclusive(SetProjectNameBuffer(s, name))
      && SessionExclusive(SetSelectorStatus(s, status))
      && (s.nameBuffer.Some? && s.nameBuffer.value in s.loaders ==> SessionExclusive(StopDatabaseUpdate(s)))
  {
  }

  /** The handler itself does not enforce the exclusion: configuring the
      window, or opening it, during a load leaves both flags set. */
  lemma OpenWindowDuringLoad(s: SelectorState, name: string, n: i32)
    requires name in s.loaders
    ensures !SessionExclusive(ConfigureOpenWindow(StartDatabaseUpdate(s, name), name, n))
    ensures !SessionExclusive(SetWindowState(StartDatabaseUpdate(s, name), true))
  {
  }

  /** Successive generator calls never repeat an ID while the counter stays
      below the top of the 32-bit range, and after reseeding with `seed` the
      next ID is `seed + 1`. */
  lemma GeneratedIdsDistinct(s: SelectorState, seed: i32, k: nat)
    requires seed + k <= MaxInt
    ensures var ids := GenerateProjectIDs(SetProjectIDGenerator(s, seed), k).0;
      && (forall i, j :: 0 <= i < j < k ==> ids[i] != ids[j])
      && (k > 0 ==> ids[0] == seed + 1)
  {
  }

  /** `k + 1` generator calls are `k` calls followed by one more. */
  lemma {:induction false} GenerateProjectIDsSnoc(s: SelectorState, k: nat)
    ensures var (ids, s1) := GenerateProjectIDs(s, k);
      var (id, s2) := GenerateProjectID(s1);
      GenerateProjectIDs(s, k + 1) == (ids + [id], s2)
    decreases k
  {
    if k > 0 {
      var (first, s1) := GenerateProjectID(s);
      GenerateProjectIDsSnoc(s1, k - 1);
      var (rest, sk) := GenerateProjectIDs(s1, k - 1);
      var (last, s2) := GenerateProjectID(sk);
      assert GenerateProjectIDs(s, k) == ([first] + rest, sk);
      assert GenerateProjectIDs(s1, k) == (rest + [last], s2);
      assert GenerateProjectIDs(s, k + 1) == ([first] + (rest + [last]), s2);
      assert [first] + (rest + [last]) == ([first] + rest) + [last];
    } else {
      var (first, s1) := GenerateProjectID(s);
      assert GenerateProjectIDs(s, 0) == ([], s);
      assert GenerateProjectIDs(s, 1) == ([first] + [], s1);
      assert [first] + [] == [] + [first];
    }
  }

  /** The ordering of IDs breaks at the top of the 32-bit range: after
      reseeding with `seed`, the calls up to the maximum return `seed + 1`
      upwards, and the call after them wraps to the most negative integer,
      below every ID generated before it in that run. */
  lemma GeneratorWrapsAfterReseed(s: SelectorState, seed: i32)
    ensures var k := MaxInt - seed;
      var ids := GenerateProjectIDs(SetProjectIDGenerator(s, seed), k + 1).0;
      && ids[k] == MinInt
      && (forall j :: 0 <= j < k ==> seed < ids[j] <= MaxInt && ids[k] < ids[j])
  {
    var k := MaxInt - seed;
    GenerateProjectIDsSnoc(SetProjectIDGenerator(s, seed), k);
  }

  /** Reseeding alone can repeat IDs: reseeding to the same value twice
      makes the generator hand out the same next ID twice. */
  lemma ReseedRepeatsIds(s: SelectorState, seed: i32)
    ensures var (first, s1) := GenerateProjectID(SetProjectIDGenerator(s, seed));
      var (second, _) := GenerateProjectID(SetProjectIDGenerator(s1, seed));
      && first == second
      && (seed < MaxInt ==> first == seed + 1)
  {
  }

  /** One session from a fresh handler: a project "cats" registered under
      the first generated ID, a folder selector configured for 25 items,
      then a load started and stopped. Its loader's sanity list was never
      filled, so the project ends EMPTY. */
  lemma CatsScenario()
    ensures var (id, s1) := GenerateProjectID(Init());
      var s2 := SetProjectNameNID(s1, "cats", id);
      var (ok, s3) := InitSelector(s2, "folder");
      var s4 := ConfigureOpenWindow(s3, "cats", 25);
      var s5 := StartDatabaseUpdate(s4, "cats");
      var s6 := StopDatabaseUpdate(s5);
      && id == 1 && GetProjectID(s6, "cats") == Some(1)
      && ok && s4.windowOpen
      && GetProgressUpdate(s5, "cats") == Some(Progress(0, 25))
      && s5.loaders["cats"].status == Loading && s5.loaderProcessing && !s5.windowOpen
      && s6.loaders["cats"].status == Empty
      && !s6.loaderProcessing && s6.nameBuffer == Some("")
  {
  }

}
