/** Properties of the project directory: the lookups against registration,
    and the intended mutual-inverse relation between the two maps. */
module DirectoryLemmas {
  import opened Wrappers
  import opened Int32
  import opened Loader
  import opened Selector

  /** The two maps are mutual inverses and every named project has a loader. */
  ghost predicate DirectoryInvariant(s: SelectorState)
  {
    && s.loaders.Keys == s.nameToId.Keys
    && (forall n :: n in s.nameToId ==> s.nameToId[n] in s.idToName && s.idToName[s.nameToId[n]] == n)
    && (forall i :: i in s.idToName ==> s.idToName[i] in s.nameToId && s.nameToId[s.idToName[i]] == i)
  }

  /** Every registered ID has already been handed out by the generator. */
  ghost predicate IdsIssued(s: SelectorState)
  {
    forall i :: i in s.idToName ==> i <= s.idCounter
  }

  /** The callers' registration pattern: a generated ID, then registration. */
  function RegisterNew(s: SelectorState, name: string): SelectorState
  {
    var (id, s1) := GenerateProjectID(s);
    SetProjectNameNID(s1, name, id)
  }

  /** Registering each name of `names` in turn with a generated ID. */
  function RegisterAll(s: SelectorState, names: seq<string>): SelectorState
    decreases |names|
  {
    if |names| == 0 then s else RegisterAll(RegisterNew(s, names[0]), names[1..])
  }

  /** The names listed in `names`. */
  function NameSet(names: seq<string>): set<string>
  {
    set i | 0 <= i < |names| :: names[i]
  }

  lemma NameSetCons(names: seq<string>)
    requires |names| > 0
    ensures NameSet(names) == {names[0]} + NameSet(names[1..])
  {
  }

  /** The state after the static initialiser: nothing registered, the counter
      at 0, no current project, status or selection, and both flags off. */
  lemma InitSatisfiesInvariant()
    ensures DirectoryInvariant(Init()) && IdsIssued(Init())
    ensures Init().idCounter == 0 && GenerateProjectID(Init()).0 == 1
    ensures Init().nameBuffer.None? && Init().selectorStatus.None? && Init().windowSelection.None?
    ensures !Init().windowOpen && !Init().loaderProcessing
    ensures GetCurrentProjectLoader(Init()).None? && GetProjectIDFromBuffer(Init()).None?
    ensures forall name :: !IsProjectNameRegistered(Init(), name)
  {
  }

  /** After registration the name is registered, and its ID and fresh loader
      can be looked up, directly and through the buffer. */
  lemma RegisterThenLookup(s: SelectorState, name: string, id: i32)
    ensures var r := SetProjectNameNID(s, name, id);
      && IsProjectNameRegistered(r, name)
      && GetProjectID(r, name) == Some(id)
      && GetProjectLoader(r, name) == Some(FreshLoader())
      && GetProjectIDFromBuffer(SetProjectNameBuffer(r, name)) == Some(id)
      && GetCurrentProjectLoader(SetProjectNameBuffer(r, name)) == Some(FreshLoader())
  {
  }

  /** Registration leaves the lookups of every other name as they were. */
  lemma RegisterKeepsOthers(s: SelectorState, name: string, id: i32, other: string)
    requires other != name
    ensures var r := SetProjectNameNID(s, name, id);
      && IsProjectNameRegistered(r, other) == IsProjectNameRegistered(s, other)
      && GetProjectID(r, other) == GetProjectID(s, other)
      && GetProjectLoader(r, other) == GetProjectLoader(s, other)
  {
  }

  /** Under the invariant, "registered" and "has a loader" agree, so the two
      lookups fail together. */
  lemma RegisteredIffLoader(s: SelectorState, name: string)
    requires DirectoryInvariant(s)
    ensures IsProjectNameRegistered(s, name) <==> GetProjectLoader(s, name).Some?
    ensures GetProjectID(s, name).None? <==> GetProjectLoader(s, name).None?
  {
  }

  /** Under the invariant, distinct registered names have distinct IDs. */
  lemma DistinctNamesDistinctIds(s: SelectorState, a: string, b: string)
    requires DirectoryInvariant(s)
    requires a != b && IsProjectNameRegistered(s, a) && IsProjectNameRegistered(s, b)
    ensures GetProjectID(s, a).value != GetProjectID(s, b).value
  {
  }

  /** A registration with a new name and an unused ID keeps the maps inverse. */
  lemma RegisterFreshPreservesInvariant(s: SelectorState, name: string, id: i32)
    requires DirectoryInvariant(s)
    requires !IsProjectNameRegistered(s, name) && id !in s.idToName
    ensures DirectoryInvariant(SetProjectNameNID(s, name, id))
  {
  }

  /** Registering a new name under a freshly generated ID keeps the invariant,
      and the ID was not in use before. */
  lemma RegisterNewPreservesInvariant(s: SelectorState, name: string)
    requires DirectoryInvariant(s) && IdsIssued(s)
    requires !IsProjectNameRegistered(s, name) && s.idCounter < MaxInt
    ensures var r := RegisterNew(s, name);
      && DirectoryInvariant(r) && IdsIssued(r)
      && GetProjectID(r, name) == Some(s.idCounter + 1)
      && r.nameToId.Keys == s.nameToId.Keys + {name}
      && r.idCounter == s.idCounter + 1
  {
  }

  /** Registering pairwise distinct, new names one after another, each with a
      generated ID, keeps the maps mutual inverses and registers every name. */
  lemma {:induction false} RegisterAllPreservesInvariant(s: SelectorState, names: seq<string>)
    requires DirectoryInvariant(s) && IdsIssued(s)
    requires forall i, j :: 0 <= i < j < |names| ==> names[i] != names[j]
    requires forall i :: 0 <= i < |names| ==> !IsProjectNameRegistered(s, names[i])
    requires s.idCounter + |names| <= MaxInt
    ensures var r := RegisterAll(s, names);
      && DirectoryInvariant(r) && IdsIssued(r)
      && r.idCounter == s.idCounter + |names|
      && r.nameToId.Keys == s.nameToId.Keys + NameSet(names)
    decreases |names|
  {
    if |names| > 0 {
      var s1 := RegisterNew(s, names[0]);
      RegisterNewPreservesInvariant(s, names[0]);
      var rest := names[1..];
      forall i | 0 <= i < |rest|
        ensures !IsProjectNameRegistered(s1, rest[i])
      {
        assert rest[i] == names[i + 1];
        assert names[0] != names[i + 1];
      }
      RegisterAllPreservesInvariant(s1, rest);
      NameSetCons(names);
    }
  }

  /** What the code actually does on re-registration: the name now maps to
      the second ID, but the first ID still maps back to the name, so the
      maps are no longer mutual inverses. */
  lemma ReRegistrationLeavesStaleId(s: SelectorState, name: string, id1: i32, id2: i32)
    requires id1 != id2
    ensures var r := SetProjectNameNID(SetProjectNameNID(s, name, id1), name, id2);
      && GetProjectID(r, name) == Some(id2)
      && id1 in r.idToName && r.idToName[id1] == name
      && !DirectoryInvariant(r)
  {
  }

}
