/** The fields a component gains: its last build (the build with the latest
    execution time) and the three statuses copied from that build. */
module ComponentState {
  import opened Records
  import opened BuildState

  /** `Max(execution)` over the builds of component `c`. NULL executions are
      skipped; with none left the aggregate is NULL. */
  function MaxExecution(builds: seq<Build>, c: ComponentId): (m: Option<int>)
    ensures m.None? <==> forall b :: b in builds && b.component == c ==> b.execution.None?
    ensures m.Some? ==> exists b :: b in builds && b.component == c && b.execution == m
    ensures m.Some? ==> forall b :: b in builds && b.component == c && b.execution.Some? ==> b.execution.value <= m.value
  {
    if |builds| == 0 then None
    else
      var rest := MaxExecution(builds[1..], c);
      var b := builds[0];
      assert forall x :: x in builds <==> x == b || x in builds[1..];
      if b.component != c || b.execution.None? then rest
      else if rest.Some? && b.execution.value <= rest.value then rest
      else b.execution
  }

  /** The id of the last build, in table order, of component `c` executed at
      time `t`: the row that `dict(cursor.fetchall())` keeps when several
      builds share the latest execution time. */
  function LastExecutedAt(builds: seq<Build>, c: ComponentId, t: int): (r: Option<BuildId>)
    ensures r.Some? ==> exists b :: b in builds && b.id == r.value && b.component == c && b.execution == Some(t)
    ensures r.None? ==> forall b :: b in builds ==> !(b.component == c && b.execution == Some(t))
  {
    if |builds| == 0 then None
    else
      var b := builds[|builds| - 1];
      assert forall x :: x in builds <==> x == b || x in builds[..|builds| - 1];
      if b.component == c && b.execution == Some(t) then Some(b.id)
      else LastExecutedAt(builds[..|builds| - 1], c, t)
  }

  /** Build `id` is a build of component `c` whose execution time is not
      earlier than that of any other build of `c`. */
  ghost predicate IsLatestBuildOf(builds: seq<Build>, c: ComponentId, id: BuildId) {
    exists b :: b in builds && b.id == id && b.component == c && b.execution.Some? &&
      forall b' :: b' in builds && b'.component == c && b'.execution.Some? ==> b'.execution.value <= b.execution.value
  }

  /** The last build of one component: a build with the maximal execution time,
      or none when no build of the component has an execution time. */
  function LastBuild(builds: seq<Build>, c: ComponentId): (r: Option<BuildId>)
    ensures r.None? <==> forall b :: b in builds && b.component == c ==> b.execution.None?
    ensures r.Some? ==> IsLatestBuildOf(builds, c, r.value)
  {
    match MaxExecution(builds, c)
    case None => None
    case Some(t) => LastExecutedAt(builds, c, t)
  }

  /** `get_last_build`: a dictionary seeded with None for every requested
      component, then updated with the rows of the join against the per-component
      maximum execution time. */
  function GetLastBuild(db: Db, componentIds: seq<ComponentId>): (r: map<ComponentId, Option<BuildId>>)
    ensures r.Keys == set c | c in componentIds
    ensures forall c :: c in r ==> (r[c].None? <==> forall b :: b in db.builds && b.component == c ==> b.execution.None?)
    ensures forall c :: c in r && r[c].Some? ==> IsLatestBuildOf(db.builds, c, r[c].value)
  {
    var seeded := FromKeys(componentIds, None);
    var rows := map c | c in componentIds && LastBuild(db.builds, c).Some? :: LastBuild(db.builds, c);
    seeded + rows
  }

  /** `Component.get_state`: '' without a last build, otherwise the same-named
      derived field of the last build. */
  function ComponentStateOf(db: Db, c: ComponentId, name: string): (r: string)
    requires name in StateFields
    ensures r == "" <==> forall b :: b in db.builds && b.component == c ==> b.execution.None?
  {
    match GetLastBuild(db, [c])[c]
    case None => ""
    case Some(id) =>
      EveryRequestedBuildReported(db, [id], [name]);
      ReportedLabelIsNotEmpty(db, id, name);
      RequestedStates(db, [id], [name])[name][id]
  }

  /** The value `get_state` reports for one field of one build is a non-empty
      selection key, so it never reads as a missing last build. */
  lemma ReportedLabelIsNotEmpty(db: Db, id: BuildId, name: string)
    requires name in StateFields
    ensures name in RequestedStates(db, [id], [name]) && id in RequestedStates(db, [id], [name])[name]
    ensures RequestedStates(db, [id], [name])[name][id] != ""
  {
    EveryRequestedBuildReported(db, [id], [name]);
    var m := StateMaps(db, [id], [name]);
    assert RequestedStates(db, [id], [name])[name] == m[name];
    if name == CoverageStateField {
      assert m[name][id] in {"ok", Tier(CoverageOf(db, id)).Label()};
    } else {
      var types := if name == TestStateField then TestTypes else FlakeTypes;
      assert m[name][id] in {"pass", StateOfRank(MinRank(db.results, id, types)).Label()};
    }
  }

  /** A component's status is '' exactly when none of its builds has an
      execution time; otherwise it is the worst-of status (or coverage tier)
      of a build with the latest execution time. */
  lemma ComponentStateIsLastBuildState(db: Db, c: ComponentId, name: string)
    requires Valid(db)
    requires name in StateFields
    ensures ComponentStateOf(db, c, name) == "" <==> forall b :: b in db.builds && b.component == c ==> b.execution.None?
    ensures ComponentStateOf(db, c, name) != "" ==>
      exists id :: IsLatestBuildOf(db.builds, c, id) && ComponentStateOf(db, c, name) == BuildField(db, id, name)
  {
    var last := GetLastBuild(db, [c])[c];
    if last.Some? {
      var id := last.value;
      SingleBuildState(db, id, name);
      LabelsAreNotEmpty(db, id, name);
    }
  }

  /** No status label is the empty string. */
  lemma LabelsAreNotEmpty(db: Db, id: BuildId, name: string)
    requires name in StateFields
    ensures BuildField(db, id, name) != ""
  {
  }
}
