/** The search translators of the derived build fields: a search clause
    `(name, operator, value)` on a derived field becomes the domain
    `id in <subquery>`. The operator applied to the clause value is modelled as
    a predicate `op` on the status label. */
module BuildSearch {
  import opened Records
  import opened BuildState

  /** `search_coverage_state`: the ids of the builds whose coverage tier, computed
      with the same ladder as the read side, satisfies the operator. */
  function SearchCoverageState(db: Db, op: string -> bool): (r: set<BuildId>)
    ensures r <= BuildIds(db)
  {
    set b | b in db.builds && op(Tier(b.coverage).Label()) :: b.id
  }

  /** The coverage search selects a build exactly when the operator holds on the
      coverage state `get_state` reports for it. */
  lemma SearchCoverageAgreesWithGetState(db: Db, op: string -> bool, id: BuildId)
    requires Valid(db)
    requires id in BuildIds(db)
    ensures CoverageStateField in RequestedStates(db, [id], [CoverageStateField])
    ensures id in RequestedStates(db, [id], [CoverageStateField])[CoverageStateField]
    ensures id in SearchCoverageState(db, op) <==> op(RequestedStates(db, [id], [CoverageStateField])[CoverageStateField][id])
  {
  }

  /** The minimum encoded state over every result row of build `id`, where a
      row whose type is not among `types` finds no partner in the left outer
      self-join and so contributes a NULL state, which encodes as 2. */
  function JoinedRank(rs: seq<BuildResult>, id: BuildId, types: set<ResultType>): (n: nat)
    ensures n <= 2
  {
    if |rs| == 0 then 2
    else if rs[0].build == id then Min(if rs[0].kind in types then Rank(rs[0].state) else 2, JoinedRank(rs[1..], id, types))
    else JoinedRank(rs[1..], id, types)
  }

  /** The outer-join formulation computes the same minimum as the read side. */
  lemma {:induction false} JoinedRankIsMinRank(rs: seq<BuildResult>, id: BuildId, types: set<ResultType>)
    ensures JoinedRank(rs, id, types) == MinRank(rs, id, types)
  {
    if |rs| > 0 {
      JoinedRankIsMinRank(rs[1..], id, types);
    }
  }

  /** The result types whose rows count for a status field, or an error for any
      other field name. */
  function StatusTypes(name: string): (r: Outcome<set<ResultType>>)
    ensures r.Success? <==> name == TestStateField || name == FlakeStateField
    ensures name == TestStateField ==> r == Success(TestTypes)
    ensures name == FlakeStateField ==> r == Success(FlakeTypes)
  {
    if name == TestStateField then Success(TestTypes)
    else if name == FlakeStateField then Success(FlakeTypes)
    else Failure("Bad argument")
  }

  /** `search_state`, as written: the result rows grouped by build, each group
      kept when the operator holds on its decoded minimum. The subquery ranges
      over result rows, so a build without any result row is never selected. */
  function SearchState(db: Db, name: string, op: string -> bool): (r: Outcome<set<BuildId>>)
    ensures r.Success? ==> forall id :: id in r.value ==> HasResults(db, id)
  {
    match StatusTypes(name)
    case Failure(e) => Failure(e)
    case Success(types) =>
      Success(set r | r in db.results && op(StateOfRank(JoinedRank(db.results, r.build, types)).Label()) :: r.build)
  }

  /** `search_state` with the build table as the driving table: every build is
      a group, and a build without results has the default status pass. */
  function SearchStateOverBuilds(db: Db, name: string, op: string -> bool): (r: Outcome<set<BuildId>>)
    ensures r.Success? ==> r.value <= BuildIds(db)
  {
    match StatusTypes(name)
    case Failure(e) => Failure(e)
    case Success(types) =>
      Success(set b | b in db.builds && op(StateOfRank(JoinedRank(db.results, b.id, types)).Label()) :: b.id)
  }

  ghost predicate HasResults(db: Db, id: BuildId) {
    exists r :: r in db.results && r.build == id
  }

  /** Any name other than the two status fields raises an exception. */
  lemma SearchStateRejectsOtherNames(db: Db, name: string, op: string -> bool)
    ensures SearchState(db, name, op).Failure? <==> name !in {TestStateField, FlakeStateField}
    ensures SearchStateOverBuilds(db, name, op).Failure? <==> name !in {TestStateField, FlakeStateField}
  {
  }

  /** `search_state` as written selects a build exactly when the build has at
      least one result row and the operator holds on the status `get_state`
      reports for it. */
  lemma SearchStateAgreesWithGetState(db: Db, name: string, op: string -> bool, id: BuildId)
    requires Valid(db)
    requires name == TestStateField || name == FlakeStateField
    requires id in BuildIds(db)
    ensures SearchState(db, name, op).Success?
    ensures name in RequestedStates(db, [id], [name]) && id in RequestedStates(db, [id], [name])[name]
    ensures id in SearchState(db, name, op).value <==>
      HasResults(db, id) && op(RequestedStates(db, [id], [name])[name][id])
  {
    var types := StatusTypes(name).value;
    SingleBuildState(db, id, name);
    JoinedRankIsMinRank(db.results, id, types);
    MinRankIsWorstState(db.results, id, types);
    if id in SearchState(db, name, op).value {
      var r :| r in db.results && op(StateOfRank(JoinedRank(db.results, r.build, types)).Label()) && r.build == id;
    }
  }

  /** The corrected search selects a build exactly when the operator holds on
      the status `get_state` reports for it, results or not. */
  lemma SearchStateOverBuildsAgreesWithGetState(db: Db, name: string, op: string -> bool, id: BuildId)
    requires Valid(db)
    requires name == TestStateField || name == FlakeStateField
    requires id in BuildIds(db)
    ensures SearchStateOverBuilds(db, name, op).Success?
    ensures name in RequestedStates(db, [id], [name]) && id in RequestedStates(db, [id], [name])[name]
    ensures id in SearchStateOverBuilds(db, name, op).value <==> op(RequestedStates(db, [id], [name])[name][id])
  {
    var types := StatusTypes(name).value;
    SingleBuildState(db, id, name);
    JoinedRankIsMinRank(db.results, id, types);
    MinRankIsWorstState(db.results, id, types);
    if id in SearchStateOverBuilds(db, name, op).value {
      var b :| b in db.builds && op(StateOfRank(JoinedRank(db.results, b.id, types)).Label()) && b.id == id;
    }
  }

  /** The disagreement between the two paths: a build without results is
      reported as 'pass' by `get_state`, yet searching for `test_state = 'pass'`
      does not find it. */
  lemma BuildWithoutResultsIsMissed(db: Db, id: BuildId)
    requires Valid(db)
    requires id in BuildIds(db)
    requires forall r :: r in db.results ==> r.build != id
    ensures TestStateField in RequestedStates(db, [id], [TestStateField])
    ensures id in RequestedStates(db, [id], [TestStateField])[TestStateField]
    ensures RequestedStates(db, [id], [TestStateField])[TestStateField][id] == "pass"
    ensures id !in SearchState(db, TestStateField, s => s == "pass").value
    ensures id in SearchStateOverBuilds(db, TestStateField, s => s == "pass").value
  {
    SearchStateAgreesWithGetState(db, TestStateField, s => s == "pass", id);
    SearchStateOverBuildsAgreesWithGetState(db, TestStateField, s => s == "pass", id);
    assert !HasState(db.results, id, TestTypes, Error);
    assert !HasState(db.results, id, TestTypes, Fail);
  }
}
