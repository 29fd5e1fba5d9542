/** The derived fields `test_state`, `flake_state` and `coverage_state` of a
    test build: the precedence rules, the coverage ladder, and what one
    `get_state` call reports. */
module BuildState {
  import opened Records

  /** The numeric encoding of a result state used inside `Min`:
      error is 0, fail is 1, anything else (pass, draft, or a NULL from an
      unmatched outer join) is 2. */
  function Rank(s: ResultState): (n: nat)
    ensures n == 0 <==> s == Error
    ensures n == 1 <==> s == Fail
    ensures n == 2 <==> s == Pass || s == Draft
  {
    match s
    case Error => 0
    case Fail => 1
    case Pass => 2
    case Draft => 2
  }

  /** The decoding of the minimum back into a status: 0 is error, 1 is fail,
      anything else is pass. A rolled-up status is never draft. */
  function StateOfRank(n: nat): (s: ResultState)
    ensures s != Draft
    ensures n <= 2 ==> Rank(s) == n
  {
    if n == 0 then Error else if n == 1 then Fail else Pass
  }

  function Min(a: nat, b: nat): nat {
    if a <= b then a else b
  }

  /** The minimum encoded state over the results of build `id` whose type is in
      `types` (the inner join of the read side), or 2 when there are none. */
  function MinRank(rs: seq<BuildResult>, id: BuildId, types: set<ResultType>): (n: nat)
    ensures n <= 2
  {
    if |rs| == 0 then 2
    else if rs[0].build == id && rs[0].kind in types then Min(Rank(rs[0].state), MinRank(rs[1..], id, types))
    else MinRank(rs[1..], id, types)
  }

  /** Build `id` has a result of one of `types` in state `s`. */
  ghost predicate HasState(rs: seq<BuildResult>, id: BuildId, types: set<ResultType>, s: ResultState) {
    exists r :: r in rs && r.build == id && r.kind in types && r.state == s
  }

  /** Reference definition of the worst-of rule: error if any relevant result
      is an error, else fail if any is a failure, else pass. */
  ghost function WorstState(rs: seq<BuildResult>, id: BuildId, types: set<ResultType>): ResultState {
    if HasState(rs, id, types, Error) then Error
    else if HasState(rs, id, types, Fail) then Fail
    else Pass
  }

  lemma {:induction false} MinRankLevels(rs: seq<BuildResult>, id: BuildId, types: set<ResultType>)
    ensures MinRank(rs, id, types) == 0 <==> HasState(rs, id, types, Error)
    ensures MinRank(rs, id, types) <= 1 <==> HasState(rs, id, types, Error) || HasState(rs, id, types, Fail)
  {
    if |rs| > 0 {
      MinRankLevels(rs[1..], id, types);
      assert rs == [rs[0]] + rs[1..];
      forall s
        ensures HasState(rs, id, types, s) <==>
          (rs[0].build == id && rs[0].kind in types && rs[0].state == s) || HasState(rs[1..], id, types, s)
      {
        if HasState(rs, id, types, s) {
          var r :| r in rs && r.build == id && r.kind in types && r.state == s;
          if r != rs[0] {
            assert r in rs[1..];
          }
        }
      }
    }
  }

  /** The `Min`/`Case` encoding computes the worst-of rule. */
  lemma {:induction false} MinRankIsWorstState(rs: seq<BuildResult>, id: BuildId, types: set<ResultType>)
    ensures StateOfRank(MinRank(rs, id, types)) == WorstState(rs, id, types)
  {
    MinRankLevels(rs, id, types);
  }

  /** A result that is of another build, of a type outside `types`, or in a
      state that encodes as 2 (pass or draft) leaves the minimum unchanged. */
  lemma {:induction false} NeutralResultKeepsRank(rs: seq<BuildResult>, r: BuildResult, id: BuildId, types: set<ResultType>)
    requires r.build != id || r.kind !in types || r.state == Pass || r.state == Draft
    ensures MinRank(rs + [r], id, types) == MinRank(rs, id, types)
  {
    if |rs| == 0 {
      assert [r][1..] == [];
    } else {
      assert (rs + [r])[1..] == rs[1..] + [r];
      NeutralResultKeepsRank(rs[1..], r, id, types);
    }
  }

  /** A result created with the default type and state counts as a pass: it
      changes neither the test status nor the flake status of any build. */
  lemma DefaultResultIsNeutral(rs: seq<BuildResult>, build: BuildId, id: BuildId)
    ensures MinRank(rs + [NewResult(build)], id, TestTypes) == MinRank(rs, id, TestTypes)
    ensures MinRank(rs + [NewResult(build)], id, FlakeTypes) == MinRank(rs, id, FlakeTypes)
  {
    NeutralResultKeepsRank(rs, NewResult(build), id, TestTypes);
    NeutralResultKeepsRank(rs, NewResult(build), id, FlakeTypes);
  }

  /** A `coverage` result, whatever its state, affects neither status. */
  lemma CoverageResultIsNeutral(rs: seq<BuildResult>, r: BuildResult, id: BuildId)
    requires r.kind == Coverage
    ensures MinRank(rs + [r], id, TestTypes) == MinRank(rs, id, TestTypes)
    ensures MinRank(rs + [r], id, FlakeTypes) == MinRank(rs, id, FlakeTypes)
  {
    NeutralResultKeepsRank(rs, r, id, TestTypes);
    NeutralResultKeepsRank(rs, r, id, FlakeTypes);
  }

  /** The `coverage_state` selection. */
  datatype CoverageTier = CoverageError | ToImprove | Acceptable | Ok
  {
    function Label(): string {
      match this
      case CoverageError => "error"
      case ToImprove => "to_improve"
      case Acceptable => "acceptable"
      case Ok => "ok"
    }

    /** Position on the ladder, worst first. */
    function Level(): nat {
      match this
      case CoverageError => 0
      case ToImprove => 1
      case Acceptable => 2
      case Ok => 3
    }
  }

  /** The coverage ladder with thresholds 50, 60 and 70. A NULL coverage fails
      every comparison and so lands on the `else` branch. */
  function Tier(coverage: Option<real>): (t: CoverageTier)
    ensures coverage.None? ==> t == Ok
    ensures coverage.Some? ==>
      && (t == CoverageError <==> coverage.value < 50.0)
      && (t == ToImprove <==> 50.0 <= coverage.value < 60.0)
      && (t == Acceptable <==> 60.0 <= coverage.value < 70.0)
      && (t == Ok <==> 70.0 <= coverage.value)
  {
    match coverage
    case None => Ok
    case Some(c) =>
      if c < 50.0 then CoverageError
      else if c < 60.0 then ToImprove
      else if c < 70.0 then Acceptable
      else Ok
  }

  /** More coverage never gives a worse tier. */
  lemma TierIsMonotone(x: real, y: real)
    requires x <= y
    ensures Tier(Some(x)).Level() <= Tier(Some(y)).Level()
  {
  }

  /** The value a derived field should have for one build, stated with the
      reference definitions. */
  ghost function BuildField(db: Db, id: BuildId, name: string): string
    requires name in StateFields
  {
    if name == TestStateField then WorstState(db.results, id, TestTypes).Label()
    else if name == FlakeStateField then WorstState(db.results, id, FlakeTypes).Label()
    else Tier(CoverageOf(db, id)).Label()
  }

  /** The builds that have at least one result of one of `types`. */
  function MatchedBuilds(db: Db, types: set<ResultType>): set<BuildId> {
    set r | r in db.results && r.kind in types && r.build in BuildIds(db) :: r.build
  }

  /** The rows of the coverage query for the chunk `subIds`, as a dictionary:
      each existing build of the chunk with its tier. */
  function CoverageQuery(db: Db, subIds: seq<BuildId>): (m: map<BuildId, string>)
    ensures m.Keys == set id | id in subIds && id in BuildIds(db)
  {
    map id | id in subIds && id in BuildIds(db) :: Tier(CoverageOf(db, id)).Label()
  }

  /** The rows of the grouped status query for `types`, as a dictionary. The
      query has no condition on the requested ids, so it reports every build
      that has a result of one of `types`. */
  function StatusQuery(db: Db, types: set<ResultType>): (m: map<BuildId, string>)
    ensures m.Keys == MatchedBuilds(db, types)
  {
    map id | id in MatchedBuilds(db, types) :: StateOfRank(MinRank(db.results, id, types)).Label()
  }

  /** The three dictionaries of `get_state` once every chunk has been processed.
      The status queries run once per chunk and only for requested names; with
      no ids there is no chunk and they do not run at all. */
  function StateMaps(db: Db, buildIds: seq<BuildId>, names: seq<string>): map<string, map<BuildId, string>> {
    var ran := |buildIds| > 0;
    map[CoverageStateField := FromKeys(buildIds, "ok") + CoverageQuery(db, buildIds),
        FlakeStateField := FromKeys(buildIds, "pass") + (if ran && FlakeStateField in names then StatusQuery(db, FlakeTypes) else map[]),
        TestStateField := FromKeys(buildIds, "pass") + (if ran && TestStateField in names then StatusQuery(db, TestTypes) else map[])]
  }

  /** What `get_state` returns: the dictionaries of the requested fields only. */
  function RequestedStates(db: Db, buildIds: seq<BuildId>, names: seq<string>): (r: map<string, map<BuildId, string>>)
    ensures forall name :: name in r <==> name in StateFields && name in names
  {
    var m := StateMaps(db, buildIds, names);
    map name | name in m && name in names :: m[name]
  }

  /** Every requested build id is reported for every requested field, and the
      coverage dictionary holds exactly the requested ids. */
  lemma EveryRequestedBuildReported(db: Db, buildIds: seq<BuildId>, names: seq<string>)
    ensures forall name, id :: name in RequestedStates(db, buildIds, names) && id in buildIds ==>
      id in RequestedStates(db, buildIds, names)[name]
    ensures CoverageStateField in names ==>
      RequestedStates(db, buildIds, names)[CoverageStateField].Keys == set id | id in buildIds
  {
  }

  /** The test and flake dictionaries also report builds that were not
      requested: every build with a result of the relevant types, as soon as at
      least one id was requested. */
  lemma UnrequestedBuildsReported(db: Db, buildIds: seq<BuildId>, names: seq<string>)
    requires |buildIds| > 0
    ensures TestStateField in names ==>
      RequestedStates(db, buildIds, names)[TestStateField].Keys == (set id | id in buildIds) + MatchedBuilds(db, TestTypes)
    ensures FlakeStateField in names ==>
      RequestedStates(db, buildIds, names)[FlakeStateField].Keys == (set id | id in buildIds) + MatchedBuilds(db, FlakeTypes)
  {
  }

  /** A build without results of `types` is not in the status query, and its
      worst state is pass. */
  lemma UnmatchedBuildPasses(db: Db, id: BuildId, types: set<ResultType>)
    requires Valid(db)
    requires id !in MatchedBuilds(db, types)
    ensures WorstState(db.results, id, types) == Pass
  {
  }

  /** Every value `get_state` reports, requested or not, is the value the
      reference definitions give for that build: the worst-of rule for the
      test and flake status (pass by default), the ladder for the coverage
      tier ('ok' by default). */
  lemma ReportedStatesAreWorstOf(db: Db, buildIds: seq<BuildId>, names: seq<string>, name: string, id: BuildId)
    requires Valid(db)
    requires name in RequestedStates(db, buildIds, names)
    requires id in RequestedStates(db, buildIds, names)[name]
    ensures RequestedStates(db, buildIds, names)[name][id] == BuildField(db, id, name)
  {
    var value := RequestedStates(db, buildIds, names)[name][id];
    if name == TestStateField || name == FlakeStateField {
      var types := if name == TestStateField then TestTypes else FlakeTypes;
      if id in MatchedBuilds(db, types) && |buildIds| > 0 && name in names {
        MinRankIsWorstState(db.results, id, types);
      } else {
        UnmatchedBuildPasses(db, id, types);
      }
    } else {
      assert name == CoverageStateField;
      if id !in BuildIds(db) {
        assert Find(db.builds, id).None?;
      }
    }
  }

  /** The status of a build reported on its own is its worst-of status. */
  lemma SingleBuildState(db: Db, id: BuildId, name: string)
    requires Valid(db)
    requires name in StateFields
    ensures name in RequestedStates(db, [id], [name])
    ensures id in RequestedStates(db, [id], [name])[name]
    ensures RequestedStates(db, [id], [name])[name][id] == BuildField(db, id, name)
  {
    EveryRequestedBuildReported(db, [id], [name]);
    ReportedStatesAreWorstOf(db, [id], [name], name, id);
  }

  /** The `get_state` class method: seeds the three dictionaries with the
      defaults and fills them chunk by chunk, then drops the dictionaries
      that were not requested. */
  method GetState(db: Db, buildIds: seq<BuildId>, names: seq<string>) returns (result: map<string, map<BuildId, string>>)
    ensures result == RequestedStates(db, buildIds, names)
  {
    var coverageState, flakeState, testState := QueryChunks(db, buildIds, names);
    result := map[CoverageStateField := coverageState, FlakeStateField := flakeState, TestStateField := testState];
    ghost var full := result;
    FieldNamesDistinct();
    assert full == StateMaps(db, buildIds, names);
    var keys := [CoverageStateField, FlakeStateField, TestStateField];
    var k := 0;
    while k < |keys|
      invariant 0 <= k <= |keys|
      invariant forall key :: key in result <==> key in full && (key in names || key !in keys[..k])
      invariant forall key :: key in result ==> result[key] == full[key]
    {
      if keys[k] !in names {
        result := result - {keys[k]};
      }
      k := k + 1;
    }
    assert keys[..k] == keys;
  }

  /** The chunk loop of `get_state`: the ids are processed in chunks of 300;
      each chunk runs a coverage query restricted to the chunk and, for each
      requested status name, the grouped status query. Splitting into chunks
      does not change any value. */
  method QueryChunks(db: Db, buildIds: seq<BuildId>, names: seq<string>)
    returns (coverageState: map<BuildId, string>, flakeState: map<BuildId, string>, testState: map<BuildId, string>)
    ensures coverageState == StateMaps(db, buildIds, names)[CoverageStateField]
    ensures flakeState == StateMaps(db, buildIds, names)[FlakeStateField]
    ensures testState == StateMaps(db, buildIds, names)[TestStateField]
  {
    var inMax := 300;
    testState := FromKeys(buildIds, "pass");
    flakeState := FromKeys(buildIds, "pass");
    coverageState := FromKeys(buildIds, "ok");
    ghost var testRows := if TestStateField in names then StatusQuery(db, TestTypes) else map[];
    ghost var flakeRows := if FlakeStateField in names then StatusQuery(db, FlakeTypes) else map[];

    var i := 0;
    while i < |buildIds|
      invariant 0 <= i
      invariant i > 0 ==> 0 < |buildIds| && i <= |buildIds| + inMax
      invariant coverageState == FromKeys(buildIds, "ok") + CoverageQuery(db, buildIds[..Clamp(i, |buildIds|)])
      invariant testState == FromKeys(buildIds, "pass") + (if i > 0 then testRows else map[])
      invariant flakeState == FromKeys(buildIds, "pass") + (if i > 0 then flakeRows else map[])
    {
      var end := if i + inMax <= |buildIds| then i + inMax else |buildIds|;
      var subIds := buildIds[i..end];
      assert buildIds[..i] + subIds == buildIds[..end];
      CoverageQueryAppend(db, buildIds[..i], subIds);
      UnionIsAssociative(FromKeys(buildIds, "ok"), CoverageQuery(db, buildIds[..i]), CoverageQuery(db, subIds));
      coverageState := coverageState + CoverageQuery(db, subIds);
      assert Clamp(i + inMax, |buildIds|) == end;

      testState, flakeState := QueryStatuses(db, names, testState, flakeState);
      UnionIsIdempotent(FromKeys(buildIds, "pass"), testRows);
      UnionIsIdempotent(FromKeys(buildIds, "pass"), flakeRows);
      i := i + inMax;
    }
    assert buildIds[..Clamp(i, |buildIds|)] == buildIds;
    StateMapsFields(db, buildIds, names);
  }

  /** The three dictionaries of `StateMaps`, one by one. */
  lemma StateMapsFields(db: Db, buildIds: seq<BuildId>, names: seq<string>)
    ensures StateMaps(db, buildIds, names)[CoverageStateField] == FromKeys(buildIds, "ok") + CoverageQuery(db, buildIds)
    ensures StateMaps(db, buildIds, names)[FlakeStateField] == FromKeys(buildIds, "pass") +
      (if |buildIds| > 0 && FlakeStateField in names then StatusQuery(db, FlakeTypes) else map[])
    ensures StateMaps(db, buildIds, names)[TestStateField] == FromKeys(buildIds, "pass") +
      (if |buildIds| > 0 && TestStateField in names then StatusQuery(db, TestTypes) else map[])
  {
    FieldNamesDistinct();
  }

  lemma FieldNamesDistinct()
    ensures CoverageStateField != FlakeStateField
    ensures CoverageStateField != TestStateField
    ensures FlakeStateField != TestStateField
  {
    assert CoverageStateField[0] == 'c' && FlakeStateField[0] == 'f' && TestStateField[0] == 't';
  }

  function Clamp(i: nat, n: nat): nat {
    if i <= n then i else n
  }

  /** The inner loop of the chunk loop: for each of the two status names that
      was requested, the grouped status query updates that name's dictionary. */
  method QueryStatuses(db: Db, names: seq<string>, testIn: map<BuildId, string>, flakeIn: map<BuildId, string>)
    returns (testState: map<BuildId, string>, flakeState: map<BuildId, string>)
    ensures testState == testIn + (if TestStateField in names then StatusQuery(db, TestTypes) else map[])
    ensures flakeState == flakeIn + (if FlakeStateField in names then StatusQuery(db, FlakeTypes) else map[])
  {
    testState, flakeState := testIn, flakeIn;
    var statusNames := [TestStateField, FlakeStateField];
    var j := 0;
    while j < |statusNames|
      invariant 0 <= j <= |statusNames|
      invariant testState == testIn + (if j > 0 && TestStateField in names then StatusQuery(db, TestTypes) else map[])
      invariant flakeState == flakeIn + (if j > 1 && FlakeStateField in names then StatusQuery(db, FlakeTypes) else map[])
    {
      var name := statusNames[j];
      if name in names {
        var types := if name == TestStateField then TestTypes else FlakeTypes;
        var rows := StatusQuery(db, types);
        if name == TestStateField {
          testState := testState + rows;
        } else {
          flakeState := flakeState + rows;
        }
      }
      j := j + 1;
    }
  }

  lemma UnionIsIdempotent<K, V>(a: map<K, V>, b: map<K, V>)
    ensures (a + b) + b == a + b
  {
  }

  lemma UnionIsAssociative<K, V>(a: map<K, V>, b: map<K, V>, c: map<K, V>)
    ensures (a + b) + c == a + (b + c)
  {
  }

  /** The coverage query of two chunks together is the union of the queries
      of each chunk. */
  lemma CoverageQueryAppend(db: Db, a: seq<BuildId>, b: seq<BuildId>)
    ensures CoverageQuery(db, a + b) == CoverageQuery(db, a) + CoverageQuery(db, b)
  {
  }
}
