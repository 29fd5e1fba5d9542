/** The stored rows the status roll-up reads: test builds and their results,
    as the tables `project.test.build` and `project.test.build.result` hold them. */
module Records {

  datatype Option<+T> = None | Some(value: T)

  /** An operation that either yields a value or raises an exception with a message. */
  datatype Outcome<+T> = Success(value: T) | Failure(message: string)

  type BuildId = int
  type ComponentId = int

  /** The `type` selection of a build result. */
  datatype ResultType = Unittest | Scenario | Flake | Pep8 | Coverage

  /** The `state` selection of a build result. The rolled-up test and flake
      status of a build uses the same values except `Draft`. */
  datatype ResultState = Draft | Fail | Error | Pass
  {
    /** The stored selection key. */
    function Label(): string {
      match this
      case Draft => "draft"
      case Fail => "fail"
      case Error => "error"
      case Pass => "pass"
    }
  }

  /** Default `type` and `state` of a freshly created build result. */
  const DefaultType: ResultType := Unittest
  const DefaultState: ResultState := Draft

  /** One row of the result table. `kind` is the `type` column. */
  datatype BuildResult = BuildResult(build: BuildId, kind: ResultType, state: ResultState)

  /** A build result created with every defaulted column left at its default. */
  function NewResult(build: BuildId): BuildResult {
    BuildResult(build, DefaultType, DefaultState)
  }

  /** One row of the build table. `execution` is a timestamp and `coverage` a
      percentage; both columns may be NULL. */
  datatype Build = Build(id: BuildId, component: ComponentId, execution: Option<int>, coverage: Option<real>)

  /** The two tables, each in storage order. */
  datatype Db = Db(builds: seq<Build>, results: seq<BuildResult>)

  /** The names of the three derived fields of a build. */
  const CoverageStateField: string := "coverage_state"
  const FlakeStateField: string := "flake_state"
  const TestStateField: string := "test_state"
  const StateFields: set<string> := {CoverageStateField, FlakeStateField, TestStateField}

  /** The result types rolled up into the test status and into the flake status. */
  const TestTypes: set<ResultType> := {Unittest, Scenario}
  const FlakeTypes: set<ResultType> := {Flake, Pep8}

  function BuildIds(db: Db): set<BuildId> {
    set b | b in db.builds :: b.id
  }

  /** The database constraints the roll-up relies on: `id` is the primary key of
      the build table and every result references an existing build. */
  ghost predicate Valid(db: Db) {
    && (forall i, j :: 0 <= i < j < |db.builds| ==> db.builds[i].id != db.builds[j].id)
    && (forall r :: r in db.results ==> r.build in BuildIds(db))
  }

  /** The build row with the given id, if any. */
  function Find(builds: seq<Build>, id: BuildId): (r: Option<Build>)
    ensures r.Some? ==> r.value in builds && r.value.id == id
    ensures r.None? ==> forall b :: b in builds ==> b.id != id
  {
    if |builds| == 0 then None
    else if builds[0].id == id then Some(builds[0])
    else Find(builds[1..], id)
  }

  /** The coverage column of a build; NULL for a missing build, which no query finds. */
  function CoverageOf(db: Db, id: BuildId): Option<real> {
    match Find(db.builds, id)
    case None => None
    case Some(b) => b.coverage
  }

  /** A dictionary built by `{}.fromkeys(keys, value)`. */
  function FromKeys<K, V>(keys: seq<K>, value: V): (m: map<K, V>)
    ensures m.Keys == set k | k in keys
    ensures forall k :: k in m ==> m[k] == value
  {
    map k | k in keys :: value
  }
}
