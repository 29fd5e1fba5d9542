# Status roll-up of CI test builds (project_unittest)

This project models the derived status fields of the Tryton module that
records continuous-integration results on project components.

A **test build** is one CI run of one component. A **build result** is one
check within a build: a unit test, a scenario, a flake or pep8 lint check, or
a coverage check. The module derives three fields for each build:

- `test_state`: the worst state among its `unittest`/`scenario` results.
- `flake_state`: the worst state among its `flake`/`pep8` results.
- `coverage_state`: a tier of its coverage percentage (`error` below 50,
  `to_improve` below 60, `acceptable` below 70, `ok` otherwise).

The precedence is error, then fail, then anything else. A component gets its
*last build* (the build with the latest execution time) and copies that
build's three statuses.

The module computes these fields twice:

- on the read side: `get_state`, a batched query per chunk of 300 ids;
- on the search side: `search_coverage_state` and `search_state`, which turn
  a filter on a derived field into a subquery.

The model states both sides as functions over the two tables. It proves each
side against an independent reference definition, and proves where the two
sides agree and where they do not.

Files:

- `records.dfy` (`Records`): the rows (`Build`, `BuildResult`), the
  selections, the defaults of a new result, and the database constraints
  (`Valid`: unique build ids, every result references a build).
- `build_state.dfy` (`BuildState`): the `Min`/`Case` encoding (`Rank`,
  `StateOfRank`, `MinRank`) and the reference worst-of rule (`WorstState`).
  It also holds the coverage ladder (`Tier`) and the query results
  (`CoverageQuery`, `StatusQuery`). `get_state` is the method `GetState` with
  its chunk loop (`QueryChunks`, `QueryStatuses`), specified by the function
  `RequestedStates`.
- `build_search.dfy` (`BuildSearch`): `SearchCoverageState`, `SearchState`,
  the outer-join minimum `JoinedRank`, and a corrected `SearchStateOverBuilds`.
- `component_state.dfy` (`ComponentState`): `MaxExecution`, `LastBuild`,
  `GetLastBuild`, and `ComponentStateOf` (`Component.get_state`).

The query results (`dict(cursor.fetchall())`) are modelled as maps from build
id to the selection key, as the module stores them. A search operator applied
to its clause value is modelled as a predicate `op` on that key.

This version of `test.py` has no build groups and no retention sweep. Group aggregation and
the deletion of old groups are therefore not part of this model.

## Model

| member | source | states |
|---|---|---|
| `Records.FromKeys` | test.py:66-68 | the seeded dictionary holds exactly the given keys, each with the default value |
| `BuildState.Rank` | test.py:92-94 | error encodes as 0 and fail as 1; pass and draft encode as 2, the largest value |
| `BuildState.StateOfRank` | test.py:95-97 | the decoded status is never draft, and decoding inverts `Rank` on 0..2 |
| `BuildState.MinRank` | test.py:92-101 | the read side's `Min` over the build's rows of the types, 2 when there are none; its own contract is only the bound 2, and `MinRankLevels` and `MinRankIsWorstState` characterise it |
| `BuildState.MinRankLevels` | test.py:88-101 | the minimum is 0 iff the build has an error result of the types; it is at most 1 iff it has an error or a failure |
| `BuildState.MinRankIsWorstState` | test.py:92-97 | the `Min`/`Case` encoding yields the worst-of rule: error if any error, else fail if any failure, else pass |
| `BuildState.NeutralResultKeepsRank` | test.py:92-94 | adding a result of another build, of another type, or in state pass or draft leaves the minimum unchanged |
| `BuildState.DefaultResultIsNeutral` | test.py:183-189 | a result with the default type and state (`unittest`, `draft`) changes neither the test status nor the flake status |
| `BuildState.CoverageResultIsNeutral` | test.py:88-91 | a `coverage` result, in any state, changes neither the test status nor the flake status |
| `BuildState.Tier` | test.py:77-80 | the tier is error below 50, to_improve in [50,60), acceptable in [60,70), ok at 70 or above and ok for NULL coverage |
| `BuildState.TierIsMonotone` | test.py:77-80 | more coverage never gives a lower tier |
| `BuildState.CoverageQuery` | test.py:81-83 | the coverage query reports exactly the existing builds of the chunk |
| `BuildState.StatusQuery` | test.py:98-107 | the status query reports exactly the builds having a result of the types; no condition on the requested ids |
| `BuildState.RequestedStates` | test.py:109-118 | the returned mapping holds exactly the requested names among the three derived fields |
| `BuildState.EveryRequestedBuildReported` | test.py:65-83 | every requested id is reported for every requested field; the coverage dictionary holds exactly the requested ids |
| `BuildState.UnrequestedBuildsReported` | test.py:98-107 | once an id is requested, the test and flake dictionaries hold the requested ids plus every build with a relevant result |
| `BuildState.UnmatchedBuildPasses` | test.py:66-67 | a build with no relevant result keeps the default pass |
| `BuildState.ReportedStatesAreWorstOf` | test.py:58-118 | every reported value, requested or not, is the worst-of status (or the coverage tier) that the reference definitions give for that build |
| `BuildState.SingleBuildState` | test.py:58-118 | requesting one field of one build reports the reference value for that build |
| `BuildState.GetState` | test.py:58-118 | the method returns `RequestedStates`: seeded defaults, the chunked queries, and only the requested fields |
| `BuildState.QueryChunks` | test.py:63-107 | processing the ids in chunks of 300 yields the same three dictionaries as processing them at once |
| `BuildState.QueryStatuses` | test.py:84-107 | only requested status names are queried, each into its own dictionary |
| `BuildState.CoverageQueryAppend` | test.py:74-83 | the coverage query of two chunks is the union of the queries of each chunk |
| `BuildSearch.SearchCoverageAgreesWithGetState` | test.py:120-131 | the coverage search selects a build iff the operator holds on the coverage state `get_state` reports for it |
| `BuildSearch.SearchCoverageState` | test.py:120-131 | `search_coverage_state`; its own contract says only existing builds are selected, and `SearchCoverageAgreesWithGetState` characterises it |
| `BuildSearch.JoinedRank` | test.py:149-157 | the minimum over the LEFT self-join, rows of other types counting as 2; its own contract is only the bound 2, and `JoinedRankIsMinRank` characterises it |
| `BuildSearch.JoinedRankIsMinRank` | test.py:149-157 | the outer-join minimum, with other types counted as pass, equals the read side's minimum |
| `BuildSearch.StatusTypes` | test.py:141-147 | test_state selects unittest/scenario, flake_state selects flake/pep8, and any other name is an error |
| `BuildSearch.SearchStateRejectsOtherNames` | test.py:141-147 | `search_state` raises an exception iff the name is neither test_state nor flake_state |
| `BuildSearch.SearchState` | test.py:133-158 | `search_state` as written; its own contract says every selected build has a result row, and `SearchStateAgreesWithGetState` characterises it |
| `BuildSearch.SearchStateOverBuilds` | test.py:133-158 | the corrected search over the build table; its own contract says only existing builds are selected, and `SearchStateOverBuildsAgreesWithGetState` characterises it |
| `BuildSearch.SearchStateAgreesWithGetState` | test.py:133-158 | `search_state` selects a build iff it has at least one result row and the operator holds on the status `get_state` reports |
| `BuildSearch.SearchStateOverBuildsAgreesWithGetState` | test.py:155-157 | the corrected search selects a build iff the operator holds on the status `get_state` reports, results or not |
| `BuildSearch.BuildWithoutResultsIsMissed` | test.py:155-157 | a build with no results is reported as pass by `get_state`, but searching test_state = 'pass' misses it |
| `ComponentState.MaxExecution` | test.py:230-232 | the aggregate is NULL iff no build of the component has an execution time, else the latest execution time among them |
| `ComponentState.LastExecutedAt` | test.py:234-240 | the join keeps a build of the component executed at the given time, if there is one |
| `ComponentState.LastBuild` | test.py:228-240 | the last build is absent iff no build of the component has an execution time; otherwise it is a build with the latest time |
| `ComponentState.GetLastBuild` | test.py:220-241 | every requested component is a key; its value is None iff it has no executed build, else a latest build of that component |
| `ComponentState.ComponentStateOf` | test.py:243-246 | `Component.get_state`: '' iff no build of the component has an execution time; `ComponentStateIsLastBuildState` gives the value otherwise |
| `ComponentState.ReportedLabelIsNotEmpty` | test.py:243-246 | the status reported for one field of one build is never '', so '' always means "no last build" |
| `ComponentState.ComponentStateIsLastBuildState` | test.py:243-246 | a component's status is '' iff it has no executed build; otherwise it is the same-named status of a latest build |

## Findings

| source | as written | input that shows it | evidently intended | confidence | as-written member | corrected member |
|---|---|---|---|---|---|---|
| test.py:155-157 | the `search_state` subquery groups result rows, so only builds with at least one result can be selected | a build with no results, searched with `('test_state', '=', 'pass')` | select every build whose derived status satisfies the clause; `get_state` reports 'pass' for a build without results | medium, not executed | `BuildSearch.BuildWithoutResultsIsMissed` | `BuildSearch.SearchStateOverBuildsAgreesWithGetState` |

The as-written search is `BuildSearch.SearchState`. The corrected search is
`BuildSearch.SearchStateOverBuilds`, which ranges over the build table.

## Left out

- Field declarations, selection labels and the ORM plumbing (`ModelSQL`, `ModelView`, pool registration): these are schema, not behaviour.
- The database cursor, transactions, `reduce_ids` and the rendering of SQL: each query is modelled by the dictionary its rows form.
- `fields.SQL_OPERATORS`: the operator applied to the clause value is an arbitrary predicate on the status key. The semantics of each SQL operator, and the lookup error for an unknown operator, are not modelled.
- The `Coalesce(type, 'none')` of `search_state`: the `type` column is required, so a NULL type never occurs and is not modelled.
- Floating point: coverage is a `real`. It is only compared with the constants 50, 60 and 70.
- `GetLastBuild`: when several builds share the latest execution time, the database's row order decides which one the dictionary keeps. The model keeps the last one in table order. The contract states only that the result is a build with the latest execution time.
- `ComponentStateOf` requires one of the three derived field names: `test.py` calls it only for its own three fields. It reads the last build's field through `get_state` on that one build.
- `GetState` takes the requested build ids: `get_state` uses nothing else of the build records it is given.
- Deleting keys while iterating `result.keys()` (Python 2 versus 3): the model removes the unrequested keys from a fixed list of the three names.
- Build groups, their aggregate statuses and the retention sweep of old groups: they are not in this version of `test.py`.
- configuration.py (a schema-only record and a link table) and __init__.py (registration): no behaviour.
