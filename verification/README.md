# Drone disaster-response backend, modelled in Dafny

This project models the request handlers of `server.cjs`, the Express/MySQL
backend of a drone disaster-response dashboard. It covers:

- the five analytical queries (`/api/query1` to `/api/query5`);
- the composite `/api/overview`;
- the dropdown lists and the app-user list;
- the five insert routes, with their `|| null` / `|| 0` coercions;
- resolving and deleting a disaster;
- creating or updating an application user.

The database is an immutable record of tables (`Schema.Db`). Each table is a
sequence of row datatypes, and a nullable column is an `Option`.

Every query is a pure function of the database. It is built the way its SQL
reads:

1. an inner join, as a nested-loop `FlatMap`;
2. `GROUP BY`, one row per distinct key of the join;
3. `HAVING`, as a filter;
4. `ORDER BY`, as a sort whose contract says only "sorted, and a permutation
   of its input", because MySQL leaves the order of ties open.

Every mutation maps a database and a request to an `Applied(outcome, db)`.
The outcome is `Ok` (200), `BadRequest` (400), `NotFound` (404) or
`Failed` (500). A failing outcome always leaves the database unchanged.

The storage engine's own checks are part of the model:

- primary keys are unique and not NULL;
- a reference must name an existing row;
- a referenced disaster cannot be deleted (there is no cascade);
- with strict SQL mode, an `ENUM` value outside its list and an over-long
  `VARCHAR` are rejected.

`Schema.Consistent` states these integrity constraints. The lemmas of
`QueryFacts` and `MutationFacts` show two things: the queries say the
intended thing about each drone and disaster under these constraints, and
every mutation preserves them.

Modules:

- `SqlValues` (sql.dfy): NULL, three-valued logic, JavaScript truthiness and
  the ORDER BY orderings.
- `Seqs` (seqs.dfy): filter, count, join, distinct and sort, with their
  lemmas.
- `Schema` (schema.dfy): the tables and `Consistent`.
- `Joins` (joins.dfy): the three join paths.
- `Queries` (queries.dfy): query1 to query5.
- `QueryFacts` (query_facts.dfy): per-drone and per-disaster statements about
  query3 and query4.
- `Reports` (overview.dfy): the overview and the lists.
- `Mutations` (mutations.dfy): the write routes.
- `MutationFacts` (mutation_facts.dfy): consistency, idempotence, and how
  mutations interact with the queries.
- `Scenario` (scenario.dfy): a worked example.

### SQL behaviour worth knowing

The SQL as written has these consequences, and the model keeps them.

- **A NULL payload.** query5 tiers payloads with a `CASE` whose `WHEN`
  branches compare against the payload. For a NULL payload each comparison is
  Unknown, so the `ELSE 'Heavy'` branch is taken and the drone is counted as
  Heavy; it is not left out of every tier. The add-drone route stores a
  payload of 0 as NULL, so such a drone is Heavy too
  (`MutationFacts.FalsyPayloadIsHeavy`).
- **The Medium tier.** It is `BETWEEN 10.01 AND 25`, so a payload strictly
  between 10 and 10.01 is Heavy, not Medium (`Queries.Tier`).
- **Alerts and delete.** ALERTS has no D_ID column. An alert reaches a
  disaster only through its drone, so only DRONE and ASSIGNED_TO can block
  the delete of a disaster.
- **Resolving twice.** The driver's `affectedRows` counts matched rows, so
  resolving an already resolved disaster succeeds and re-stamps its end time.

## Model

| member | source | states |
|---|---|---|
| `SqlValues.AtMost` | server.cjs:218 | `Payload <= 10` is Unknown exactly on a NULL payload, and True exactly when a present payload is at most 10 |
| `SqlValues.Between` | server.cjs:219 | `BETWEEN lo AND hi` is True exactly for a present value in [lo, hi], and Unknown exactly for NULL |
| `SqlValues.InPair` | server.cjs:184 | `IN ('High','Critical')` is True exactly for those two severities, and Unknown exactly for a NULL severity |
| `SqlValues.TextOrNull` | server.cjs:276 | The or-null coercion on text keeps a non-empty value and turns an absent or empty one into NULL; it never stores "" |
| `SqlValues.NumOrNull` | server.cjs:260 | The or-null coercion on a number keeps a non-zero value and turns an absent value or 0 into NULL; it never stores 0 |
| `SqlValues.IntOrZero` | server.cjs:303 | The or-zero coercion of People_Aided stores any present count as it is (0 stays 0) and turns an absent count into 0 |
| `Joins.MissionJoinBag` | server.cjs:143-146 | each linked chain of disaster, drone, alert and mission occurs in the join as often as the product of its rows' multiplicities; an unlinked chain never occurs |
| `Joins.MissionJoinMember` | server.cjs:143-146 | a chain is in the join if and only if its three ON conditions hold and all four rows are stored |
| `Joins.SevereJoinMember` | server.cjs:182-184 | an alert/drone pair is joined if and only if both are stored, the alert names the drone, and its severity is High or Critical |
| `Joins.OngoingJoinMember` | server.cjs:201-203 | a disaster/drone pair is joined if and only if both are stored, the disaster has no end time, and the drone is deployed to it |
| `Queries.Average` | server.cjs:141 | AVG is NULL exactly when every value in the group is NULL |
| `Queries.SumOf` | server.cjs:200 | SUM is NULL exactly when every value in the group is NULL |
| `Queries.TypeGroupsComplete` | server.cjs:147 | every disaster type that occurs in the join has a group |
| `Queries.Query1Shape` | server.cjs:147-149 | any ordering of the HAVING result has one row per type, each row being that type's group, and holds exactly the types with more than one mission row |
| `Queries.Query1` | server.cjs:138-149 | query1 lists exactly the types with more than one joined mission row, once each, with the count and average of that type, by average descending with NULL last |
| `Queries.Query2` | server.cjs:160-169 | query2 lists each operator with no assignment to an ongoing disaster (every copy of such an operator), and no one else, ordered by name with NULL first |
| `Queries.Query3Shape` | server.cjs:181-185 | any ordering of the groups has one row per joined drone group, counting that group's joined alerts (at least one), and misses no group |
| `Queries.Query3` | server.cjs:180-186 | query3 lists each (drone, model) group of High/Critical alerts once, with its alert count, by count descending |
| `Queries.LoadGroupsFacts` | server.cjs:198-204 | the groups of the query4 join each carry their own drone count (at least one) and payload sum, and cover every joined pair |
| `Queries.Query4` | server.cjs:197-204 | query4 has one row per (disaster, type) group of ongoing disasters with drones; the row carries its count and rounded payload sum, and no group is missing or repeated |
| `Queries.Tier` | server.cjs:217-221 | the payload tier is Light for a payload of at most 10, Medium for one in [10.01, 25], and Heavy otherwise, including NULL |
| `Queries.TierGroup` | server.cjs:222-224 | a tier has a group row exactly when some drone falls in it, and that row counts those drones |
| `Queries.TierPartition` | server.cjs:217-222 | every drone falls in exactly one tier: the three counts add up to the number of drones |
| `Queries.TierLabelOrder` | server.cjs:225 | the labels order as 'Heavy' < 'Light' < 'Medium' |
| `Queries.TierRowsOrdered` | server.cjs:225 | the Heavy, Light and Medium groups, in that order, are strictly increasing by label |
| `Queries.Query5Total` | server.cjs:222 | the tier counts of query5 add up to the number of drones |
| `Queries.Query5Shape` | server.cjs:216-225 | every tier row counts exactly its drones, every drone's tier is listed, the counts total the number of drones, and the rows are strictly ordered by label |
| `Queries.Query5` | server.cjs:215-225 | query5 has one row per tier that holds a drone, counting exactly that tier's drones; the counts total the number of drones, and the rows are strictly ordered by label |
| `QueryFacts.SevereGroupCount` | server.cjs:181-185 | under unique drone numbers, a stored drone's group in the query3 join counts exactly that drone's High and Critical alerts |
| `QueryFacts.Query3Flags` | server.cjs:180-186 | under the integrity constraints, query3 lists a drone if and only if it has a High or Critical alert, and its row carries the drone's model and that alert count |
| `QueryFacts.Query3Drones` | server.cjs:182-183 | every drone listed by query3 is a stored drone |
| `QueryFacts.OngoingGroupCount` | server.cjs:199-204 | a stored disaster's group in the query4 join counts its deployed drones while it is ongoing, and nothing once it is resolved |
| `QueryFacts.Query4Load` | server.cjs:197-204 | under the integrity constraints, query4 lists a disaster if and only if it is ongoing and has a drone; its row carries the disaster's type and its number of drones |
| `QueryFacts.Query4Ongoing` | server.cjs:201-203 | every row of query4 is an ongoing stored disaster |
| `Reports.ActiveDisasters` | server.cjs:77-79 | the active count is the number of stored disasters whose End_Time is NULL; so it is at most the number of disasters, and positive exactly when some disaster is ongoing |
| `Reports.OngoingMissionIdsMember` | server.cjs:81-88 | a mission id is counted if and only if a stored disaster, drone and alert link it to an ongoing disaster |
| `Reports.OngoingMissions` | server.cjs:81-88 | COUNT(DISTINCT MR_ID) is the number of such mission ids, and never more than the stored mission reports |
| `Reports.Summarize` | server.cjs:106 | the status is 'Ongoing' exactly when End_Time is NULL, and 'Resolved' exactly when it is set |
| `Reports.DisastersByStart` | server.cjs:108 | all disasters, latest start first, NULL starts last |
| `Reports.RecentCount` | server.cjs:109 | LIMIT 5 keeps all rows when there are fewer than five, and five otherwise |
| `Reports.RecentDisasters` | server.cjs:100-110 | the overview lists min(5, n) summaries, latest start first; each summarizes a stored disaster, and no disaster appears more often than it is stored |
| `Reports.RecentAreLatest` | server.cjs:108-109 | a disaster left out of the five started no later than any listed one |
| `Reports.Personnel` | server.cjs:112-116 | the personnel list projects every operator, once per row, ordered by name with NULL first |
| `Reports.Overview` | server.cjs:75-126 | activeDisasters is the number of disasters with NULL End_Time; ongoingMissions is the number of distinct mission ids reached from an ongoing disaster, never more than completedMissions, which counts all mission reports; totalDrones counts every drone; maintenanceDrones is 0; disasters is the recent-disaster list (at most five, latest start first); personnel is the personnel list (every operator once per row, ordered by name with NULL first) |
| `Reports.DisasterList` | server.cjs:47-52 | the disaster dropdown is the disasters ordered by start time descending, projected to (D_ID, Name) |
| `Reports.DroneList` | server.cjs:53-58 | the drone dropdown projects every drone, ordered by D_NO |
| `Reports.OperatorList` | server.cjs:59-64 | the operator dropdown projects every operator, ordered by name with NULL first |
| `Reports.MissionList` | server.cjs:65-70 | the mission dropdown holds every MR_ID, in descending order |
| `Reports.UserList` | server.cjs:427-432 | the user list projects every user to (Username, Role), leaving out the password, ordered by username |
| `Reports.UserListStrict` | server.cjs:430 | with Username the primary key, the user list is strictly increasing, so its order is fully determined |
| `Mutations.AddDisaster` | server.cjs:238-251 | succeeds exactly for a non-NULL, fresh D_ID and then appends the request's row with no end time (so it is ongoing) and touches no other table; otherwise 500 and no change |
| `Mutations.AddDrone` | server.cjs:254-267 | succeeds exactly for a fresh D_NO whose D_ID is NULL or stored; payload and flying hours go through the or-null coercion; otherwise 500 and no change |
| `Mutations.AddOperator` | server.cjs:270-283 | succeeds exactly for a fresh O_ID; the certification goes through the or-null coercion; otherwise 500 and no change |
| `Mutations.AddMission` | server.cjs:286-314 | succeeds exactly for a fresh MR_ID; the three measurements go through the or-null coercion and People_Aided through the or-zero coercion; otherwise 500 and no change |
| `Mutations.AddAlert` | server.cjs:317-330 | succeeds exactly for a fresh A_ID whose MR_ID and D_NO are NULL or stored; Resolution and Type go through the or-null coercion; otherwise 500 and no change |
| `Mutations.Stamp` | server.cjs:337 | the UPDATE keeps every row in place with its key and changes only End_Time: matched rows end at `now`, every other row stays as it was |
| `Mutations.ResolveDisaster` | server.cjs:333-348 | 404 (with no change) exactly when no disaster has the id; otherwise only the matching rows get End_Time = now, and nothing else changes |
| `Mutations.DeleteDisaster` | server.cjs:353-387 | 400 for a falsy D_ID, 404 for an unknown one, 500 when a drone or an assignment references it; otherwise the id is gone and every other row stays |
| `Mutations.DeleteRemovesOne` | server.cjs:362-365 | with D_ID a key, a successful delete removes exactly one row and keeps the order of the rest |
| `Mutations.ParseRole` | server.cjs:35 | the role column accepts exactly 'viewer' and 'editor' |
| `Mutations.ReplaceUser` | server.cjs:409 | the duplicate-key update keeps every username in its place, puts the new row where its username was, and leaves rows of any other username exactly as often as they were |
| `Mutations.UpsertUser` | server.cjs:393-424 | 400 exactly when username or role is falsy, 500 exactly when the row does not fit the columns, never 404; on success the saved row is present, the table grows by at most one, and other users stay |
| `MutationFacts.AddDisasterConsistent` | server.cjs:241-245 | add-disaster preserves the integrity constraints |
| `MutationFacts.AddDroneConsistent` | server.cjs:257-261 | add-drone preserves the integrity constraints |
| `MutationFacts.AddOperatorConsistent` | server.cjs:273-277 | add-operator preserves the integrity constraints |
| `MutationFacts.AddMissionConsistent` | server.cjs:295-305 | add-mission preserves the integrity constraints |
| `MutationFacts.AddAlertConsistent` | server.cjs:320-324 | add-alert preserves the integrity constraints |
| `MutationFacts.FalsyPayloadIsHeavy` | server.cjs:260 | a drone added with payload 0 or none raises the Heavy count of query5 by one |
| `MutationFacts.StampTwice` | server.cjs:337 | stamping twice equals stamping once with the second time |
| `MutationFacts.ResolveTwice` | server.cjs:336-343 | resolving again succeeds and leaves the database as a single resolve at the later time would |
| `MutationFacts.ResolvedLeavesQuery4` | server.cjs:336-339 | after a successful resolve no disaster with the id is ongoing, and query4 no longer lists it |
| `MutationFacts.ResolveKeepsIds` | server.cjs:337 | resolving neither adds nor removes a disaster id |
| `MutationFacts.ResolveConsistent` | server.cjs:336-339 | resolve preserves the integrity constraints |
| `MutationFacts.DeleteOwnedFails` | server.cjs:378-385 | a disaster that still owns a drone cannot be deleted: 500, and the row stays |
| `MutationFacts.RemoveUnreferenced` | server.cjs:362-365 | removing an unreferenced disaster breaks no reference |
| `MutationFacts.DeletedLeavesQuery4` | server.cjs:362-365 | after a successful delete query4 no longer lists the disaster |
| `MutationFacts.DeleteConsistent` | server.cjs:353-387 | delete preserves the integrity constraints |
| `MutationFacts.UpsertOneRow` | server.cjs:405-411 | after a successful upsert exactly one row carries the username, with the new password and role; the table grows exactly when the username was new |
| `MutationFacts.UpsertKeyed` | server.cjs:407-409 | saving a row keeps APP_USERS keyed by Username, and the row is stored |
| `MutationFacts.UpsertConsistent` | server.cjs:405-411 | the upsert preserves the integrity constraints, including the column widths |
| `MutationFacts.UpsertIdempotent` | server.cjs:405-411 | repeating the same upsert changes nothing more |
| `MutationFacts.AssignmentHidesOperator` | server.cjs:163-168 | an operator assigned to an ongoing disaster is not listed by query2 |
| `MutationFacts.ResolveFreesOperator` | server.cjs:163-168 | resolving the only disaster an operator is assigned to makes the operator available in query2 |
| `Scenario.FloodQuery3` | server.cjs:180-186 | for an ongoing flood whose drone DR1 raised one High alert, query3 lists DR1 with count 1 |
| `Scenario.FloodQuery4` | server.cjs:197-204 | in the same database query4 lists D1 with one active drone |
| `Scenario.FloodQuery5` | server.cjs:215-225 | in the same database query5 is the single row (Heavy, 1) |

## Left out

- The HTTP layer: Express routing, CORS, JSON parsing, static files, the
  index page and the response messages. A route is modelled as its SQL plus
  its status code.
- The database connection, its credentials and start-up. Any storage
  failure other than a rejected statement (a lost connection, a timeout) is
  not modelled. Such a failure would make every route answer 500 without a
  change.
- Concurrency between requests. Each operation is applied alone to one
  database state.
- The server clock. `NOW()` is the parameter `now` of `ResolveDisaster`.
- Decimal rounding. `ROUND(x, 2)` is the uninterpreted parameter `round2`.
  `AVG` and `SUM` are exact over real numbers, not MySQL DECIMAL or DOUBLE
  arithmetic.
- Collations. Text comparison and `ORDER BY` use code-point order. MySQL's
  default collation is case-insensitive and would also treat differently
  cased usernames and ENUM values alike. Here 'Viewer' is rejected and
  'Alice' and 'alice' are distinct users.
- The types of the JSON body. Fields are modelled as the types of their
  columns: a request field is absent or holds a value of the column's type.
  MySQL's implicit conversion of a string to a number is not modelled.
- The DDL of the domain tables is not in the source. `Consistent` assumes
  their keys and five foreign keys: DRONE.D_ID, ASSIGNED_TO.O_ID,
  ASSIGNED_TO.D_ID, ALERTS.MR_ID and ALERTS.D_NO. Inserts accept an
  empty-string key, because no route checks for one.
- Mutations.AddDisaster, Mutations.AddDrone, Mutations.AddOperator,
  Mutations.AddMission and Mutations.AddAlert: their "succeeds exactly when"
  assumes that no non-key column of the domain tables has a NOT NULL, ENUM,
  CHECK, width or integer-range limit. So an alert of any Severity, a
  disaster with a NULL Name, Type or Start_Time, and any People_Aided are
  accepted. Under strict SQL mode any such limit in the real DDL would turn
  that success into a 500 with no change, which the model does not promise.
- Queries.Query2: ASSIGNED_TO's O_ID and D_ID are modelled as non-NULL,
  because its DDL is not in the source. A NULL O_ID on an assignment to an
  ongoing disaster would make `NOT IN` Unknown for every operator and empty
  query2. The model does not promise that outcome.
- Query4 has no `ORDER BY`. The model lists its groups in join order, and its
  contract does not state any order.
- Logging and the `console` output of each route.
- Assigning an operator to a disaster (ASSIGNED_TO rows) has no route. The
  `MutationFacts.Assign` helper exists only to state how query2 responds.
- The client pages (the dashboard component) are not part of this model.
