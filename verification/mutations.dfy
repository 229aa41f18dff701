/**
 * The mutation routes: the five plain inserts with the `|| null` / `|| 0`
 * coercions they apply to request fields, resolving and deleting a disaster,
 * and the create-or-update of an application user. Each operation maps a
 * database and a request to an outcome and the database afterwards; every
 * failing outcome leaves the database as it was, as a rejected statement does.
 *
 * The storage engine's checks are part of the model: a NULL or duplicate
 * primary key, a reference to a missing row, a delete of a referenced
 * disaster, an ENUM value outside the list and an over-long VARCHAR are all
 * rejected (strict SQL mode), and the route answers 500.
 */
module Mutations {
  import opened SqlValues
  import opened Seqs
  import opened Schema

  /** The response of a mutation route: 200, 400, 404 or 500. */
  datatype Outcome = Ok | BadRequest | NotFound | Failed

  datatype Applied = Applied(outcome: Outcome, db: Db)

  /** A reference column holding `r` points at an existing key, or is NULL. */
  predicate RefersInto(r: Option<Id>, keys: set<Id>) {
    r.None? || r.value in keys
  }

  // =====================================================================
  // Inserts
  // =====================================================================

  /** `v || null` stored `stored`: NULL for a falsy number, else the number. */
  predicate NumStored(stored: Option<real>, v: Option<real>) {
    (stored.None? <==> !TruthyNum(v)) && (stored.Some? ==> stored == v)
  }

  /** `v || null` stored `stored`: NULL for a falsy text, else the text. */
  predicate TextStored(stored: Option<string>, v: Option<string>) {
    (stored.None? <==> !TruthyText(v)) && (stored.Some? ==> stored == v)
  }

  /** An absent field of the request body is `None`; the driver binds it as NULL. */
  datatype DisasterInput = DisasterInput(
    id: Option<Id>, name: Option<string>, kind: Option<string>,
    location: Option<string>, startTime: Option<Timestamp>)

  /** The stored row carries the request's fields and no End_Time. */
  predicate StoredDisaster(d: Disaster, req: DisasterInput) {
    Some(d.id) == req.id && d.name == req.name && d.kind == req.kind &&
    d.location == req.location && d.startTime == req.startTime && IsOngoing(d)
  }

  /** POST /api/add-disaster: the fields are stored as given; End_Time is not
      supplied, so the new disaster is ongoing. */
  function AddDisaster(db: Db, req: DisasterInput): (r: Applied)
    ensures r.outcome == Ok || r.outcome == Failed
    ensures r.outcome == Ok <==> req.id.Some? && req.id.value !in DisasterIds(db)
    ensures r.outcome == Failed ==> r.db == db
    ensures r.outcome == Ok ==> r.db == db.(disasters := r.db.disasters)
    ensures r.outcome == Ok ==> exists d :: r.db.disasters == db.disasters + [d] && StoredDisaster(d, req)
  {
    if req.id.None? || req.id.value in DisasterIds(db) then Applied(Failed, db)
    else
      var d := Disaster(req.id.value, req.name, req.kind, req.location, req.startTime, None);
      Applied(Ok, db.(disasters := db.disasters + [d]))
  }

  datatype DroneInput = DroneInput(
    no: Option<Id>, model: Option<string>, payload: Option<real>,
    flyingHours: Option<real>, disaster: Option<Id>)

  predicate StoredDrone(dr: Drone, req: DroneInput) {
    Some(dr.no) == req.no && dr.model == req.model && dr.disaster == req.disaster &&
    NumStored(dr.payload, req.payload) && NumStored(dr.flyingHours, req.flyingHours)
  }

  /** POST /api/add-drone: `Payload || null` and `Flying_Hours || null`, so a
      zero is stored as NULL; D_ID must name a stored disaster or be NULL. */
  function AddDrone(db: Db, req: DroneInput): (r: Applied)
    ensures r.outcome == Ok || r.outcome == Failed
    ensures r.outcome == Ok <==>
      req.no.Some? && req.no.value !in DroneIds(db) && RefersInto(req.disaster, DisasterIds(db))
    ensures r.outcome == Failed ==> r.db == db
    ensures r.outcome == Ok ==> r.db == db.(drones := r.db.drones)
    ensures r.outcome == Ok ==> exists dr :: r.db.drones == db.drones + [dr] && StoredDrone(dr, req)
  {
    if req.no.None? || req.no.value in DroneIds(db) || !RefersInto(req.disaster, DisasterIds(db)) then
      Applied(Failed, db)
    else
      var dr := Drone(req.no.value, req.model, NumOrNull(req.payload), NumOrNull(req.flyingHours), req.disaster);
      Applied(Ok, db.(drones := db.drones + [dr]))
  }

  datatype OperatorInput = OperatorInput(id: Option<Id>, name: Option<string>, certification: Option<string>)

  predicate StoredOperator(o: Operator, req: OperatorInput) {
    Some(o.id) == req.id && o.name == req.name && TextStored(o.certification, req.certification)
  }

  /** POST /api/add-operator: `Certification || null`, so an empty
      certification is stored as NULL. */
  function AddOperator(db: Db, req: OperatorInput): (r: Applied)
    ensures r.outcome == Ok || r.outcome == Failed
    ensures r.outcome == Ok <==> req.id.Some? && req.id.value !in OperatorIds(db)
    ensures r.outcome == Failed ==> r.db == db
    ensures r.outcome == Ok ==> r.db == db.(operators := r.db.operators)
    ensures r.outcome == Ok ==> exists o :: r.db.operators == db.operators + [o] && StoredOperator(o, req)
  {
    if req.id.None? || req.id.value in OperatorIds(db) then Applied(Failed, db)
    else
      var o := Operator(req.id.value, req.name, TextOrNull(req.certification));
      Applied(Ok, db.(operators := db.operators + [o]))
  }

  datatype MissionInput = MissionInput(
    id: Option<Id>, batteryRemaining: Option<real>, distanceCovered: Option<real>,
    successRate: Option<real>, peopleAided: Option<int>)

  /** People_Aided is the given count, or 0 when it is absent, null or 0. */
  predicate StoredMission(m: MissionReport, req: MissionInput) {
    Some(m.id) == req.id &&
    NumStored(m.batteryRemaining, req.batteryRemaining) &&
    NumStored(m.distanceCovered, req.distanceCovered) &&
    NumStored(m.successRate, req.successRate) &&
    m.peopleAided == (if req.peopleAided.Some? then req.peopleAided.value else 0)
  }

  /** POST /api/add-mission: the three measurements go through `|| null`
      and People_Aided through `|| 0`. */
  function AddMission(db: Db, req: MissionInput): (r: Applied)
    ensures r.outcome == Ok || r.outcome == Failed
    ensures r.outcome == Ok <==> req.id.Some? && req.id.value !in MissionIds(db)
    ensures r.outcome == Failed ==> r.db == db
    ensures r.outcome == Ok ==> r.db == db.(missions := r.db.missions)
    ensures r.outcome == Ok ==> exists m :: r.db.missions == db.missions + [m] && StoredMission(m, req)
  {
    if req.id.None? || req.id.value in MissionIds(db) then Applied(Failed, db)
    else
      var m := MissionReport(req.id.value, NumOrNull(req.batteryRemaining), NumOrNull(req.distanceCovered),
        NumOrNull(req.successRate), IntOrZero(req.peopleAided));
      Applied(Ok, db.(missions := db.missions + [m]))
  }

  datatype AlertInput = AlertInput(
    id: Option<Id>, resolution: Option<string>, mission: Option<Id>, kind: Option<string>,
    severity: Option<string>, time: Option<Timestamp>, drone: Option<Id>)

  predicate StoredAlert(a: Alert, req: AlertInput) {
    Some(a.id) == req.id && a.mission == req.mission && a.drone == req.drone &&
    a.severity == req.severity && a.time == req.time &&
    TextStored(a.resolution, req.resolution) && TextStored(a.kind, req.kind)
  }

  /** POST /api/add-alert: `Resolution || null` and `Type || null`; MR_ID and
      D_NO must name stored rows or be NULL. */
  function AddAlert(db: Db, req: AlertInput): (r: Applied)
    ensures r.outcome == Ok || r.outcome == Failed
    ensures r.outcome == Ok <==>
      req.id.Some? && req.id.value !in AlertIds(db) &&
      RefersInto(req.mission, MissionIds(db)) && RefersInto(req.drone, DroneIds(db))
    ensures r.outcome == Failed ==> r.db == db
    ensures r.outcome == Ok ==> r.db == db.(alerts := r.db.alerts)
    ensures r.outcome == Ok ==> exists a :: r.db.alerts == db.alerts + [a] && StoredAlert(a, req)
  {
    if req.id.None? || req.id.value in AlertIds(db) ||
       !RefersInto(req.mission, MissionIds(db)) || !RefersInto(req.drone, DroneIds(db)) then
      Applied(Failed, db)
    else
      var a := Alert(req.id.value, TextOrNull(req.resolution), req.mission, TextOrNull(req.kind),
        req.severity, req.time, req.drone);
      Applied(Ok, db.(alerts := db.alerts + [a]))
  }

  // =====================================================================
  // Resolve a disaster
  // =====================================================================

  /** `WHERE D_ID = ?`: a NULL parameter compares Unknown and matches nothing. */
  function MatchesId(id: Option<Id>): Disaster -> bool {
    (d: Disaster) => Some(d.id) == id
  }

  function StampRow(d: Disaster, id: Option<Id>, now: Timestamp): Disaster {
    if Some(d.id) == id then d.(endTime := Some(now)) else d
  }

  /** The resolve update, which sets the end time of the rows whose id
      matches: rows stay in place with their keys, only End_Time can change,
      the matched rows end at `now` and every other row is left as it was. */
  function Stamp(ds: seq<Disaster>, id: Option<Id>, now: Timestamp): (r: seq<Disaster>)
    ensures |r| == |ds|
    ensures forall i :: 0 <= i < |ds| ==> r[i].id == ds[i].id
    ensures forall i :: 0 <= i < |ds| ==> r[i] == ds[i].(endTime := r[i].endTime)
    ensures forall i :: 0 <= i < |ds| && Some(ds[i].id) == id ==> r[i].endTime == Some(now)
    ensures forall i :: 0 <= i < |ds| && Some(ds[i].id) != id ==> r[i] == ds[i]
  {
    seq(|ds|, i requires 0 <= i < |ds| => StampRow(ds[i], id, now))
  }

  /** POST /api/resolve-disaster with the server clock reading `now`.
      affectedRows counts the matched rows, so the route answers 404 exactly
      when no disaster has the id, and a resolved disaster can be resolved
      again. */
  function ResolveDisaster(db: Db, id: Option<Id>, now: Timestamp): (r: Applied)
    ensures r.outcome == Ok || r.outcome == NotFound
    ensures r.outcome == NotFound <==> forall d :: d in db.disasters ==> Some(d.id) != id
    ensures r.outcome == NotFound ==> r.db == db
    ensures r.db == db.(disasters := r.db.disasters)
    ensures |r.db.disasters| == |db.disasters|
    ensures forall i :: 0 <= i < |db.disasters| ==>
      r.db.disasters[i].id == db.disasters[i].id &&
      r.db.disasters[i].endTime == (if Some(db.disasters[i].id) == id then Some(now) else db.disasters[i].endTime) &&
      r.db.disasters[i] == db.disasters[i].(endTime := r.db.disasters[i].endTime)
  {
    if Count(db.disasters, MatchesId(id)) == 0 then
      assert forall d :: d in db.disasters ==> Some(d.id) != id by {
        forall d | d in db.disasters
          ensures Some(d.id) != id
        {
          if Some(d.id) == id {
            CountPositive(db.disasters, MatchesId(id), d);
          }
        }
      }
      assert Stamp(db.disasters, id, now) == db.disasters;
      Applied(NotFound, db)
    else
      assert Filter(db.disasters, MatchesId(id))[0] in db.disasters;
      Applied(Ok, db.(disasters := Stamp(db.disasters, id, now)))
  }

  // =====================================================================
  // Delete a disaster
  // =====================================================================

  /** A drone or an assignment still references the disaster; ALERTS has no
      D_ID column and reaches a disaster only through its drone. */
  predicate Referenced(db: Db, id: Id) {
    (exists dr :: dr in db.drones && dr.disaster == Some(id)) ||
    (exists a :: a in db.assignments && a.disaster == id)
  }

  function OtherThan(id: Id): Disaster -> bool {
    (d: Disaster) => d.id != id
  }

  /** POST /api/delete-disaster: 400 for a falsy D_ID, 404 when no row has
      it, 500 when the foreign keys of DRONE or ASSIGNED_TO reject the delete
      (there is no cascade), and otherwise the row is gone. */
  function DeleteDisaster(db: Db, id: Option<Id>): (r: Applied)
    ensures r.outcome == BadRequest <==> !TruthyText(id)
    ensures r.outcome == NotFound <==> TruthyText(id) && id.value !in DisasterIds(db)
    ensures r.outcome == Failed <==> TruthyText(id) && id.value in DisasterIds(db) && Referenced(db, id.value)
    ensures r.outcome != Ok ==> r.db == db
    ensures r.outcome == Ok ==> r.db == db.(disasters := r.db.disasters)
    ensures r.outcome == Ok ==> id.value !in DisasterIds(r.db)
    ensures r.outcome == Ok ==> forall d: Disaster :: d.id != id.value ==>
      multiset(r.db.disasters)[d] == multiset(db.disasters)[d]
  {
    if !TruthyText(id) then Applied(BadRequest, db)
    else if id.value !in DisasterIds(db) then Applied(NotFound, db)
    else if Referenced(db, id.value) then Applied(Failed, db)
    else Applied(Ok, db.(disasters := Filter(db.disasters, OtherThan(id.value))))
  }

  /** `after` is `before` without its row at `i`, which has key `id`. */
  predicate RemovedAt(before: seq<Disaster>, after: seq<Disaster>, i: nat, id: Id) {
    i < |before| && before[i].id == id && after == before[..i] + before[i + 1..]
  }

  /** With D_ID the primary key, a successful delete removes exactly one row. */
  lemma DeleteRemovesOne(db: Db, id: Option<Id>)
    requires UniqueBy(db.disasters, DisasterKey)
    requires DeleteDisaster(db, id).outcome == Ok
    ensures exists i :: 0 <= i < |db.disasters| && RemovedAt(db.disasters, DeleteDisaster(db, id).db.disasters, i, id.value)
  {
    var ds := db.disasters;
    var after := DeleteDisaster(db, id).db.disasters;
    assert id.value in DisasterIds(db);
    assert after == Filter(ds, OtherThan(id.value));
    var d :| d in ds && d.id == id.value;
    var i :| 0 <= i < |ds| && ds[i] == d;
    forall j | 0 <= j < |ds| && j != i
      ensures OtherThan(id.value)(ds[j])
    {
      assert DisasterKey(ds[j]) != DisasterKey(ds[i]);
    }
    FilterDropsOne(ds, OtherThan(id.value), i);
    assert RemovedAt(ds, after, i, id.value);
  }


  // =====================================================================
  // Create or update an application user
  // =====================================================================

  /** The ENUM('viewer','editor') column accepts exactly these two values. */
  function ParseRole(s: string): (r: Option<Role>)
    ensures r == Some(Viewer) <==> s == "viewer"
    ensures r == Some(Editor) <==> s == "editor"
  {
    if s == "viewer" then Some(Viewer)
    else if s == "editor" then Some(Editor)
    else None
  }

  /** The row fits the column types of APP_USERS; any other row is rejected. */
  predicate FitsUserColumns(username: string, password: Option<string>, role: string) {
    ParseRole(role).Some? && |username| <= UsernameWidth &&
    (password.None? || |password.value| <= PasswordWidth)
  }

  /** Overwrite every row with `u`'s username: usernames stay in place, the
      overwritten rows become `u`, and rows of any other username occur
      exactly as often as before. */
  function ReplaceUser(users: seq<AppUser>, u: AppUser): (r: seq<AppUser>)
    ensures |r| == |users|
    ensures forall i :: 0 <= i < |users| ==> r[i].username == users[i].username
    ensures forall i :: 0 <= i < |users| && users[i].username == u.username ==> r[i] == u
    ensures forall x: AppUser :: x.username != u.username ==> multiset(r)[x] == multiset(users)[x]
  {
    var r := seq(|users|, i requires 0 <= i < |users| => if users[i].username == u.username then u else users[i]);
    assert forall x: AppUser :: x.username != u.username ==> multiset(r)[x] == multiset(users)[x] by {
      forall x: AppUser | x.username != u.username
        ensures multiset(r)[x] == multiset(users)[x]
      {
        SameOccurrences(r, users, x);
      }
    }
    r
  }

  /** ON DUPLICATE KEY UPDATE: overwrite the row with the username, or add one. */
  function SaveUser(users: seq<AppUser>, u: AppUser): seq<AppUser> {
    if exists x :: x in users && x.username == u.username then ReplaceUser(users, u)
    else users + [u]
  }

  /** POST /api/app-users/create: 400 unless username and role are truthy;
      `password || null` stores an empty password as NULL. */
  function UpsertUser(db: Db, username: Option<string>, password: Option<string>, role: Option<string>): (r: Applied)
    ensures r.outcome == BadRequest <==> !TruthyText(username) || !TruthyText(role)
    ensures r.outcome == Failed <==>
      TruthyText(username) && TruthyText(role) && !FitsUserColumns(username.value, TextOrNull(password), role.value)
    ensures r.outcome != NotFound
    ensures r.outcome != Ok ==> r.db == db
    ensures r.outcome == Ok ==> r.db == db.(users := r.db.users)
    ensures r.outcome == Ok ==>
      AppUser(username.value, TextOrNull(password), ParseRole(role.value).value) in r.db.users
    ensures r.outcome == Ok ==> |db.users| <= |r.db.users| <= |db.users| + 1
    ensures r.outcome == Ok ==> forall x: AppUser :: x.username != username.value ==>
      multiset(r.db.users)[x] == multiset(db.users)[x]
  {
    if !TruthyText(username) || !TruthyText(role) then Applied(BadRequest, db)
    else if !FitsUserColumns(username.value, TextOrNull(password), role.value) then Applied(Failed, db)
    else
      var u := AppUser(username.value, TextOrNull(password), ParseRole(role.value).value);
      var users := SaveUser(db.users, u);
      assert u in users by {
        if x :| x in db.users && x.username == u.username {
          var i :| 0 <= i < |db.users| && db.users[i] == x;
          assert users[i] == u;
        }
      }
      Applied(Ok, db.(users := users))
  }

}
