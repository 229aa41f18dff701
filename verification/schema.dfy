/**
 * The relational state behind the dashboard backend: one row datatype per
 * table (DISASTER, DRONE, OPERATOR, ASSIGNED_TO, MISSION_REPORT, ALERTS,
 * APP_USERS) and the database as an immutable record of tables. Nullable
 * columns are `Option`s; tables are bags kept in insertion order.
 *
 * Only APP_USERS is declared by the server itself; the keys and references of
 * the other tables are an assumption of the model, stated by `Consistent`.
 */
module Schema {
  import opened SqlValues
  import opened Seqs

  /** Primary-key values (D_ID, D_NO, O_ID, MR_ID, A_ID) are text. */
  type Id = string

  /** DATETIME values, compared by their order only. */
  type Timestamp = int

  datatype Disaster = Disaster(
    id: Id,
    name: Option<string>,
    kind: Option<string>,
    location: Option<string>,
    startTime: Option<Timestamp>,
    endTime: Option<Timestamp>)

  datatype Drone = Drone(
    no: Id,
    model: Option<string>,
    payload: Option<real>,
    flyingHours: Option<real>,
    disaster: Option<Id>)

  datatype Operator = Operator(id: Id, name: Option<string>, certification: Option<string>)

  /** ASSIGNED_TO: an operator deployed to a disaster. */
  datatype Assignment = Assignment(operator: Id, disaster: Id)

  datatype MissionReport = MissionReport(
    id: Id,
    batteryRemaining: Option<real>,
    distanceCovered: Option<real>,
    successRate: Option<real>,
    peopleAided: int)

  datatype Alert = Alert(
    id: Id,
    resolution: Option<string>,
    mission: Option<Id>,
    kind: Option<string>,
    severity: Option<string>,
    time: Option<Timestamp>,
    drone: Option<Id>)

  /** APP_USERS.Role is `ENUM('viewer','editor') NOT NULL`. */
  datatype Role = Viewer | Editor

  datatype AppUser = AppUser(username: string, password: Option<string>, role: Role)

  datatype Db = Db(
    disasters: seq<Disaster>,
    drones: seq<Drone>,
    operators: seq<Operator>,
    assignments: seq<Assignment>,
    missions: seq<MissionReport>,
    alerts: seq<Alert>,
    users: seq<AppUser>)

  /** A disaster is ongoing while its End_Time is NULL. */
  predicate IsOngoing(d: Disaster) {
    d.endTime.None?
  }

  // Key projections, named so that every use denotes the same function.
  function DisasterKey(d: Disaster): Id { d.id }
  function DroneKey(dr: Drone): Id { dr.no }
  function OperatorKey(o: Operator): Id { o.id }
  function MissionKey(m: MissionReport): Id { m.id }
  function AlertKey(a: Alert): Id { a.id }
  function UserKey(u: AppUser): string { u.username }

  function DisasterIds(db: Db): set<Id> { set d | d in db.disasters :: d.id }
  function DroneIds(db: Db): set<Id> { set dr | dr in db.drones :: dr.no }
  function OperatorIds(db: Db): set<Id> { set o | o in db.operators :: o.id }
  function MissionIds(db: Db): set<Id> { set m | m in db.missions :: m.id }
  function AlertIds(db: Db): set<Id> { set a | a in db.alerts :: a.id }
  function Usernames(db: Db): set<string> { set u | u in db.users :: u.username }

  /** Widths of APP_USERS.Username VARCHAR(50) and APP_USERS.Password VARCHAR(100). */
  const UsernameWidth: nat := 50
  const PasswordWidth: nat := 100

  /** The primary keys of the six keyed tables. */
  ghost predicate KeysUnique(db: Db) {
    && UniqueBy(db.disasters, DisasterKey)
    && UniqueBy(db.drones, DroneKey)
    && UniqueBy(db.operators, OperatorKey)
    && UniqueBy(db.missions, MissionKey)
    && UniqueBy(db.alerts, AlertKey)
    && UniqueBy(db.users, UserKey)
  }

  /** The foreign keys: a non-NULL reference names a stored row. */
  ghost predicate ReferencesHold(db: Db) {
    && (forall dr :: dr in db.drones && dr.disaster.Some? ==> dr.disaster.value in DisasterIds(db))
    && (forall a :: a in db.assignments ==> a.operator in OperatorIds(db) && a.disaster in DisasterIds(db))
    && (forall a :: a in db.alerts && a.mission.Some? ==> a.mission.value in MissionIds(db))
    && (forall a :: a in db.alerts && a.drone.Some? ==> a.drone.value in DroneIds(db))
  }

  /** APP_USERS.Username is VARCHAR(50) and APP_USERS.Password VARCHAR(100). */
  ghost predicate WidthsHold(db: Db) {
    && (forall u :: u in db.users ==> |u.username| <= UsernameWidth)
    && (forall u :: u in db.users && u.password.Some? ==> |u.password.value| <= PasswordWidth)
  }

  /** The integrity constraints the storage engine is assumed to enforce:
      primary keys, the references that a delete of a disaster can violate,
      and the column widths of APP_USERS. */
  ghost predicate Consistent(db: Db) {
    KeysUnique(db) && ReferencesHold(db) && WidthsHold(db)
  }

  /** Two rows of a keyed table with the same key are the same row. */
  lemma SameKeySameRow<T(!new), K>(s: seq<T>, key: T -> K, x: T, y: T)
    requires UniqueBy(s, key)
    requires x in s && y in s && key(x) == key(y)
    ensures x == y
  {
    var i :| 0 <= i < |s| && s[i] == x;
    var j :| 0 <= j < |s| && s[j] == y;
    assert i == j;
  }
}
