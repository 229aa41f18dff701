/**
 * Properties that relate the mutation routes to the integrity constraints,
 * to each other and to the queries: every successful mutation keeps the
 * database consistent, resolving twice re-stamps the end time, a resolved
 * or deleted disaster drops out of the ongoing-disaster report, and the
 * user upsert leaves exactly one row per username.
 */
module MutationFacts {
  import opened SqlValues
  import opened Seqs
  import opened Schema
  import opened Joins
  import opened Queries
  import opened QueryFacts
  import opened Mutations

  // =====================================================================
  // Inserts keep the database consistent
  // =====================================================================

  lemma AddDisasterConsistent(db: Db, req: DisasterInput)
    requires Consistent(db)
    ensures Consistent(AddDisaster(db, req).db)
  {
    var r := AddDisaster(db, req);
    if r.outcome == Ok {
      var d :| r.db.disasters == db.disasters + [d] && StoredDisaster(d, req);
      UniqueByAppend(db.disasters, DisasterKey, d);
      assert DisasterIds(db) <= DisasterIds(r.db);
    }
  }

  lemma AddDroneConsistent(db: Db, req: DroneInput)
    requires Consistent(db)
    ensures Consistent(AddDrone(db, req).db)
  {
    var r := AddDrone(db, req);
    if r.outcome == Ok {
      var dr :| r.db.drones == db.drones + [dr] && StoredDrone(dr, req);
      UniqueByAppend(db.drones, DroneKey, dr);
      assert DroneIds(db) <= DroneIds(r.db);
    }
  }

  lemma AddOperatorConsistent(db: Db, req: OperatorInput)
    requires Consistent(db)
    ensures Consistent(AddOperator(db, req).db)
  {
    var r := AddOperator(db, req);
    if r.outcome == Ok {
      var o :| r.db.operators == db.operators + [o] && StoredOperator(o, req);
      UniqueByAppend(db.operators, OperatorKey, o);
      assert OperatorIds(db) <= OperatorIds(r.db);
    }
  }

  lemma AddMissionConsistent(db: Db, req: MissionInput)
    requires Consistent(db)
    ensures Consistent(AddMission(db, req).db)
  {
    var r := AddMission(db, req);
    if r.outcome == Ok {
      var m :| r.db.missions == db.missions + [m] && StoredMission(m, req);
      UniqueByAppend(db.missions, MissionKey, m);
      assert MissionIds(db) <= MissionIds(r.db);
    }
  }

  lemma AddAlertConsistent(db: Db, req: AlertInput)
    requires Consistent(db)
    ensures Consistent(AddAlert(db, req).db)
  {
    var r := AddAlert(db, req);
    if r.outcome == Ok {
      var a :| r.db.alerts == db.alerts + [a] && StoredAlert(a, req);
      UniqueByAppend(db.alerts, AlertKey, a);
    }
  }

  // =====================================================================
  // Payload coercion and the payload tiers
  // =====================================================================

  /** A drone added with payload 0 (or none) is stored with a NULL payload,
      and the tiering CASE then counts it as Heavy. */
  lemma FalsyPayloadIsHeavy(db: Db, req: DroneInput)
    requires AddDrone(db, req).outcome == Ok
    requires !TruthyNum(req.payload)
    ensures Count(AddDrone(db, req).db.drones, HasTier(Heavy)) == Count(db.drones, HasTier(Heavy)) + 1
  {
    var after := AddDrone(db, req).db;
    var dr :| after.drones == db.drones + [dr] && StoredDrone(dr, req);
    assert dr.payload.None?;
    CountAppend(db.drones, [dr], HasTier(Heavy));
    assert Filter([dr], HasTier(Heavy)) == [dr];
  }

  // =====================================================================
  // Resolve
  // =====================================================================

  lemma StampTwice(ds: seq<Disaster>, id: Option<Id>, first: Timestamp, second: Timestamp)
    ensures Stamp(Stamp(ds, id, first), id, second) == Stamp(ds, id, second)
  {
    var a, b := Stamp(Stamp(ds, id, first), id, second), Stamp(ds, id, second);
    forall i | 0 <= i < |ds|
      ensures a[i] == b[i]
    {
      assert Stamp(ds, id, first)[i] == StampRow(ds[i], id, first);
    }
  }

  /** Resolving again re-stamps the end time: the second call succeeds and
      leaves the database as a single call at the second time would. */
  lemma ResolveTwice(db: Db, id: Option<Id>, first: Timestamp, second: Timestamp)
    requires ResolveDisaster(db, id, first).outcome == Ok
    ensures ResolveDisaster(ResolveDisaster(db, id, first).db, id, second) == ResolveDisaster(db, id, second)
  {
    var once := ResolveDisaster(db, id, first).db;
    assert once == db.(disasters := Stamp(db.disasters, id, first));
    var d :| d in db.disasters && Some(d.id) == id;
    var i :| 0 <= i < |db.disasters| && db.disasters[i] == d;
    assert once.disasters[i].id == d.id;
    assert ResolveDisaster(once, id, second).outcome == Ok;
    StampTwice(db.disasters, id, first, second);
  }

  /** After a successful resolve no disaster with that id is ongoing, and
      query4 no longer lists it. */
  lemma ResolvedLeavesQuery4(db: Db, id: Option<Id>, now: Timestamp, round2: real -> real)
    requires ResolveDisaster(db, id, now).outcome == Ok
    ensures forall d :: d in ResolveDisaster(db, id, now).db.disasters && Some(d.id) == id ==> !IsOngoing(d)
    ensures forall r :: r in Query4(ResolveDisaster(db, id, now).db, round2) ==> Some(r.id) != id
  {
    var after := ResolveDisaster(db, id, now).db;
    forall d | d in after.disasters && Some(d.id) == id
      ensures !IsOngoing(d)
    {
      var i :| 0 <= i < |after.disasters| && after.disasters[i] == d;
    }
    Query4Ongoing(after, round2);
  }

  /** Resolving neither adds nor removes a disaster id. */
  lemma ResolveKeepsIds(db: Db, id: Option<Id>, now: Timestamp)
    ensures DisasterIds(ResolveDisaster(db, id, now).db) == DisasterIds(db)
  {
    var after := ResolveDisaster(db, id, now).db;
    forall x | x in DisasterIds(db)
      ensures x in DisasterIds(after)
    {
      var d :| d in db.disasters && d.id == x;
      var i :| 0 <= i < |db.disasters| && db.disasters[i] == d;
      assert after.disasters[i].id == x;
    }
    forall x | x in DisasterIds(after)
      ensures x in DisasterIds(db)
    {
      var d :| d in after.disasters && d.id == x;
      var i :| 0 <= i < |after.disasters| && after.disasters[i] == d;
      assert db.disasters[i].id == x;
    }
  }

  lemma ResolveConsistent(db: Db, id: Option<Id>, now: Timestamp)
    requires Consistent(db)
    ensures Consistent(ResolveDisaster(db, id, now).db)
  {
    var after := ResolveDisaster(db, id, now).db;
    assert after == db.(disasters := after.disasters);
    ResolveKeepsIds(db, id, now);
    assert KeysUnique(after) by {
      UniqueBySameKeys(db.disasters, after.disasters, DisasterKey);
    }
    assert OperatorIds(after) == OperatorIds(db);
    assert MissionIds(after) == MissionIds(db);
    assert DroneIds(after) == DroneIds(db);
    assert ReferencesHold(after);
  }

  // =====================================================================
  // Delete
  // =====================================================================

  /** A disaster that still owns a drone cannot be deleted: the route
      answers 500 and the row stays. */
  lemma DeleteOwnedFails(db: Db, dr: Drone)
    requires dr in db.drones && dr.disaster.Some? && dr.disaster.value != ""
    requires dr.disaster.value in DisasterIds(db)
    ensures DeleteDisaster(db, dr.disaster).outcome == Failed
    ensures DeleteDisaster(db, dr.disaster).db == db
  {
    assert Referenced(db, dr.disaster.value);
  }

  /** Removing an unreferenced disaster breaks no reference. */
  lemma RemoveUnreferenced(db: Db, x: Id)
    requires ReferencesHold(db) && !Referenced(db, x)
    ensures ReferencesHold(db.(disasters := Filter(db.disasters, OtherThan(x))))
  {
    var after := db.(disasters := Filter(db.disasters, OtherThan(x)));
    forall y | y in DisasterIds(db) && y != x
      ensures y in DisasterIds(after)
    {
      var d :| d in db.disasters && d.id == y;
      assert d in after.disasters;
    }
    assert forall dr :: dr in after.drones && dr.disaster.Some? ==> dr.disaster.value in DisasterIds(after);
    assert forall a :: a in after.assignments ==> a.disaster in DisasterIds(after);
    assert OperatorIds(after) == OperatorIds(db);
    assert MissionIds(after) == MissionIds(db);
    assert DroneIds(after) == DroneIds(db);
  }

  /** After a successful delete query4 no longer lists the disaster. */
  lemma DeletedLeavesQuery4(db: Db, id: Option<Id>, round2: real -> real)
    requires DeleteDisaster(db, id).outcome == Ok
    ensures forall r :: r in Query4(DeleteDisaster(db, id).db, round2) ==> r.id != id.value
  {
    Query4Ongoing(DeleteDisaster(db, id).db, round2);
  }

  lemma DeleteConsistent(db: Db, id: Option<Id>)
    requires Consistent(db)
    ensures Consistent(DeleteDisaster(db, id).db)
  {
    var r := DeleteDisaster(db, id);
    if r.outcome == Ok {
      var x := id.value;
      assert r.db == db.(disasters := Filter(db.disasters, OtherThan(x)));
      FilterUnique(db.disasters, DisasterKey, OtherThan(x));
      RemoveUnreferenced(db, x);
    }
  }

  // =====================================================================
  // User upsert
  // =====================================================================

  function NamedUser(name: string): AppUser -> bool {
    (u: AppUser) => u.username == name
  }

  /** After a successful upsert exactly one row carries the username, and it
      holds the supplied password and role; the table grows exactly when the
      username is new. */
  lemma UpsertOneRow(db: Db, username: Option<string>, password: Option<string>, role: Option<string>)
    requires Consistent(db)
    requires UpsertUser(db, username, password, role).outcome == Ok
    ensures Count(UpsertUser(db, username, password, role).db.users, NamedUser(username.value)) == 1
    ensures forall u :: u in UpsertUser(db, username, password, role).db.users && u.username == username.value ==>
      u.password == TextOrNull(password) && Some(u.role) == ParseRole(role.value)
    ensures |UpsertUser(db, username, password, role).db.users| ==
      |db.users| + (if username.value in Usernames(db) then 0 else 1)
  {
    var after := UpsertUser(db, username, password, role).db;
    var row := AppUser(username.value, TextOrNull(password), ParseRole(role.value).value);
    UpsertKeyed(db, row);
    assert after.users == SaveUser(db.users, row);
    CountUniqueKey(after.users, UserKey, NamedUser(username.value), row);
    forall u | u in after.users && u.username == username.value
      ensures u == row
    {
      SameKeySameRow(after.users, UserKey, u, row);
    }
  }

  /** Saving a row keeps APP_USERS keyed by Username. */
  lemma UpsertKeyed(db: Db, row: AppUser)
    requires UniqueBy(db.users, UserKey)
    ensures UniqueBy(SaveUser(db.users, row), UserKey)
    ensures row in SaveUser(db.users, row)
  {
    if exists x :: x in db.users && x.username == row.username {
      var x :| x in db.users && x.username == row.username;
      var i :| 0 <= i < |db.users| && db.users[i] == x;
      UniqueBySameKeys(db.users, ReplaceUser(db.users, row), UserKey);
      assert ReplaceUser(db.users, row)[i] == row;
    } else {
      UniqueByAppend(db.users, UserKey, row);
    }
  }

  lemma UpsertConsistent(db: Db, username: Option<string>, password: Option<string>, role: Option<string>)
    requires Consistent(db)
    ensures Consistent(UpsertUser(db, username, password, role).db)
  {
    var r := UpsertUser(db, username, password, role);
    if r.outcome == Ok {
      var row := AppUser(username.value, TextOrNull(password), ParseRole(role.value).value);
      UpsertKeyed(db, row);
      forall u | u in r.db.users
        ensures |u.username| <= UsernameWidth && (u.password.Some? ==> |u.password.value| <= PasswordWidth)
      {
        if u.username != username.value {
          assert multiset(r.db.users)[u] > 0;
        } else {
          UpsertOneRow(db, username, password, role);
        }
      }
    }
  }

  /** Repeating the same upsert changes nothing more. */
  lemma UpsertIdempotent(db: Db, username: Option<string>, password: Option<string>, role: Option<string>)
    requires Consistent(db)
    ensures UpsertUser(UpsertUser(db, username, password, role).db, username, password, role) ==
      UpsertUser(db, username, password, role)
  {
    var once := UpsertUser(db, username, password, role);
    if once.outcome == Ok {
      var row := AppUser(username.value, TextOrNull(password), ParseRole(role.value).value);
      UpsertKeyed(db, row);
      var twice := UpsertUser(once.db, username, password, role);
      assert row in once.db.users;
      assert twice.db.users == ReplaceUser(once.db.users, row);
      forall i | 0 <= i < |once.db.users|
        ensures ReplaceUser(once.db.users, row)[i] == once.db.users[i]
      {
        if once.db.users[i].username == row.username {
          SameKeySameRow(once.db.users, UserKey, once.db.users[i], row);
        }
      }
    }
  }

  // =====================================================================
  // Available personnel
  // =====================================================================

  /** ASSIGNED_TO gains a row linking operator `o` to disaster `d`. */
  function Assign(db: Db, o: Id, d: Id): Db {
    db.(assignments := db.assignments + [Assignment(o, d)])
  }

  /** An operator assigned to an ongoing disaster disappears from the
      available personnel. */
  lemma AssignmentHidesOperator(db: Db, o: Operator, d: Disaster)
    requires d in db.disasters && IsOngoing(d)
    ensures o !in Query2(Assign(db, o.id, d.id))
  {
    var after := Assign(db, o.id, d.id);
    assert Assignment(o.id, d.id) in after.assignments;
    assert OnDuty(after, o.id);
  }

  /** Resolving the only disaster an operator is assigned to makes the
      operator available again. */
  lemma ResolveFreesOperator(db: Db, id: Option<Id>, now: Timestamp, o: Operator)
    requires o in db.operators && ResolveDisaster(db, id, now).outcome == Ok
    requires forall a :: a in db.assignments && a.operator == o.id ==> Some(a.disaster) == id
    ensures o in Query2(ResolveDisaster(db, id, now).db)
  {
  }
}
