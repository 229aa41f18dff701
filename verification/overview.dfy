/**
 * The composite overview of /api/overview and the dropdown lists of
 * /api/list/... and GET /api/app-users: counters, the five most recent
 * disasters with a derived status label, and ordered projections of tables.
 */
module Reports {
  import opened SqlValues
  import opened Seqs
  import opened Schema
  import opened Joins

  // =====================================================================
  // Counters
  // =====================================================================

  /** The count of disasters without an end time: the number of stored
      disasters that are still ongoing, positive exactly when one is. */
  function ActiveDisasters(db: Db): (n: nat)
    ensures n == Count(db.disasters, IsOngoing)
    ensures n <= |db.disasters|
    ensures n > 0 <==> exists d :: d in db.disasters && IsOngoing(d)
  {
    var n := Count(db.disasters, IsOngoing);
    if n > 0 then
      var d := Filter(db.disasters, IsOngoing)[0];
      assert d in db.disasters && IsOngoing(d);
      n
    else
      n
  }

  function ChainOngoing(c: MissionChain): bool { IsOngoing(c.d) }
  function ChainMissionId(c: MissionChain): Id { c.m.id }

  /** The MR_IDs reached from an ongoing disaster through a drone and an alert. */
  function OngoingMissionIds(db: Db): set<Id> {
    set c | c in MissionJoin(db) && IsOngoing(c.d) :: c.m.id
  }

  /** A mission report is on an ongoing disaster when some stored disaster,
      drone and alert link it to a disaster whose End_Time is NULL. */
  ghost predicate OnOngoingDisaster(db: Db, id: Id) {
    exists c: MissionChain :: Linked(c) && c.d in db.disasters && c.dr in db.drones &&
      c.a in db.alerts && c.m in db.missions && IsOngoing(c.d) && c.m.id == id
  }

  lemma OngoingMissionIdsMember(db: Db, id: Id)
    ensures id in OngoingMissionIds(db) <==> OnOngoingDisaster(db, id)
  {
    if id in OngoingMissionIds(db) {
      var c :| c in MissionJoin(db) && IsOngoing(c.d) && c.m.id == id;
      MissionJoinMember(db, c);
    }
    if OnOngoingDisaster(db, id) {
      var c: MissionChain :| Linked(c) && c.d in db.disasters && c.dr in db.drones &&
        c.a in db.alerts && c.m in db.missions && IsOngoing(c.d) && c.m.id == id;
      MissionJoinMember(db, c);
    }
  }

  /** SELECT COUNT(DISTINCT MR.MR_ID) over the chain of an ongoing disaster:
      the number of distinct mission reports reached, never more than the
      number of stored mission reports. */
  function OngoingMissions(db: Db): (n: nat)
    ensures n == |OngoingMissionIds(db)|
    ensures n <= |db.missions|
  {
    var joined := Filter(MissionJoin(db), ChainOngoing);
    var ids := Distinct(MapSeq(joined, ChainMissionId));
    assert (set x | x in ids) == OngoingMissionIds(db) by {
      forall x | x in ids
        ensures x in OngoingMissionIds(db)
      {
        var c := MapSeqSource(joined, ChainMissionId, x);
      }
      forall x | x in OngoingMissionIds(db)
        ensures x in ids
      {
        var c :| c in MissionJoin(db) && IsOngoing(c.d) && c.m.id == x;
        MapSeqMember(joined, ChainMissionId, c);
      }
    }
    NoDupCard(ids);
    assert forall y :: y in ids ==> y in (set m | m in db.missions :: MissionKey(m)) by {
      forall y | y in ids
        ensures y in (set m | m in db.missions :: MissionKey(m))
      {
        var c := MapSeqSource(joined, ChainMissionId, y);
        MissionJoinMember(db, c);
      }
    }
    DistinctImageBound(ids, db.missions, MissionKey);
    |ids|
  }

  /** Maintenance is not tracked: the overview reports a constant zero. */
  const MaintenanceDrones: nat := 0

  // =====================================================================
  // The five most recent disasters
  // =====================================================================

  datatype Status = Ongoing | Resolved

  datatype DisasterSummary = DisasterSummary(
    name: Option<string>,
    kind: Option<string>,
    location: Option<string>,
    startTime: Option<Timestamp>,
    status: Status)

  /** The derived status label: Ongoing while the end time is missing,
      Resolved once it is set. */
  function Summarize(d: Disaster): (s: DisasterSummary)
    ensures s.status == Ongoing <==> IsOngoing(d)
    ensures s.status == Resolved <==> d.endTime.Some?
    ensures s.startTime == d.startTime
  {
    DisasterSummary(d.name, d.kind, d.location, d.startTime, if d.endTime.None? then Ongoing else Resolved)
  }

  /** ORDER BY Start_Time DESC, NULL last. */
  predicate StartDesc(x: Disaster, y: Disaster) {
    NullableTimeDesc(x.startTime, y.startTime)
  }

  lemma StartDescOrder()
    ensures StronglyConnected(StartDesc)
    ensures Transitive(StartDesc)
  {
  }

  /** The disasters from the latest start to the earliest, NULL starts last. */
  function DisastersByStart(db: Db): (r: seq<Disaster>)
    ensures Sorted(r, StartDesc)
    ensures multiset(r) == multiset(db.disasters)
  {
    StartDescOrder();
    Sort(db.disasters, StartDesc)
  }

  /** LIMIT 5 */
  const RecentLimit: nat := 5

  function RecentCount(n: nat): (k: nat)
    ensures k <= n && k <= RecentLimit
    ensures k == n || k == RecentLimit
  {
    if n < RecentLimit then n else RecentLimit
  }

  /** The first `k` disasters by start, summarized. */
  function RecentOf(db: Db, k: nat): seq<DisasterSummary>
    requires k <= |db.disasters|
  {
    MapSeq(DisastersByStart(db)[..k], Summarize)
  }

  lemma RecentOfOrdered(db: Db, k: nat)
    requires k <= |db.disasters|
    ensures forall i :: 0 <= i < k - 1 ==>
      NullableTimeDesc(RecentOf(db, k)[i].startTime, RecentOf(db, k)[i + 1].startTime)
  {
    var rows, r := DisastersByStart(db), RecentOf(db, k);
    forall i | 0 <= i < k - 1
      ensures NullableTimeDesc(r[i].startTime, r[i + 1].startTime)
    {
      assert r[i] == Summarize(rows[i]) && r[i + 1] == Summarize(rows[i + 1]);
    }
  }

  lemma RecentOfStored(db: Db, k: nat)
    requires k <= |db.disasters|
    ensures multiset(RecentOf(db, k)) <= multiset(MapSeq(db.disasters, Summarize))
    ensures forall x :: x in RecentOf(db, k) ==> exists d :: d in db.disasters && Summarize(d) == x
  {
    var r := RecentOf(db, k);
    MapSeqPrefixBag(DisastersByStart(db), db.disasters, k, Summarize);
    forall x | x in r
      ensures exists d :: d in db.disasters && Summarize(d) == x
    {
      assert multiset(r)[x] > 0;
      var d := MapSeqSource(db.disasters, Summarize, x);
    }
  }

  /** The `disasters` part of the overview: at most five summaries, latest
      start first, and no disaster summarized more often than it is stored. */
  function RecentDisasters(db: Db): (r: seq<DisasterSummary>)
    ensures |r| == RecentCount(|db.disasters|)
    ensures multiset(r) <= multiset(MapSeq(db.disasters, Summarize))
    ensures forall x :: x in r ==> exists d :: d in db.disasters && Summarize(d) == x
    ensures forall i :: 0 <= i < |r| - 1 ==> NullableTimeDesc(r[i].startTime, r[i + 1].startTime)
  {
    var k := RecentCount(|db.disasters|);
    RecentOfOrdered(db, k);
    RecentOfStored(db, k);
    RecentOf(db, k)
  }

  /** A disaster left out of the five is no more recent than any listed one:
      it started no later, or its start is NULL. */
  lemma RecentAreLatest(db: Db, d: Disaster)
    requires d in db.disasters
    ensures Summarize(d) in RecentDisasters(db) ||
      forall x :: x in RecentDisasters(db) ==> NullableTimeDesc(x.startTime, d.startTime)
  {
    var rows := DisastersByStart(db);
    var k := RecentCount(|rows|);
    var r := RecentDisasters(db);
    assert multiset(rows)[d] > 0;
    var j :| 0 <= j < |rows| && rows[j] == d;
    assert forall i :: 0 <= i < |r| ==> r[i] == Summarize(rows[i]);
    if j < k {
      assert r[j] == Summarize(d);
    } else {
      StartDescOrder();
      forall x | x in r
        ensures NullableTimeDesc(x.startTime, d.startTime)
      {
        var i :| 0 <= i < |r| && r[i] == x;
        assert x == Summarize(rows[i]);
        SortedAll(rows, StartDesc, i, j);
      }
    }
  }

  // =====================================================================
  // Personnel
  // =====================================================================

  datatype Person = Person(name: Option<string>, certification: Option<string>)

  function PersonOf(o: Operator): Person { Person(o.name, o.certification) }

  predicate PersonOrder(x: Person, y: Person) {
    NullableTextLe(x.name, y.name)
  }

  lemma PersonOrderConnected()
    ensures StronglyConnected(PersonOrder)
  {
    forall x: Person, y: Person
      ensures PersonOrder(x, y) || PersonOrder(y, x)
    {
      NullableTextLeTotal(x.name, y.name);
    }
  }

  /** The (name, certification) projection of the operators, ordered by name:
      one entry per operator, NULL names first. */
  function Personnel(db: Db): (r: seq<Person>)
    ensures multiset(r) == multiset(MapSeq(db.operators, PersonOf))
    ensures |r| == |db.operators|
    ensures Sorted(r, PersonOrder)
  {
    PersonOrderConnected();
    Sort(MapSeq(db.operators, PersonOf), PersonOrder)
  }

  // =====================================================================
  // The overview
  // =====================================================================

  datatype OverviewReport = OverviewReport(
    activeDisasters: nat,
    ongoingMissions: nat,
    completedMissions: nat,
    totalDrones: nat,
    maintenanceDrones: nat,
    disasters: seq<DisasterSummary>,
    personnel: seq<Person>)

  /** /api/overview. "Completed" missions are all stored mission reports, so
      the ongoing ones never outnumber them. */
  function Overview(db: Db): (o: OverviewReport)
    ensures o.activeDisasters == Count(db.disasters, IsOngoing)
    ensures o.ongoingMissions == |OngoingMissionIds(db)|
    ensures o.ongoingMissions <= o.completedMissions
    ensures o.completedMissions == |db.missions| && o.totalDrones == |db.drones|
    ensures o.activeDisasters <= |db.disasters|
    ensures o.maintenanceDrones == 0
    ensures o.disasters == RecentDisasters(db) && |o.disasters| <= RecentLimit
    ensures forall i :: 0 <= i < |o.disasters| - 1 ==>
      NullableTimeDesc(o.disasters[i].startTime, o.disasters[i + 1].startTime)
    ensures o.personnel == Personnel(db) && |o.personnel| == |db.operators|
    ensures multiset(o.personnel) == multiset(MapSeq(db.operators, PersonOf))
    ensures Sorted(o.personnel, PersonOrder)
  {
    OverviewReport(
      ActiveDisasters(db), OngoingMissions(db), |db.missions|, |db.drones|, MaintenanceDrones,
      RecentDisasters(db), Personnel(db))
  }

  // =====================================================================
  // Dropdown lists and the user list
  // =====================================================================

  datatype Entry = Entry(key: Id, name: Option<string>)

  /** The disaster dropdown, (id, name) pairs by start time descending. The
      start time is not part of the projection, so the list is the ordered
      rows, projected. */
  function DisasterList(db: Db): (r: seq<Entry>)
    ensures |r| == |db.disasters|
    ensures forall i :: 0 <= i < |r| ==> r[i] == Entry(DisastersByStart(db)[i].id, DisastersByStart(db)[i].name)
  {
    var rows := DisastersByStart(db);
    seq(|rows|, i requires 0 <= i < |rows| => Entry(rows[i].id, rows[i].name))
  }

  function DroneEntry(dr: Drone): Entry { Entry(dr.no, dr.model) }
  function OperatorEntry(o: Operator): Entry { Entry(o.id, o.name) }

  predicate KeyOrder(x: Entry, y: Entry) { TextLe(x.key, y.key) }
  predicate LabelOrder(x: Entry, y: Entry) { NullableTextLe(x.name, y.name) }
  predicate IdDesc(x: Id, y: Id) { TextLe(y, x) }

  lemma EntryOrdersConnected()
    ensures StronglyConnected(KeyOrder) && StronglyConnected(LabelOrder) && StronglyConnected(IdDesc)
  {
    forall x: Entry, y: Entry
      ensures KeyOrder(x, y) || KeyOrder(y, x)
      ensures LabelOrder(x, y) || LabelOrder(y, x)
    {
      TextLeTotal(x.key, y.key);
      NullableTextLeTotal(x.name, y.name);
    }
    forall x: Id, y: Id
      ensures IdDesc(x, y) || IdDesc(y, x)
    {
      TextLeTotal(x, y);
    }
  }

  /** The drone dropdown: the (number, model) projection, ordered by number. */
  function DroneList(db: Db): (r: seq<Entry>)
    ensures multiset(r) == multiset(MapSeq(db.drones, DroneEntry))
    ensures Sorted(r, KeyOrder)
  {
    EntryOrdersConnected();
    Sort(MapSeq(db.drones, DroneEntry), KeyOrder)
  }

  /** The operator dropdown: the (id, name) projection, ordered by name. */
  function OperatorList(db: Db): (r: seq<Entry>)
    ensures multiset(r) == multiset(MapSeq(db.operators, OperatorEntry))
    ensures Sorted(r, LabelOrder)
  {
    EntryOrdersConnected();
    Sort(MapSeq(db.operators, OperatorEntry), LabelOrder)
  }

  /** The mission dropdown: every mission report id, highest first. */
  function MissionList(db: Db): (r: seq<Id>)
    ensures multiset(r) == multiset(MapSeq(db.missions, MissionKey))
    ensures Sorted(r, IdDesc)
  {
    EntryOrdersConnected();
    Sort(MapSeq(db.missions, MissionKey), IdDesc)
  }

  datatype UserEntry = UserEntry(username: string, role: Role)

  function UserEntryOf(u: AppUser): UserEntry { UserEntry(u.username, u.role) }

  predicate UsernameOrder(x: UserEntry, y: UserEntry) { TextLe(x.username, y.username) }

  lemma UsernameOrderConnected()
    ensures StronglyConnected(UsernameOrder)
  {
    forall x: UserEntry, y: UserEntry
      ensures UsernameOrder(x, y) || UsernameOrder(y, x)
    {
      TextLeTotal(x.username, y.username);
    }
  }

  /** GET /api/app-users: the (username, role) projection of the users,
      ordered by username. The password is never listed. */
  function UserList(db: Db): (r: seq<UserEntry>)
    ensures multiset(r) == multiset(MapSeq(db.users, UserEntryOf))
    ensures Sorted(r, UsernameOrder)
  {
    UsernameOrderConnected();
    Sort(MapSeq(db.users, UserEntryOf), UsernameOrder)
  }

  /** With Username the primary key, the user list is strictly increasing, so
      its order is fully determined. */
  lemma UserListStrict(db: Db)
    requires Consistent(db)
    ensures forall i, j :: 0 <= i < j < |UserList(db)| ==> TextLt(UserList(db)[i].username, UserList(db)[j].username)
  {
    var r := UserList(db);
    var all := MapSeq(db.users, UserEntryOf);
    forall i, j | 0 <= i < j < |all|
      ensures all[i].username != all[j].username
    {
      assert all[i] == UserEntryOf(db.users[i]) && all[j] == UserEntryOf(db.users[j]);
      assert UserKey(db.users[i]) != UserKey(db.users[j]);
    }
    KeyedRowsDistinct(r, all, (e: UserEntry) => e.username);
    assert Transitive(UsernameOrder) by {
      forall x: UserEntry, y: UserEntry, z: UserEntry | UsernameOrder(x, y) && UsernameOrder(y, z)
        ensures UsernameOrder(x, z)
      {
        TextLeTrans(x.username, y.username, z.username);
      }
    }
    forall i, j | 0 <= i < j < |r|
      ensures TextLt(r[i].username, r[j].username)
    {
      SortedAll(r, UsernameOrder, i, j);
    }
  }
}
