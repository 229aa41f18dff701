/**
 * The inner-join paths the analytical queries read, as nested-loop joins:
 *
 *  - DISASTER D JOIN DRONE DR ON D.D_ID = DR.D_ID JOIN ALERTS A ON DR.D_NO = A.D_NO
 *    JOIN MISSION_REPORT MR ON A.MR_ID = MR.MR_ID            (query1, overview)
 *  - ALERTS A JOIN DRONE D ON A.D_NO = D.D_NO, severity High/Critical (query3)
 *  - DISASTER D JOIN DRONE DR ON D.D_ID = DR.D_ID, End_Time NULL     (query4)
 *
 * A join condition on a NULL column is Unknown, so a row with a NULL
 * reference joins with nothing; `Some(x) == r` expresses exactly that.
 */
module Joins {
  import opened SqlValues
  import opened Seqs
  import opened Schema

  // ---------------------------------------------------------------------
  // Disaster -> Drone -> Alert -> Mission report
  // ---------------------------------------------------------------------

  datatype MissionChain = MissionChain(d: Disaster, dr: Drone, a: Alert, m: MissionReport)

  /** The three ON conditions of the chain. */
  predicate Linked(c: MissionChain) {
    && c.dr.disaster == Some(c.d.id)
    && c.a.drone == Some(c.dr.no)
    && c.a.mission == Some(c.m.id)
  }

  function ReportStep(d: Disaster, dr: Drone, a: Alert): MissionReport -> seq<MissionChain> {
    (m: MissionReport) => if a.mission == Some(m.id) then [MissionChain(d, dr, a, m)] else []
  }

  function AlertStep(db: Db, d: Disaster, dr: Drone): Alert -> seq<MissionChain> {
    (a: Alert) => if a.drone == Some(dr.no) then FlatMap(db.missions, ReportStep(d, dr, a)) else []
  }

  function DroneStep(db: Db, d: Disaster): Drone -> seq<MissionChain> {
    (dr: Drone) => if dr.disaster == Some(d.id) then FlatMap(db.alerts, AlertStep(db, d, dr)) else []
  }

  function DisasterStep(db: Db): Disaster -> seq<MissionChain> {
    (d: Disaster) => FlatMap(db.drones, DroneStep(db, d))
  }

  function MissionJoin(db: Db): seq<MissionChain> {
    FlatMap(db.disasters, DisasterStep(db))
  }

  lemma ReportLevel(db: Db, d: Disaster, dr: Drone, a: Alert, c: MissionChain)
    ensures multiset(FlatMap(db.missions, ReportStep(d, dr, a)))[c] ==
      if c.d == d && c.dr == dr && c.a == a && a.mission == Some(c.m.id)
      then multiset(db.missions)[c.m] else 0
  {
    var f := ReportStep(d, dr, a);
    var k: nat := if c.d == d && c.dr == dr && c.a == a && a.mission == Some(c.m.id) then 1 else 0;
    forall m | m in db.missions && m != c.m
      ensures multiset(f(m))[c] == 0
    {
    }
    FlatMapMultiplicity(db.missions, f, c, c.m, k);
  }

  lemma AlertLevel(db: Db, d: Disaster, dr: Drone, c: MissionChain)
    ensures multiset(FlatMap(db.alerts, AlertStep(db, d, dr)))[c] ==
      if c.d == d && c.dr == dr && c.a.drone == Some(dr.no) && c.a.mission == Some(c.m.id)
      then multiset(db.alerts)[c.a] * multiset(db.missions)[c.m] else 0
  {
    var f := AlertStep(db, d, dr);
    forall a | a in db.alerts && a != c.a
      ensures multiset(f(a))[c] == 0
    {
      ReportLevel(db, d, dr, a, c);
    }
    ReportLevel(db, d, dr, c.a, c);
    var k := multiset(f(c.a))[c];
    FlatMapMultiplicity(db.alerts, f, c, c.a, k);
  }

  lemma DroneLevel(db: Db, d: Disaster, c: MissionChain)
    ensures multiset(FlatMap(db.drones, DroneStep(db, d)))[c] ==
      if c.d == d && Linked(c)
      then multiset(db.drones)[c.dr] * (multiset(db.alerts)[c.a] * multiset(db.missions)[c.m]) else 0
  {
    var f := DroneStep(db, d);
    forall dr | dr in db.drones && dr != c.dr
      ensures multiset(f(dr))[c] == 0
    {
      AlertLevel(db, d, dr, c);
    }
    AlertLevel(db, d, c.dr, c);
    var k := multiset(f(c.dr))[c];
    FlatMapMultiplicity(db.drones, f, c, c.dr, k);
  }

  /** The bag semantics of the four-table inner join: a combination of rows
      appears once per combination of their occurrences, if it meets the
      three ON conditions, and never otherwise. */
  lemma MissionJoinBag(db: Db, c: MissionChain)
    ensures multiset(MissionJoin(db))[c] ==
      if Linked(c)
      then multiset(db.disasters)[c.d] * (multiset(db.drones)[c.dr] * (multiset(db.alerts)[c.a] * multiset(db.missions)[c.m]))
      else 0
  {
    var f := DisasterStep(db);
    forall d | d in db.disasters && d != c.d
      ensures multiset(f(d))[c] == 0
    {
      DroneLevel(db, d, c);
    }
    DroneLevel(db, c.d, c);
    var k := multiset(f(c.d))[c];
    FlatMapMultiplicity(db.disasters, f, c, c.d, k);
  }

  lemma MulPositive(x: nat, y: nat)
    ensures x * y > 0 <==> x > 0 && y > 0
  {
    if x > 0 && y > 0 {
      assert x * y >= y by {
        assert x * y == (x - 1) * y + y;
      }
    }
  }

  lemma ProductPositive(w: nat, x: nat, y: nat, z: nat)
    ensures w * (x * (y * z)) > 0 <==> w > 0 && x > 0 && y > 0 && z > 0
  {
    MulPositive(y, z);
    MulPositive(x, y * z);
    MulPositive(w, x * (y * z));
  }

  /** Membership in the join: exactly the linked combinations of stored rows. */
  lemma MissionJoinMember(db: Db, c: MissionChain)
    ensures c in MissionJoin(db) <==>
      Linked(c) && c.d in db.disasters && c.dr in db.drones && c.a in db.alerts && c.m in db.missions
  {
    MissionJoinBag(db, c);
    ProductPositive(multiset(db.disasters)[c.d], multiset(db.drones)[c.dr], multiset(db.alerts)[c.a], multiset(db.missions)[c.m]);
  }

  // ---------------------------------------------------------------------
  // Alert -> Drone, High/Critical alerts only
  // ---------------------------------------------------------------------

  datatype AlertHit = AlertHit(a: Alert, dr: Drone)

  /** `A.Severity IN ('High','Critical')` holds; a NULL severity gives Unknown. */
  predicate Severe(a: Alert) {
    InPair(a.severity, "High", "Critical") == True
  }

  function HitStep(a: Alert): Drone -> seq<AlertHit> {
    (dr: Drone) => if a.drone == Some(dr.no) then [AlertHit(a, dr)] else []
  }

  function SevereStep(db: Db): Alert -> seq<AlertHit> {
    (a: Alert) => if Severe(a) then FlatMap(db.drones, HitStep(a)) else []
  }

  function SevereJoin(db: Db): seq<AlertHit> {
    FlatMap(db.alerts, SevereStep(db))
  }

  lemma SevereJoinMember(db: Db, h: AlertHit)
    ensures h in SevereJoin(db) <==>
      h.a in db.alerts && h.dr in db.drones && Severe(h.a) && h.a.drone == Some(h.dr.no)
  {
    if h in SevereJoin(db) {
      var a := FlatMapSource(db.alerts, SevereStep(db), h);
      var dr := FlatMapSource(db.drones, HitStep(a), h);
    }
    if h.a in db.alerts && h.dr in db.drones && Severe(h.a) && h.a.drone == Some(h.dr.no) {
      FlatMapMember(db.drones, HitStep(h.a), h.dr, h);
      FlatMapMember(db.alerts, SevereStep(db), h.a, h);
    }
  }

  // ---------------------------------------------------------------------
  // Ongoing disaster -> Drone
  // ---------------------------------------------------------------------

  datatype Deployment = Deployment(d: Disaster, dr: Drone)

  function DeployStep(d: Disaster): Drone -> seq<Deployment> {
    (dr: Drone) => if dr.disaster == Some(d.id) then [Deployment(d, dr)] else []
  }

  function OngoingStep(db: Db): Disaster -> seq<Deployment> {
    (d: Disaster) => if IsOngoing(d) then FlatMap(db.drones, DeployStep(d)) else []
  }

  function OngoingJoin(db: Db): seq<Deployment> {
    FlatMap(db.disasters, OngoingStep(db))
  }

  lemma OngoingJoinMember(db: Db, x: Deployment)
    ensures x in OngoingJoin(db) <==>
      x.d in db.disasters && x.dr in db.drones && IsOngoing(x.d) && x.dr.disaster == Some(x.d.id)
  {
    if x in OngoingJoin(db) {
      var d := FlatMapSource(db.disasters, OngoingStep(db), x);
      var dr := FlatMapSource(db.drones, DeployStep(d), x);
    }
    if x.d in db.disasters && x.dr in db.drones && IsOngoing(x.d) && x.dr.disaster == Some(x.d.id) {
      FlatMapMember(db.drones, DeployStep(x.d), x.dr, x);
      FlatMapMember(db.disasters, OngoingStep(db), x.d, x);
    }
  }
}
