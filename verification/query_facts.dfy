/**
 * What the grouped queries say about individual drones and disasters, under
 * the integrity constraints of `Consistent`: query3 reports a drone exactly
 * when it has a High or Critical alert, with the number of such alerts, and
 * query4 reports a disaster exactly when it is ongoing and has drones, with
 * the number of its drones.
 */
module QueryFacts {
  import opened SqlValues
  import opened Seqs
  import opened Schema
  import opened Joins
  import opened Queries

  // =====================================================================
  // query3 per drone
  // =====================================================================

  /** The alert is High or Critical and names drone `no`. */
  function SevereFor(no: Id): Alert -> bool {
    (a: Alert) => Severe(a) && a.drone == Some(no)
  }

  /** The number of High or Critical alerts raised for drone `no`. */
  function SevereAlertsOf(db: Db, no: Id): nat {
    Count(db.alerts, SevereFor(no))
  }

  /** Drone `dr` joins alert `a` and lands in group `g`. */
  function JoinsInto(a: Alert, g: DroneGroup): Drone -> bool {
    (dr: Drone) => a.drone == Some(dr.no) && DroneGroup(dr.no, dr.model) == g
  }

  lemma HitCount(db: Db, a: Alert, dr: Drone)
    requires UniqueBy(db.drones, DroneKey) && dr in db.drones
    ensures Count(FlatMap(db.drones, HitStep(a)), InGroup(DroneGroup(dr.no, dr.model))) ==
      if a.drone == Some(dr.no) then 1 else 0
  {
    var g := DroneGroup(dr.no, dr.model);
    forall x | x in db.drones
      ensures Count(HitStep(a)(x), InGroup(g)) == if JoinsInto(a, g)(x) then 1 else 0
    {
      if a.drone == Some(x.no) {
        assert HitStep(a)(x) == [AlertHit(a, x)];
        assert Filter([AlertHit(a, x)], InGroup(g)) == if JoinsInto(a, g)(x) then [AlertHit(a, x)] else [];
      }
    }
    CountFlatMap(db.drones, HitStep(a), InGroup(g), JoinsInto(a, g), 1);
    CountUniqueKey(db.drones, DroneKey, JoinsInto(a, g), dr);
  }

  /** The group of a stored drone counts exactly that drone's High and
      Critical alerts. */
  lemma SevereGroupCount(db: Db, dr: Drone)
    requires UniqueBy(db.drones, DroneKey) && dr in db.drones
    ensures Count(SevereJoin(db), InGroup(DroneGroup(dr.no, dr.model))) == SevereAlertsOf(db, dr.no)
  {
    var g := DroneGroup(dr.no, dr.model);
    forall a | a in db.alerts
      ensures Count(SevereStep(db)(a), InGroup(g)) == if SevereFor(dr.no)(a) then 1 else 0
    {
      if Severe(a) {
        HitCount(db, a, dr);
      }
    }
    CountFlatMap(db.alerts, SevereStep(db), InGroup(g), SevereFor(dr.no), 1);
  }

  /** query3 lists a drone if and only if it has a High or Critical alert, and
      its row carries the drone's model and its number of such alerts; a
      drone without one is absent rather than listed with zero. */
  lemma Query3Flags(db: Db, dr: Drone)
    requires Consistent(db) && dr in db.drones
    ensures DroneGroup(dr.no, dr.model) in GroupsOf(Query3(db)) <==> SevereAlertsOf(db, dr.no) > 0
    ensures forall r :: r in Query3(db) && r.no == dr.no ==>
      r.model == dr.model && r.criticalAlerts == SevereAlertsOf(db, dr.no)
  {
    var rows := Query3(db);
    var g := DroneGroup(dr.no, dr.model);
    SevereGroupCount(db, dr);
    if SevereAlertsOf(db, dr.no) > 0 {
      var a := CountWitness(db.alerts, SevereFor(dr.no));
      SevereJoinMember(db, AlertHit(a, dr));
      assert HitGroup(AlertHit(a, dr)) == g;
    }
    forall r | r in rows && r.no == dr.no
      ensures r.model == dr.model && r.criticalAlerts == SevereAlertsOf(db, dr.no)
    {
      var h :| h in SevereJoin(db) && HitGroup(h) == RowGroup(r);
      SevereJoinMember(db, h);
      SameKeySameRow(db.drones, DroneKey, h.dr, dr);
    }
  }

  /** Every drone query3 lists is a stored drone. */
  lemma Query3Drones(db: Db)
    ensures forall r :: r in Query3(db) ==> r.no in DroneIds(db)
  {
    forall r | r in Query3(db)
      ensures r.no in DroneIds(db)
    {
      var h :| h in SevereJoin(db) && HitGroup(h) == RowGroup(r);
      SevereJoinMember(db, h);
    }
  }

  // =====================================================================
  // query4 per disaster
  // =====================================================================

  /** The drone is deployed to disaster `id`. */
  function AttachedTo(id: Id): Drone -> bool {
    (dr: Drone) => dr.disaster == Some(id)
  }

  /** The number of drones deployed to disaster `id`. */
  function DronesAt(db: Db, id: Id): nat {
    Count(db.drones, AttachedTo(id))
  }

  /** Disaster `d` is ongoing and lands in group `g`. */
  function OngoingIn(g: DisasterGroup): Disaster -> bool {
    (d: Disaster) => IsOngoing(d) && DisasterGroup(d.id, d.kind) == g
  }

  lemma DeployCount(db: Db, d: Disaster, g: DisasterGroup)
    ensures Count(FlatMap(db.drones, DeployStep(d)), OfGroup(g)) ==
      if DisasterGroup(d.id, d.kind) == g then DronesAt(db, d.id) else 0
  {
    var inGroup := DisasterGroup(d.id, d.kind) == g;
    forall dr | dr in db.drones
      ensures Count(DeployStep(d)(dr), OfGroup(g)) == if AttachedTo(d.id)(dr) then (if inGroup then 1 else 0) else 0
    {
      if dr.disaster == Some(d.id) {
        assert DeployStep(d)(dr) == [Deployment(d, dr)];
        assert Filter([Deployment(d, dr)], OfGroup(g)) == if inGroup then [Deployment(d, dr)] else [];
      }
    }
    CountFlatMap(db.drones, DeployStep(d), OfGroup(g), AttachedTo(d.id), if inGroup then 1 else 0);
  }

  /** The group of a stored disaster counts the drones deployed to it while
      it is ongoing, and nothing once it is resolved. */
  lemma OngoingGroupCount(db: Db, d: Disaster)
    requires UniqueBy(db.disasters, DisasterKey) && d in db.disasters
    ensures Count(OngoingJoin(db), OfGroup(DisasterGroup(d.id, d.kind))) ==
      if IsOngoing(d) then DronesAt(db, d.id) else 0
  {
    var g := DisasterGroup(d.id, d.kind);
    var k := DronesAt(db, d.id);
    forall x | x in db.disasters
      ensures Count(OngoingStep(db)(x), OfGroup(g)) == if OngoingIn(g)(x) then k else 0
    {
      if IsOngoing(x) {
        DeployCount(db, x, g);
      }
    }
    CountFlatMap(db.disasters, OngoingStep(db), OfGroup(g), OngoingIn(g), k);
    CountUniqueKey(db.disasters, DisasterKey, OngoingIn(g), d);
  }

  /** query4 lists a disaster if and only if it is ongoing and has a drone
      deployed to it, and its row carries the disaster's type and the number
      of its drones. */
  lemma Query4Load(db: Db, round2: real -> real, d: Disaster)
    requires Consistent(db) && d in db.disasters
    ensures DisasterGroup(d.id, d.kind) in LoadGroupsOf(Query4(db, round2)) <==>
      IsOngoing(d) && DronesAt(db, d.id) > 0
    ensures forall r :: r in Query4(db, round2) && r.id == d.id ==>
      r.kind == d.kind && r.activeDrones == DronesAt(db, d.id)
  {
    var rows := Query4(db, round2);
    var g := DisasterGroup(d.id, d.kind);
    OngoingGroupCount(db, d);
    if IsOngoing(d) && DronesAt(db, d.id) > 0 {
      var dr := CountWitness(db.drones, AttachedTo(d.id));
      OngoingJoinMember(db, Deployment(d, dr));
      assert DeploymentGroup(Deployment(d, dr)) == g;
    }
    forall r | r in rows && r.id == d.id
      ensures r.kind == d.kind && r.activeDrones == DronesAt(db, d.id)
    {
      var x :| x in OngoingJoin(db) && DeploymentGroup(x) == LoadGroup(r);
      OngoingJoinMember(db, x);
      SameKeySameRow(db.disasters, DisasterKey, x.d, d);
    }
  }

  /** Every row of query4 is an ongoing stored disaster. */
  lemma Query4Ongoing(db: Db, round2: real -> real)
    ensures forall r :: r in Query4(db, round2) ==>
      exists d :: d in db.disasters && d.id == r.id && IsOngoing(d)
  {
    forall r | r in Query4(db, round2)
      ensures exists d :: d in db.disasters && d.id == r.id && IsOngoing(d)
    {
      var x :| x in OngoingJoin(db) && DeploymentGroup(x) == LoadGroup(r);
      OngoingJoinMember(db, x);
    }
  }
}
