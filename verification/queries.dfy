/**
 * The five analytical queries of the dashboard (routes /api/query1 to
 * /api/query5), each a read-only function of the database. Every query is
 * built the way its SQL reads: a join, then GROUP BY keys (the distinct key
 * values of the join), then HAVING and ORDER BY. Rounding to two decimals is
 * a parameter `round2` the model leaves uninterpreted.
 */
module Queries {
  import opened SqlValues
  import opened Seqs
  import opened Schema
  import opened Joins

  function MapOption<T, U>(x: Option<T>, f: T -> U): (r: Option<U>)
    ensures r.Some? <==> x.Some?
  {
    if x.None? then None else Some(f(x.value))
  }

  /** The non-NULL values of a column, in order. */
  function Present(xs: seq<Option<real>>): (vs: seq<real>)
    ensures |vs| <= |xs|
    ensures |vs| == 0 <==> forall i :: 0 <= i < |xs| ==> xs[i].None?
  {
    if |xs| == 0 then []
    else if xs[0].Some? then [xs[0].value] + Present(xs[1..])
    else
      assert forall i :: 1 <= i < |xs| ==> xs[i] == xs[1..][i - 1];
      Present(xs[1..])
  }

  function Total(vs: seq<real>): real {
    if |vs| == 0 then 0.0 else vs[0] + Total(vs[1..])
  }

  /** AVG: the mean of the non-NULL values, NULL when there is none. */
  function Average(xs: seq<Option<real>>): (r: Option<real>)
    ensures r.None? <==> forall i :: 0 <= i < |xs| ==> xs[i].None?
  {
    var vs := Present(xs);
    if |vs| == 0 then None else Some(Total(vs) / (|vs| as real))
  }

  /** SUM: the total of the non-NULL values, NULL when there is none. */
  function SumOf(xs: seq<Option<real>>): (r: Option<real>)
    ensures r.None? <==> forall i :: 0 <= i < |xs| ==> xs[i].None?
  {
    var vs := Present(xs);
    if |vs| == 0 then None else Some(Total(vs))
  }

  // =====================================================================
  // query1: mission performance by disaster type
  // =====================================================================

  datatype TypePerformance = TypePerformance(kind: Option<string>, averageSuccess: Option<real>, missions: nat)

  function ChainKind(c: MissionChain): Option<string> { c.d.kind }
  function ChainRate(c: MissionChain): Option<real> { c.m.successRate }

  function KindIs(k: Option<string>): MissionChain -> bool {
    (c: MissionChain) => c.d.kind == k
  }

  /** COUNT(MR.MR_ID) of the group of type `k`: MR_ID is a key, never NULL,
      so every joined row of the group counts, repeats included. */
  function MissionsOfType(join: seq<MissionChain>, k: Option<string>): nat {
    Count(join, KindIs(k))
  }

  /** The output row of the group of type `k`. */
  function TypeRow(join: seq<MissionChain>, round2: real -> real): Option<string> -> TypePerformance {
    (k: Option<string>) =>
      TypePerformance(k, MapOption(Average(MapSeq(Filter(join, KindIs(k)), ChainRate)), round2), MissionsOfType(join, k))
  }

  function TypeGroups(join: seq<MissionChain>, round2: real -> real): seq<TypePerformance> {
    MapSeq(Distinct(MapSeq(join, ChainKind)), TypeRow(join, round2))
  }

  /** The HAVING filter of query1: more than one joined mission row. */
  predicate MoreThanOneMission(g: TypePerformance) {
    g.missions > 1
  }

  /** ORDER BY Average_Success_Rate DESC (NULL last). */
  predicate AverageDesc(x: TypePerformance, y: TypePerformance) {
    NullableNumDesc(x.averageSuccess, y.averageSuccess)
  }

  lemma AverageDescConnected()
    ensures StronglyConnected(AverageDesc)
  {
  }

  function TypesOf(rows: seq<TypePerformance>): set<Option<string>> {
    set r | r in rows :: r.kind
  }

  lemma TypeGroupsComplete(join: seq<MissionChain>, round2: real -> real, k: Option<string>)
    requires MissionsOfType(join, k) > 0
    ensures TypeRow(join, round2)(k) in TypeGroups(join, round2)
  {
    var c := CountWitness(join, KindIs(k));
    MapSeqMember(join, ChainKind, c);
    MapSeqMember(Distinct(MapSeq(join, ChainKind)), TypeRow(join, round2), k);
  }

  function PerformanceKind(r: TypePerformance): Option<string> { r.kind }

  /** Every row HAVING keeps is its type's own group, with more than one
      mission row, and no type is kept twice. */
  lemma KeptTypeRows(join: seq<MissionChain>, round2: real -> real, rows: seq<TypePerformance>)
    requires multiset(rows) == multiset(Filter(TypeGroups(join, round2), MoreThanOneMission))
    ensures forall r :: r in rows ==> r.missions > 1 && r == TypeRow(join, round2)(r.kind)
    ensures forall i, j :: 0 <= i < j < |rows| ==> rows[i].kind != rows[j].kind
  {
    var keys := Distinct(MapSeq(join, ChainKind));
    var groups := TypeGroups(join, round2);
    var kept := Filter(groups, MoreThanOneMission);
    assert forall x :: multiset(rows)[x] <= multiset(groups)[x] by {
      forall x ensures multiset(rows)[x] <= multiset(groups)[x] {
        assert multiset(rows)[x] == multiset(kept)[x];
      }
    }
    GroupedRows(keys, TypeRow(join, round2), PerformanceKind, rows);
    forall r | r in rows
      ensures r.missions > 1
    {
      assert multiset(kept)[r] > 0;
    }
    forall i, j | 0 <= i < j < |rows|
      ensures rows[i].kind != rows[j].kind
    {
      assert PerformanceKind(rows[i]) != PerformanceKind(rows[j]);
    }
  }

  /** Any reordering of the groups kept by HAVING has one row per type, the
      type's own row, and exactly the types with more than one mission row. */
  lemma Query1Shape(join: seq<MissionChain>, round2: real -> real, rows: seq<TypePerformance>)
    requires multiset(rows) == multiset(Filter(TypeGroups(join, round2), MoreThanOneMission))
    ensures forall r :: r in rows ==> r.missions > 1 && r == TypeRow(join, round2)(r.kind)
    ensures forall k :: k in TypesOf(rows) <==> MissionsOfType(join, k) > 1
    ensures forall i, j :: 0 <= i < j < |rows| ==> rows[i].kind != rows[j].kind
  {
    var kept := Filter(TypeGroups(join, round2), MoreThanOneMission);
    KeptTypeRows(join, round2, rows);
    forall k | MissionsOfType(join, k) > 1
      ensures k in TypesOf(rows)
    {
      TypeGroupsComplete(join, round2, k);
      var r := TypeRow(join, round2)(k);
      assert multiset(kept)[r] > 0;
      assert r in rows;
    }
  }

  /** /api/query1: per disaster type, the number of joined mission rows and
      their average success rate, for types with more than one such row,
      highest average first. */
  function Query1(db: Db, round2: real -> real): (rows: seq<TypePerformance>)
    ensures forall r :: r in rows ==> r.missions > 1 && r == TypeRow(MissionJoin(db), round2)(r.kind)
    ensures forall k :: k in TypesOf(rows) <==> MissionsOfType(MissionJoin(db), k) > 1
    ensures forall i, j :: 0 <= i < j < |rows| ==> rows[i].kind != rows[j].kind
    ensures Sorted(rows, AverageDesc)
  {
    AverageDescConnected();
    var rows := Sort(Filter(TypeGroups(MissionJoin(db), round2), MoreThanOneMission), AverageDesc);
    Query1Shape(MissionJoin(db), round2, rows);
    rows
  }

  // =====================================================================
  // query2: available personnel
  // =====================================================================

  /** The subquery of query2: the O_IDs assigned to a disaster whose
      End_Time is NULL. */
  function BusyOperators(db: Db): set<Id> {
    set a, d | a in db.assignments && d in db.disasters && a.disaster == d.id && IsOngoing(d) :: a.operator
  }

  /** `O_ID NOT IN (subquery)`: O_ID and ASSIGNED_TO.O_ID are never NULL, so
      NOT IN is plain set difference. */
  function IsAvailable(db: Db): Operator -> bool {
    (o: Operator) => o.id !in BusyOperators(db)
  }

  /** An operator holds an assignment to a disaster that is still ongoing. */
  ghost predicate OnDuty(db: Db, id: Id) {
    exists a, d :: a in db.assignments && d in db.disasters && a.operator == id && a.disaster == d.id && IsOngoing(d)
  }

  /** ORDER BY Name (NULL first). */
  predicate NameOrder(x: Operator, y: Operator) {
    NullableTextLe(x.name, y.name)
  }

  lemma NameOrderConnected()
    ensures StronglyConnected(NameOrder)
  {
    forall x: Operator, y: Operator
      ensures NameOrder(x, y) || NameOrder(y, x)
    {
      NullableTextLeTotal(x.name, y.name);
    }
  }

  /** /api/query2: the operators with no assignment to an ongoing disaster,
      by name. */
  function Query2(db: Db): (rows: seq<Operator>)
    ensures forall o :: multiset(rows)[o] == if OnDuty(db, o.id) then 0 else multiset(db.operators)[o]
    ensures forall o :: o in rows <==> o in db.operators && !OnDuty(db, o.id)
    ensures Sorted(rows, NameOrder)
  {
    NameOrderConnected();
    Sort(Filter(db.operators, IsAvailable(db)), NameOrder)
  }

  // =====================================================================
  // query3: drones flagged by High/Critical alerts
  // =====================================================================

  /** GROUP BY A.D_NO, D.Model */
  datatype DroneGroup = DroneGroup(no: Id, model: Option<string>)

  datatype FlaggedDrone = FlaggedDrone(no: Id, model: Option<string>, criticalAlerts: nat)

  function HitGroup(h: AlertHit): DroneGroup { DroneGroup(h.dr.no, h.dr.model) }
  function RowGroup(r: FlaggedDrone): DroneGroup { DroneGroup(r.no, r.model) }

  function InGroup(g: DroneGroup): AlertHit -> bool {
    (h: AlertHit) => HitGroup(h) == g
  }

  /** The output row of group `g`: COUNT(A.A_ID) over its joined rows. */
  function FlagRow(join: seq<AlertHit>): DroneGroup -> FlaggedDrone {
    (g: DroneGroup) => FlaggedDrone(g.no, g.model, Count(join, InGroup(g)))
  }

  /** ORDER BY Critical_Alert_Count DESC */
  predicate MoreAlerts(x: FlaggedDrone, y: FlaggedDrone) {
    x.criticalAlerts >= y.criticalAlerts
  }

  function GroupsOf(rows: seq<FlaggedDrone>): set<DroneGroup> {
    set r | r in rows :: RowGroup(r)
  }

  lemma MoreAlertsConnected()
    ensures StronglyConnected(MoreAlerts)
  {
  }

  function FlagGroups(join: seq<AlertHit>): seq<FlaggedDrone> {
    MapSeq(Distinct(MapSeq(join, HitGroup)), FlagRow(join))
  }

  /** Any reordering of the groups has one row per flagged drone, counting
      that drone's joined alerts. */
  lemma Query3Shape(join: seq<AlertHit>, rows: seq<FlaggedDrone>)
    requires multiset(rows) == multiset(FlagGroups(join))
    ensures forall r :: r in rows ==> exists h :: h in join && HitGroup(h) == RowGroup(r)
    ensures forall r :: r in rows ==> r.criticalAlerts >= 1 && r.criticalAlerts == Count(join, InGroup(RowGroup(r)))
    ensures forall h :: h in join ==> HitGroup(h) in GroupsOf(rows)
    ensures forall i, j :: 0 <= i < j < |rows| ==> RowGroup(rows[i]) != RowGroup(rows[j])
  {
    var keys := Distinct(MapSeq(join, HitGroup));
    var groups := FlagGroups(join);
    GroupedRows(keys, FlagRow(join), RowGroup, rows);
    forall r | r in rows
      ensures exists h :: h in join && HitGroup(h) == RowGroup(r)
      ensures r.criticalAlerts >= 1
    {
      var h := MapSeqSource(join, HitGroup, RowGroup(r));
      CountPositive(join, InGroup(RowGroup(r)), h);
    }
    forall h | h in join
      ensures HitGroup(h) in GroupsOf(rows)
    {
      MapSeqMember(join, HitGroup, h);
      MapSeqMember(keys, FlagRow(join), HitGroup(h));
      var r := FlagRow(join)(HitGroup(h));
      assert multiset(groups)[r] > 0;
      assert r in rows;
    }
  }

  /** /api/query3: one row per drone with at least one High or Critical
      alert, carrying the number of such alerts, most alerts first. */
  function Query3(db: Db): (rows: seq<FlaggedDrone>)
    ensures forall r :: r in rows ==> exists h :: h in SevereJoin(db) && HitGroup(h) == RowGroup(r)
    ensures forall r :: r in rows ==> r.criticalAlerts >= 1 && r.criticalAlerts == Count(SevereJoin(db), InGroup(RowGroup(r)))
    ensures forall h :: h in SevereJoin(db) ==> HitGroup(h) in GroupsOf(rows)
    ensures forall i, j :: 0 <= i < j < |rows| ==> RowGroup(rows[i]) != RowGroup(rows[j])
    ensures Sorted(rows, MoreAlerts)
  {
    MoreAlertsConnected();
    var rows := Sort(FlagGroups(SevereJoin(db)), MoreAlerts);
    Query3Shape(SevereJoin(db), rows);
    rows
  }

  // =====================================================================
  // query4: resources used by ongoing disasters
  // =====================================================================

  /** GROUP BY D.D_ID, D.Type */
  datatype DisasterGroup = DisasterGroup(id: Id, kind: Option<string>)

  datatype DisasterLoad = DisasterLoad(id: Id, kind: Option<string>, activeDrones: nat, totalPayload: Option<real>)

  function DeploymentGroup(x: Deployment): DisasterGroup { DisasterGroup(x.d.id, x.d.kind) }
  function LoadGroup(r: DisasterLoad): DisasterGroup { DisasterGroup(r.id, r.kind) }
  function DeployedPayload(x: Deployment): Option<real> { x.dr.payload }

  function OfGroup(g: DisasterGroup): Deployment -> bool {
    (x: Deployment) => DeploymentGroup(x) == g
  }

  /** The output row of group `g`: COUNT(DR.D_NO) and ROUND(SUM(DR.Payload), 2). */
  function LoadRow(join: seq<Deployment>, round2: real -> real): DisasterGroup -> DisasterLoad {
    (g: DisasterGroup) =>
      DisasterLoad(g.id, g.kind, Count(join, OfGroup(g)), MapOption(SumOf(MapSeq(Filter(join, OfGroup(g)), DeployedPayload)), round2))
  }

  function LoadGroupsOf(rows: seq<DisasterLoad>): set<DisasterGroup> {
    set r | r in rows :: LoadGroup(r)
  }

  lemma LoadGroupsFacts(join: seq<Deployment>, round2: real -> real, rows: seq<DisasterLoad>)
    requires rows == MapSeq(Distinct(MapSeq(join, DeploymentGroup)), LoadRow(join, round2))
    ensures forall r :: r in rows ==> exists x :: x in join && DeploymentGroup(x) == LoadGroup(r)
    ensures forall r :: r in rows ==> r.activeDrones >= 1 && r == LoadRow(join, round2)(LoadGroup(r))
    ensures forall x :: x in join ==> DeploymentGroup(x) in LoadGroupsOf(rows)
  {
    var keys := Distinct(MapSeq(join, DeploymentGroup));
    forall r | r in rows
      ensures exists x :: x in join && DeploymentGroup(x) == LoadGroup(r)
      ensures r.activeDrones >= 1 && r == LoadRow(join, round2)(LoadGroup(r))
    {
      var g := MapSeqSource(keys, LoadRow(join, round2), r);
      var x := MapSeqSource(join, DeploymentGroup, g);
      CountPositive(join, OfGroup(g), x);
    }
    forall x | x in join
      ensures DeploymentGroup(x) in LoadGroupsOf(rows)
    {
      MapSeqMember(join, DeploymentGroup, x);
      MapSeqMember(keys, LoadRow(join, round2), DeploymentGroup(x));
      assert LoadGroup(LoadRow(join, round2)(DeploymentGroup(x))) == DeploymentGroup(x);
    }
  }

  /** /api/query4: per ongoing disaster that has drones, the number of its
      drones and their total payload. The SQL has no ORDER BY, so the row
      order is left open; this model lists groups in join order. */
  function Query4(db: Db, round2: real -> real): (rows: seq<DisasterLoad>)
    ensures forall r :: r in rows ==> exists x :: x in OngoingJoin(db) && DeploymentGroup(x) == LoadGroup(r)
    ensures forall r :: r in rows ==> r.activeDrones >= 1 && r == LoadRow(OngoingJoin(db), round2)(LoadGroup(r))
    ensures forall x :: x in OngoingJoin(db) ==> DeploymentGroup(x) in LoadGroupsOf(rows)
    ensures forall i, j :: 0 <= i < j < |rows| ==> LoadGroup(rows[i]) != LoadGroup(rows[j])
  {
    var join := OngoingJoin(db);
    var rows := MapSeq(Distinct(MapSeq(join, DeploymentGroup)), LoadRow(join, round2));
    LoadGroupsFacts(join, round2, rows);
    rows
  }

  // =====================================================================
  // query5: payload tier summary
  // =====================================================================

  datatype PayloadTier = Light | Medium | Heavy

  /** The payload tier: Light up to 10, Medium from 10.01 to 25 inclusive,
      and Heavy in the ELSE branch. A branch whose condition is Unknown is not
      taken, so a NULL payload falls through to Heavy, and so does every
      payload strictly between 10 and 10.01. */
  function Tier(payload: Option<real>): (t: PayloadTier)
    ensures t == Light <==> payload.Some? && payload.value <= 10.0
    ensures t == Medium <==> payload.Some? && 10.01 <= payload.value <= 25.0
    ensures t == Heavy <==> payload.None? || 10.0 < payload.value < 10.01 || 25.0 < payload.value
  {
    if AtMost(payload, 10.0) == True then Light
    else if Between(payload, 10.01, 25.0) == True then Medium
    else Heavy
  }

  function TierLabel(t: PayloadTier): string {
    match t
    case Light => "Light"
    case Medium => "Medium"
    case Heavy => "Heavy"
  }

  datatype TierCount = TierCount(tier: PayloadTier, drones: nat)

  function HasTier(t: PayloadTier): Drone -> bool {
    (dr: Drone) => Tier(dr.payload) == t
  }

  /** A tier's group, present only when some drone falls in it. */
  function TierGroup(db: Db, t: PayloadTier): (g: seq<TierCount>)
    ensures |g| <= 1
    ensures forall r :: r in g ==> r.tier == t && r.drones >= 1 && r.drones == Count(db.drones, HasTier(t))
    ensures |g| == 1 <==> exists dr :: dr in db.drones && Tier(dr.payload) == t
    ensures TotalDrones(g) == Count(db.drones, HasTier(t))
  {
    var n := Count(db.drones, HasTier(t));
    if n > 0 then [TierCount(t, n)] else []
  }

  function TotalDrones(rows: seq<TierCount>): nat {
    if |rows| == 0 then 0 else rows[0].drones + TotalDrones(rows[1..])
  }

  function TiersOf(rows: seq<TierCount>): set<PayloadTier> {
    set r | r in rows :: r.tier
  }

  lemma {:induction false} TotalDronesAppend(a: seq<TierCount>, b: seq<TierCount>)
    ensures TotalDrones(a + b) == TotalDrones(a) + TotalDrones(b)
  {
    if |a| > 0 {
      assert (a + b)[1..] == a[1..] + b;
      TotalDronesAppend(a[1..], b);
    } else {
      assert a + b == b;
    }
  }

  /** Every drone lies in exactly one tier. */
  lemma {:induction false} TierPartition(s: seq<Drone>)
    ensures Count(s, HasTier(Heavy)) + Count(s, HasTier(Light)) + Count(s, HasTier(Medium)) == |s|
  {
    if |s| > 0 {
      assert s == [s[0]] + s[1..];
      TierPartition(s[1..]);
      CountAppend([s[0]], s[1..], HasTier(Heavy));
      CountAppend([s[0]], s[1..], HasTier(Light));
      CountAppend([s[0]], s[1..], HasTier(Medium));
    }
  }

  /** The label order of ORDER BY Payload_Tier: 'Heavy' < 'Light' < 'Medium'. */
  lemma TierLabelOrder()
    ensures TextLt(TierLabel(Heavy), TierLabel(Light))
    ensures TextLt(TierLabel(Light), TierLabel(Medium))
    ensures TextLt(TierLabel(Heavy), TierLabel(Medium))
  {
    assert "Heavy"[0] == 'H' && "Light"[0] == 'L' && "Medium"[0] == 'M';
  }

  /** Heavy, Light and Medium groups, each at most one row, in that order,
      are in strictly increasing label order. */
  lemma TierRowsOrdered(heavy: seq<TierCount>, light: seq<TierCount>, medium: seq<TierCount>)
    requires |heavy| <= 1 && |light| <= 1 && |medium| <= 1
    requires forall r :: r in heavy ==> r.tier == Heavy
    requires forall r :: r in light ==> r.tier == Light
    requires forall r :: r in medium ==> r.tier == Medium
    ensures forall i, j :: 0 <= i < j < |heavy + light + medium| ==>
      TextLt(TierLabel((heavy + light + medium)[i].tier), TierLabel((heavy + light + medium)[j].tier))
  {
    var rows := heavy + light + medium;
    TierLabelOrder();
    forall i, j | 0 <= i < j < |rows|
      ensures TextLt(TierLabel(rows[i].tier), TierLabel(rows[j].tier))
    {
      if i < |heavy| {
        assert rows[i] == heavy[i];
        if j < |heavy| + |light| {
          assert rows[j] == light[j - |heavy|];
        } else {
          assert rows[j] == medium[j - |heavy| - |light|];
        }
      } else {
        assert rows[i] == light[i - |heavy|];
        assert rows[j] == medium[j - |heavy| - |light|];
      }
    }
  }

  /** The tier counts add up to the number of drones. */
  lemma Query5Total(db: Db, rows: seq<TierCount>)
    requires rows == TierGroup(db, Heavy) + TierGroup(db, Light) + TierGroup(db, Medium)
    ensures TotalDrones(rows) == |db.drones|
  {
    var heavy, light, medium := TierGroup(db, Heavy), TierGroup(db, Light), TierGroup(db, Medium);
    TierPartition(db.drones);
    TotalDronesAppend(heavy, light);
    TotalDronesAppend(heavy + light, medium);
  }

  lemma Query5Shape(db: Db, rows: seq<TierCount>)
    requires rows == TierGroup(db, Heavy) + TierGroup(db, Light) + TierGroup(db, Medium)
    ensures forall r :: r in rows ==> r.drones >= 1 && r.drones == Count(db.drones, HasTier(r.tier))
    ensures forall dr :: dr in db.drones ==> Tier(dr.payload) in TiersOf(rows)
    ensures TotalDrones(rows) == |db.drones|
    ensures forall i, j :: 0 <= i < j < |rows| ==> TextLt(TierLabel(rows[i].tier), TierLabel(rows[j].tier))
  {
    var heavy, light, medium := TierGroup(db, Heavy), TierGroup(db, Light), TierGroup(db, Medium);
    Query5Total(db, rows);
    TierRowsOrdered(heavy, light, medium);
    forall dr | dr in db.drones
      ensures Tier(dr.payload) in TiersOf(rows)
    {
      var t := Tier(dr.payload);
      CountPositive(db.drones, HasTier(t), dr);
      assert TierCount(t, Count(db.drones, HasTier(t))) in TierGroup(db, t);
    }
  }

  /** /api/query5: the number of drones per payload tier, by tier label. */
  function Query5(db: Db): (rows: seq<TierCount>)
    ensures forall r :: r in rows ==> r.drones >= 1 && r.drones == Count(db.drones, HasTier(r.tier))
    ensures forall dr :: dr in db.drones ==> Tier(dr.payload) in TiersOf(rows)
    ensures TotalDrones(rows) == |db.drones|
    ensures forall i, j :: 0 <= i < j < |rows| ==> TextLt(TierLabel(rows[i].tier), TierLabel(rows[j].tier))
  {
    var rows := TierGroup(db, Heavy) + TierGroup(db, Light) + TierGroup(db, Medium);
    Query5Shape(db, rows);
    rows
  }
}
