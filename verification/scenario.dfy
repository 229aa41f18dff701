/**
 * A worked example: an ongoing flood D1 owning drone DR1 (payload 30) that
 * raised one High alert. The three grouped queries agree on it.
 */
module Scenario {
  import opened SqlValues
  import opened Seqs
  import opened Schema
  import opened Joins
  import opened Queries
  import opened QueryFacts

  const Flood := Disaster("D1", None, Some("Flood"), None, None, None)
  const Dr1 := Drone("DR1", None, Some(30.0), None, Some("D1"))
  const HighAlert := Alert("A1", None, None, None, Some("High"), None, Some("DR1"))

  function FloodDb(): Db {
    Db([Flood], [Dr1], [], [], [], [HighAlert], [])
  }

  lemma FloodDbConsistent()
    ensures Consistent(FloodDb())
  {
    var db := FloodDb();
    assert DisasterIds(db) == {"D1"};
    assert DroneIds(db) == {"DR1"};
  }

  /** query3 lists DR1 with its one High alert. */
  lemma FloodQuery3()
    ensures exists r :: r in Query3(FloodDb()) && r.no == "DR1" && r.criticalAlerts == 1
  {
    var db := FloodDb();
    FloodDbConsistent();
    assert Filter([HighAlert], SevereFor("DR1")) == [HighAlert];
    Query3Flags(db, Dr1);
    var r :| r in Query3(db) && RowGroup(r) == DroneGroup("DR1", None);
  }

  /** query4 lists the ongoing D1 with its one drone. */
  lemma FloodQuery4(round2: real -> real)
    ensures exists r :: r in Query4(FloodDb(), round2) && r.id == "D1" && r.activeDrones == 1
  {
    var db := FloodDb();
    FloodDbConsistent();
    assert Filter([Dr1], AttachedTo("D1")) == [Dr1];
    Query4Load(db, round2, Flood);
    var r :| r in Query4(db, round2) && LoadGroup(r) == DisasterGroup("D1", Some("Flood"));
  }

  /** query5 has the single group Heavy, holding DR1. */
  lemma FloodQuery5()
    ensures Query5(FloodDb()) == [TierCount(Heavy, 1)]
  {
    assert Filter([Dr1], HasTier(Heavy)) == [Dr1];
    assert Filter([Dr1], HasTier(Light)) == [];
    assert Filter([Dr1], HasTier(Medium)) == [];
  }
}
