/**
 * src/utils/mockData.ts: the inspection-status thresholds and the demo
 * asset and user tables. Dates are day offsets from today, so each asset's
 * status is `CalculateStatus` of its `nextTestDate` offset.
 */
module MockData {
  import opened Types
  import AuthContext

  /** The status for an asset whose next test is `daysDiff` days away. */
  function CalculateStatus(daysDiff: int): (st: AssetStatus)
    ensures st == Expired <==> daysDiff < 0
    ensures st == NearDue <==> 0 <= daysDiff <= 30
    ensures st == Active <==> daysDiff > 30
  {
    if daysDiff < 0 then Expired
    else if daysDiff <= 30 then NearDue
    else Active
  }

  /** How far a status is from needing attention: expired < near due < active. */
  function Rank(st: AssetStatus): nat
  {
    match st
    case Expired => 0
    case NearDue => 1
    case Active => 2
  }

  /** A later next-test date never gives a worse status. */
  lemma CalculateStatusMonotone(d1: int, d2: int)
    requires d1 <= d2
    ensures Rank(CalculateStatus(d1)) <= Rank(CalculateStatus(d2))
  {
  }

  /** A demo asset whose dates are given as offsets from today. */
  function MockAsset(id: string, name: string, serial: string, classification: string,
                     issue: int, lastTest: int, nextTest: int, assignedTo: string,
                     documents: seq<Document>): Asset
  {
    Asset(id, name, serial, classification, issue, lastTest, nextTest,
          CalculateStatus(nextTest), assignedTo, documents)
  }

  /** `mockAssets` */
  const MockAssets: seq<Asset> := [
    MockAsset("1", "Insulating Rubber Gloves", "SG-GLV-001", "Class 00", -180, -150, 30, "1",
              [Document("doc-1", "Initial Certification", -180, "#"), Document("doc-2", "Last Test Report", -150, "#")]),
    MockAsset("2", "Voltage Detector", "SG-VDT-002", "Detection Equipment", -200, -90, 90, "2",
              [Document("doc-3", "Calibration Certificate", -90, "#")]),
    MockAsset("3", "Insulating Blanket", "SG-BLK-003", "Class 1", -120, -60, 120, "1",
              [Document("doc-4", "Test Report", -60, "#")]),
    MockAsset("4", "Arc Flash Kit", "SG-AFK-004", "PPE", -300, -10, 170, "2",
              [Document("doc-5", "Inspection Report", -10, "#")]),
    MockAsset("5", "Insulated Hand Tools", "SG-IHT-005", "1000V Rated", -250, -190, -10, "1",
              [Document("doc-6", "Certificate of Conformance", -250, "#")]),
    MockAsset("6", "Rubber Insulating Sleeves", "SG-RIS-006", "Class 1", -170, -30, 150, "2",
              [Document("doc-7", "Test Certificate", -30, "#")]),
    MockAsset("7", "Face Shield", "SG-FSH-007", "Arc Flash Protection", -365, -350, -170, "1",
              [Document("doc-8", "Inspection Report", -350, "#")]),
    MockAsset("8", "Insulating Mat", "SG-MAT-008", "Class 3", -140, -130, 50, "2",
              [Document("doc-9", "Test Report", -130, "#")])
  ]

  /** `mockUsers` */
  const MockUsers: seq<User> := [
    User("1", "Admin User", "admin@example.com", Admin),
    User("2", "Tech User", "tech@example.com", Technician)
  ]

  /**
   * Every demo asset is assigned to a demo user, and its status is the one
   * its next test date calls for.
   */
  lemma MockAssetsConsistent()
    ensures forall a :: a in MockAssets ==> a.assignedTo in {"1", "2"}
    ensures forall a :: a in MockAssets ==> exists u :: u in MockUsers && u.id == a.assignedTo
    ensures forall a :: a in MockAssets ==> a.status == CalculateStatus(a.nextTestDate)
  {
    assert MockUsers[0].id == "1" && MockUsers[1].id == "2";
  }

  /**
   * With the nominal offsets, asset 1 is near due, assets 5 and 7 are
   * expired, and the other five are active.
   */
  lemma MockAssetStatuses()
    ensures |MockAssets| == 8
    ensures forall i :: 0 <= i < |MockAssets| ==>
              MockAssets[i].status == (if i == 0 then NearDue else if i == 4 || i == 6 then Expired else Active)
  {
  }

  /** The demo user table agrees with the built-in test identities of the auth context. */
  lemma MockUsersMatchTestIdentities()
    ensures |MockUsers| == |AuthContext.MOCK_USERS|
    ensures forall i :: 0 <= i < |MockUsers| ==>
              MockUsers[i] == AuthContext.WithoutPassword(AuthContext.MOCK_USERS[i])
  {
  }
}
