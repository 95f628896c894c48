/** The three partners the deployment registers, and the partner table seeded from them. */
module PartnerSeed {
  import opened Schema

  datatype SeedPartner = SeedPartner(partnerId: string, name: PartnerName, category: Category, image: string)

  const Partners: seq<SeedPartner> := [
    SeedPartner("1", Partner1, Footware, "test.jpg"),
    SeedPartner("2", Partner2, Apparel, "test.jpg"),
    SeedPartner("3", Partner3, Eyewear, "test.jpg")
  ]

  /** Three entries with pairwise distinct ids; the partner with id "k" is named Partnerk. */
  lemma PartnerListShape()
    ensures |Partners| == 3
    ensures forall i, j :: 0 <= i < j < |Partners| ==> Partners[i].partnerId != Partners[j].partnerId
    ensures forall i :: 0 <= i < |Partners| ==> PartnerText(Partners[i].name) == "Partner" + Partners[i].partnerId
    ensures Partners[0].category == Footware && Partners[1].category == Apparel && Partners[2].category == Eyewear
  {
  }

  /** The partner-table row for a listed partner, pointing at the given partner endpoint. */
  function Row(p: SeedPartner, webhook: string): PartnerRecord {
    PartnerRecord(p.partnerId, p.name, webhook, CategoryText(p.category))
  }

  /** The partner table after writing one row per listed partner, in list order. */
  function SeedRows(ps: seq<SeedPartner>, webhook: string): map<string, PartnerRecord>
    decreases |ps|
  {
    if |ps| == 0 then map[]
    else SeedRows(ps[..|ps| - 1], webhook)[ps[|ps| - 1].partnerId := Row(ps[|ps| - 1], webhook)]
  }

  predicate DistinctIds(ps: seq<SeedPartner>) {
    forall i, j :: 0 <= i < j < |ps| ==> ps[i].partnerId != ps[j].partnerId
  }

  /** The ids of the listed partners. */
  function Ids(ps: seq<SeedPartner>): set<string>
    decreases |ps|
  {
    if |ps| == 0 then {} else Ids(ps[..|ps| - 1]) + {ps[|ps| - 1].partnerId}
  }

  /** With distinct ids, the table has exactly the listed ids, each mapped to its own row. */
  lemma {:induction false} SeedRowsContents(ps: seq<SeedPartner>, webhook: string)
    requires DistinctIds(ps)
    ensures SeedRows(ps, webhook).Keys == Ids(ps)
    ensures forall i :: 0 <= i < |ps| ==> ps[i].partnerId in SeedRows(ps, webhook)
    ensures forall i :: 0 <= i < |ps| ==> SeedRows(ps, webhook)[ps[i].partnerId] == Row(ps[i], webhook)
    decreases |ps|
  {
    if |ps| > 0 {
      var init := ps[..|ps| - 1];
      assert DistinctIds(init) by {
        forall i, j | 0 <= i < j < |init| ensures init[i].partnerId != init[j].partnerId {
          assert init[i] == ps[i] && init[j] == ps[j];
        }
      }
      SeedRowsContents(init, webhook);
      forall i | 0 <= i < |ps|
        ensures ps[i].partnerId in SeedRows(ps, webhook)
        ensures SeedRows(ps, webhook)[ps[i].partnerId] == Row(ps[i], webhook)
      {
        if i < |init| {
          assert init[i] == ps[i];
          assert ps[i].partnerId != ps[|ps| - 1].partnerId;
        }
      }
    }
  }

  /**
   * The partner table after provisioning: one row per listed partner, keyed by its id,
   * all pointing at the same mock partner endpoint.
   */
  function SeedTable(webhook: string): map<string, PartnerRecord> {
    SeedRows(Partners, webhook)
  }

  /** The provisioned table has keys "1", "2", "3", for Partner1, Partner2 and Partner3. */
  lemma SeedTableContents(webhook: string)
    ensures SeedTable(webhook).Keys == {"1", "2", "3"}
    ensures forall i :: 0 <= i < |Partners| ==> SeedTable(webhook)[Partners[i].partnerId] == Row(Partners[i], webhook)
    ensures SeedTable(webhook)["1"] == PartnerRecord("1", Partner1, webhook, "Footware")
    ensures SeedTable(webhook)["2"] == PartnerRecord("2", Partner2, webhook, "Apparel")
    ensures SeedTable(webhook)["3"] == PartnerRecord("3", Partner3, webhook, "Eyewear")
  {
    PartnerListShape();
    SeedRowsContents(Partners, webhook);
    var p := Partners;
    assert p[..1][..0] == [] && p[..2][..1] == p[..1] && p[..3][..2] == p[..2] && p[..3] == p;
    assert Ids(p[..1]) == {"1"};
    assert Ids(p[..2]) == {"1", "2"};
  }
}
