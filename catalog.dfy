/** The seed catalog the passenger and driver views start from (constants.ts). */
module Catalog {
  import opened Types
  import opened RouteSearch

  const KChi1: Ride :=
    Ride("k_chi_1", KOMBI,
      Driver("d_chi_1", "Panashe (Makoni)", 46, 2100, "AEG-9988", "Toyota Hiace (Baby Quantum)", true, ["USD", "EcoCash"]),
      200, 4, 2, "CBD to Chitungwiza (Makoni)", Coordinates(-180125, 310754))

  const BChi1: Ride :=
    Ride("b_chi_1", BUS,
      Driver("d_chi_2", "ZUPCO 104", 39, 5400, "ZUP-104", "Golden Dragon Bus", false, ["TapCard", "ZWG"]),
      75, 15, 32, "CBD to Chitungwiza (Unit L)", Coordinates(-180050, 310850))

  const TChi1: Ride :=
    Ride("t_chi_1", TAXI,
      Driver("d_chi_3", "Tonderai (Mushikashika)", 42, 890, "AFD-2211", "Honda Fit (Blue)", false, ["USD"]),
      300, 1, 1, "CBD to Chitungwiza (Express)", Coordinates(-179900, 310600))

  const KWest1: Ride :=
    Ride("k_west_1", KOMBI,
      Driver("d_west_1", "Tinashe M.", 48, 1240, "ABZ-1234", "Toyota Hiace", true, ["USD", "EcoCash"]),
      150, 3, 3, "City to Westgate (via Lomagundi)", Coordinates(-177850, 309850))

  const TWest1: Ride :=
    Ride("t_west_1", TAXI,
      Driver("d_west_2", "Private Taxi (Vaya)", 50, 400, "AFK-9090", "Toyota Corolla", true, ["USD", "Visa"]),
      800, 8, 3, "Ride to Westgate Mall", Coordinates(-177820, 309800))

  const KAvo1: Ride :=
    Ride("k_avo_1", KOMBI,
      Driver("d_avo_1", "Simba", 44, 900, "ACY-5512", "Nissan Caravan", false, ["USD"]),
      100, 2, 1, "CBD to Avondale Shops", Coordinates(-178050, 310350))

  const TAvo1: Ride :=
    Ride("t_avo_1", TAXI,
      Driver("d_avo_2", "Blessing (Mshika)", 47, 1500, "AEF-5555", "Honda Fit (Silver)", true, ["USD"]),
      200, 1, 2, "CBD to Parirenyatwa Hospital", Coordinates(-178150, 310450))

  const KBor1: Ride :=
    Ride("k_bor_1", KOMBI,
      Driver("d_bor_1", "Farai", 45, 890, "ACD-4321", "Toyota Quantum", false, ["USD", "Bond"]),
      150, 6, 4, "CBD to Sam Levy Village", Coordinates(-177550, 310950))

  const TBor1: Ride :=
    Ride("t_bor_1", TAXI,
      Driver("d_bor_2", "Prestige Cabs", 49, 200, "PRE-001", "Mercedes C-Class", true, ["USD", "Swipe"]),
      1200, 10, 3, "Ride to Borrowdale Brooke", Coordinates(-177400, 311100))

  const KMba1: Ride :=
    Ride("k_mba_1", KOMBI,
      Driver("d_mba_1", "Godknows", 41, 3000, "AFP-1122", "Toyota Hiace (Old)", false, ["USD", "ZiG"]),
      50, 2, 2, "City to Mbare Musika", Coordinates(-178550, 310400))

  const BBul1: Ride :=
    Ride("b_bul_1", BUS,
      Driver("d_bul_1", "InterCape Pathfinder", 49, 120, "SA-ZIM-01", "Luxury Coach (Double Decker)", true, ["USD", "Visa"]),
      2500, 60, 12, "Harare to Bulawayo", Coordinates(-178300, 309000))

  const BMut1: Ride :=
    Ride("b_mut_1", BUS,
      Driver("d_mut_1", "Smart Express", 43, 800, "SMA-2020", "Scania Marcopolo", true, ["USD", "EcoCash"]),
      1500, 45, 8, "Harare to Mutare", Coordinates(-178350, 311500))

  /** The seed rides whose route does not lead to Chitungwiza. */
  const OtherRides: seq<Ride> := [KWest1, TWest1, KAvo1, TAvo1, KBor1, TBor1, KMba1, BBul1, BMut1]

  const MockRides: seq<Ride> := [
    KChi1, BChi1, TChi1, KWest1, TWest1, KAvo1,
    TAvo1, KBor1, TBor1, KMba1, BBul1, BMut1
  ]

  const MockAlerts: seq<Alert> := [
    Alert("a1", POLICE, "Samora Machel Ave (Showgrounds)", "2 min ago"),
    Alert("a2", TRAFFIC, "Julius Nyerere Way", "5 min ago"),
    Alert("a3", ACCIDENT, "Seke Road Flyover", "12 min ago"),
    Alert("a4", POLICE, "Enterprise Rd (Newlands)", "20 min ago")
  ]

  /** A lower-case query letter that the route lacks in either case rules the ride out. */
  lemma {:induction false} MissingLetterExcludes(route: string, query: string, k: nat)
    requires k < |query| && 'a' <= query[k] <= 'z'
    requires forall i :: 0 <= i < |route| ==> route[i] != query[k] && route[i] as int != query[k] as int - 32
    ensures !Contains(Lower(route), Lower(query))
  {
    forall i | 0 <= i && i + |query| <= |route|
      ensures !OccursAt(Lower(route), Lower(query), i)
    {
      assert Lower(route)[i..i + |query|][k] == Lower(route)[i + k];
    }
  }

  /** A route that spells the query at an offset is kept. */
  lemma {:induction false} OffsetIncludes(route: string, query: string, i: nat)
    requires i + |query| <= |route|
    requires forall k :: 0 <= k < |query| ==> LowerChar(route[i + k]) == LowerChar(query[k])
    ensures Contains(Lower(route), Lower(query))
  {
    assert OccursAt(Lower(route), Lower(query), i);
  }

  lemma ChitungwizaRoutes()
    ensures Matches("chitungwiza", KChi1) && Matches("chitungwiza", BChi1) && Matches("chitungwiza", TChi1)
  {
    OffsetIncludes(KChi1.route, "chitungwiza", 7);
    OffsetIncludes(BChi1.route, "chitungwiza", 7);
    OffsetIncludes(TChi1.route, "chitungwiza", 7);
  }

  /** A route without the letter z never matches "chitungwiza". */
  lemma NoZExcluded(r: Ride)
    requires forall i :: 0 <= i < |r.route| ==> r.route[i] != 'z' && r.route[i] != 'Z'
    ensures !Matches("chitungwiza", r)
  {
    MissingLetterExcludes(r.route, "chitungwiza", 9);
  }

  lemma WestgateAvondaleRoutes()
    ensures !Matches("chitungwiza", KWest1) && !Matches("chitungwiza", TWest1) && !Matches("chitungwiza", KAvo1)
  {
    NoZExcluded(KWest1);
    NoZExcluded(TWest1);
    NoZExcluded(KAvo1);
  }

  lemma HospitalBorrowdaleRoutes()
    ensures !Matches("chitungwiza", TAvo1) && !Matches("chitungwiza", KBor1) && !Matches("chitungwiza", TBor1)
  {
    NoZExcluded(TAvo1);
    NoZExcluded(KBor1);
    NoZExcluded(TBor1);
  }

  lemma LongDistanceRoutes()
    ensures !Matches("chitungwiza", KMba1) && !Matches("chitungwiza", BBul1) && !Matches("chitungwiza", BMut1)
  {
    NoZExcluded(KMba1);
    NoZExcluded(BBul1);
    NoZExcluded(BMut1);
  }

  /** None of the nine other seed routes has a z, so none matches "chitungwiza". */
  lemma OtherRoutes()
    ensures forall x :: x in OtherRides ==> !Matches("chitungwiza", x)
  {
    WestgateAvondaleRoutes();
    HospitalBorrowdaleRoutes();
    LongDistanceRoutes();
  }

  /** Searching "chitungwiza" keeps exactly the three Chitungwiza rides, in catalog order. */
  lemma ChitungwizaSearch()
    ensures Filter("chitungwiza", MockRides) == [KChi1, BChi1, TChi1]
  {
    var q := "chitungwiza";
    ChitungwizaRoutes();
    OtherRoutes();
    KeepMatchingNone(q, OtherRides);
    assert MockRides == [KChi1, BChi1, TChi1] + OtherRides;
    KeepMatchingAppend(q, [KChi1, BChi1, TChi1], OtherRides);
    KeepMatchingAll(q, [KChi1, BChi1, TChi1]);
  }

  /** Twelve seed rides, no id repeated. */
  lemma MockRidesDistinct()
    ensures |MockRides| == 12
    ensures DistinctIds(MockRides)
  {
  }

  /** Every seed ride has a free seat, so none is sold out when the view opens. */
  lemma MockRidesBookable()
    ensures forall i :: 0 <= i < |MockRides| ==> MockRides[i].seatsLeft >= 1
  {
  }

  /** Seed fares lie between 0.50 and 25.00 and every ETA is a positive number of minutes. */
  lemma MockRidesPricesAndEtas()
    ensures forall i :: 0 <= i < |MockRides| ==> 50 <= MockRides[i].priceCents <= 2500
    ensures forall i :: 0 <= i < |MockRides| ==> MockRides[i].eta >= 1
  {
  }

  /** Only t_chi_1 and k_avo_1 start with a single seat. */
  lemma SingleSeatRides()
    ensures forall i :: 0 <= i < |MockRides| ==>
      (MockRides[i].seatsLeft == 1 <==> MockRides[i].id == "t_chi_1" || MockRides[i].id == "k_avo_1")
  {
  }

  /** The first letter of a seed id names its vehicle type. */
  lemma IdPrefixMatchesType()
    ensures forall i :: 0 <= i < |MockRides| ==> |MockRides[i].id| > 2 && MockRides[i].id[1] == '_'
    ensures forall i :: 0 <= i < |MockRides| ==>
      && (MockRides[i].id[0] == 'k' <==> MockRides[i].kind == KOMBI)
      && (MockRides[i].id[0] == 'b' <==> MockRides[i].kind == BUS)
      && (MockRides[i].id[0] == 't' <==> MockRides[i].kind == TAXI)
  {
  }

  /** Four seed alerts, a1 to a4. */
  lemma MockAlertsIds()
    ensures |MockAlerts| == 4
    ensures MockAlerts[0].id == "a1" && MockAlerts[1].id == "a2"
    ensures MockAlerts[2].id == "a3" && MockAlerts[3].id == "a4"
    ensures forall i, j :: 0 <= i < j < |MockAlerts| ==> MockAlerts[i].id != MockAlerts[j].id
  {
  }
}
