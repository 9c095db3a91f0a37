/** The driver screen of views/DriverView.tsx: the active tab, the road-alert feed and the
    trip accepted from a pickup pin. Fares are in cents; the wallet balance is a property the
    screen shows but, apart from the change form left out of this model, never changes. */
module DriverView {
  import opened Types
  import Catalog

  datatype Tab = RADAR | WALLET | ALERTS

  datatype TripStatus = ACCEPTED | ARRIVED | COMPLETED

  datatype Trip = Trip(id: string, passengerName: string, location: string, distance: string,
                       fareCents: nat, status: TripStatus)

  /** The pickup id of the Westgate pin; every other pin is treated as Avondale. */
  const WestgatePickup: string := "pickup_westgate"

  /** The mock request behind a pickup pin. */
  function TripFor(pickupId: string): (t: Trip)
    ensures t.id == pickupId && t.status == ACCEPTED
    ensures pickupId == WestgatePickup ==>
      t.passengerName == "Tendai M." && t.location == "Westgate Roundabout" && t.distance == "2.4 km" && t.fareCents == 400
    ensures pickupId != WestgatePickup ==>
      t.passengerName == "Grace K." && t.location == "Avondale Shops" && t.distance == "1.1 km" && t.fareCents == 250
  {
    var westgate := pickupId == WestgatePickup;
    Trip(pickupId,
         if westgate then "Tendai M." else "Grace K.",
         if westgate then "Westgate Roundabout" else "Avondale Shops",
         if westgate then "2.4 km" else "1.1 km",
         if westgate then 400 else 250,
         ACCEPTED)
  }

  /** reportAlert: a new alert at the head of the feed, located "Current Location" and timed
      "Just now". The id, a timestamp in the source, is a parameter here. */
  function PrependAlert(alerts: seq<Alert>, id: string, kind: AlertKind): (r: seq<Alert>)
    ensures |r| == |alerts| + 1
    ensures r[0].id == id && r[0].kind == kind && r[0].location == "Current Location" && r[0].time == "Just now"
    ensures r[1..] == alerts
  {
    [Alert(id, kind, "Current Location", "Just now")] + alerts
  }

  predicate DistinctAlertIds(alerts: seq<Alert>) {
    forall i, j :: 0 <= i < j < |alerts| ==> alerts[i].id != alerts[j].id
  }

  /** A report with a fresh id keeps the feed's ids distinct. */
  lemma ReportKeepsIdsDistinct(alerts: seq<Alert>, id: string, kind: AlertKind)
    requires DistinctAlertIds(alerts)
    requires forall a :: a in alerts ==> a.id != id
    ensures DistinctAlertIds(PrependAlert(alerts, id, kind))
  {
    var r := PrependAlert(alerts, id, kind);
    forall i, j | 0 <= i < j < |r|
      ensures r[i].id != r[j].id
    {
      assert r[j] == alerts[j - 1];
      if i > 0 {
        assert r[i] == alerts[i - 1];
      }
    }
  }

  /** The feed after reporting `ids` in order, all of one kind. */
  function ReportAll(alerts: seq<Alert>, ids: seq<string>, kind: AlertKind): seq<Alert>
    decreases |ids|
  {
    if ids == [] then alerts
    else PrependAlert(ReportAll(alerts, ids[..|ids| - 1], kind), ids[|ids| - 1], kind)
  }

  /** Several reports stack up newest first, on top of the untouched earlier feed. */
  lemma {:induction false} ReportsStackNewestFirst(alerts: seq<Alert>, ids: seq<string>, kind: AlertKind)
    ensures var r := ReportAll(alerts, ids, kind);
      |r| == |alerts| + |ids| && r[|ids|..] == alerts
      && forall i :: 0 <= i < |ids| ==> r[i].id == ids[|ids| - 1 - i]
    decreases |ids|
  {
    if ids != [] {
      var front := ids[..|ids| - 1];
      ReportsStackNewestFirst(alerts, front, kind);
      var before := ReportAll(alerts, front, kind);
      var r := ReportAll(alerts, ids, kind);
      assert r == PrependAlert(before, ids[|ids| - 1], kind);
      assert r[|ids|..] == before[|front|..];
      forall i | 0 <= i < |ids|
        ensures r[i].id == ids[|ids| - 1 - i]
      {
        if i > 0 {
          assert r[i] == before[i - 1];
        }
      }
    }
  }

  /** The header badge. */
  datatype Badge = ONLINE | BUSY

  class DriverView {
    var activeTab: Tab
    var alerts: seq<Alert>
    var currentTrip: Option<Trip>
    var walletCents: nat

    /** An accepted trip is only ever ACCEPTED: nothing moves it to ARRIVED or COMPLETED. */
    ghost predicate Valid()
      reads this
    {
      currentTrip.Some? ==> currentTrip.value.status == ACCEPTED
    }

    /** Mounting: the radar tab, the seed alerts, no trip. */
    constructor(walletCents: nat)
      ensures activeTab == RADAR && alerts == Catalog.MockAlerts && currentTrip.None?
      ensures this.walletCents == walletCents && Valid()
    {
      activeTab := RADAR;
      alerts := Catalog.MockAlerts;
      currentTrip := None;
      this.walletCents := walletCents;
    }

    function HeaderBadge(): (b: Badge)
      reads this
      ensures b == BUSY <==> currentTrip.Some?
    {
      if currentTrip.Some? then BUSY else ONLINE
    }

    /** The bottom tab bar is hidden while a trip is active. */
    predicate TabsVisible()
      reads this
    {
      currentTrip.None?
    }

    /** The badge reads BUSY exactly when the tab bar is hidden. */
    lemma BusyHidesTabs()
      ensures HeaderBadge() == BUSY <==> !TabsVisible()
    {
    }

    method SelectTab(tab: Tab)
      requires Valid() && TabsVisible()
      modifies this
      ensures activeTab == tab && Valid()
      ensures alerts == old(alerts) && currentTrip == old(currentTrip) && walletCents == old(walletCents)
    {
      activeTab := tab;
    }

    method ReportAlert(id: string, kind: AlertKind)
      requires Valid()
      modifies this
      ensures alerts == PrependAlert(old(alerts), id, kind) && Valid()
      ensures activeTab == old(activeTab) && currentTrip == old(currentTrip) && walletCents == old(walletCents)
    {
      alerts := [Alert(id, kind, "Current Location", "Just now")] + alerts;
    }

    /** A pickup pin: the trip is replaced whatever was active (there is no busy guard). */
    method HandleAcceptRide(pickupId: string)
      modifies this
      ensures currentTrip == Some(TripFor(pickupId)) && Valid()
      ensures activeTab == old(activeTab) && alerts == old(alerts) && walletCents == old(walletCents)
    {
      currentTrip := Some(TripFor(pickupId));
    }

    /** "Arrived / Complete": the trip ends and no fare reaches the wallet. */
    method HandleCompleteTrip()
      modifies this
      ensures currentTrip.None? && HeaderBadge() == ONLINE && TabsVisible() && Valid()
      ensures walletCents == old(walletCents) && activeTab == old(activeTab) && alerts == old(alerts)
    {
      if currentTrip.Some? {
        currentTrip := None;
      }
    }

    /** The dismiss button on the trip card. */
    method DismissTrip()
      modifies this
      ensures currentTrip.None? && HeaderBadge() == ONLINE && TabsVisible() && Valid()
      ensures walletCents == old(walletCents) && activeTab == old(activeTab) && alerts == old(alerts)
    {
      currentTrip := None;
    }
  }
}
