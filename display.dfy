/** What the passenger screen derives from the booking state without changing it: the fare
    block of the details sheet, the progress ring of the live status and the banner above the
    map (views/PassengerView.tsx:116-219 and 402-413). Amounts are in cents. */
module Display {
  import opened Types
  import opened Booking

  /** The fare block: a headline amount, whether it is labelled "per person", and the optional
      "Total: …" and "… each" lines below it. */
  datatype FareView = FareView(headlineCents: nat, perPerson: bool, totalLine: Option<nat>, eachLine: Option<nat>)

  /** What the group pays altogether, as the block shows it. */
  function GroupAmount(f: FareView): nat {
    if f.perPerson && f.totalLine.Some? then f.totalLine.value else f.headlineCents
  }

  /** The price of one seat, where the block shows it. */
  function SeatAmount(f: FareView): Option<nat> {
    if f.perPerson then Some(f.headlineCents) else f.eachLine
  }

  /** A split fare for a group leads with the seat price; otherwise the headline is the group
      amount, with the seat price below it for a group. */
  function Fare(priceCents: nat, passengers: nat, splitBill: bool): (f: FareView)
    ensures f.perPerson <==> passengers > 1 && splitBill
    ensures GroupAmount(f) == priceCents * passengers
    ensures passengers > 1 ==> SeatAmount(f) == Some(priceCents)
    ensures passengers <= 1 ==> SeatAmount(f).None?
    ensures !f.perPerson ==> f.totalLine.None?
    ensures f.perPerson ==> f.totalLine == Some(priceCents * passengers) && f.eachLine.None?
  {
    if passengers > 1 && splitBill then
      FareView(priceCents, true, Some(priceCents * passengers), None)
    else
      FareView(priceCents * passengers, false, None, if passengers > 1 then Some(priceCents) else None)
  }

  /** The split switch changes the layout of the block but never the amount the group pays. */
  lemma SplitKeepsGroupAmount(priceCents: nat, passengers: nat)
    ensures GroupAmount(Fare(priceCents, passengers, true)) == GroupAmount(Fare(priceCents, passengers, false))
    ensures passengers <= 1 ==> Fare(priceCents, passengers, true) == Fare(priceCents, passengers, false)
  {
  }

  /** The progress ring, in percent: a quarter for each stage of the timeline; AVAILABLE has no ring. */
  function Progress(status: RideStatus): (p: Option<nat>)
    ensures p.None? <==> status == AVAILABLE
    ensures p.Some? ==> 25 <= p.value <= 100 && p.value % 25 == 0
  {
    match status
    case AVAILABLE => None
    case CONFIRMED => Some(25)
    case APPROACHING => Some(50)
    case ARRIVED => Some(75)
    case ON_TRIP => Some(100)
  }

  /** Each later stage of the timeline shows strictly more progress, and the last one is full. */
  lemma ProgressFollowsTimeline(i: nat, j: nat)
    requires i < j < |Timeline|
    ensures Progress(Timeline[i]).Some? && Progress(Timeline[j]).Some?
    ensures Progress(Timeline[i]).value < Progress(Timeline[j]).value
    ensures Progress(Timeline[|Timeline| - 1]) == Some(100)
  {
  }

  /** As the clock runs, the ring never goes back. */
  lemma ProgressNeverDecreases(e1: nat, e2: nat)
    requires e1 <= e2
    ensures Progress(StatusAt(e1)).value <= Progress(StatusAt(e2)).value
  {
  }

  /** The banner above the map. */
  datatype Banner = NoBanner | OfflineTicket | SyncingBooking | LiveStatus(status: RideStatus, percent: nat)

  /** Only a confirmed booking has a banner; a pending one shows the offline ticket even while
      it syncs; a syncing one says so; otherwise the live status with its progress. */
  function StatusBanner(s: Session): (b: Banner)
    ensures s.step != Step.CONFIRMED ==> b == NoBanner
    ensures s.step == Step.CONFIRMED && s.pendingSync ==> b == OfflineTicket
    ensures b == SyncingBooking <==> s.step == Step.CONFIRMED && !s.pendingSync && s.isSyncing
    ensures b.LiveStatus? ==> Tracking(s) && Progress(b.status) == Some(b.percent) && b.status == s.status
  {
    if s.step != Step.CONFIRMED then NoBanner
    else if s.pendingSync then OfflineTicket
    else if s.isSyncing then SyncingBooking
    else match Progress(s.status)
      case None => NoBanner
      case Some(p) => LiveStatus(s.status, p)
  }

  /** In every reachable session a confirmed booking always has a banner, and the live status
      shows exactly when the booking is being tracked. */
  lemma ConfirmedAlwaysHasBanner(s: Session)
    requires Inv(s) && s.step == Step.CONFIRMED
    ensures StatusBanner(s) != NoBanner
    ensures StatusBanner(s).LiveStatus? <==> Tracking(s)
  {
    if Tracking(s) {
      var p := s.statusTimeouts;
      assert |p| == 0 || |p| == 1 || |p| == 2 || |p| == 3;
      assert s.status in Timeline;
    }
  }

  /** `ms` ms after an online booking, the banner shows the schedule's status and its progress. */
  lemma OnlineBannerAfter(s: Session, ms: nat)
    requires Inv(s) && s.step == DETAILS && !s.isOffline && !s.pendingSync && !s.isSyncing
    ensures StatusBanner(Wait(Confirm(s), ms)) == LiveStatus(StatusAt(ms), Progress(StatusAt(ms)).value)
  {
    OnlineBookingTimeline(s, ms);
    ConfirmOnlineTracks(s);
    ConfirmInv(s);
    WaitKeepsTracking(Confirm(s), Confirm(s).now + ms);
  }
}
