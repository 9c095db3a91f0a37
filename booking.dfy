/** The passenger booking engine of views/PassengerView.tsx as a pure state machine.

    A `Session` holds every piece of component state plus an explicit millisecond
    clock and the pending timeouts. Each handler first applies its own state
    updates and then `Commit` runs the component's two effects the way the
    framework does after a render: an effect runs only when one of its
    dependencies differs from the previous render, the status effect (declared
    first) before the sync effect, and an effect's own updates cause one more
    render. The imperative view in passenger_view.dfy is proved against these
    functions. */
module Booking {
  import opened Types
  import opened RouteSearch

  datatype Step = SEARCH | DETAILS | CONFIRMED

  /** A pending status advance: at time `due` the status becomes `status`. */
  datatype Timeout = Timeout(due: nat, status: RideStatus)

  /** Duration of the simulated sync round trip, in ms. */
  const SyncDelay: nat := 2500

  /** The three advances the status effect schedules when a booking becomes trackable at `start`. */
  function Schedule(start: nat): seq<Timeout> {
    [Timeout(start + 4000, APPROACHING), Timeout(start + 10000, ARRIVED), Timeout(start + 15000, ON_TRIP)]
  }

  /** The statuses a tracked booking goes through, in order. */
  const Timeline: seq<RideStatus> := [RideStatus.CONFIRMED, APPROACHING, ARRIVED, ON_TRIP]

  /** The status the schedule shows `elapsed` ms after it started, once every advance due by then has fired. */
  function StatusAt(elapsed: nat): RideStatus {
    if elapsed < 4000 then RideStatus.CONFIRMED
    else if elapsed < 10000 then APPROACHING
    else if elapsed < 15000 then ARRIVED
    else ON_TRIP
  }

  datatype Session = Session(
    searchQuery: string,
    isOffline: bool,
    rides: seq<Ride>,
    selected: Option<Ride>,
    step: Step,
    showStory: bool,
    passengers: nat,
    splitBill: bool,
    status: RideStatus,
    pendingSync: bool,
    isSyncing: bool,
    now: nat,                        // the clock, in ms
    syncTimeouts: seq<nat>,          // due times of the sync completions not yet fired
    statusTimeouts: seq<Timeout>,    // status advances not yet fired
    since: nat)                      // when the status schedule last started

  /** The values the two effects depend on, as of one render. */
  datatype Deps = Deps(step: Step, pendingSync: bool, isSyncing: bool, isOffline: bool)

  function DepsOf(s: Session): Deps {
    Deps(s.step, s.pendingSync, s.isSyncing, s.isOffline)
  }

  predicate StatusDepsChanged(a: Deps, b: Deps) {
    a.step != b.step || a.pendingSync != b.pendingSync || a.isSyncing != b.isSyncing
  }

  predicate SyncDepsChanged(a: Deps, b: Deps) {
    a.isOffline != b.isOffline || a.pendingSync != b.pendingSync
  }

  /** A confirmed booking the backend has acknowledged: the only state in which the status advances. */
  predicate Tracking(s: Session) {
    s.step == Step.CONFIRMED && !s.pendingSync && !s.isSyncing
  }

  function Max(a: int, b: int): int { if a < b then b else a }

  function Min(a: int, b: int): int { if a < b then a else b }

  // ---------------------------------------------------------------------------
  // Effects

  /** `r` differs from `s` only in what the effects own: the status, its pending advances and
      their start, the syncing flag and appended sync completions. Nothing the passenger chose
      (step, selection, passengers, split, query, connectivity, pending flag, rides) changes. */
  predicate EffectsOnly(s: Session, r: Session) {
    && r.searchQuery == s.searchQuery && r.isOffline == s.isOffline && r.rides == s.rides
    && r.selected == s.selected && r.step == s.step && r.showStory == s.showStory
    && r.passengers == s.passengers && r.splitBill == s.splitBill
    && r.pendingSync == s.pendingSync && r.now == s.now
    && |s.syncTimeouts| <= |r.syncTimeouts| && r.syncTimeouts[..|s.syncTimeouts|] == s.syncTimeouts
  }

  /** The status effect: the cleanup of its previous run clears every pending advance; then,
      for a trackable booking, the status becomes CONFIRMED and three advances are scheduled;
      away from the CONFIRMED step the status resets to AVAILABLE; otherwise it is left alone. */
  function StatusEffect(s: Session): (r: Session)
    ensures EffectsOnly(s, r)
    ensures r.isSyncing == s.isSyncing && r.syncTimeouts == s.syncTimeouts
    ensures Tracking(s) ==>
      r.status == RideStatus.CONFIRMED && r.statusTimeouts == Schedule(s.now) && r.since == s.now
    ensures !Tracking(s) ==>
      && r.status == (if s.step != Step.CONFIRMED then AVAILABLE else s.status)
      && r.statusTimeouts == [] && r.since == s.since
  {
    if Tracking(s) then s.(status := RideStatus.CONFIRMED, statusTimeouts := Schedule(s.now), since := s.now)
    else if s.step != Step.CONFIRMED then s.(status := AVAILABLE, statusTimeouts := [])
    else s.(statusTimeouts := [])
  }

  /** The sync effect: online with a pending booking, syncing starts and a completion is
      scheduled SyncDelay ms later. It has no cleanup, so the completion is never cancelled. */
  function SyncEffect(s: Session): (r: Session)
    ensures EffectsOnly(s, r)
    ensures r.status == s.status && r.statusTimeouts == s.statusTimeouts && r.since == s.since
    ensures r.isSyncing == (s.isSyncing || (!s.isOffline && s.pendingSync))
    ensures r.syncTimeouts == s.syncTimeouts + (if !s.isOffline && s.pendingSync then [s.now + SyncDelay] else [])
  {
    if !s.isOffline && s.pendingSync then
      s.(isSyncing := true, syncTimeouts := s.syncTimeouts + [s.now + SyncDelay])
    else s
  }

  /** One commit: each effect whose dependencies changed since `prev` runs, in declaration order. */
  function EffectPass(prev: Deps, s: Session): (r: Session)
    ensures EffectsOnly(s, r)
  {
    var afterStatus := if StatusDepsChanged(prev, DepsOf(s)) then StatusEffect(s) else s;
    if SyncDepsChanged(prev, DepsOf(s)) then SyncEffect(afterStatus) else afterStatus
  }

  /** The commit of an event's updates and the re-render the effects' own updates cause. */
  function Commit(prev: Deps, s: Session): (r: Session)
    ensures EffectsOnly(s, r)
  {
    EffectPass(DepsOf(s), EffectPass(prev, s))
  }

  /** The second pass changes no dependency, so no third render runs an effect. */
  lemma CommitSettles(prev: Deps, s: Session)
    ensures DepsOf(Commit(prev, s)) == DepsOf(EffectPass(prev, s))
    ensures EffectPass(DepsOf(Commit(prev, s)), Commit(prev, s)) == Commit(prev, s)
  {
  }

  // ---------------------------------------------------------------------------
  // Seat inventory

  /** The per-ride map inside handleConfirmBooking: every ride with the booked id loses
      `n` seats, clamped at zero; the rest of the list is untouched. */
  function Reserve(rides: seq<Ride>, id: string, n: nat): (r: seq<Ride>)
    ensures |r| == |rides|
    ensures forall i :: 0 <= i < |rides| ==> r[i].id == rides[i].id && r[i].seatsLeft <= rides[i].seatsLeft
    ensures forall i :: 0 <= i < |rides| && rides[i].id != id ==> r[i] == rides[i]
    ensures forall i :: 0 <= i < |rides| && rides[i].id == id ==>
      r[i] == rides[i].(seatsLeft := r[i].seatsLeft) && r[i].seatsLeft == Max(0, rides[i].seatsLeft - n)
  {
    seq(|rides|, i requires 0 <= i < |rides| =>
      if rides[i].id == id then rides[i].(seatsLeft := Max(0, rides[i].seatsLeft - n)) else rides[i])
  }

  /** With distinct ids and enough seats on the listed ride, the clamp never applies: exactly
      `n` seats are taken from that ride. */
  lemma ReserveExact(rides: seq<Ride>, picked: Ride, n: nat, i: nat)
    requires DistinctIds(rides) && i < |rides| && rides[i].id == picked.id
    requires picked in rides && n <= picked.seatsLeft
    ensures Reserve(rides, picked.id, n)[i].seatsLeft == picked.seatsLeft - n
  {
    var j :| 0 <= j < |rides| && rides[j] == picked;
    assert i == j;
  }

  // ---------------------------------------------------------------------------
  // Handlers

  /** State on mount: the seed rides, nothing selected, online, no timers. */
  function Init(rides: seq<Ride>): Session {
    Session("", false, rides, None, SEARCH, false, 1, false, AVAILABLE, false, false, 0, [], [], 0)
  }

  /** The search box and its clear button (setSearchQuery, clearSearch). */
  function SetQuery(s: Session, query: string): (r: Session)
    ensures r == s.(searchQuery := query)
  {
    Commit(DepsOf(s), s.(searchQuery := query))
  }

  /** handleRideSelect: a sold-out ride is ignored; any other ride, from any step, is
      snapshotted with one passenger and no split, and the view shows its details. */
  function SelectRide(s: Session, ride: Ride): (r: Session)
    ensures ride.seatsLeft == 0 ==> r == s
    ensures ride.seatsLeft != 0 ==>
      && r.step == DETAILS && r.selected == Some(ride) && r.passengers == 1 && !r.splitBill
      && (s.step != DETAILS ==> r.status == AVAILABLE && r.statusTimeouts == [])
      && (s.step == DETAILS ==> r.status == s.status && r.statusTimeouts == s.statusTimeouts)
      && r.rides == s.rides && r.pendingSync == s.pendingSync && r.isSyncing == s.isSyncing
      && r.isOffline == s.isOffline && r.syncTimeouts == s.syncTimeouts && r.now == s.now
  {
    if ride.seatsLeft == 0 then s
    else Commit(DepsOf(s), s.(selected := Some(ride), passengers := 1, splitBill := false, step := DETAILS))
  }

  /** The "+" button: one more passenger, capped at the seats the snapshot showed. */
  function AddPassenger(s: Session): (r: Session)
    requires s.selected.Some?
    ensures r == s.(passengers := r.passengers)
    ensures s.passengers < s.selected.value.seatsLeft ==> r.passengers == s.passengers + 1
    ensures s.passengers >= s.selected.value.seatsLeft ==> r.passengers == s.selected.value.seatsLeft
  {
    Commit(DepsOf(s), s.(passengers := Min(s.selected.value.seatsLeft, s.passengers + 1)))
  }

  /** The "-" button: one passenger fewer, never below one. */
  function RemovePassenger(s: Session): (r: Session)
    ensures r == s.(passengers := r.passengers)
    ensures s.passengers > 1 ==> r.passengers == s.passengers - 1
    ensures s.passengers <= 1 ==> r.passengers == 1
  {
    Commit(DepsOf(s), s.(passengers := Max(1, s.passengers - 1)))
  }

  /** The split-fare switch. */
  function ToggleSplit(s: Session): (r: Session)
    ensures r == s.(splitBill := !s.splitBill)
  {
    Commit(DepsOf(s), s.(splitBill := !s.splitBill))
  }

  /** handleConfirmBooking: with a selection, the seats are taken from the list, an offline
      booking is flagged for sync (an online one leaves the flag as it was), and the view
      moves to CONFIRMED. Without a selection nothing happens. */
  function Confirm(s: Session): (r: Session)
    ensures s.selected.None? ==> r == s
    ensures s.selected.Some? ==>
      && r.step == Step.CONFIRMED
      && r.rides == Reserve(s.rides, s.selected.value.id, s.passengers)
      && r.pendingSync == (s.isOffline || s.pendingSync)
      && r.selected == s.selected && r.passengers == s.passengers && r.splitBill == s.splitBill
  {
    if s.selected.Some? then
      Commit(DepsOf(s), s.(
        rides := Reserve(s.rides, s.selected.value.id, s.passengers),
        pendingSync := if s.isOffline then true else s.pendingSync,
        step := Step.CONFIRMED))
    else s
  }

  /** handleBack: DETAILS and CONFIRMED return to SEARCH and drop the selection; leaving
      CONFIRMED also clears the pending-sync flag. No seat is given back. */
  function Back(s: Session): (r: Session)
    ensures s.step == SEARCH ==> r == s
    ensures s.step != SEARCH ==>
      && r.step == SEARCH && r.selected.None? && r.rides == s.rides
      && r.pendingSync == (s.step == DETAILS && s.pendingSync)
      && r.status == AVAILABLE && r.statusTimeouts == []
  {
    match s.step
    case SEARCH => s
    case DETAILS => Commit(DepsOf(s), s.(selected := None, step := SEARCH))
    case CONFIRMED => Commit(DepsOf(s), s.(step := SEARCH, selected := None, pendingSync := false))
  }

  /** The ONLINE/OFFLINE chip. */
  /** Going online with a pending booking starts a sync; otherwise only the chip changes. */
  function ToggleOffline(s: Session): (r: Session)
    ensures r.isOffline == !s.isOffline
    ensures EffectsOnly(s.(isOffline := !s.isOffline), r)
    ensures r.isSyncing == (s.isSyncing || (s.isOffline && s.pendingSync))
    ensures r.syncTimeouts == s.syncTimeouts + (if s.isOffline && s.pendingSync then [s.now + SyncDelay] else [])
  {
    Commit(DepsOf(s), s.(isOffline := !s.isOffline))
  }

  /** The driver avatar and "View Condition" link open the story only for a driver who has one. */
  function OpenStory(s: Session): (r: Session)
    requires s.selected.Some?
    ensures r == s.(showStory := s.showStory || s.selected.value.driver.hasVideoStory)
  {
    if s.selected.value.driver.hasVideoStory then s.(showStory := true) else s
  }

  /** The story modal's onClose and onVerified both only hide it. */
  function CloseStory(s: Session): (r: Session)
    ensures r == s.(showStory := false)
  {
    s.(showStory := false)
  }

  // ---------------------------------------------------------------------------
  // The clock

  predicate HasTimeout(s: Session) {
    s.syncTimeouts != [] || s.statusTimeouts != []
  }

  /** Fires the earliest pending timeout (a sync completion first on a tie) at its due time. */
  function FireNext(s: Session): (r: Session)
    requires HasTimeout(s)
    ensures |r.syncTimeouts| < |s.syncTimeouts|
      || (|r.syncTimeouts| == |s.syncTimeouts| && |r.statusTimeouts| < |s.statusTimeouts|)
  {
    if s.syncTimeouts != [] && (s.statusTimeouts == [] || s.syncTimeouts[0] <= s.statusTimeouts[0].due) then
      Commit(DepsOf(s), s.(now := s.syncTimeouts[0], syncTimeouts := s.syncTimeouts[1..],
                           isSyncing := false, pendingSync := false))
    else
      Commit(DepsOf(s), s.(now := s.statusTimeouts[0].due, status := s.statusTimeouts[0].status,
                           statusTimeouts := s.statusTimeouts[1..]))
  }

  /** Some pending timeout is due at or before `target`. */
  predicate DueBy(s: Session, target: nat) {
    || (s.syncTimeouts != [] && s.syncTimeouts[0] <= target)
    || (s.statusTimeouts != [] && s.statusTimeouts[0].due <= target)
  }

  /** Lets time run to `target`: every timeout due by then fires in order, then the clock reads `target`. */
  function WaitUntil(s: Session, target: nat): Session
    decreases |s.syncTimeouts|, |s.statusTimeouts|
  {
    if DueBy(s, target) then WaitUntil(FireNext(s), target)
    else s.(now := Max(s.now, target))
  }

  function Wait(s: Session, ms: nat): Session {
    WaitUntil(s, s.now + ms)
  }

  // ---------------------------------------------------------------------------
  // The invariant every reachable session keeps

  /** The selection and the passenger count agree with the step. */
  predicate SelectionOk(s: Session) {
    && (s.step == SEARCH <==> s.selected.None?)
    && (s.selected.Some? ==> 1 <= s.passengers <= s.selected.value.seatsLeft)
    && (s.step == DETAILS ==> s.selected.value in s.rides)
  }

  /** Pending sync completions are in due order and each is due within SyncDelay of now. */
  predicate SyncQueueOk(now: nat, q: seq<nat>) {
    && (forall i, j :: 0 <= i < j < |q| ==> q[i] <= q[j])
    && (forall i :: 0 <= i < |q| ==> now <= q[i] <= now + SyncDelay)
  }

  /** A sync in progress has its completion pending, and an online pending booking is syncing. */
  predicate SyncOk(s: Session) {
    && SyncQueueOk(s.now, s.syncTimeouts)
    && (s.isSyncing ==> s.syncTimeouts != [])
    && (!s.isOffline && s.pendingSync ==> s.isSyncing)
  }

  /** The schedule started at `since` has fired exactly its advances due by `now`:
      the rest are pending and `status` is the last one fired. */
  predicate TimelineOk(since: nat, now: nat, pending: seq<Timeout>, status: RideStatus) {
    && since <= now
    && |pending| <= 3
    && pending == Schedule(since)[3 - |pending|..]
    && status == Timeline[3 - |pending|]
    && (forall i :: 0 <= i < 3 - |pending| ==> Schedule(since)[i].due <= now)
    && (forall i :: 0 <= i < |pending| ==> now <= pending[i].due)
  }

  /** Only a tracked booking has a status other than AVAILABLE or pending advances. */
  predicate StatusOk(s: Session) {
    && (Tracking(s) ==> TimelineOk(s.since, s.now, s.statusTimeouts, s.status))
    && (!Tracking(s) ==> s.status == AVAILABLE && s.statusTimeouts == [])
  }

  predicate Inv(s: Session) {
    SelectionOk(s) && DistinctIds(s.rides) && SyncOk(s) && StatusOk(s)
  }

  lemma InitInv(rides: seq<Ride>)
    requires DistinctIds(rides)
    ensures Inv(Init(rides))
  {
  }

  /** The status effect leaves the status consistent with the tracking condition, provided an
      unacknowledged booking has not advanced. */
  lemma StatusEffectOk(t: Session)
    requires t.step == Step.CONFIRMED && !Tracking(t) ==> t.status == AVAILABLE
    ensures StatusOk(StatusEffect(t))
  {
  }

  /** The sync effect keeps the completions in order and the status consistent; afterwards an
      online pending booking is syncing. */
  lemma SyncEffectOk(a: Session)
    requires SyncQueueOk(a.now, a.syncTimeouts) && (a.isSyncing ==> a.syncTimeouts != [])
    requires StatusOk(a)
    ensures SyncOk(SyncEffect(a)) && StatusOk(SyncEffect(a))
  {
    if !a.isOffline && a.pendingSync {
      var q := a.syncTimeouts + [a.now + SyncDelay];
      assert forall i :: 0 <= i < |q| - 1 ==> q[i] == a.syncTimeouts[i];
    }
  }

  lemma StatusEffectKeepsInv(r: Session)
    requires Inv(r)
    ensures Inv(StatusEffect(r))
  {
    StatusEffectOk(r);
  }

  lemma SyncEffectKeepsInv(a: Session)
    requires Inv(a)
    ensures Inv(SyncEffect(a))
  {
    SyncEffectOk(a);
  }

  /** Once the invariant holds, a further pass of the effects keeps it. */
  lemma EffectPassKeepsInv(prev: Deps, r: Session)
    requires Inv(r)
    ensures Inv(EffectPass(prev, r))
  {
    var a := if StatusDepsChanged(prev, DepsOf(r)) then StatusEffect(r) else r;
    if StatusDepsChanged(prev, DepsOf(r)) {
      StatusEffectKeepsInv(r);
    }
    if SyncDepsChanged(prev, DepsOf(r)) {
      SyncEffectKeepsInv(a);
    }
  }

  /** What an event's own updates must keep for the commit to re-establish Inv: the parts
      no effect touches, the parts an effect would repair when it does not run, and no
      leftover progress on an unacknowledged booking. */
  lemma CommitInv(prev: Deps, t: Session)
    requires SelectionOk(t) && DistinctIds(t.rides)
    requires SyncQueueOk(t.now, t.syncTimeouts) && (t.isSyncing ==> t.syncTimeouts != [])
    requires !SyncDepsChanged(prev, DepsOf(t)) ==> (!t.isOffline && t.pendingSync ==> t.isSyncing)
    requires !StatusDepsChanged(prev, DepsOf(t)) ==> StatusOk(t)
    requires t.step == Step.CONFIRMED && !Tracking(t) ==> t.status == AVAILABLE
    ensures Inv(Commit(prev, t))
  {
    var a := if StatusDepsChanged(prev, DepsOf(t)) then StatusEffect(t) else t;
    StatusEffectOk(t);
    assert StatusOk(a);
    if SyncDepsChanged(prev, DepsOf(t)) {
      SyncEffectOk(a);
    }
    assert Inv(EffectPass(prev, t));
    EffectPassKeepsInv(DepsOf(t), EffectPass(prev, t));
  }

  // ---------------------------------------------------------------------------
  // Every handler keeps the invariant

  lemma SetQueryInv(s: Session, query: string)
    requires Inv(s)
    ensures Inv(SetQuery(s, query))
  {
  }

  /** Selecting a listed ride keeps the invariant; the ride must be one of the session's rides
      (the map pins and result cards show the filtered list). */
  lemma SelectRideInv(s: Session, ride: Ride)
    requires Inv(s) && ride in s.rides
    ensures Inv(SelectRide(s, ride))
  {
    if ride.seatsLeft != 0 {
      CommitInv(DepsOf(s), s.(selected := Some(ride), passengers := 1, splitBill := false, step := DETAILS));
    }
  }

  lemma AddPassengerInv(s: Session)
    requires Inv(s) && s.selected.Some?
    ensures Inv(AddPassenger(s))
  {
    CommitInv(DepsOf(s), s.(passengers := Min(s.selected.value.seatsLeft, s.passengers + 1)));
  }

  lemma RemovePassengerInv(s: Session)
    requires Inv(s)
    ensures Inv(RemovePassenger(s))
  {
    CommitInv(DepsOf(s), s.(passengers := Max(1, s.passengers - 1)));
  }

  lemma ToggleSplitInv(s: Session)
    requires Inv(s)
    ensures Inv(ToggleSplit(s))
  {
    CommitInv(DepsOf(s), s.(splitBill := !s.splitBill));
  }

  /** Confirming from the details sheet keeps the invariant. */
  lemma ConfirmInv(s: Session)
    requires Inv(s) && s.step == DETAILS
    ensures Inv(Confirm(s))
  {
    var t := s.(rides := Reserve(s.rides, s.selected.value.id, s.passengers),
                pendingSync := if s.isOffline then true else s.pendingSync,
                step := Step.CONFIRMED);
    assert DistinctIds(t.rides);
    CommitInv(DepsOf(s), t);
  }

  lemma BackInv(s: Session)
    requires Inv(s)
    ensures Inv(Back(s))
  {
    match s.step
    case SEARCH =>
    case DETAILS => CommitInv(DepsOf(s), s.(selected := None, step := SEARCH));
    case CONFIRMED => CommitInv(DepsOf(s), s.(step := SEARCH, selected := None, pendingSync := false));
  }

  lemma ToggleOfflineInv(s: Session)
    requires Inv(s)
    ensures Inv(ToggleOffline(s))
  {
    CommitInv(DepsOf(s), s.(isOffline := !s.isOffline));
  }

  lemma StoryInv(s: Session)
    requires Inv(s)
    ensures s.selected.Some? ==> Inv(OpenStory(s))
    ensures Inv(CloseStory(s))
  {
  }

  /** Firing the next advance of a schedule leaves the rest of it on schedule. */
  lemma TimelineAdvance(since: nat, now: nat, p: seq<Timeout>, status: RideStatus)
    requires TimelineOk(since, now, p, status) && p != []
    ensures TimelineOk(since, p[0].due, p[1..], p[0].status)
  {
    assert |p| == 1 || |p| == 2 || |p| == 3;
  }

  /** Letting the clock reach `later` fires nothing of a schedule whose next advance is not yet due. */
  lemma TimelineLater(since: nat, now: nat, later: nat, p: seq<Timeout>, status: RideStatus)
    requires TimelineOk(since, now, p, status) && now <= later
    requires p == [] || later <= p[0].due
    ensures TimelineOk(since, later, p, status)
  {
    assert |p| == 0 || |p| == 1 || |p| == 2 || |p| == 3;
  }

  lemma FireSyncInv(s: Session)
    requires Inv(s) && s.syncTimeouts != []
    requires s.statusTimeouts == [] || s.syncTimeouts[0] <= s.statusTimeouts[0].due
    ensures Inv(FireNext(s))
  {
    var t := s.(now := s.syncTimeouts[0], syncTimeouts := s.syncTimeouts[1..],
                isSyncing := false, pendingSync := false);
    if Tracking(s) {
      TimelineLater(s.since, s.now, t.now, s.statusTimeouts, s.status);
    }
    CommitInv(DepsOf(s), t);
  }

  lemma FireStatusInv(s: Session)
    requires Inv(s) && s.statusTimeouts != []
    requires !(s.syncTimeouts != [] && s.syncTimeouts[0] <= s.statusTimeouts[0].due)
    ensures Inv(FireNext(s))
  {
    var p := s.statusTimeouts;
    var t := s.(now := p[0].due, status := p[0].status, statusTimeouts := p[1..]);
    TimelineAdvance(s.since, s.now, p, s.status);
    assert SyncQueueOk(t.now, t.syncTimeouts);
    CommitInv(DepsOf(s), t);
  }

  /** Firing the earliest timeout keeps the invariant: the clock moves forward to its due time,
      which no other pending timeout precedes. */
  lemma FireNextInv(s: Session)
    requires Inv(s) && HasTimeout(s)
    ensures Inv(FireNext(s))
    ensures FireNext(s).now >= s.now
  {
    if s.syncTimeouts != [] && (s.statusTimeouts == [] || s.syncTimeouts[0] <= s.statusTimeouts[0].due) {
      FireSyncInv(s);
    } else {
      FireStatusInv(s);
    }
  }

  /** Waiting keeps the invariant and leaves the clock at the target (it never runs backwards). */
  lemma {:induction false} WaitUntilInv(s: Session, target: nat)
    requires Inv(s)
    ensures Inv(WaitUntil(s, target))
    ensures WaitUntil(s, target).now == Max(s.now, target)
    ensures !DueBy(WaitUntil(s, target), target)
    decreases |s.syncTimeouts|, |s.statusTimeouts|
  {
    if DueBy(s, target) {
      FireNextInv(s);
      WaitUntilInv(FireNext(s), target);
    } else {
      var later := Max(s.now, target);
      if Tracking(s) {
        TimelineLater(s.since, s.now, later, s.statusTimeouts, s.status);
      }
      assert SyncQueueOk(later, s.syncTimeouts);
    }
  }

  /** Both kinds of timeout leave every choice of the passenger alone. */
  lemma FireNextKeepsChoices(s: Session)
    requires HasTimeout(s)
    ensures var n := FireNext(s);
      && n.step == s.step && n.selected == s.selected && n.rides == s.rides
      && n.passengers == s.passengers && n.splitBill == s.splitBill && n.isOffline == s.isOffline
      && n.searchQuery == s.searchQuery && n.showStory == s.showStory
  {
    if s.syncTimeouts != [] && (s.statusTimeouts == [] || s.syncTimeouts[0] <= s.statusTimeouts[0].due) {
      var t := s.(now := s.syncTimeouts[0], syncTimeouts := s.syncTimeouts[1..], isSyncing := false, pendingSync := false);
      assert EffectsOnly(t, Commit(DepsOf(s), t));
    } else {
      var t := s.(now := s.statusTimeouts[0].due, status := s.statusTimeouts[0].status, statusTimeouts := s.statusTimeouts[1..]);
      assert EffectsOnly(t, Commit(DepsOf(s), t));
    }
  }

  /** Time passing changes nothing the passenger chose: only the clock, the status, the timers
      and the sync flags move. */
  lemma {:induction false} WaitKeepsChoices(s: Session, target: nat)
    ensures var w := WaitUntil(s, target);
      && w.step == s.step && w.selected == s.selected && w.rides == s.rides
      && w.passengers == s.passengers && w.splitBill == s.splitBill && w.isOffline == s.isOffline
      && w.searchQuery == s.searchQuery && w.showStory == s.showStory
    decreases |s.syncTimeouts|, |s.statusTimeouts|
  {
    if DueBy(s, target) {
      FireNextKeepsChoices(s);
      WaitKeepsChoices(FireNext(s), target);
    }
  }

  // ---------------------------------------------------------------------------
  // Events: what the rendered screen lets the passenger do

  datatype Event =
    | TypeQuery(query: string)   // typing in the search box, or its clear button
    | PickRide(ride: Ride)       // a map pin or a result card
    | AddOne                     // the "+" passenger button
    | RemoveOne                  // the "-" passenger button
    | FlipSplit                  // the split-fare switch
    | ConfirmBooking             // "Confirm Booking" / "Book Offline"
    | GoBack                     // "BACK TO MAP", "Cancel" or "Close"
    | FlipNetwork                // the ONLINE/OFFLINE chip
    | OpenDriverStory            // the driver avatar or "View Condition"
    | CloseDriverStory           // the story's close or verify action
    | Elapse(ms: nat)            // time passes

  /** The control that raises the event is rendered and not disabled. */
  predicate OnScreen(s: Session, e: Event) {
    match e
    case TypeQuery(_) => s.step == SEARCH
    case PickRide(ride) => ride in Filter(s.searchQuery, s.rides)
    case AddOne => s.step == DETAILS && s.selected.Some? && s.passengers < s.selected.value.seatsLeft
    case RemoveOne => s.step == DETAILS && s.selected.Some? && s.passengers > 1
    case FlipSplit => s.step == DETAILS && s.selected.Some? && s.passengers > 1
    case ConfirmBooking => s.step == DETAILS && s.selected.Some?
    case GoBack => s.step != SEARCH
    case FlipNetwork => true
    case OpenDriverStory => s.step == DETAILS && s.selected.Some?
    case CloseDriverStory => s.showStory && s.selected.Some?
    case Elapse(_) => true
  }

  /** The session after one event; an event whose control is not on screen changes nothing. */
  function Apply(s: Session, e: Event): Session {
    if !OnScreen(s, e) then s
    else match e
      case TypeQuery(q) => SetQuery(s, q)
      case PickRide(ride) => SelectRide(s, ride)
      case AddOne => AddPassenger(s)
      case RemoveOne => RemovePassenger(s)
      case FlipSplit => ToggleSplit(s)
      case ConfirmBooking => Confirm(s)
      case GoBack => Back(s)
      case FlipNetwork => ToggleOffline(s)
      case OpenDriverStory => OpenStory(s)
      case CloseDriverStory => CloseStory(s)
      case Elapse(ms) => Wait(s, ms)
  }

  function Run(s: Session, events: seq<Event>): Session
    decreases |events|
  {
    if events == [] then s else Run(Apply(s, events[0]), events[1..])
  }

  /** The events of the search and details screens keep the invariant. */
  lemma ChoiceInv(s: Session, e: Event)
    requires Inv(s) && OnScreen(s, e)
    requires e.TypeQuery? || e.PickRide? || e.AddOne? || e.RemoveOne? || e.FlipSplit?
    ensures Inv(Apply(s, e))
  {
    match e
    case TypeQuery(q) => SetQueryInv(s, q);
    case PickRide(ride) => SelectRideInv(s, ride);
    case AddOne => AddPassengerInv(s);
    case RemoveOne => RemovePassengerInv(s);
    case FlipSplit => ToggleSplitInv(s);
  }

  lemma ApplyInv(s: Session, e: Event)
    requires Inv(s)
    ensures Inv(Apply(s, e))
  {
    if OnScreen(s, e) {
      match e
      case TypeQuery(_) => ChoiceInv(s, e);
      case PickRide(_) => ChoiceInv(s, e);
      case AddOne => ChoiceInv(s, e);
      case RemoveOne => ChoiceInv(s, e);
      case FlipSplit => ChoiceInv(s, e);
      case ConfirmBooking => ConfirmInv(s);
      case GoBack => BackInv(s);
      case FlipNetwork => ToggleOfflineInv(s);
      case OpenDriverStory => StoryInv(s);
      case CloseDriverStory => StoryInv(s);
      case Elapse(ms) => WaitUntilInv(s, s.now + ms);
    }
  }

  /** Every session reachable from the seed list keeps the invariant; in particular the
      passenger count of a selection stays between one and the seats it showed. */
  lemma {:induction false} RunInv(s: Session, events: seq<Event>)
    requires Inv(s)
    ensures Inv(Run(s, events))
    ensures var r := Run(s, events); r.selected.Some? ==> 1 <= r.passengers <= r.selected.value.seatsLeft
    decreases |events|
  {
    if events != [] {
      ApplyInv(s, events[0]);
      RunInv(Apply(s, events[0]), events[1..]);
    }
  }

  // ---------------------------------------------------------------------------
  // The status timeline

  /** With no advance overdue, a schedule shows the status it gives for the time since it started. */
  lemma TimelineStatus(since: nat, now: nat, p: seq<Timeout>, status: RideStatus)
    requires TimelineOk(since, now, p, status)
    requires p == [] || now < p[0].due
    ensures status == StatusAt(now - since)
  {
    var sch := Schedule(since);
    if |p| == 3 {
      assert p[0] == sch[0];
    } else if |p| == 2 {
      assert p[0] == sch[1];
      assert sch[0].due <= now;
    } else if |p| == 1 {
      assert p[0] == sch[2];
      assert sch[1].due <= now;
    } else {
      assert sch[2].due <= now;
    }
  }

  /** With no advance overdue, a tracked booking shows the status the schedule gives for the
      time since tracking started. */
  lemma TimelineReading(s: Session)
    requires Inv(s) && Tracking(s)
    requires s.statusTimeouts == [] || s.now < s.statusTimeouts[0].due
    ensures s.status == StatusAt(s.now - s.since)
  {
    TimelineStatus(s.since, s.now, s.statusTimeouts, s.status);
  }

  /** Time passing never ends tracking nor restarts the schedule. */
  lemma {:induction false} WaitKeepsTracking(s: Session, target: nat)
    requires Inv(s) && Tracking(s)
    ensures Tracking(WaitUntil(s, target)) && WaitUntil(s, target).since == s.since
    decreases |s.syncTimeouts|, |s.statusTimeouts|
  {
    if DueBy(s, target) {
      FireNextInv(s);
      WaitKeepsTracking(FireNext(s), target);
    }
  }

  /** Once tracked, waiting until any later time shows the status the schedule gives for it. */
  lemma StatusFollowsClock(s: Session, target: nat)
    requires Inv(s) && Tracking(s) && s.now <= target
    ensures Tracking(WaitUntil(s, target))
    ensures WaitUntil(s, target).status == StatusAt(target - s.since)
  {
    WaitUntilInv(s, target);
    WaitKeepsTracking(s, target);
    TimelineReading(WaitUntil(s, target));
  }

  /** Confirming online with nothing left to sync starts tracking at once, with a fresh schedule. */
  lemma ConfirmOnlineTracks(s: Session)
    requires Inv(s) && s.step == DETAILS && !s.isOffline && !s.pendingSync && !s.isSyncing
    ensures var c := Confirm(s);
      && Tracking(c) && c.status == RideStatus.CONFIRMED
      && c.statusTimeouts == Schedule(s.now) && c.since == s.now && c.now == s.now
  {
  }

  /** `ms` ms after an online booking the status is CONFIRMED, APPROACHING from 4 s, ARRIVED
      from 10 s and ON_TRIP from 15 s. */
  lemma OnlineBookingTimeline(s: Session, ms: nat)
    requires Inv(s) && s.step == DETAILS && !s.isOffline && !s.pendingSync && !s.isSyncing
    ensures Wait(Confirm(s), ms).status == StatusAt(ms)
  {
    var c := Confirm(s);
    ConfirmOnlineTracks(s);
    ConfirmInv(s);
    StatusFollowsClock(c, s.now + ms);
  }

  /** Booked offline with no sync in flight, the ticket stays pending and shows no progress
      however long the passenger waits. */
  lemma OfflineBookingWaits(s: Session, ms: nat)
    requires Inv(s) && s.step == DETAILS && s.isOffline && s.syncTimeouts == []
    ensures Confirm(s).pendingSync && !Tracking(Confirm(s))
    ensures var w := Wait(Confirm(s), ms);
      w.step == Step.CONFIRMED && w.pendingSync && w.status == AVAILABLE && w.isOffline
  {
    ConfirmInv(s);
  }

  // ---------------------------------------------------------------------------
  // Offline synchronisation

  /** Coming back online with a pending booking starts a sync at once and schedules its completion. */
  lemma ReconnectStartsSync(s: Session)
    requires Inv(s) && s.isOffline && s.pendingSync
    ensures var r := ToggleOffline(s);
      && !r.isOffline && r.pendingSync && r.isSyncing
      && r.syncTimeouts == s.syncTimeouts + [s.now + SyncDelay]
  {
  }

  /** With the sync flags clear, nothing sets them again while time passes. */
  lemma {:induction false} WaitKeepsSynced(s: Session, target: nat)
    requires Inv(s) && !s.pendingSync && !s.isSyncing
    ensures !WaitUntil(s, target).pendingSync && !WaitUntil(s, target).isSyncing
    ensures s.syncTimeouts == [] ==> WaitUntil(s, target).syncTimeouts == []
    decreases |s.syncTimeouts|, |s.statusTimeouts|
  {
    if DueBy(s, target) {
      FireNextInv(s);
      WaitKeepsSynced(FireNext(s), target);
    }
  }

  /** Waiting past every pending completion fires them all and leaves the flags clear. */
  lemma {:induction false} WaitDrainsSync(s: Session, target: nat)
    requires Inv(s) && s.syncTimeouts != []
    requires forall i :: 0 <= i < |s.syncTimeouts| ==> s.syncTimeouts[i] <= target
    ensures var w := WaitUntil(s, target); w.syncTimeouts == [] && !w.pendingSync && !w.isSyncing
    decreases |s.syncTimeouts|, |s.statusTimeouts|
  {
    assert DueBy(s, target);
    var f := FireNext(s);
    FireNextInv(s);
    WaitUntilInv(f, target);
    if s.statusTimeouts == [] || s.syncTimeouts[0] <= s.statusTimeouts[0].due {
      assert f.syncTimeouts == s.syncTimeouts[1..] && !f.pendingSync && !f.isSyncing;
      if f.syncTimeouts == [] {
        WaitKeepsSynced(f, target);
      } else {
        WaitDrainsSync(f, target);
      }
    } else {
      assert f.syncTimeouts == s.syncTimeouts;
      WaitDrainsSync(f, target);
    }
  }

  /** A sync in progress completes within SyncDelay: both flags are clear afterwards. */
  lemma SyncCompletes(s: Session)
    requires Inv(s) && s.isSyncing
    ensures var w := Wait(s, SyncDelay); w.syncTimeouts == [] && !w.pendingSync && !w.isSyncing
  {
    WaitDrainsSync(s, s.now + SyncDelay);
  }

  /** A ticket saved offline becomes live once the passenger is back online for SyncDelay. */
  lemma ReconnectThenTrack(s: Session)
    requires Inv(s) && s.step == Step.CONFIRMED && s.isOffline && s.pendingSync
    ensures Tracking(Wait(ToggleOffline(s), SyncDelay))
    ensures s.syncTimeouts == [] ==>
      var w := Wait(ToggleOffline(s), SyncDelay);
      w.since == s.now + SyncDelay && w.status == RideStatus.CONFIRMED && w.now == s.now + SyncDelay
  {
    ToggleOfflineInv(s);
    SyncCompletes(ToggleOffline(s));
    WaitKeepsChoices(ToggleOffline(s), ToggleOffline(s).now + SyncDelay);
    if s.syncTimeouts == [] {
      SyncStartsSchedule(ToggleOffline(s));
    }
  }

  /** A confirmed booking whose only pending timeout is its sync completion starts its
      schedule exactly when that completion fires. */
  lemma SyncStartsSchedule(t: Session)
    requires t.step == Step.CONFIRMED && !t.isOffline && t.isSyncing
    requires t.syncTimeouts == [t.now + SyncDelay] && t.statusTimeouts == []
    ensures var w := WaitUntil(t, t.now + SyncDelay);
      w.since == t.now + SyncDelay && w.status == RideStatus.CONFIRMED && w.now == t.now + SyncDelay
  {
    var target := t.now + SyncDelay;
    var f := FireNext(t);
    var u := t.(now := target, syncTimeouts := [], isSyncing := false, pendingSync := false);
    assert f == Commit(DepsOf(t), u);
    assert Tracking(u);
    assert f.since == target && f.status == RideStatus.CONFIRMED && f.statusTimeouts == Schedule(target);
    assert !DueBy(f, target);
  }

  /** Once tracked after reconnecting, the session still satisfies the invariant. */
  lemma ReconnectInv(s: Session)
    requires Inv(s)
    ensures Inv(Wait(ToggleOffline(s), SyncDelay))
  {
    ToggleOfflineInv(s);
    WaitUntilInv(ToggleOffline(s), ToggleOffline(s).now + SyncDelay);
  }

  /** A booking whose schedule starts now reads StatusAt(ms) after `ms` ms. */
  lemma TrackedFromStart(w: Session, ms: nat)
    requires Inv(w) && Tracking(w) && w.since == w.now
    ensures Wait(w, ms).status == StatusAt(ms)
  {
    StatusFollowsClock(w, w.now + ms);
  }

  /** An offline ticket follows the same timeline as an online booking, counted from the sync
      completion: `ms` ms after it the status reads StatusAt(ms). */
  lemma ReconnectTimeline(s: Session, ms: nat)
    requires Inv(s) && s.step == Step.CONFIRMED && s.isOffline && s.pendingSync && s.syncTimeouts == []
    ensures Wait(Wait(ToggleOffline(s), SyncDelay), ms).status == StatusAt(ms)
  {
    ReconnectThenTrack(s);
    ReconnectInv(s);
    TrackedFromStart(Wait(ToggleOffline(s), SyncDelay), ms);
  }

  /** No epoch guards a completion: one still in flight when the passenger leaves the ticket,
      goes offline and books again clears the new offline booking's pending flag, and the
      timeline starts while still offline. */
  lemma StaleSyncClearsOfflineBooking(s: Session, ride: Ride)
    requires Inv(s) && s.step == Step.CONFIRMED && s.isSyncing && !s.isOffline
    requires ride in s.rides && ride.seatsLeft > 0
    ensures var b := Confirm(SelectRide(ToggleOffline(Back(s)), ride));
      b.step == Step.CONFIRMED && b.isOffline && b.pendingSync
    ensures var w := Wait(Confirm(SelectRide(ToggleOffline(Back(s)), ride)), SyncDelay);
      w.isOffline && !w.pendingSync && Tracking(w)
  {
    BackInv(s);
    ToggleOfflineInv(Back(s));
    SelectRideInv(ToggleOffline(Back(s)), ride);
    ConfirmInv(SelectRide(ToggleOffline(Back(s)), ride));
    var b := Confirm(SelectRide(ToggleOffline(Back(s)), ride));
    SyncCompletes(b);
    WaitKeepsChoices(b, b.now + SyncDelay);
  }

  /** No passenger action cancels a scheduled sync completion: only time passing removes one. */
  lemma ActionsKeepSyncQueue(s: Session, e: Event)
    requires !e.Elapse?
    ensures s.syncTimeouts <= Apply(s, e).syncTimeouts
  {
    var r := Apply(s, e);
    if OnScreen(s, e) {
      match e
      case TypeQuery(q) => assert r == SetQuery(s, q);
      case PickRide(ride) => assert r == SelectRide(s, ride);
      case AddOne => assert r == AddPassenger(s);
      case RemoveOne => assert r == RemovePassenger(s);
      case FlipSplit => assert r == ToggleSplit(s);
      case ConfirmBooking => assert r == Confirm(s);
      case GoBack => assert r == Back(s);
      case FlipNetwork => assert r == ToggleOffline(s);
      case OpenDriverStory => assert r == OpenStory(s);
      case CloseDriverStory => assert r == CloseStory(s);
    }
  }

  // ---------------------------------------------------------------------------
  // Seats

  /** No oversell: confirming from the details sheet takes exactly the chosen number of seats
      from the booked ride, which had at least that many, and leaves every other ride alone. */
  lemma ConfirmTakesExactSeats(s: Session)
    requires Inv(s) && s.step == DETAILS
    ensures var r := Confirm(s).rides;
      && |r| == |s.rides|
      && forall i :: 0 <= i < |s.rides| ==>
           if s.rides[i].id == s.selected.value.id then
             s.passengers <= s.rides[i].seatsLeft && r[i].seatsLeft == s.rides[i].seatsLeft - s.passengers
           else r[i] == s.rides[i]
  {
    var r := Confirm(s).rides;
    forall i | 0 <= i < |s.rides| && s.rides[i].id == s.selected.value.id
      ensures s.passengers <= s.rides[i].seatsLeft && r[i].seatsLeft == s.rides[i].seatsLeft - s.passengers
    {
      ReserveExact(s.rides, s.selected.value, s.passengers, i);
    }
  }

  /** Booking every seat the ride showed sells it out, and a sold-out ride can no longer be selected. */
  lemma BookingLastSeatsSellsOut(s: Session, i: nat)
    requires Inv(s) && s.step == DETAILS && s.passengers == s.selected.value.seatsLeft
    requires i < |s.rides| && s.rides[i].id == s.selected.value.id
    ensures var r := Confirm(s); r.rides[i].seatsLeft == 0 && SelectRide(r, r.rides[i]) == r
  {
    ConfirmTakesExactSeats(s);
  }

  /** One event never adds seats to a ride, nor reorders or renames the list. */
  lemma ApplyNeverAddsSeats(s: Session, e: Event)
    ensures var r := Apply(s, e).rides;
      && |r| == |s.rides|
      && forall i :: 0 <= i < |s.rides| ==> r[i].id == s.rides[i].id && r[i].seatsLeft <= s.rides[i].seatsLeft
  {
    if OnScreen(s, e) && e.Elapse? {
      WaitKeepsChoices(s, s.now + e.ms);
    }
  }

  /** Seats are never given back: over any run of events each ride's count only goes down. */
  lemma {:induction false} RunNeverAddsSeats(s: Session, events: seq<Event>)
    ensures var r := Run(s, events).rides;
      && |r| == |s.rides|
      && forall i :: 0 <= i < |s.rides| ==> r[i].id == s.rides[i].id && r[i].seatsLeft <= s.rides[i].seatsLeft
    decreases |events|
  {
    if events != [] {
      ApplyNeverAddsSeats(s, events[0]);
      RunNeverAddsSeats(Apply(s, events[0]), events[1..]);
    }
  }

  /** The counter buttons are disabled exactly where their handlers would change nothing. */
  lemma DisabledCountersAreNoOps(s: Session)
    requires Inv(s) && s.step == DETAILS
    ensures s.passengers >= s.selected.value.seatsLeft ==> AddPassenger(s) == s
    ensures s.passengers <= 1 ==> RemovePassenger(s) == s
    ensures s.passengers < s.selected.value.seatsLeft ==> AddPassenger(s).passengers == s.passengers + 1
    ensures s.passengers > 1 ==> RemovePassenger(s).passengers == s.passengers - 1
  {
  }
}
