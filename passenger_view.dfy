/** The passenger screen's state as the component keeps it: one field per piece of state,
    updated in place by the handlers and by the two effects, plus the millisecond clock and
    the pending timeouts. Every method is proved to do exactly what the matching function of
    module Booking says, so the properties proved there hold of the object. */
module PassengerView {
  import opened Types
  import opened Booking
  import Catalog

  class PassengerView {
    var searchQuery: string
    var isOffline: bool
    var availableRides: seq<Ride>
    var selectedRide: Option<Ride>
    var bookingStep: Step
    var showVideoStory: bool
    var passengers: nat
    var splitBill: bool
    var rideStatus: RideStatus
    var pendingSync: bool
    var isSyncing: bool
    var now: nat
    var syncTimeouts: seq<nat>
    var statusTimeouts: seq<Timeout>
    ghost var trackingSince: nat

    ghost function State(): Session
      reads this
    {
      Session(searchQuery, isOffline, availableRides, selectedRide, bookingStep, showVideoStory,
              passengers, splitBill, rideStatus, pendingSync, isSyncing, now, syncTimeouts,
              statusTimeouts, trackingSince)
    }

    ghost predicate Valid()
      reads this
    {
      Inv(State())
    }

    function CurrentDeps(): (d: Deps)
      reads this
      ensures d == DepsOf(State())
    {
      Deps(bookingStep, pendingSync, isSyncing, isOffline)
    }

    /** Mounting: the seed catalog, nothing selected, online. */
    constructor()
      ensures State() == Init(Catalog.MockRides)
      ensures Valid()
    {
      searchQuery := "";
      isOffline := false;
      availableRides := Catalog.MockRides;
      selectedRide := None;
      bookingStep := SEARCH;
      showVideoStory := false;
      passengers := 1;
      splitBill := false;
      rideStatus := AVAILABLE;
      pendingSync := false;
      isSyncing := false;
      now := 0;
      syncTimeouts := [];
      statusTimeouts := [];
      trackingSince := 0;
      Catalog.MockRidesDistinct();
    }

    // -------------------------------------------------------------------------
    // The two effects

    method StatusEffect()
      modifies this
      ensures State() == Booking.StatusEffect(old(State()))
    {
      statusTimeouts := [];   // the cleanup of the previous run clears t1, t2 and t3
      if bookingStep == Step.CONFIRMED && !pendingSync && !isSyncing {
        rideStatus := RideStatus.CONFIRMED;
        statusTimeouts := Schedule(now);
        trackingSince := now;
      } else if bookingStep != Step.CONFIRMED {
        rideStatus := AVAILABLE;
      }
    }

    method SyncEffect()
      modifies this
      ensures State() == Booking.SyncEffect(old(State()))
    {
      if !isOffline && pendingSync {
        isSyncing := true;
        syncTimeouts := syncTimeouts + [now + SyncDelay];
      }
    }

    /** Runs, in declaration order, each effect whose dependencies differ from `prev`. */
    method EffectPass(prev: Deps)
      modifies this
      ensures State() == Booking.EffectPass(prev, old(State()))
    {
      var rendered := CurrentDeps();
      if StatusDepsChanged(prev, rendered) {
        StatusEffect();
      }
      if SyncDepsChanged(prev, rendered) {
        SyncEffect();
      }
    }

    /** The step run after every event: the render commits, then the render the effects cause. */
    method Commit(prev: Deps)
      modifies this
      ensures State() == Booking.Commit(prev, old(State()))
    {
      var rendered := CurrentDeps();
      EffectPass(prev);
      EffectPass(rendered);
    }

    // -------------------------------------------------------------------------
    // Handlers

    method SetSearchQuery(query: string)
      modifies this
      ensures State() == SetQuery(old(State()), query)
    {
      var prev := CurrentDeps();
      searchQuery := query;
      Commit(prev);
    }

    method ClearSearch()
      modifies this
      ensures State() == SetQuery(old(State()), "")
    {
      SetSearchQuery("");
    }

    method HandleRideSelect(ride: Ride)
      modifies this
      ensures State() == SelectRide(old(State()), ride)
    {
      if ride.seatsLeft == 0 {
        return;
      }
      ghost var before := State();
      var prev := CurrentDeps();
      selectedRide := Some(ride);
      passengers := 1;
      splitBill := false;
      bookingStep := DETAILS;
      assert State() == before.(selected := Some(ride), passengers := 1, splitBill := false, step := DETAILS);
      Commit(prev);
    }

    method IncrementPassengers()
      requires selectedRide.Some?
      modifies this
      ensures State() == AddPassenger(old(State()))
    {
      var prev := CurrentDeps();
      passengers := Min(selectedRide.value.seatsLeft, passengers + 1);
      Commit(prev);
    }

    method DecrementPassengers()
      modifies this
      ensures State() == RemovePassenger(old(State()))
    {
      var prev := CurrentDeps();
      passengers := Max(1, passengers - 1);
      Commit(prev);
    }

    method ToggleSplitBill()
      modifies this
      ensures State() == ToggleSplit(old(State()))
    {
      var prev := CurrentDeps();
      splitBill := !splitBill;
      Commit(prev);
    }

    method HandleConfirmBooking()
      modifies this
      ensures State() == Confirm(old(State()))
    {
      if selectedRide.Some? {
        ghost var before := State();
        var prev := CurrentDeps();
        availableRides := Reserve(availableRides, selectedRide.value.id, passengers);
        if isOffline {
          pendingSync := true;
        }
        bookingStep := Step.CONFIRMED;
        assert State() == before.(rides := Reserve(before.rides, before.selected.value.id, before.passengers),
                                  pendingSync := if before.isOffline then true else before.pendingSync,
                                  step := Step.CONFIRMED);
        Commit(prev);
      }
    }

    method HandleBack()
      modifies this
      ensures State() == Back(old(State()))
    {
      ghost var before := State();
      var prev := CurrentDeps();
      if bookingStep == DETAILS {
        selectedRide := None;
        bookingStep := SEARCH;
        assert State() == before.(selected := None, step := SEARCH);
        Commit(prev);
      } else if bookingStep == Step.CONFIRMED {
        bookingStep := SEARCH;
        selectedRide := None;
        pendingSync := false;
        assert State() == before.(step := SEARCH, selected := None, pendingSync := false);
        Commit(prev);
      }
    }

    method ToggleOffline()
      modifies this
      ensures State() == Booking.ToggleOffline(old(State()))
    {
      var prev := CurrentDeps();
      isOffline := !isOffline;
      Commit(prev);
    }

    method OpenVideoStory()
      requires selectedRide.Some?
      modifies this
      ensures State() == OpenStory(old(State()))
    {
      if selectedRide.value.driver.hasVideoStory {
        showVideoStory := true;
      }
    }

    /** Both onClose and onVerified of the story modal. */
    method CloseVideoStory()
      modifies this
      ensures State() == CloseStory(old(State()))
    {
      showVideoStory := false;
    }

    // -------------------------------------------------------------------------
    // Timers

    /** The sync completion: both flags clear at its due time. */
    method FireSyncTimeout()
      requires syncTimeouts != []
      modifies this
      ensures State() == Booking.Commit(DepsOf(old(State())), old(State()).(
        now := old(syncTimeouts[0]), syncTimeouts := old(syncTimeouts[1..]), isSyncing := false, pendingSync := false))
    {
      ghost var before := State();
      var prev := CurrentDeps();
      now := syncTimeouts[0];
      syncTimeouts := syncTimeouts[1..];
      isSyncing := false;
      pendingSync := false;
      assert State() == before.(now := before.syncTimeouts[0], syncTimeouts := before.syncTimeouts[1..],
                                isSyncing := false, pendingSync := false);
      Commit(prev);
    }

    /** A status advance: the status becomes the scheduled one at its due time. */
    method FireStatusTimeout()
      requires statusTimeouts != []
      modifies this
      ensures State() == Booking.Commit(DepsOf(old(State())), old(State()).(
        now := old(statusTimeouts[0].due), status := old(statusTimeouts[0].status), statusTimeouts := old(statusTimeouts[1..])))
    {
      ghost var before := State();
      var prev := CurrentDeps();
      now := statusTimeouts[0].due;
      rideStatus := statusTimeouts[0].status;
      statusTimeouts := statusTimeouts[1..];
      assert State() == before.(now := before.statusTimeouts[0].due, status := before.statusTimeouts[0].status,
                                statusTimeouts := before.statusTimeouts[1..]);
      Commit(prev);
    }

    method FireNextTimeout()
      requires HasTimeout(State())
      modifies this
      ensures State() == FireNext(old(State()))
    {
      if syncTimeouts != [] && (statusTimeouts == [] || syncTimeouts[0] <= statusTimeouts[0].due) {
        FireSyncTimeout();
      } else {
        FireStatusTimeout();
      }
    }

    /** Lets `ms` ms pass: every timeout due by then fires in order, then the clock reads the target. */
    method Wait(ms: nat)
      modifies this
      ensures State() == Booking.Wait(old(State()), ms)
    {
      var target := now + ms;
      while (syncTimeouts != [] && syncTimeouts[0] <= target)
         || (statusTimeouts != [] && statusTimeouts[0].due <= target)
        invariant WaitUntil(State(), target) == WaitUntil(old(State()), target)
        decreases |syncTimeouts|, |statusTimeouts|
      {
        FireNextTimeout();
      }
      now := Max(now, target);
    }

    /** One action on a control the screen shows, or the passing of time; the invariant of
        module Booking holds throughout. */
    method Handle(e: Event)
      requires Valid() && OnScreen(State(), e)
      modifies this
      ensures State() == Apply(old(State()), e)
      ensures Valid()
    {
      ApplyInv(State(), e);
      match e
      case TypeQuery(q) => SetSearchQuery(q);
      case PickRide(ride) => HandleRideSelect(ride);
      case AddOne => IncrementPassengers();
      case RemoveOne => DecrementPassengers();
      case FlipSplit => ToggleSplitBill();
      case ConfirmBooking => HandleConfirmBooking();
      case GoBack => HandleBack();
      case FlipNetwork => ToggleOffline();
      case OpenDriverStory => OpenVideoStory();
      case CloseDriverStory => CloseVideoStory();
      case Elapse(ms) => Wait(ms);
    }
  }
}
