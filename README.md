# Takaenda ride client — verified model

Takaenda is a ride-matching client for Harare commuters. A passenger searches the offered
kombi, bus and taxi rides, reserves seats on one, and follows the booked trip through a live
status timeline (CONFIRMED, APPROACHING, ARRIVED, ON_TRIP). A booking made without network
is saved as an offline ticket and synchronised once the device is back online. A driver screen
accepts pickups and reports road alerts, and an SOS overlay counts down before alerting the
emergency contacts.

This project models that core in Dafny:

- `types.dfy` (module `Types`): rides, drivers, statuses and alerts. Money is in integer
  cents, ratings in tenths of a star and coordinates in ten-thousandths of a degree.
- `route_search.dfy` (module `RouteSearch`): the case-insensitive route filter.
- `catalog.dfy` (module `Catalog`): the twelve seed rides and four seed alerts, with data
  lemmas and a search scenario.
- `booking.dfy` (module `Booking`): the passenger booking engine as a pure state machine.
  A `Session` holds every piece of component state, an explicit millisecond clock and the
  pending timeouts. Each handler applies its own updates. `Commit` then runs the two effects
  the way the framework does after a render: an effect runs only when a dependency changed,
  the status effect before the sync effect, and the effects' own updates cause one more
  render. `Inv` is the invariant every reachable session keeps. The lemmas prove the seat,
  sync and timeline properties.
- `passenger_view.dfy` (class `PassengerView.PassengerView`): the component's fields updated
  in place. Every method is proved equal to the matching `Booking` function.
- `display.dfy` (module `Display`): the fare block, the progress ring and the status banner,
  as pure projections.
- `emergency_sos.dfy`, `video_story.dfy`, `driver_view.dfy`: the SOS countdown, the driver
  story's progress bar and the driver screen, each as a specification plus a class.

The model follows the component's code, including these behaviours a reader might not expect:

- Confirm has no insufficient-seats error. The seat count is clamped at zero.
  Under the invariant the clamp never applies (`Booking.ConfirmTakesExactSeats`).
- A ride can be selected from any step, because the map pins stay mounted.
- An online confirm leaves the pending-sync flag as it was. The flag stays set while syncing.
- Nothing invalidates a sync completion that is still in flight. It can mark a later
  offline booking as synced while the device is still offline
  (`Booking.StaleSyncClearsOfflineBooking`).
- Seats are never returned when a booking is closed.

## Model

| member | source | states |
|---|---|---|
| RouteSearch.LowerChar | views/PassengerView.tsx:33 | only ASCII capitals change, each to its lower-case letter |
| RouteSearch.Lower | views/PassengerView.tsx:33 | lower-casing keeps the length and lower-cases every character in place |
| RouteSearch.KeepMatching | views/PassengerView.tsx:33 | a ride is kept exactly when it is in the list and its route contains the query, ignoring case |
| RouteSearch.Filter | views/PassengerView.tsx:32-34 | an empty query returns the list unchanged; otherwise exactly the matching rides remain, never more than the list |
| RouteSearch.KeepMatchingAppend | views/PassengerView.tsx:33 | filtering distributes over concatenation, so the original order is kept |
| RouteSearch.KeepMatchingAll | views/PassengerView.tsx:33 | when every route matches, the filtered list is the list itself |
| RouteSearch.KeepMatchingNone | views/PassengerView.tsx:33 | when no route matches, the filtered list is empty |
| Catalog.MissingLetterExcludes | views/PassengerView.tsx:33 | a query letter that the route lacks in either case rules the ride out |
| Catalog.OffsetIncludes | views/PassengerView.tsx:33 | a route that spells the query, ignoring case, at some offset is kept |
| Catalog.ChitungwizaRoutes | constants.ts:27-65 | the three Chitungwiza routes match "chitungwiza" |
| Catalog.NoZExcluded | views/PassengerView.tsx:33 | a route without the letter z never matches "chitungwiza" |
| Catalog.OtherRoutes | constants.ts:88-256 | none of the other nine seed routes matches "chitungwiza" |
| Catalog.ChitungwizaSearch | constants.ts:7-259 | searching "chitungwiza" yields exactly k_chi_1, b_chi_1, t_chi_1, in that order |
| Catalog.MockRidesDistinct | constants.ts:7-259 | twelve seed rides with pairwise distinct ids |
| Catalog.MockRidesBookable | constants.ts:26-255 | every seed ride has at least one seat, so none starts sold out |
| Catalog.MockRidesPricesAndEtas | constants.ts:24-256 | every seed fare is 50 to 2500 cents and every ETA is at least one minute |
| Catalog.SingleSeatRides | constants.ts:7-259 | exactly t_chi_1 and k_avo_1 start with a single seat |
| Catalog.IdPrefixMatchesType | constants.ts:12-257 | the k_/b_/t_ prefix of a seed id agrees with KOMBI/BUS/TAXI |
| Catalog.MockAlertsIds | constants.ts:261-266 | four seed alerts with the distinct ids a1 to a4 |
| Booking.StatusEffect | views/PassengerView.tsx:37-53 | a trackable booking becomes CONFIRMED with the three advances scheduled from now and the schedule started now; away from CONFIRMED the status resets to AVAILABLE; otherwise the status stays; the pending advances are cleared whenever tracking does not start; the sync flags, sync completions and every passenger choice are untouched |
| Booking.SyncEffect | views/PassengerView.tsx:56-68 | online with a pending booking, the syncing flag is set and one completion due 2500 ms from now is appended; otherwise the sync state is unchanged; status, schedule and every passenger choice are untouched |
| Booking.EffectPass | views/PassengerView.tsx:37-68 | no effect touches the step, the selection, the passenger count, the split, the query, the connectivity, the pending flag, the rides or the clock; sync completions are only appended |
| Booking.Commit | views/PassengerView.tsx:37-68 | the same frame holds for the whole commit |
| Booking.CommitSettles | views/PassengerView.tsx:37-68 | the second pass changes no dependency, so a third pass would change nothing |
| Booking.Reserve | views/PassengerView.tsx:81-89 | same length, ids and order; rides with another id are unchanged; the booked ride keeps every other field and is left max(0, seats − n) seats; no count grows |
| Booking.ReserveExact | views/PassengerView.tsx:81-89 | with distinct ids and enough seats on the listed ride, exactly n seats are taken, without clamping |
| Booking.SetQuery | views/PassengerView.tsx:251 | typing changes the query and nothing else, effects included |
| Booking.SelectRide | views/PassengerView.tsx:70-76 | a sold-out ride changes nothing; otherwise, from any step, DETAILS with the ride snapshotted, one passenger, no split, the rides, pending flag, syncing flag, sync timers and clock untouched, and the status reset unless already in DETAILS |
| Booking.Confirm | views/PassengerView.tsx:78-99 | without a selection nothing changes; otherwise CONFIRMED, the seats reserved, the pending flag set exactly when offline and otherwise kept, and the selection, count and split kept |
| Booking.Back | views/PassengerView.tsx:101-110 | SEARCH is a no-op; DETAILS and CONFIRMED go to SEARCH, clear the selection, keep every seat count, reset the status and cancel its advances; leaving CONFIRMED clears the pending flag |
| Booking.AddPassenger | views/PassengerView.tsx:494 | only the count changes: one more while below the seats shown, and pinned at the seats shown otherwise |
| Booking.RemovePassenger | views/PassengerView.tsx:486 | only the count changes: one fewer above one, and one otherwise |
| Booking.ToggleSplit | views/PassengerView.tsx:505 | only the split flag flips; no effect runs |
| Booking.ToggleOffline | views/PassengerView.tsx:274 | the chip flips connectivity; going online with a pending booking sets the syncing flag and appends one completion 2500 ms ahead; otherwise the sync state is unchanged; no passenger choice changes |
| Booking.OpenStory | views/PassengerView.tsx:419-420 | the story opens only for a driver who has one, and nothing else changes |
| Booking.CloseStory | views/PassengerView.tsx:609-616 | closing or verifying only hides the story: step and seats are unchanged |
| Booking.FireNext | views/PassengerView.tsx:37-68 | firing the earliest timeout shortens the sync queue, or else keeps it and shortens the status queue: the measure by which waiting always ends |
| Booking.InitInv | views/PassengerView.tsx:16-29 | the mounted session satisfies the invariant when the rides have distinct ids |
| Booking.StatusEffectOk | views/PassengerView.tsx:37-53 | after the status effect, only a tracked booking has progress or pending advances |
| Booking.SyncEffectOk | views/PassengerView.tsx:56-68 | after the sync effect, an online pending booking is syncing and the completions stay ordered and within 2500 ms |
| Booking.EffectPassKeepsInv | views/PassengerView.tsx:37-68 | a further pass of the effects keeps the invariant |
| Booking.CommitInv | views/PassengerView.tsx:37-68 | the commit restores the invariant after any update that keeps the parts no effect repairs |
| Booking.SetQueryInv | views/PassengerView.tsx:251 | typing keeps the invariant |
| Booking.SelectRideInv | views/PassengerView.tsx:70-76 | selecting a listed ride keeps the invariant |
| Booking.AddPassengerInv | views/PassengerView.tsx:494 | the "+" button keeps the count within [1, seats] |
| Booking.RemovePassengerInv | views/PassengerView.tsx:486 | the "−" button keeps the count within [1, seats] |
| Booking.ToggleSplitInv | views/PassengerView.tsx:505 | the split switch keeps the invariant |
| Booking.ConfirmInv | views/PassengerView.tsx:78-99 | confirming from the details sheet keeps the invariant, including distinct ride ids |
| Booking.BackInv | views/PassengerView.tsx:101-110 | going back keeps the invariant |
| Booking.ToggleOfflineInv | views/PassengerView.tsx:274 | the connectivity chip keeps the invariant |
| Booking.StoryInv | views/PassengerView.tsx:609-616 | opening and closing the story keep the invariant |
| Booking.TimelineAdvance | views/PassengerView.tsx:41-43 | firing the next advance leaves the rest of the schedule on time |
| Booking.TimelineLater | views/PassengerView.tsx:41-43 | moving the clock up to the next advance fires nothing of the schedule |
| Booking.FireSyncInv | views/PassengerView.tsx:62-66 | a sync completion keeps the invariant |
| Booking.FireStatusInv | views/PassengerView.tsx:41-43 | a status advance keeps the invariant |
| Booking.FireNextInv | views/PassengerView.tsx:37-68 | firing the earliest timeout keeps the invariant and never moves the clock back |
| Booking.WaitUntilInv | views/PassengerView.tsx:37-68 | waiting keeps the invariant, ends at the target time and leaves nothing due |
| Booking.WaitKeepsChoices | views/PassengerView.tsx:37-68 | time passing never changes the step, selection, rides, count, split, connectivity, query or story |
| Booking.ApplyInv | views/PassengerView.tsx:70-110 | every action the screen offers, and time passing, keep the invariant |
| Booking.RunInv | views/PassengerView.tsx:486-497 | after any sequence of events the invariant holds and the passenger count stays within [1, seats of the selection] |
| Booking.TimelineStatus | views/PassengerView.tsx:37-53 | a schedule with nothing overdue shows the status it gives for the time since it started |
| Booking.TimelineReading | views/PassengerView.tsx:37-53 | a tracked booking with nothing overdue shows StatusAt(now − start) |
| Booking.WaitKeepsTracking | views/PassengerView.tsx:37-53 | time passing never stops tracking nor restarts the schedule |
| Booking.StatusFollowsClock | views/PassengerView.tsx:37-53 | once tracked, waiting until time t shows StatusAt(t − start) |
| Booking.ConfirmOnlineTracks | views/PassengerView.tsx:37-53 | an online confirm with nothing to sync starts tracking at once: status CONFIRMED, three advances scheduled from now |
| Booking.OnlineBookingTimeline | views/PassengerView.tsx:37-53 | ms after an online confirm the status is CONFIRMED, APPROACHING from 4000, ARRIVED from 10000 and ON_TRIP from 15000 |
| Booking.OfflineBookingWaits | views/PassengerView.tsx:92-95 | an offline booking with no sync in flight stays pending at AVAILABLE however long it waits |
| Booking.ReconnectStartsSync | views/PassengerView.tsx:56-60 | going online with a pending booking starts syncing and schedules one completion 2500 ms ahead |
| Booking.WaitKeepsSynced | views/PassengerView.tsx:56-68 | with both sync flags clear, nothing sets them again while time passes |
| Booking.WaitDrainsSync | views/PassengerView.tsx:56-68 | waiting past every pending completion fires them all and clears both flags |
| Booking.SyncCompletes | views/PassengerView.tsx:62-66 | a sync in progress completes within 2500 ms: both flags clear, none pending |
| Booking.ReconnectThenTrack | views/PassengerView.tsx:37-68 | an offline ticket is tracked 2500 ms after the device comes back online; with no earlier sync in flight its timeline starts exactly then, at CONFIRMED |
| Booking.SyncStartsSchedule | views/PassengerView.tsx:37-68 | when a confirmed booking's only pending timeout is its sync completion, the schedule starts exactly when it fires, at CONFIRMED |
| Booking.ReconnectTimeline | views/PassengerView.tsx:37-68 | ms after that sync completes, the offline ticket reads StatusAt(ms): the same timeline as an online booking |
| Booking.StaleSyncClearsOfflineBooking | views/PassengerView.tsx:56-68 | a completion still in flight when the passenger leaves, goes offline and books again marks the new offline booking synced and starts tracking while offline |
| Booking.ActionsKeepSyncQueue | views/PassengerView.tsx:56-68 | no passenger action cancels a scheduled sync completion |
| Booking.ConfirmTakesExactSeats | views/PassengerView.tsx:81-89 | no oversell: confirming from the details sheet takes exactly the chosen count from a ride that had at least that many, and no other ride changes |
| Booking.BookingLastSeatsSellsOut | views/PassengerView.tsx:71-89 | booking every seat sells the ride out, and selecting it again changes nothing |
| Booking.ApplyNeverAddsSeats | views/PassengerView.tsx:81-89 | one event never adds seats, nor reorders or renames the rides |
| Booking.RunNeverAddsSeats | views/PassengerView.tsx:81-89 | over any run of events each ride's seat count only goes down |
| Booking.DisabledCountersAreNoOps | views/PassengerView.tsx:486-497 | a disabled counter's handler changes nothing, and an enabled one moves the count by exactly one |
| PassengerView.PassengerView.constructor | views/PassengerView.tsx:16-29 | the mounted view holds the seed rides with nothing selected, and satisfies the invariant |
| PassengerView.PassengerView.StatusEffect | views/PassengerView.tsx:37-53 | the fields change as Booking.StatusEffect says |
| PassengerView.PassengerView.SyncEffect | views/PassengerView.tsx:56-68 | the fields change as Booking.SyncEffect says |
| PassengerView.PassengerView.EffectPass | views/PassengerView.tsx:37-68 | the fields change as Booking.EffectPass says |
| PassengerView.PassengerView.Commit | views/PassengerView.tsx:37-68 | the fields change as Booking.Commit says |
| PassengerView.PassengerView.SetSearchQuery | views/PassengerView.tsx:251 | the fields change as Booking.SetQuery says |
| PassengerView.PassengerView.ClearSearch | views/PassengerView.tsx:112-114 | the query becomes empty as Booking.SetQuery says |
| PassengerView.PassengerView.HandleRideSelect | views/PassengerView.tsx:70-76 | the fields change as Booking.SelectRide says |
| PassengerView.PassengerView.IncrementPassengers | views/PassengerView.tsx:494 | the fields change as Booking.AddPassenger says |
| PassengerView.PassengerView.DecrementPassengers | views/PassengerView.tsx:486 | the fields change as Booking.RemovePassenger says |
| PassengerView.PassengerView.ToggleSplitBill | views/PassengerView.tsx:505 | the fields change as Booking.ToggleSplit says |
| PassengerView.PassengerView.HandleConfirmBooking | views/PassengerView.tsx:78-99 | the fields change as Booking.Confirm says |
| PassengerView.PassengerView.HandleBack | views/PassengerView.tsx:101-110 | the fields change as Booking.Back says |
| PassengerView.PassengerView.ToggleOffline | views/PassengerView.tsx:274 | the fields change as Booking.ToggleOffline says |
| PassengerView.PassengerView.OpenVideoStory | views/PassengerView.tsx:419-420 | the fields change as Booking.OpenStory says |
| PassengerView.PassengerView.CloseVideoStory | views/PassengerView.tsx:609-616 | the fields change as Booking.CloseStory says |
| PassengerView.PassengerView.FireSyncTimeout | views/PassengerView.tsx:62-66 | a completion clears both flags at its due time, then the effects run |
| PassengerView.PassengerView.FireStatusTimeout | views/PassengerView.tsx:41-43 | an advance sets its status at its due time, then the effects run |
| PassengerView.PassengerView.FireNextTimeout | views/PassengerView.tsx:37-68 | the fields change as Booking.FireNext says |
| PassengerView.PassengerView.Wait | views/PassengerView.tsx:37-68 | firing timeouts in a loop until none is due yields Booking.Wait of the old state |
| PassengerView.PassengerView.Handle | views/PassengerView.tsx:70-110 | an action on a shown control, or time passing, changes the fields as Booking.Apply says and keeps the invariant |
| Display.Fare | views/PassengerView.tsx:402-413 | "per person" exactly for a split group, with the total line showing price × passengers and no "each" line; otherwise no total line, the headline being the group amount; a group always sees the seat price, a single rider never a second line |
| Display.SplitKeepsGroupAmount | views/PassengerView.tsx:402-413 | the split switch changes the layout but never the group amount, and nothing for one passenger |
| Display.Progress | views/PassengerView.tsx:160-191 | AVAILABLE has no ring; every other status shows a multiple of 25 between 25 and 100 |
| Display.ProgressFollowsTimeline | views/PassengerView.tsx:160-191 | each later stage of the timeline shows strictly more progress, and ON_TRIP is full |
| Display.ProgressNeverDecreases | views/PassengerView.tsx:160-191 | as tracking time grows, the ring never goes back |
| Display.StatusBanner | views/PassengerView.tsx:116-191 | no banner outside CONFIRMED; the offline ticket takes precedence over syncing; syncing shows only when not pending; a live banner only for a tracked booking, with its status and progress |
| Display.ConfirmedAlwaysHasBanner | views/PassengerView.tsx:116-191 | in every reachable session a confirmed booking has a banner, and it is live exactly when the booking is tracked |
| Display.OnlineBannerAfter | views/PassengerView.tsx:116-191 | ms after an online confirm the banner shows StatusAt(ms) and its progress |
| EmergencySos.Settle | components/EmergencySOS.tsx:9-19 | the effect never changes the active flag or the countdown; it notifies exactly when its dependencies changed and an active countdown is at zero, and keeps an earlier notification |
| EmergencySos.Trigger | components/EmergencySOS.tsx:21-25 | from any state: active, countdown 5, not notified |
| EmergencySos.Cancel | components/EmergencySOS.tsx:27-31 | from the countdown or the notified screen: inactive, countdown 5, not notified |
| EmergencySos.Tick | components/EmergencySOS.tsx:9-19 | inactive or at zero nothing changes; otherwise the countdown drops by exactly one and the contacts are notified when it reaches zero |
| EmergencySos.InvKept | components/EmergencySOS.tsx:6-31 | the countdown stays within [0, 5] and notified holds exactly when active at zero |
| EmergencySos.CountdownAfter | components/EmergencySOS.tsx:9-19 | n ticks after a trigger the countdown reads max(0, 5 − n), and notification comes exactly from the fifth tick |
| EmergencySos.EmergencySos.constructor | components/EmergencySOS.tsx:5-7 | mounted idle: inactive, countdown 5, not notified |
| EmergencySos.EmergencySos.Commit | components/EmergencySOS.tsx:9-19 | the fields change as EmergencySos.Settle says |
| EmergencySos.EmergencySos.HandleTrigger | components/EmergencySOS.tsx:21-25 | the fields change as EmergencySos.Trigger says |
| EmergencySos.EmergencySos.HandleCancel | components/EmergencySOS.tsx:27-31 | the fields change as EmergencySos.Cancel says |
| EmergencySos.EmergencySos.OnInterval | components/EmergencySOS.tsx:12-14 | the fields change as EmergencySos.Tick says |
| VideoStory.Advance | components/VideoStoryModal.tsx:16-22 | below 100 the progress grows by exactly 2; at 100 or more it is 100 |
| VideoStory.Tick | components/VideoStoryModal.tsx:14-25 | a stopped interval changes nothing; a running one applies the updater and stops exactly when the progress was already 100 |
| VideoStory.TickKeepsInv | components/VideoStoryModal.tsx:12-22 | the progress stays even and within [0, 100], and 100 is a fixed point |
| VideoStory.ProgressAfter | components/VideoStoryModal.tsx:14-25 | n ticks after opening the bar shows min(2n, 100): full after exactly 50 ticks (2.5 s), the interval stopping on the 51st |
| VideoStory.VideoStoryModal.constructor | components/VideoStoryModal.tsx:12-15 | the modal opens at 0 with its interval running |
| VideoStory.VideoStoryModal.OnInterval | components/VideoStoryModal.tsx:15-22 | the fields change as VideoStory.Tick says |
| DriverView.TripFor | views/DriverView.tsx:48-59 | the Westgate pin gives Tendai M., Westgate Roundabout, 2.4 km, 400 cents; any other pin Grace K., Avondale Shops, 1.1 km, 250 cents; always ACCEPTED |
| DriverView.PrependAlert | views/DriverView.tsx:38-46 | one alert more, at the head, of the given kind, at "Current Location", "Just now"; the earlier feed follows unchanged |
| DriverView.ReportKeepsIdsDistinct | views/DriverView.tsx:38-46 | a report with a fresh id keeps the feed's ids distinct |
| DriverView.ReportsStackNewestFirst | views/DriverView.tsx:38-46 | successive reports stack newest first on top of the untouched earlier feed |
| DriverView.DriverView.constructor | views/DriverView.tsx:24-27 | mounted on the radar tab with the seed alerts and no trip |
| DriverView.DriverView.HeaderBadge | views/DriverView.tsx:84-87 | the badge reads BUSY exactly when a trip is active |
| DriverView.DriverView.BusyHidesTabs | views/DriverView.tsx:241-242 | the tab bar is shown exactly when the badge is not BUSY |
| DriverView.DriverView.SelectTab | views/DriverView.tsx:245 | a tab press switches the tab and nothing else; the trip stays ACCEPTED |
| DriverView.DriverView.ReportAlert | views/DriverView.tsx:38-46 | the feed becomes DriverView.PrependAlert of the old one; nothing else changes and the trip stays ACCEPTED |
| DriverView.DriverView.HandleAcceptRide | views/DriverView.tsx:48-59 | any current trip is replaced by the pin's trip, which is ACCEPTED; tab, alerts and wallet unchanged |
| DriverView.DriverView.HandleCompleteTrip | views/DriverView.tsx:61-66 | the trip ends, the badge reads ONLINE, the tabs return and the wallet is unchanged |
| DriverView.DriverView.DismissTrip | views/DriverView.tsx:130 | the trip ends without touching the wallet, tab or alerts |

## Left out

- The map (components/MapSimulation.tsx) is not part of this model. Its projection uses floating point and its route curves are random. It appears only as the source of ride and pickup clicks: `Booking.OnScreen` lets a passenger pick any ride of the filtered list, and the pickup id is a parameter of `HandleAcceptRide`.
- App.tsx is not part of this model: screen navigation and the wallet's initial balance carry no invariant.
- The driver's change form (`handleIssueChange`) is left out. It parses a float, adds floats and blocks on `alert()`. Its help text says the amount is deducted, while the code adds it.
- Alert ids are timestamps in the source. Here the id is a parameter of `ReportAlert`.
- Real timers and the framework's scheduling are replaced by an explicit millisecond clock, sorted lists of pending timeouts and the `Commit` step. A sync completion and a status advance due at the same millisecond fire sync first. Concurrency is not modelled.
- The SOS and story intervals are modelled as tick events rather than on the millisecond clock.
- Presentation is left out: markup, styles, icons, two-decimal formatting, the ring's stroke offset, the "Sold Out" and low-seat labels, and avatar and image URLs.
- RouteSearch.Lower: lower-cases ASCII letters only; the Unicode case mapping of `toLowerCase` is not modelled.
- Prices, ratings and coordinates are fixed-point integers instead of floating-point numbers.
- The component has no insufficient-seats error, no stale-selection check and no epoch tag on its timers, so the model has none either.
- PassengerView.PassengerView.Handle: requires that the event's control is on screen; the pure `Booking.Apply` also covers the other events, as no-ops.
- The `walletBalance`, `toggleMenu` and `userMode` properties of the passenger screen are only displayed or passed on, and are left out.
