/** Shared records of the ride-matching client: ride offers, drivers and road alerts.
    Money is in integer cents, driver ratings in tenths of a star and
    coordinates in ten-thousandths of a degree. */
module Types {

  datatype Option<+T> = None | Some(value: T)

  datatype RideType = KOMBI | BUS | TAXI

  /** The passenger-visible trip status, in the order the timeline visits it. */
  datatype RideStatus = AVAILABLE | CONFIRMED | APPROACHING | ARRIVED | ON_TRIP

  datatype Driver = Driver(
    id: string,
    name: string,
    ratingTenths: nat,
    trips: nat,
    vehiclePlate: string,
    vehicleModel: string,
    hasVideoStory: bool,
    acceptedPayments: seq<string>)

  /** A fixed-point GPS position, in units of 1/10000 of a degree. */
  datatype Coordinates = Coordinates(lat: int, lng: int)

  datatype Ride = Ride(
    id: string,
    kind: RideType,
    driver: Driver,
    priceCents: nat,
    eta: nat,
    seatsLeft: nat,
    route: string,
    coordinates: Coordinates)

  datatype AlertKind = POLICE | TRAFFIC | ACCIDENT

  datatype Alert = Alert(id: string, kind: AlertKind, location: string, time: string)

  /** No two rides of the list share an id. */
  predicate DistinctIds(rides: seq<Ride>) {
    forall i, j :: 0 <= i < j < |rides| ==> rides[i].id != rides[j].id
  }
}
