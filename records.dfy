/** The domain record of the import: one row of the traffic-density file. */
module Records {
  import opened Wrappers

  /**
   * `TrafficDensity`: an optional database id (assigned by the persistence layer,
   * absent on every freshly read record), four text fields and four 32-bit integer fields.
   */
  datatype TrafficDensity = TrafficDensity(
    id: Option<int>,
    dateTime: string,
    latitude: string,
    longitude: string,
    geohash: string,
    minimumSpeed: int,
    maximumSpeed: int,
    averageSpeed: int,
    numberOfVehicles: int)
}
