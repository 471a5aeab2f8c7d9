/**
 * Position samples. A platform location record is reduced to what the
 * estimators read and write: coordinates, altitude, a timestamp in seconds
 * since 1970, and the accuracy, course and speed that the altitude-aware
 * estimator copies onto its filtered output.
 */
module Locations {

  datatype Metadata = Metadata(horizontalAccuracy: real, verticalAccuracy: real, course: real, speed: real)

  datatype Location = Location(latitude: real, longitude: real, altitude: real, timestamp: real, metadata: Metadata)

  /** A location built from latitude and longitude alone. */
  datatype Coordinate = Coordinate(latitude: real, longitude: real)
}
