/** Coordinates as the mapping library hands them out and takes them in. */
module Geo {

  /** A geographic coordinate; the model never computes with its parts. */
  datatype LatLng = LatLng(lat: real, lng: real)
}
