/**
 * Coordinate validation of the entry form (src/components/Form.js).
 * A coordinate pair is valid when the latitude lies in [-90, 90] and the
 * longitude in [-180, 180], both bounds included. The check answers with the
 * empty string for a valid pair and otherwise with the message for the first
 * violated bound; the latitude is checked first.
 */
module Coordinates {

  /** A parsed latitude/longitude pair, as the form hands it to the app. */
  datatype Coords = Coords(lat: real, lng: real)

  const LatitudeMessage: string := "Latitude must be between -90 and 90."
  const LongitudeMessage: string := "Longitude must be between -180 and 180."

  predicate LatInRange(lat: real) {
    -90.0 <= lat <= 90.0
  }

  predicate LngInRange(lng: real) {
    -180.0 <= lng <= 180.0
  }

  /** True when the pair passes validation. */
  predicate InRange(c: Coords) {
    LatInRange(c.lat) && LngInRange(c.lng)
  }

  /** The error message for a coordinate pair; the empty string means valid. */
  function ValidateCoordinates(latitude: real, longitude: real): (msg: string)
    ensures msg == "" <==> LatInRange(latitude) && LngInRange(longitude)
    ensures !LatInRange(latitude) ==> msg == LatitudeMessage
    ensures msg == LongitudeMessage <==> LatInRange(latitude) && !LngInRange(longitude)
    ensures msg == "" || msg == LatitudeMessage || msg == LongitudeMessage
  {
    if latitude < -90.0 || latitude > 90.0 then
      LatitudeMessage
    else if longitude < -180.0 || longitude > 180.0 then
      LongitudeMessage
    else
      ""
  }

  /** The four corners of the valid range pass; one step beyond any bound fails. */
  lemma BoundsAreInclusive(eps: real)
    requires eps > 0.0
    ensures ValidateCoordinates(-90.0, -180.0) == "" && ValidateCoordinates(90.0, 180.0) == ""
    ensures ValidateCoordinates(-90.0, 180.0) == "" && ValidateCoordinates(90.0, -180.0) == ""
    ensures ValidateCoordinates(90.0 + eps, 0.0) == LatitudeMessage
    ensures ValidateCoordinates(-90.0 - eps, 0.0) == LatitudeMessage
    ensures ValidateCoordinates(0.0, 180.0 + eps) == LongitudeMessage
    ensures ValidateCoordinates(0.0, -180.0 - eps) == LongitudeMessage
  {
  }

  /** A latitude of 95 fails on latitude whatever the longitude; (45, 200) fails on longitude; (45, 90) passes. */
  lemma ValidationExamples()
    ensures ValidateCoordinates(95.0, 0.0) == LatitudeMessage
    ensures ValidateCoordinates(95.0, 500.0) == LatitudeMessage
    ensures ValidateCoordinates(45.0, 200.0) == LongitudeMessage
    ensures ValidateCoordinates(45.0, 90.0) == ""
  {
  }
}
