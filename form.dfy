/**
 * The coordinate entry form (src/components/Form.js) as an object whose state
 * fields `lat`, `lng` and `loading` its handlers assign. A field holds `None`
 * while its input is empty and `Some(x)` once it holds the number `x`.
 */
module CoordinateForm {
  import opened Wrappers
  import opened Coordinates

  /** What the browser's geolocation request answers. */
  datatype GeoOutcome = Position(latitude: real, longitude: real) | PositionError

  class Form {
    var lat: Option<real>
    var lng: Option<real>
    /** True while a geolocation request is outstanding. */
    var loading: bool

    /** A new form, pre-filled with the coordinates of the record being edited, if any. */
    constructor (initialLat: Option<real>, initialLng: Option<real>)
      ensures lat == initialLat && lng == initialLng && !loading
    {
      lat, lng, loading := initialLat, initialLng, false;
    }

    /** The latitude input changed. */
    method SetLat(v: Option<real>)
      modifies this
      ensures lat == v && lng == old(lng) && loading == old(loading)
    {
      lat := v;
    }

    /** The longitude input changed. */
    method SetLng(v: Option<real>)
      modifies this
      ensures lng == v && lat == old(lat) && loading == old(loading)
    {
      lng := v;
    }

    /**
     * `handleSubmit`. Invalid coordinates abort: nothing is handed on and the
     * fields keep their values. Valid coordinates are handed to the add
     * callback once (the result `added`) and both fields are emptied. Both
     * inputs are `required`, so the browser submits only a filled form.
     */
    method Submit() returns (added: Option<Coords>)
      requires lat.Some? && lng.Some?
      modifies this
      ensures loading == old(loading)
      ensures ValidateCoordinates(old(lat).value, old(lng).value) != "" ==>
        added == None && lat == old(lat) && lng == old(lng)
      ensures ValidateCoordinates(old(lat).value, old(lng).value) == "" ==>
        added == Some(Coords(old(lat).value, old(lng).value)) && lat == None && lng == None
      ensures added.Some? ==> InRange(added.value)
    {
      var validationError := ValidateCoordinates(lat.value, lng.value);
      if validationError != "" {
        return None;
      }
      added := Some(Coords(lat.value, lng.value));
      lat := None;
      lng := None;
    }

    /**
     * `handleUseCurrentLocation` up to the request: without geolocation
     * support nothing changes; otherwise a request goes out and `loading`
     * turns on. The button is disabled while loading, so no request is
     * outstanding when it is pressed.
     */
    method UseCurrentLocation(supported: bool) returns (requested: bool)
      requires !loading
      modifies this
      ensures requested == supported
      ensures loading == requested
      ensures lat == old(lat) && lng == old(lng)
    {
      if !supported {
        return false;
      }
      loading := true;
      requested := true;
    }

    /**
     * The success callback: valid coordinates fill both fields, invalid
     * ones leave them as they were; `loading` ends false either way.
     */
    method OnPosition(latitude: real, longitude: real)
      requires loading
      modifies this
      ensures !loading
      ensures ValidateCoordinates(latitude, longitude) == "" ==> lat == Some(latitude) && lng == Some(longitude)
      ensures ValidateCoordinates(latitude, longitude) != "" ==> lat == old(lat) && lng == old(lng)
    {
      var validationError := ValidateCoordinates(latitude, longitude);
      if validationError != "" {
        loading := false;
        return;
      }
      lat := Some(latitude);
      lng := Some(longitude);
      loading := false;
    }

    /** The error callback: the fields stay, `loading` ends false. */
    method OnPositionError()
      requires loading
      modifies this
      ensures !loading && lat == old(lat) && lng == old(lng)
    {
      loading := false;
    }

    /**
     * A whole geolocation round: the request, then the callback for
     * `outcome`. `loading` is on exactly between the two, so it is off again
     * at the end, and the fields change only on a valid position.
     */
    method LocateCurrentPosition(supported: bool, outcome: GeoOutcome)
      requires !loading
      modifies this
      ensures !loading
      ensures (supported && outcome.Position? && ValidateCoordinates(outcome.latitude, outcome.longitude) == "") ==>
        lat == Some(outcome.latitude) && lng == Some(outcome.longitude)
      ensures !(supported && outcome.Position? && ValidateCoordinates(outcome.latitude, outcome.longitude) == "") ==>
        lat == old(lat) && lng == old(lng)
    {
      var requested := UseCurrentLocation(supported);
      if !requested {
        return;
      }
      assert loading;
      match outcome {
        case Position(latitude, longitude) => OnPosition(latitude, longitude);
        case PositionError => OnPositionError();
      }
    }
  }
}
