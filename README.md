# Location Tracker — a verified model of its list, edit session and coordinate form

Location Tracker is a single-page React app. The user types or geolocates a
latitude/longitude pair, and the app keeps an ordered list of map points.
Each point is an `{id, lat, lng}` record whose id is the creation timestamp.
The app shows the points as draggable markers and keeps the list in the
browser's storage under the key `locations`. This project models the state
logic behind that:

- `Coordinates` (coordinates.dfy): the range check of the entry form. The
  latitude must lie in [-90, 90] and the longitude in [-180, 180], bounds
  included. The latitude is checked first and its message wins.
- `Locations` (locations.dfy): the location list as values. `Add` appends
  (the spread in `handleAddLocation`). `Update` rewrites the matching records
  (the `map` in `handleUpdateLocation`). `Delete` keeps the others (the
  `filter` in `handleDeleteLocation`). Lemmas cover order, idempotence, absent
  ids and distinct ids.
- `LocationApp` (app.dfy): the `App` component as a class. Its fields are
  `locations`, the optional `editing` record and the stored snapshot
  `persisted`. Its methods are the handlers, the edit-session transitions and
  the combined edit submit. The object invariant `Valid()` says that the
  snapshot always equals the list.
- `CoordinateForm` (form.dfy): the `Form` component as a class with the
  fields `lat`, `lng` and `loading`. Its methods are the submit handler and
  the two halves of the geolocation request.
- `Wrappers` (wrappers.dfy): an `Option` type. It stands for an absent storage
  key, an empty input field and an idle edit session.

Inputs the browser supplies are parameters. These are the timestamp id, the
stored snapshot read at start-up, whether geolocation is supported, and what
the geolocation request answers.

## Model

| member | source | states |
|---|---|---|
| Coordinates.ValidateCoordinates | src/components/Form.js:19-29 | the empty string iff -90 <= lat <= 90 and -180 <= lng <= 180; an out-of-range latitude gives the latitude message whatever the longitude; the longitude message exactly when the latitude is in range and the longitude is not; no other answer |
| Coordinates.BoundsAreInclusive | src/components/Form.js:21-27 | the four corners of the range are valid; any amount beyond a bound gives that bound's message |
| Coordinates.ValidationExamples | src/components/Form.js:19-29 | (95, 0) and (95, 500) give the latitude message, (45, 200) the longitude message, (45, 90) passes |
| Locations.Add | src/App.js:27-29 | one record more; the old list is a prefix; the last record carries the supplied id and the input lat/lng |
| Locations.AddKeepsDistinct | src/App.js:28-29 | the ids stay distinct after an add iff they were distinct and the supplied id was not present |
| Locations.AddHasId | src/App.js:28-29 | after an add, an id is present iff it was present before or is the supplied id |
| Locations.Update | src/App.js:34-38 | same length and order; every record with the id gets the new lat/lng and keeps its id; every other record is unchanged |
| Locations.UpdateFound | src/App.js:35-37 | the record at a position carrying the id becomes exactly that id at the new coordinates |
| Locations.UpdateHasId | src/App.js:35-37 | an update leaves the set of present ids as it was |
| Locations.UpdateKeepsDistinct | src/App.js:35-37 | the ids are distinct after an update iff they were before |
| Locations.UpdateAbsent | src/App.js:35-37 | updating an id no record carries leaves the list unchanged |
| Locations.UpdateIdempotent | src/App.js:35-37 | updating twice with the same coordinates equals updating once |
| Locations.Delete | src/App.js:43-45 | a record survives iff it was in the list and does not carry the id; no record with the id remains; never longer |
| Locations.DeleteAppend | src/App.js:44 | deleting from a concatenation is the concatenation of the deletions, so survivors keep their relative order |
| Locations.DeleteLength | src/App.js:44 | the new length is the old length minus the number of records carrying the id |
| Locations.DeleteDistinctLength | src/App.js:43-45 | with distinct ids, deleting a present id shortens the list by exactly one and an absent id not at all |
| Locations.DeleteAbsent | src/App.js:44 | deleting an id no record carries leaves the list unchanged |
| Locations.DeleteIdempotent | src/App.js:44 | deleting twice equals deleting once |
| Locations.DeleteKeepsDistinct | src/App.js:44 | distinct ids stay distinct after a delete |
| Locations.Scenario | src/App.js:27-45 | from the empty list, adding at (51.5, -0.09), moving to (40, -73) and deleting give the expected one-, one- and zero-record lists |
| LocationApp.App.constructor | src/App.js:16-24 | a missing snapshot loads as the empty list, a present one as itself; the snapshot then equals the list; no edit session |
| LocationApp.App.Reload | src/App.js:16-24 | an app restarted from the snapshot shows the same list, same ids, coordinates and order |
| LocationApp.App.AddLocation | src/App.js:27-31 | the list becomes Add(old list, id, coords) for an id not present; the snapshot follows; distinct ids stay distinct; the session is untouched |
| LocationApp.App.UpdateLocation | src/App.js:34-40 | the list becomes Update(old list, id, coords); the snapshot follows; an absent id changes nothing; distinctness kept |
| LocationApp.App.DeleteLocation | src/App.js:43-47 | the list becomes Delete(old list, id); no record with the id remains; the snapshot follows; an absent id changes nothing |
| LocationApp.App.EditLocation | src/App.js:50-52 | the session holds a copy of the record; list and snapshot untouched |
| LocationApp.App.CancelEdit | src/App.js:55-57 | the session ends; list and snapshot untouched |
| LocationApp.App.SubmitEdit | src/App.js:73-76 | the list becomes Update(old list, id of the edited record, coords) and the session ends |
| LocationApp.App.SubmitForm | src/App.js:64-78 | an invalid form changes neither the app nor the form fields; a valid one empties both fields and adds a record while idle, or updates the edited record and ends the session while editing; loading is untouched |
| CoordinateForm.Form.constructor | src/components/Form.js:6-10 | the fields start at the initial coordinates (empty when adding) and loading is off |
| CoordinateForm.Form.SetLat | src/components/Form.js:98 | the latitude input sets lat only |
| CoordinateForm.Form.SetLng | src/components/Form.js:109 | the longitude input sets lng only |
| CoordinateForm.Form.Submit | src/components/Form.js:32-48 | invalid coordinates: nothing handed on and the fields unchanged; valid: the callback gets exactly those coordinates once and both fields are emptied; loading unchanged |
| CoordinateForm.Form.UseCurrentLocation | src/components/Form.js:51-58 | without geolocation support nothing changes; otherwise a request goes out and loading turns on; the fields stay |
| CoordinateForm.Form.OnPosition | src/components/Form.js:62-80 | a valid position fills both fields, an invalid one leaves them; loading ends false |
| CoordinateForm.Form.OnPositionError | src/components/Form.js:81-85 | the fields stay and loading ends false |
| CoordinateForm.Form.LocateCurrentPosition | src/components/Form.js:51-87 | over a whole request loading is on only while it is outstanding and off at the end; the fields change only on a supported request answered with a valid position |

## Left out

- src/components/Map.js is not part of this model. It is map rendering: tiles, marker icons, the fly-to animation that centres on the last record, and popups. Its handlers only forward `(id, position)` or the record to the app's handlers, which are modelled.
- Toast notifications are left out. They are display side effects and change no modelled state.
- Browser storage and JSON serialisation are left out. The stored value is modelled as the list itself. An absent key, or a stored value whose JSON is falsy (`null`, `false`, `0`), reads as the empty list through the `|| []` (src/App.js:17); `None` stands for all of these. Any other stored JSON is taken as the list as it is, even when it is not an array, and a stored value that is not valid JSON makes `JSON.parse` throw at start-up. The model assumes the store holds a list, which is all the app itself ever writes.
- On the first render the save effect writes the initial empty list before the loaded list replaces it (src/App.js:16-24). Only the settled state, where the snapshot equals the loaded list, is modelled.
- `parseFloat` and NaN are left out. Fields hold already-parsed reals, and an empty input is `None`. Form.Submit requires both fields to be filled, because the inputs carry the `required` attribute and the browser does not submit a blank form.
- The timestamp id (src/App.js:28) is a parameter. LocationApp.App.AddLocation requires that no record carries it already. The code does not guarantee this: two adds within one millisecond would collide.
- Geolocation is asynchronous in the code. Here it is a request method followed by one callback method, and the outcome is an argument. A request that never answers leaves `loading` on, as in the code.
- The store does not validate coordinates. Only the form validates. A marker drag passes the map's coordinates to the update unchecked, so the list holds whatever coordinates it is given.
- The syncing of the `initialLat`/`initialLng` props into the form (src/components/Form.js:13-16), the button labels and the truthiness tests on `initialLat` (src/components/Form.js:115-119) are rendering concerns. The edit form is modelled as created pre-filled through the constructor.
- Handlers are modelled as acting on the current state. React's stale-closure effects between renders are not modelled.
