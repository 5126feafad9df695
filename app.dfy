/**
 * The app shell (src/App.js) as an object: the list of locations, the
 * optional record being edited, and the snapshot the storage holds under the
 * key "locations". Every handler replaces the list with the value the pure
 * functions of `Locations` compute, and the save effect then mirrors the list
 * into the snapshot.
 */
module LocationApp {
  import opened Wrappers
  import opened Coordinates
  import opened Locations
  import CoordinateForm

  class App {
    var locations: seq<Location>
    /** `None` while idle; the copy of the record being edited otherwise. */
    var editing: Option<Location>
    /** The stored snapshot; `None` while the storage has no such key. */
    var persisted: Option<seq<Location>>

    /** After every change the stored snapshot equals the list. */
    ghost predicate Valid()
      reads this
    {
      persisted == Some(locations)
    }

    /**
     * Start-up: the load effect reads the snapshot (a missing one reads as
     * the empty list), and the save effect writes the list back.
     */
    constructor (stored: Option<seq<Location>>)
      ensures Valid() && editing == None
      ensures stored == None ==> locations == []
      ensures stored.Some? ==> locations == stored.value
    {
      locations := stored.GetOr([]);
      editing := None;
      persisted := Some(stored.GetOr([]));
    }

    /** A page reload: a new app started from this one's snapshot shows the same list. */
    method Reload() returns (next: App)
      requires Valid()
      ensures fresh(next) && next.Valid()
      ensures next.locations == locations && next.editing == None
    {
      next := new App(persisted);
    }

    /** `handleAddLocation`, with the timestamp id supplied by the caller. */
    method AddLocation(id: string, c: Coords)
      requires Valid()
      requires !HasId(locations, id)
      modifies this
      ensures Valid() && editing == old(editing)
      ensures locations == Add(old(locations), id, c)
      ensures DistinctIds(old(locations)) ==> DistinctIds(locations)
    {
      AddKeepsDistinct(locations, id, c);
      locations := Add(locations, id, c);
      persisted := Some(locations);
    }

    /** `handleUpdateLocation`: a marker drag or a submitted edit. */
    method UpdateLocation(id: string, c: Coords)
      requires Valid()
      modifies this
      ensures Valid() && editing == old(editing)
      ensures locations == Update(old(locations), id, c)
      ensures DistinctIds(locations) <==> DistinctIds(old(locations))
      ensures !HasId(old(locations), id) ==> locations == old(locations)
    {
      UpdateKeepsDistinct(locations, id, c);
      if !HasId(locations, id) {
        UpdateAbsent(locations, id, c);
      }
      locations := Update(locations, id, c);
      persisted := Some(locations);
    }

    /** `handleDeleteLocation`: the popup's delete button. */
    method DeleteLocation(id: string)
      requires Valid()
      modifies this
      ensures Valid() && editing == old(editing)
      ensures locations == Delete(old(locations), id)
      ensures !HasId(locations, id)
      ensures DistinctIds(old(locations)) ==> DistinctIds(locations)
      ensures !HasId(old(locations), id) ==> locations == old(locations)
    {
      if DistinctIds(locations) {
        DeleteKeepsDistinct(locations, id);
      }
      if !HasId(locations, id) {
        DeleteAbsent(locations, id);
      }
      locations := Delete(locations, id);
      persisted := Some(locations);
    }

    /** `handleEditLocation`: the edit session starts on a copy of `loc`. */
    method EditLocation(loc: Location)
      modifies this
      ensures editing == Some(loc)
      ensures locations == old(locations) && persisted == old(persisted)
    {
      editing := Some(loc);
    }

    /** `handleCancelEdit`: the edit session ends; the list is untouched. */
    method CancelEdit()
      modifies this
      ensures editing == None
      ensures locations == old(locations) && persisted == old(persisted)
    {
      editing := None;
    }

    /**
     * The add callback the edit form receives: update the record being
     * edited, by its stored id, then end the session. This form is shown
     * only while a session is active.
     */
    method SubmitEdit(c: Coords)
      requires Valid() && editing.Some?
      modifies this
      ensures Valid() && editing == None
      ensures locations == Update(old(locations), old(editing).value.id, c)
    {
      UpdateLocation(editing.value.id, c);
      CancelEdit();
    }

    /**
     * What a submit of the shown form does: the add form (while idle) adds a
     * record under `freshId`; the edit form updates the edited record and
     * ends the session. Invalid coordinates leave the app untouched.
     */
    method SubmitForm(form: CoordinateForm.Form, freshId: string)
      requires Valid()
      requires form.lat.Some? && form.lng.Some?
      requires editing == None ==> !HasId(locations, freshId)
      modifies this, form
      ensures Valid()
      ensures form.loading == old(form.loading)
      ensures ValidateCoordinates(old(form.lat).value, old(form.lng).value) != "" ==>
        locations == old(locations) && editing == old(editing) &&
        form.lat == old(form.lat) && form.lng == old(form.lng)
      ensures ValidateCoordinates(old(form.lat).value, old(form.lng).value) == "" ==>
        form.lat == None && form.lng == None && editing == None &&
        locations == (match old(editing)
                      case None => Add(old(locations), freshId, Coords(old(form.lat).value, old(form.lng).value))
                      case Some(loc) => Update(old(locations), loc.id, Coords(old(form.lat).value, old(form.lng).value)))
    {
      var added := form.Submit();
      if added.Some? {
        if editing.None? {
          AddLocation(freshId, added.value);
        } else {
          SubmitEdit(added.value);
        }
      }
    }
  }
}
