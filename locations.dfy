/**
 * The location list of the app (src/App.js) as values: the new list that each
 * handler computes before it replaces the component state. Adding appends with
 * a spread, updating rewrites the matching records with `map`, deleting keeps
 * the other records with `filter`.
 */
module Locations {
  import opened Coordinates

  /** A stored map point. The id is the creation timestamp rendered as text. */
  datatype Location = Location(id: string, lat: real, lng: real)

  /** Some record of `locs` carries `id`. */
  predicate HasId(locs: seq<Location>, id: string) {
    exists i :: 0 <= i < |locs| && locs[i].id == id
  }

  /** No two records of `locs` share an id. */
  predicate DistinctIds(locs: seq<Location>) {
    forall i, j :: 0 <= i < |locs| && 0 <= j < |locs| && i != j ==> locs[i].id != locs[j].id
  }

  /** The record `l` moved to `c` when it carries `id`, otherwise `l` itself. */
  function Moved(l: Location, id: string, c: Coords): Location {
    if l.id == id then l.(lat := c.lat, lng := c.lng) else l
  }

  /** `handleAddLocation`: the record built from `c` and the fresh `id`, appended. */
  function Add(locs: seq<Location>, id: string, c: Coords): (r: seq<Location>)
    ensures |r| == |locs| + 1
    ensures r[..|locs|] == locs
    ensures r[|locs|].id == id && r[|locs|].lat == c.lat && r[|locs|].lng == c.lng
  {
    locs + [Location(id, c.lat, c.lng)]
  }

  /**
   * `handleUpdateLocation`: every record carrying `id` takes the coordinates
   * of `c` and keeps its id; every other record is left as it is; length and
   * order do not change.
   */
  function Update(locs: seq<Location>, id: string, c: Coords): (r: seq<Location>)
    ensures |r| == |locs|
    ensures forall i :: 0 <= i < |locs| ==> r[i].id == locs[i].id
    ensures forall i :: 0 <= i < |locs| && locs[i].id == id ==> r[i].lat == c.lat && r[i].lng == c.lng
    ensures forall i :: 0 <= i < |locs| && locs[i].id != id ==> r[i] == locs[i]
  {
    if locs == [] then [] else [Moved(locs[0], id, c)] + Update(locs[1..], id, c)
  }

  /**
   * `handleDeleteLocation`: exactly the records not carrying `id` survive,
   * and none carrying it remains.
   */
  function Delete(locs: seq<Location>, id: string): (r: seq<Location>)
    ensures |r| <= |locs|
    ensures forall l :: l in r <==> l in locs && l.id != id
    ensures !HasId(r, id)
  {
    if locs == [] then []
    else if locs[0].id == id then Delete(locs[1..], id)
    else [locs[0]] + Delete(locs[1..], id)
  }

  /** The number of records of `locs` that carry `id`. */
  function CountId(locs: seq<Location>, id: string): nat {
    if locs == [] then 0 else (if locs[0].id == id then 1 else 0) + CountId(locs[1..], id)
  }

  // ---------------------------------------------------------------------------
  // Ids

  lemma {:induction false} DistinctCons(l: Location, locs: seq<Location>)
    ensures DistinctIds([l] + locs) <==> !HasId(locs, l.id) && DistinctIds(locs)
  {
    var s := [l] + locs;
    if DistinctIds(s) {
      forall i | 0 <= i < |locs| ensures locs[i].id != l.id {
        assert s[i + 1] == locs[i] && s[0] == l;
      }
      forall i, j | 0 <= i < |locs| && 0 <= j < |locs| && i != j
        ensures locs[i].id != locs[j].id
      {
        assert s[i + 1] == locs[i] && s[j + 1] == locs[j];
      }
    }
    if !HasId(locs, l.id) && DistinctIds(locs) {
      forall i, j | 0 <= i < |s| && 0 <= j < |s| && i != j ensures s[i].id != s[j].id {
        if i > 0 && j > 0 {
          assert s[i] == locs[i - 1] && s[j] == locs[j - 1];
        } else if i > 0 {
          assert s[i] == locs[i - 1];
        } else {
          assert s[j] == locs[j - 1];
        }
      }
    }
  }

  lemma CountIdZero(locs: seq<Location>, id: string)
    ensures CountId(locs, id) == 0 <==> !HasId(locs, id)
  {
  }

  // ---------------------------------------------------------------------------
  // Add

  /** Adding keeps the ids distinct exactly when the supplied id was not already present. */
  lemma AddKeepsDistinct(locs: seq<Location>, id: string, c: Coords)
    ensures DistinctIds(Add(locs, id, c)) <==> DistinctIds(locs) && !HasId(locs, id)
  {
  }

  /** The added record is the only one carrying the fresh id. */
  lemma AddHasId(locs: seq<Location>, id: string, c: Coords, x: string)
    ensures HasId(Add(locs, id, c), x) <==> HasId(locs, x) || x == id
  {
  }

  // ---------------------------------------------------------------------------
  // Update

  /** Updating rewrites no id, so the set of ids carried is the same. */
  lemma UpdateHasId(locs: seq<Location>, id: string, c: Coords, x: string)
    ensures HasId(Update(locs, id, c), x) <==> HasId(locs, x)
  {
  }

  /** Updating keeps the ids distinct. */
  lemma UpdateKeepsDistinct(locs: seq<Location>, id: string, c: Coords)
    ensures DistinctIds(Update(locs, id, c)) <==> DistinctIds(locs)
  {
  }

  /** Updating with an id that no record carries changes nothing. */
  lemma UpdateAbsent(locs: seq<Location>, id: string, c: Coords)
    requires !HasId(locs, id)
    ensures Update(locs, id, c) == locs
  {
  }

  /** Updating twice with the same coordinates is updating once. */
  lemma UpdateIdempotent(locs: seq<Location>, id: string, c: Coords)
    ensures Update(Update(locs, id, c), id, c) == Update(locs, id, c)
  {
  }

  /** After an update, the record carrying `id` (if any) sits where it was and holds `c`. */
  lemma UpdateFound(locs: seq<Location>, id: string, c: Coords, i: nat)
    requires i < |locs| && locs[i].id == id
    ensures Update(locs, id, c)[i] == Location(id, c.lat, c.lng)
  {
  }

  // ---------------------------------------------------------------------------
  // Delete

  /** Deleting distributes over concatenation: the survivors keep their relative order. */
  lemma {:induction false} DeleteAppend(a: seq<Location>, b: seq<Location>, id: string)
    ensures Delete(a + b, id) == Delete(a, id) + Delete(b, id)
  {
    if a == [] {
      assert a + b == b;
    } else {
      assert (a + b)[0] == a[0];
      assert (a + b)[1..] == a[1..] + b;
      DeleteAppend(a[1..], b, id);
    }
  }

  /** Deleting removes exactly the records carrying the id, counted. */
  lemma {:induction false} DeleteLength(locs: seq<Location>, id: string)
    ensures |Delete(locs, id)| == |locs| - CountId(locs, id)
  {
    if locs != [] {
      DeleteLength(locs[1..], id);
    }
  }

  /** Deleting an id that no record carries changes nothing. */
  lemma {:induction false} DeleteAbsent(locs: seq<Location>, id: string)
    requires !HasId(locs, id)
    ensures Delete(locs, id) == locs
  {
    if locs != [] {
      assert locs[0].id != id;
      DeleteAbsent(locs[1..], id);
      assert locs == [locs[0]] + locs[1..];
    }
  }

  /** Deleting twice is deleting once. */
  lemma DeleteIdempotent(locs: seq<Location>, id: string)
    ensures Delete(Delete(locs, id), id) == Delete(locs, id)
  {
  }

  /** Deleting keeps the ids distinct. */
  lemma {:induction false} DeleteKeepsDistinct(locs: seq<Location>, id: string)
    requires DistinctIds(locs)
    ensures DistinctIds(Delete(locs, id))
  {
    if locs != [] {
      assert locs == [locs[0]] + locs[1..];
      DistinctCons(locs[0], locs[1..]);
      DeleteKeepsDistinct(locs[1..], id);
      if locs[0].id != id {
        var rest := Delete(locs[1..], id);
        DistinctCons(locs[0], rest);
      }
    }
  }

  /** In a list with distinct ids, deleting a present id shortens it by one, an absent id not at all. */
  lemma {:induction false} DeleteDistinctLength(locs: seq<Location>, id: string)
    requires DistinctIds(locs)
    ensures |Delete(locs, id)| == if HasId(locs, id) then |locs| - 1 else |locs|
  {
    DeleteLength(locs, id);
    CountIdAtMostOne(locs, id);
    CountIdZero(locs, id);
  }

  lemma {:induction false} CountIdAtMostOne(locs: seq<Location>, id: string)
    requires DistinctIds(locs)
    ensures CountId(locs, id) <= 1
  {
    if locs != [] {
      assert locs == [locs[0]] + locs[1..];
      DistinctCons(locs[0], locs[1..]);
      CountIdAtMostOne(locs[1..], id);
      if locs[0].id == id {
        CountIdZero(locs[1..], id);
      }
    }
  }

  // ---------------------------------------------------------------------------
  // Add, move and delete one record

  /** Add at (51.5, -0.09), move to (40, -73), then delete, starting from the empty list. */
  lemma Scenario(x: string)
    ensures Add([], x, Coords(51.5, -0.09)) == [Location(x, 51.5, -0.09)]
    ensures Update([Location(x, 51.5, -0.09)], x, Coords(40.0, -73.0)) == [Location(x, 40.0, -73.0)]
    ensures Delete([Location(x, 40.0, -73.0)], x) == []
  {
  }
}
