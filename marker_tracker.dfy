/** MarkerTracker: a two-way table between map markers and the numeric ids it
    hands out, with a free-form information value per marker.  Ids come from
    a counter that only grows until the next reset. */
module MarkerTracking {
  import opened Outcomes

  /** What the tracker stores for a marker: its id and its information
      (`None` is `null`). */
  datatype MarkerEntry<I> = MarkerEntry(id: nat, info: Option<I>)

  /** `markers` and `markerIds` are inverse tables: a marker is stored under
      id k exactly when id k names that marker. */
  ghost predicate MutuallyInverse<M, I>(markers: map<M, MarkerEntry<I>>, markerIds: map<nat, M>)
  {
    && (forall m :: m in markers ==> markers[m].id in markerIds && markerIds[markers[m].id] == m)
    && (forall k :: k in markerIds ==> markerIds[k] in markers && markers[markerIds[k]].id == k)
  }

  /** Two inverse tables have the same number of entries. */
  lemma {:induction false} InverseTablesSameSize<M, I>(markers: map<M, MarkerEntry<I>>, markerIds: map<nat, M>)
    requires MutuallyInverse(markers, markerIds)
    ensures |markers| == |markerIds|
    decreases |markerIds|
  {
    if markerIds == map[] {
      assert markers.Keys == {};
    } else {
      var k :| k in markerIds;
      var m := markerIds[k];
      var ms, ks := markers - {m}, markerIds - {k};
      assert ms.Keys == markers.Keys - {m};
      assert ks.Keys == markerIds.Keys - {k};
      InverseTablesSameSize(ms, ks);
    }
  }

  class MarkerTracker<M(==), I> {
    var markers: map<M, MarkerEntry<I>>
    var markerIds: map<nat, M>
    var markerIdCounter: nat
    var lastMarkerUsed: Option<M>

    /** The tables are inverse, and every id in use was issued by the counter. */
    ghost predicate Valid()
      reads this
    {
      && MutuallyInverse(markers, markerIds)
      && (forall k :: k in markerIds ==> k < markerIdCounter)
    }

    constructor ()
      ensures Valid()
      ensures markers == map[] && markerIds == map[] && markerIdCounter == 0 && lastMarkerUsed == None
    {
      markers := map[];
      markerIds := map[];
      markerIdCounter := 0;
      lastMarkerUsed := None;
    }

    /** Starts tracking `marker` under the next id, with no information.  A
        marker that is already tracked is refused and nothing changes. */
    method TrackMarker(marker: M) returns (ok: bool)
      requires Valid()
      modifies this
      ensures Valid()
      ensures ok <==> marker !in old(markers)
      ensures !ok ==> markers == old(markers) && markerIds == old(markerIds) && markerIdCounter == old(markerIdCounter)
      ensures ok ==>
        && markers == old(markers)[marker := MarkerEntry(old(markerIdCounter), None)]
        && markerIds == old(markerIds)[old(markerIdCounter) := marker]
        && markerIdCounter == old(markerIdCounter) + 1
      ensures ok ==> forall m :: m in old(markers) ==> old(markers)[m].id < markers[marker].id
      ensures lastMarkerUsed == old(lastMarkerUsed)
    {
      if marker in markers {
        return false;
      }
      markerIds := markerIds[markerIdCounter := marker];
      markers := markers[marker := MarkerEntry(markerIdCounter, None)];
      markerIdCounter := markerIdCounter + 1;
      return true;
    }

    /** Replaces the information of a tracked marker, keeping its id; an
        untracked marker is refused and nothing changes. */
    method SetMarkerInfo(marker: M, newInfo: Option<I>) returns (ok: bool)
      requires Valid()
      modifies this
      ensures Valid()
      ensures ok <==> marker in old(markers)
      ensures !ok ==> markers == old(markers)
      ensures ok ==> markers == old(markers)[marker := MarkerEntry(old(markers)[marker].id, newInfo)]
      ensures markerIds == old(markerIds) && markerIdCounter == old(markerIdCounter) && lastMarkerUsed == old(lastMarkerUsed)
    {
      if marker !in markers {
        return false;
      }
      var id := GetMarkerId(marker);
      markers := markers[marker := MarkerEntry(id.value, newInfo)];
      return true;
    }

    /** Accepts a listener exactly for tracked markers; the listener itself is
        registered with the marker, outside the tracker. */
    method SetMarkerListener(marker: M) returns (ok: bool)
      ensures ok <==> marker in markers
    {
      ok := marker in markers;
    }

    /** The information of a tracked marker; reading it for an untracked
        marker dereferences `undefined`. */
    method GetMarkerInfo(marker: M) returns (r: Result<Option<I>>)
      ensures marker in markers ==> r == Success(markers[marker].info)
      ensures marker !in markers ==> r == Failure(TypeError)
    {
      if marker in markers {
        r := Success(markers[marker].info);
      } else {
        r := Failure(TypeError);
      }
    }

    /** The marker tracked under `id`, if any; it is stored under that id. */
    method GetMarkerById(id: nat) returns (m: Option<M>)
      requires Valid()
      ensures m.Some? <==> id in markerIds
      ensures m.Some? ==> m.value in markers && markers[m.value].id == id
    {
      if id in markerIds {
        m := Some(markerIds[id]);
      } else {
        m := None;
      }
    }

    /** The id of a tracked marker, which names it back; for an untracked
        marker the lookup dereferences `undefined`. */
    method GetMarkerId(marker: M) returns (r: Result<nat>)
      requires Valid()
      ensures marker !in markers ==> r == Failure(TypeError)
      ensures marker in markers ==> r.Success? && r.value in markerIds && markerIds[r.value] == marker
      ensures marker in markers ==> r.value < markerIdCounter
    {
      if marker !in markers {
        return Failure(TypeError);
      }
      r := Success(markers[marker].id);
    }

    /** Stops tracking `marker`, dropping it from both tables; the counter is
        not rewound, so its id is never issued again before a reset. */
    method UntrackMarker(marker: M) returns (r: Outcome)
      requires Valid()
      modifies this
      ensures Valid()
      ensures old(marker in markers) ==>
        && r == Pass
        && markers == old(markers) - {marker}
        && markerIds == old(markerIds) - {old(markers)[marker].id}
        && |markers| == |old(markers)| - 1
      ensures old(marker !in markers) ==> r == Fail(TypeError) && markers == old(markers) && markerIds == old(markerIds)
      ensures markerIdCounter == old(markerIdCounter) && lastMarkerUsed == old(lastMarkerUsed)
    {
      if marker !in markers {
        return Fail(TypeError);
      }
      var tmpId := markers[marker].id;
      assert (markers - {marker}).Keys == markers.Keys - {marker};
      markers := markers - {marker};
      markerIds := markerIds - {tmpId};
      r := Pass;
    }

    /** Stops tracking the marker with id `id`, dropping it from both tables;
        an id not in use makes the source dereference `undefined`. */
    method UntrackMarkerById(id: nat) returns (r: Outcome)
      requires Valid()
      modifies this
      ensures Valid()
      ensures old(id in markerIds) ==>
        && r == Pass
        && markers == old(markers) - {old(markerIds)[id]}
        && markerIds == old(markerIds) - {id}
        && |markers| == |old(markers)| - 1
      ensures old(id !in markerIds) ==> r == Fail(TypeError) && markers == old(markers) && markerIds == old(markerIds)
      ensures markerIdCounter == old(markerIdCounter) && lastMarkerUsed == old(lastMarkerUsed)
    {
      if id !in markerIds {
        return Fail(TypeError);
      }
      var marker := markerIds[id];
      markerIds := markerIds - {id};
      assert (markers - {marker}).Keys == markers.Keys - {marker};
      markers := markers - {marker};
      r := Pass;
    }

    /** Untracks every marker and restarts the ids at 0. */
    method Reset()
      modifies this
      ensures Valid()
      ensures markers == map[] && markerIds == map[] && markerIdCounter == 0 && lastMarkerUsed == None
    {
      markers := map[];
      lastMarkerUsed := None;
      markerIdCounter := 0;
      markerIds := map[];
    }

    /** The number of tracked markers, which is also the number of ids in use. */
    method GetMarkersCount() returns (count: nat)
      requires Valid()
      ensures count == |markers| && count == |markerIds|
    {
      InverseTablesSameSize(markers, markerIds);
      count := |markers|;
    }

    /** The id the next tracked marker will get: above every id in use. */
    method GetIdCounter() returns (counter: nat)
      requires Valid()
      ensures counter == markerIdCounter
      ensures forall m :: m in markers ==> markers[m].id < counter
    {
      counter := markerIdCounter;
    }
  }
}
