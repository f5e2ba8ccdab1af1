/** The saved-trip store: an ordered list of itineraries that behaves as a
    set keyed by id. Saving appends unless the id is present; deleting keeps
    every entry with another id. */
module Store {
  import opened Types

  /** `list.some(i => i.id === id)`. */
  predicate HasId(list: seq<Itinerary>, id: string)
  {
    exists i :: 0 <= i < |list| && list[i].id == id
  }

  /** No two entries share an id. */
  predicate DistinctIds(list: seq<Itinerary>)
  {
    forall i, j :: 0 <= i < j < |list| ==> list[i].id != list[j].id
  }

  /** The update `handleSaveItinerary` applies to the list: afterwards the id
      is stored, and the old entries keep their places with at most one
      entry added after them. */
  function Save(list: seq<Itinerary>, it: Itinerary): (r: seq<Itinerary>)
    ensures HasId(r, it.id)
    ensures |list| <= |r| <= |list| + 1 && r[..|list|] == list
  {
    if HasId(list, it.id) then list
    else
      assert (list + [it])[|list|] == it;
      list + [it]
  }

  /** The update `handleDeleteItinerary` applies: `list.filter(i => i.id !== id)`. */
  function Delete(list: seq<Itinerary>, id: string): (r: seq<Itinerary>)
    ensures |r| <= |list|
    ensures forall x :: x in r <==> x in list && x.id != id
  {
    if list == [] then []
    else
      var rest := Delete(list[..|list| - 1], id);
      var last := list[|list| - 1];
      assert list == list[..|list| - 1] + [last];
      if last.id != id then rest + [last] else rest
  }

  /** Saving an itinerary whose id is already stored changes nothing, so a
      second save of the same itinerary is a no-op. */
  lemma SaveIdempotent(list: seq<Itinerary>, it: Itinerary)
    ensures HasId(list, it.id) ==> Save(list, it) == list
    ensures Save(Save(list, it), it) == Save(list, it)
  {
    if !HasId(list, it.id) {
      assert (list + [it])[|list|] == it;
    }
  }

  /** Saving a new id appends it as the last entry and keeps the others. */
  lemma SaveAppends(list: seq<Itinerary>, it: Itinerary)
    requires !HasId(list, it.id)
    ensures |Save(list, it)| == |list| + 1
    ensures Save(list, it)[..|list|] == list && Save(list, it)[|list|] == it
  {
  }

  /** Saving keeps the ids distinct. */
  lemma SavePreservesDistinctIds(list: seq<Itinerary>, it: Itinerary)
    requires DistinctIds(list)
    ensures DistinctIds(Save(list, it))
    ensures HasId(Save(list, it), it.id)
  {
    if !HasId(list, it.id) {
      var r := list + [it];
      assert r[|list|] == it;
      forall i, j | 0 <= i < j < |r| ensures r[i].id != r[j].id {
        if j == |list| {
          assert r[i] == list[i];
        }
      }
    }
  }

  /** Deleting distributes over concatenation: every part keeps exactly its
      entries with another id, in their original order. */
  lemma {:induction false} DeleteConcat(a: seq<Itinerary>, b: seq<Itinerary>, id: string)
    ensures Delete(a + b, id) == Delete(a, id) + Delete(b, id)
  {
    if b == [] {
      assert a + b == a;
    } else {
      var b' := b[..|b| - 1];
      assert (a + b)[..|a + b| - 1] == a + b';
      assert (a + b)[|a + b| - 1] == b[|b| - 1];
      DeleteConcat(a, b', id);
    }
  }

  /** Deleting an id that no entry has leaves the list as it is. */
  lemma {:induction false} DeleteAbsent(list: seq<Itinerary>, id: string)
    requires !HasId(list, id)
    ensures Delete(list, id) == list
  {
    if list != [] {
      var init := list[..|list| - 1];
      assert !HasId(init, id) by {
        forall i | 0 <= i < |init| ensures init[i].id != id {
          assert init[i] == list[i];
        }
      }
      var last := list[|list| - 1];
      assert last.id != id;
      DeleteAbsent(init, id);
      assert Delete(list, id) == Delete(init, id) + [last];
      assert list == init + [last];
    }
  }

  /** After a delete no entry has that id. */
  lemma DeleteRemovesId(list: seq<Itinerary>, id: string)
    ensures !HasId(Delete(list, id), id)
  {
    var r := Delete(list, id);
    forall i | 0 <= i < |r| ensures r[i].id != id {
      assert r[i] in r;
    }
  }

  /** Deleting keeps the ids distinct. */
  lemma {:induction false} DeletePreservesDistinctIds(list: seq<Itinerary>, id: string)
    requires DistinctIds(list)
    ensures DistinctIds(Delete(list, id))
  {
    if list != [] {
      var init := list[..|list| - 1];
      var last := list[|list| - 1];
      assert DistinctIds(init);
      DeletePreservesDistinctIds(init, id);
      var rest := Delete(init, id);
      if last.id != id {
        var r := rest + [last];
        forall i, j | 0 <= i < j < |r| ensures r[i].id != r[j].id {
          if j == |rest| {
            assert r[i] == rest[i] && rest[i] in init;
            var k :| 0 <= k < |init| && init[k] == rest[i];
            assert list[k] == init[k];
          } else {
            assert r[i] == rest[i] && r[j] == rest[j];
          }
        }
      }
    }
  }

  /** Deleting the id of an itinerary just saved under a new id restores the
      list it was saved into. */
  lemma DeleteUndoesSave(list: seq<Itinerary>, it: Itinerary)
    requires !HasId(list, it.id)
    ensures Delete(Save(list, it), it.id) == list
  {
    DeleteConcat(list, [it], it.id);
    DeleteAbsent(list, it.id);
    assert Delete([it], it.id) == [];
  }
}
