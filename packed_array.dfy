// The packed sparse set (PackedArray.h) over entities: a dense sequence
// of entities and a map from entity id to dense slot. Removal swaps the
// last element into the vacated slot and pops.

module PackedArrays {
  import opened Entities

  /**
   * The sparse/dense invariant on the ids of the dense entities: every
   * mapped id names a slot holding that id, and every slot is mapped back
   * from its own id, so the map is a bijection onto [0, |ids|).
   */
  ghost predicate Packed(ids: seq<EntityID>, sparse: map<EntityID, nat>)
  {
    (forall k :: k in sparse ==> sparse[k] < |ids| && ids[sparse[k]] == k) &&
    (forall i :: 0 <= i < |ids| ==> ids[i] in sparse && sparse[ids[i]] == i)
  }

  /** The dense sequence after `remove`: the last element moved into slot `index`, then popped. */
  function SwapPop<T>(d: seq<T>, index: nat): (r: seq<T>)
    requires index < |d|
    ensures |r| == |d| - 1
    ensures forall i :: 0 <= i < |r| && i != index ==> r[i] == d[i]
    ensures index < |r| ==> r[index] == d[|d| - 1]
  {
    d[index := d[|d| - 1]][..|d| - 1]
  }

  /**
   * The map after `remove(id)` when `sparse[id]` gave `index` and the moved
   * element has id `lastId`: the moved element's entry is rewritten, then
   * `id`'s entry is erased.
   */
  function Unmapped(sparse: map<EntityID, nat>, id: EntityID, index: nat, lastId: EntityID): (r: map<EntityID, nat>)
    ensures id !in r
    ensures r.Keys == (sparse.Keys + {lastId}) - {id}
    ensures lastId != id ==> r[lastId] == index
    ensures forall k :: k in sparse && k != id && k != lastId ==> r[k] == sparse[k]
  {
    sparse[id := index][lastId := index] - {id}
  }

  /** Inserting a fresh id whose entity carries it keeps the invariant. */
  lemma InsertKeepsPacked(ids: seq<EntityID>, sparse: map<EntityID, nat>, id: EntityID)
    requires Packed(ids, sparse) && id !in sparse
    ensures Packed(ids + [id], sparse[id := |ids|])
  {
    var ids', sparse' := ids + [id], sparse[id := |ids|];
    forall i | 0 <= i < |ids'|
      ensures ids'[i] in sparse' && sparse'[ids'[i]] == i
    {
      if i < |ids| {
        assert ids'[i] == ids[i];
        assert ids[i] != id;
      }
    }
  }

  /** Removing a present id keeps the invariant. */
  lemma RemoveKeepsPacked(ids: seq<EntityID>, sparse: map<EntityID, nat>, id: EntityID)
    requires Packed(ids, sparse) && id in sparse
    ensures Packed(SwapPop(ids, sparse[id]), Unmapped(sparse, id, sparse[id], ids[|ids| - 1]))
  {
    var index, lastId := sparse[id], ids[|ids| - 1];
    var ids', sparse' := SwapPop(ids, index), Unmapped(sparse, id, index, lastId);
    forall k | k in sparse'
      ensures sparse'[k] < |ids'| && ids'[sparse'[k]] == k
    {
      if k == lastId {
        assert sparse[lastId] == |ids| - 1;
        assert index != |ids| - 1;
      } else {
        assert sparse[k] != index && sparse[k] != |ids| - 1;
      }
    }
    forall i | 0 <= i < |ids'|
      ensures ids'[i] in sparse' && sparse'[ids'[i]] == i
    {
      if i == index {
        assert ids'[i] == lastId;
        assert lastId != id;
      } else {
        assert ids'[i] == ids[i];
        assert ids[i] != id && ids[i] != lastId;
      }
    }
  }

  /** Removing drops exactly the removed id from the map and one slot from the dense sequence. */
  lemma RemoveDropsOnlyThatId(ids: seq<EntityID>, sparse: map<EntityID, nat>, id: EntityID)
    requires Packed(ids, sparse) && id in sparse
    ensures Unmapped(sparse, id, sparse[id], ids[|ids| - 1]).Keys == sparse.Keys - {id}
    ensures |SwapPop(ids, sparse[id])| == |ids| - 1
  {
  }

  /** Removing the id in the last slot leaves every other slot and entry as it was. */
  lemma RemoveLastSlot<T>(d: seq<T>, ids: seq<EntityID>, sparse: map<EntityID, nat>, id: EntityID)
    requires Packed(ids, sparse) && id in sparse && sparse[id] == |ids| - 1 && |d| == |ids|
    ensures SwapPop(d, sparse[id]) == d[..|d| - 1]
    ensures Unmapped(sparse, id, sparse[id], ids[|ids| - 1]) == sparse - {id}
  {
    assert ids[|ids| - 1] == id;
  }

  /**
   * An absent id in a non-empty store reads slot 0 (the map's default), so
   * `remove` drops the entity in slot 0 while the map keeps an entry for
   * that entity's id.
   */
  lemma RemoveAbsentDropsSlotZero(ids: seq<EntityID>, sparse: map<EntityID, nat>, id: EntityID)
    requires Packed(ids, sparse) && id !in sparse && |ids| >= 2
    ensures ids[0] in Unmapped(sparse, id, 0, ids[|ids| - 1])
    ensures ids[0] !in SwapPop(ids, 0)
  {
  }

  class PackedArray {
    var dense: seq<Entity>
    var sparse: map<EntityID, nat>

    /** The entities of the dense sequence. */
    function Members(): set<Entity>
      reads this`dense
    {
      set e | e in dense
    }

    /** The ids carried by the dense entities, slot by slot. */
    function Ids(): (ids: seq<EntityID>)
      reads this`dense, Members()`id
      ensures |ids| == |dense|
      ensures forall i :: 0 <= i < |dense| ==> ids[i] == dense[i].id
    {
      IdsOf(dense)
    }

    ghost predicate Valid()
      reads this`dense, this`sparse, Members()`id
    {
      Packed(Ids(), sparse)
    }

    constructor ()
      ensures dense == [] && sparse == map[] && Valid()
    {
      dense, sparse := [], map[];
    }

    /** `contains(id)`: whether the id has a slot; it reads and changes nothing else. */
    predicate Contains(id: EntityID)
      reads this`sparse
    {
      id in sparse
    }

    function GetDense(): seq<Entity>
      reads this`dense
    {
      dense
    }

    /**
     * `insert(id, e)`: records slot |dense| for id and appends e. An id that
     * matches its entity and is not yet present keeps the invariant.
     */
    method Insert(id: EntityID, e: Entity)
      modifies this
      ensures dense == old(dense) + [e]
      ensures sparse == old(sparse)[id := |old(dense)|]
      ensures Contains(id) && sparse[id] == |old(dense)| && dense[sparse[id]] == e
      ensures old(Valid()) && id !in old(sparse) && e.id == id ==> Valid()
    {
      ghost var ids := Ids();
      sparse := sparse[id := |dense|];
      dense := dense + [e];
      assert Ids() == ids + [e.id];
      if old(Valid()) && id !in old(sparse) && e.id == id {
        InsertKeepsPacked(ids, old(sparse), id);
      }
    }

    /**
     * `remove(id)`: looks up the slot (an absent id reads slot 0), moves the
     * last entity into it, rewrites the moved entity's entry, pops, and
     * erases id. The dense sequence must not be empty.
     */
    method Remove(id: EntityID)
      requires |dense| > 0 && (id in sparse ==> sparse[id] < |dense|)
      modifies this
      ensures var index := if id in old(sparse) then old(sparse)[id] else 0;
        dense == SwapPop(old(dense), index) &&
        sparse == Unmapped(old(sparse), id, index, old(dense)[|old(dense)| - 1].id)
      ensures !Contains(id)
      ensures old(Valid()) && id in old(sparse) ==> Valid()
    {
      ghost var ids := Ids();
      var index := if id in sparse then sparse[id] else 0;
      var last := dense[|dense| - 1];
      sparse := sparse[id := index];
      dense := dense[index := last];
      sparse := sparse[dense[index].id := index];
      dense := dense[..|dense| - 1];
      sparse := sparse - {id};
      assert Ids() == SwapPop(ids, index);
      if old(Valid()) && id in old(sparse) {
        RemoveKeepsPacked(ids, old(sparse), id);
      }
    }
  }

  function IdsOf(d: seq<Entity>): (ids: seq<EntityID>)
    reads (set e | e in d)`id
    ensures |ids| == |d|
    ensures forall i :: 0 <= i < |d| ==> ids[i] == d[i].id
  {
    if d == [] then [] else [d[0].id] + IdsOf(d[1..])
  }
}
