/**
 * The song collection behind the Mongoose model: documents keyed by id, plus
 * the order in which `find()` returns them, which this model fixes to be
 * insertion order (MongoDB promises no order without a sort). The
 * store primitives the controller awaits are its methods; a storage failure
 * (lost connection, an id that cannot be cast) is the `fault` argument.
 */
module SongStore {
  import opened Wrappers
  import opened Seqs
  import opened SongSchema
  import opened Aggregation

  /** What an awaited store call throws. */
  datatype StoreError = ValidationError(errors: seq<FieldError>) | DatabaseError(message: string)

  datatype StoreResult<T> = Done(value: T) | Threw(error: StoreError)

  /** The documents listed in the order `ids` gives. */
  function Lookup(ids: seq<string>, docs: map<string, SongRecord>): (r: seq<SongRecord>)
    requires forall i :: 0 <= i < |ids| ==> ids[i] in docs
    ensures |r| == |ids|
    ensures forall i :: 0 <= i < |ids| ==> r[i] == docs[ids[i]]
  {
    if ids == [] then [] else [docs[ids[0]]] + Lookup(ids[1..], docs)
  }

  /** Each id is present, appears once, and keys its own document. */
  predicate WellKeyed(order: seq<string>, docs: map<string, SongRecord>) {
    Distinct(order) && Elements(order) == docs.Keys && forall id :: id in docs ==> docs[id].id == id
  }

  /** The ids in `order` are the keys of `docs`, once each, so there are as many. */
  lemma OrderSize(order: seq<string>, docs: map<string, SongRecord>)
    requires Distinct(order) && Elements(order) == docs.Keys
    ensures |order| == |docs|
  {
    DistinctCardinality(order);
    assert |Elements(order)| == |docs.Keys|;
  }

  /** Looking up a well-keyed order yields every document once, in that order. */
  lemma LookupFacts(order: seq<string>, docs: map<string, SongRecord>)
    requires WellKeyed(order, docs)
    ensures forall i :: 0 <= i < |order| ==> order[i] in docs
    ensures |Lookup(order, docs)| == |docs|
    ensures forall i :: 0 <= i < |order| ==> Lookup(order, docs)[i].id == order[i]
    ensures forall id :: id in docs ==> exists i :: 0 <= i < |order| && order[i] == id
  {
    assert forall i :: 0 <= i < |order| ==> order[i] in Elements(order);
    OrderSize(order, docs);
    forall id | id in docs ensures exists i :: 0 <= i < |order| && order[i] == id {
      assert id in Elements(order);
    }
  }

  class SongCollection {
    var docs: map<string, SongRecord>
    var order: seq<string>

    /** Each stored id appears once in the natural order, and each document carries its own id. */
    ghost predicate Valid()
      reads this
    {
      WellKeyed(order, docs)
    }

    constructor ()
      ensures Valid() && docs == map[] && order == []
    {
      docs := map[];
      order := [];
    }

    /**
     * The documents in natural order: one per stored id, each exactly as stored,
     * no id twice; so there are as many as the collection holds.
     */
    function Records(): (r: seq<SongRecord>)
      reads this
      requires Valid()
      ensures |r| == |docs|
      ensures forall i :: 0 <= i < |r| ==> r[i].id in docs && docs[r[i].id] == r[i]
      ensures forall i, j :: 0 <= i < j < |r| ==> r[i].id != r[j].id
      ensures forall id :: id in docs ==> exists i :: 0 <= i < |r| && r[i].id == id
    {
      LookupFacts(order, docs);
      Lookup(order, docs)
    }

    /** `song.find()`: every document, in natural order. */
    method Find(fault: Option<string>) returns (r: StoreResult<seq<SongRecord>>)
      requires Valid()
      ensures fault.Some? ==> r == Threw(DatabaseError(fault.value))
      ensures fault.None? ==> r.Done? && r.value == Records() && |r.value| == |docs|
    {
      if fault.Some? {
        return Threw(DatabaseError(fault.value));
      }
      r := Done(Records());
    }

    /** `song.countDocuments()`. */
    method CountDocuments(fault: Option<string>) returns (r: StoreResult<nat>)
      requires Valid()
      ensures fault.Some? ==> r == Threw(DatabaseError(fault.value))
      ensures fault.None? ==> r == Done(|docs|) && r.value == |Records()|
    {
      if fault.Some? {
        return Threw(DatabaseError(fault.value));
      }
      r := Done(|docs|);
    }

    /** `song.distinct(field)`: the values the field takes where it is present. */
    method DistinctOf(f: GroupField, fault: Option<string>) returns (r: StoreResult<set<string>>)
      requires Valid()
      ensures fault.Some? ==> r == Threw(DatabaseError(fault.value))
      ensures fault.None? ==> r == Done(DistinctValues(Records(), f)) && |r.value| <= |docs|
    {
      if fault.Some? {
        return Threw(DatabaseError(fault.value));
      }
      DistinctAtMostCount(Records(), f);
      r := Done(DistinctValues(Records(), f));
    }

    /** `song.aggregate([{ $group: { _id: "$field", count: { $sum: 1 } } }])`. */
    method GroupCount(f: GroupField, fault: Option<string>) returns (r: StoreResult<seq<Group>>)
      requires Valid()
      ensures fault.Some? ==> r == Threw(DatabaseError(fault.value))
      ensures fault.None? ==> r == Done(GroupBy(Records(), f)) && SumCounts(r.value) == |docs|
    {
      if fault.Some? {
        return Threw(DatabaseError(fault.value));
      }
      r := Done(GroupBy(Records(), f));
    }

    /**
     * `new song(fields).save()`: the setters trim, the validators run, and only
     * then is the document written under the fresh id with both timestamps `now`.
     */
    method Save(input: SongFields, newId: string, now: int, fault: Option<string>) returns (r: StoreResult<SongRecord>)
      requires Valid() && newId !in docs
      modifies this
      ensures Valid()
      ensures Validate(input).Rejected? ==>
        r == Threw(ValidationError(Validate(input).errors)) && docs == old(docs) && order == old(order)
      ensures Validate(input).Accepted? && fault.Some? ==>
        r == Threw(DatabaseError(fault.value)) && docs == old(docs) && order == old(order)
      ensures Validate(input).Accepted? && fault.None? ==>
        r == Done(NewRecord(Validate(input).doc, newId, now)) &&
        docs == old(docs)[newId := r.value] && order == old(order) + [newId]
    {
      var checked := Validate(input);
      if checked.Rejected? {
        return Threw(ValidationError(checked.errors));
      }
      if fault.Some? {
        return Threw(DatabaseError(fault.value));
      }
      var rec := NewRecord(checked.doc, newId, now);
      assert newId !in Elements(order);
      docs := docs[newId := rec];
      order := order + [newId];
      assert Elements(order) == Elements(old(order)) + {newId};
      r := Done(rec);
    }

    /**
     * `song.findByIdAndUpdate(id, body, { new: true })`: the merged document,
     * or nothing when no document has that id. No validator runs.
     */
    method FindByIdAndUpdate(id: string, patch: SongFields, now: int, fault: Option<string>)
      returns (r: StoreResult<Option<SongRecord>>)
      requires Valid()
      modifies this
      ensures Valid() && order == old(order)
      ensures fault.Some? ==> r == Threw(DatabaseError(fault.value)) && docs == old(docs)
      ensures fault.None? && id !in old(docs) ==> r == Done(None) && docs == old(docs)
      ensures fault.None? && id in old(docs) ==>
        r == Done(Some(Merge(old(docs)[id], patch, now))) && docs == old(docs)[id := r.value.value]
    {
      if fault.Some? {
        return Threw(DatabaseError(fault.value));
      }
      if id !in docs {
        return Done(None);
      }
      var updated := Merge(docs[id], patch, now);
      docs := docs[id := updated];
      r := Done(Some(updated));
    }

    /** `song.findByIdAndDelete(id)`: the removed document, or nothing when no document has that id. */
    method FindByIdAndDelete(id: string, fault: Option<string>) returns (r: StoreResult<Option<SongRecord>>)
      requires Valid()
      modifies this
      ensures Valid()
      ensures fault.Some? ==> r == Threw(DatabaseError(fault.value)) && docs == old(docs) && order == old(order)
      ensures fault.None? && id !in old(docs) ==> r == Done(None) && docs == old(docs) && order == old(order)
      ensures fault.None? && id in old(docs) ==>
        r == Done(Some(old(docs)[id])) && docs == old(docs) - {id} && order == Without(old(order), id)
    {
      if fault.Some? {
        return Threw(DatabaseError(fault.value));
      }
      if id !in docs {
        return Done(None);
      }
      var removed := docs[id];
      docs := docs - {id};
      order := Without(order, id);
      r := Done(Some(removed));
    }
  }
}
