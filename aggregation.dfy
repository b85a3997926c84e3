/**
 * The aggregation primitives the statistics are built from: `distinct(field)`
 * and the `$group` stage with `count: { $sum: 1 }`, over the documents of the
 * collection in natural order.
 */
module Aggregation {
  import opened Wrappers
  import opened SongSchema

  /** The fields the statistics group by. */
  datatype GroupField = ByGener | ByArtist | ByAlbum

  /** The grouping key of a document (`$gener`, `$artist`, `$album`); `None` for an absent field. */
  function GroupKey(r: SongRecord, f: GroupField): Option<string> {
    match f
    case ByGener => r.gener
    case ByArtist => Some(r.artist)
    case ByAlbum => r.album
  }

  /** One output document of `$group`: `{ _id: key, count }`. */
  datatype Group = Group(key: Option<string>, count: nat)

  /** The number of documents whose key under `f` is `k`. */
  function CountKey(recs: seq<SongRecord>, f: GroupField, k: Option<string>): (n: nat)
    ensures n <= |recs|
  {
    if recs == [] then 0
    else CountKey(recs[..|recs| - 1], f, k) + (if GroupKey(recs[|recs| - 1], f) == k then 1 else 0)
  }

  /** Some group has key `k`. */
  predicate HasKey(gs: seq<Group>, k: Option<string>) {
    gs != [] && (gs[0].key == k || HasKey(gs[1..], k))
  }

  /** No key heads two groups. */
  predicate KeysDistinct(gs: seq<Group>) {
    gs == [] || (!HasKey(gs[1..], gs[0].key) && KeysDistinct(gs[1..]))
  }

  /** The count recorded for key `k`, 0 when no group has it. */
  function CountOf(gs: seq<Group>, k: Option<string>): nat {
    if gs == [] then 0
    else if gs[0].key == k then gs[0].count
    else CountOf(gs[1..], k)
  }

  function SumCounts(gs: seq<Group>): nat {
    if gs == [] then 0 else gs[0].count + SumCounts(gs[1..])
  }

  /** Every group counts at least one document. */
  predicate AllPositive(gs: seq<Group>) {
    gs == [] || (gs[0].count >= 1 && AllPositive(gs[1..]))
  }

  /** Counting one more document with key `k`: its group grows by one, or a new group `{k, 1}` is appended. */
  function Bump(gs: seq<Group>, k: Option<string>): (r: seq<Group>)
    requires KeysDistinct(gs) && AllPositive(gs)
    ensures KeysDistinct(r) && AllPositive(r)
    ensures forall k' :: CountOf(r, k') == CountOf(gs, k') + (if k' == k then 1 else 0)
    ensures forall k' :: HasKey(r, k') <==> HasKey(gs, k') || k' == k
    ensures SumCounts(r) == SumCounts(gs) + 1
  {
    if gs == [] then
      assert [Group(k, 1)][1..] == [];
      [Group(k, 1)]
    else if gs[0].key == k then
      var r := [Group(k, gs[0].count + 1)] + gs[1..];
      assert r[1..] == gs[1..];
      assert forall k' :: k' != k ==> CountOf(gs[1..], k') == CountOf(gs, k') by {
        NoKeyNoCount(gs[1..], k);
      }
      r
    else
      var tail := Bump(gs[1..], k);
      var r := [gs[0]] + tail;
      assert r[1..] == tail;
      r
  }

  /** A key no group has counts 0. */
  lemma {:induction false} NoKeyNoCount(gs: seq<Group>, k: Option<string>)
    requires !HasKey(gs, k)
    ensures CountOf(gs, k) == 0
  {
    if gs != [] {
      NoKeyNoCount(gs[1..], k);
    }
  }

  /**
   * `$group` by `f` with a count per key. The keys are distinct, every group
   * counts at least one document, the count of each key is the number of
   * documents holding that key, exactly the keys that occur have a group, and
   * the counts add up to the number of documents.
   */
  function GroupBy(recs: seq<SongRecord>, f: GroupField): (gs: seq<Group>)
    ensures KeysDistinct(gs) && AllPositive(gs)
    ensures forall k :: CountOf(gs, k) == CountKey(recs, f, k)
    ensures forall k :: HasKey(gs, k) <==> CountKey(recs, f, k) > 0
    ensures SumCounts(gs) == |recs|
  {
    if recs == [] then []
    else
      var prefix := GroupBy(recs[..|recs| - 1], f);
      var gs := Bump(prefix, GroupKey(recs[|recs| - 1], f));
      gs
  }

  /** The values of `distinct(field)`: every value the field takes in some document where it is present. */
  function DistinctValues(recs: seq<SongRecord>, f: GroupField): set<string> {
    set i | 0 <= i < |recs| && GroupKey(recs[i], f).Some? :: GroupKey(recs[i], f).value
  }

  /** There are never more distinct values than documents. */
  lemma {:induction false} DistinctAtMostCount(recs: seq<SongRecord>, f: GroupField)
    ensures |DistinctValues(recs, f)| <= |recs|
  {
    if recs != [] {
      var init := recs[..|recs| - 1];
      DistinctAtMostCount(init, f);
      var last := GroupKey(recs[|recs| - 1], f);
      var extra: set<string> := if last.Some? then {last.value} else {};
      assert DistinctValues(recs, f) <= DistinctValues(init, f) + extra by {
        forall v | v in DistinctValues(recs, f) ensures v in DistinctValues(init, f) + extra {
          var i :| 0 <= i < |recs| && GroupKey(recs[i], f).Some? && GroupKey(recs[i], f).value == v;
          if i < |recs| - 1 {
            assert init[i] == recs[i];
          }
        }
      }
      assert |DistinctValues(init, f) + extra| <= |DistinctValues(init, f)| + |extra|;
      SubsetCardinality(DistinctValues(recs, f), DistinctValues(init, f) + extra);
    }
  }

  lemma SubsetCardinality<T>(a: set<T>, b: set<T>)
    requires a <= b
    ensures |a| <= |b|
  {
    assert b == a + (b - a);
  }
}
