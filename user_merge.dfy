/** The part both user-merge scripts share: the source's fields are merged
    into the target document, then every sub-collection of the source is
    merge-copied under the target, document by document, keeping ids. */
module UserMerge {
  import opened Order
  import opened Firestore
  import opened Batching
  import opened Subcollections

  /** When field `key` is truthy and differs from `want`, it is rewritten
      to `want`; every other field, and a falsy or already equal `key`,
      stays. */
  function Normalized(data: Fields, key: string, want: string): (r: Fields)
    ensures r.Keys == data.Keys
    ensures forall k :: k in data && k != key ==> r[k] == data[k]
    ensures key in data && Truthy(data[key]) ==> r[key] == Str(want)
    ensures key in data && !Truthy(data[key]) ==> r[key] == data[key]
  {
    if Truthy(Get(data, key)) && Get(data, key) != Str(want) then data[key := Str(want)] else data
  }

  /** The store after the target received `payload` with a merge-set and the
      source's sub-collections were copied under it. */
  function MergeAndCopy(db: Db, src: Path, tgt: Path, payload: Fields): Db
  {
    var db1 := db[tgt := Merged(db, tgt, payload)];
    CopySubcollections(db1, src, tgt, SubcollectionNames(db1, src))
  }

  /** Merge the payload into the target (skipped in a dry run) and walk the
      source's sub-collections, copying each non-empty one (only read in a
      dry run). */
  method MergeAndCopyOf(store: Store, src: Path, tgt: Path, payload: Fields, dryRun: bool)
    modifies store
    ensures dryRun ==> store.docs == old(store.docs) && store.log == old(store.log)
    ensures !dryRun ==> store.docs == MergeAndCopy(old(store.docs), src, tgt, payload)
    ensures GrewWithin(old(store.log), store.log)
  {
    assert GrewWithin(store.log, store.log);
    if !dryRun {
      store.SetDoc(tgt, payload, true);
      GrewBySingle(old(store.log), Write(tgt, payload, true));
    }
    ghost var log1 := store.log;
    CopySubcollectionsOf(store, src, tgt, dryRun);
    GrewWithinTrans(old(store.log), log1, store.log);
  }

  /** Two distinct documents at the same depth have disjoint subtrees. */
  lemma SameDepthApart(a: Path, b: Path)
    requires |a| == |b| && a != b
    ensures Apart(a, b)
  {
    assert b[..|a|] == b && a[..|b|] == a;
  }

  /** The target ends up with its old fields overridden by the payload. */
  lemma MergeAndCopyTarget(db: Db, src: Path, tgt: Path, payload: Fields)
    ensures var r := MergeAndCopy(db, src, tgt, payload);
            tgt in r && r[tgt] == Merged(db, tgt, payload)
  {
    var db1 := db[tgt := Merged(db, tgt, payload)];
    CopyFrame(db1, src, tgt, SubcollectionNames(db1, src), tgt);
  }

  /** Only the target and its subtree are written. */
  lemma MergeAndCopyFrame(db: Db, src: Path, tgt: Path, payload: Fields, p: Path)
    requires !IsPrefix(tgt, p)
    ensures Same(db, MergeAndCopy(db, src, tgt, payload), p)
  {
    var db1 := db[tgt := Merged(db, tgt, payload)];
    assert p != tgt;
    CopyFrame(db1, src, tgt, SubcollectionNames(db1, src), p);
  }

  /** Conservation: every document of a sub-collection of the source is
      merged, same collection and id, under the target. */
  lemma MergeAndCopyConserves(db: Db, src: Path, tgt: Path, payload: Fields, c: string, id: string)
    requires Apart(src, tgt)
    requires src + [c, id] in db
    ensures var r := MergeAndCopy(db, src, tgt, payload); var t := tgt + [c, id];
            t in r && r[t] == Merged(db, t, db[src + [c, id]])
  {
    var db1 := db[tgt := Merged(db, tgt, payload)];
    var names := SubcollectionNames(db1, src);
    assert src + [c, id] != tgt && tgt + [c, id] != tgt;
    assert c in names;
    CopyConserves(db1, src, tgt, names, c, id);
  }

  /** What the cascade delete of the source leaves alone when the source and
      the target are distinct documents at the same depth: the target and
      every document of its sub-collections. */
  lemma CascadeSparesTarget(db: Db, src: Path, tgt: Path)
    requires |src| == |tgt| && src != tgt
    ensures Same(db, CascadeDelete(db, src), tgt)
    ensures forall c, id :: Same(db, CascadeDelete(db, src), tgt + [c, id])
  {
    CascadeDeleteEffect(db, src);
    forall c, id
      ensures Same(db, CascadeDelete(db, src), tgt + [c, id])
    {
      PrefixAt(src, tgt + [c, id]);
      assert (tgt + [c, id])[..|src|] == tgt;
    }
  }
}
