/** Copying every sub-collection of one document under another, and the
    cascade delete of a document with its sub-collections. Collection names
    are discovered by listing the document's collections, each collection
    is read at the moment the loop reaches it, and empty collections get no
    write. */
module Subcollections {
  import opened Order
  import opened Firestore
  import opened Batching

  /** The store after the sub-collections `names` of `src` were merge-copied,
      in order, under `dst`. */
  function CopySubcollections(db: Db, src: Path, dst: Path, names: seq<string>): Db
    decreases |names|
  {
    if names == [] then db
    else
      var db1 := CopySubcollections(db, src, dst, names[..|names| - 1]);
      var c := names[|names| - 1];
      ApplyAll(db1, BatchOps(Listing(db1, src + [c]), dst + [c], MergeCopy))
  }

  /** The store after the documents directly in the sub-collections `names`
      of `doc` were deleted, in order. */
  function DeleteSubcollections(db: Db, doc: Path, names: seq<string>): Db
    decreases |names|
  {
    if names == [] then db
    else
      var db1 := DeleteSubcollections(db, doc, names[..|names| - 1]);
      var c := names[|names| - 1];
      ApplyAll(db1, BatchOps(Listing(db1, doc + [c]), doc + [c], Erase))
  }

  /** Deleting `doc` after every document of each of its sub-collections. */
  function CascadeDelete(db: Db, doc: Path): Db
  {
    DeleteSubcollections(db, doc, SubcollectionNames(db, doc)) - {doc}
  }

  /** The copy loop of the merge and migration scripts. In a dry run the
      collections are only read. */
  method CopySubcollectionsOf(store: Store, src: Path, dst: Path, dryRun: bool)
    modifies store
    ensures dryRun ==> store.docs == old(store.docs) && store.log == old(store.log)
    ensures !dryRun ==> store.docs == CopySubcollections(old(store.docs), src, dst, SubcollectionNames(old(store.docs), src))
    ensures SubcollectionNames(old(store.docs), src) == [] ==> store.log == old(store.log)
    ensures GrewWithin(old(store.log), store.log)
  {
    ghost var db0 := store.docs;
    var names := SubcollectionNames(store.docs, src);
    for j := 0 to |names|
      invariant dryRun ==> store.docs == db0 && store.log == old(store.log)
      invariant j == 0 ==> store.log == old(store.log)
      invariant !dryRun ==> store.docs == CopySubcollections(db0, src, dst, names[..j])
      invariant GrewWithin(old(store.log), store.log)
    {
      ghost var log1 := store.log;
      CopyCollection(store, db0, src, dst, names, j, dryRun);
      GrewWithinTrans(old(store.log), log1, store.log);
    }
    assert names[..|names|] == names;
  }

  /** The `j`-th sub-collection of the copy loop. */
  method CopyCollection(store: Store, ghost db0: Db, src: Path, dst: Path, names: seq<string>, j: nat, dryRun: bool)
    requires j < |names|
    requires dryRun ==> store.docs == db0
    requires !dryRun ==> store.docs == CopySubcollections(db0, src, dst, names[..j])
    modifies store
    ensures dryRun ==> store.docs == db0 && store.log == old(store.log)
    ensures !dryRun ==> store.docs == CopySubcollections(db0, src, dst, names[..j + 1])
    ensures GrewWithin(old(store.log), store.log)
  {
    var c := names[j];
    CopyStep(db0, src, dst, names, j);
    BatchCollection(store, src + [c], dst + [c], MergeCopy, !dryRun);
  }

  /** The cascade delete of the merge scripts: every document of every
      sub-collection of `doc`, in batches, then `doc` itself. */
  method CascadeDeleteOf(store: Store, doc: Path)
    modifies store
    ensures store.docs == CascadeDelete(old(store.docs), doc)
    ensures GrewWithin(old(store.log), store.log)
  {
    ghost var db0 := store.docs;
    var names := SubcollectionNames(store.docs, doc);
    for j := 0 to |names|
      invariant store.docs == DeleteSubcollections(db0, doc, names[..j])
      invariant GrewWithin(old(store.log), store.log)
    {
      ghost var log1 := store.log;
      DeleteCollection(store, db0, doc, names, j);
      GrewWithinTrans(old(store.log), log1, store.log);
    }
    assert names[..|names|] == names;
    ghost var log2 := store.log;
    store.DeleteDoc(doc);
    GrewWithinTrans(old(store.log), log2, store.log);
  }

  /** The `j`-th sub-collection of the delete loop. */
  method DeleteCollection(store: Store, ghost db0: Db, doc: Path, names: seq<string>, j: nat)
    requires j < |names|
    requires store.docs == DeleteSubcollections(db0, doc, names[..j])
    modifies store
    ensures store.docs == DeleteSubcollections(db0, doc, names[..j + 1])
    ensures GrewWithin(old(store.log), store.log)
  {
    var c := names[j];
    DeleteStep(db0, doc, names, j);
    BatchCollection(store, doc + [c], doc + [c], Erase, true);
  }

  /** One collection of either loop: read `from`; unless it is empty or
      `write` is off, commit the batched writes for it addressed into `to`. */
  method BatchCollection(store: Store, from: Path, to: Path, kind: BatchKind, write: bool)
    modifies store
    ensures !write ==> store.docs == old(store.docs) && store.log == old(store.log)
    ensures write ==> store.docs == ApplyAll(old(store.docs), BatchOps(Listing(old(store.docs), from), to, kind))
    ensures Listing(old(store.docs), from) == [] ==> store.log == old(store.log)
    ensures GrewWithin(old(store.log), store.log)
  {
    assert GrewWithin(store.log, store.log);
    var snap := Listing(store.docs, from);
    if |snap| == 0 {
      assert BatchOps(snap, to, kind) == [];
      return;
    }
    if write {
      WriteInBatches(store, snap, to, kind);
    }
  }

  lemma CopyStep(db: Db, src: Path, dst: Path, names: seq<string>, j: nat)
    requires j < |names|
    ensures var db1 := CopySubcollections(db, src, dst, names[..j]);
            CopySubcollections(db, src, dst, names[..j + 1])
            == ApplyAll(db1, BatchOps(Listing(db1, src + [names[j]]), dst + [names[j]], MergeCopy))
  {
    assert names[..j + 1][..j] == names[..j];
  }

  lemma DeleteStep(db: Db, doc: Path, names: seq<string>, j: nat)
    requires j < |names|
    ensures var db1 := DeleteSubcollections(db, doc, names[..j]);
            DeleteSubcollections(db, doc, names[..j + 1])
            == ApplyAll(db1, BatchOps(Listing(db1, doc + [names[j]]), doc + [names[j]], Erase))
  {
    assert names[..j + 1][..j] == names[..j];
  }

  lemma GrewWithinTrans(a: seq<seq<Op>>, b: seq<seq<Op>>, c: seq<seq<Op>>)
    requires GrewWithin(a, b) && GrewWithin(b, c)
    ensures GrewWithin(a, c)
  {
    assert c[..|a|] == c[..|b|][..|a|];
  }

  // ---------------------------------------------------------------------
  // Copy: what changes and what does not

  /** `p` lies in one of the sub-collections `names` of `dst`. */
  predicate UnderAny(p: Path, dst: Path, names: seq<string>)
  {
    |p| > |dst| && IsPrefix(dst, p) && p[|dst|] in names
  }

  lemma PrefixStep(dst: Path, c: string, p: Path)
    ensures IsPrefix(dst + [c], p) <==> |p| > |dst| && IsPrefix(dst, p) && p[|dst|] == c
  {
    if IsPrefix(dst + [c], p) {
      assert p[..|dst|] == (dst + [c])[..|dst|];
      assert p[|dst|] == (dst + [c])[|dst|];
    }
    if |p| > |dst| && IsPrefix(dst, p) && p[|dst|] == c {
      assert p[..|dst| + 1] == p[..|dst|] + [p[|dst|]];
    }
  }

  /** Copying writes only below `dst + [c]` for the copied names `c`. */
  lemma {:induction false} CopyFrame(db: Db, src: Path, dst: Path, names: seq<string>, p: Path)
    requires !UnderAny(p, dst, names)
    ensures Same(db, CopySubcollections(db, src, dst, names), p)
    decreases |names|
  {
    if names != [] {
      var init := names[..|names| - 1];
      var c := names[|names| - 1];
      CopyFrame(db, src, dst, init, p);
      var db1 := CopySubcollections(db, src, dst, init);
      PrefixStep(dst, c, p);
      BatchFrame(db1, Listing(db1, src + [c]), dst + [c], MergeCopy, p);
    }
  }

  lemma UnderAnyChild(dst: Path, c: string, id: string, names: seq<string>)
    requires c !in names
    ensures !UnderAny(dst + [c, id], dst, names)
  {
    assert (dst + [c, id])[|dst|] == c;
  }

  /** Conservation: when `src` and `dst` are apart, every document of a
      copied sub-collection of `src` ends up under `dst` with the same
      collection name and id, its fields merged over the target's old ones. */
  lemma {:induction false} CopyConserves(db: Db, src: Path, dst: Path, names: seq<string>, c: string, id: string)
    requires Apart(src, dst)
    requires Increasing(names) && c in names
    requires src + [c, id] in db
    ensures dst + [c, id] in CopySubcollections(db, src, dst, names)
    ensures CopySubcollections(db, src, dst, names)[dst + [c, id]] == Merged(db, dst + [c, id], db[src + [c, id]])
    decreases |names|
  {
    var init := names[..|names| - 1];
    var last := names[|names| - 1];
    var db1 := CopySubcollections(db, src, dst, init);
    var target := dst + [c, id];
    assert target == dst + [c] + [id];
    assert Increasing(init);
    if last == c {
      IncreasingDistinctLast(names);
      UnderAnyChild(dst, c, id, init);
      CopyFrame(db, src, dst, init, target);
      var source := src + [c, id];
      assert source == src + [c] + [id];
      assert IsPrefix(src, source);
      ApartSubtrees(src, dst, source);
      CopyFrame(db, src, dst, init, source);
      var snap := Listing(db1, src + [c]);
      assert src + [c] + [id] in db1;
      var i :| 0 <= i < |snap| && snap[i].id == id;
      assert snap[i].data == db[source];
      IncreasingIdsDistinct(snap);
      CopyEffect(db1, snap, dst + [c]);
      assert Merged(db1, target, db[source]) == Merged(db, target, db[source]);
    } else {
      assert c in init;
      CopyConserves(db, src, dst, init, c, id);
      PrefixStep(dst, last, target);
      assert target[|dst|] == c;
      BatchFrame(db1, Listing(db1, src + [last]), dst + [last], MergeCopy, target);
    }
  }

  lemma IncreasingDistinctLast(names: seq<string>)
    requires Increasing(names) && names != []
    ensures names[|names| - 1] !in names[..|names| - 1]
  {
    IncreasingDistinct(names);
  }

  // ---------------------------------------------------------------------
  // Cascade delete

  /** `p` is a document directly in one of the sub-collections `names` of
      `doc`. */
  predicate ChildDoc(p: Path, doc: Path, names: seq<string>)
  {
    |p| == |doc| + 2 && IsPrefix(doc, p) && p[|doc|] in names
  }

  /** The listing of `col` holds exactly the documents directly in it. */
  lemma ListingSnapshot(db: Db, col: Path)
    ensures forall p :: InSnapshot(p, Listing(db, col), col) <==> p in db && |p| == |col| + 1 && IsPrefix(col, p)
  {
    forall p
      ensures InSnapshot(p, Listing(db, col), col) <==> p in db && |p| == |col| + 1 && IsPrefix(col, p)
    {
      ListingSnapshotAt(db, col, p);
    }
  }

  lemma ListingSnapshotAt(db: Db, col: Path, p: Path)
    ensures InSnapshot(p, Listing(db, col), col) <==> p in db && |p| == |col| + 1 && IsPrefix(col, p)
  {
    var snap := Listing(db, col);
    if InSnapshot(p, snap, col) {
      var i :| 0 <= i < |snap| && p == col + [snap[i].id];
      assert p[..|col|] == col;
    }
    if p in db && |p| == |col| + 1 && IsPrefix(col, p) {
      var id := p[|col|];
      assert p == col + [id];
      var i :| 0 <= i < |snap| && snap[i].id == id;
      assert p == col + [snap[i].id];
    }
  }

  lemma ChildDocSnoc(doc: Path, names: seq<string>, c: string)
    ensures forall p :: ChildDoc(p, doc, names + [c]) <==>
              ChildDoc(p, doc, names) || (|p| == |doc| + 2 && IsPrefix(doc + [c], p))
  {
    forall p
      ensures ChildDoc(p, doc, names + [c]) <==>
              ChildDoc(p, doc, names) || (|p| == |doc| + 2 && IsPrefix(doc + [c], p))
    {
      if |p| == |doc| + 2 && IsPrefix(doc + [c], p) {
        assert p[..|doc|] == (doc + [c])[..|doc|];
        assert p[|doc|] == (doc + [c])[|doc|];
      }
      if ChildDoc(p, doc, names + [c]) && p[|doc|] == c {
        assert p[..|doc| + 1] == p[..|doc|] + [p[|doc|]];
      }
    }
  }

  /** Deleting the sub-collections `names` removes exactly the documents
      directly in them and changes nothing else. */
  lemma {:induction false} DeleteSubcollectionsEffect(db: Db, doc: Path, names: seq<string>)
    ensures forall p :: p in DeleteSubcollections(db, doc, names) <==> p in db && !ChildDoc(p, doc, names)
    ensures forall p :: p in DeleteSubcollections(db, doc, names) ==> DeleteSubcollections(db, doc, names)[p] == db[p]
    decreases |names|
  {
    if names != [] {
      var init := names[..|names| - 1];
      var c := names[|names| - 1];
      assert names == init + [c];
      DeleteSubcollectionsEffect(db, doc, init);
      var db1 := DeleteSubcollections(db, doc, init);
      var col := doc + [c];
      EraseEffect(db1, Listing(db1, col), col);
      ListingSnapshot(db1, col);
      ChildDocSnoc(doc, init, c);
    }
  }

  /** After the cascade delete the document is gone, every one of its
      sub-collections is empty, and nothing else has changed (deeper
      descendants included). */
  lemma CascadeDeleteEffect(db: Db, doc: Path)
    ensures doc !in CascadeDelete(db, doc)
    ensures forall c, id :: doc + [c, id] !in CascadeDelete(db, doc)
    ensures forall p :: p != doc && !(|p| == |doc| + 2 && IsPrefix(doc, p)) ==> Same(db, CascadeDelete(db, doc), p)
  {
    var names := SubcollectionNames(db, doc);
    var r := DeleteSubcollections(db, doc, names);
    assert CascadeDelete(db, doc) == r - {doc};
    DeleteSubcollectionsEffect(db, doc, names);
    forall c, id
      ensures doc + [c, id] !in r
    {
      var p := doc + [c, id];
      assert p[..|doc|] == doc && p[|doc|] == c;
      assert p in db ==> c in names;
    }
    forall p | p != doc && !(|p| == |doc| + 2 && IsPrefix(doc, p))
      ensures Same(db, r - {doc}, p)
    {
      assert !ChildDoc(p, doc, names);
    }
  }
}
