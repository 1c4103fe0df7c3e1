/** Batched writes: a snapshot is cut into pieces of at most 400 documents
    and each piece is committed as one batch, piece after piece. */
module Batching {
  import opened Firestore

  /** The scripts' batch size: below the provider's 500 for headroom. */
  const BatchLimit := 400

  /** The pieces laid end to end. */
  function Flatten<T>(pieces: seq<seq<T>>): seq<T>
  {
    if pieces == [] then [] else Flatten(pieces[..|pieces| - 1]) + pieces[|pieces| - 1]
  }

  lemma FlattenSnoc<T>(pieces: seq<seq<T>>, x: seq<T>)
    ensures Flatten(pieces + [x]) == Flatten(pieces) + x
  {
    assert (pieces + [x])[..|pieces|] == pieces;
  }

  /** The chunking helper: consecutive slices of `size` elements, the last one
      possibly shorter. */
  method Chunk<T>(arr: seq<T>, size: nat) returns (out: seq<seq<T>>)
    requires size > 0
    ensures Flatten(out) == arr
    ensures forall k :: 0 <= k < |out| ==> 0 < |out[k]| <= size
    ensures forall k :: 0 <= k < |out| - 1 ==> |out[k]| == size
    ensures (|out| - 1) * size < |arr| <= |out| * size
  {
    out := [];
    var i := 0;
    while i < |arr|
      invariant i == |out| * size
      invariant i <= |arr| ==> Flatten(out) == arr[..i]
      invariant i > |arr| ==> Flatten(out) == arr
      invariant |out| > 0 ==> (|out| - 1) * size < |arr|
      invariant forall k :: 0 <= k < |out| ==> 0 < |out[k]| <= size
      invariant forall k :: 0 <= k < |out| - 1 ==> |out[k]| == size
      invariant i <= |arr| ==> forall k :: 0 <= k < |out| ==> |out[k]| == size
    {
      var hi := if i + size <= |arr| then i + size else |arr|;
      FlattenSnoc(out, arr[i..hi]);
      MulSucc(|out|, size);
      assert arr[..i] + arr[i..hi] == arr[..hi];
      out := out + [arr[i..hi]];
      i := i + size;
    }
  }

  lemma MulSucc(k: nat, size: nat)
    ensures (k + 1) * size == k * size + size
  {
  }

  /** What a batch does with each snapshot document. */
  datatype BatchKind = MergeCopy | Erase

  /** The write for one snapshot document, addressed into collection `col`:
      a merge-set of its data under the same id, or its deletion. */
  function BatchOp(d: Doc, col: Path, kind: BatchKind): Op
  {
    match kind
    case MergeCopy => Write(col + [d.id], d.data, true)
    case Erase => Remove(col + [d.id])
  }

  function BatchOps(snap: seq<Doc>, col: Path, kind: BatchKind): seq<Op>
  {
    seq(|snap|, i requires 0 <= i < |snap| => BatchOp(snap[i], col, kind))
  }

  lemma BatchOpsConcat(a: seq<Doc>, b: seq<Doc>, col: Path, kind: BatchKind)
    ensures BatchOps(a + b, col, kind) == BatchOps(a, col, kind) + BatchOps(b, col, kind)
  {
  }

  /** Every new log entry is a non-empty batch within the scripts' limit. */
  ghost predicate GrewWithin(before: seq<seq<Op>>, after: seq<seq<Op>>)
  {
    && |before| <= |after|
    && after[..|before|] == before
    && forall i :: |before| <= i < |after| ==> 0 < |after[i]| <= BatchLimit
  }

  /** A single `set` or `delete` is a one-write entry of the log. */
  lemma GrewBySingle(before: seq<seq<Op>>, op: Op)
    ensures GrewWithin(before, before + [[op]])
  {
    assert (before + [[op]])[..|before|] == before;
  }

  /** The chunked batch loop of the scripts: the snapshot is cut with
      `Chunk`, one batch is filled per piece and committed before the next.
      Altogether the writes equal the unchunked sequence of writes, and the
      commits are ceil(|snap| / 400) batches of at most 400 writes. */
  method WriteInBatches(store: Store, snap: seq<Doc>, col: Path, kind: BatchKind)
    modifies store
    ensures store.docs == ApplyAll(old(store.docs), BatchOps(snap, col, kind))
    ensures GrewWithin(old(store.log), store.log)
    ensures Flatten(store.log[|old(store.log)|..]) == BatchOps(snap, col, kind)
    ensures var n := |store.log| - |old(store.log)|; (n - 1) * BatchLimit < |snap| <= n * BatchLimit
  {
    ghost var db0 := store.docs;
    ghost var log0 := store.log;
    var pieces := Chunk(snap, BatchLimit);
    for i := 0 to |pieces|
      invariant store.docs == ApplyAll(db0, BatchOps(Flatten(pieces[..i]), col, kind))
      invariant GrewWithin(log0, store.log)
      invariant |store.log| == |log0| + i
      invariant Flatten(store.log[|log0|..]) == BatchOps(Flatten(pieces[..i]), col, kind)
    {
      var batch := FillBatch(pieces[i], col, kind);
      ghost var done := Flatten(pieces[..i]);
      assert pieces[..i + 1] == pieces[..i] + [pieces[i]];
      FlattenSnoc(pieces[..i], pieces[i]);
      BatchOpsConcat(done, pieces[i], col, kind);
      ApplyAllConcat(db0, BatchOps(done, col, kind), batch);
      LogSnoc(log0, store.log, batch);
      store.Commit(batch);
    }
    assert pieces[..|pieces|] == pieces;
  }

  /** The inner loop: one write per document of the piece. */
  method FillBatch(piece: seq<Doc>, col: Path, kind: BatchKind) returns (batch: seq<Op>)
    ensures batch == BatchOps(piece, col, kind)
  {
    batch := [];
    for j := 0 to |piece|
      invariant batch == BatchOps(piece[..j], col, kind)
    {
      batch := batch + [BatchOp(piece[j], col, kind)];
    }
    assert piece[..|piece|] == piece;
  }

  /** Appending one batch within the limit to the log. */
  lemma LogSnoc(log0: seq<seq<Op>>, log: seq<seq<Op>>, batch: seq<Op>)
    requires GrewWithin(log0, log) && 0 < |batch| <= BatchLimit
    ensures GrewWithin(log0, log + [batch])
    ensures Flatten((log + [batch])[|log0|..]) == Flatten(log[|log0|..]) + batch
  {
    assert (log + [batch])[..|log0|] == log0;
    assert (log + [batch])[|log0|..] == log[|log0|..] + [batch];
    FlattenSnoc(log[|log0|..], batch);
  }

  // ---------------------------------------------------------------------
  // What a committed snapshot does to the store

  /** Merge-copying a snapshot into `col`: each document lands under its own
      id, its fields merged over whatever was there. */
  lemma {:induction false} CopyEffect(db: Db, snap: seq<Doc>, col: Path)
    requires DistinctIds(snap)
    ensures forall i :: 0 <= i < |snap| ==>
              var p := col + [snap[i].id];
              p in ApplyAll(db, BatchOps(snap, col, MergeCopy)) &&
              ApplyAll(db, BatchOps(snap, col, MergeCopy))[p] == Merged(db, p, snap[i].data)
    decreases |snap|
  {
    if snap != [] {
      var ops := BatchOps(snap, col, MergeCopy);
      var db1 := Apply(db, ops[0]);
      var rest := snap[1..];
      assert ops[1..] == BatchOps(rest, col, MergeCopy);
      CopyEffect(db1, rest, col);
      var p0 := col + [snap[0].id];
      forall i | 0 < i < |ops|
        ensures ops[i].path != p0
      {
        if ops[i].path == p0 {
          AppendInjective(col, snap[i].id, snap[0].id);
        }
      }
      ApplyAllFrame(db1, ops[1..], p0);
      forall i | 0 < i < |snap|
        ensures Same(db, db1, col + [snap[i].id])
      {
        if col + [snap[i].id] == p0 {
          AppendInjective(col, snap[i].id, snap[0].id);
        }
      }
    }
  }

  /** Only the paths `col + [id]` of the snapshot are written. */
  lemma BatchFrame(db: Db, snap: seq<Doc>, col: Path, kind: BatchKind, p: Path)
    requires !IsPrefix(col, p) || |p| != |col| + 1
    ensures Same(db, ApplyAll(db, BatchOps(snap, col, kind)), p)
  {
    var ops := BatchOps(snap, col, kind);
    forall i | 0 <= i < |ops|
      ensures ops[i].path != p
    {
      assert ops[i].path == col + [snap[i].id];
      assert (col + [snap[i].id])[..|col|] == col;
    }
    ApplyAllFrame(db, ops, p);
  }

  /** `p` is the path of one of the snapshot's documents within `col`. */
  predicate InSnapshot(p: Path, snap: seq<Doc>, col: Path)
  {
    exists i :: 0 <= i < |snap| && p == col + [snap[i].id]
  }

  /** Paths outside the snapshot keep their documents. */
  lemma OutsideSnapshot(db: Db, snap: seq<Doc>, col: Path, kind: BatchKind, p: Path)
    requires !InSnapshot(p, snap, col)
    ensures Same(db, ApplyAll(db, BatchOps(snap, col, kind)), p)
  {
    var ops := BatchOps(snap, col, kind);
    forall i | 0 <= i < |ops|
      ensures ops[i].path != p
    {
      assert ops[i].path == col + [snap[i].id];
    }
    ApplyAllFrame(db, ops, p);
  }

  /** Merge-copying the same snapshot a second time changes nothing: each
      target already carries the snapshot's fields on top. */
  lemma MergeCopyTwice(db: Db, snap: seq<Doc>, col: Path)
    requires DistinctIds(snap)
    ensures var once := ApplyAll(db, BatchOps(snap, col, MergeCopy));
            ApplyAll(once, BatchOps(snap, col, MergeCopy)) == once
  {
    var ops := BatchOps(snap, col, MergeCopy);
    var once := ApplyAll(db, ops);
    var twice := ApplyAll(once, ops);
    CopyEffect(db, snap, col);
    CopyEffect(once, snap, col);
    forall p
      ensures Same(once, twice, p)
    {
      if InSnapshot(p, snap, col) {
        var i :| 0 <= i < |snap| && p == col + [snap[i].id];
        var f := snap[i].data;
        assert once[p] == Merged(db, p, f);
        assert twice[p] == once[p] + f;
        assert (Merged(db, p, f) + f) == Merged(db, p, f);
      } else {
        OutsideSnapshot(once, snap, col, MergeCopy, p);
      }
    }
    SameEverywhere(once, twice);
  }

  /** Deleting a snapshot removes exactly its documents. */
  lemma {:induction false} EraseEffect(db: Db, snap: seq<Doc>, col: Path)
    ensures forall p :: p in ApplyAll(db, BatchOps(snap, col, Erase)) <==> p in db && !InSnapshot(p, snap, col)
    ensures forall p :: p in ApplyAll(db, BatchOps(snap, col, Erase)) ==>
              ApplyAll(db, BatchOps(snap, col, Erase))[p] == db[p]
    decreases |snap|
  {
    if snap != [] {
      var ops := BatchOps(snap, col, Erase);
      assert ops[1..] == BatchOps(snap[1..], col, Erase);
      EraseEffect(Apply(db, ops[0]), snap[1..], col);
      forall p
        ensures InSnapshot(p, snap, col) <==> p == col + [snap[0].id] || InSnapshot(p, snap[1..], col)
      {
        if InSnapshot(p, snap, col) {
          var i :| 0 <= i < |snap| && p == col + [snap[i].id];
          if i > 0 {
            assert snap[i] == snap[1..][i - 1];
          }
        }
        if InSnapshot(p, snap[1..], col) {
          var i :| 0 <= i < |snap[1..]| && p == col + [snap[1..][i].id];
          assert snap[1..][i] == snap[i + 1];
        }
      }
    }
  }
}
