/** The document store the scripts run against, as an in-memory map from
    document path to field map. A path alternates collection names and
    document ids (`organizations/o/users/u` is `["organizations", "o",
    "users", "u"]`); a document's sub-collections are the longer paths that
    extend it, so deleting a document leaves them in place. */
module Firestore {
  import opened Order

  /** A field value. Only what the scripts inspect is distinguished:
      strings (compared and lower-cased), the falsy values, and the
      server-timestamp sentinel; everything else is opaque. */
  datatype Value = Null | Bool(b: bool) | Num(n: int) | Str(s: string) | ServerTimestamp | Opaque(tag: nat)

  /** JavaScript truthiness. */
  predicate Truthy(v: Value)
  {
    match v
    case Null => false
    case Bool(b) => b
    case Num(n) => n != 0
    case Str(s) => s != ""
    case _ => true
  }

  /** The values JavaScript treats as false: undefined or null, `false`,
      zero and the empty string. */
  lemma FalsyValues(v: Value)
    ensures !Truthy(v) <==> v == Null || v == Bool(false) || v == Num(0) || v == Str("")
  {
  }

  /** JavaScript's `||` on two values: the first when it is truthy, the
      second otherwise. */
  function Or(a: Value, b: Value): (r: Value)
    ensures r == a || r == b
    ensures Truthy(r) <==> Truthy(a) || Truthy(b)
    ensures Truthy(a) ==> r == a
  {
    if Truthy(a) then a else b
  }

  type Fields = map<string, Value>

  /** Reading field `key`: a missing field reads as undefined, falsy like
      Null. */
  function Get(f: Fields, key: string): Value
  {
    if key in f then f[key] else Null
  }

  type Path = seq<string>
  type Db = map<Path, Fields>

  /** One document of a snapshot: its id and its fields. */
  datatype Doc = Doc(id: string, data: Fields)

  /** One write: a set of `data` at `path`, replacing or merging, or a
      delete of `path`. */
  datatype Op = Write(path: Path, data: Fields, merge: bool) | Remove(path: Path)

  /** The fields a merge-set leaves at `p`: old fields overridden by `f`. */
  function Merged(db: Db, p: Path, f: Fields): Fields
  {
    if p in db then db[p] + f else f
  }

  /** A merge-set keeps the old keys and adds the new ones; the new values
      win and the old values of keys not written survive. */
  lemma MergedFields(db: Db, p: Path, f: Fields)
    ensures var r := Merged(db, p, f);
            r.Keys == (if p in db then db[p].Keys else {}) + f.Keys &&
            (forall k :: k in f ==> r[k] == f[k]) &&
            (forall k :: p in db && k in db[p] && k !in f ==> r[k] == db[p][k])
  {
  }

  function Apply(db: Db, op: Op): Db
  {
    match op
    case Write(p, f, merge) => db[p := if merge then Merged(db, p, f) else f]
    case Remove(p) => db - {p}
  }

  /** One write: the written path gets the merged or the new fields, or is
      removed; every other path keeps its document. */
  lemma ApplyEffect(db: Db, op: Op)
    ensures var r := Apply(db, op);
            (op.Write? ==> op.path in r && r[op.path] == (if op.merge then Merged(db, op.path, op.data) else op.data)) &&
            (op.Remove? ==> op.path !in r) &&
            (forall q :: q != op.path ==> Same(db, r, q))
  {
  }

  /** The state after the writes `ops`, in order. */
  function ApplyAll(db: Db, ops: seq<Op>): Db
    decreases |ops|
  {
    if ops == [] then db else ApplyAll(Apply(db, ops[0]), ops[1..])
  }

  /** `db1` and `db2` agree at `p`. */
  predicate Same(db1: Db, db2: Db, p: Path)
  {
    (p in db1 <==> p in db2) && (p in db1 ==> db1[p] == db2[p])
  }

  predicate IsPrefix(pre: Path, p: Path)
  {
    |pre| <= |p| && p[..|pre|] == pre
  }

  /** A prefix fixes the leading segments. */
  lemma PrefixAt(pre: Path, p: Path)
    ensures IsPrefix(pre, p) ==> forall i :: 0 <= i < |pre| ==> p[i] == pre[i]
  {
    if IsPrefix(pre, p) {
      forall i | 0 <= i < |pre|
        ensures p[i] == pre[i]
      {
        assert p[..|pre|][i] == p[i];
      }
    }
  }

  /** Neither path lies under the other, so their subtrees are disjoint. */
  predicate Apart(a: Path, b: Path)
  {
    !IsPrefix(a, b) && !IsPrefix(b, a)
  }

  lemma ApartSubtrees(a: Path, b: Path, p: Path)
    requires Apart(a, b) && IsPrefix(a, p)
    ensures !IsPrefix(b, p)
  {
  }

  /** Stores that agree at every path are equal. */
  lemma SameEverywhere(db1: Db, db2: Db)
    requires forall p :: Same(db1, db2, p)
    ensures db1 == db2
  {
    forall p | p in db1
      ensures p in db2 && db1[p] == db2[p]
    {
      assert Same(db1, db2, p);
    }
    forall p | p in db2
      ensures p in db1
    {
      assert Same(db1, db2, p);
    }
    assert db1.Keys == db2.Keys;
  }

  lemma AppendInjective(col: Path, a: string, b: string)
    requires col + [a] == col + [b]
    ensures a == b
  {
    assert (col + [a])[|col|] == a;
  }

  lemma {:induction false} ApplyAllConcat(db: Db, a: seq<Op>, b: seq<Op>)
    ensures ApplyAll(db, a + b) == ApplyAll(ApplyAll(db, a), b)
    decreases |a|
  {
    if a != [] {
      assert (a + b)[0] == a[0];
      assert (a + b)[1..] == a[1..] + b;
      ApplyAllConcat(Apply(db, a[0]), a[1..], b);
    } else {
      assert a + b == b;
    }
  }

  /** Writes to other paths leave `p` as it was. */
  lemma {:induction false} ApplyAllFrame(db: Db, ops: seq<Op>, p: Path)
    requires forall i :: 0 <= i < |ops| ==> ops[i].path != p
    ensures Same(db, ApplyAll(db, ops), p)
    decreases |ops|
  {
    if ops != [] {
      ApplyAllFrame(Apply(db, ops[0]), ops[1..], p);
    }
  }

  // ---------------------------------------------------------------------
  // Reads

  /** Ids of the documents stored directly in collection `col`. */
  function ChildIds(db: Db, col: Path): set<string>
  {
    set p | p in db && |p| == |col| + 1 && IsPrefix(col, p) :: p[|col|]
  }

  lemma ChildIdsMembers(db: Db, col: Path)
    ensures forall id :: id in ChildIds(db, col) <==> col + [id] in db
  {
    forall id
      ensures id in ChildIds(db, col) <==> col + [id] in db
    {
      if col + [id] in db {
        assert (col + [id])[..|col|] == col;
        assert (col + [id])[|col|] == id;
      }
      if id in ChildIds(db, col) {
        var p :| p in db && |p| == |col| + 1 && IsPrefix(col, p) && p[|col|] == id;
        assert p == col + [id];
      }
    }
  }

  predicate IdsIncreasing(docs: seq<Doc>)
  {
    forall i, j :: 0 <= i < j < |docs| ==> Less(docs[i].id, docs[j].id)
  }

  predicate DistinctIds(docs: seq<Doc>)
  {
    forall i, j :: 0 <= i < j < |docs| ==> docs[i].id != docs[j].id
  }

  lemma IncreasingIdsDistinct(docs: seq<Doc>)
    requires IdsIncreasing(docs)
    ensures DistinctIds(docs)
  {
    forall i, j | 0 <= i < j < |docs|
      ensures docs[i].id != docs[j].id
    {
      LessIrreflexive(docs[i].id);
    }
  }

  /** The documents at `col + [id]` for the ids `ids`, in that order. */
  function DocsAt(db: Db, col: Path, ids: seq<string>): (r: seq<Doc>)
    requires forall id :: id in ids ==> col + [id] in db
    ensures |r| == |ids|
    ensures forall i :: 0 <= i < |r| ==> r[i] == Doc(ids[i], db[col + [ids[i]]])
  {
    seq(|ids|, i requires 0 <= i < |ids| => Doc(ids[i], db[col + [ids[i]]]))
  }

  /** Reading collection `col`: every document directly in it, ordered by
      id. */
  function Listing(db: Db, col: Path): (r: seq<Doc>)
    ensures forall i :: 0 <= i < |r| ==> col + [r[i].id] in db && r[i].data == db[col + [r[i].id]]
    ensures forall id :: col + [id] in db ==> exists i :: 0 <= i < |r| && r[i].id == id
    ensures IdsIncreasing(r)
    ensures |r| == |ChildIds(db, col)|
  {
    var ids := SortedSeq(ChildIds(db, col));
    ListingIds(db, col, ids);
    DocsAt(db, col, ids)
  }

  /** The ids the listing enumerates are those of the documents in `col`. */
  lemma ListingIds(db: Db, col: Path, ids: seq<string>)
    requires ids == SortedSeq(ChildIds(db, col))
    ensures forall id :: id in ids ==> col + [id] in db
    ensures forall id :: col + [id] in db ==> exists i :: 0 <= i < |ids| && ids[i] == id
  {
    ChildIdsMembers(db, col);
    forall id | col + [id] in db
      ensures exists i :: 0 <= i < |ids| && ids[i] == id
    {
      assert id in ids;
      var i :| 0 <= i < |ids| && ids[i] == id;
    }
  }

  /** The documents of `docs` whose field `key` equals `v`, in order. */
  function Matching(docs: seq<Doc>, key: string, v: Value): (r: seq<Doc>)
    ensures forall d :: d in r <==> d in docs && Get(d.data, key) == v
    ensures IdsIncreasing(docs) ==> IdsIncreasing(r)
    ensures |r| <= |docs|
  {
    if docs == [] then []
    else
      var rest := Matching(docs[1..], key, v);
      assert docs == [docs[0]] + docs[1..];
      assert IdsIncreasing(docs) ==> IdsIncreasing(docs[1..]);
      if Get(docs[0].data, key) == v then
        assert IdsIncreasing(docs) ==> forall d :: d in rest ==> Less(docs[0].id, d.id);
        [docs[0]] + rest
      else rest
  }

  /** Reading the documents of `col` whose field `key` equals `v`. */
  function Where(db: Db, col: Path, key: string, v: Value): (r: seq<Doc>)
    ensures forall d: Doc :: d in r <==> col + [d.id] in db && db[col + [d.id]] == d.data && Get(d.data, key) == v
    ensures IdsIncreasing(r)
  {
    ListingMembers(db, col);
    Matching(Listing(db, col), key, v)
  }

  lemma ListingMembers(db: Db, col: Path)
    ensures forall d: Doc :: d in Listing(db, col) <==> col + [d.id] in db && db[col + [d.id]] == d.data
  {
    var all := Listing(db, col);
    forall d: Doc | col + [d.id] in db && db[col + [d.id]] == d.data
      ensures d in all
    {
      var i :| 0 <= i < |all| && all[i].id == d.id;
      assert all[i] == d;
    }
  }

  /** A query cut to `n` results: the first `n` documents of the id-ordered listing. */
  function Limit(docs: seq<Doc>, n: nat): (r: seq<Doc>)
    ensures |r| == if |docs| < n then |docs| else n
    ensures r == docs[..|r|]
  {
    if |docs| <= n then docs else docs[..n]
  }

  /** Listing the collections of document `doc`: names of the collections that
      hold a document anywhere below `doc`, whether or not they hold one
      directly. */
  function SubcollectionNames(db: Db, doc: Path): (r: seq<string>)
    ensures forall c, id :: doc + [c, id] in db ==> c in r
    ensures forall c :: c in r ==> exists p :: p in db && |p| >= |doc| + 2 && IsPrefix(doc + [c], p)
    ensures Increasing(r)
  {
    var names := set p | p in db && |p| >= |doc| + 2 && IsPrefix(doc, p) :: p[|doc|];
    forall c, id | doc + [c, id] in db
      ensures c in names
    {
      var p := doc + [c, id];
      assert p[..|doc|] == doc && p[|doc|] == c;
    }
    forall c | c in names
      ensures exists p :: p in db && |p| >= |doc| + 2 && IsPrefix(doc + [c], p)
    {
      var p :| p in db && |p| >= |doc| + 2 && IsPrefix(doc, p) && p[|doc|] == c;
      assert p[..|doc| + 1] == p[..|doc|] + [p[|doc|]];
    }
    SortedSeq(names)
  }

  lemma {:induction false} ListingFrame(db1: Db, db2: Db, col: Path)
    requires forall id :: Same(db1, db2, col + [id])
    ensures Listing(db1, col) == Listing(db2, col)
  {
    ChildIdsMembers(db1, col);
    ChildIdsMembers(db2, col);
    assert ChildIds(db1, col) == ChildIds(db2, col);
  }

  // ---------------------------------------------------------------------
  // The store object

  /** The provider's ceiling on the writes of one commit. */
  const MaxWritesPerCommit := 500

  class Store {
    /** Every document, keyed by path. */
    var docs: Db
    /** Every write call so far, oldest first: one entry per batch commit or
        single `set`/`delete`, holding its writes in order. */
    ghost var log: seq<seq<Op>>

    constructor (initial: Db)
      ensures docs == initial && log == []
    {
      docs := initial;
      log := [];
    }

    /** A single set of `data` at `p`, replacing or merging. */
    method SetDoc(p: Path, data: Fields, merge: bool)
      modifies this
      ensures docs == old(docs)[p := if merge then Merged(old(docs), p, data) else data]
      ensures log == old(log) + [[Write(p, data, merge)]]
    {
      docs := Apply(docs, Write(p, data, merge));
      log := log + [[Write(p, data, merge)]];
    }

    /** A single delete of `p`. */
    method DeleteDoc(p: Path)
      modifies this
      ensures docs == old(docs) - {p}
      ensures log == old(log) + [[Remove(p)]]
    {
      docs := Apply(docs, Remove(p));
      log := log + [[Remove(p)]];
    }

    /** Committing a batch: its writes, applied in order. */
    method Commit(batch: seq<Op>)
      requires |batch| <= MaxWritesPerCommit
      modifies this
      ensures docs == ApplyAll(old(docs), batch)
      ensures log == old(log) + [batch]
    {
      docs := ApplyAll(docs, batch);
      log := log + [batch];
    }
  }
}
