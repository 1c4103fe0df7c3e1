/** The flat-to-organisation migration: flat collections filtered by
    `organizationId` are merge-copied under `organizations/{orgId}`, and each
    flat user document is copied with its sub-collections and then replaced
    by a three-field lookup document. */
module MigrateHierarchy {
  import opened Order
  import opened Firestore
  import opened Batching
  import opened Subcollections
  import opened Args

  function OrgPath(orgId: string): Path
  {
    ["organizations", orgId]
  }

  /** `organizations/{orgId}/{name}`. */
  function CollectionTarget(orgId: string, name: string): Path
  {
    ["organizations", orgId, name]
  }

  /** `organizations/{orgId}/users/{uid}`. */
  function OrgUser(orgId: string, uid: string): Path
  {
    ["organizations", orgId, "users", uid]
  }

  /** The flat document `name/id` is picked up by the query: it exists and,
      when an org id is given, its `organizationId` is that id. */
  predicate Selected(db: Db, name: string, orgId: string, id: string)
  {
    [name, id] in db && (orgId != "" ==> Get(db[[name, id]], "organizationId") == Str(orgId))
  }

  /** The documents read from flat collection `name`: those whose
      `organizationId` equals the given org id, or all of them when the id
      is empty. */
  function Query(db: Db, name: string, orgId: string): (r: seq<Doc>)
    ensures forall d: Doc :: d in r <==> Selected(db, name, orgId, d.id) && db[[name, d.id]] == d.data
    ensures IdsIncreasing(r)
  {
    assert forall id :: [name] + [id] == [name, id];
    ListingMembers(db, [name]);
    if orgId != "" then Where(db, [name], "organizationId", Str(orgId)) else Listing(db, [name])
  }

  // ---------------------------------------------------------------------
  // migrateCollection

  /** The store after a committed `migrateCollection(name)`. */
  function MigratedCollection(db: Db, name: string, orgId: string): Db
  {
    ApplyAll(db, BatchOps(Query(db, name, orgId), CollectionTarget(orgId, name), MergeCopy))
  }

  /** `migrateCollection`: the number of matching documents, copied unless
      this is a dry run; an empty match or a dry run writes nothing. */
  method MigrateCollection(store: Store, name: string, orgId: string, dryRun: bool) returns (n: nat)
    modifies store
    ensures n == |Query(old(store.docs), name, orgId)|
    ensures dryRun || n == 0 ==> store.docs == old(store.docs) && store.log == old(store.log)
    ensures !dryRun ==> store.docs == MigratedCollection(old(store.docs), name, orgId)
    ensures GrewWithin(old(store.log), store.log)
  {
    var snap := Query(store.docs, name, orgId);
    if |snap| == 0 {
      assert BatchOps(snap, CollectionTarget(orgId, name), MergeCopy) == [];
      assert GrewWithin(store.log, store.log);
      return 0;
    }
    if dryRun {
      assert GrewWithin(store.log, store.log);
      return |snap|;
    }
    WriteInBatches(store, snap, CollectionTarget(orgId, name), MergeCopy);
    n := |snap|;
  }

  /** Every selected flat document is merged, under the same id, into
      `organizations/{orgId}/{name}`: its fields win, target fields it lacks
      survive. Nothing outside those targets changes. */
  lemma MigratedCollectionEffect(db: Db, name: string, orgId: string)
    ensures var r := MigratedCollection(db, name, orgId);
            forall id :: Selected(db, name, orgId, id) ==>
              var t := CollectionTarget(orgId, name) + [id];
              t in r && r[t] == Merged(db, t, db[[name, id]]) &&
              (forall k :: k in db[[name, id]] ==> r[t][k] == db[[name, id]][k]) &&
              (forall k :: t in db && k in db[t] && k !in db[[name, id]] ==> r[t][k] == db[t][k])
    ensures var r := MigratedCollection(db, name, orgId);
            forall p :: !InSnapshot(p, Query(db, name, orgId), CollectionTarget(orgId, name)) ==> Same(db, r, p)
  {
    var snap := Query(db, name, orgId);
    var col := CollectionTarget(orgId, name);
    IncreasingIdsDistinct(snap);
    CopyEffect(db, snap, col);
    forall id | Selected(db, name, orgId, id)
      ensures (var t := col + [id];
               t in MigratedCollection(db, name, orgId) &&
               MigratedCollection(db, name, orgId)[t] == Merged(db, t, db[[name, id]]))
    {
      var d := Doc(id, db[[name, id]]);
      assert d in snap;
      var i :| 0 <= i < |snap| && snap[i] == d;
    }
    forall p | !InSnapshot(p, snap, col)
      ensures Same(db, MigratedCollection(db, name, orgId), p)
    {
      OutsideSnapshot(db, snap, col, MergeCopy, p);
    }
  }

  /** A committed migration of one collection only writes four segments
      deep, so every one-segment collection lists as before. */
  lemma CollectionListingKept(db: Db, name: string, orgId: string, col: Path)
    requires |col| == 1
    ensures Listing(MigratedCollection(db, name, orgId), col) == Listing(db, col)
  {
    forall id
      ensures Same(db, MigratedCollection(db, name, orgId), col + [id])
    {
      BatchFrame(db, Query(db, name, orgId), CollectionTarget(orgId, name), MergeCopy, col + [id]);
    }
    ListingFrame(db, MigratedCollection(db, name, orgId), col);
  }

  /** The query reads nothing but the listing of its collection. */
  lemma QueryFromListing(db1: Db, db2: Db, name: string, orgId: string)
    requires Listing(db1, [name]) == Listing(db2, [name])
    ensures Query(db1, name, orgId) == Query(db2, name, orgId)
  {
  }

  /** Re-running a committed collection migration on its own result selects
      the same documents and leaves the store unchanged. */
  lemma MigratedCollectionIdempotent(db: Db, name: string, orgId: string)
    ensures var once := MigratedCollection(db, name, orgId);
            Query(once, name, orgId) == Query(db, name, orgId) &&
            MigratedCollection(once, name, orgId) == once
  {
    var once := MigratedCollection(db, name, orgId);
    CollectionListingKept(db, name, orgId, [name]);
    QueryFromListing(db, once, name, orgId);
    IncreasingIdsDistinct(Query(db, name, orgId));
    MergeCopyTwice(db, Query(db, name, orgId), CollectionTarget(orgId, name));
  }

  // ---------------------------------------------------------------------
  // migrateUsers

  /** The lookup document that replaces a migrated flat user. */
  function LookupData(u: Doc): (f: Fields)
    ensures f.Keys == {"organizationId", "email", "userId"}
    ensures f["organizationId"] == Get(u.data, "organizationId")
    ensures f["email"] == (if Truthy(Get(u.data, "email")) then u.data["email"] else Str(""))
    ensures f["userId"] == Str(u.id)
  {
    map["organizationId" := Get(u.data, "organizationId"),
        "email" := Or(Get(u.data, "email"), Str("")),
        "userId" := Str(u.id)]
  }

  /** One iteration of the user loop: merge the user under the org, copy its
      sub-collections next to it, then replace the flat document. */
  function MigratedUser(db: Db, orgId: string, u: Doc): Db
  {
    var src := ["users", u.id];
    var target := OrgUser(orgId, u.id);
    var db1 := db[target := Merged(db, target, u.data)];
    var db2 := CopySubcollections(db1, src, target, SubcollectionNames(db1, src));
    db2[src := LookupData(u)]
  }

  /** The store after the user loop has run over `users`, in order. */
  function MigratedUsers(db: Db, orgId: string, users: seq<Doc>): Db
    decreases |users|
  {
    if users == [] then db
    else MigratedUser(MigratedUsers(db, orgId, users[..|users| - 1]), orgId, users[|users| - 1])
  }

  /** The store after a committed `migrateUsers`. */
  function UsersMigration(db: Db, orgId: string): Db
  {
    MigratedUsers(db, orgId, Query(db, "users", orgId))
  }

  lemma MigratedUsersStep(db: Db, orgId: string, users: seq<Doc>, i: nat)
    requires i < |users|
    ensures MigratedUsers(db, orgId, users[..i + 1]) == MigratedUser(MigratedUsers(db, orgId, users[..i]), orgId, users[i])
  {
    assert users[..i + 1][..i] == users[..i];
  }

  /** `migrateUsers`: the number of selected users, each migrated unless this
      is a dry run; an empty selection or a dry run writes nothing. */
  method MigrateUsers(store: Store, orgId: string, dryRun: bool) returns (n: nat)
    modifies store
    ensures n == |Query(old(store.docs), "users", orgId)|
    ensures dryRun || n == 0 ==> store.docs == old(store.docs) && store.log == old(store.log)
    ensures !dryRun ==> store.docs == UsersMigration(old(store.docs), orgId)
    ensures GrewWithin(old(store.log), store.log)
  {
    var snap := Query(store.docs, "users", orgId);
    assert GrewWithin(store.log, store.log);
    if |snap| == 0 {
      return 0;
    }
    if dryRun {
      return |snap|;
    }
    ghost var db0 := store.docs;
    var migrated := 0;
    for i := 0 to |snap|
      invariant migrated == i
      invariant store.docs == MigratedUsers(db0, orgId, snap[..i])
      invariant GrewWithin(old(store.log), store.log)
    {
      MigratedUsersStep(db0, orgId, snap, i);
      ghost var log0 := store.log;
      MigrateUser(store, orgId, snap[i]);
      GrewWithinTrans(old(store.log), log0, store.log);
      migrated := migrated + 1;
    }
    assert snap[..|snap|] == snap;
    n := migrated;
  }

  /** The body of the users loop: merge the user into its org user, copy its
      sub-collections, then replace the flat document with the lookup. */
  method MigrateUser(store: Store, orgId: string, u: Doc)
    modifies store
    ensures store.docs == MigratedUser(old(store.docs), orgId, u)
    ensures GrewWithin(old(store.log), store.log)
  {
    var target := OrgUser(orgId, u.id);
    store.SetDoc(target, u.data, true);
    GrewBySingle(old(store.log), Write(target, u.data, true));
    ghost var log2 := store.log;
    CopySubcollectionsOf(store, ["users", u.id], target, false);
    GrewWithinTrans(old(store.log), log2, store.log);
    ghost var log3 := store.log;
    store.SetDoc(["users", u.id], LookupData(u), false);
    GrewBySingle(log3, Write(["users", u.id], LookupData(u), false));
    GrewWithinTrans(old(store.log), log3, store.log);
  }

  /** One user's migration touches only its flat document and the subtree of
      its org user. */
  lemma MigratedUserFrame(db: Db, orgId: string, v: Doc, p: Path)
    requires p != ["users", v.id] && !IsPrefix(OrgUser(orgId, v.id), p)
    ensures Same(db, MigratedUser(db, orgId, v), p)
  {
    var src := ["users", v.id];
    var target := OrgUser(orgId, v.id);
    var db1 := db[target := Merged(db, target, v.data)];
    CopyFrame(db1, src, target, SubcollectionNames(db1, src), p);
  }

  lemma {:induction false} MigratedUsersFrame(db: Db, orgId: string, users: seq<Doc>, p: Path)
    requires forall i :: 0 <= i < |users| ==> p != ["users", users[i].id] && !IsPrefix(OrgUser(orgId, users[i].id), p)
    ensures Same(db, MigratedUsers(db, orgId, users), p)
    decreases |users|
  {
    if users != [] {
      var init := users[..|users| - 1];
      assert forall i :: 0 <= i < |init| ==> init[i] == users[i];
      MigratedUsersFrame(db, orgId, init, p);
      MigratedUserFrame(MigratedUsers(db, orgId, init), orgId, users[|users| - 1], p);
    }
  }

  lemma {:induction false} MigratedUsersLookup(db: Db, orgId: string, users: seq<Doc>, k: nat)
    requires DistinctIds(users) && k < |users|
    ensures var r := MigratedUsers(db, orgId, users);
            ["users", users[k].id] in r && r[["users", users[k].id]] == LookupData(users[k])
    decreases |users|, 1
  {
    if k < |users| - 1 {
      EarlierLookupKept(db, orgId, users, k);
    }
  }

  /** A lookup written for an earlier user survives the last user's step. */
  lemma {:induction false} EarlierLookupKept(db: Db, orgId: string, users: seq<Doc>, k: nat)
    requires DistinctIds(users) && k < |users| - 1
    ensures var r := MigratedUsers(db, orgId, users);
            ["users", users[k].id] in r && r[["users", users[k].id]] == LookupData(users[k])
    decreases |users|, 0
  {
    var init := users[..|users| - 1];
    var last := users[|users| - 1];
    assert init[k] == users[k];
    assert DistinctIds(init) by {
      assert forall i :: 0 <= i < |init| ==> init[i] == users[i];
    }
    assert users[k].id != last.id;
    PrefixAt(OrgUser(orgId, last.id), ["users", users[k].id]);
    MigratedUsersLookup(db, orgId, init, k);
    MigratedUserFrame(MigratedUsers(db, orgId, init), orgId, last, ["users", users[k].id]);
  }

  /** The path of user `k` lies outside what the users before it wrote. */
  lemma EarlierUsersFrame(db: Db, orgId: string, users: seq<Doc>, k: nat, p: Path)
    requires DistinctIds(users) && k < |users|
    requires p == OrgUser(orgId, users[k].id) || (|p| == 6 && IsPrefix(OrgUser(orgId, users[k].id), p)) ||
             (|p| == 4 && IsPrefix(["users", users[k].id], p))
    ensures Same(db, MigratedUsers(db, orgId, users[..k]), p)
  {
    UserPathShape(orgId, users[k].id, p);
    forall i | 0 <= i < |users[..k]|
      ensures p != ["users", users[..k][i].id] && !IsPrefix(OrgUser(orgId, users[..k][i].id), p)
    {
      var v := users[i];
      assert users[..k][i] == v;
      assert v.id != users[k].id;
      PrefixAt(OrgUser(orgId, v.id), p);
    }
    MigratedUsersFrame(db, orgId, users[..k], p);
  }

  /** The paths of one user: its flat document, a document of one of its
      flat sub-collections, its org user, and a document of one of the
      sub-collections there. */
  lemma UserPathShape(orgId: string, w: string, p: Path)
    requires p == ["users", w] || (|p| == 4 && IsPrefix(["users", w], p)) ||
             p == OrgUser(orgId, w) || (|p| == 6 && IsPrefix(OrgUser(orgId, w), p))
    ensures |p| >= 2 && (p[0] == "users" || p[0] == "organizations")
    ensures p[0] == "users" ==> p[1] == w
    ensures p[0] == "organizations" ==> |p| >= 4 && p[3] == w
  {
    PrefixAt(OrgUser(orgId, w), p);
    PrefixAt(["users", w], p);
  }

  /** The path of user `k` lies outside what the users after it write. */
  lemma {:induction false} LaterUsersFrame(db: Db, orgId: string, users: seq<Doc>, k: nat, p: Path)
    requires DistinctIds(users) && k < |users|
    requires p == ["users", users[k].id] || p == OrgUser(orgId, users[k].id) ||
             (|p| == 6 && IsPrefix(OrgUser(orgId, users[k].id), p))
    ensures Same(MigratedUsers(db, orgId, users[..k + 1]), MigratedUsers(db, orgId, users), p)
    decreases |users|
  {
    if |users| > k + 1 {
      var init := users[..|users| - 1];
      var last := users[|users| - 1];
      assert init[..k + 1] == users[..k + 1];
      assert init[k] == users[k];
      LaterUsersFrame(db, orgId, init, k, p);
      LastUserFrame(db, orgId, users, k, p);
    } else {
      assert users[..k + 1] == users;
    }
  }

  lemma LastUserFrame(db: Db, orgId: string, users: seq<Doc>, k: nat, p: Path)
    requires DistinctIds(users) && k < |users| - 1
    requires p == ["users", users[k].id] || p == OrgUser(orgId, users[k].id) ||
             (|p| == 6 && IsPrefix(OrgUser(orgId, users[k].id), p))
    ensures Same(MigratedUsers(db, orgId, users[..|users| - 1]), MigratedUsers(db, orgId, users), p)
  {
    var last := users[|users| - 1];
    assert last.id != users[k].id;
    UserPathShape(orgId, users[k].id, p);
    PrefixAt(OrgUser(orgId, last.id), p);
    MigratedUserFrame(MigratedUsers(db, orgId, users[..|users| - 1]), orgId, last, p);
  }

  lemma MigratedUsersOrgUser(db: Db, orgId: string, users: seq<Doc>, k: nat)
    requires DistinctIds(users) && k < |users|
    ensures var r := MigratedUsers(db, orgId, users); var t := OrgUser(orgId, users[k].id);
            t in r && r[t] == Merged(db, t, users[k].data)
  {
    var u := users[k];
    var t := OrgUser(orgId, u.id);
    EarlierUsersFrame(db, orgId, users, k, t);
    var before := MigratedUsers(db, orgId, users[..k]);
    MigratedUserOrgDoc(before, orgId, u);
    MigratedUsersStep(db, orgId, users, k);
    LaterUsersFrame(db, orgId, users, k, t);
  }

  /** One user's step merges its data into its org user. */
  lemma MigratedUserOrgDoc(db: Db, orgId: string, u: Doc)
    ensures var t := OrgUser(orgId, u.id);
            t in MigratedUser(db, orgId, u) && MigratedUser(db, orgId, u)[t] == Merged(db, t, u.data)
  {
    var t := OrgUser(orgId, u.id);
    var db1 := db[t := Merged(db, t, u.data)];
    CopyFrame(db1, ["users", u.id], t, SubcollectionNames(db1, ["users", u.id]), t);
  }

  lemma MigratedUsersConserves(db: Db, orgId: string, users: seq<Doc>, k: nat, c: string, id: string)
    requires DistinctIds(users) && k < |users|
    requires ["users", users[k].id, c, id] in db
    ensures var r := MigratedUsers(db, orgId, users); var t := OrgUser(orgId, users[k].id) + [c, id];
            t in r && r[t] == Merged(db, t, db[["users", users[k].id, c, id]])
  {
    var u := users[k];
    var src := ["users", u.id];
    var target := OrgUser(orgId, u.id);
    var s := src + [c, id];
    var t := target + [c, id];
    assert s == ["users", u.id, c, id];
    assert t[..4] == target;
    assert s[..2] == src;
    EarlierUsersFrame(db, orgId, users, k, t);
    EarlierUsersFrame(db, orgId, users, k, s);
    var before := MigratedUsers(db, orgId, users[..k]);
    var db1 := before[target := Merged(before, target, u.data)];
    var names := SubcollectionNames(db1, src);
    assert s in db1;
    assert c in names;
    assert Apart(src, target) by {
      assert src[0] != target[0];
    }
    CopyConserves(db1, src, target, names, c, id);
    MigratedUsersStep(db, orgId, users, k);
    LaterUsersFrame(db, orgId, users, k, t);
  }

  /** After a committed user migration every selected flat user holds exactly
      the lookup fields: its organization, its email or `''`, and its id. */
  lemma UsersLookupReplaced(db: Db, orgId: string)
    ensures var r := UsersMigration(db, orgId);
            forall id :: Selected(db, "users", orgId, id) ==>
              ["users", id] in r && r[["users", id]] == LookupData(Doc(id, db[["users", id]]))
  {
    var snap := Query(db, "users", orgId);
    IncreasingIdsDistinct(snap);
    forall id | Selected(db, "users", orgId, id)
      ensures var r := UsersMigration(db, orgId);
              ["users", id] in r && r[["users", id]] == LookupData(Doc(id, db[["users", id]]))
    {
      var d := Doc(id, db[["users", id]]);
      assert d in snap;
      var k :| 0 <= k < |snap| && snap[k] == d;
      MigratedUsersLookup(db, orgId, snap, k);
    }
  }

  /** After a committed user migration every selected user's fields are
      merged over its org user document. */
  lemma UsersOrgDocMerged(db: Db, orgId: string)
    ensures var r := UsersMigration(db, orgId);
            forall id :: Selected(db, "users", orgId, id) ==>
              OrgUser(orgId, id) in r && r[OrgUser(orgId, id)] == Merged(db, OrgUser(orgId, id), db[["users", id]])
  {
    var snap := Query(db, "users", orgId);
    IncreasingIdsDistinct(snap);
    forall id | Selected(db, "users", orgId, id)
      ensures var r := UsersMigration(db, orgId);
              OrgUser(orgId, id) in r && r[OrgUser(orgId, id)] == Merged(db, OrgUser(orgId, id), db[["users", id]])
    {
      var d := Doc(id, db[["users", id]]);
      assert d in snap;
      var k :| 0 <= k < |snap| && snap[k] == d;
      MigratedUsersOrgUser(db, orgId, snap, k);
    }
  }

  /** Conservation: every document of every sub-collection of a selected
      user reappears, same collection and id, under its org user. */
  lemma UsersSubcollectionsConserved(db: Db, orgId: string)
    ensures var r := UsersMigration(db, orgId);
            forall id, c, sid :: Selected(db, "users", orgId, id) && ["users", id, c, sid] in db ==>
              var t := OrgUser(orgId, id) + [c, sid];
              t in r && r[t] == Merged(db, t, db[["users", id, c, sid]])
  {
    var snap := Query(db, "users", orgId);
    IncreasingIdsDistinct(snap);
    forall id, c, sid | Selected(db, "users", orgId, id) && ["users", id, c, sid] in db
      ensures var r := UsersMigration(db, orgId); var t := OrgUser(orgId, id) + [c, sid];
              t in r && r[t] == Merged(db, t, db[["users", id, c, sid]])
    {
      var d := Doc(id, db[["users", id]]);
      assert d in snap;
      var k :| 0 <= k < |snap| && snap[k] == d;
      MigratedUsersConserves(db, orgId, snap, k, c, sid);
    }
  }

  /** A committed user migration changes nothing outside `organizations`
      except the selected flat user documents themselves; in particular the
      source sub-collections stay in place. */
  lemma UsersMigrationFrame(db: Db, orgId: string)
    ensures var r := UsersMigration(db, orgId);
            forall p :: ((p == [] || p[0] != "organizations") &&
                         !(|p| == 2 && p[0] == "users" && Selected(db, "users", orgId, p[1]))) ==> Same(db, r, p)
  {
    forall p | (p == [] || p[0] != "organizations") &&
               !(|p| == 2 && p[0] == "users" && Selected(db, "users", orgId, p[1]))
      ensures Same(db, UsersMigration(db, orgId), p)
    {
      UsersMigrationFrameAt(db, orgId, p);
    }
  }

  lemma UsersMigrationFrameAt(db: Db, orgId: string, p: Path)
    requires p == [] || p[0] != "organizations"
    requires !(|p| == 2 && p[0] == "users" && Selected(db, "users", orgId, p[1]))
    ensures Same(db, UsersMigration(db, orgId), p)
  {
    var snap := Query(db, "users", orgId);
    forall i | 0 <= i < |snap|
      ensures p != ["users", snap[i].id] && !IsPrefix(OrgUser(orgId, snap[i].id), p)
    {
      assert snap[i] in snap;
      assert Selected(db, "users", orgId, snap[i].id);
      PrefixAt(OrgUser(orgId, snap[i].id), p);
    }
    MigratedUsersFrame(db, orgId, snap, p);
  }

  /** The user path is not idempotent: the flat lookup written by the first
      run still matches the query, so a second run merges the three lookup
      fields into the org user, which then differs whenever neither the flat
      user nor the org user had a `userId` before. */
  lemma UsersRerunMergesLookup(db: Db, orgId: string, id: string)
    requires orgId != "" && Selected(db, "users", orgId, id)
    requires "userId" !in db[["users", id]]
    requires OrgUser(orgId, id) in db ==> "userId" !in db[OrgUser(orgId, id)]
    ensures var once := UsersMigration(db, orgId); var twice := UsersMigration(once, orgId);
            OrgUser(orgId, id) in twice &&
            twice[OrgUser(orgId, id)] == Merged(once, OrgUser(orgId, id), LookupData(Doc(id, db[["users", id]]))) &&
            twice != once
  {
    var once := UsersMigration(db, orgId);
    var t := OrgUser(orgId, id);
    UsersLookupReplaced(db, orgId);
    UsersOrgDocMerged(db, orgId);
    var lookup := LookupData(Doc(id, db[["users", id]]));
    assert Selected(once, "users", orgId, id);
    UsersOrgDocMerged(once, orgId);
    assert "userId" !in once[t];
    assert "userId" in UsersMigration(once, orgId)[t];
  }

  // ---------------------------------------------------------------------
  // main

  /** The store after a committed run: users first, then the four flat
      collections, each reading the store the previous step left. */
  function Migration(db: Db, orgId: string): Db
  {
    var db1 := UsersMigration(db, orgId);
    var db2 := MigratedCollection(db1, "projects", orgId);
    var db3 := MigratedCollection(db2, "location_settings", orgId);
    var db4 := MigratedCollection(db3, "work_locations", orgId);
    MigratedCollection(db4, "user_groups", orgId)
  }

  /** The number of documents a run reports, counted on the store it starts
      from. */
  function InitialTotal(db: Db, orgId: string): nat
  {
    |Query(db, "users", orgId)| + |Query(db, "projects", orgId)| + |Query(db, "location_settings", orgId)| +
    |Query(db, "work_locations", orgId)| + |Query(db, "user_groups", orgId)|
  }

  lemma UsersListingKept(db: Db, orgId: string, name: string)
    requires name != "users" && name != "organizations"
    ensures Listing(UsersMigration(db, orgId), [name]) == Listing(db, [name])
  {
    UsersMigrationFrame(db, orgId);
    forall id
      ensures Same(db, UsersMigration(db, orgId), [name] + [id])
    {
      assert ([name] + [id])[0] == name;
    }
    ListingFrame(db, UsersMigration(db, orgId), [name]);
  }

  /** Each step of a committed run selects what it would have selected on
      the initial store: earlier steps write only under `organizations` and
      to the flat users. */
  lemma MigrationSelections(db: Db, orgId: string)
    ensures var db1 := UsersMigration(db, orgId);
            var db2 := MigratedCollection(db1, "projects", orgId);
            var db3 := MigratedCollection(db2, "location_settings", orgId);
            var db4 := MigratedCollection(db3, "work_locations", orgId);
            Query(db1, "projects", orgId) == Query(db, "projects", orgId) &&
            Query(db2, "location_settings", orgId) == Query(db, "location_settings", orgId) &&
            Query(db3, "work_locations", orgId) == Query(db, "work_locations", orgId) &&
            Query(db4, "user_groups", orgId) == Query(db, "user_groups", orgId)
  {
    var db1 := UsersMigration(db, orgId);
    var db2 := MigratedCollection(db1, "projects", orgId);
    var db3 := MigratedCollection(db2, "location_settings", orgId);
    var db4 := MigratedCollection(db3, "work_locations", orgId);
    UsersListingKept(db, orgId, "projects");
    UsersListingKept(db, orgId, "location_settings");
    UsersListingKept(db, orgId, "work_locations");
    UsersListingKept(db, orgId, "user_groups");
    CollectionListingKept(db1, "projects", orgId, ["location_settings"]);
    CollectionListingKept(db1, "projects", orgId, ["work_locations"]);
    CollectionListingKept(db1, "projects", orgId, ["user_groups"]);
    CollectionListingKept(db2, "location_settings", orgId, ["work_locations"]);
    CollectionListingKept(db2, "location_settings", orgId, ["user_groups"]);
    CollectionListingKept(db3, "work_locations", orgId, ["user_groups"]);
    QueryFromListing(db, db1, "projects", orgId);
    QueryFromListing(db, db2, "location_settings", orgId);
    QueryFromListing(db, db3, "work_locations", orgId);
    QueryFromListing(db, db4, "user_groups", orgId);
  }

  /** The five migrations in order, each given the dry-run flag; the total
      adds up the counts they return. */
  method MigrateAll(store: Store, orgId: string, dryRun: bool) returns (total: nat)
    modifies store
    ensures total == InitialTotal(old(store.docs), orgId)
    ensures store.docs == if dryRun then old(store.docs) else Migration(old(store.docs), orgId)
    ensures GrewWithin(old(store.log), store.log)
  {
    ghost var db0 := store.docs;
    ghost var log0 := store.log;
    MigrationSelections(db0, orgId);
    var n := MigrateUsers(store, orgId, dryRun);
    total := n;
    ghost var c1 := |Query(db0, "users", orgId)|;
    ghost var c2 := |Query(db0, "projects", orgId)|;
    ghost var c3 := |Query(db0, "location_settings", orgId)|;
    ghost var c4 := |Query(db0, "work_locations", orgId)|;
    ghost var c5 := |Query(db0, "user_groups", orgId)|;
    assert InitialTotal(db0, orgId) == c1 + c2 + c3 + c4 + c5;
    assert total == c1;
    ghost var db1 := store.docs;
    assert db1 == if dryRun then db0 else UsersMigration(db0, orgId);
    ghost var log1 := store.log;
    n := MigrateCollection(store, "projects", orgId, dryRun);
    assert n == c2;
    total := total + n;
    assert total == c1 + c2;
    GrewWithinTrans(log0, log1, store.log);
    ghost var db2 := store.docs;
    assert db2 == if dryRun then db0 else MigratedCollection(db1, "projects", orgId);
    ghost var log2 := store.log;
    n := MigrateCollection(store, "location_settings", orgId, dryRun);
    assert n == c3;
    total := total + n;
    assert total == c1 + c2 + c3;
    GrewWithinTrans(log0, log2, store.log);
    ghost var db3 := store.docs;
    assert db3 == if dryRun then db0 else MigratedCollection(db2, "location_settings", orgId);
    ghost var log3 := store.log;
    n := MigrateCollection(store, "work_locations", orgId, dryRun);
    assert n == c4;
    total := total + n;
    assert total == c1 + c2 + c3 + c4;
    GrewWithinTrans(log0, log3, store.log);
    ghost var db4 := store.docs;
    assert db4 == if dryRun then db0 else MigratedCollection(db3, "work_locations", orgId);
    ghost var log4 := store.log;
    n := MigrateCollection(store, "user_groups", orgId, dryRun);
    assert n == c5;
    total := total + n;
    assert total == c1 + c2 + c3 + c4 + c5;
    GrewWithinTrans(log0, log4, store.log);
  }

  /** The script: parse `--org-id=` and `--dry-run`, exit 1 without touching
      the store when the id is missing or empty or the organization does not
      exist, otherwise run the five migrations and report the total. */
  method MigrateMain(store: Store, args: seq<string>) returns (exitCode: nat, total: nat)
    modifies store
    ensures var o := LastValue(args, OrgIdFlag);
            if Missing(o) || OrgPath(o.value) !in old(store.docs) then
              exitCode == 1 && total == 0 && store.docs == old(store.docs) && store.log == old(store.log)
            else
              exitCode == 0 && total == InitialTotal(old(store.docs), o.value) &&
              store.docs == (if "--dry-run" in args then old(store.docs) else Migration(old(store.docs), o.value))
    ensures GrewWithin(old(store.log), store.log)
  {
    assert GrewWithin(store.log, store.log);
    var dryRun := "--dry-run" in args;
    var orgId := ParseOrgId(args);
    if Missing(orgId) {
      return 1, 0;
    }
    if OrgPath(orgId.value) !in store.docs {
      return 1, 0;
    }
    total := MigrateAll(store, orgId.value, dryRun);
    exitCode := 0;
  }
}
