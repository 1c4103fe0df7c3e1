/** Merging one flat user document into another: normalise the source's
    `userId`, merge its fields into the target, copy its sub-collections,
    then optionally cascade-delete the source. */
module MergeUserDocs {
  import opened Order
  import opened Firestore
  import opened Batching
  import opened Subcollections
  import opened UserMerge

  function UserDoc(uid: string): Path
  {
    ["users", uid]
  }

  /** The source's fields with a stray `userId` pointed at the target. */
  function UserPayload(data: Fields, t: string): Fields
  {
    Normalized(data, "userId", t)
  }

  /** The store after a committed run on an existing source user. */
  function UserMergeResult(db: Db, s: string, t: string, noDelete: bool): Db
    requires UserDoc(s) in db
  {
    var db2 := MergeAndCopy(db, UserDoc(s), UserDoc(t), UserPayload(db[UserDoc(s)], t));
    if noDelete then db2 else CascadeDelete(db2, UserDoc(s))
  }

  /** The `i`-th positional argument; a missing one reads as the empty
      string, which is falsy like `undefined`. The usage check fails exactly
      when the argument is absent or empty. */
  function Positional(args: seq<string>, i: nat): (s: string)
    ensures s == "" <==> i >= |args| || args[i] == ""
    ensures s != "" ==> s == args[i]
  {
    if i < |args| then args[i] else ""
  }

  /** The script: source and target are the first two arguments, wherever
      the flags are. Exit 1 without writing when either is missing or empty
      or the source user does not exist. */
  method MergeUserMain(store: Store, args: seq<string>) returns (exitCode: nat)
    modifies store
    ensures var s := Positional(args, 0); var t := Positional(args, 1);
            if s == "" || t == "" || UserDoc(s) !in old(store.docs) then
              exitCode == 1 && store.docs == old(store.docs) && store.log == old(store.log)
            else
              exitCode == 0 &&
              store.docs == if "--dry-run" in args then old(store.docs)
                            else UserMergeResult(old(store.docs), s, t, "--no-delete" in args)
    ensures GrewWithin(old(store.log), store.log)
  {
    assert GrewWithin(store.log, store.log);
    var sourceUserId := Positional(args, 0);
    var targetUserId := Positional(args, 1);
    var dryRun := "--dry-run" in args;
    var noDelete := "--no-delete" in args;
    if sourceUserId == "" || targetUserId == "" {
      return 1;
    }
    var src := UserDoc(sourceUserId);
    var tgt := UserDoc(targetUserId);
    if src !in store.docs {
      return 1;
    }
    var sourceData := store.docs[src];
    if Truthy(Get(sourceData, "userId")) && Get(sourceData, "userId") != Str(targetUserId) {
      sourceData := sourceData["userId" := Str(targetUserId)];
    }
    assert sourceData == UserPayload(store.docs[src], targetUserId);
    MergeAndCopyOf(store, src, tgt, sourceData, dryRun);
    if !dryRun && !noDelete {
      ghost var log1 := store.log;
      CascadeDeleteOf(store, src);
      GrewWithinTrans(old(store.log), log1, store.log);
    }
    exitCode := 0;
  }

  // ---------------------------------------------------------------------
  // What a committed run does, for a source distinct from the target

  lemma UserMergeTarget(db: Db, s: string, t: string, noDelete: bool)
    requires UserDoc(s) in db && s != t
    ensures var r := UserMergeResult(db, s, t, noDelete);
            UserDoc(t) in r && r[UserDoc(t)] == Merged(db, UserDoc(t), UserPayload(db[UserDoc(s)], t))
  {
    var payload := UserPayload(db[UserDoc(s)], t);
    MergeAndCopyTarget(db, UserDoc(s), UserDoc(t), payload);
    CascadeSparesTarget(MergeAndCopy(db, UserDoc(s), UserDoc(t), payload), UserDoc(s), UserDoc(t));
  }

  /** Conservation: every document of every sub-collection of the source
      is merged, same collection and id, under the target. */
  lemma UserMergeConserves(db: Db, s: string, t: string, noDelete: bool)
    requires UserDoc(s) in db && s != t
    ensures var r := UserMergeResult(db, s, t, noDelete);
            forall c, id :: UserDoc(s) + [c, id] in db ==>
              var p := UserDoc(t) + [c, id];
              p in r && r[p] == Merged(db, p, db[UserDoc(s) + [c, id]])
  {
    var src := UserDoc(s);
    var tgt := UserDoc(t);
    var payload := UserPayload(db[src], t);
    SameDepthApart(src, tgt);
    CascadeSparesTarget(MergeAndCopy(db, src, tgt, payload), src, tgt);
    forall c, id | src + [c, id] in db
      ensures var p := tgt + [c, id];
              p in UserMergeResult(db, s, t, noDelete) && UserMergeResult(db, s, t, noDelete)[p] == Merged(db, p, db[src + [c, id]])
    {
      MergeAndCopyConserves(db, src, tgt, payload, c, id);
    }
  }

  /** With deletion on, the source and every document of its sub-collections
      are gone; with `--no-delete` they are untouched. */
  lemma UserMergeSource(db: Db, s: string, t: string, noDelete: bool)
    requires UserDoc(s) in db && s != t
    ensures var r := UserMergeResult(db, s, t, noDelete); var src := UserDoc(s);
            (!noDelete ==> src !in r && forall c, id :: src + [c, id] !in r) &&
            (noDelete ==> Same(db, r, src) && forall c, id :: Same(db, r, src + [c, id]))
  {
    var src := UserDoc(s);
    var tgt := UserDoc(t);
    var payload := UserPayload(db[src], t);
    if noDelete {
      SameDepthApart(src, tgt);
      MergeAndCopyFrame(db, src, tgt, payload, src);
      forall c, id
        ensures Same(db, UserMergeResult(db, s, t, noDelete), src + [c, id])
      {
        assert (src + [c, id])[..|src|] == src;
        ApartSubtrees(src, tgt, src + [c, id]);
        MergeAndCopyFrame(db, src, tgt, payload, src + [c, id]);
      }
    } else {
      CascadeDeleteEffect(MergeAndCopy(db, src, tgt, payload), src);
    }
  }

  /** Merging a user into itself, as the script allows, deletes it: the
      cascade delete removes the freshly merged document and its
      sub-collections. */
  lemma UserSelfMergeLosesUser(db: Db, t: string)
    requires UserDoc(t) in db
    ensures UserDoc(t) !in UserMergeResult(db, t, t, false)
    ensures forall c, id :: UserDoc(t) + [c, id] !in UserMergeResult(db, t, t, false)
  {
    CascadeDeleteEffect(MergeAndCopy(db, UserDoc(t), UserDoc(t), UserPayload(db[UserDoc(t)], t)), UserDoc(t));
  }
}
