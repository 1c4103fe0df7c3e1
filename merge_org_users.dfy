/** Merging one organization user into another: normalise the source's ids,
    merge its fields into the target, copy its sub-collections, rebuild the
    target's flat lookup document (written before the source's lookup is
    deleted), then optionally cascade-delete the source. */
module MergeOrgUserDocs {
  import opened Order
  import opened Firestore
  import opened Batching
  import opened Subcollections
  import opened Args
  import opened UserMerge

  const SourceFlag := "--source="
  const TargetFlag := "--target="

  datatype Options = Options(dryRun: bool, noDelete: bool, orgId: Option<string>,
                             sourceUserId: Option<string>, targetUserId: Option<string>)

  /** The option parser: the two flags count only when given exactly; each id is
      taken from the last argument carrying its prefix. */
  method ParseArgs(args: seq<string>) returns (opts: Options)
    ensures opts.dryRun <==> "--dry-run" in args
    ensures opts.noDelete <==> "--no-delete" in args
    ensures opts.orgId == LastValue(args, OrgIdFlag)
    ensures opts.sourceUserId == LastValue(args, SourceFlag)
    ensures opts.targetUserId == LastValue(args, TargetFlag)
  {
    opts := Options(false, false, None, None, None);
    for i := 0 to |args|
      invariant opts.dryRun <==> "--dry-run" in args[..i]
      invariant opts.noDelete <==> "--no-delete" in args[..i]
      invariant opts.orgId == LastValue(args[..i], OrgIdFlag)
      invariant opts.sourceUserId == LastValue(args[..i], SourceFlag)
      invariant opts.targetUserId == LastValue(args[..i], TargetFlag)
    {
      var arg := args[i];
      assert args[..i + 1] == args[..i] + [arg];
      LastValueSnoc(args[..i], arg, OrgIdFlag);
      LastValueSnoc(args[..i], arg, SourceFlag);
      LastValueSnoc(args[..i], arg, TargetFlag);
      FlagsExclusive(arg);
      if arg == "--dry-run" {
        opts := opts.(dryRun := true);
      } else if arg == "--no-delete" {
        opts := opts.(noDelete := true);
      } else if StartsWith(arg, OrgIdFlag) {
        opts := opts.(orgId := Some(SecondPart(arg)));
      } else if StartsWith(arg, SourceFlag) {
        opts := opts.(sourceUserId := Some(SecondPart(arg)));
      } else if StartsWith(arg, TargetFlag) {
        opts := opts.(targetUserId := Some(SecondPart(arg)));
      }
    }
    assert args[..|args|] == args;
  }

  /** The options of `parseArgs` do not overlap: an argument matches at
      most one of them. */
  lemma FlagsExclusive(arg: string)
    ensures arg == "--dry-run" || arg == "--no-delete" ==>
              !StartsWith(arg, OrgIdFlag) && !StartsWith(arg, SourceFlag) && !StartsWith(arg, TargetFlag)
    ensures StartsWith(arg, OrgIdFlag) ==> !StartsWith(arg, SourceFlag) && !StartsWith(arg, TargetFlag)
    ensures StartsWith(arg, SourceFlag) ==> !StartsWith(arg, TargetFlag)
  {
    assert OrgIdFlag[2] == 'o' && SourceFlag[2] == 's' && TargetFlag[2] == 't';
    assert |OrgIdFlag| == 9 && |SourceFlag| == 9 && |TargetFlag| == 9;
    assert "--dry-run"[8] == 'n' && "--no-delete"[8] == 'e';
    assert OrgIdFlag[8] == '=' && SourceFlag[8] == '=' && TargetFlag[8] == '=';
    if |arg| >= 9 {
      assert arg[..9][2] == arg[2] && arg[..9][8] == arg[8];
    }
  }

  function OrgUser(orgId: string, uid: string): Path
  {
    ["organizations", orgId, "users", uid]
  }

  /** The source's fields with a stray `userId` and `organizationId` pointed
      at the target and the organization. */
  function OrgPayload(data: Fields, orgId: string, t: string): Fields
  {
    Normalized(Normalized(data, "userId", t), "organizationId", orgId)
  }

  /** A flat lookup document, or `{}` when it does not exist. */
  function LookupOf(db: Db, uid: string): Fields
  {
    if ["users", uid] in db then db[["users", uid]] else map[]
  }

  /** The rebuilt target lookup: organization, target id, and the first
      truthy email of the target's and the source's lookups, else `''`. */
  function TargetLookup(db: Db, orgId: string, s: string, t: string): (f: Fields)
    ensures f.Keys == {"organizationId", "userId", "email"}
    ensures f["organizationId"] == Str(orgId) && f["userId"] == Str(t)
    ensures Truthy(Get(LookupOf(db, t), "email")) ==> f["email"] == Get(LookupOf(db, t), "email")
    ensures !Truthy(Get(LookupOf(db, t), "email")) && Truthy(Get(LookupOf(db, s), "email")) ==>
              f["email"] == Get(LookupOf(db, s), "email")
    ensures !Truthy(Get(LookupOf(db, t), "email")) && !Truthy(Get(LookupOf(db, s), "email")) ==> f["email"] == Str("")
  {
    map["organizationId" := Str(orgId), "userId" := Str(t),
        "email" := Or(Or(Get(LookupOf(db, t), "email"), Get(LookupOf(db, s), "email")), Str(""))]
  }

  /** The lookup step of a committed run: replace `users/{t}`, then delete
      `users/{s}` if it existed when read. */
  function LookupRebuilt(db: Db, orgId: string, s: string, t: string): Db
  {
    var db1 := db[["users", t] := TargetLookup(db, orgId, s, t)];
    if ["users", s] in db then db1 - {["users", s]} else db1
  }

  /** The store after the merge, the copy and the lookup step. */
  function BeforeCascade(db: Db, orgId: string, s: string, t: string): Db
    requires OrgUser(orgId, s) in db
  {
    var src := OrgUser(orgId, s);
    LookupRebuilt(MergeAndCopy(db, src, OrgUser(orgId, t), OrgPayload(db[src], orgId, t)), orgId, s, t)
  }

  /** The store after a committed run on an existing source org user. */
  function OrgMerge(db: Db, orgId: string, s: string, t: string, noDelete: bool): Db
    requires OrgUser(orgId, s) in db
  {
    var db3 := BeforeCascade(db, orgId, s, t);
    if noDelete then db3 else CascadeDelete(db3, OrgUser(orgId, s))
  }

  /** The writes of the lookup step, in order: the target lookup's
      replacement, then the source lookup's deletion if it existed. */
  function LookupWrites(db: Db, orgId: string, s: string, t: string): seq<seq<Op>>
  {
    [[Write(["users", t], TargetLookup(db, orgId, s, t), false)]] +
    (if ["users", s] in db then [[Remove(["users", s])]] else [])
  }

  /** The entries `w` appear in `log`, one after the other, from index `i`. */
  ghost predicate WrittenAt(log: seq<seq<Op>>, w: seq<seq<Op>>, i: nat)
  {
    i + |w| <= |log| && log[i..i + |w|] == w
  }

  /** The lookup step: read both lookups, replace the target's, then delete
      the source's if it existed. */
  method RebuildLookups(store: Store, orgId: string, s: string, t: string)
    modifies store
    ensures store.docs == LookupRebuilt(old(store.docs), orgId, s, t)
    ensures store.log == old(store.log) + LookupWrites(old(store.docs), orgId, s, t)
    ensures GrewWithin(old(store.log), store.log)
  {
    var sourceLookup := LookupOf(store.docs, s);
    var targetLookup := LookupOf(store.docs, t);
    var sourceLookupExists := ["users", s] in store.docs;
    var email := Or(Or(Get(targetLookup, "email"), Get(sourceLookup, "email")), Str(""));
    var lookup := map["organizationId" := Str(orgId), "userId" := Str(t), "email" := email];
    assert lookup == TargetLookup(store.docs, orgId, s, t);
    store.SetDoc(["users", t], lookup, false);
    if sourceLookupExists {
      store.DeleteDoc(["users", s]);
    }
    assert store.log[..|old(store.log)|] == old(store.log);
  }

  /** `mergeOrgUsers`. A missing source org user throws before any write
      (`ok` false); otherwise a dry run only reads, and a committed run
      leaves the store as `OrgMerge` says, with the lookup writes made in
      their order, one after the other. */
  method MergeOrgUsers(store: Store, orgId: string, s: string, t: string, dryRun: bool, noDelete: bool)
    returns (ok: bool)
    modifies store
    ensures ok <==> OrgUser(orgId, s) in old(store.docs)
    ensures !ok || dryRun ==> store.docs == old(store.docs) && store.log == old(store.log)
    ensures ok && !dryRun ==> store.docs == OrgMerge(old(store.docs), orgId, s, t, noDelete)
    ensures ok && !dryRun ==>
              var w := LookupWrites(old(store.docs), orgId, s, t);
              exists i :: |old(store.log)| <= i && WrittenAt(store.log, w, i)
    ensures GrewWithin(old(store.log), store.log)
  {
    assert GrewWithin(store.log, store.log);
    var src := OrgUser(orgId, s);
    var tgt := OrgUser(orgId, t);
    if src !in store.docs {
      return false;
    }
    ghost var db0 := store.docs;
    var sourceData := store.docs[src];
    if Truthy(Get(sourceData, "userId")) && Get(sourceData, "userId") != Str(t) {
      sourceData := sourceData["userId" := Str(t)];
    }
    if Truthy(Get(sourceData, "organizationId")) && Get(sourceData, "organizationId") != Str(orgId) {
      sourceData := sourceData["organizationId" := Str(orgId)];
    }
    assert sourceData == OrgPayload(db0[src], orgId, t);
    if dryRun {
      MergeAndCopyOf(store, src, tgt, sourceData, true);
    } else {
      CommitOrgMerge(store, orgId, s, t, sourceData, noDelete);
    }
    ok := true;
  }

  /** The writing part of a committed run: merge and copy, rebuild the
      lookups, then the cascade delete unless `--no-delete`. */
  method CommitOrgMerge(store: Store, orgId: string, s: string, t: string, payload: Fields, noDelete: bool)
    requires OrgUser(orgId, s) in store.docs
    requires payload == OrgPayload(store.docs[OrgUser(orgId, s)], orgId, t)
    modifies store
    ensures store.docs == OrgMerge(old(store.docs), orgId, s, t, noDelete)
    ensures var w := LookupWrites(old(store.docs), orgId, s, t);
            exists i :: |old(store.log)| <= i && WrittenAt(store.log, w, i)
    ensures GrewWithin(old(store.log), store.log)
  {
    var src := OrgUser(orgId, s);
    var tgt := OrgUser(orgId, t);
    ghost var db0 := store.docs;
    MergeAndCopyOf(store, src, tgt, payload, false);
    LookupsKept(db0, src, tgt, payload, s, t);
    ghost var w := LookupWrites(db0, orgId, s, t);
    assert LookupWrites(store.docs, orgId, s, t) == w;
    ghost var log1 := store.log;
    RebuildLookups(store, orgId, s, t);
    assert store.docs == BeforeCascade(db0, orgId, s, t);
    GrewWithinTrans(old(store.log), log1, store.log);
    ghost var log2 := store.log;
    assert log2 == log1 + w;
    WrittenAfter(log1, w);
    if !noDelete {
      CascadeDeleteOf(store, src);
      GrewWithinTrans(old(store.log), log2, store.log);
      WrittenKept(log2, store.log, w, |log1|);
    }
  }

  lemma WrittenAfter(log: seq<seq<Op>>, w: seq<seq<Op>>)
    ensures WrittenAt(log + w, w, |log|)
  {
    assert (log + w)[|log|..|log| + |w|] == w;
  }

  /** Entries written stay where they are as the log grows. */
  lemma WrittenKept(log: seq<seq<Op>>, more: seq<seq<Op>>, w: seq<seq<Op>>, i: nat)
    requires WrittenAt(log, w, i)
    requires GrewWithin(log, more)
    ensures WrittenAt(more, w, i)
  {
    assert more[..|log|] == log;
    assert more[i..i + |w|] == log[i..i + |w|];
  }

  /** Merging and copying under `organizations` leaves the flat lookups. */
  lemma LookupsKept(db: Db, src: Path, tgt: Path, payload: Fields, s: string, t: string)
    requires |tgt| > 0 && tgt[0] == "organizations"
    ensures var r := MergeAndCopy(db, src, tgt, payload);
            Same(db, r, ["users", s]) && Same(db, r, ["users", t]) &&
            LookupOf(r, s) == LookupOf(db, s) && LookupOf(r, t) == LookupOf(db, t)
  {
    PrefixAt(tgt, ["users", s]);
    PrefixAt(tgt, ["users", t]);
    MergeAndCopyFrame(db, src, tgt, payload, ["users", s]);
    MergeAndCopyFrame(db, src, tgt, payload, ["users", t]);
  }

  /** The usage check, the source check and the run. */
  method MergeOrgMain(store: Store, args: seq<string>) returns (exitCode: nat)
    modifies store
    ensures var o := LastValue(args, OrgIdFlag);
            var s := LastValue(args, SourceFlag);
            var t := LastValue(args, TargetFlag);
            if Missing(o) || Missing(s) || Missing(t) || OrgUser(o.value, s.value) !in old(store.docs) then
              exitCode == 1 && store.docs == old(store.docs) && store.log == old(store.log)
            else
              exitCode == 0 &&
              store.docs == if "--dry-run" in args then old(store.docs)
                            else OrgMerge(old(store.docs), o.value, s.value, t.value, "--no-delete" in args)
    ensures GrewWithin(old(store.log), store.log)
  {
    assert GrewWithin(store.log, store.log);
    var opts := ParseArgs(args);
    if Missing(opts.orgId) || Missing(opts.sourceUserId) || Missing(opts.targetUserId) {
      return 1;
    }
    var ok := MergeOrgUsers(store, opts.orgId.value, opts.sourceUserId.value, opts.targetUserId.value,
                            opts.dryRun, opts.noDelete);
    exitCode := if ok then 0 else 1;
  }

  // ---------------------------------------------------------------------
  // What a committed run does, for a source distinct from the target

  /** Before the cascade, the source's subtree is as it was. */
  lemma BeforeCascadeKeepsSource(db: Db, orgId: string, s: string, t: string, p: Path)
    requires OrgUser(orgId, s) in db && s != t
    requires IsPrefix(OrgUser(orgId, s), p)
    ensures Same(db, BeforeCascade(db, orgId, s, t), p)
  {
    var src := OrgUser(orgId, s);
    var tgt := OrgUser(orgId, t);
    SameDepthApart(src, tgt);
    ApartSubtrees(src, tgt, p);
    MergeAndCopyFrame(db, src, tgt, OrgPayload(db[src], orgId, t), p);
    PrefixAt(src, p);
  }

  /** Before the cascade, the lookups are rebuilt from the initial ones. */
  lemma BeforeCascadeLookups(db: Db, orgId: string, s: string, t: string)
    requires OrgUser(orgId, s) in db
    ensures var db3 := BeforeCascade(db, orgId, s, t);
            ["users", s] in db ==> ["users", s] !in db3
    ensures s != t ==> var db3 := BeforeCascade(db, orgId, s, t);
            ["users", t] in db3 && db3[["users", t]] == TargetLookup(db, orgId, s, t) && ["users", s] !in db3
  {
    var src := OrgUser(orgId, s);
    var tgt := OrgUser(orgId, t);
    var payload := OrgPayload(db[src], orgId, t);
    LookupsKept(db, src, tgt, payload, s, t);
    assert TargetLookup(MergeAndCopy(db, src, tgt, payload), orgId, s, t) == TargetLookup(db, orgId, s, t);
  }

  lemma OrgMergeTarget(db: Db, orgId: string, s: string, t: string, noDelete: bool)
    requires OrgUser(orgId, s) in db && s != t
    ensures var r := OrgMerge(db, orgId, s, t, noDelete); var tgt := OrgUser(orgId, t);
            tgt in r && r[tgt] == Merged(db, tgt, OrgPayload(db[OrgUser(orgId, s)], orgId, t))
  {
    var src := OrgUser(orgId, s);
    var tgt := OrgUser(orgId, t);
    var payload := OrgPayload(db[src], orgId, t);
    MergeAndCopyTarget(db, src, tgt, payload);
    CascadeSparesTarget(BeforeCascade(db, orgId, s, t), src, tgt);
  }

  /** Conservation: every document of every sub-collection of the source
      org user is merged, same collection and id, under the target. */
  lemma OrgMergeConserves(db: Db, orgId: string, s: string, t: string, noDelete: bool)
    requires OrgUser(orgId, s) in db && s != t
    ensures var r := OrgMerge(db, orgId, s, t, noDelete);
            forall c, id :: OrgUser(orgId, s) + [c, id] in db ==>
              var p := OrgUser(orgId, t) + [c, id];
              p in r && r[p] == Merged(db, p, db[OrgUser(orgId, s) + [c, id]])
  {
    forall c, id | OrgUser(orgId, s) + [c, id] in db
      ensures var p := OrgUser(orgId, t) + [c, id];
              p in OrgMerge(db, orgId, s, t, noDelete) &&
              OrgMerge(db, orgId, s, t, noDelete)[p] == Merged(db, p, db[OrgUser(orgId, s) + [c, id]])
    {
      OrgMergeConservesAt(db, orgId, s, t, noDelete, c, id);
    }
  }

  /** One sub-collection document of the source, followed through the run. */
  lemma OrgMergeConservesAt(db: Db, orgId: string, s: string, t: string, noDelete: bool, c: string, id: string)
    requires OrgUser(orgId, s) in db && s != t && OrgUser(orgId, s) + [c, id] in db
    ensures var r := OrgMerge(db, orgId, s, t, noDelete); var p := OrgUser(orgId, t) + [c, id];
            p in r && r[p] == Merged(db, p, db[OrgUser(orgId, s) + [c, id]])
  {
    var src := OrgUser(orgId, s);
    var tgt := OrgUser(orgId, t);
    var p := tgt + [c, id];
    var db2 := MergeAndCopy(db, src, tgt, OrgPayload(db[src], orgId, t));
    var db3 := BeforeCascade(db, orgId, s, t);
    SameDepthApart(src, tgt);
    MergeAndCopyConserves(db, src, tgt, OrgPayload(db[src], orgId, t), c, id);
    assert p[0] == "organizations";
    assert Same(db2, db3, p);
    CascadeSparesTarget(db3, src, tgt);
  }


  /** The flat lookups after a committed run: `users/{t}` holds exactly the
      rebuilt lookup, and `users/{s}` is gone, whatever `--no-delete` says. */
  lemma OrgMergeLookups(db: Db, orgId: string, s: string, t: string, noDelete: bool)
    requires OrgUser(orgId, s) in db && s != t
    ensures var r := OrgMerge(db, orgId, s, t, noDelete);
            ["users", t] in r && r[["users", t]] == TargetLookup(db, orgId, s, t) && ["users", s] !in r
  {
    var src := OrgUser(orgId, s);
    BeforeCascadeLookups(db, orgId, s, t);
    CascadeDeleteEffect(BeforeCascade(db, orgId, s, t), src);
    PrefixAt(src, ["users", t]);
  }

  /** With deletion on, the source org user and every document of its
      sub-collections are gone; with `--no-delete` they are untouched. */
  lemma OrgMergeSource(db: Db, orgId: string, s: string, t: string, noDelete: bool)
    requires OrgUser(orgId, s) in db && s != t
    ensures var r := OrgMerge(db, orgId, s, t, noDelete); var src := OrgUser(orgId, s);
            (!noDelete ==> src !in r && forall c, id :: src + [c, id] !in r) &&
            (noDelete ==> Same(db, r, src) && forall c, id :: Same(db, r, src + [c, id]))
  {
    var src := OrgUser(orgId, s);
    if noDelete {
      BeforeCascadeKeepsSource(db, orgId, s, t, src);
      forall c, id
        ensures Same(db, OrgMerge(db, orgId, s, t, noDelete), src + [c, id])
      {
        assert (src + [c, id])[..|src|] == src;
        BeforeCascadeKeepsSource(db, orgId, s, t, src + [c, id]);
      }
    } else {
      CascadeDeleteEffect(BeforeCascade(db, orgId, s, t), src);
    }
  }

  /** Merging a user into itself, as the script allows, loses it: the
      cascade delete removes the freshly merged org user, and an existing
      lookup is deleted right after being rewritten. */
  lemma SelfMergeLosesUser(db: Db, orgId: string, t: string)
    requires OrgUser(orgId, t) in db
    ensures OrgUser(orgId, t) !in OrgMerge(db, orgId, t, t, false)
    ensures ["users", t] in db ==> ["users", t] !in OrgMerge(db, orgId, t, t, false)
    ensures ["users", t] in db ==> ["users", t] !in OrgMerge(db, orgId, t, t, true)
  {
    var src := OrgUser(orgId, t);
    BeforeCascadeLookups(db, orgId, t, t);
    CascadeDeleteEffect(BeforeCascade(db, orgId, t, t), src);
    PrefixAt(src, ["users", t]);
  }
}
