/** The one-off copy of an organization's flat location settings into its
    own `location_settings` collection, stamped with the organization id and
    the migration time. */
module MigrateLocationSettings {
  import opened Firestore
  import opened Args

  function SourceDoc(orgId: string): Path
  {
    ["location_settings", orgId]
  }

  function TargetDoc(orgId: string): Path
  {
    ["organizations", orgId, "location_settings", orgId]
  }

  /** The payload written: a copy of the source's fields to which the
      organization id and a server timestamp are added, the two stamps
      taking precedence over fields of the same name. */
  function SettingsPayload(data: Fields, orgId: string): (f: Fields)
    ensures f.Keys == data.Keys + {"organizationId", "migratedAt"}
    ensures f["organizationId"] == Str(orgId) && f["migratedAt"] == ServerTimestamp
    ensures forall k :: k in data && k != "organizationId" && k != "migratedAt" ==> f[k] == data[k]
  {
    data["organizationId" := Str(orgId)]["migratedAt" := ServerTimestamp]
  }

  /** The store after the copy of an existing source. */
  function SettingsMigrated(db: Db, orgId: string): Db
    requires SourceDoc(orgId) in db
  {
    db[TargetDoc(orgId) := Merged(db, TargetDoc(orgId), SettingsPayload(db[SourceDoc(orgId)], orgId))]
  }

  /** The script: exit 1 without an organization id; nothing to do when the
      flat settings document is absent; otherwise one merge-set of the
      stamped copy onto the organization's settings document. */
  method MigrateSettingsMain(store: Store, args: seq<string>) returns (exitCode: nat)
    modifies store
    ensures var o := LastValue(args, OrgIdFlag);
            if Missing(o) then
              exitCode == 1 && store.docs == old(store.docs) && store.log == old(store.log)
            else if SourceDoc(o.value) !in old(store.docs) then
              exitCode == 0 && store.docs == old(store.docs) && store.log == old(store.log)
            else
              var payload := SettingsPayload(old(store.docs)[SourceDoc(o.value)], o.value);
              exitCode == 0 && store.docs == SettingsMigrated(old(store.docs), o.value) &&
              store.log == old(store.log) + [[Write(TargetDoc(o.value), payload, true)]]
  {
    var orgId := ParseOrgId(args);
    if Missing(orgId) {
      return 1;
    }
    var o := orgId.value;
    if SourceDoc(o) !in store.docs {
      return 0;
    }
    var data := store.docs[SourceDoc(o)];
    store.SetDoc(TargetDoc(o), SettingsPayload(data, o), true);
    exitCode := 0;
  }

  /** What the copy does: the target holds every source field (the stamps
      win over same-named source fields), keeps its own fields the source
      lacks, and nothing else in the store changes, the source included. */
  lemma SettingsMigratedEffect(db: Db, orgId: string)
    requires SourceDoc(orgId) in db
    ensures var r := SettingsMigrated(db, orgId); var t := TargetDoc(orgId); var src := db[SourceDoc(orgId)];
            t in r &&
            r[t]["organizationId"] == Str(orgId) && r[t]["migratedAt"] == ServerTimestamp &&
            (forall k :: k in src && k != "organizationId" && k != "migratedAt" ==> r[t][k] == src[k]) &&
            (forall k :: t in db && k in db[t] && k !in src && k != "organizationId" && k != "migratedAt" ==>
               r[t][k] == db[t][k]) &&
            r[t].Keys == (if t in db then db[t].Keys else {}) + src.Keys + {"organizationId", "migratedAt"} &&
            (forall p :: p != t ==> Same(db, r, p)) &&
            SourceDoc(orgId) in r && r[SourceDoc(orgId)] == src
  {
  }

  /** Running the copy twice leaves the same store as once: the payload
      already overrides the target, and the server-time marker is one value
      in this model. */
  lemma SettingsMigratedIdempotent(db: Db, orgId: string)
    requires SourceDoc(orgId) in db
    ensures var once := SettingsMigrated(db, orgId);
            SourceDoc(orgId) in once && SettingsMigrated(once, orgId) == once
  {
    var once := SettingsMigrated(db, orgId);
    var t := TargetDoc(orgId);
    assert SourceDoc(orgId) != t;
    var payload := SettingsPayload(db[SourceDoc(orgId)], orgId);
    assert once[t] == Merged(db, t, payload);
    assert Merged(once, t, payload) == once[t] by {
      assert (Merged(db, t, payload) + payload) == Merged(db, t, payload);
    }
  }
}
