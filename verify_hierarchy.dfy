/** The integrity report for one organization: how many documents each of
    its collections holds, a look at its first users, a preview of its
    location settings and a check of the shape of the flat user lookups.
    The report only reads the store. */
module VerifyHierarchy {
  import opened Order
  import opened Firestore
  import opened Args
  import MigrateHierarchy

  /** The location-settings line: missing, or the number of documents,
      whether one is keyed by the organization id, the previewed document
      and its first keys. */
  datatype SettingsReport =
    | SettingsMissing
    | SettingsPreview(count: nat, hasOrgIdDoc: bool, docId: string, keys: seq<string>, more: bool)

  /** One sampled user: id, title and whether it has any schedule or leave. */
  datatype UserLine = UserLine(uid: string, title: Value, hasSchedules: bool, hasLeaves: bool)

  /** How a run ends: the usage error (exit 1), an unknown organization
      (exit 2), or the report (exit 0). */
  datatype VerifyOutcome =
    | Usage
    | OrgNotFound
    | Verified(orgUsers: nat, sample: seq<UserLine>, projects: nat, userGroups: nat,
               workLocations: nat, settings: SettingsReport, lookupOk: bool)

  function ExitCode(o: VerifyOutcome): nat
  {
    match o
    case Usage => 1
    case OrgNotFound => 2
    case Verified(_, _, _, _, _, _, _) => 0
  }

  const SampleSize := 10
  const PreviewKeys := 8
  const LookupSample := 5

  function OrgDoc(orgId: string): Path
  {
    ["organizations", orgId]
  }

  function OrgCol(orgId: string, name: string): Path
  {
    ["organizations", orgId, name]
  }

  function OrgUserCol(orgId: string, uid: string, name: string): Path
  {
    ["organizations", orgId, "users", uid, name]
  }

  /** The collection `col` holds at least one document. */
  ghost predicate HasAny(db: Db, col: Path)
  {
    exists id :: col + [id] in db
  }

  /** Reading at most one document of a collection and testing that one
      came back asks whether the collection holds any document. */
  lemma ProbeIsExistence(db: Db, col: Path)
    ensures |Limit(Listing(db, col), 1)| > 0 <==> HasAny(db, col)
  {
    var all := Listing(db, col);
    if HasAny(db, col) {
      var id :| col + [id] in db;
      var i :| 0 <= i < |all| && all[i].id == id;
    }
  }

  /** A user's label: `name` when truthy, else `email` when truthy, else
      the id. */
  function Label(uid: string, data: Fields): (v: Value)
    ensures Truthy(Get(data, "name")) ==> v == data["name"]
    ensures !Truthy(Get(data, "name")) && Truthy(Get(data, "email")) ==> v == data["email"]
    ensures !Truthy(Get(data, "name")) && !Truthy(Get(data, "email")) ==> v == Str(uid)
  {
    Or(Or(Get(data, "name"), Get(data, "email")), Str(uid))
  }

  /** The first document of `docs` whose id is `id`, if any. */
  function FindById(docs: seq<Doc>, id: string): (r: Option<Doc>)
    ensures r.None? <==> forall i :: 0 <= i < |docs| ==> docs[i].id != id
    ensures r.Some? ==> exists i :: 0 <= i < |docs| && docs[i] == r.value && r.value.id == id &&
                                    forall j :: 0 <= j < i ==> docs[j].id != id
  {
    if docs == [] then None
    else if docs[0].id == id then Some(docs[0])
    else
      var r := FindById(docs[1..], id);
      assert forall i :: 0 < i < |docs| ==> docs[i] == docs[1..][i - 1];
      assert r.Some? ==> exists i :: 1 <= i < |docs| && docs[i] == r.value &&
                                     forall j :: 1 <= j < i ==> docs[j].id != id;
      r
  }

  /** The settings document previewed: the one keyed by the organization id
      when there is one, otherwise the first listed. */
  function PreferredSettingsDoc(docs: seq<Doc>, orgId: string): (d: Doc)
    requires docs != []
    ensures d in docs
    ensures (exists i :: 0 <= i < |docs| && docs[i].id == orgId) ==> d.id == orgId
    ensures (forall i :: 0 <= i < |docs| ==> docs[i].id != orgId) ==> d == docs[0]
  {
    match FindById(docs, orgId)
    case Some(d) => d
    case None => docs[0]
  }

  /** The sorted field names of a document, cut to the first eight, and
      whether any were cut. */
  datatype Preview = Preview(keys: seq<string>, more: bool)

  function KeyPreview(data: Fields): (r: Preview)
    ensures |r.keys| == if |data.Keys| < PreviewKeys then |data.Keys| else PreviewKeys
    ensures Increasing(r.keys)
    ensures forall k :: k in r.keys ==> k in data
    ensures r.more <==> |data.Keys| > PreviewKeys
  {
    var sorted := SortedSeq(data.Keys);
    if |sorted| <= PreviewKeys then Preview(sorted, false)
    else Preview(sorted[..PreviewKeys], true)
  }

  /** The keys shown are the smallest ones: every key left out sorts after
      every key shown. */
  lemma KeyPreviewSmallest(data: Fields)
    ensures var keys := KeyPreview(data).keys;
            forall k, i :: k in data && k !in keys && 0 <= i < |keys| ==> Less(keys[i], k)
  {
    var sorted := SortedSeq(data.Keys);
    var keys := KeyPreview(data).keys;
    assert keys == sorted[..|keys|];
    forall k, i | k in data && k !in keys && 0 <= i < |keys|
      ensures Less(keys[i], k)
    {
      assert k in sorted;
      var j :| 0 <= j < |sorted| && sorted[j] == k;
      assert forall m :: 0 <= m < |keys| ==> keys[m] == sorted[m];
    }
  }

  /** The location-settings line for the organization. */
  function SettingsSummary(db: Db, orgId: string): SettingsReport
  {
    var docs := Listing(db, OrgCol(orgId, "location_settings"));
    if docs == [] then SettingsMissing
    else
      var hasOrgIdDoc := exists i :: 0 <= i < |docs| && docs[i].id == orgId;
      var d := PreferredSettingsDoc(docs, orgId);
      var preview := KeyPreview(d.data);
      SettingsPreview(|docs|, hasOrgIdDoc, d.id, preview.keys, preview.more)
  }

  /** The settings line is "missing" exactly when the collection is empty;
      otherwise it counts the documents, says whether one is keyed by the
      organization id, and previews that one when it exists, an existing
      one in any case. */
  lemma SettingsSummaryMeaning(db: Db, orgId: string)
    ensures var r := SettingsSummary(db, orgId); var col := OrgCol(orgId, "location_settings");
            (r.SettingsMissing? <==> !HasAny(db, col)) &&
            (r.SettingsPreview? ==>
               r.count == |ChildIds(db, col)| &&
               (r.hasOrgIdDoc <==> col + [orgId] in db) &&
               col + [r.docId] in db &&
               (col + [orgId] in db ==> r.docId == orgId) &&
               r.keys == KeyPreview(db[col + [r.docId]]).keys && r.more == KeyPreview(db[col + [r.docId]]).more)
  {
    var col := OrgCol(orgId, "location_settings");
    var docs := Listing(db, col);
    if docs != [] {
      assert col + [docs[0].id] in db;
      PreviewedDoc(db, orgId, docs);
    }
  }

  lemma PreviewedDoc(db: Db, orgId: string, docs: seq<Doc>)
    requires docs == Listing(db, OrgCol(orgId, "location_settings")) && docs != []
    ensures var col := OrgCol(orgId, "location_settings"); var d := PreferredSettingsDoc(docs, orgId);
            col + [d.id] in db && d.data == db[col + [d.id]] &&
            ((exists i :: 0 <= i < |docs| && docs[i].id == orgId) <==> col + [orgId] in db) &&
            (col + [orgId] in db ==> d.id == orgId)
  {
    var col := OrgCol(orgId, "location_settings");
    if col + [orgId] in db {
      var i :| 0 <= i < |docs| && docs[i].id == orgId;
    }
    var d := PreferredSettingsDoc(docs, orgId);
    var i :| 0 <= i < |docs| && docs[i] == d;
  }

  /** The flat lookup carries a truthy organization id, email and user id. */
  predicate LookupShapeOk(data: Fields)
  {
    Truthy(Get(data, "organizationId")) && Truthy(Get(data, "email")) && Truthy(Get(data, "userId"))
  }

  /** A flat lookup written by the hierarchy migration passes the shape
      check exactly when the user it replaced had a truthy organization id
      and email and a non-empty id. */
  lemma MigratedLookupShape(u: Doc)
    ensures LookupShapeOk(MigrateHierarchy.LookupData(u)) <==>
            Truthy(Get(u.data, "organizationId")) && Truthy(Get(u.data, "email")) && u.id != ""
  {
  }

  /** A flat lookup of the organization: a stored `users` document whose
      `organizationId` is the organization's id. */
  ghost predicate IsOrgLookup(db: Db, orgId: string, d: Doc)
  {
    ["users", d.id] in db && db[["users", d.id]] == d.data && Get(d.data, "organizationId") == Str(orgId)
  }

  /** The flat lookups checked: the first five `users` documents whose
      `organizationId` is the organization's. */
  function LookupSampleOf(db: Db, orgId: string): seq<Doc>
  {
    Limit(Where(db, ["users"], "organizationId", Str(orgId)), LookupSample)
  }

  /** The sample holds at most five of the organization's lookups, in id
      order, the ones with the smallest ids; all of them when there are
      fewer than five. */
  lemma LookupSampleMeaning(db: Db, orgId: string)
    ensures var r := LookupSampleOf(db, orgId);
            |r| <= LookupSample &&
            (forall d :: d in r ==> IsOrgLookup(db, orgId, d)) &&
            IdsIncreasing(r) &&
            (|r| < LookupSample ==> forall d :: IsOrgLookup(db, orgId, d) ==> d in r) &&
            (forall d, i :: IsOrgLookup(db, orgId, d) && d !in r && 0 <= i < |r| ==> Less(r[i].id, d.id))
  {
    var all := Where(db, ["users"], "organizationId", Str(orgId));
    var r := LookupSampleOf(db, orgId);
    assert forall id :: ["users"] + [id] == ["users", id];
    assert r == all[..|r|];
    assert forall i :: 0 <= i < |r| ==> r[i] == all[i];
    forall d | d in r
      ensures IsOrgLookup(db, orgId, d)
    {
      var i :| 0 <= i < |r| && r[i] == d;
      assert all[i] == d;
    }
    forall d, i | IsOrgLookup(db, orgId, d) && d !in r && 0 <= i < |r|
      ensures Less(r[i].id, d.id)
    {
      assert d in all;
      var j :| 0 <= j < |all| && all[j] == d;
      if j < |r| {
        assert r[j] == d;
      }
    }
  }

  /** The one-document probe of collection `col`. */
  function Probe(db: Db, col: Path): (b: bool)
    ensures b <==> HasAny(db, col)
  {
    ProbeIsExistence(db, col);
    |Limit(Listing(db, col), 1)| > 0
  }

  /** What the line printed for `user` says: its id, its label, and whether
      it has any schedule and any leave. */
  ghost predicate DescribesUser(db: Db, orgId: string, user: Doc, l: UserLine)
  {
    && l.uid == user.id
    && l.title == Label(user.id, user.data)
    && (l.hasSchedules <==> HasAny(db, OrgUserCol(orgId, user.id, "schedules")))
    && (l.hasLeaves <==> HasAny(db, OrgUserCol(orgId, user.id, "leaves")))
  }

  /** One iteration of the sample loop: the label and two one-document
      probes. */
  method DescribeUser(db: Db, orgId: string, user: Doc) returns (line: UserLine)
    ensures DescribesUser(db, orgId, user, line)
  {
    var uid := user.id;
    var data := user.data;
    var hasSchedules := Probe(db, OrgUserCol(orgId, uid, "schedules"));
    var hasLeaves := Probe(db, OrgUserCol(orgId, uid, "leaves"));
    line := UserLine(uid, Label(uid, data), hasSchedules, hasLeaves);
  }

  /** The sample loop over `sample`, the first ten listed users of the
      organization: one line per user. */
  method SampleUsers(db: Db, orgId: string, sample: seq<Doc>) returns (lines: seq<UserLine>)
    ensures |lines| == |sample|
    ensures forall i :: 0 <= i < |sample| ==> DescribesUser(db, orgId, sample[i], lines[i])
  {
    lines := [];
    var checked := 0;
    for i := 0 to |sample|
      invariant |lines| == i && checked == i
      invariant forall j :: 0 <= j < i ==> DescribesUser(db, orgId, sample[j], lines[j])
    {
      var line := DescribeUser(db, orgId, sample[i]);
      lines := lines + [line];
      checked := checked + 1;
    }
  }

  /** The lookup loop over the sampled lookups: the flag starts true and is
      cleared by any lookup missing one of its three fields. */
  method CheckLookups(top: seq<Doc>) returns (okLookup: bool)
    ensures okLookup <==> forall d :: d in top ==> LookupShapeOk(d.data)
  {
    okLookup := true;
    for i := 0 to |top|
      invariant okLookup <==> forall j :: 0 <= j < i ==> LookupShapeOk(top[j].data)
    {
      var d := top[i].data;
      if !Truthy(Get(d, "organizationId")) || !Truthy(Get(d, "email")) || !Truthy(Get(d, "userId")) {
        okLookup := false;
      }
    }
  }

  /** The sample of the report: one line for each of the first ten users
      listed under the organization. */
  ghost predicate SampleOf(db: Db, orgId: string, lines: seq<UserLine>)
  {
    var users := Listing(db, OrgCol(orgId, "users"));
    && |lines| == (if |users| < SampleSize then |users| else SampleSize)
    && forall i :: 0 <= i < |lines| ==> DescribesUser(db, orgId, users[i], lines[i])
  }

  method SampleOrgUsers(db: Db, orgId: string) returns (lines: seq<UserLine>)
    ensures SampleOf(db, orgId, lines)
  {
    var users := Listing(db, OrgCol(orgId, "users"));
    var firstUsers := Limit(users, SampleSize);
    lines := SampleUsers(db, orgId, firstUsers);
    assert forall i :: 0 <= i < |firstUsers| ==> firstUsers[i] == users[i];
  }

  /** The report on an existing organization: the document counts of its
      collections, one line for each of its first ten users, the settings
      line and the lookup flag. */
  ghost predicate ReportOf(db: Db, orgId: string, outcome: VerifyOutcome)
  {
    && outcome.Verified?
    && outcome.orgUsers == |ChildIds(db, OrgCol(orgId, "users"))|
    && outcome.projects == |ChildIds(db, OrgCol(orgId, "projects"))|
    && outcome.userGroups == |ChildIds(db, OrgCol(orgId, "user_groups"))|
    && outcome.workLocations == |ChildIds(db, OrgCol(orgId, "work_locations"))|
    && outcome.settings == SettingsSummary(db, orgId)
    && (outcome.lookupOk <==> forall d :: d in LookupSampleOf(db, orgId) ==> LookupShapeOk(d.data))
    && SampleOf(db, orgId, outcome.sample)
  }

  /** The body of the script once the organization is known to exist. */
  method Report(db: Db, orgId: string) returns (outcome: VerifyOutcome)
    ensures ReportOf(db, orgId, outcome)
  {
    var users := Listing(db, OrgCol(orgId, "users"));
    var sample := SampleOrgUsers(db, orgId);
    var projects := Listing(db, OrgCol(orgId, "projects"));
    var groups := Listing(db, OrgCol(orgId, "user_groups"));
    var workLocations := Listing(db, OrgCol(orgId, "work_locations"));
    var settings := SettingsSummary(db, orgId);
    var okLookup := CheckLookups(LookupSampleOf(db, orgId));
    outcome := Verified(|users|, sample, |projects|, |groups|, |workLocations|, settings, okLookup);
  }

  /** The script. Exit 1 without an organization id, 2 when the
      organization does not exist; otherwise the report, and exit 0. */
  method VerifyMain(store: Store, args: seq<string>) returns (outcome: VerifyOutcome)
    ensures var o := LastValue(args, OrgIdFlag);
            if Missing(o) then outcome == Usage
            else if OrgDoc(o.value) !in store.docs then outcome == OrgNotFound
            else ReportOf(store.docs, o.value, outcome)
    ensures var o := LastValue(args, OrgIdFlag);
            ExitCode(outcome) == if Missing(o) then 1 else if OrgDoc(o.value) !in store.docs then 2 else 0
  {
    var orgId := ParseOrgId(args);
    if Missing(orgId) {
      return Usage;
    }
    var o := orgId.value;
    if OrgDoc(o) !in store.docs {
      return OrgNotFound;
    }
    outcome := Report(store.docs, o);
  }
}
