/** The duplicate scan: the organization's users are grouped by lower-cased
    email, in the order the emails first appear, and every group of more
    than one user under a non-empty email is reported. The scan only reads
    the store. */
module ScanDuplicateOrgUsers {
  import opened Order
  import opened Firestore
  import opened Args

  /** One scanned user: id, grouping key and display name. */
  datatype Entry = Entry(id: string, email: string, name: Value)

  /** A reported group: the shared key and its users, in scan order. */
  datatype DupGroup = DupGroup(email: string, members: seq<Entry>)

  /** What a run ends with: the usage error (exit 1), a failure because
      some email is not a string (lower-casing it throws, exit 1), no users,
      or the report with its count. */
  datatype ScanOutcome = Usage | EmailNotText | NoUsers | Report(groups: seq<DupGroup>, dupCount: nat)

  function LowerChar(c: char): char
  {
    if 'A' <= c <= 'Z' then (c as int + 32) as char else c
  }

  /** Lower-casing, on ASCII letters: no capital is left, every other
      character stays, and a capital becomes the letter 32 code points
      further on. */
  function Lower(s: string): (r: string)
    ensures |r| == |s|
    ensures forall i :: 0 <= i < |r| ==> !('A' <= r[i] <= 'Z')
    ensures forall i :: 0 <= i < |s| && !('A' <= s[i] <= 'Z') ==> r[i] == s[i]
    ensures forall i :: 0 <= i < |s| && 'A' <= s[i] <= 'Z' ==> r[i] as int == s[i] as int + 32
  {
    seq(|s|, i requires 0 <= i < |s| => LowerChar(s[i]))
  }

  /** Lower-casing twice is lower-casing once, so keys are stable. */
  lemma LowerIdempotent(s: string)
    ensures Lower(Lower(s)) == Lower(s)
  {
    var r := Lower(s);
    assert forall i :: 0 <= i < |r| ==> Lower(r)[i] == r[i];
  }

  /** The grouping key: the lower-cased email, the empty key when the email
      is falsy, or None when it is truthy but not a string (lower-casing
      then throws). */
  function EmailKey(data: Fields): (k: Option<string>)
    ensures !Truthy(Get(data, "email")) ==> k == Some("")
    ensures Get(data, "email").Str? ==> k == Some(Lower(Get(data, "email").s))
    ensures k.None? <==> Truthy(Get(data, "email")) && !Get(data, "email").Str?
  {
    match Or(Get(data, "email"), Str(""))
    case Str(s) => Some(Lower(s))
    case _ => None
  }

  /** The display name: `name` when truthy, else `displayName` when truthy,
      else the empty string. */
  function DisplayName(data: Fields): (v: Value)
    ensures Truthy(Get(data, "name")) ==> v == data["name"]
    ensures !Truthy(Get(data, "name")) && Truthy(Get(data, "displayName")) ==> v == data["displayName"]
    ensures !Truthy(Get(data, "name")) && !Truthy(Get(data, "displayName")) ==> v == Str("")
  {
    Or(Or(Get(data, "name"), Get(data, "displayName")), Str(""))
  }

  /** The entries of the scanned documents, or None if one of them throws. */
  function EntriesOf(docs: seq<Doc>): Option<seq<Entry>>
    decreases |docs|
  {
    if docs == [] then Some([])
    else
      match EntriesOf(docs[..|docs| - 1])
      case None => None
      case Some(es) =>
        var d := docs[|docs| - 1];
        match EmailKey(d.data)
        case None => None
        case Some(k) => Some(es + [Entry(d.id, k, DisplayName(d.data))])
  }

  /** One more document: the scan so far, extended by its entry or failed. */
  lemma EntriesOfStep(docs: seq<Doc>, i: nat)
    requires i < |docs|
    ensures EntriesOf(docs[..i + 1]) ==
              match EntriesOf(docs[..i])
              case None => None
              case Some(es) =>
                match EmailKey(docs[i].data)
                case None => None
                case Some(k) => Some(es + [Entry(docs[i].id, k, DisplayName(docs[i].data))])
  {
    assert docs[..i + 1][..i] == docs[..i];
  }

  /** The scan fails exactly when some document's email is truthy but not a
      string; otherwise it yields one entry per document, in order, keyed by
      the lower-cased email. */
  lemma {:induction false} EntriesOfExact(docs: seq<Doc>)
    ensures EntriesOf(docs).None? <==> exists i :: 0 <= i < |docs| && EmailKey(docs[i].data).None?
    ensures EntriesOf(docs).Some? ==>
              var es := EntriesOf(docs).value;
              |es| == |docs| &&
              forall i :: 0 <= i < |docs| ==>
                EmailKey(docs[i].data) == Some(es[i].email) && es[i].id == docs[i].id &&
                es[i].name == DisplayName(docs[i].data)
    decreases |docs|
  {
    if docs != [] {
      var n := |docs| - 1;
      var init := docs[..n];
      EntriesOfExact(init);
      EntriesOfStep(docs, n);
      assert docs[..n + 1] == docs;
      assert forall i :: 0 <= i < n ==> init[i] == docs[i];
      if EntriesOf(init).None? {
        var j :| 0 <= j < n && EmailKey(init[j].data).None?;
        assert EmailKey(docs[j].data).None?;
      }
    }
  }

  /** The distinct keys of `es`, in order of first appearance: the order in
      which the `Map` receives them. */
  function KeysInOrder(es: seq<Entry>): seq<string>
    decreases |es|
  {
    if es == [] then []
    else
      var ks := KeysInOrder(es[..|es| - 1]);
      var k := es[|es| - 1].email;
      if k in ks then ks else ks + [k]
  }

  /** The entries with key `k`, in order. */
  function Group(es: seq<Entry>, k: string): seq<Entry>
    decreases |es|
  {
    if es == [] then []
    else Group(es[..|es| - 1], k) + (if es[|es| - 1].email == k then [es[|es| - 1]] else [])
  }

  /** The reported groups among the keys `keys`, in that order. */
  function DupGroups(es: seq<Entry>, keys: seq<string>): seq<DupGroup>
    decreases |keys|
  {
    if keys == [] then []
    else
      var k := keys[|keys| - 1];
      DupGroups(es, keys[..|keys| - 1]) + (if k != "" && |Group(es, k)| > 1 then [DupGroup(k, Group(es, k))] else [])
  }

  function Reported(es: seq<Entry>): seq<DupGroup>
  {
    DupGroups(es, KeysInOrder(es))
  }

  function OrgUsersCol(orgId: string): Path
  {
    ["organizations", orgId, "users"]
  }

  /** The script: `byEmail` and its key order are built in one pass over
      the users, then the groups are walked in key order and counted. */
  method ScanMain(store: Store, args: seq<string>) returns (outcome: ScanOutcome)
    ensures var o := LastValue(args, OrgIdFlag);
            if Missing(o) then outcome == Usage
            else
              var docs := Listing(store.docs, OrgUsersCol(o.value));
              if docs == [] then outcome == NoUsers
              else if EntriesOf(docs).None? then outcome == EmailNotText
              else outcome == Report(Reported(EntriesOf(docs).value), |Reported(EntriesOf(docs).value)|)
  {
    var orgId := ParseOrgId(args);
    if Missing(orgId) {
      return Usage;
    }
    var docs := Listing(store.docs, OrgUsersCol(orgId.value));
    if docs == [] {
      return NoUsers;
    }
    var ok, byEmail, order := GroupByEmail(docs);
    if !ok {
      return EmailNotText;
    }
    var groups, dupCount := ReportGroups(byEmail, order, EntriesOf(docs).value);
    outcome := Report(groups, dupCount);
  }

  /** The first loop: `byEmail` maps each key to its users, `order` lists
      the keys as the `Map` keeps them; fails as soon as an email is not a
      string. */
  method GroupByEmail(docs: seq<Doc>) returns (ok: bool, byEmail: map<string, seq<Entry>>, order: seq<string>)
    ensures ok <==> EntriesOf(docs).Some?
    ensures ok ==> order == KeysInOrder(EntriesOf(docs).value)
    ensures ok ==> forall k :: k in byEmail <==> k in order
    ensures ok ==> forall k :: k in byEmail ==> byEmail[k] == Group(EntriesOf(docs).value, k)
  {
    byEmail := map[];
    order := [];
    ghost var es: seq<Entry> := [];
    for i := 0 to |docs|
      invariant EntriesOf(docs[..i]) == Some(es)
      invariant order == KeysInOrder(es)
      invariant forall k :: k in byEmail <==> k in order
      invariant forall k :: k in byEmail ==> byEmail[k] == Group(es, k)
    {
      EntriesOfStep(docs, i);
      var data := docs[i].data;
      var raw := Or(Get(data, "email"), Str(""));
      if !raw.Str? {
        FailureSticks(docs, i + 1);
        return false, byEmail, order;
      }
      var email := Lower(raw.s);
      var entry := Entry(docs[i].id, email, DisplayName(data));
      var arr := if email in byEmail then byEmail[email] else [];
      byEmail := byEmail[email := arr + [entry]];
      KeysSnoc(es, entry);
      GroupSnocAll(es, entry);
      if email !in order {
        order := order + [email];
        AbsentKeyGroup(es, email);
      }
      es := es + [entry];
    }
    assert docs[..|docs|] == docs;
    ok := true;
  }

  /** The second loop: the groups of more than one user under a non-empty
      key, in key order, and their number. */
  method ReportGroups(byEmail: map<string, seq<Entry>>, order: seq<string>, ghost es: seq<Entry>)
    returns (groups: seq<DupGroup>, dupCount: nat)
    requires forall k :: k in order ==> k in byEmail && byEmail[k] == Group(es, k)
    ensures groups == DupGroups(es, order) && dupCount == |groups|
  {
    groups := [];
    dupCount := 0;
    for j := 0 to |order|
      invariant groups == DupGroups(es, order[..j])
      invariant dupCount == |groups|
    {
      assert order[..j + 1][..j] == order[..j];
      var email := order[j];
      var arr := byEmail[email];
      if email != "" && |arr| > 1 {
        groups := groups + [DupGroup(email, arr)];
        dupCount := dupCount + 1;
      }
    }
    assert order[..|order|] == order;
  }

  lemma GroupOutside(es: seq<Entry>, k: string)
    requires forall e :: e in es ==> e.email != k
    ensures Group(es, k) == []
  {
    if es != [] {
      assert forall e :: e in es[..|es| - 1] ==> e in es;
      GroupOutside(es[..|es| - 1], k);
    }
  }

  /** Once a prefix throws, the whole scan throws. */
  lemma {:induction false} FailureSticks(docs: seq<Doc>, n: nat)
    requires n <= |docs| && EntriesOf(docs[..n]).None?
    ensures EntriesOf(docs).None?
    decreases |docs| - n
  {
    if n == |docs| {
      assert docs[..n] == docs;
    } else {
      EntriesOfStep(docs, n);
      FailureSticks(docs, n + 1);
    }
  }

  /** A key not yet seen has an empty group. */
  lemma AbsentKeyGroup(es: seq<Entry>, k: string)
    requires k !in KeysInOrder(es)
    ensures Group(es, k) == []
  {
    KeysInOrderExact(es);
    forall e | e in es
      ensures e.email != k
    {
      var x :| 0 <= x < |es| && es[x] == e;
    }
    GroupOutside(es, k);
  }

  lemma GroupSnocAll(es: seq<Entry>, e: Entry)
    ensures forall k :: Group(es + [e], k) == Group(es, k) + (if e.email == k then [e] else [])
  {
    forall k
      ensures Group(es + [e], k) == Group(es, k) + (if e.email == k then [e] else [])
    {
      GroupSnoc(es, e, k);
    }
  }

  // ---------------------------------------------------------------------
  // Properties of the grouping

  /** The keys are exactly the emails present, each listed once. */
  lemma {:induction false} KeysInOrderExact(es: seq<Entry>)
    ensures forall k :: k in KeysInOrder(es) <==> exists i :: 0 <= i < |es| && es[i].email == k
    ensures forall i, j :: 0 <= i < j < |KeysInOrder(es)| ==> KeysInOrder(es)[i] != KeysInOrder(es)[j]
    decreases |es|
  {
    if es != [] {
      var init := es[..|es| - 1];
      KeysInOrderExact(init);
      assert forall i :: 0 <= i < |init| ==> init[i] == es[i];
      forall k | exists i :: 0 <= i < |es| && es[i].email == k
        ensures k in KeysInOrder(es)
      {
        var i :| 0 <= i < |es| && es[i].email == k;
        if i < |init| {
          assert init[i].email == k;
        }
      }
    }
  }

  /** A group holds exactly the entries with its key. */
  lemma {:induction false} GroupExact(es: seq<Entry>, k: string)
    ensures forall e :: e in Group(es, k) <==> e in es && e.email == k
    decreases |es|
  {
    if es != [] {
      var init := es[..|es| - 1];
      GroupExact(init, k);
      assert es == init + [es[|es| - 1]];
    }
  }

  /** Sizes of the groups of `keys`. */
  function SumSizes(es: seq<Entry>, keys: seq<string>): nat
    decreases |keys|
  {
    if keys == [] then 0 else SumSizes(es, keys[..|keys| - 1]) + |Group(es, keys[|keys| - 1])|
  }

  lemma {:induction false} SumSizesSnoc(es: seq<Entry>, e: Entry, keys: seq<string>)
    ensures SumSizes(es + [e], keys) == SumSizes(es, keys) + Count(keys, e.email)
    decreases |keys|
  {
    if keys != [] {
      SumSizesSnoc(es, e, keys[..|keys| - 1]);
      assert (es + [e])[..|es|] == es;
    }
  }

  /** How often `k` occurs in `keys`. */
  function Count(keys: seq<string>, k: string): nat
    decreases |keys|
  {
    if keys == [] then 0 else Count(keys[..|keys| - 1], k) + (if keys[|keys| - 1] == k then 1 else 0)
  }

  lemma {:induction false} CountAbsent(keys: seq<string>, k: string)
    requires k !in keys
    ensures Count(keys, k) == 0
    decreases |keys|
  {
    if keys != [] {
      assert forall x :: x in keys[..|keys| - 1] ==> x in keys;
      CountAbsent(keys[..|keys| - 1], k);
    }
  }

  lemma {:induction false} CountOnce(keys: seq<string>, k: string)
    requires k in keys
    requires forall i, j :: 0 <= i < j < |keys| ==> keys[i] != keys[j]
    ensures Count(keys, k) == 1
    decreases |keys|
  {
    var init := keys[..|keys| - 1];
    if keys[|keys| - 1] == k {
      CountAbsent(init, k);
    } else {
      assert k in init;
      CountOnce(init, k);
    }
  }

  lemma {:induction false} SumSizesEmptyGroup(es: seq<Entry>, keys: seq<string>, k: string)
    requires Group(es, k) == []
    ensures SumSizes(es, keys + [k]) == SumSizes(es, keys)
  {
    assert (keys + [k])[..|keys|] == keys;
  }

  /** Partition: every user lands in exactly one reported-or-not group, so
      the group sizes add up to the number of users. */
  lemma {:induction false} GroupsPartition(es: seq<Entry>)
    ensures SumSizes(es, KeysInOrder(es)) == |es|
    ensures forall e :: e in es ==> e in Group(es, e.email) && e.email in KeysInOrder(es)
    decreases |es|
  {
    KeysInOrderExact(es);
    forall e | e in es
      ensures e in Group(es, e.email)
    {
      GroupExact(es, e.email);
    }
    if es != [] {
      var init := es[..|es| - 1];
      var e := es[|es| - 1];
      assert es == init + [e];
      GroupsPartition(init);
      var ks := KeysInOrder(init);
      KeysInOrderExact(init);
      SumSizesSnoc(init, e, KeysInOrder(es));
      if e.email in ks {
        CountOnce(ks, e.email);
      } else {
        NewKeyCount(init, e);
      }
    }
  }

  /** A new key adds one group of size one to the sum. */
  lemma NewKeyCount(init: seq<Entry>, e: Entry)
    requires e.email !in KeysInOrder(init)
    ensures SumSizes(init, KeysInOrder(init) + [e.email]) == SumSizes(init, KeysInOrder(init))
    ensures Count(KeysInOrder(init) + [e.email], e.email) == 1
  {
    var ks := KeysInOrder(init);
    KeysInOrderExact(init);
    AbsentKeyGroup(init, e.email);
    SumSizesEmptyGroup(init, ks, e.email);
    forall i, j | 0 <= i < j < |ks + [e.email]|
      ensures (ks + [e.email])[i] != (ks + [e.email])[j]
    {
      if j == |ks| {
        assert (ks + [e.email])[i] == ks[i];
      }
    }
    CountOnce(ks + [e.email], e.email);
  }

  lemma {:induction false} DupGroupsExact(es: seq<Entry>, keys: seq<string>)
    ensures forall g: DupGroup :: g in DupGroups(es, keys) <==>
              g.email in keys && g.email != "" && |g.members| > 1 && g.members == Group(es, g.email)
    decreases |keys|
  {
    if keys != [] {
      var init := keys[..|keys| - 1];
      DupGroupsExact(es, init);
      assert keys == init + [keys[|keys| - 1]];
    }
  }

  /** The report holds exactly the groups of more than one user under a
      non-empty key, each with all of that key's users. */
  lemma ReportedExact(es: seq<Entry>)
    ensures forall g: DupGroup :: g in Reported(es) <==> g.email != "" && |g.members| > 1 && g.members == Group(es, g.email)
  {
    DupGroupsExact(es, KeysInOrder(es));
    KeysInOrderExact(es);
    forall g: DupGroup | g.email != "" && |g.members| > 1 && g.members == Group(es, g.email)
      ensures g.email in KeysInOrder(es)
    {
      GroupExact(es, g.email);
      assert g.members[0] in Group(es, g.email);
      var i :| 0 <= i < |es| && es[i] == g.members[0];
    }
  }

  lemma KeysSnoc(es: seq<Entry>, e: Entry)
    ensures KeysInOrder(es + [e]) == if e.email in KeysInOrder(es) then KeysInOrder(es) else KeysInOrder(es) + [e.email]
  {
    assert (es + [e])[..|es|] == es;
  }

  lemma GroupSnoc(es: seq<Entry>, e: Entry, k: string)
    ensures Group(es + [e], k) == Group(es, k) + (if e.email == k then [e] else [])
  {
    assert (es + [e])[..|es|] == es;
  }

  lemma FourKeys(a: Entry, b: Entry, c: Entry, d: Entry)
    requires b.email == a.email && c.email == a.email && d.email != a.email
    ensures KeysInOrder([a, b, c, d]) == [a.email, d.email]
  {
    KeysSnoc([], a);
    assert [] + [a] == [a];
    KeysSnoc([a], b);
    KeysSnoc([a, b], c);
    KeysSnoc([a, b, c], d);
    assert [a] + [b] == [a, b] && [a, b] + [c] == [a, b, c] && [a, b, c] + [d] == [a, b, c, d];
  }

  lemma FourGroup(a: Entry, b: Entry, c: Entry, d: Entry, k: string)
    ensures Group([a, b, c, d], k) ==
              (if a.email == k then [a] else []) + (if b.email == k then [b] else []) +
              (if c.email == k then [c] else []) + (if d.email == k then [d] else [])
  {
    GroupSnoc([], a, k);
    assert [] + [a] == [a];
    GroupSnoc([a], b, k);
    GroupSnoc([a, b], c, k);
    GroupSnoc([a, b, c], d, k);
    assert [a] + [b] == [a, b] && [a, b] + [c] == [a, b, c] && [a, b, c] + [d] == [a, b, c, d];
  }

  /** Three users sharing an email and one with another email give exactly
      one reported group, of the three. */
  lemma ThreeDuplicatesOneUnique(a: Entry, b: Entry, c: Entry, d: Entry)
    requires a.email != "" && b.email == a.email && c.email == a.email && d.email != a.email
    ensures Reported([a, b, c, d]) == [DupGroup(a.email, [a, b, c])]
  {
    var k := a.email;
    var es := [a, b, c, d];
    FourKeys(a, b, c, d);
    FourGroup(a, b, c, d, k);
    FourGroup(a, b, c, d, d.email);
    assert Group(es, k) == [a, b, c];
    assert Group(es, d.email) == [d];
    var ks := [k, d.email];
    assert ks[..1] == [k] && [k][..0] == [];
    assert DupGroups(es, [k]) == [DupGroup(k, [a, b, c])];
  }
}
