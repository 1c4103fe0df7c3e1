/** Command-line handling shared by the scripts: `--name=value` options,
    where a later occurrence overrides an earlier one. */
module Args {
  import opened Firestore

  datatype Option<T> = None | Some(value: T)

  predicate StartsWith(s: string, prefix: string)
  {
    |prefix| <= |s| && s[..|prefix|] == prefix
  }

  /** Index of the first occurrence of `ch` in `s`. */
  function FirstIndex(s: string, ch: char): (k: nat)
    requires ch in s
    ensures k < |s| && s[k] == ch && ch !in s[..k]
  {
    if s[0] == ch then 0
    else
      assert ch in s[1..];
      var k := FirstIndex(s[1..], ch);
      assert s[..k + 1] == [s[0]] + s[1..][..k];
      k + 1
  }

  /** The longest prefix of `s` without `ch`. */
  function TakeUntil(s: string, ch: char): (r: string)
    ensures |r| <= |s| && r == s[..|r|] && ch !in r
    ensures |r| == |s| || s[|r|] == ch
  {
    if s == [] || s[0] == ch then []
    else
      var rest := TakeUntil(s[1..], ch);
      assert s[..1 + |rest|] == [s[0]] + s[1..][..|rest|];
      [s[0]] + rest
  }

  /** The second piece of `s` split at `=`: the text after the first `=`,
      up to the next `=` or the end. */
  function SecondPart(s: string): (r: string)
    requires '=' in s
    ensures var k := FirstIndex(s, '=');
            k + 1 + |r| <= |s| && r == s[k + 1..k + 1 + |r|] && '=' !in r &&
            (k + 1 + |r| == |s| || s[k + 1 + |r|] == '=')
  {
    var k := FirstIndex(s, '=');
    var r := TakeUntil(s[k + 1..], '=');
    assert s[k + 1..k + 1 + |r|] == s[k + 1..][..|r|];
    r
  }

  /** The value an options loop ends with for `prefix`: the second part of
      the last argument that starts with `prefix`, or None when no argument
      does. `prefix` ends with `=`. */
  ghost predicate IsLastValue(args: seq<string>, prefix: string, v: Option<string>)
    requires '=' in prefix
  {
    match v
    case None => forall i :: 0 <= i < |args| ==> !StartsWith(args[i], prefix)
    case Some(s) =>
      exists i :: 0 <= i < |args| && StartsWith(args[i], prefix) && s == SecondPart(args[i]) &&
        forall j :: i < j < |args| ==> !StartsWith(args[j], prefix)
  }

  /** The value the options loop leaves for `prefix`. */
  function LastValue(args: seq<string>, prefix: string): Option<string>
    requires '=' in prefix
    decreases |args|
  {
    if args == [] then None
    else
      var a := args[|args| - 1];
      if StartsWith(a, prefix) then
        StartsWithContains(a, prefix, '=');
        Some(SecondPart(a))
      else LastValue(args[..|args| - 1], prefix)
  }

  /** The loop's result is the second part of the last argument carrying
      the prefix, or None when none carries it. */
  lemma {:induction false} LastValueIsLast(args: seq<string>, prefix: string)
    requires '=' in prefix
    ensures IsLastValue(args, prefix, LastValue(args, prefix))
    decreases |args|
  {
    if args != [] {
      var init := args[..|args| - 1];
      var a := args[|args| - 1];
      if StartsWith(a, prefix) {
        StartsWithContains(a, prefix, '=');
        assert StartsWith(args[|args| - 1], prefix);
      } else {
        LastValueIsLast(init, prefix);
        var v := LastValue(init, prefix);
        if v.Some? {
          var i :| 0 <= i < |init| && StartsWith(init[i], prefix) && v.value == SecondPart(init[i]) &&
                   forall j :: i < j < |init| ==> !StartsWith(init[j], prefix);
          assert args[i] == init[i];
          forall j | i < j < |args|
            ensures !StartsWith(args[j], prefix)
          {
            if j < |init| {
              assert args[j] == init[j];
            }
          }
        } else {
          forall i | 0 <= i < |args|
            ensures !StartsWith(args[i], prefix)
          {
            if i < |init| {
              assert args[i] == init[i];
            }
          }
        }
      }
    }
  }

  /** One more argument: it takes over when it carries the prefix. */
  lemma LastValueSnoc(args: seq<string>, a: string, prefix: string)
    requires '=' in prefix
    ensures StartsWith(a, prefix) ==> '=' in a && LastValue(args + [a], prefix) == Some(SecondPart(a))
    ensures !StartsWith(a, prefix) ==> LastValue(args + [a], prefix) == LastValue(args, prefix)
  {
    assert (args + [a])[..|args|] == args;
    if StartsWith(a, prefix) {
      StartsWithContains(a, prefix, '=');
    }
  }

  lemma StartsWithContains(s: string, prefix: string, ch: char)
    requires StartsWith(s, prefix) && ch in prefix
    ensures ch in s
  {
    var k :| 0 <= k < |prefix| && prefix[k] == ch;
    assert s[k] == ch;
  }

  const OrgIdFlag := "--org-id="

  /** The `--org-id=` loop of the migration, scan, verify and settings
      scripts. */
  method ParseOrgId(args: seq<string>) returns (orgId: Option<string>)
    ensures orgId == LastValue(args, OrgIdFlag)
  {
    orgId := None;
    for i := 0 to |args|
      invariant orgId == LastValue(args[..i], OrgIdFlag)
    {
      assert args[..i + 1] == args[..i] + [args[i]];
      LastValueSnoc(args[..i], args[i], OrgIdFlag);
      if StartsWith(args[i], OrgIdFlag) {
        orgId := Some(SecondPart(args[i]));
      }
    }
    assert args[..|args|] == args;
  }

  /** The scripts' usage check: the id is missing or empty. */
  predicate Missing(v: Option<string>)
  {
    v.None? || v.value == ""
  }

  /** The parsed id as a script value: `null` when no argument set it. */
  function IdValue(v: Option<string>): Value
  {
    match v
    case None => Null
    case Some(s) => Str(s)
  }

  /** The usage check rejects exactly the falsy ids. */
  lemma MissingIsFalsy(v: Option<string>)
    ensures Missing(v) <==> !Truthy(IdValue(v))
  {
  }
}
