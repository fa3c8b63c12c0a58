// The addresses shown for a service, `mergeServiceIpv4Addresses` in src/api/reseller-api-vm-ops.ts:66-81.
module Ipv4Merge {
  import opened Common

  predicate IsPlaceholder(ip: string) {
    ip == "" || ip == "0.0.0.0" || ip == "127.0.0.1"
  }

  /** The first place of `ip` in `s`, or `|s|`. */
  function FirstIndex(s: seq<string>, ip: string): nat {
    if s == [] || s[0] == ip then 0 else 1 + FirstIndex(s[1..], ip)
  }

  /** Every real address of the input once, in order of first appearance. */
  ghost predicate IsMerge(input: seq<string>, merged: seq<string>) {
    && (forall ip :: ip in merged <==> ip in input && !IsPlaceholder(ip))
    && (forall i, j :: 0 <= i < j < |merged| ==> FirstIndex(input, merged[i]) < FirstIndex(input, merged[j]))
  }

  lemma {:induction false} FirstIndexOf(s: seq<string>, ip: string)
    ensures FirstIndex(s, ip) <= |s|
    ensures ip in s <==> FirstIndex(s, ip) < |s|
  {
    if s != [] && s[0] != ip {
      FirstIndexOf(s[1..], ip);
    }
  }

  lemma {:induction false} FirstIndexGrows(s: seq<string>, more: string, ip: string)
    ensures FirstIndex(s + [more], ip) == if ip in s then FirstIndex(s, ip) else if ip == more then |s| else |s| + 1
  {
    if s != [] {
      assert (s + [more])[1..] == s[1..] + [more];
      FirstIndexGrows(s[1..], more, ip);
    }
  }

  lemma MergeOne(input: seq<string>, merged: seq<string>, ip: string)
    requires IsMerge(input, merged)
    ensures IsMerge(input + [ip], if IsPlaceholder(ip) || ip in merged then merged else merged + [ip])
  {
    forall x | x in input || x == ip
      ensures FirstIndex(input + [ip], x) == if x in input then FirstIndex(input, x) else |input|
      ensures x in input ==> FirstIndex(input, x) < |input|
    {
      FirstIndexOf(input, x);
      FirstIndexGrows(input, ip, x);
    }
    hide FirstIndex;
    assert forall i :: 0 <= i < |merged| ==> merged[i] in input;
  }

  lemma NothingToMerge()
    ensures IsMerge([], [])
  {
  }

  lemma EmptyIsPlaceholder()
    ensures IsMerge([""], [])
  {
  }

  function Input(primary: Option<string>, apiIps: seq<string>): seq<string> {
    if primary.Some? then [primary.value] + apiIps else apiIps
  }

  /** `add`, for the next address of the input. */
  method Add(merged: seq<string>, ip: string, ghost input: seq<string>) returns (r: seq<string>)
    requires IsMerge(input, merged)
    ensures IsMerge(input + [ip], r)
  {
    MergeOne(input, merged, ip);
    hide IsMerge;
    r := merged;
    if !IsPlaceholder(ip) && ip !in merged {
      r := merged + [ip];
    }
  }

  method MergeServiceIpv4Addresses(primary: Option<string>, apiIps: seq<string>) returns (merged: seq<string>)
    ensures IsMerge(Input(primary, apiIps), merged)
  {
    merged := [];
    ghost var input := [];
    NothingToMerge();
    EmptyIsPlaceholder();
    hide IsMerge, IsPlaceholder;
    if primary.Some? {
      if primary.value != "" {
        merged := Add(merged, primary.value, input);
        assert input + [primary.value] == [primary.value];
      }
      input := [primary.value];
    }
    for n := 0 to |apiIps|
      invariant input == Input(primary, apiIps[..n]) && IsMerge(input, merged)
    {
      merged := Add(merged, apiIps[n], input);
      assert Input(primary, apiIps[..n + 1]) == input + [apiIps[n]];
      input := input + [apiIps[n]];
    }
    assert apiIps[..|apiIps|] == apiIps;
  }

  /** The primary address comes first when it is a real one. */
  lemma PrimaryIsFirst(primary: string, apiIps: seq<string>, merged: seq<string>)
    requires IsMerge(Input(Some(primary), apiIps), merged) && !IsPlaceholder(primary)
    ensures merged != [] && merged[0] == primary
  {
    var input := Input(Some(primary), apiIps);
    assert primary in input;
    var i :| 0 <= i < |merged| && merged[i] == primary;
    assert FirstIndex(input, primary) == 0;
  }

  /** There is one way to merge, so merging a merged list again changes nothing. */
  lemma MergeIsUnique(input: seq<string>, a: seq<string>, b: seq<string>)
    requires IsMerge(input, a) && IsMerge(input, b)
    ensures a == b
  {
    OrderIsDetermined(input, a, b);
  }

  lemma {:induction false} OrderIsDetermined(input: seq<string>, a: seq<string>, b: seq<string>)
    requires forall ip :: ip in a <==> ip in b
    requires forall i, j :: 0 <= i < j < |a| ==> FirstIndex(input, a[i]) < FirstIndex(input, a[j])
    requires forall i, j :: 0 <= i < j < |b| ==> FirstIndex(input, b[i]) < FirstIndex(input, b[j])
    ensures a == b
    decreases |a|
  {
    assert b != [] ==> b[0] in a;
    if a != [] {
      assert a[0] in b && b != [];
      var i :| 0 <= i < |b| && b[i] == a[0];
      var j :| 0 <= j < |a| && a[j] == b[0];
      assert i == 0;
      assert forall ip :: ip in a[1..] <==> ip in a && ip != a[0];
      assert forall ip :: ip in b[1..] <==> ip in b && ip != b[0];
      OrderIsDetermined(input, a[1..], b[1..]);
    }
  }

  lemma {:induction false} IndexInDistinct(s: seq<string>, i: nat)
    requires i < |s| && forall j, k :: 0 <= j < k < |s| ==> s[j] != s[k]
    ensures FirstIndex(s, s[i]) == i
  {
    if i > 0 {
      IndexInDistinct(s[1..], i - 1);
    }
  }

  lemma MergeAgain(input: seq<string>, merged: seq<string>, again: seq<string>)
    requires IsMerge(input, merged) && IsMerge(merged, again)
    ensures again == merged
  {
    assert forall i, j :: 0 <= i < j < |merged| ==> merged[i] != merged[j];
    forall i | 0 <= i < |merged| ensures FirstIndex(merged, merged[i]) == i { IndexInDistinct(merged, i); }
    assert IsMerge(merged, merged);
    MergeIsUnique(merged, merged, again);
  }
}
