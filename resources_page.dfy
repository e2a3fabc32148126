/** The search selection and the group-by-category `reduce` of
    `src/pages/ResourcesPage.tsx`. The fuzzy matcher's results are an input. */
module ResourcesPage {
  import Seqs
  import opened ResourceEntries

  const OtherCategory := "Other"

  /** `searchTerm ? fuse.search(searchTerm).map(r => r.item) : mockResourceEntries`. */
  function Selection(entries: seq<ResourceEntry>, term: string, fuseResults: seq<ResourceEntry>): seq<ResourceEntry> {
    if term != "" then fuseResults else entries
  }

  /** An empty search term shows all entries unchanged. */
  lemma EmptySearchPassesThrough(entries: seq<ResourceEntry>, fuseResults: seq<ResourceEntry>)
    ensures Selection(entries, "", fuseResults) == entries
  {
  }

  /** `resource.category || 'Other'`. */
  function GroupKey(r: ResourceEntry): (k: string)
    ensures k != ""
    ensures r.category != "" ==> k == r.category
  {
    if r.category == "" then OtherCategory else r.category
  }

  function GroupKeys(rs: seq<ResourceEntry>): (ks: seq<string>)
    ensures |ks| == |rs| && forall i :: 0 <= i < |rs| ==> ks[i] == GroupKey(rs[i])
  {
    seq(|rs|, i requires 0 <= i < |rs| => GroupKey(rs[i]))
  }

  function HasKey(k: string): ResourceEntry -> bool {
    r => GroupKey(r) == k
  }

  /** The group named `k`, built as the `reduce` builds it: each resource
      with that key is pushed at the end. */
  function Group(rs: seq<ResourceEntry>, k: string): seq<ResourceEntry> {
    if rs == [] then []
    else
      var last := rs[|rs| - 1];
      Group(rs[..|rs| - 1], k) + (if GroupKey(last) == k then [last] else [])
  }

  /** A group is the filter of the resources on its key. */
  lemma {:induction false} GroupIsFilter(rs: seq<ResourceEntry>, k: string)
    ensures Group(rs, k) == Seqs.Filter(rs, HasKey(k))
  {
    if rs != [] {
      var q := rs[..|rs| - 1];
      var last := rs[|rs| - 1];
      assert rs == q + [last];
      GroupIsFilter(q, k);
      Seqs.FilterAppend(q, [last], HasKey(k));
      assert Seqs.Filter([last], HasKey(k)) == (if GroupKey(last) == k then [last] else []) by {
        assert [last][1..] == [];
      }
    }
  }

  lemma GroupKeysAppend(rs: seq<ResourceEntry>, r: ResourceEntry)
    ensures GroupKeys(rs + [r]) == GroupKeys(rs) + [GroupKey(r)]
  {
  }

  /** One more resource joins the end of its key's group, and only that one. */
  lemma GroupPush(rs: seq<ResourceEntry>, r: ResourceEntry, k: string)
    ensures Group(rs + [r], k) == Group(rs, k) + (if GroupKey(r) == k then [r] else [])
  {
    assert (rs + [r])[..|rs|] == rs;
  }

  /** A group is empty exactly when no resource has its key. */
  lemma GroupEmptyIff(rs: seq<ResourceEntry>, k: string)
    ensures Group(rs, k) == [] <==> k !in GroupKeys(rs)
  {
    GroupIsFilter(rs, k);
    if k in GroupKeys(rs) {
      var j :| 0 <= j < |rs| && GroupKeys(rs)[j] == k;
      assert rs[j] in Group(rs, k);
    }
  }

  /** The accumulator of the `reduce`, with the keys in the order
      `Object.keys` lists them (insertion order, as all keys are strings
      that are not array indices). */
  datatype Grouping = Grouping(keys: seq<string>, groups: map<string, seq<ResourceEntry>>)

  /** The `reduce` callback: create the array for a new key, then push. */
  function Push(acc: Grouping, r: ResourceEntry): Grouping {
    var c := GroupKey(r);
    if c in acc.groups then Grouping(acc.keys, acc.groups[c := acc.groups[c] + [r]])
    else Grouping(acc.keys + [c], acc.groups[c := [r]])
  }

  /** The `reduce` over the resources, from an empty accumulator. */
  function Reduce(rs: seq<ResourceEntry>): Grouping {
    if rs == [] then Grouping([], map[]) else Push(Reduce(rs[..|rs| - 1]), rs[|rs| - 1])
  }

  /** One more resource is one more `Push`. */
  lemma ReduceSnoc(rs: seq<ResourceEntry>, i: int)
    requires 0 <= i < |rs|
    ensures Reduce(rs[..i + 1]) == Push(Reduce(rs[..i]), rs[i])
  {
    assert rs[..i + 1][..i] == rs[..i];
  }

  /** The loop body's two steps (create the array, then push) are `Push`. */
  lemma PushStep(acc: Grouping, r: ResourceEntry, after: Grouping)
    requires var c := GroupKey(r);
      var g := if c in acc.groups then acc.groups else acc.groups[c := []];
      after == Grouping(if c in acc.groups then acc.keys else acc.keys + [c], g[c := g[c] + [r]])
    ensures after == Push(acc, r)
  {
    var c := GroupKey(r);
    if c !in acc.groups {
      var g := acc.groups[c := []];
      assert g[c] + [r] == [r];
      assert g[c := [r]] == acc.groups[c := [r]];
    }
  }

  /** `acc` is the grouping of `rs`: its keys are the distinct categories in
      order of first appearance, each names a group, and the group is
      exactly its resources in order. */
  ghost predicate Describes(acc: Grouping, rs: seq<ResourceEntry>) {
    && acc.keys == Seqs.Dedup(GroupKeys(rs))
    && (forall k :: k in acc.groups <==> k in acc.keys)
    && (forall k :: k in acc.groups ==> acc.groups[k] == Group(rs, k))
  }

  /** One `Push` extends the grouping by one resource. */
  lemma PushDescribes(done: seq<ResourceEntry>, r: ResourceEntry, acc: Grouping)
    requires Describes(acc, done)
    ensures Describes(Push(acc, r), done + [r])
  {
    PushKeys(done, r, acc);
    var c := GroupKey(r);
    if c !in acc.groups {
      assert c !in Seqs.Dedup(GroupKeys(done));
    }
    PushGroups(done, r, acc);
  }

  /** The keys and the map's domain after one `Push`. */
  lemma PushKeys(done: seq<ResourceEntry>, r: ResourceEntry, acc: Grouping)
    requires acc.keys == Seqs.Dedup(GroupKeys(done))
    requires forall k :: k in acc.groups <==> k in acc.keys
    ensures Push(acc, r).keys == Seqs.Dedup(GroupKeys(done + [r]))
    ensures forall k :: k in Push(acc, r).groups <==> k in Push(acc, r).keys
  {
    GroupKeysAppend(done, r);
    Seqs.DedupSnoc(GroupKeys(done), GroupKey(r));
  }

  /** The groups after one `Push`. */
  lemma PushGroups(done: seq<ResourceEntry>, r: ResourceEntry, acc: Grouping)
    requires forall k :: k in acc.groups ==> acc.groups[k] == Group(done, k)
    requires GroupKey(r) !in acc.groups ==> GroupKey(r) !in GroupKeys(done)
    ensures forall k :: k in Push(acc, r).groups ==> Push(acc, r).groups[k] == Group(done + [r], k)
  {
    var c := GroupKey(r);
    forall k | k in Push(acc, r).groups
      ensures Push(acc, r).groups[k] == Group(done + [r], k)
    {
      GroupPush(done, r, k);
      if k == c && c !in acc.groups {
        GroupEmptyIff(done, c);
        assert [] + [r] == [r];
      }
    }
  }

  /** The keys are the distinct categories in order of first appearance,
      each names a group, and the group is exactly its resources in order. */
  lemma {:induction false} ReduceGroups(rs: seq<ResourceEntry>)
    ensures Reduce(rs).keys == Seqs.Dedup(GroupKeys(rs))
    ensures forall k :: k in Reduce(rs).groups <==> k in Reduce(rs).keys
    ensures forall k :: k in Reduce(rs).groups ==> Reduce(rs).groups[k] == Group(rs, k)
  {
    ReduceDescribes(rs);
  }

  lemma {:induction false} ReduceDescribes(rs: seq<ResourceEntry>)
    ensures Describes(Reduce(rs), rs)
  {
    if rs != [] {
      var q := rs[..|rs| - 1];
      var r := rs[|rs| - 1];
      assert rs == q + [r];
      ReduceDescribes(q);
      PushDescribes(q, r, Reduce(q));
    }
  }

  /** `filteredResources.reduce(...)` followed by `Object.keys(...)`. */
  method GroupByCategory(rs: seq<ResourceEntry>) returns (keys: seq<string>, groups: map<string, seq<ResourceEntry>>)
    ensures keys == Seqs.Dedup(GroupKeys(rs))
    ensures forall k :: k in groups <==> k in keys
    ensures forall k :: k in groups ==> groups[k] == Group(rs, k)
  {
    keys := [];
    groups := map[];
    var i := 0;
    while i < |rs|
      invariant 0 <= i <= |rs|
      invariant Grouping(keys, groups) == Reduce(rs[..i])
    {
      var r := rs[i];
      var category := GroupKey(r);
      ghost var before := Grouping(keys, groups);
      if category !in groups {
        keys := keys + [category];
        groups := groups[category := []];
      }
      groups := groups[category := groups[category] + [r]];
      PushStep(before, r, Grouping(keys, groups));
      ReduceSnoc(rs, i);
      i := i + 1;
    }
    Seqs.PrefixAll(rs);
    ReduceGroups(rs);
  }

  /** A resource lies in the group its key names and in no other, and each
      group keeps the input order. */
  lemma GroupMembership(rs: seq<ResourceEntry>, k: string)
    ensures forall i :: 0 <= i < |rs| && GroupKey(rs[i]) == k ==> rs[i] in Group(rs, k)
    ensures forall j :: 0 <= j < |Group(rs, k)| ==> Group(rs, k)[j] in rs && GroupKey(Group(rs, k)[j]) == k
    ensures Seqs.IsSubsequence(Group(rs, k), rs)
  {
    GroupIsFilter(rs, k);
    Seqs.FilterIsSubsequence(rs, HasKey(k));
  }

  /** The total size of the groups named by `ks`. */
  function SizeOfGroups(rs: seq<ResourceEntry>, ks: seq<string>): nat {
    if ks == [] then 0 else |Group(rs, ks[0])| + SizeOfGroups(rs, ks[1..])
  }

  lemma {:induction false} SizeOfGroupsAppend(rs: seq<ResourceEntry>, ks: seq<string>, k: string)
    ensures SizeOfGroups(rs, ks + [k]) == SizeOfGroups(rs, ks) + |Group(rs, k)|
  {
    if ks != [] {
      assert (ks + [k])[1..] == ks[1..] + [k];
      SizeOfGroupsAppend(rs, ks[1..], k);
    }
  }

  /** Adding one resource adds one to the group of its key, and nothing to
      the others. */
  lemma {:induction false} SizeOfGroupsPush(rs: seq<ResourceEntry>, r: ResourceEntry, ks: seq<string>)
    requires Seqs.NoDuplicates(ks)
    ensures SizeOfGroups(rs + [r], ks) == SizeOfGroups(rs, ks) + (if GroupKey(r) in ks then 1 else 0)
  {
    if ks != [] {
      GroupPush(rs, r, ks[0]);
      Seqs.NoDuplicatesTail(ks);
      SizeOfGroupsPush(rs, r, ks[1..]);
      assert SizeOfGroups(rs + [r], ks) == |Group(rs + [r], ks[0])| + SizeOfGroups(rs + [r], ks[1..]);
      assert SizeOfGroups(rs, ks) == |Group(rs, ks[0])| + SizeOfGroups(rs, ks[1..]);
      assert GroupKey(r) in ks <==> GroupKey(r) == ks[0] || GroupKey(r) in ks[1..] by {
        assert ks == [ks[0]] + ks[1..];
      }
    }
  }

  /** The group sizes add up to the number of resources. */
  lemma {:induction false} GroupSizesSum(rs: seq<ResourceEntry>)
    ensures SizeOfGroups(rs, Seqs.Dedup(GroupKeys(rs))) == |rs|
  {
    if rs != [] {
      var q := rs[..|rs| - 1];
      var r := rs[|rs| - 1];
      var k := GroupKey(r);
      assert rs == q + [r];
      GroupKeysAppend(q, r);
      var kq := Seqs.Dedup(GroupKeys(q));
      Seqs.DedupSnoc(GroupKeys(q), k);
      GroupSizesSum(q);
      SizeOfGroupsPush(q, r, kq);
      if k !in kq {
        SizeOfGroupsAppend(rs, kq, k);
        GroupPush(q, r, k);
        GroupEmptyIff(q, k);
      }
    }
  }

  /** "No resources found" shows exactly when there are no group keys, that
      is, when the selection is empty. */
  lemma NoResultsIffEmpty(rs: seq<ResourceEntry>)
    ensures Seqs.Dedup(GroupKeys(rs)) == [] <==> rs == []
  {
    if rs != [] {
      assert GroupKeys(rs)[0] in Seqs.Dedup(GroupKeys(rs));
    }
  }
}
