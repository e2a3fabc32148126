/** The category list and the filter of `src/pages/ResourcePage.tsx`. */
module ResourcePage {
  import opened Wrappers
  import opened Text
  import Seqs
  import opened ResourceEntries

  const All := "all"

  function CategoriesOf(entries: seq<ResourceEntry>): (r: seq<string>)
    ensures |r| == |entries| && forall i :: 0 <= i < |r| ==> r[i] == entries[i].category
  {
    seq(|entries|, i requires 0 <= i < |entries| => entries[i].category)
  }

  /** `['all', ...new Set(entries.map(entry => entry.category))]`. */
  function Categories(entries: seq<ResourceEntry>): seq<string> {
    [All] + Seqs.Dedup(CategoriesOf(entries))
  }

  /** The list starts with 'all', then lists every entry's category, and
      nothing else. */
  lemma CategoriesSpec(entries: seq<ResourceEntry>)
    ensures var cs := Categories(entries);
      && cs[0] == All
      && (forall i :: 0 <= i < |entries| ==> entries[i].category in cs[1..])
      && (forall j :: 1 <= j < |cs| ==> exists i :: 0 <= i < |entries| && entries[i].category == cs[j])
  {
    var cats := CategoriesOf(entries);
    var d := Seqs.Dedup(cats);
    var cs := Categories(entries);
    assert cs[1..] == d;
    forall j | 1 <= j < |cs| ensures exists i :: 0 <= i < |entries| && entries[i].category == cs[j] {
      assert cs[j] == d[j - 1] && d[j - 1] in cats;
      var i :| 0 <= i < |cats| && cats[i] == d[j - 1];
      assert entries[i].category == cs[j];
    }
  }

  /** After 'all', the categories come in order of first appearance. */
  lemma CategoriesInFirstAppearanceOrder(entries: seq<ResourceEntry>)
    ensures var rest := Categories(entries)[1..];
      && (forall i :: 0 <= i < |rest| ==> rest[i] in CategoriesOf(entries))
      && (forall i, j :: 0 <= i < j < |rest| ==>
            Seqs.FirstIndex(CategoriesOf(entries), rest[i]) < Seqs.FirstIndex(CategoriesOf(entries), rest[j]))
  {
    var cats := CategoriesOf(entries);
    assert Categories(entries)[1..] == Seqs.Dedup(cats);
    Seqs.DedupFirstAppearanceOrder(cats);
  }

  /** The list has no duplicates as long as no entry's category is literally
      'all'; one that is would appear twice. */
  lemma CategoriesDistinct(entries: seq<ResourceEntry>)
    requires forall i :: 0 <= i < |entries| ==> entries[i].category != All
    ensures Seqs.NoDuplicates(Categories(entries))
  {
    var cats := CategoriesOf(entries);
    var d := Seqs.Dedup(cats);
    var cs := Categories(entries);
    forall j | 1 <= j < |cs| ensures cs[j] != All {
      assert cs[j] == d[j - 1] && d[j - 1] in cats;
    }
    forall i, j | 0 <= i < j < |cs| ensures cs[i] != cs[j] {
      if i > 0 {
        assert cs[i] == d[i - 1] && cs[j] == d[j - 1];
      }
    }
  }

  /** `selectedCategory === 'all' || entry.category === selectedCategory`. */
  predicate MatchesCategory(e: ResourceEntry, selected: string) {
    selected == All || e.category == selected
  }

  /** A case-insensitive substring test, as `a.toLowerCase().includes(b.toLowerCase())`. */
  predicate ContainsIgnoringCase(text: string, term: string) {
    Includes(ToLower(text), ToLower(term))
  }

  /** The search test: an empty term, or the term inside the title, the
      snippet, the category or one of the keywords. */
  predicate MatchesSearch(e: ResourceEntry, term: string) {
    || term == ""
    || ContainsIgnoringCase(e.title, term)
    || ContainsIgnoringCase(e.snippet, term)
    || ContainsIgnoringCase(e.category, term)
    || (e.keywords.Some? && exists k :: 0 <= k < |e.keywords.value| && ContainsIgnoringCase(e.keywords.value[k], term))
  }

  function Keep(term: string, selected: string): ResourceEntry -> bool {
    e => MatchesCategory(e, selected) && MatchesSearch(e, term)
  }

  /** `filteredResources`. */
  function FilterResources(entries: seq<ResourceEntry>, term: string, selected: string): seq<ResourceEntry> {
    Seqs.Filter(entries, Keep(term, selected))
  }

  /** The result keeps the entries' order, and holds an entry exactly when it
      passes both tests. */
  lemma FilterResourcesSpec(entries: seq<ResourceEntry>, term: string, selected: string)
    ensures var r := FilterResources(entries, term, selected);
      && Seqs.IsSubsequence(r, entries)
      && (forall i :: 0 <= i < |r| ==> MatchesCategory(r[i], selected) && MatchesSearch(r[i], term))
      && (forall i :: 0 <= i < |entries| && MatchesCategory(entries[i], selected) && MatchesSearch(entries[i], term)
            ==> entries[i] in r)
      && (selected != All ==> forall i :: 0 <= i < |r| ==> r[i].category == selected)
      && (forall e :: multiset(r)[e] ==
            if MatchesCategory(e, selected) && MatchesSearch(e, term) then multiset(entries)[e] else 0)
  {
    Seqs.FilterIsSubsequence(entries, Keep(term, selected));
    Seqs.FilterMultiset(entries, Keep(term, selected));
  }

  /** An empty term with the 'all' category shows every entry unchanged. */
  lemma EmptySearchShowsAll(entries: seq<ResourceEntry>)
    ensures FilterResources(entries, "", All) == entries
  {
    Seqs.FilterAll(entries, Keep("", All));
  }

  /** The search ignores ASCII case: the term's case never matters. */
  lemma SearchIgnoresTermCase(e: ResourceEntry, term: string)
    ensures MatchesSearch(e, term) <==> MatchesSearch(e, ToLower(term))
  {
    ToLowerIdempotent(term);
  }

  /** `e.target.value || 'all'`: clearing the select falls back to 'all'. */
  function SelectedCategory(value: string): (c: string)
    ensures c != ""
    ensures value != "" ==> c == value
  {
    if value == "" then All else value
  }
}
