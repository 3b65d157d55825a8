/** The suggestion-selection screen: the playable items of the chosen
    categories in `order`, the text search over them, their grouping by
    category for display, the enabled set (a JavaScript `Set`, kept as a
    duplicate-free sequence; toggling one id is `Seqs.Toggle`) and the session
    it starts. */
module SuggestionScreen {
  import opened Seqs
  import opened Text
  import opened Items
  import opened CategoryNames

  function Suggestible(categoryIds: seq<string>): Item -> bool {
    (i: Item) => CatKey(i) in categoryIds && HasAudio(i)
  }

  /** `availableSuggestions`: the items with audio filed under a chosen category,
      stably sorted by `order` (absent counts as 0). */
  function AvailableSuggestions(playlist: seq<Item>, categoryIds: seq<string>): (r: seq<Item>)
    ensures SortedBy(r, OrderKey)
    ensures multiset(r) == multiset(Filter(playlist, Suggestible(categoryIds)))
    ensures forall x :: x in r <==> x in playlist && CatKey(x) in categoryIds && HasAudio(x)
  {
    var chosen := Filter(playlist, Suggestible(categoryIds));
    var r := SortByOrder(chosen);
    SameMembers(r, chosen);
    r
  }

  /** Items with equal `order` keep their playlist order. */
  lemma AvailableSuggestionsStable(playlist: seq<Item>, categoryIds: seq<string>, k: int)
    ensures Filter(AvailableSuggestions(playlist, categoryIds), KeyIs(OrderKey, k))
            == Filter(Filter(playlist, Suggestible(categoryIds)), KeyIs(OrderKey, k))
  {
    SortByOrderStable(Filter(playlist, Suggestible(categoryIds)), k);
  }

  function TextMatches(query: string): Item -> bool {
    (i: Item) => Includes(Lower(i.text), query)
  }

  /** `filteredSuggestions`: everything for a blank query, otherwise the items whose
      lower-cased text contains the lower-cased (untrimmed) query, in order. */
  function FilteredSuggestions(available: seq<Item>, query: string): (r: seq<Item>)
    ensures IsBlank(query) ==> r == available
    ensures !IsBlank(query) ==> forall x :: x in r <==> x in available && Includes(Lower(x.text), Lower(query))
    ensures !IsBlank(query) ==> forall x :: multiset(r)[x] == if Includes(Lower(x.text), Lower(query)) then multiset(available)[x] else 0
    ensures IsSubsequence(r, available) && |r| <= |available|
  {
    if IsBlank(query) then SubsequenceOfItself(available); available
    else
      FilterIsSubsequence(available, TextMatches(Lower(query)));
      FilterCounts(available, TextMatches(Lower(query)));
      Filter(available, TextMatches(Lower(query)))
  }

  /** The search ignores the case of the query. */
  lemma SearchIgnoresQueryCase(available: seq<Item>, query: string)
    ensures FilteredSuggestions(available, Lower(query)) == FilteredSuggestions(available, query)
  {
    LowerKeepsBlank(query);
    LowerIdempotent(query);
  }

  /** A group of `suggestionsByCategory`. */
  datatype SuggestionGroup = SuggestionGroup(id: string, name: string, items: seq<Item>)

  /** Some group has id `k`. */
  predicate HasGroup(groups: seq<SuggestionGroup>, k: string) {
    exists i :: 0 <= i < |groups| && groups[i].id == k
  }

  function GroupOf(api: seq<ApiCategory>, filtered: seq<Item>): string -> SuggestionGroup {
    (k: string) => SuggestionGroup(k, GetCategoryName(api, k), Filter(filtered, CatKeyIs(k)))
  }

  lemma GroupNonEmpty(filtered: seq<Item>, k: string)
    requires k in Map(filtered, CatKey)
    ensures |Filter(filtered, CatKeyIs(k))| > 0
  {
    var j :| 0 <= j < |filtered| && Map(filtered, CatKey)[j] == k;
    assert filtered[j] in Filter(filtered, CatKeyIs(k));
  }

  lemma KeyListed(filtered: seq<Item>, x: Item)
    requires x in filtered
    ensures CatKey(x) in Map(filtered, CatKey)
  {
    var j :| 0 <= j < |filtered| && filtered[j] == x;
    assert Map(filtered, CatKey)[j] == CatKey(x);
  }

  /** `suggestionsByCategory`: one group per category key in order of first appearance,
      each holding that category's items in their filtered order. */
  function SuggestionsByCategory(api: seq<ApiCategory>, filtered: seq<Item>): (r: seq<SuggestionGroup>)
    ensures forall i, j :: 0 <= i < j < |r| ==> r[i].id != r[j].id
    ensures forall i :: 0 <= i < |r| ==> r[i].items == Filter(filtered, CatKeyIs(r[i].id)) && |r[i].items| > 0
    ensures forall i :: 0 <= i < |r| ==> r[i].name == GetCategoryName(api, r[i].id)
    ensures forall x :: x in filtered ==> HasGroup(r, CatKey(x))
  {
    var r := Map(Dedup(Map(filtered, CatKey)), GroupOf(api, filtered));
    GroupsOfDistinctKeys(api, filtered, r);
    GroupsCoverItems(api, filtered, r);
    r
  }

  /** One group per distinct key, holding that key's items under its name. */
  lemma GroupsOfDistinctKeys(api: seq<ApiCategory>, filtered: seq<Item>, r: seq<SuggestionGroup>)
    requires r == Map(Dedup(Map(filtered, CatKey)), GroupOf(api, filtered))
    ensures forall i, j :: 0 <= i < j < |r| ==> r[i].id != r[j].id
    ensures forall i :: 0 <= i < |r| ==> r[i].items == Filter(filtered, CatKeyIs(r[i].id)) && |r[i].items| > 0
    ensures forall i :: 0 <= i < |r| ==> r[i].name == GetCategoryName(api, r[i].id)
  {
    GroupsOfKeys(api, filtered, Dedup(Map(filtered, CatKey)));
  }

  /** Every item's key has a group. */
  lemma GroupsCoverItems(api: seq<ApiCategory>, filtered: seq<Item>, r: seq<SuggestionGroup>)
    requires r == Map(Dedup(Map(filtered, CatKey)), GroupOf(api, filtered))
    ensures forall x :: x in filtered ==> HasGroup(r, CatKey(x))
  {
    var keys := Dedup(Map(filtered, CatKey));
    forall x | x in filtered
      ensures HasGroup(r, CatKey(x))
    {
      KeyListed(filtered, x);
      KeyHasGroup(api, filtered, keys, CatKey(x));
    }
  }

  lemma KeyHasGroup(api: seq<ApiCategory>, filtered: seq<Item>, keys: seq<string>, k: string)
    requires k in keys
    ensures HasGroup(Map(keys, GroupOf(api, filtered)), k)
  {
    var i :| 0 <= i < |keys| && keys[i] == k;
    assert Map(keys, GroupOf(api, filtered))[i].id == k;
  }

  /** The group built for each key has that key as its id, the key's name, and the
      key's items, of which there is at least one when the key occurs in the list. */
  lemma GroupsOfKeys(api: seq<ApiCategory>, filtered: seq<Item>, keys: seq<string>)
    requires forall k :: k in keys ==> k in Map(filtered, CatKey)
    ensures var r := Map(keys, GroupOf(api, filtered));
            forall i :: 0 <= i < |r| ==>
              r[i].id == keys[i] && r[i].name == GetCategoryName(api, keys[i])
              && r[i].items == Filter(filtered, CatKeyIs(keys[i])) && |r[i].items| > 0
  {
    var r := Map(keys, GroupOf(api, filtered));
    forall i | 0 <= i < |r|
      ensures |r[i].items| > 0
    {
      GroupNonEmpty(filtered, keys[i]);
    }
  }

  /** Each filtered item lies in exactly one group: the one for its own category key. */
  lemma GroupsPartitionItems(api: seq<ApiCategory>, filtered: seq<Item>, x: Item, i: nat)
    requires x in filtered
    requires i < |SuggestionsByCategory(api, filtered)|
    ensures x in SuggestionsByCategory(api, filtered)[i].items <==> SuggestionsByCategory(api, filtered)[i].id == CatKey(x)
  {
  }

  /** The number of items over all groups. */
  function TotalSize(groups: seq<SuggestionGroup>): nat {
    if |groups| == 0 then 0 else |groups[0].items| + TotalSize(groups[1..])
  }

  /** The number of items filed under the given keys. */
  function CountUnder(keys: seq<string>, s: seq<Item>): nat {
    if |keys| == 0 then 0 else |Filter(s, CatKeyIs(keys[0]))| + CountUnder(keys[1..], s)
  }

  lemma {:induction false} CountUnderAppendKey(keys: seq<string>, k: string, s: seq<Item>)
    ensures CountUnder(keys + [k], s) == CountUnder(keys, s) + |Filter(s, CatKeyIs(k))|
  {
    if |keys| > 0 {
      assert (keys + [k])[1..] == keys[1..] + [k];
      CountUnderAppendKey(keys[1..], k, s);
    }
  }

  /** Appending one item adds one to the count exactly when its key is listed (once). */
  lemma {:induction false} CountUnderAppendItem(keys: seq<string>, s: seq<Item>, x: Item)
    requires NoDup(keys)
    ensures CountUnder(keys, s + [x]) == CountUnder(keys, s) + (if CatKey(x) in keys then 1 else 0)
  {
    if |keys| > 0 {
      FilterAppend(s, [x], CatKeyIs(keys[0]));
      assert NoDup(keys[1..]);
      CountUnderAppendItem(keys[1..], s, x);
      if CatKey(x) == keys[0] {
        assert CatKey(x) !in keys[1..];
      }
    }
  }

  lemma CountUnderNone(s: seq<Item>, k: string)
    requires forall x :: x in s ==> CatKey(x) != k
    ensures |Filter(s, CatKeyIs(k))| == 0
  {
    assert forall i :: 0 <= i < |s| ==> s[i] in s;
    FilterNone(s, CatKeyIs(k));
  }

  /** The keys of a list are those of all but its last item, then the last item's; a key
      new with the last item is appended to the distinct keys. */
  lemma KeysOfInitLast(s: seq<Item>)
    requires |s| > 0
    ensures s == s[..|s| - 1] + [s[|s| - 1]]
    ensures Map(s, CatKey) == Map(s[..|s| - 1], CatKey) + [CatKey(s[|s| - 1])]
    ensures Dedup(Map(s, CatKey)) == var d := Dedup(Map(s[..|s| - 1], CatKey));
              if CatKey(s[|s| - 1]) in d then d else d + [CatKey(s[|s| - 1])]
  {
    InitLast(s);
    MapAppend(s[..|s| - 1], [s[|s| - 1]], CatKey);
    DedupSnoc(Map(s[..|s| - 1], CatKey), CatKey(s[|s| - 1]));
  }

  /** Grouping the distinct keys of a list counts every item exactly once. */
  lemma {:induction false} CountUnderDistinctKeys(s: seq<Item>)
    ensures CountUnder(Dedup(Map(s, CatKey)), s) == |s|
  {
    if |s| > 0 {
      var init := s[..|s| - 1];
      var x := s[|s| - 1];
      KeysOfInitLast(s);
      var keys0 := Dedup(Map(init, CatKey));
      CountUnderDistinctKeys(init);
      CountUnderAppendItem(keys0, init, x);
      if CatKey(x) !in keys0 {
        CountUnderAppendKey(keys0, CatKey(x), s);
        CountUnderAppendItem(keys0, init, x);
        forall y | y in init ensures CatKey(y) != CatKey(x) {
          KeyListed(init, y);
        }
        CountUnderNone(init, CatKey(x));
        FilterAppend(init, [x], CatKeyIs(CatKey(x)));
      }
    }
  }

  lemma {:induction false} TotalSizeIsCountUnder(api: seq<ApiCategory>, keys: seq<string>, s: seq<Item>)
    ensures TotalSize(Map(keys, GroupOf(api, s))) == CountUnder(keys, s)
  {
    if |keys| > 0 {
      assert Map(keys, GroupOf(api, s))[1..] == Map(keys[1..], GroupOf(api, s));
      TotalSizeIsCountUnder(api, keys[1..], s);
    }
  }

  /** The groups together hold exactly as many items as the filtered list. */
  lemma GroupSizesSumToAll(api: seq<ApiCategory>, filtered: seq<Item>)
    ensures TotalSize(SuggestionsByCategory(api, filtered)) == |filtered|
  {
    TotalSizeIsCountUnder(api, Dedup(Map(filtered, CatKey)), filtered);
    CountUnderDistinctKeys(filtered);
  }

  /** `selectAll`: the ids of every available item. */
  function SelectAll(available: seq<Item>): (r: seq<string>)
    ensures NoDup(r)
    ensures forall y :: y in r <==> exists k :: 0 <= k < |available| && available[k].id == y
  {
    var ids := ItemIds(available);
    assert forall y :: y in ids <==> exists k :: 0 <= k < |available| && available[k].id == y by {
      forall y | exists k :: 0 <= k < |available| && available[k].id == y
        ensures y in ids
      {
        var k :| 0 <= k < |available| && available[k].id == y;
        assert ids[k] == y;
      }
    }
    Dedup(ids)
  }

  /** State of the screen's selection: the enabled ids and whether they were seeded. */
  datatype Selection = Selection(enabled: seq<string>, initialized: bool)

  /** The first-load step: seed the set with every available id once there is one. */
  function Initialize(s: Selection, available: seq<Item>): (r: Selection)
    ensures !s.initialized && |available| > 0 ==> r == Selection(SelectAll(available), true)
    ensures s.initialized || |available| == 0 ==> r == s
  {
    if !s.initialized && |available| > 0 then Selection(SelectAll(available), true) else s
  }

  /** Every enabled id names an available item. */
  predicate EnabledAvailable(enabled: seq<string>, available: seq<Item>) {
    forall y :: y in enabled ==> exists k :: 0 <= k < |available| && available[k].id == y
  }

  /** Seeding, select-all, clear-all and toggling a shown item keep every enabled id
      available. */
  lemma SelectionStaysAvailable(enabled: seq<string>, available: seq<Item>, k: nat)
    requires EnabledAvailable(enabled, available)
    requires k < |available|
    ensures EnabledAvailable(SelectAll(available), available)
    ensures EnabledAvailable([], available)
    ensures EnabledAvailable(Toggle(enabled, available[k].id), available)
  {
  }

  /** `handleStart`: nothing while the set is empty; otherwise a session of the available
      items whose ids are enabled, in their available order, with no scripts. */
  function HandleStart(available: seq<Item>, enabled: seq<string>): (r: Option<SessionConfig>)
    ensures r.None? <==> |enabled| == 0
    ensures r.Some? ==> forall x :: x in r.value.items <==> x in available && x.id in enabled
    ensures r.Some? ==> IsSubsequence(r.value.items, available)
    ensures r.Some? ==> forall x :: multiset(r.value.items)[x] == if x.id in enabled then multiset(available)[x] else 0
    ensures r.Some? ==> r.value.induction.None? && r.value.deepening.None? && r.value.awakening.None?
  {
    if |enabled| == 0 then None
    else
      FilterIsSubsequence(available, IdIn(enabled));
      FilterCounts(available, IdIn(enabled));
      Some(SessionConfig(Filter(available, IdIn(enabled)), None, None, None))
  }

  /** While every enabled id is available, a non-empty set always starts a non-empty
      session. */
  lemma StartNeverEmpty(available: seq<Item>, enabled: seq<string>)
    requires EnabledAvailable(enabled, available)
    requires |enabled| > 0
    ensures |HandleStart(available, enabled).value.items| > 0
  {
    assert enabled[0] in enabled;
    var k :| 0 <= k < |available| && available[k].id == enabled[0];
    assert available[k] in HandleStart(available, enabled).value.items;
  }
}
