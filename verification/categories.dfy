/** What the selection screens share about categories: the categories the
    service lists, the built-in display-name table `CATEGORY_NAMES` (the same
    table appears in the setup, suggestion and category screens), the
    distinct category ids of a playlist, the items filed under an id, and the
    two display-name fallback chains. */
module CategoryNames {
  import opened Seqs
  import opened Items
  import opened Affirmations

  /** A category as the service lists it. */
  datatype ApiCategory = ApiCategory(id: string, name: string)

  /** `CATEGORY_NAMES`: display names of the built-in category ids. */
  function BuiltInNames(): map<string, string> {
    map["financeiro" := "Financeiro", "saude" := "Saúde", "sono" := "Sono",
        "autoestima" := "Autoestima", "produtividade" := "Produtividade"]
  }

  /** The screens' name table agrees with the built-in catalogue: it has exactly the
      catalogue's ids and gives each its catalogue name. */
  lemma BuiltInNamesMatchCatalogue()
    ensures BuiltInNames().Keys == {FinanceiroId(), SaudeId(), SonoId(), AutoestimaId(), ProdutividadeId()}
    ensures BuiltInNames()[FinanceiroId()] == FinanceiroName()
    ensures BuiltInNames()[SaudeId()] == SaudeName()
    ensures BuiltInNames()[SonoId()] == SonoName()
    ensures BuiltInNames()[AutoestimaId()] == AutoestimaName()
    ensures BuiltInNames()[ProdutividadeId()] == ProdutividadeName()
  {
  }

  function ApiIdIs(id: string): ApiCategory -> bool {
    (c: ApiCategory) => c.id == id
  }

  /** `categories.find(c => c.id === catId)?.name`: the name of the first listed
      category with that id. */
  function ApiName(api: seq<ApiCategory>, id: string): (r: Option<string>)
    ensures r.None? <==> forall c :: c in api ==> c.id != id
    ensures r.Some? ==> exists k :: 0 <= k < |api| && api[k].id == id && api[k].name == r.value
                                    && forall j :: 0 <= j < k ==> api[j].id != id
  {
    match Find(api, ApiIdIs(id))
    case None => None
    case Some(c) => Some(c.name)
  }

  /** `getCategoryName` of the suggestion screen: the service's name, else the built-in
      name, else the id itself. */
  function GetCategoryName(api: seq<ApiCategory>, id: string): (n: string)
    ensures ApiName(api, id).Some? ==> n == ApiName(api, id).value
    ensures ApiName(api, id).None? && id in BuiltInNames() ==> n == BuiltInNames()[id]
    ensures ApiName(api, id).None? && id !in BuiltInNames() ==> n == id
  {
    match ApiName(api, id)
    case Some(name) => name
    case None => if id in BuiltInNames() then BuiltInNames()[id] else id
  }

  /** `categoryItems[0]?.categoryName`, "" when there is no first item. */
  function FirstItemName(categoryItems: seq<Item>): string {
    if |categoryItems| == 0 then "" else categoryItems[0].categoryName
  }

  /** The name chain of the setup and category screens: the service's name, else the
      built-in name, else the first item's `categoryName` when truthy, else the id. */
  function ResolveName(api: seq<ApiCategory>, id: string, categoryItems: seq<Item>): (n: string)
    ensures ApiName(api, id).Some? ==> n == ApiName(api, id).value
    ensures ApiName(api, id).None? ==>
              n == (if id in BuiltInNames() then BuiltInNames()[id]
                    else if FirstItemName(categoryItems) != "" then FirstItemName(categoryItems)
                    else id)
    ensures id != "" && (forall c :: c in api ==> c.name != "") ==> n != ""
  {
    match ApiName(api, id)
    case Some(name) => name
    case None =>
      if id in BuiltInNames() then BuiltInNames()[id]
      else if FirstItemName(categoryItems) != "" then FirstItemName(categoryItems)
      else id
  }

  /** The two chains agree except on an id neither the service nor the table knows:
      there the suggestion screen shows the raw id where the other screens show the
      items' own `categoryName`. */
  lemma NameChainsAgree(api: seq<ApiCategory>, id: string, categoryItems: seq<Item>)
    ensures ApiName(api, id).Some? || id in BuiltInNames() || FirstItemName(categoryItems) == ""
            ==> GetCategoryName(api, id) == ResolveName(api, id, categoryItems)
    ensures ApiName(api, id).None? && id !in BuiltInNames()
            ==> GetCategoryName(api, id) == id
                && ResolveName(api, id, categoryItems) == (if FirstItemName(categoryItems) != "" then FirstItemName(categoryItems) else id)
  {
  }

  /** Without service categories, each built-in catalogue category resolves to its
      catalogue name on every screen. */
  lemma CatalogueCategoryNamed(id: string, name: string, categoryItems: seq<Item>)
    requires (id == FinanceiroId() && name == FinanceiroName()) || (id == SaudeId() && name == SaudeName())
             || (id == SonoId() && name == SonoName()) || (id == AutoestimaId() && name == AutoestimaName())
             || (id == ProdutividadeId() && name == ProdutividadeName())
    ensures ResolveName([], id, categoryItems) == name
    ensures GetCategoryName([], id) == name
  {
    BuiltInNamesMatchCatalogue();
  }

  /** `item.categoryId || item.category` is truthy. */
  predicate HasCatKey(i: Item) {
    CatKey(i) != ""
  }

  function NonEmpty(s: string): bool {
    s != ""
  }

  /** `[...new Set(playlist.map(item => item.categoryId || item.category).filter(Boolean))]`. */
  function CategoryIds(playlist: seq<Item>): (r: seq<string>)
    ensures NoDup(r)
    ensures forall id :: id in r <==> id != "" && exists i :: 0 <= i < |playlist| && CatKey(playlist[i]) == id
  {
    var keys := Map(playlist, CatKey);
    var r := Dedup(Filter(keys, NonEmpty));
    assert forall id :: id in keys <==> exists i :: 0 <= i < |playlist| && CatKey(playlist[i]) == id by {
      forall id | id in keys
        ensures exists i :: 0 <= i < |playlist| && CatKey(playlist[i]) == id
      {
        var i :| 0 <= i < |keys| && keys[i] == id;
      }
    }
    r
  }

  /** `(item.categoryId === catId) || (item.category === catId)`. */
  function BelongsTo(catId: string): Item -> bool {
    (i: Item) => i.categoryId == catId || i.category == catId
  }

  /** The items a screen files under `catId`, in playlist order. */
  function CategoryItems(playlist: seq<Item>, catId: string): (r: seq<Item>)
    ensures forall x :: x in r <==> x in playlist && (x.categoryId == catId || x.category == catId)
    ensures forall x :: multiset(r)[x] == if x.categoryId == catId || x.category == catId then multiset(playlist)[x] else 0
    ensures IsSubsequence(r, playlist)
  {
    FilterIsSubsequence(playlist, BelongsTo(catId));
    FilterCounts(playlist, BelongsTo(catId));
    Filter(playlist, BelongsTo(catId))
  }

  /** The items filed under `catId` that have audio (`withAudio`). */
  function PlayableItems(playlist: seq<Item>, catId: string): (r: seq<Item>)
    ensures |r| <= |CategoryItems(playlist, catId)|
    ensures forall x :: x in r <==> x in playlist && HasAudio(x) && (x.categoryId == catId || x.category == catId)
    ensures forall x :: multiset(r)[x] == if HasAudio(x) then multiset(CategoryItems(playlist, catId))[x] else 0
    ensures IsSubsequence(r, CategoryItems(playlist, catId))
  {
    FilterIsSubsequence(CategoryItems(playlist, catId), HasAudio);
    FilterCounts(CategoryItems(playlist, catId), HasAudio);
    Filter(CategoryItems(playlist, catId), HasAudio)
  }

  /** Every listed category id has at least one item filed under it. */
  lemma ListedCategoriesNonEmpty(playlist: seq<Item>, catId: string)
    requires catId in CategoryIds(playlist)
    ensures |CategoryItems(playlist, catId)| > 0
  {
    var i :| 0 <= i < |playlist| && CatKey(playlist[i]) == catId;
    assert playlist[i] in CategoryItems(playlist, catId);
  }
}
