/** The session-setup screen: per-category summaries of the playlist, the set
    of enabled affirmation ids (a JavaScript `Set`, kept here as a
    duplicate-free sequence), script auto-selection, the duration estimate and
    the session handed to the player. Toggling a single affirmation is
    `Seqs.Toggle`. */
module SetupScreen {
  import opened Seqs
  import opened Items
  import opened CategoryNames
  import opened JsMath

  /** One entry of `categoryData`. */
  datatype SetupCategory = SetupCategory(id: string, name: string, items: seq<Item>, enabledCount: nat, totalCount: nat)

  /** The summary of one category: its playable items, how many of them are enabled
      and how many there are. */
  function CategoryEntry(api: seq<ApiCategory>, playlist: seq<Item>, enabled: seq<string>, catId: string): (e: SetupCategory)
    ensures e.id == catId && e.items == PlayableItems(playlist, catId)
    ensures e.totalCount == |e.items|
    ensures e.enabledCount <= e.totalCount
    ensures e.enabledCount == |Filter(e.items, IdIn(enabled))|
    ensures e.name == ResolveName(api, catId, CategoryItems(playlist, catId))
  {
    var withAudio := PlayableItems(playlist, catId);
    SetupCategory(catId, ResolveName(api, catId, CategoryItems(playlist, catId)), withAudio,
                  Count(withAudio, IdIn(enabled)), |withAudio|)
  }

  /** `categoryData`: one summary per distinct truthy category key of the playlist. */
  function CategoryData(api: seq<ApiCategory>, playlist: seq<Item>, enabled: seq<string>): (r: map<string, SetupCategory>)
    ensures forall id :: id in r <==> id in CategoryIds(playlist)
    ensures forall id :: id in r ==> r[id] == CategoryEntry(api, playlist, enabled, id)
  {
    map id | id in CategoryIds(playlist) :: CategoryEntry(api, playlist, enabled, id)
  }

  /** Every item of the category is enabled (`every`, so true for no items). */
  predicate AllEnabled(items: seq<Item>, enabled: seq<string>) {
    forall k :: 0 <= k < |items| ==> items[k].id in enabled
  }

  /** Toggling a group of items together: when every one is enabled they are all removed,
      otherwise they are all added. */
  function ToggleItems(items: seq<Item>, enabled: seq<string>): (r: seq<string>)
    ensures AllEnabled(items, enabled) ==> forall y :: y in r <==> y in enabled && y !in ItemIds(items)
    ensures !AllEnabled(items, enabled) ==> forall y :: y in r <==> y in enabled || y in ItemIds(items)
    ensures NoDup(enabled) ==> NoDup(r)
  {
    if AllEnabled(items, enabled) then RemoveAll(enabled, ItemIds(items))
    else AddAll(enabled, ItemIds(items))
  }

  /** After a group toggle the group is either wholly enabled or wholly disabled. */
  lemma ToggleItemsAllOrNone(items: seq<Item>, enabled: seq<string>)
    ensures var r := ToggleItems(items, enabled);
            AllEnabled(items, r) || forall k :: 0 <= k < |items| ==> items[k].id !in r
  {
    var ids := ItemIds(items);
    assert forall k :: 0 <= k < |items| ==> items[k].id in ids by {
      forall k | 0 <= k < |items| ensures items[k].id in ids {
        assert ids[k] == items[k].id;
      }
    }
  }

  /** Toggling a wholly enabled, non-empty group twice restores the set. */
  lemma {:induction false} ToggleItemsTwice(items: seq<Item>, enabled: seq<string>)
    requires |items| > 0
    requires AllEnabled(items, enabled)
    ensures forall y :: y in ToggleItems(items, ToggleItems(items, enabled)) <==> y in enabled
  {
    var ids := ItemIds(items);
    var once := ToggleItems(items, enabled);
    assert items[0].id == ids[0];
    assert items[0].id !in once;
    assert !AllEnabled(items, once);
    forall y
      ensures y in ToggleItems(items, once) <==> y in enabled
    {
      if y in ids {
        var k :| 0 <= k < |ids| && ids[k] == y;
        assert items[k].id == y;
      }
    }
  }

  /** `toggleCategory`: an unknown category changes nothing; when every playable item of the
      category is enabled they are all disabled, otherwise they are all enabled. */
  function ToggleCategory(playlist: seq<Item>, enabled: seq<string>, catId: string): (r: seq<string>)
    ensures catId !in CategoryIds(playlist) ==> r == enabled
    ensures catId in CategoryIds(playlist) && AllEnabled(PlayableItems(playlist, catId), enabled) ==>
              forall y :: y in r <==> y in enabled && y !in ItemIds(PlayableItems(playlist, catId))
    ensures catId in CategoryIds(playlist) && !AllEnabled(PlayableItems(playlist, catId), enabled) ==>
              forall y :: y in r <==> y in enabled || y in ItemIds(PlayableItems(playlist, catId))
    ensures NoDup(enabled) ==> NoDup(r)
  {
    if catId !in CategoryIds(playlist) then enabled
    else ToggleItems(PlayableItems(playlist, catId), enabled)
  }

  /** Ids outside the category are never affected by toggling it. */
  lemma ToggleCategoryLocal(playlist: seq<Item>, enabled: seq<string>, catId: string, y: string)
    requires forall x :: x in playlist && HasAudio(x) && (x.categoryId == catId || x.category == catId) ==> x.id != y
    ensures y in ToggleCategory(playlist, enabled, catId) <==> y in enabled
  {
    if catId in CategoryIds(playlist) {
      var items := PlayableItems(playlist, catId);
      var ids := ItemIds(items);
      forall k | 0 <= k < |ids|
        ensures ids[k] != y
      {
        assert items[k] in items;
      }
      assert y !in ids;
    }
  }

  /** After a toggle, a listed category is either wholly enabled or wholly disabled. */
  lemma ToggleCategoryAllOrNone(playlist: seq<Item>, enabled: seq<string>, catId: string)
    requires catId in CategoryIds(playlist)
    ensures var items := PlayableItems(playlist, catId);
            var r := ToggleCategory(playlist, enabled, catId);
            AllEnabled(items, r) || forall k :: 0 <= k < |items| ==> items[k].id !in r
  {
    ToggleItemsAllOrNone(PlayableItems(playlist, catId), enabled);
  }

  /** Toggling a fully enabled category with playable items twice restores the set. */
  lemma ToggleCategoryTwice(playlist: seq<Item>, enabled: seq<string>, catId: string)
    requires catId in CategoryIds(playlist)
    requires |PlayableItems(playlist, catId)| > 0
    requires AllEnabled(PlayableItems(playlist, catId), enabled)
    ensures forall y :: y in ToggleCategory(playlist, ToggleCategory(playlist, enabled, catId), catId) <==> y in enabled
  {
    ToggleItemsTwice(PlayableItems(playlist, catId), enabled);
  }

  /** The id belongs to a playlist item that has audio. */
  function PlayableId(playlist: seq<Item>): string -> bool {
    (id: string) => exists k :: 0 <= k < |playlist| && playlist[k].id == id && HasAudio(playlist[k])
  }

  /** `totalEnabled`: the enabled ids that match a playlist item with audio. */
  function TotalEnabled(playlist: seq<Item>, enabled: seq<string>): (n: nat)
    ensures n <= |enabled|
    ensures n == |Filter(enabled, PlayableId(playlist))|
  {
    Count(enabled, PlayableId(playlist))
  }

  function Startable(enabled: seq<string>): Item -> bool {
    (i: Item) => i.id in enabled && HasAudio(i)
  }

  /** The items the session starts with: enabled and with audio, in playlist order. */
  function SessionItems(playlist: seq<Item>, enabled: seq<string>): (r: seq<Item>)
    ensures forall x :: x in r <==> x in playlist && x.id in enabled && HasAudio(x)
    ensures forall x :: multiset(r)[x] == if x.id in enabled && HasAudio(x) then multiset(playlist)[x] else 0
    ensures IsSubsequence(r, playlist)
  {
    FilterIsSubsequence(playlist, Startable(enabled));
    FilterCounts(playlist, Startable(enabled));
    Filter(playlist, Startable(enabled))
  }

  /** The start guard and the emitted list agree: nothing counts as enabled exactly when
      no item would be played. */
  lemma StartGuardMatchesItems(playlist: seq<Item>, enabled: seq<string>)
    ensures TotalEnabled(playlist, enabled) == 0 <==> SessionItems(playlist, enabled) == []
  {
    var f := Filter(enabled, PlayableId(playlist));
    var s := SessionItems(playlist, enabled);
    if |f| > 0 {
      assert f[0] in f;
      var k :| 0 <= k < |playlist| && playlist[k].id == f[0] && HasAudio(playlist[k]);
      assert playlist[k] in s;
    }
    if |s| > 0 {
      assert s[0] in s;
      var k :| 0 <= k < |playlist| && playlist[k] == s[0];
      assert PlayableId(playlist)(s[0].id);
      assert s[0].id in f;
    }
  }

  /** `scripts.find(s => s.id === selected)`: the selected script, if any; nothing is selected
      while the selection is null. */
  function SelectedScript(scripts: seq<Script>, selected: Option<string>): (r: Option<Script>)
    ensures r.Some? ==> selected.Some? && r.value in scripts && r.value.id == selected.value
    ensures r.None? <==> selected.None? || forall s :: s in scripts ==> s.id != selected.value
    ensures r.Some? ==> exists k :: 0 <= k < |scripts| && scripts[k] == r.value &&
                                    forall i :: 0 <= i < k ==> scripts[i].id != selected.value
  {
    match selected
    case None => None
    case Some(id) => Find(scripts, (s: Script) => s.id == id)
  }

  function Free(s: Script): bool {
    !s.premium
  }

  /** Script auto-selection: the id of the first non-premium script of a kind, if any. */
  function FirstFree(scripts: seq<Script>): (r: Option<string>)
    ensures r.None? <==> forall s :: s in scripts ==> s.premium
    ensures r.Some? ==> exists k :: 0 <= k < |scripts| && !scripts[k].premium && scripts[k].id == r.value
                                    && forall j :: 0 <= j < k ==> scripts[j].premium
  {
    match Find(scripts, Free)
    case None => None
    case Some(s) => Some(s.id)
  }

  /** With distinct script ids, the auto-selected id resolves to the first free script. */
  lemma AutoSelectionResolves(scripts: seq<Script>)
    requires forall i, j :: 0 <= i < j < |scripts| ==> scripts[i].id != scripts[j].id
    requires exists s :: s in scripts && !s.premium
    ensures SelectedScript(scripts, FirstFree(scripts)).Some?
    ensures !SelectedScript(scripts, FirstFree(scripts)).value.premium
  {
    var k :| 0 <= k < |scripts| && !scripts[k].premium && scripts[k].id == FirstFree(scripts).value
             && forall j :: 0 <= j < k ==> scripts[j].premium;
    var r := SelectedScript(scripts, FirstFree(scripts));
    assert scripts[k] in scripts;
    var m :| 0 <= m < |scripts| && scripts[m] == r.value;
    assert m == k;
  }

  /** The ids the enabled set is seeded with when the playlist loads while the set is
      empty: every playlist item with audio. */
  function InitialEnabled(playlist: seq<Item>, enabled: seq<string>): (r: seq<string>)
    ensures |playlist| == 0 || |enabled| > 0 ==> r == enabled
    ensures |playlist| > 0 && |enabled| == 0 ==>
              NoDup(r) && forall y :: y in r <==> exists k :: 0 <= k < |playlist| && playlist[k].id == y && HasAudio(playlist[k])
  {
    if |playlist| > 0 && |enabled| == 0 then
      var withAudio := Filter(playlist, HasAudio);
      var ids := ItemIds(withAudio);
      assert forall y :: y in ids <==> exists k :: 0 <= k < |playlist| && playlist[k].id == y && HasAudio(playlist[k]) by {
        forall y
          ensures y in ids <==> exists k :: 0 <= k < |playlist| && playlist[k].id == y && HasAudio(playlist[k])
        {
          if y in ids {
            var j :| 0 <= j < |ids| && ids[j] == y;
            assert withAudio[j] in withAudio;
          }
          if exists k :: 0 <= k < |playlist| && playlist[k].id == y && HasAudio(playlist[k]) {
            var k :| 0 <= k < |playlist| && playlist[k].id == y && HasAudio(playlist[k]);
            assert playlist[k] in withAudio;
            var j :| 0 <= j < |withAudio| && withAudio[j] == playlist[k];
            assert ids[j] == y;
          }
        }
      }
      Dedup(ids)
    else enabled
  }

  /** `duration_estimate_sec || fallback` for a selected script, 0 when none is selected. */
  function ScriptSeconds(s: Option<Script>, fallback: int): int {
    match s
    case None => 0
    case Some(x) => if x.durationSec != 0 then x.durationSec else fallback
  }

  /** `estimatedDuration` in whole minutes: induction (60 s by default), deepening (60 s) and
      awakening (45 s) when selected, plus 5 s per enabled affirmation, rounded up. */
  function EstimatedMinutes(induction: Option<Script>, deepening: Option<Script>, awakening: Option<Script>, totalEnabled: nat): (m: int)
    ensures var seconds := ScriptSeconds(induction, 60) + ScriptSeconds(deepening, 60) + ScriptSeconds(awakening, 45) + 5 * totalEnabled;
            60 * (m - 1) < seconds <= 60 * m
  {
    CeilDiv(ScriptSeconds(induction, 60) + ScriptSeconds(deepening, 60) + ScriptSeconds(awakening, 45) + 5 * totalEnabled, 60)
  }

  /** Enabling one more affirmation never lowers the estimate and raises it by at most a
      minute. */
  lemma EstimateStepsByAtMostOneMinute(induction: Option<Script>, deepening: Option<Script>, awakening: Option<Script>, n: nat)
    ensures EstimatedMinutes(induction, deepening, awakening, n) <= EstimatedMinutes(induction, deepening, awakening, n + 1)
    ensures EstimatedMinutes(induction, deepening, awakening, n + 1) <= EstimatedMinutes(induction, deepening, awakening, n) + 1
  {
  }

  /** `handleStart`: nothing when no enabled id matches a playable item; otherwise the
      enabled items with audio, in playlist order, and the selected scripts. */
  function HandleStart(playlist: seq<Item>, enabled: seq<string>,
                       inductions: seq<Script>, deepenings: seq<Script>, awakenings: seq<Script>,
                       selInduction: Option<string>, selDeepening: Option<string>, selAwakening: Option<string>): (r: Option<SessionConfig>)
    ensures r.None? <==> TotalEnabled(playlist, enabled) == 0
    ensures r.Some? ==> |r.value.items| > 0 && r.value.items == SessionItems(playlist, enabled)
    ensures r.Some? ==> IsSubsequence(r.value.items, playlist)
                        && forall x :: x in r.value.items <==> x in playlist && x.id in enabled && HasAudio(x)
    ensures r.Some? ==> r.value.induction == SelectedScript(inductions, selInduction)
                        && r.value.deepening == SelectedScript(deepenings, selDeepening)
                        && r.value.awakening == SelectedScript(awakenings, selAwakening)
  {
    StartGuardMatchesItems(playlist, enabled);
    if TotalEnabled(playlist, enabled) == 0 then None
    else Some(SessionConfig(SessionItems(playlist, enabled), SelectedScript(inductions, selInduction),
                            SelectedScript(deepenings, selDeepening), SelectedScript(awakenings, selAwakening)))
  }
}
