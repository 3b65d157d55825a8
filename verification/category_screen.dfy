/** The category-selection screen: per-category counts of the playlist, the
    set of selected category ids (a JavaScript `Set`, kept as a duplicate-free
    sequence in insertion order; toggling one id is `Seqs.Toggle`), the totals
    over the selection and the step to the suggestion screen. */
module CategoryScreen {
  import opened Seqs
  import opened Items
  import opened CategoryNames

  /** One entry of `categoryStats` (icon and colours are presentation only). */
  datatype Stat = Stat(id: string, name: string, total: nat, withAudio: nat)

  /** The counts of one category: all its items, and those with audio. */
  function StatOf(api: seq<ApiCategory>, playlist: seq<Item>, catId: string): (s: Stat)
    ensures s.id == catId
    ensures s.name == ResolveName(api, catId, CategoryItems(playlist, catId))
    ensures s.total == |CategoryItems(playlist, catId)|
    ensures s.withAudio == |PlayableItems(playlist, catId)|
    ensures s.withAudio <= s.total
  {
    var items := CategoryItems(playlist, catId);
    Stat(catId, ResolveName(api, catId, items), |items|, |PlayableItems(playlist, catId)|)
  }

  /** `categoryStats`: one entry per distinct truthy category key, never an empty one. */
  function CategoryStats(api: seq<ApiCategory>, playlist: seq<Item>): (r: map<string, Stat>)
    ensures forall id :: id in r <==> id in CategoryIds(playlist)
    ensures forall id :: id in r ==> r[id] == StatOf(api, playlist, id)
    ensures forall id :: id in r ==> r[id].total >= 1 && r[id].withAudio <= r[id].total
  {
    forall id | id in CategoryIds(playlist)
      ensures |CategoryItems(playlist, id)| >= 1
    {
      ListedCategoriesNonEmpty(playlist, id);
    }
    map id | id in CategoryIds(playlist) :: StatOf(api, playlist, id)
  }

  /** Every entry has no more items with audio than items. */
  predicate WellFormed(stats: map<string, Stat>) {
    forall id :: id in stats ==> stats[id].withAudio <= stats[id].total
  }

  /** `selectAll`: every key of `categoryStats`, in key order. */
  function SelectAll(playlist: seq<Item>): (r: seq<string>)
    ensures NoDup(r)
    ensures forall id :: id in r <==> id != "" && exists i :: 0 <= i < |playlist| && CatKey(playlist[i]) == id
  {
    CategoryIds(playlist)
  }

  /** `selectedStats`: the sums of `total` and `withAudio` over the selected ids that have
      an entry; ids without one are skipped. */
  function SelectedStats(selected: seq<string>, stats: map<string, Stat>): (nat, nat) {
    if |selected| == 0 then (0, 0)
    else
      var rest := SelectedStats(selected[1..], stats);
      if selected[0] in stats then (stats[selected[0]].total + rest.0, stats[selected[0]].withAudio + rest.1)
      else rest
  }

  /** With well-formed entries the selection never has more items with audio than items. */
  lemma {:induction false} SelectedWithAudioAtMostTotal(selected: seq<string>, stats: map<string, Stat>)
    requires WellFormed(stats)
    ensures SelectedStats(selected, stats).1 <= SelectedStats(selected, stats).0
  {
    if |selected| > 0 {
      SelectedWithAudioAtMostTotal(selected[1..], stats);
    }
  }

  lemma {:induction false} SelectedStatsAppend(a: seq<string>, b: seq<string>, stats: map<string, Stat>)
    ensures SelectedStats(a + b, stats).0 == SelectedStats(a, stats).0 + SelectedStats(b, stats).0
    ensures SelectedStats(a + b, stats).1 == SelectedStats(a, stats).1 + SelectedStats(b, stats).1
  {
    if |a| == 0 {
      assert a + b == b;
    } else {
      assert (a + b)[1..] == a[1..] + b;
      SelectedStatsAppend(a[1..], b, stats);
    }
  }

  /** Taking one id out of the middle of a selection and putting it in front leaves the
      totals unchanged. */
  lemma {:induction false} SelectedStatsMoveFront(b: seq<string>, k: nat, stats: map<string, Stat>)
    requires k < |b|
    ensures SelectedStats(b, stats) == SelectedStats([b[k]] + (b[..k] + b[k + 1..]), stats)
  {
    var x := b[k];
    assert b == (b[..k] + [x]) + b[k + 1..];
    SelectedStatsAppend(b[..k] + [x], b[k + 1..], stats);
    SelectedStatsAppend(b[..k], [x], stats);
    SelectedStatsAppend(b[..k], b[k + 1..], stats);
    SelectedStatsAppend([x], b[..k] + b[k + 1..], stats);
  }

  lemma SelectedStatsCons(x: string, t: seq<string>, stats: map<string, Stat>)
    ensures SelectedStats([x] + t, stats)
            == if x in stats then (stats[x].total + SelectedStats(t, stats).0, stats[x].withAudio + SelectedStats(t, stats).1)
               else SelectedStats(t, stats)
  {
    assert ([x] + t)[1..] == t;
  }

  /** The totals depend only on which ids are selected, not on the order they were
      selected in. */
  lemma {:induction false} SelectedStatsPermutation(a: seq<string>, b: seq<string>, stats: map<string, Stat>)
    requires multiset(a) == multiset(b)
    ensures SelectedStats(a, stats) == SelectedStats(b, stats)
    decreases |a|
  {
    if |a| == 0 {
      assert |b| == |multiset(b)| == 0;
    } else {
      var x := a[0];
      var k := PickOut(a, b);
      var b' := b[..k] + b[k + 1..];
      assert a == [x] + a[1..];
      SelectedStatsPermutation(a[1..], b', stats);
      SelectedStatsMoveFront(b, k, stats);
      SelectedStatsCons(x, a[1..], stats);
      SelectedStatsCons(x, b', stats);
    }
  }

  /** Ids without an entry add nothing: selecting an unknown id leaves the totals as they
      were. */
  lemma {:induction false} UnknownIdsIgnored(selected: seq<string>, stats: map<string, Stat>, x: string)
    requires x !in stats
    ensures SelectedStats(selected + [x], stats) == SelectedStats(selected, stats)
  {
    SelectedStatsAppend(selected, [x], stats);
    assert [x][1..] == [];
  }

  /** `handleNext`: nothing while the selection is empty; otherwise the selected ids in
      the order they were added. */
  function HandleNext(selected: seq<string>): (r: Option<seq<string>>)
    ensures r.None? <==> |selected| == 0
    ensures r.Some? ==> r.value == selected
  {
    if |selected| == 0 then None else Some(selected)
  }

  /** The continue button is enabled only when a selected category has a suggestion
      with audio; pressing it then always moves on. */
  lemma {:induction false} EnabledButtonMovesOn(selected: seq<string>, stats: map<string, Stat>)
    requires SelectedStats(selected, stats).1 != 0
    ensures exists k :: 0 <= k < |selected| && selected[k] in stats && stats[selected[k]].withAudio > 0
    ensures HandleNext(selected).Some?
  {
    if selected[0] !in stats || stats[selected[0]].withAudio == 0 {
      EnabledButtonMovesOn(selected[1..], stats);
      var k :| 0 <= k < |selected[1..]| && selected[1..][k] in stats && stats[selected[1..][k]].withAudio > 0;
      assert selected[k + 1] == selected[1..][k];
    }
  }
}
