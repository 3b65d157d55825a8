/** The affirmation provider: the playlist with its derived lists, the clip
    cache, and the sequencer that plays the active list one clip after another
    with a gap in between.

    Audio elements are handles drawn from a counter; `setTimeout` is a pending
    timer record (every timer here calls `nextAffirmation` when it fires), and
    clip events (start, end, error) are inputs. */
module Provider {
  import opened Seqs
  import opened Items
  import Reorder

  /** The clip cache: audio url to audio element. */
  type Cache = map<string, nat>

  datatype Sequencer = Sequencer(
    playlist: seq<Item>,
    sessionItems: seq<Item>,
    currentIndex: int,
    gapSec: int,
    isRunning: bool,
    isPlayingAudio: bool,
    cache: Cache,
    audio: Option<nat>,
    timers: map<nat, int>,
    gapTimer: Option<nat>,
    nextHandle: nat)

  /** Handles are drawn from `nextHandle`, so every element and timer handle lies below it. */
  predicate Valid(s: Sequencer) {
    s.currentIndex >= 0
    && (forall u :: u in s.cache ==> s.cache[u] < s.nextHandle)
    && (forall h :: h in s.timers ==> h < s.nextHandle)
    && (s.audio.Some? ==> s.audio.value < s.nextHandle)
  }

  // ---------------------------------------------------------------------------
  // Derived lists
  // ---------------------------------------------------------------------------

  predicate IsEnabled(i: Item) {
    i.enabled
  }

  /** `enabledItemsSorted`: the enabled items by `order`. */
  function EnabledItemsSorted(playlist: seq<Item>): (r: seq<Item>)
    ensures SortedBy(r, OrderKey)
    ensures multiset(r) == multiset(Filter(playlist, IsEnabled))
  {
    SortByOrder(Filter(playlist, IsEnabled))
  }

  /** `activeItems`: the prepared session when there is one, else the enabled items. */
  function ActiveItems(s: Sequencer): (r: seq<Item>)
    ensures |s.sessionItems| > 0 ==> r == s.sessionItems
    ensures |s.sessionItems| == 0 ==> r == EnabledItemsSorted(s.playlist)
  {
    if |s.sessionItems| > 0 then s.sessionItems else EnabledItemsSorted(s.playlist)
  }

  /** `currentItem`: the active item at the index, wrapped to the list; none when empty. */
  function CurrentItem(s: Sequencer): (r: Option<Item>)
    requires s.currentIndex >= 0
    ensures r.None? <==> |ActiveItems(s)| == 0
    ensures r.Some? ==> r.value in ActiveItems(s)
    ensures r.Some? && s.currentIndex < |ActiveItems(s)| ==> r.value == ActiveItems(s)[s.currentIndex]
  {
    var active := ActiveItems(s);
    if |active| == 0 then None else Some(active[s.currentIndex % |active|])
  }

  /** An index one full turn further names the same item: with the in-range clause of
      `CurrentItem`, this fixes the item for every index, as `% activeItems.length` does. */
  lemma CurrentItemPeriodic(s: Sequencer, i: int)
    requires i >= 0
    ensures CurrentItem(s.(currentIndex := i + |ActiveItems(s)|)) == CurrentItem(s.(currentIndex := i))
  {
    CurrentItemAt(s, i);
    CurrentItemAt(s, i + |ActiveItems(s)|);
    WrappedPeriodic(ActiveItems(s), i);
  }

  /** `list[j % list.length]`, none for an empty list. */
  function Wrapped(list: seq<Item>, j: nat): Option<Item> {
    if |list| == 0 then None else Some(list[j % |list|])
  }

  lemma WrappedPeriodic(list: seq<Item>, j: nat)
    ensures Wrapped(list, j + |list|) == Wrapped(list, j)
  {
    if |list| > 0 {
      ModShift(j, |list|);
    }
  }

  /** The item at index `j`, with the active list unaffected by the index. */
  lemma CurrentItemAt(s: Sequencer, j: nat)
    ensures CurrentItem(s.(currentIndex := j)) == Wrapped(ActiveItems(s), j)
  {
    assert ActiveItems(s.(currentIndex := j)) == ActiveItems(s);
  }

  /** Adding the modulus does not change the remainder. */
  lemma ModShift(a: nat, m: nat)
    requires m > 0
    ensures (a + m) % m == a % m
  {
    var q, r := a / m, a % m;
    assert a == q * m + r;
    assert a + m == (q + 1) * m + r;
    ModOf(a + m, m, q + 1, r);
  }

  /** `currentAffirmation`: the current item's text, "" when there is none. */
  function CurrentText(s: Sequencer): (t: string)
    requires s.currentIndex >= 0
    ensures CurrentItem(s).None? ==> t == ""
    ensures CurrentItem(s).Some? ==> t == CurrentItem(s).value.text
  {
    match CurrentItem(s)
    case None => ""
    case Some(i) => i.text
  }

  // ---------------------------------------------------------------------------
  // Clip cache
  // ---------------------------------------------------------------------------

  /** `preloadAudioUrl`: nothing for an empty url or one already cached; otherwise a new
      element is cached under the url. */
  function PreloadUrl(cache: Cache, next: nat, url: string): (r: (Cache, nat))
    ensures url == "" || url in cache ==> r == (cache, next)
    ensures url != "" && url !in cache ==> r == (cache[url := next], next + 1)
    ensures r.0.Keys == if url == "" then cache.Keys else cache.Keys + {url}
    ensures forall u :: u in cache ==> u in r.0 && r.0[u] == cache[u]
  {
    if url == "" || url in cache then (cache, next) else (cache[url := next], next + 1)
  }

  /** Preloading a url twice is preloading it once. */
  lemma PreloadIdempotent(cache: Cache, next: nat, url: string)
    ensures var once := PreloadUrl(cache, next, url); PreloadUrl(once.0, once.1, url) == once
  {
  }

  /** The audio urls of the items that have one. */
  function AudioUrls(items: seq<Item>): (r: set<string>)
    ensures forall u :: u in r <==> exists k :: 0 <= k < |items| && HasAudio(items[k]) && items[k].audioUrl == u
  {
    set k | 0 <= k < |items| && HasAudio(items[k]) :: items[k].audioUrl
  }

  /** The urls of a list are those of its first item and those of the rest. */
  lemma AudioUrlsSplit(items: seq<Item>)
    requires |items| > 0
    ensures AudioUrls(items) == (if HasAudio(items[0]) then {items[0].audioUrl} else {}) + AudioUrls(items[1..])
  {
    forall u | u in AudioUrls(items)
      ensures u in (if HasAudio(items[0]) then {items[0].audioUrl} else {}) + AudioUrls(items[1..])
    {
      var k :| 0 <= k < |items| && HasAudio(items[k]) && items[k].audioUrl == u;
      if k > 0 {
        assert items[1..][k - 1] == items[k];
      }
    }
    forall u | u in AudioUrls(items[1..])
      ensures u in AudioUrls(items)
    {
      var k :| 0 <= k < |items[1..]| && HasAudio(items[1..][k]) && items[1..][k].audioUrl == u;
      assert items[k + 1] == items[1..][k];
    }
  }

  /** `preloadAudioForItems`: every item with audio is preloaded, in order. */
  function PreloadItems(cache: Cache, next: nat, items: seq<Item>): (r: (Cache, nat))
    ensures r.0.Keys == cache.Keys + AudioUrls(items)
    ensures forall u :: u in cache ==> r.0[u] == cache[u]
    ensures r.1 >= next
    ensures forall u :: u in r.0 && u !in cache ==> next <= r.0[u] < r.1
    decreases |items|
  {
    if |items| == 0 then (cache, next)
    else
      var first := if HasAudio(items[0]) then PreloadUrl(cache, next, items[0].audioUrl) else (cache, next);
      var r := PreloadItems(first.0, first.1, items[1..]);
      AudioUrlsSplit(items);
      r
  }

  /** Preloading the same items again changes nothing. */
  lemma {:induction false} PreloadItemsIdempotent(cache: Cache, next: nat, items: seq<Item>)
    requires AudioUrls(items) <= cache.Keys
    ensures PreloadItems(cache, next, items) == (cache, next)
    decreases |items|
  {
    if |items| > 0 {
      AudioUrlsSplit(items);
      PreloadItemsIdempotent(cache, next, items[1..]);
    }
  }

  /** `playAudio` (cache part): nothing for an empty url; otherwise the url's cached
      element, created and cached on a miss, becomes the current clip. Whether it then
      plays is reported by the clip's own start event. */
  function PlayAudio(s: Sequencer, url: string): (r: Sequencer)
    ensures url == "" ==> r == s
    ensures url != "" ==> url in r.cache && r.audio == Some(r.cache[url])
    ensures url != "" && url in s.cache ==> r == s.(audio := Some(s.cache[url]))
    ensures r.cache.Keys == if url == "" then s.cache.Keys else s.cache.Keys + {url}
    ensures r.(cache := s.cache, audio := s.audio, nextHandle := s.nextHandle) == s
    ensures Valid(s) ==> Valid(r)
  {
    if url == "" then s
    else
      var p := PreloadUrl(s.cache, s.nextHandle, url);
      s.(cache := p.0, nextHandle := p.1, audio := Some(p.0[url]))
  }

  // ---------------------------------------------------------------------------
  // Sequencer
  // ---------------------------------------------------------------------------

  /** `setTimeout(nextAffirmation, delay)`, its handle kept in `gapTimerRef`. A timer
      already referenced there stays pending. */
  function ScheduleNext(s: Sequencer, delayMs: int): (r: Sequencer)
    ensures r.gapTimer == Some(s.nextHandle) && r.timers == s.timers[s.nextHandle := delayMs]
    ensures r.(timers := s.timers, gapTimer := s.gapTimer, nextHandle := s.nextHandle) == s
  {
    s.(timers := s.timers[s.nextHandle := delayMs], gapTimer := Some(s.nextHandle), nextHandle := s.nextHandle + 1)
  }

  /** Presenting an item: its clip is played when it has audio; otherwise, while the
      sequence runs, the next item is due after 3 s plus the gap, and while it does not,
      nothing happens. Pending timers stay pending and cached clips stay cached. */
  function ShowItem(s: Sequencer, item: Item): (r: Sequencer)
    ensures HasAudio(item) ==> item.audioUrl in r.cache && r.audio == Some(r.cache[item.audioUrl])
                               && r.timers == s.timers && r.gapTimer == s.gapTimer
    ensures !HasAudio(item) && s.isRunning ==>
              r.gapTimer == Some(s.nextHandle) && r.timers == s.timers[s.nextHandle := 3000 + s.gapSec * 1000]
    ensures !HasAudio(item) && !s.isRunning ==> r == s
    ensures r == s.(cache := r.cache, nextHandle := r.nextHandle, audio := r.audio, timers := r.timers, gapTimer := r.gapTimer)
    ensures forall u :: u in s.cache ==> u in r.cache && r.cache[u] == s.cache[u]
    ensures Valid(s) ==> Valid(r)
  {
    if HasAudio(item) then PlayAudio(s, item.audioUrl)
    else if s.isRunning then ScheduleNext(s, 3000 + s.gapSec * 1000)
    else s
  }

  /** `nextAffirmation`: nothing on an empty active list; otherwise the index moves one
      on, wrapping to the start, and the item there is played, or shown for 3 s plus the
      gap when it has no audio and the sequence is running. */
  function NextAffirmation(s: Sequencer): (r: Sequencer)
    requires s.currentIndex >= 0
    ensures |ActiveItems(s)| == 0 ==> r == s
    ensures |ActiveItems(s)| > 0 ==> r.currentIndex == (s.currentIndex + 1) % |ActiveItems(s)|
    ensures |ActiveItems(s)| > 0 ==> 0 <= r.currentIndex < |ActiveItems(s)|
    ensures ActiveItems(r) == ActiveItems(s) && r.isRunning == s.isRunning
    ensures |ActiveItems(s)| > 0 ==> var it := ActiveItems(s)[r.currentIndex];
              (HasAudio(it) ==> it.audioUrl in r.cache && r.audio == Some(r.cache[it.audioUrl]))
              && (!HasAudio(it) && s.isRunning ==>
                    r.gapTimer == Some(s.nextHandle) && r.timers == s.timers[s.nextHandle := 3000 + s.gapSec * 1000])
              && (!HasAudio(it) && !s.isRunning ==> r == s.(currentIndex := r.currentIndex))
    ensures r == s.(currentIndex := r.currentIndex, cache := r.cache, nextHandle := r.nextHandle,
                    audio := r.audio, timers := r.timers, gapTimer := r.gapTimer)
    ensures Valid(s) ==> Valid(r)
  {
    var active := ActiveItems(s);
    if |active| == 0 then s
    else
      var nextIndex := (s.currentIndex + 1) % |active|;
      var moved := s.(currentIndex := nextIndex);
      assert ActiveItems(moved) == active;
      ShowItem(moved, active[nextIndex])
  }

  /** `start`: false on an empty active list; otherwise running from the first item,
      which is played, or shown for 3 s plus the gap when it has no audio. */
  function Start(s: Sequencer): (r: (Sequencer, bool))
    ensures !r.1 <==> |ActiveItems(s)| == 0
    ensures !r.1 ==> r.0 == s
    ensures r.1 ==> r.0.isRunning && r.0.currentIndex == 0 && ActiveItems(r.0) == ActiveItems(s)
    ensures r.1 && HasAudio(ActiveItems(s)[0]) ==>
              ActiveItems(s)[0].audioUrl in r.0.cache && r.0.audio == Some(r.0.cache[ActiveItems(s)[0].audioUrl])
    ensures r.1 && !HasAudio(ActiveItems(s)[0]) ==>
              r.0.gapTimer.Some? && r.0.gapTimer.value in r.0.timers && r.0.timers[r.0.gapTimer.value] == 3000 + s.gapSec * 1000
    ensures r.1 ==> r.0 == s.(isRunning := true, currentIndex := 0, cache := r.0.cache, nextHandle := r.0.nextHandle,
                              audio := r.0.audio, timers := r.0.timers, gapTimer := r.0.gapTimer)
    ensures Valid(s) ==> forall h :: h in s.timers ==> h in r.0.timers && r.0.timers[h] == s.timers[h]
    ensures forall u :: u in s.cache ==> u in r.0.cache && r.0.cache[u] == s.cache[u]
    ensures Valid(s) ==> Valid(r.0)
  {
    var active := ActiveItems(s);
    if |active| == 0 then (s, false)
    else
      var running := s.(isRunning := true, currentIndex := 0);
      var shown := ShowItem(running, active[0]);
      (shown, true)
  }

  /** `stopPlayback`: not running, the referenced gap timer cancelled, the clip paused. */
  function StopPlayback(s: Sequencer): (r: Sequencer)
    ensures !r.isRunning && !r.isPlayingAudio && r.gapTimer.None?
    ensures s.gapTimer.Some? ==> r.timers == s.timers - {s.gapTimer.value}
    ensures s.gapTimer.None? ==> r.timers == s.timers
    ensures r.playlist == s.playlist && r.sessionItems == s.sessionItems && r.currentIndex == s.currentIndex
    ensures r == s.(isRunning := false, timers := r.timers, gapTimer := None, isPlayingAudio := false)
    ensures Valid(s) ==> Valid(r)
  {
    var cancelled := if s.gapTimer.Some? then s.timers - {s.gapTimer.value} else s.timers;
    s.(isRunning := false, timers := cancelled, gapTimer := None, isPlayingAudio := false)
  }

  /** A clip reports that it started playing. */
  function ClipStarted(s: Sequencer): (r: Sequencer)
    ensures r == s.(isPlayingAudio := true)
  {
    s.(isPlayingAudio := true)
  }

  /** A clip reports its end: no longer playing, and while running the next item follows
      after the gap. */
  function ClipEnded(s: Sequencer): (r: Sequencer)
    ensures !r.isPlayingAudio
    ensures s.isRunning ==> r.gapTimer == Some(s.nextHandle) && r.timers == s.timers[s.nextHandle := s.gapSec * 1000]
    ensures !s.isRunning ==> r == s.(isPlayingAudio := false)
    ensures s.isRunning ==> r == s.(isPlayingAudio := false, timers := r.timers, gapTimer := r.gapTimer, nextHandle := r.nextHandle)
    ensures Valid(s) ==> Valid(r)
  {
    var stopped := s.(isPlayingAudio := false);
    if s.isRunning then ScheduleNext(stopped, s.gapSec * 1000) else stopped
  }

  /** A clip reports an error: no longer playing, and nothing follows. */
  function ClipFailed(s: Sequencer): (r: Sequencer)
    ensures r == s.(isPlayingAudio := false)
  {
    s.(isPlayingAudio := false)
  }

  /** Stopping right after a start that scheduled the first item's timer leaves exactly
      the timers that were pending before the start. */
  lemma StopCancelsStartTimer(s: Sequencer)
    requires Valid(s) && |ActiveItems(s)| > 0 && !HasAudio(ActiveItems(s)[0])
    ensures StopPlayback(Start(s).0).timers == s.timers
    ensures !StopPlayback(Start(s).0).isRunning
  {
  }

  /** Stopping during the gap after a clip ends cancels the gap's timer and nothing else. */
  lemma StopCancelsGapTimer(s: Sequencer)
    requires Valid(s) && s.isRunning
    ensures StopPlayback(ClipEnded(s)).timers == s.timers
    ensures StopPlayback(ClipEnded(s)) == s.(isRunning := false, isPlayingAudio := false, gapTimer := None,
                                             nextHandle := s.nextHandle + 1)
  {
  }

  /** A pending timer fires: it is gone, and the sequence advances. */
  function FireTimer(s: Sequencer, h: nat): (r: Sequencer)
    requires s.currentIndex >= 0
    ensures h !in s.timers ==> r == s
    ensures h in s.timers && |ActiveItems(s)| > 0 ==> r.currentIndex == (s.currentIndex + 1) % |ActiveItems(s)|
    ensures h in s.timers ==> r == NextAffirmation(s.(timers := s.timers - {h}))
    ensures Valid(s) && h in s.timers ==> h !in r.timers
    ensures Valid(s) ==> Valid(r)
  {
    if h !in s.timers then s else NextAffirmation(s.(timers := s.timers - {h}))
  }

  /** Whether an item belongs to a session over `categoryIds` (by `categoryId` only). */
  function Chosen(categoryIds: seq<string>): Item -> bool {
    (i: Item) => i.categoryId in categoryIds && HasAudio(i)
  }

  /** The chosen categories' items with audio (by `categoryId` only), in `order`. */
  function SessionCandidates(playlist: seq<Item>, categoryIds: seq<string>): (r: seq<Item>)
    ensures SortedBy(r, OrderKey)
    ensures multiset(r) == multiset(Filter(playlist, Chosen(categoryIds)))
    ensures forall x :: x in r <==> x in playlist && x.categoryId in categoryIds && HasAudio(x)
  {
    var chosen := Filter(playlist, Chosen(categoryIds));
    var r := SortByOrder(chosen);
    SameMembers(r, chosen);
    r
  }

  /** The sort is stable: items with equal `order` keep their playlist order. */
  lemma SessionCandidatesStable(playlist: seq<Item>, categoryIds: seq<string>, k: int)
    ensures Filter(SessionCandidates(playlist, categoryIds), KeyIs(OrderKey, k))
            == Filter(Filter(playlist, Chosen(categoryIds)), KeyIs(OrderKey, k))
  {
    SortByOrderStable(Filter(playlist, Chosen(categoryIds)), k);
  }

  /** `prepareSession`: the candidates, shuffled when asked (the random draws are an
      input), become the session; the index restarts and their clips are preloaded. */
  function PrepareSession(s: Sequencer, categoryIds: seq<string>, shuffle: bool, draws: seq<nat>): (r: Sequencer)
    ensures !shuffle ==> r.sessionItems == SessionCandidates(s.playlist, categoryIds)
    ensures multiset(r.sessionItems) == multiset(SessionCandidates(s.playlist, categoryIds))
    ensures r.currentIndex == 0
    ensures r.cache.Keys == s.cache.Keys + AudioUrls(r.sessionItems)
    ensures forall u :: u in s.cache ==> u in r.cache && r.cache[u] == s.cache[u]
    ensures r == s.(sessionItems := r.sessionItems, currentIndex := 0, cache := r.cache, nextHandle := r.nextHandle)
    ensures Valid(s) ==> Valid(r)
  {
    var items := SessionCandidates(s.playlist, categoryIds);
    var items := if shuffle then ShuffleArray(items, draws) else items;
    var p := PreloadItems(s.cache, s.nextHandle, items);
    s.(sessionItems := items, currentIndex := 0, cache := p.0, nextHandle := p.1)
  }

  // ---------------------------------------------------------------------------
  // Playlist edits
  // ---------------------------------------------------------------------------

  function IdIs(id: string): Item -> bool {
    (i: Item) => i.id == id
  }

  /** Every item with the id gets `enabled` set to the given value. */
  function SetEnabled(playlist: seq<Item>, id: string, enabled: bool): (r: seq<Item>)
    ensures |r| == |playlist|
    ensures forall k :: 0 <= k < |playlist| ==>
              r[k] == if playlist[k].id == id then playlist[k].(enabled := enabled) else playlist[k]
  {
    Map(playlist, (i: Item) => if i.id == id then i.(enabled := enabled) else i)
  }

  /** Setting the `enabled` flag of the items with `id`, preloading `item`'s clip when it
      is being enabled and has audio. Nothing else changes. */
  function EnableItem(s: Sequencer, id: string, item: Item, on: bool): (r: Sequencer)
    ensures r == s.(playlist := SetEnabled(s.playlist, id, on), cache := r.cache, nextHandle := r.nextHandle)
    ensures r.cache.Keys == if on && HasAudio(item) then s.cache.Keys + {item.audioUrl} else s.cache.Keys
    ensures forall u :: u in s.cache ==> u in r.cache && r.cache[u] == s.cache[u]
    ensures Valid(s) ==> Valid(r)
  {
    var p := if on && HasAudio(item) then PreloadUrl(s.cache, s.nextHandle, item.audioUrl) else (s.cache, s.nextHandle);
    s.(playlist := SetEnabled(s.playlist, id, on), cache := p.0, nextHandle := p.1)
  }

  /** `toggleItemEnabled`: nothing for an unknown id; otherwise the item's `enabled` is
      flipped (items sharing its id follow it) and a newly enabled clip is preloaded. */
  function ToggleItemEnabled(s: Sequencer, id: string): (r: Sequencer)
    ensures Find(s.playlist, IdIs(id)).None? ==> r == s
    ensures Find(s.playlist, IdIs(id)).Some? ==>
              r.playlist == SetEnabled(s.playlist, id, !Find(s.playlist, IdIs(id)).value.enabled)
    ensures r == s.(playlist := r.playlist, cache := r.cache, nextHandle := r.nextHandle)
    ensures Find(s.playlist, IdIs(id)).Some? ==>
              var item := Find(s.playlist, IdIs(id)).value;
              r.cache.Keys == if !item.enabled && HasAudio(item) then s.cache.Keys + {item.audioUrl} else s.cache.Keys
    ensures forall u :: u in s.cache ==> u in r.cache && r.cache[u] == s.cache[u]
    ensures Valid(s) ==> Valid(r)
  {
    match Find(s.playlist, IdIs(id))
    case None => s
    case Some(item) => EnableItem(s, id, item, !item.enabled)
  }

  /** With distinct ids, the item found by id is the one carrying it. */
  lemma FindDistinct(s: seq<Item>, id: string, k: nat)
    requires DistinctIds(s) && k < |s| && s[k].id == id
    ensures Find(s, IdIs(id)) == Some(s[k])
  {
    assert IdIs(id)(s[k]);
    var f := Find(s, IdIs(id));
    var j :| 0 <= j < |s| && s[j] == f.value && forall i :: 0 <= i < j ==> !IdIs(id)(s[i]);
    if j < k {
      assert s[j].id == s[k].id;
    }
  }

  /** Setting `enabled` keeps every id, so distinct ids stay distinct. */
  lemma SetEnabledKeepsIds(playlist: seq<Item>, id: string, enabled: bool)
    requires DistinctIds(playlist)
    ensures DistinctIds(SetEnabled(playlist, id, enabled))
  {
    var r := SetEnabled(playlist, id, enabled);
    assert forall k :: 0 <= k < |r| ==> r[k].id == playlist[k].id;
  }

  /** Setting the flag one way and then back to the carrier's value restores a playlist
      with distinct ids. */
  lemma SetEnabledBack(playlist: seq<Item>, id: string, k: nat, enabled: bool)
    requires DistinctIds(playlist) && k < |playlist| && playlist[k].id == id
    ensures SetEnabled(SetEnabled(playlist, id, enabled), id, playlist[k].enabled) == playlist
  {
    var p1 := SetEnabled(playlist, id, enabled);
    var p2 := SetEnabled(p1, id, playlist[k].enabled);
    forall i | 0 <= i < |p2|
      ensures p2[i] == playlist[i]
    {
      assert p1[i].id == playlist[i].id;
    }
  }

  /** With distinct ids, toggling twice restores the playlist. */
  lemma ToggleTwiceRestores(s: Sequencer, id: string)
    requires DistinctIds(s.playlist)
    ensures ToggleItemEnabled(ToggleItemEnabled(s, id), id).playlist == s.playlist
  {
    ToggledPlaylist(s, id);
    ToggledPlaylist(ToggleItemEnabled(s, id), id);
    TogglePlaylistTwice(s.playlist, id);
  }

  /** With distinct ids, the second toggle finds the flipped item and flips it back. */
  lemma TogglePlaylistTwice(playlist: seq<Item>, id: string)
    requires DistinctIds(playlist)
    ensures TogglePlaylist(TogglePlaylist(playlist, id), id) == playlist
  {
    var f := Find(playlist, IdIs(id));
    if f.Some? {
      var k :| 0 <= k < |playlist| && playlist[k] == f.value && forall i :: 0 <= i < k ==> !IdIs(id)(playlist[i]);
      var p := SetEnabled(playlist, id, !playlist[k].enabled);
      SetEnabledKeepsIds(playlist, id, !playlist[k].enabled);
      FindDistinct(p, id, k);
      SetEnabledBack(playlist, id, k, !playlist[k].enabled);
    }
  }

  /** The playlist after `toggleItemEnabled`, without the preload. */
  function TogglePlaylist(playlist: seq<Item>, id: string): seq<Item>
  {
    match Find(playlist, IdIs(id))
    case None => playlist
    case Some(item) => SetEnabled(playlist, id, !item.enabled)
  }

  /** Only the playlist part of `ToggleItemEnabled` matters for the flag round trip. */
  lemma ToggledPlaylist(s: Sequencer, id: string)
    ensures ToggleItemEnabled(s, id).playlist == TogglePlaylist(s.playlist, id)
  {
  }

  /** `addToPlaylist`: nothing for an unknown or already enabled item; otherwise it is
      enabled and its clip preloaded. */
  function AddToPlaylist(s: Sequencer, id: string): (r: Sequencer)
    ensures Find(s.playlist, IdIs(id)).None? || Find(s.playlist, IdIs(id)).value.enabled ==> r == s
    ensures Find(s.playlist, IdIs(id)).Some? && !Find(s.playlist, IdIs(id)).value.enabled ==>
              r.playlist == SetEnabled(s.playlist, id, true)
    ensures r == s.(playlist := r.playlist, cache := r.cache, nextHandle := r.nextHandle)
    ensures Find(s.playlist, IdIs(id)).Some? && !Find(s.playlist, IdIs(id)).value.enabled ==>
              var item := Find(s.playlist, IdIs(id)).value;
              r.cache.Keys == if HasAudio(item) then s.cache.Keys + {item.audioUrl} else s.cache.Keys
    ensures forall u :: u in s.cache ==> u in r.cache && r.cache[u] == s.cache[u]
    ensures Valid(s) ==> Valid(r)
  {
    match Find(s.playlist, IdIs(id))
    case None => s
    case Some(item) =>
      if item.enabled then s else EnableItem(s, id, item, true)
  }

  /** `removeFromPlaylist`: nothing for an unknown or already disabled item; otherwise it
      is disabled. */
  function RemoveFromPlaylist(s: Sequencer, id: string): (r: Sequencer)
    ensures Find(s.playlist, IdIs(id)).None? || !Find(s.playlist, IdIs(id)).value.enabled ==> r == s
    ensures Find(s.playlist, IdIs(id)).Some? && Find(s.playlist, IdIs(id)).value.enabled ==>
              r == s.(playlist := SetEnabled(s.playlist, id, false))
  {
    match Find(s.playlist, IdIs(id))
    case None => s
    case Some(item) => if !item.enabled then s else s.(playlist := SetEnabled(s.playlist, id, false))
  }

  /** Adding and removing are the toggle restricted to one direction: each either does
      nothing or does what the toggle does. */
  lemma AddRemoveAreOneWayToggles(s: Sequencer, id: string)
    ensures AddToPlaylist(s, id) == s || AddToPlaylist(s, id) == ToggleItemEnabled(s, id)
    ensures RemoveFromPlaylist(s, id) == s || RemoveFromPlaylist(s, id) == ToggleItemEnabled(s, id)
  {
  }

  /** `reorderPlaylist`, with the drag indices applied to the list the editor shows
      (`Reorder.Reorder`); a failing move leaves the playlist as it was. */
  function ReorderPlaylist(s: Sequencer, src: int, dst: int): (r: Sequencer)
    ensures r.(playlist := s.playlist) == s
    ensures |r.playlist| == |s.playlist|
    ensures forall k :: 0 <= k < |s.playlist| ==> r.playlist[k] == s.playlist[k].(order := r.playlist[k].order)
    ensures src == dst || Reorder.SpliceStart(src, |Reorder.DisplayList(s.playlist)|) >= |Reorder.DisplayList(s.playlist)| ==> r == s
    ensures forall k :: 0 <= k < |s.playlist| && s.playlist[k].id !in ItemIds(Reorder.DisplayList(s.playlist)) ==> r.playlist[k] == s.playlist[k]
    ensures src != dst && Reorder.SpliceStart(src, |Reorder.DisplayList(s.playlist)|) < |Reorder.DisplayList(s.playlist)| ==>
              forall k :: 0 <= k < |s.playlist| && s.playlist[k].id in ItemIds(Reorder.DisplayList(s.playlist)) ==>
                r.playlist[k].order == Some(Reorder.NewOrders(Reorder.DisplayList(s.playlist), src, dst)[s.playlist[k].id])
  {
    match Reorder.Reorder(s.playlist, src, dst)
    case None => s
    case Some(p) => s.(playlist := p)
  }

  // ---------------------------------------------------------------------------
  // Whole-run properties
  // ---------------------------------------------------------------------------

  /** From a valid state the index stays inside the active list through any number of
      advances, once it is inside. */
  lemma {:induction false} AdvancesStayInRange(s: Sequencer, n: nat)
    requires Valid(s) && s.currentIndex < |ActiveItems(s)|
    ensures Valid(Advance(s, n)) && Advance(s, n).currentIndex < |ActiveItems(s)|
    ensures ActiveItems(Advance(s, n)) == ActiveItems(s)
    ensures Advance(s, n).currentIndex == (s.currentIndex + n) % |ActiveItems(s)|
  {
    if n > 0 {
      var m := |ActiveItems(s)|;
      AdvanceIndex(s, n);
    }
  }

  /** After `n` advances the index is `n` places on, modulo the active list's length. */
  lemma AdvanceIndex(s: Sequencer, n: nat)
    requires 0 <= s.currentIndex < |ActiveItems(s)|
    ensures Advance(s, n).currentIndex == (s.currentIndex + n) % |ActiveItems(s)|
  {
    AdvanceSteps(s, n);
    IndexAfterWraps(s.currentIndex, n, |ActiveItems(s)|);
  }

  /** The index after `n` one-place moves, each wrapping modulo `m`. */
  function IndexAfter(i: int, n: nat, m: nat): int
    requires m > 0
  {
    if n == 0 then i else (IndexAfter(i, n - 1, m) + 1) % m
  }

  /** `n` advances move the index `n` single places. */
  lemma {:induction false} AdvanceSteps(s: Sequencer, n: nat)
    requires s.currentIndex >= 0 && |ActiveItems(s)| > 0
    ensures Advance(s, n).currentIndex == IndexAfter(s.currentIndex, n, |ActiveItems(s)|)
  {
    if n > 0 {
      AdvanceSteps(s, n - 1);
      AdvanceStep(s, n);
    }
  }

  /** One more advance moves the index one on, modulo the active list's length. */
  lemma AdvanceStep(s: Sequencer, n: nat)
    requires s.currentIndex >= 0 && n > 0 && |ActiveItems(s)| > 0
    ensures Advance(s, n).currentIndex == (Advance(s, n - 1).currentIndex + 1) % |ActiveItems(s)|
  {
    assert Advance(s, n) == NextAffirmation(Advance(s, n - 1));
  }

  /** `n` wrapping single moves from an in-range index are one move of `n` places. */
  lemma {:induction false} IndexAfterWraps(i: nat, n: nat, m: nat)
    requires i < m
    ensures IndexAfter(i, n, m) == (i + n) % m
  {
    if n == 0 {
      ModOf(i, m, 0, i);
    } else {
      IndexAfterWraps(i, n - 1, m);
      ModChain(i + (n - 1), i + n, m, IndexAfter(i, n - 1, m), IndexAfter(i, n, m));
    }
  }

  /** If `t` is `a` modulo `m` and `u` is `t + 1` modulo `m`, then `u` is `b = a + 1` modulo `m`. */
  lemma ModChain(a: nat, b: nat, m: nat, t: int, u: int)
    requires m > 0 && b == a + 1 && t == a % m && u == (t + 1) % m
    ensures u == b % m
  {
    ModStep(a, m);
  }

  lemma ModStep(a: nat, m: nat)
    requires m > 0
    ensures (a % m + 1) % m == (a + 1) % m
  {
    var q, r := a / m, a % m;
    assert a == q * m + r;
    if r + 1 < m {
      ModOf(a + 1, m, q, r + 1);
      ModOf(r + 1, m, 0, r + 1);
    } else {
      assert a + 1 == (q + 1) * m;
      ModOf(a + 1, m, q + 1, 0);
      ModOf(r + 1, m, 1, 0);
    }
  }

  lemma ModOf(x: nat, m: nat, q: nat, r: nat)
    requires m > 0 && r < m && x == q * m + r
    ensures x % m == r
  {
    var q2, r2 := x / m, x % m;
    assert x == q2 * m + r2;
    if q2 > q {
      MulMono(q + 1, q2, m);
    } else if q2 < q {
      MulMono(q2 + 1, q, m);
    }
  }

  lemma MulMono(a: nat, b: nat, m: nat)
    requires a <= b
    ensures a * m <= b * m
  {
    assert b * m == a * m + (b - a) * m;
  }

  /** `n` advances of the sequencer. */
  function Advance(s: Sequencer, n: nat): (r: Sequencer)
    requires s.currentIndex >= 0
    ensures r.currentIndex >= 0
    ensures ActiveItems(r) == ActiveItems(s)
    ensures Valid(s) ==> Valid(r)
  {
    if n == 0 then s else NextAffirmation(Advance(s, n - 1))
  }
}
