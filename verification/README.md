# Self-hypnosis web app: a Dafny model of the session engine

The app builds a self-hypnosis session and plays it. A user picks affirmation
categories, then the suggestions within them, then plays the session. The
session has an induction script, a deepening script, the affirmation clips one
after another, and an awakening script. A binaural tone plays underneath.

This project models the logic behind that flow as pure Dafny functions over
immutable values, and proves what the code promises about it:

- **Player** (`player.dfy`): the player screen's phase machine.
  - The phases are preparing, induction, deepening, affirmations, awakening and complete.
  - Timers and audio clips are handle maps. Each timer carries its task and delay.
  - React's effects run in a `Commit` step after each event. The step compares the
    effects' dependencies before and after the event.
  - Timer and clip events arrive one at a time, in any order the caller chooses.
- **Provider** (`provider.dfy`): the affirmation provider's sequencer.
  - It holds the preload cache, the index that wraps around the active list, and the
    playlist edits (toggle, add, remove, reorder).
  - **Reorder** (`reorder.dfy`) holds the drag-and-drop reordering.
- **Tone** (`tone.dfy`): the binaural tone generator. Its node graph is a record of
  optional handles.
- **Screens and helpers**:
  - `setup_screen.dfy`, `suggestion_screen.dfy` and `category_screen.dfy` model the
    three selection screens, with the shared category-name chains in `categories.dfy`.
  - `timeline.dfy` and `session_builder.dfy` model the session timeline and the
    session builder.
  - `navigation.dfy` models the app's screen flow and its sign-in gate.
  - `language.dfy` models the language setting.
  - `presets.dfy` holds the brainwave preset table.
  - `affirmations.dfy` holds the built-in catalogue and grouping by category.
  - `format.dfy` holds the duration and summary texts.
- **Shared helpers**:
  - `seqs.dfy`: filters, and insertion-ordered sets as duplicate-free sequences.
  - `text.dfy`: number rendering, lower-casing and substring search.
  - `js_math.dfy`: JavaScript's truncating `%`, `Math.round` and `Math.ceil`.
  - `items.dfy`: the item record, the stable sort by `order` and the duration estimate.
  - `items.dfy` also holds the Fisher–Yates shuffle, with the random draws as an input.

## JavaScript conventions used throughout

- A missing or empty string is `""`, following JavaScript truthiness.
- `order ?? 0` is an `Option<int>` with 0 as its default.
- A missing duration is 0.
- A JavaScript `Set` is a duplicate-free sequence in insertion order.
- `Math.random` is an input sequence of draws.
- `setTimeout`, `setInterval` and audio elements are handles, drawn from a counter.

## Behaviours of the code worth noting

- **Affirmation clip errors.** Only script clips fall back to a countdown when they
  fail (`src/components/PlayerScreen.jsx:166-184`). Affirmation clips get no error
  handler (`src/components/PlayerScreen.jsx:301-320`), so a failing one stops the
  sequence there. `Player.ClipFailed` leaves the state unchanged for an item clip.
- **Session preparation.** `prepareSession` selects items by `categoryId` only
  (`src/providers/AffirmationProvider.jsx:204-206`). The setup screen groups by
  `categoryId || category` (`src/components/SessionSetupScreen.jsx:91`).
- **Tone at the end of a session.**
  - With an awakening script, the complete phase is reached through `advanceToPhase`
    and the tone keeps playing.
  - Without one, `playNextAudio` stops playback and the tone
    (`src/components/PlayerScreen.jsx:255-264`).

## Model

| member | source | states |
|---|---|---|
| Seqs.Toggle | src/components/SessionSetupScreen.jsx:128-138 | Toggling an id flips its membership and leaves every other id's membership as it was. The set stays duplicate-free. |
| Seqs.ToggleTwice | src/components/SessionSetupScreen.jsx:128-138 | Toggling the same id twice restores the selection set. |
| Seqs.AddAll | src/components/SessionSetupScreen.jsx:147-157 | Adding a list of ids gives the union, and the set stays duplicate-free. |
| Seqs.RemoveAll | src/components/SessionSetupScreen.jsx:147-157 | Removing a list of ids gives the difference, and the set stays duplicate-free. |
| Seqs.FilterIsSubsequence | src/components/SessionSetupScreen.jsx:187-189 | `Array.prototype.filter` keeps the elements it keeps in their original order. |
| Seqs.FilterCounts | src/components/SessionSetupScreen.jsx:187-189 | `Array.prototype.filter` keeps every occurrence of an element that passes and none of one that fails. |
| Text.ParseNatToString | src/data/strings.js:79-84 | A number rendered in decimal reads back as the same number. |
| Text.NatToStringInjective | src/data/strings.js:95-97 | Different numbers never render as the same text. |
| Text.PadTwoDigits | src/data/strings.js:83 | `padStart(2, '0')` turns a number below 100 into exactly two digits, which read back as that number. |
| Text.LowerIdempotent | src/components/SuggestionSelectionScreen.jsx:46-48 | Lower-casing twice is the same as lower-casing once. |
| Text.Includes | src/components/SuggestionSelectionScreen.jsx:48 | `includes` holds exactly when some window of the text equals the needle. |
| JsMath.JsRem | src/components/PlayerScreen.jsx:553 | JavaScript's `%` truncates: the result takes the dividend's sign, and its magnitude is below the divisor's. |
| JsMath.JsRemNonNegative | src/components/PlayerScreen.jsx:553 | For a non-negative dividend, JavaScript's remainder equals the mathematical one. |
| JsMath.Round | src/data/strings.js:88 | `Math.round` returns the integer within half of x, with halves rounded up. |
| JsMath.CeilDiv | src/components/SessionSetupScreen.jsx:180 | `Math.ceil(a / b)` is the least integer q with a <= q·b. |
| Items.SortBySorted | src/providers/AffirmationProvider.jsx:170-173 | The sort by `order` returns a sorted result. |
| Items.SortByStable | src/providers/AffirmationProvider.jsx:170-173 | Items with equal `order` keep their input order, as JavaScript's stable sort does. |
| Items.SortByOfSorted | src/providers/AffirmationProvider.jsx:170-173 | Sorting a list that is already in order leaves it unchanged. |
| Items.SortByOrderStable | src/components/SuggestionSelectionScreen.jsx:28-33 | A missing `order` counts as 0, and items with equal `order` keep their playlist order. |
| Items.EstimatedMsPermutation | src/components/PlayerScreen.jsx:544-549 | The duration estimate (clip length, or 3 s without one, plus the gap for each item) does not depend on item order, so shuffling never changes it. |
| Items.EstimatedMsLowerBound | src/components/SessionBuilder.jsx:22-30 | With no negative durations, the estimate is at least the gaps alone. |
| Items.ShuffleArray | src/components/PlayerScreen.jsx:29-36 | `shuffleArray` returns a permutation of its input, for any sequence of random draws. |
| BrainwavePresets.GetPresetForFrequency | src/data/brainwavePresets.js:67-71 | The lookup returns a table preset whose half-open band holds f. It returns none exactly when f < 0.5 or f >= 100. |
| BrainwavePresets.BandsContiguous | src/data/brainwavePresets.js:14-60 | Each band ends where the next one begins, and no band is empty. |
| BrainwavePresets.ExactlyOneBand | src/data/brainwavePresets.js:14-71 | Every f in [0.5, 100) lies in exactly one band, and the lookup returns that band. |
| BrainwavePresets.BoundaryGoesUp | src/data/brainwavePresets.js:69 | A boundary frequency belongs to the higher band: 4 Hz is theta. |
| BrainwavePresets.DefaultLooksUpItself | src/data/brainwavePresets.js:14-71 | Looking up a preset's default frequency returns that same preset. |
| BrainwavePresets.Within | src/data/brainwavePresets.js:79-83 | Filtering any table by default frequency keeps exactly the entries in [min, max], each as often as in the table and in table order. |
| BrainwavePresets.GetPresetsInRange | src/data/brainwavePresets.js:79-83 | Returns exactly the presets whose default frequency lies in [min, max], in table order, each as often as the table holds it. |
| BrainwavePresets.WholeSliderRangeOffersAll | src/data/brainwavePresets.js:79-83 | The range [1, 40] returns the whole table, in table order. |
| Affirmations.CreateInitialAffirmations | src/data/affirmations.js:142-160 | Seeds one item per catalogue text. Each item is enabled and has no audio, duration or order. |
| Affirmations.InitialItemsFiled | src/data/affirmations.js:145-156 | Every seeded item is filed under the id and name of one of the catalogue's categories. |
| Affirmations.InitialItemsOrder | src/data/affirmations.js:142-160 | With twenty texts per category, item 20·c + k is the k-th text of category c: category order first, then text order. |
| Affirmations.ItemIdInjective | src/data/affirmations.js:148 | An id `${categoryId}_${index}` determines both its category and its index. |
| Affirmations.InitialIdsDistinct | src/data/affirmations.js:142-160 | For distinct underscore-free category ids with twenty texts each, the seeded ids are pairwise distinct. |
| Affirmations.CatalogueShape | src/data/affirmations.js:6-137 | The catalogue has five categories of twenty texts each, with distinct underscore-free ids. |
| Affirmations.CatalogueSeedsHundredDistinct | src/data/affirmations.js:1-160 | Seeding from the catalogue yields a hundred items with pairwise distinct ids. |
| Affirmations.CategoryNameOrId | src/data/affirmations.js:174-180 | Gives the table name of a known category id, or the id itself when the id is unknown. |
| Affirmations.GetAffirmationsByCategory | src/data/affirmations.js:166-187 | There is one group per non-empty `categoryId \|\| category`. Each group holds exactly that category's items in input order, under the category's resolved name. |
| Affirmations.GroupsPartition | src/data/affirmations.js:170-184 | An item with a category lands in exactly one group, its own. An item without one lands in none. |
| CategoryNames.BuiltInNamesMatchCatalogue | src/components/SessionSetupScreen.jsx:23-29 | The screens' `CATEGORY_NAMES` table has exactly the catalogue's ids, and gives each one its catalogue name. |
| CategoryNames.GetCategoryName | src/components/SuggestionSelectionScreen.jsx:20-25 | Tries the service name, then the built-in name, then the raw id. |
| CategoryNames.ResolveName | src/components/SessionSetupScreen.jsx:99-109 | Tries the service name, then the built-in name, then the first item's `categoryName`, then the raw id. The result is never empty for a non-empty id. |
| CategoryNames.NameChainsAgree | src/components/CategorySelectionScreen.jsx:51-61 | The two name chains agree, except on an id that neither the service nor the table knows. |
| CategoryNames.CategoryIds | src/components/CategorySelectionScreen.jsx:41-43 | The distinct truthy category keys of the playlist, each exactly once. |
| CategoryNames.ListedCategoriesNonEmpty | src/components/CategorySelectionScreen.jsx:41-48 | Every listed category has at least one item filed under it. |
| CategoryNames.CategoryItems | src/components/SessionSetupScreen.jsx:94-96 | The items filed under the category by `categoryId` or `category`: each as often as the playlist holds it, none other, in playlist order (a subsequence of the playlist). |
| CategoryNames.PlayableItems | src/components/SessionSetupScreen.jsx:97 | The category's items that have audio: each as often as the category list holds it, none other, in that list's order. |
| SetupScreen.SelectedScript | src/components/SessionSetupScreen.jsx:171-173 | Nothing while no id is selected or no script has that id. Otherwise the first script in the list with the selected id. |
| SetupScreen.CategoryEntry | src/components/SessionSetupScreen.jsx:94-118 | A category's summary lists its items with audio. `totalCount` is their number; `enabledCount` counts the enabled ones and never exceeds `totalCount`. |
| SetupScreen.CategoryData | src/components/SessionSetupScreen.jsx:89-125 | There is exactly one summary per distinct truthy category key of the playlist. |
| SetupScreen.ToggleItems | src/components/SessionSetupScreen.jsx:147-157 | When every item of the group is enabled, the result is the set minus the group's ids; otherwise it is the set plus them. The set stays duplicate-free. |
| SetupScreen.ToggleItemsTwice | src/components/SessionSetupScreen.jsx:147-157 | Toggling a wholly enabled, non-empty group twice restores the set. |
| SetupScreen.ToggleCategory | src/components/SessionSetupScreen.jsx:141-158 | An unknown category changes nothing. If all of the category's playable items are enabled they are all removed; otherwise they are all added. |
| SetupScreen.ToggleCategoryLocal | src/components/SessionSetupScreen.jsx:141-158 | Toggling a category never changes the membership of an id outside it. |
| SetupScreen.ToggleCategoryAllOrNone | src/components/SessionSetupScreen.jsx:141-158 | After a toggle, a listed category is either wholly enabled or wholly disabled. |
| SetupScreen.ToggleCategoryTwice | src/components/SessionSetupScreen.jsx:141-158 | Toggling a fully enabled category twice restores the selection. |
| SetupScreen.TotalEnabled | src/components/SessionSetupScreen.jsx:161-165 | Counts exactly the enabled ids that match a playlist item with audio. |
| SetupScreen.StartGuardMatchesItems | src/components/SessionSetupScreen.jsx:184-197 | The start guard (nothing counted as enabled) holds exactly when the session would have no items. |
| SetupScreen.FirstFree | src/components/SessionSetupScreen.jsx:63-70 | Auto-selection picks the first non-premium script, and picks nothing only when every script is premium. |
| SetupScreen.AutoSelectionResolves | src/components/SessionSetupScreen.jsx:63-70 | When some script is free, the auto-selected id resolves to a free script. |
| SetupScreen.InitialEnabled | src/components/SessionSetupScreen.jsx:81-86 | An empty selection is seeded with every playlist item that has audio. Otherwise the selection is left alone. |
| SetupScreen.EstimatedMinutes | src/components/SessionSetupScreen.jsx:168-181 | The estimate is the least whole number of minutes that covers the selected scripts' durations (defaults 60/60/45 s) plus 5 s per enabled affirmation. |
| SetupScreen.EstimateStepsByAtMostOneMinute | src/components/SessionSetupScreen.jsx:168-181 | Enabling one more affirmation never lowers the estimate, and raises it by at most a minute. |
| SetupScreen.SessionItems | src/components/SessionSetupScreen.jsx:186-188 | The enabled items with audio, each as often as the playlist holds it and in playlist order (a subsequence of the playlist), and no others. |
| SetupScreen.HandleStart | src/components/SessionSetupScreen.jsx:184-197 | Does nothing exactly when no enabled id is playable. Otherwise it emits exactly the enabled items with audio as a subsequence of the playlist (so in playlist order), together with the selected scripts. |
| SuggestionScreen.AvailableSuggestions | src/components/SuggestionSelectionScreen.jsx:28-33 | The items with audio filed under a chosen category, sorted by `order`, and no others. |
| SuggestionScreen.AvailableSuggestionsStable | src/components/SuggestionSelectionScreen.jsx:28-33 | Items with equal `order` keep their playlist order. |
| SuggestionScreen.FilteredSuggestions | src/components/SuggestionSelectionScreen.jsx:44-50 | A blank query keeps everything. Any other query keeps exactly the items whose lower-cased text contains the lower-cased query, each as often as before and in their original order. |
| SuggestionScreen.SearchIgnoresQueryCase | src/components/SuggestionSelectionScreen.jsx:44-50 | Lower-casing the query never changes the result. |
| SuggestionScreen.SuggestionsByCategory | src/components/SuggestionSelectionScreen.jsx:53-67 | There is one group per category key, with distinct ids. Each group holds exactly its category's items in filtered order, under `getCategoryName`. |
| SuggestionScreen.GroupsPartitionItems | src/components/SuggestionSelectionScreen.jsx:53-67 | Each filtered item is in exactly one group: the group of its own category key. |
| SuggestionScreen.GroupSizesSumToAll | src/components/SuggestionSelectionScreen.jsx:53-67 | The group sizes add up to the length of the filtered list. |
| SuggestionScreen.SelectAll | src/components/SuggestionSelectionScreen.jsx:83-85 | Select-all gives each available id exactly once. |
| SuggestionScreen.Initialize | src/components/SuggestionSelectionScreen.jsx:36-41 | The first load that has suggestions seeds the selection with all of them, once only. |
| SuggestionScreen.SelectionStaysAvailable | src/components/SuggestionSelectionScreen.jsx:70-90 | Select-all, clear-all and toggling a shown item keep every enabled id among the available items. |
| SuggestionScreen.HandleStart | src/components/SuggestionSelectionScreen.jsx:96-105 | Does nothing exactly when the selection is empty. Otherwise it emits the available items that are enabled, each as often as available and in their available order, with no scripts. |
| SuggestionScreen.StartNeverEmpty | src/components/SuggestionSelectionScreen.jsx:96-105 | A non-empty selection of available ids always starts a non-empty session. |
| CategoryScreen.StatOf | src/components/CategorySelectionScreen.jsx:45-67 | `total` counts a category's items and `withAudio` those with audio, so `withAudio <= total`. The name follows the resolution chain. |
| CategoryScreen.CategoryStats | src/components/CategorySelectionScreen.jsx:37-74 | There is exactly one entry per distinct truthy category key. No entry is empty. |
| CategoryScreen.SelectAll | src/components/CategorySelectionScreen.jsx:90-92 | Select-all gives every key of `categoryStats`, each exactly once. |
| CategoryScreen.SelectedWithAudioAtMostTotal | src/components/CategorySelectionScreen.jsx:100-113 | The selection's count with audio never exceeds its total. |
| CategoryScreen.SelectedStatsPermutation | src/components/CategorySelectionScreen.jsx:100-113 | The selection totals depend only on which ids are selected, not on the order they were added. |
| CategoryScreen.UnknownIdsIgnored | src/components/CategorySelectionScreen.jsx:104-109 | Selecting an id without stats leaves the totals unchanged. |
| CategoryScreen.HandleNext | src/components/CategorySelectionScreen.jsx:116-119 | Does nothing exactly when the selection is empty. Otherwise it passes the selection on, in insertion order. |
| CategoryScreen.EnabledButtonMovesOn | src/components/CategorySelectionScreen.jsx:240-241 | When the continue button is enabled, some selected category has audio and pressing the button moves on. |
| SessionTimeline.PhaseIndex | src/components/SessionTimeline.jsx:14-15 | `findIndex` gives the position of a listed phase, or -1 exactly when the phase is not listed. |
| SessionTimeline.GetPhaseStatus | src/components/SessionTimeline.jsx:11-20 | Without a current phase everything is inactive. Otherwise a phase is completed exactly when it comes earlier, and active exactly when it is at the same position. |
| SessionTimeline.KnownPhaseStatuses | src/components/SessionTimeline.jsx:5-20 | For a known current phase, exactly that phase is active, earlier phases are completed and later ones are inactive. |
| SessionTimeline.UnknownPhaseAllInactive | src/components/SessionTimeline.jsx:14-19 | An unknown current phase leaves every phase inactive. |
| SessionBuilder.SessionDuration | src/components/SessionBuilder.jsx:22-37 | For a non-negative total: seconds < 60, and minutes·60000 + seconds·1000 <= total < that + 1000. |
| SessionBuilder.LabelDeterminesTime | src/components/SessionBuilder.jsx:47-51 | The label loses only the milliseconds: two durations with the same label agree on minutes and seconds. |
| SessionBuilder.TimelineProgress | src/components/SessionBuilder.jsx:58 | The fill is 0 when not running, and lies in [0, 100] for an index within the list. Its product with the list length is the index times 100, and an empty list never divides by zero. |
| SessionBuilder.BuilderTimeline | src/components/SessionBuilder.jsx:56-59 | While active the timeline shows induction completed, suggestions active and emergence to come. Otherwise nothing is highlighted. |
| Format.FormatDuration | src/data/strings.js:79-84 | For a non-negative duration, the text reads back as its whole seconds, as minutes and two-digit seconds. |
| Format.FormatTime | src/components/PlayerScreen.jsx:551-555 | For a non-negative duration, the player's clock reads back as its whole seconds. |
| Format.ClocksAgree | src/components/PlayerScreen.jsx:551-555 | For every non-negative duration, the player's clock and `formatDuration` show the same text. |
| Format.ClocksDivergeBelowZero | src/data/strings.js:79-84 | The two clocks differ below zero: at -59.5 s they show "-1:00" and "-1:-60". |
| Format.ReadsAsSecondsUnique | src/data/strings.js:79-84 | A clock text stands for a single number of whole seconds. |
| Format.FormatAffirmationSummary | src/data/strings.js:95-97 | The summary is the count's digits, " com áudio • ", the gap's digits and "s intervalo", in that order. |
| Format.AffirmationSummaryInjective | src/data/strings.js:95-97 | Different counts or gaps always give different summaries. |
| Format.VolumePercent | src/data/strings.js:88 | The percentage is within half a point of volume·100, and lies in [0, 100] for a volume in [0, 1]. |
| Format.VolumePercentMonotone | src/data/strings.js:88 | A louder volume never shows a smaller percentage. |
| Format.FormatBinauralSummary | src/data/strings.js:87-89 | The summary starts with the base frequency and "Hz + ", then the beat frequency and "Hz • ". For a volume in [0, 1] it ends with the percentage digits and "%", which read back as the percentage. |
| Format.BinauralSummaryInjective | src/data/strings.js:87-89 | For whole non-negative frequencies and volumes in [0, 1], equal summaries mean equal frequencies and equal percentages. |
| Navigation.Step | src/App.jsx:23-49 | Each handler sets the screen it names and changes only the state it names. Ending a session clears both the session and the categories. |
| Navigation.Render | src/App.jsx:52-76 | The player shows exactly when the screen is the player and a session exists. Suggestion selection shows exactly when that screen is chosen and categories exist. |
| Navigation.BackKeepsSession | src/App.jsx:29-42 | Going back from the player keeps the session. It shows suggestion selection exactly when categories had been chosen. |
| Navigation.PlayerShowsLastSession | src/App.jsx:29-76 | Until the next start or end, the player always shows the session most recently started. |
| Navigation.EndAlwaysReturnsHome | src/App.jsx:35-49 | Ending, or going back to categories, always shows category selection. |
| Navigation.AuthGate | src/App.jsx:84-104 | Shows a spinner exactly while loading, and sign-in exactly for a visitor who has not skipped it. Otherwise it shows the app. |
| Language.InitialLanguage | src/providers/LanguageProvider.jsx:15-22 | The start language is the stored code when that code is known, otherwise pt-BR. It is always known. |
| Language.SetLanguage | src/providers/LanguageProvider.jsx:29-33 | A known code is taken. An unknown code leaves the language unchanged. |
| Language.AlwaysKnown | src/providers/LanguageProvider.jsx:4-33 | Whatever codes are requested, the language is always one of the listed codes. |
| Language.CurrentLanguage | src/providers/LanguageProvider.jsx:36 | Returns the entry for the current code, or the first entry as a fallback. |
| Tone.Clamp | src/services/audioService.js:37 | The result lies in [lo, hi], and is x itself when x is already inside. |
| Tone.Init | src/services/audioService.js:26-31 | The audio context is created only when there is none. |
| Tone.UpdateFrequencies | src/services/audioService.js:66-73 | When both oscillators exist, left is tuned to base and right to base + beat. Nothing else changes. |
| Tone.SetBaseFreq | src/services/audioService.js:36-44 | Stores the frequency clamped to [100, 500], playing or not. Only the stored value changes while stopped. |
| Tone.SetBeatFreq | src/services/audioService.js:46-54 | Stores the beat clamped to [1, 30], playing or not. Only the stored value changes while stopped. |
| Tone.SetVolume | src/services/audioService.js:56-61 | Stores the volume clamped to [0, 1], and applies it to the master gain when there is one. |
| Tone.Play | src/services/audioService.js:79-130 | Does nothing while playing. Otherwise all six nodes exist, the generator is playing, and right − left = beat. |
| Tone.Stop | src/services/audioService.js:136-176 | Does nothing while stopped. Otherwise every node is released and the parameters are kept. |
| Tone.Toggle | src/services/audioService.js:181-188 | Flips the playing state and returns the new state. |
| Tone.Dispose | src/services/audioService.js:193-199 | Leaves the generator stopped and silent, with no context. |
| Tone.PlayStopIdempotent | src/services/audioService.js:79-80 | Playing twice is playing once, and stopping twice is stopping once. |
| Tone.PlayThenStop | src/services/audioService.js:79-176 | Play then stop releases every node and keeps the parameters and the context. |
| Tone.ToggleTwice | src/services/audioService.js:181-188 | Toggling twice returns to the original playing state, with the base frequency, beat frequency and volume unchanged. |
| Tone.AlwaysValid | src/services/audioService.js:36-199 | Under any sequence of operations the parameters stay in range, and while sounding the right channel stays at base + beat. |
| Reorder.SpliceStart | src/providers/AffirmationProvider.jsx:459 | `splice` counts a negative index from the end and clips any index into [0, len]. |
| Reorder.Move | src/providers/AffirmationProvider.jsx:458-460 | After a move, the moved element sits at the destination, the others keep their relative order, and the list is a permutation of the original. |
| Reorder.Positions | src/providers/AffirmationProvider.jsx:463-466 | Every listed id maps to a position that holds it. |
| Reorder.WithOrders | src/providers/AffirmationProvider.jsx:469-474 | Only `order` changes, and only for the listed ids, which get their new positions. |
| Reorder.NewOrders | src/providers/AffirmationProvider.jsx:458-466 | After a move, exactly the listed ids have a new position, each inside the list, and with distinct ids the dragged item's position is the destination index. |
| Reorder.ApplyMove | src/providers/AffirmationProvider.jsx:458-474 | A source index past the end fails. Otherwise only `order` changes, only for the listed ids, and each of those gets its id's position in the moved list. |
| Reorder.ReorderAsWritten | src/providers/AffirmationProvider.jsx:451-474 | As written: the same index does nothing, and an index past the end fails. Otherwise only the `order` of the enabled items with audio changes, each to its id's position after moving within those items in playlist order. |
| Reorder.Reorder | src/providers/AffirmationProvider.jsx:451-474 | Corrected to take indices into the displayed list: the same index does nothing, an index past the end fails, and otherwise only the displayed items' `order` changes, each to its id's position in the moved displayed list. |
| Reorder.ReorderMovesDisplayed | src/providers/AffirmationProvider.jsx:451-474 | After a drag, the editor shows exactly the dragged arrangement, numbered 0, 1, 2, … |
| Reorder.ReorderAsWrittenMisordersDisplay | src/providers/AffirmationProvider.jsx:453-460 | As written, dragging the first displayed row below the second leaves the display in its old order when playlist order differs from display order. |
| Provider.EnabledItemsSorted | src/providers/AffirmationProvider.jsx:170-173 | The enabled items, sorted by `order`. |
| Provider.ActiveItems | src/providers/AffirmationProvider.jsx:179 | The session items when there are any, otherwise the enabled items sorted. |
| Provider.CurrentItem | src/providers/AffirmationProvider.jsx:182-188 | None exactly when the active list is empty. Otherwise an active item, which is the one at the index when the index is in range. |
| Provider.CurrentItemPeriodic | src/providers/AffirmationProvider.jsx:186-188 | Moving the index on by one full length of the active list names the same item. With the in-range clause, this fixes the item for every index, as `currentIndex % activeItems.length` does. |
| Provider.PreloadUrl | src/providers/AffirmationProvider.jsx:43-54 | An empty or cached url changes nothing. A new url adds exactly that key, and existing entries are kept. |
| Provider.PreloadIdempotent | src/providers/AffirmationProvider.jsx:43-54 | Preloading the same url twice is the same as preloading it once. |
| Provider.PreloadItems | src/providers/AffirmationProvider.jsx:57-63 | The cache keys become the old keys plus every item audio url. Old entries are kept, and new ones get fresh handles. |
| Provider.PreloadItemsIdempotent | src/providers/AffirmationProvider.jsx:57-63 | Preloading items whose urls are all cached changes nothing. |
| Provider.PlayAudio | src/providers/AffirmationProvider.jsx:248-269 | An empty url changes nothing. Otherwise the url is cached (inserted on a miss), its entry becomes the current clip, and nothing else changes. |
| Provider.ShowItem | src/providers/AffirmationProvider.jsx:316-327 | An item with audio has its clip cached and made current, and the timers are untouched. An item without audio, while running, gets a timer of 3000 + gap·1000 ms that becomes the gap timer. While stopped it changes nothing. Only the cache, handle counter, clip and timers change, and existing cache entries are kept. |
| Provider.NextAffirmation | src/providers/AffirmationProvider.jsx:309-331 | An empty active list changes nothing. Otherwise the index becomes (i + 1) mod len, which is always in range. The item at the new index has its clip played. Without audio, while running, it is shown for 3000 + gap·1000 ms before the next one. Without audio while stopped, only the index moves. Nothing outside the index, cache, handle counter, clip and timers changes. |
| Provider.Start | src/providers/AffirmationProvider.jsx:334-358 | Returns false exactly when the active list is empty. Otherwise playback runs from index 0: the first item is played, or, without audio, shown for 3 s plus the gap. Only the running flag, index, cache, handle counter, clip and timers change. From a valid state, timers already pending stay pending, including an old gap timer. Cached clips stay cached. |
| Provider.StopPlayback | src/providers/AffirmationProvider.jsx:361-375 | Playback stops and the referenced gap timer is cancelled. Only the running flag, the playing flag, the timers and the gap reference change: the lists, index, cache and current clip are kept. |
| Provider.ClipEnded | src/providers/AffirmationProvider.jsx:278-291 | The clip is no longer playing. While running, the next item follows after the gap, and only the playing flag, the timers, the gap reference and the handle counter change. While stopped, only the playing flag changes. |
| Provider.FireTimer | src/providers/AffirmationProvider.jsx:284-290 | An unknown handle does nothing. A pending timer is consumed and then `nextAffirmation` runs, so the index advances by one, wrapping around. From a valid state, the fired handle is no longer pending afterwards. |
| Provider.SessionCandidates | src/providers/AffirmationProvider.jsx:201-210 | A permutation of the items with audio whose `categoryId` was chosen (same multiset), sorted by `order`. |
| Provider.SessionCandidatesStable | src/providers/AffirmationProvider.jsx:201-210 | The sort is stable: candidates with equal `order` keep their playlist order. |
| Provider.PrepareSession | src/providers/AffirmationProvider.jsx:201-222 | The session is the candidates, or a permutation of them when shuffled. The index restarts, and every clip of the session is preloaded, with existing cache entries kept. Nothing but the session, index, cache and handle counter changes. |
| Provider.StopCancelsStartTimer | src/providers/AffirmationProvider.jsx:334-375 | From a valid state whose first item has no audio, stopping right after a start leaves exactly the timers pending before the start. |
| Provider.StopCancelsGapTimer | src/providers/AffirmationProvider.jsx:278-291 | From a valid running state, stopping right after a clip end cancels the gap timer and nothing else. The result is the original state, stopped and silent, with one handle used. |
| Provider.SetEnabled | src/providers/AffirmationProvider.jsx:391-393 | Only items with the id get the new `enabled` value. |
| Provider.ToggleItemEnabled | src/providers/AffirmationProvider.jsx:379-402 | An unknown id changes nothing. Otherwise the item's flag is flipped. Only the playlist, the clip cache and the handle counter change. The item's clip becomes a cache key exactly when the item is being enabled and has audio. Existing cache entries are kept, and the sequencer stays valid. |
| Provider.ToggleTwiceRestores | src/providers/AffirmationProvider.jsx:379-402 | With distinct ids, toggling the same item twice restores the playlist. |
| Provider.AddToPlaylist | src/providers/AffirmationProvider.jsx:405-426 | An unknown or already enabled item changes nothing. Otherwise the item is enabled. Only the playlist, the clip cache and the handle counter change. The item's clip becomes a cache key exactly when the item has audio. Existing cache entries are kept, and the sequencer stays valid. |
| Provider.RemoveFromPlaylist | src/providers/AffirmationProvider.jsx:429-448 | An unknown or already disabled item changes nothing. Otherwise the item is disabled. |
| Provider.AddRemoveAreOneWayToggles | src/providers/AffirmationProvider.jsx:379-448 | Add and remove each either do nothing or do exactly what the toggle does. |
| Provider.ReorderPlaylist | src/providers/AffirmationProvider.jsx:451-474 | Corrected reorder (indices into the displayed list): nothing changes for the same index or one past the end. Otherwise only `order` changes, only for displayed ids, each to its position in the moved displayed list. |
| Provider.AdvancesStayInRange | src/providers/AffirmationProvider.jsx:309-331 | After n advances the index is (i + n) mod len, so it stays in range and the sequencer stays valid. |
| Player.FirstPhase | src/components/PlayerScreen.jsx:394-403 | The first phase is induction if it has a script, else deepening if it has one, else the affirmations. |
| Player.AdvanceToPhase | src/components/PlayerScreen.jsx:107-119 | Clears the script and schedules the next phase after 3000 ms. Nothing else changes. |
| Player.PlayScriptPhase | src/components/PlayerScreen.jsx:122-207 | A script without text moves on after the delay. Otherwise the previous script clip and timer are stopped, the text shows, and the script's clip plays or, without audio, its countdown (60 s by default) runs. |
| Player.PhaseEffect | src/components/PlayerScreen.jsx:211-225 | While playing, script phases without a script are passed over until a phase with one or the affirmations. Otherwise nothing changes. |
| Player.SkipItemLater | src/components/PlayerScreen.jsx:294-298 | An item without audio gets no clip. The next item follows after (gap + 3)·1000 ms. |
| Player.PlayItemClip | src/components/PlayerScreen.jsx:300-322 | An item with audio gets a new playing clip, which records the index, length and loop switch it closed over. |
| Player.ItemEffect | src/components/PlayerScreen.jsx:288-326 | Only while playing the affirmations with items: it plays the current item, or schedules the skip when the item has no audio. |
| Player.Commit | src/components/PlayerScreen.jsx:211-326 | Effects run only when their dependencies changed. When the affirmation effect's dependencies changed while the affirmations play, the current item's clip restarts. After a stop, only that effect's cleanup runs. |
| Player.Init | src/components/PlayerScreen.jsx:88-94 | The screen starts stopped and preparing, at index 0, with the session's items. |
| Player.ToggleShuffle | src/components/PlayerScreen.jsx:228-240 | Turned off, the list is the original. Turned on, it is a shuffle of the original. In both cases it is a permutation and the index restarts. A new list is set each time, so during the affirmations the first item's clip starts afresh. |
| Player.Start | src/components/PlayerScreen.jsx:385-404 | An empty list changes nothing. Otherwise the player plays and the tone sounds, preparing at index 0, with the first phase due after 3000 ms. |
| Player.Halt | src/components/PlayerScreen.jsx:357-384 | After a stop: not playing, preparing, script and progress reset, tone off, and the script and transition timers cancelled. |
| Player.StopSilences | src/components/PlayerScreen.jsx:357-463 | With the corrected stop (everything pending cancelled), a stop, back or end leaves the screen stopped with nothing pending, so no timer or clip report can restart it. |
| Player.PlayNext | src/components/PlayerScreen.jsx:246-268 | Moves to the next item. After the last item it goes back to the first when looping; otherwise awakening (with a script) or completion is due after 3000 ms. |
| Player.AdvanceStaysInRange | src/components/PlayerScreen.jsx:246-268 | An index inside the list stays inside after any advance. |
| Player.RunTask | src/components/PlayerScreen.jsx:115-118 | An entered phase becomes current. Finishing completes the session and stops the tone. |
| Player.ClipEnded | src/components/PlayerScreen.jsx:162-164 | A script's clip moves on to the next phase after the delay. An item's clip completes and the next item follows after the gap. |
| Player.ClipFailed | src/components/PlayerScreen.jsx:166-184 | A script clip falls back to its countdown. An item clip's error is ignored. |
| Player.SkipToPhase | src/components/PlayerScreen.jsx:466-507 | A skip starts playback, enters the target phase (the affirmations from index 0), and plays a script phase's script 100 ms later. |
| Player.SkipPassedOverReplaysItem | src/components/PlayerScreen.jsx:211-224 | Skipping back to script phases that have no script, while an item plays, lands in the affirmations again, and the item at the same index plays from a new clip. |
| Player.RunKeepsValid | src/components/PlayerScreen.jsx:57-507 | Every run of events keeps the handle and list invariant. |
| Player.ShuffleOffRestoresOriginal | src/components/PlayerScreen.jsx:228-240 | After any run of events the list is a permutation of the session. With shuffle off it is exactly the session's order. |
| Player.TotalProgress | src/components/PlayerScreen.jsx:513-541 | Progress is 0 while preparing and 100 when complete. Otherwise it is the phase's band start plus its width times the fraction done. |
| Player.TotalProgressInBand | src/components/PlayerScreen.jsx:513-541 | With in-range inputs, progress stays inside its phase's band, and so within [0, 100]. |
| Player.StopAsWrittenLetsAwakeningPlay | src/components/PlayerScreen.jsx:316-320 | As written: stopping in the gap after the last clip leaves its timer pending, and the awakening script then plays while stopped. |
| Player.StopCancellingEndsSession | src/components/PlayerScreen.jsx:357-384 | With stop cancelling everything pending, the same stop ends the session for good. |
| Player.PlayFromInit | src/components/PlayerScreen.jsx:385-404 | Pressing play on a fresh screen whose session has items and no induction or deepening script leaves it playing and preparing at index 0. The affirmations phase is due as the first timer. |
| Player.EnterAffirmationsPlays | src/components/PlayerScreen.jsx:288-326 | When the timer that enters the affirmations phase fires and the current item has audio, that item's clip plays under the next handle. Index, list and loop switch are unchanged. |
| Player.LastItemPlayingReached | src/components/PlayerScreen.jsx:385-404 | The finding's start state is reachable. Take any session of one item with a clip, no induction or deepening script, and an awakening script with a clip. After pressing play and waiting out the start delay, that last item is playing. |

## Left out

- Real Web Audio and media elements are not modelled: the oscillator graph, `play()` promises, and progress derived from floating-point durations. Clips and oscillators are handles; their end and error reports are events.
- Wall-clock time is not modelled. A timer records its delay; the 100 ms script countdown is one timer for the whole script duration, and its progress ticks are not modelled.
- Randomness is not modelled: the shuffle takes its draws as input, and only its permutation property is proved.
- Floating point is replaced by exact reals, and `toFixed` slider labels are not modelled.
- The network client, voice recording service, authentication provider and sign-in screen are I/O and are not part of this model. So are the provider's asynchronous loading, API sync and `mountedRef` guards.
- The audio URL prefixing with the API base URL is not modelled: an audio url is an opaque string.
- The audio provider wrapper is not modelled. It keeps the unclamped value in React state; the model clamps at the service.
- Volume, speed and gap settings effects, the settings panel and pure rendering components are not modelled.
- The `stateRef` lag of the provider (handlers read the state of the last render) is not modelled: handlers read the current state.
- JavaScript object-key ordering for category maps is not modelled: maps are unordered, and `CategoryScreen.SelectAll` returns first-appearance order.
- Text.LowerChar: `toLowerCase` is modelled for the ASCII capitals and the Latin-1 capitals U+00C0..U+00DE except U+00D7. Other scripts' capitals and Unicode's special cases (such as final sigma) stay unchanged, so the search and `Text.LowerIdempotent` hold for this mapping only.
- Format.FormatBinauralSummary: only whole-number frequencies are rendered, because JavaScript's rendering of fractional numbers is not modelled.
- Provider.PlayAudio: whether the clip actually starts is reported later by `ClipStarted`/`ClipFailed` events, not by the call.
- Player.Commit: effect runs are collapsed into one step per event. The phase effect runs first, and its chain of passed-over phases resolves at once.
- Player.ClipEnded: two stale gap timers can push the index past the end. The item lookup then yields nothing, as JavaScript yields `undefined`. No property is claimed about that state.
- Provider.ReorderPlaylist: uses the corrected `Reorder.Reorder`, which applies the drag indices to the displayed list; the provider as written applies them to the enabled items with audio in playlist order, which `Reorder.ReorderAsWritten` models (see Findings).
- Player.HandlePlay: the play button's stop is the corrected one, which cancels every pending timer and pauses every clip. The screen as written cancels only the script and transition timers; `Player.HandlePlayAsWritten` models that, and runs of events (`Player.Apply`, `Player.Run`) use the corrected stop.
- Player.HandleLeave: back and end also pause the audio element and cancel the script timer without forgetting its handle. The model cancels everything pending, as the corrected stop does.

## Findings

| source | as written | input that shows it | evidently intended | confidence | as-written member | corrected member |
|---|---|---|---|---|---|---|
| src/providers/AffirmationProvider.jsx:453-460 | `reorderPlaylist` applies the editor's drag indices to the enabled items with audio in playlist order | two displayed items listed against their `order` (`a` order 1 before `b` order 0), dragging row 0 to row 1 | the indices address the list the editor shows, sorted by `order`, so the dragged arrangement is what is shown afterwards | high; not executed | Reorder.ReorderAsWrittenMisordersDisplay | Reorder.ReorderMovesDisplayed |
| src/components/PlayerScreen.jsx:316-320 | the timer that an affirmation clip's end sets up is held by nothing, so stop (357-384), back and end cannot cancel it | a one-item session with an awakening script that has audio: stop during the gap after the clip ends; the timer then schedules the awakening, whose clip plays although playback is stopped | stopping ends the session: no pending timer survives a stop | high; not executed | Player.StopAsWrittenLetsAwakeningPlay | Player.StopCancellingEndsSession |
