/** The records every part of the application passes around: affirmation
    items and scripts, plus the three computations on item lists that several
    components share (stable sort by `order`, the duration estimate and the
    Fisher-Yates shuffle).

    JavaScript truthiness is modelled with sentinels: an absent or empty
    string is "", an absent or zero duration is 0; `order` may be absent
    (`order ?? 0`), so it is an Option. */
module Items {
  import opened Seqs

  /** An affirmation as the providers and screens hold it. Local catalogue items
      carry `category`/`categoryName`; items from the service carry `categoryId`. */
  datatype Item = Item(
    id: string,
    text: string,
    categoryId: string,
    category: string,
    categoryName: string,
    enabled: bool,
    order: Option<int>,
    audioUrl: string,
    audioDurationMs: int)

  /** An induction, deepening or awakening script (`duration_estimate_sec`, `is_premium`). */
  datatype Script = Script(id: string, text: string, audioUrl: string, durationSec: int, premium: bool)

  /** `item.audioUrl` is truthy. */
  predicate HasAudio(i: Item) {
    i.audioUrl != ""
  }

  /** What a selection screen hands to the player: the items to play and the chosen scripts. */
  datatype SessionConfig = SessionConfig(items: seq<Item>, induction: Option<Script>, deepening: Option<Script>, awakening: Option<Script>)

  /** `items.map(item => item.id)`. */
  function ItemIds(items: seq<Item>): (r: seq<string>)
    ensures |r| == |items|
    ensures forall k :: 0 <= k < |items| ==> r[k] == items[k].id
  {
    Map(items, (i: Item) => i.id)
  }

  /** No two items share an id. */
  predicate DistinctIds(s: seq<Item>) {
    forall i, j :: 0 <= i < j < |s| ==> s[i].id != s[j].id
  }

  /** Reordering items never makes two of them share an id. */
  lemma DistinctIdsPermutation(a: seq<Item>, b: seq<Item>)
    requires DistinctIds(a)
    requires multiset(a) == multiset(b)
    ensures DistinctIds(b)
  {
    assert NoDup(a);
    NoDupPermutation(a, b);
    forall i, j | 0 <= i < j < |b|
      ensures b[i].id != b[j].id
    {
      assert b[i] in multiset(a) && b[j] in multiset(a);
      var p :| 0 <= p < |a| && a[p] == b[i];
      var q :| 0 <= q < |a| && a[q] == b[j];
    }
  }

  /** Whether an item's id is one of `ids`. */
  function IdIn(ids: seq<string>): Item -> bool {
    (i: Item) => i.id in ids
  }

  /** `item.categoryId || item.category`. */
  function CatKey(i: Item): string {
    if i.categoryId != "" then i.categoryId else i.category
  }

  /** The predicate "is filed under key `k`". */
  function CatKeyIs(k: string): Item -> bool {
    (i: Item) => CatKey(i) == k
  }

  /** `item.order ?? 0`. */
  function OrderKey(i: Item): int {
    i.order.GetOr(0)
  }

  /** `item.audioDurationMs || 3000`: the clip length, 3 s when unknown. */
  function ClipMs(i: Item): int {
    if i.audioDurationMs != 0 then i.audioDurationMs else 3000
  }

  // ---------------------------------------------------------------------------
  // Stable sort by order: `.sort((a, b) => (a.order ?? 0) - (b.order ?? 0))`.
  // JavaScript's sort is stable, so its result is the unique stable sort.
  // ---------------------------------------------------------------------------

  predicate SortedBy<T>(s: seq<T>, key: T -> int) {
    forall i, j :: 0 <= i < j < |s| ==> key(s[i]) <= key(s[j])
  }

  /** Inserts `x` in front of the first element whose key is greater than its own. */
  function InsertBy<T>(t: seq<T>, x: T, key: T -> int): (r: seq<T>)
    ensures multiset(r) == multiset(t) + multiset{x}
    ensures |r| == |t| + 1
  {
    if |t| == 0 then [x]
    else if key(x) < key(t[0]) then [x] + t
    else
      assert t == [t[0]] + t[1..];
      [t[0]] + InsertBy(t[1..], x, key)
  }

  /** Insertion sort: each element in turn is inserted into the sorted prefix. */
  function SortBy<T>(s: seq<T>, key: T -> int): (r: seq<T>)
    ensures multiset(r) == multiset(s)
    ensures |r| == |s|
  {
    if |s| == 0 then []
    else
      assert s == s[..|s| - 1] + [s[|s| - 1]];
      InsertBy(SortBy(s[..|s| - 1], key), s[|s| - 1], key)
  }

  lemma {:induction false} InsertBySorted<T>(t: seq<T>, x: T, key: T -> int)
    requires SortedBy(t, key)
    ensures SortedBy(InsertBy(t, x, key), key)
  {
    if |t| > 0 && key(x) >= key(t[0]) {
      var r' := InsertBy(t[1..], x, key);
      InsertBySorted(t[1..], x, key);
      forall i | 0 <= i < |r'|
        ensures key(t[0]) <= key(r'[i])
      {
        assert r'[i] in multiset(r');
        if r'[i] != x {
          assert r'[i] in multiset(t[1..]);
          var j :| 0 <= j < |t[1..]| && t[1..][j] == r'[i];
          assert t[j + 1] == r'[i];
        }
      }
    }
  }

  /** The result of the sort is ordered by `key`. */
  lemma {:induction false} SortBySorted<T>(s: seq<T>, key: T -> int)
    ensures SortedBy(SortBy(s, key), key)
  {
    if |s| > 0 {
      SortBySorted(s[..|s| - 1], key);
      InsertBySorted(SortBy(s[..|s| - 1], key), s[|s| - 1], key);
    }
  }

  /** The predicate "has key `k`". */
  function KeyIs<T>(key: T -> int, k: int): T -> bool {
    (y: T) => key(y) == k
  }

  lemma {:induction false} InsertByStable<T(!new)>(t: seq<T>, x: T, key: T -> int, k: int)
    requires SortedBy(t, key)
    ensures Filter(InsertBy(t, x, key), KeyIs(key, k)) == Filter(t, KeyIs(key, k)) + Filter([x], KeyIs(key, k))
  {
    var p := KeyIs(key, k);
    if |t| == 0 {
      assert t + [x] == [x];
    } else if key(x) < key(t[0]) {
      InsertInFront(t, x, key, k);
    } else {
      SortedTail(t, key);
      InsertByStable(t[1..], x, key, k);
      InsertBehindHead(t, x, key, k);
    }
  }

  lemma SortedTail<T>(t: seq<T>, key: T -> int)
    requires |t| > 0 && SortedBy(t, key)
    ensures SortedBy(t[1..], key)
    ensures forall i :: 0 <= i < |t| ==> key(t[0]) <= key(t[i])
  {
    forall i, j | 0 <= i < j < |t| - 1
      ensures key(t[1..][i]) <= key(t[1..][j])
    {
      assert t[1..][i] == t[i + 1] && t[1..][j] == t[j + 1];
    }
  }

  /** An element placed in front of a sorted sequence with larger keys. */
  lemma InsertInFront<T(!new)>(t: seq<T>, x: T, key: T -> int, k: int)
    requires |t| > 0 && SortedBy(t, key) && key(x) < key(t[0])
    ensures Filter(InsertBy(t, x, key), KeyIs(key, k)) == Filter(t, KeyIs(key, k)) + Filter([x], KeyIs(key, k))
  {
    var p := KeyIs(key, k);
    assert InsertBy(t, x, key) == [x] + t;
    FilterAppend([x], t, p);
    if key(x) == k {
      SortedTail(t, key);
      FilterNone(t, p);
      assert Filter(t, p) + Filter([x], p) == Filter([x], p);
    } else {
      assert Filter([x], p) == [] by { FilterNone([x], p); }
    }
  }

  /** The inductive step: the head stays in front of the insertion into the tail. */
  lemma InsertBehindHead<T(!new)>(t: seq<T>, x: T, key: T -> int, k: int)
    requires |t| > 0 && key(x) >= key(t[0])
    requires Filter(InsertBy(t[1..], x, key), KeyIs(key, k)) == Filter(t[1..], KeyIs(key, k)) + Filter([x], KeyIs(key, k))
    ensures Filter(InsertBy(t, x, key), KeyIs(key, k)) == Filter(t, KeyIs(key, k)) + Filter([x], KeyIs(key, k))
  {
    var p := KeyIs(key, k);
    var r' := InsertBy(t[1..], x, key);
    var front, rest, mid := Filter([t[0]], p), Filter(t[1..], p), Filter([x], p);
    assert InsertBy(t, x, key) == [t[0]] + r';
    FilterAppend([t[0]], r', p);
    assert Filter(InsertBy(t, x, key), p) == front + (rest + mid);
    HeadTail(t);
    FilterAppend([t[0]], t[1..], p);
    assert Filter(t, p) == front + rest;
    AppendAssoc(front, rest, mid);
  }

  /** Stability: the elements with any one key keep their relative order. */
  lemma {:induction false} SortByStable<T(!new)>(s: seq<T>, key: T -> int, k: int)
    ensures Filter(SortBy(s, key), KeyIs(key, k)) == Filter(s, KeyIs(key, k))
  {
    if |s| > 0 {
      var init := s[..|s| - 1];
      var last := s[|s| - 1];
      assert s == init + [last];
      SortByStable(init, key, k);
      SortBySorted(init, key);
      InsertByStable(SortBy(init, key), last, key, k);
      FilterAppend(init, [last], KeyIs(key, k));
    }
  }

  lemma {:induction false} InsertAtEnd<T>(t: seq<T>, x: T, key: T -> int)
    requires forall i :: 0 <= i < |t| ==> key(t[i]) <= key(x)
    ensures InsertBy(t, x, key) == t + [x]
  {
    if |t| > 0 {
      InsertAtEnd(t[1..], x, key);
      assert t == [t[0]] + t[1..];
    }
  }

  /** An already ordered sequence is left exactly as it is. */
  lemma {:induction false} SortByOfSorted<T>(s: seq<T>, key: T -> int)
    requires SortedBy(s, key)
    ensures SortBy(s, key) == s
  {
    if |s| > 0 {
      var init, last := s[..|s| - 1], s[|s| - 1];
      SortedInit(s, key);
      SortByOfSorted(init, key);
      SortByUnfold(s, key);
      InsertAtEnd(init, last, key);
      InitLast(s);
    }
  }

  lemma SortedInit<T>(s: seq<T>, key: T -> int)
    requires |s| > 0 && SortedBy(s, key)
    ensures SortedBy(s[..|s| - 1], key)
    ensures forall i :: 0 <= i < |s| - 1 ==> key(s[i]) <= key(s[|s| - 1])
  {
  }

  lemma SortByUnfold<T>(s: seq<T>, key: T -> int)
    requires |s| > 0
    ensures SortBy(s, key) == InsertBy(SortBy(s[..|s| - 1], key), s[|s| - 1], key)
  {
  }

  /** The playlist sorted by `order` (absent counts as 0), equal orders kept in input order. */
  function SortByOrder(s: seq<Item>): (r: seq<Item>)
    ensures SortedBy(r, OrderKey)
    ensures multiset(r) == multiset(s)
  {
    SortBySorted(s, OrderKey);
    SortBy(s, OrderKey)
  }

  /** JavaScript's sort is stable, so items with the same `order` keep their playlist order. */
  lemma SortByOrderStable(s: seq<Item>, k: int)
    ensures Filter(SortByOrder(s), KeyIs(OrderKey, k)) == Filter(s, KeyIs(OrderKey, k))
  {
    SortByStable(s, OrderKey, k);
  }

  // ---------------------------------------------------------------------------
  // Duration estimate: `items.reduce((t, i) => t + (i.audioDurationMs || 3000) + gap * 1000, 0)`.
  // ---------------------------------------------------------------------------

  function EstimatedMs(items: seq<Item>, gapSec: int): int {
    if |items| == 0 then 0 else ClipMs(items[0]) + gapSec * 1000 + EstimatedMs(items[1..], gapSec)
  }

  lemma {:induction false} EstimatedMsAppend(a: seq<Item>, b: seq<Item>, gapSec: int)
    ensures EstimatedMs(a + b, gapSec) == EstimatedMs(a, gapSec) + EstimatedMs(b, gapSec)
  {
    if |a| == 0 {
      assert a + b == b;
    } else {
      assert (a + b)[1..] == a[1..] + b;
      EstimatedMsAppend(a[1..], b, gapSec);
    }
  }

  /** Every item contributes at least its gap plus a clip; with no negative durations the
      estimate is bounded below by the gaps alone. */
  lemma {:induction false} EstimatedMsLowerBound(items: seq<Item>, gapSec: int)
    requires forall i :: 0 <= i < |items| ==> items[i].audioDurationMs >= 0
    ensures EstimatedMs(items, gapSec) >= |items| * gapSec * 1000
  {
    if |items| > 0 {
      EstimatedMsLowerBound(items[1..], gapSec);
    }
  }

  /** The estimate depends only on which items are listed, not on their order:
      shuffling the session never changes its estimated duration. */
  lemma {:induction false} EstimatedMsPermutation(a: seq<Item>, b: seq<Item>, gapSec: int)
    requires multiset(a) == multiset(b)
    ensures EstimatedMs(a, gapSec) == EstimatedMs(b, gapSec)
    decreases |a|
  {
    if |a| == 0 {
      assert |b| == |multiset(b)| == 0;
    } else {
      var x := a[0];
      var k := PickOut(a, b);
      var b' := b[..k] + b[k + 1..];
      EstimatedMsPermutation(a[1..], b', gapSec);
      EstimatedMsAppend(b[..k] + [x], b[k + 1..], gapSec);
      EstimatedMsAppend(b[..k], [x], gapSec);
      EstimatedMsAppend(b[..k], b[k + 1..], gapSec);
    }
  }

  // ---------------------------------------------------------------------------
  // Fisher-Yates shuffle. `Math.random()` is an input: `draws[k]` chooses the
  // swap partner of the k-th step (every legal choice 0..i is expressible; a
  // draw beyond i counts as i); missing draws choose 0.
  // ---------------------------------------------------------------------------

  function Swap<T>(s: seq<T>, i: nat, j: nat): (r: seq<T>)
    requires i < |s| && j < |s|
    ensures |r| == |s|
    ensures multiset(r) == multiset(s)
    ensures r[i] == s[j] && r[j] == s[i]
    ensures forall k :: 0 <= k < |s| && k != i && k != j ==> r[k] == s[k]
  {
    if i == j then s
    else
      var r := s[i := s[j]][j := s[i]];
      assert multiset(s[i := s[j]]) == multiset(s) - multiset{s[i]} + multiset{s[j]};
      r
  }

  /** The swap partner of step `k`, which swaps position `i`. */
  function Draw(draws: seq<nat>, k: nat, i: nat): (j: nat)
    ensures j <= i
  {
    if k >= |draws| then 0 else if draws[k] <= i then draws[k] else i
  }

  /** The shuffle from position `i` down, the `k`-th draw next. */
  function ShuffleFrom<T>(s: seq<T>, i: nat, k: nat, draws: seq<nat>): (r: seq<T>)
    requires i < |s|
    ensures |r| == |s|
    ensures multiset(r) == multiset(s)
    decreases i
  {
    if i == 0 then s else ShuffleFrom(Swap(s, i, Draw(draws, k, i)), i - 1, k + 1, draws)
  }

  /** `shuffleArray`: the loop swaps a copy in place from the last position down, which is
      `ShuffleFrom` from position `|a| - 1` with the first draw; the input itself is a value
      and is never mutated. The result is a permutation of the input. */
  function ShuffleArray<T>(a: seq<T>, draws: seq<nat>): (r: seq<T>)
    ensures |r| == |a|
    ensures multiset(r) == multiset(a)
  {
    if |a| == 0 then a
    else
      ShuffleFrom(a, |a| - 1, 0, draws)
  }
}
